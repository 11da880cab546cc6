/**
 Compiling the selected runs of a version-2 job: the knobs each duration derives, and each run's view, built by its
 backend's adapter once for all runs that need the same and taken from the cache after that.
 */
module RunCompiler {
  import opened Options
  import opened RunSelection

  datatype Size = Size(width: nat, height: nat)

  /** A one-run job as the adapter made it, with the size of what it hands off when that is known. */
  datatype View = View(contents: string, size: Option<Size>)

  /** A value as it compares: an integer and a decimal of the same size are one. */
  datatype Compared = Quantity(x: real) | Word(text: string) | Nothing | Other

  function Comparing(value: Value): Compared {
    match value
    case Whole(n) => Quantity(n as real)
    case Decimal(x) => Quantity(x)
    case Text(text) => Word(text)
    case Null => Nothing
    case OtherValue => Other
  }

  function AllCompared(knobs: Knobs): map<string, Compared> {
    map key | key in knobs :: Comparing(knobs[key])
  }

  /** What the cache files a view under. */
  datatype Key = Key(
    backend: string,
    pipeline: string,
    prompt: string,
    profile: string,
    knobs: map<string, Compared>,
    input: Option<string>,
    handoff: Option<Size>)

  /** The one-run job made of a run, its numbers as the job wrote them. */
  datatype OneRunJob = OneRunJob(
    backend: string,
    pipeline: string,
    prompt: string,
    profile: string,
    timeout: Value,
    seconds: Option<Value>,
    frames: Option<Value>,
    seed: Option<Value>,
    reference: Option<Value>,
    input: Option<string>,
    handoff: Option<Size>)

  /** What an adapter makes a view of: the same job, its durations made decimals. */
  datatype Request = Request(
    backend: string,
    pipeline: string,
    prompt: string,
    profile: string,
    timeout: real,
    seconds: Option<real>,
    frames: Option<Value>,
    seed: Option<Value>,
    reference: Option<Value>,
    input: Option<string>,
    handoff: Option<Size>)

  /** A duration as the decimal of its size; anything but a positive number is refused. */
  function Duration(value: Value): Option<real> {
    if value.Positive() then Some(value.Number()) else None
  }

  /** Parsing begins with this: the durations are made decimals, every other value stays in the form it has. */
  function Normalised(job: OneRunJob): Option<Request> {
    if Duration(job.timeout).None? || (job.seconds.Some? && Duration(job.seconds.value).None?) then None
    else
      Some(Request(job.backend, job.pipeline, job.prompt, job.profile, Duration(job.timeout).value,
                   if job.seconds.None? then None else Duration(job.seconds.value),
                   job.frames, job.seed, job.reference, job.input, job.handoff))
  }

  /**
   What one job's compilation reads of the backends and the files: `build`, an adapter's view of a one-run job;
   a profile's frame rate with where that comes from, and its configuration's own frame count; and the settings
   shown of a run.
   */
  datatype Tools = Tools(
    build: Request -> Option<View>,
    frameRate: string -> Option<(real, string)>,
    baseFrames: string -> Option<nat>,
    safe: (Selection, View, Knobs, Sources) -> string)

  // --- derived knobs ----------------------------------------------------------------------------

  function Rounded(x: real): int {
    (x + 0.5).Floor
  }

  /** The nearest frame count on the grid of 17 n + 5, from 5 to 362. */
  function EffectiveFrames(frames: int): int {
    var onGrid := 5 + 17 * Rounded((frames - 5) as real / 17.0);
    if onGrid < 5 then 5 else if onGrid > 362 then 362 else onGrid
  }

  /** The frames a duration comes to at a rate. */
  function FramesAt(seconds: real, rate: real): int {
    Rounded(seconds * rate)
  }

  predicate NamesSeconds(knobs: Knobs) {
    "seconds" in knobs && knobs["seconds"].IsNumber()
  }

  function WithH3Frames(knobs: Knobs, sources: Sources): (Knobs, Sources)
    requires NamesSeconds(knobs)
  {
    var requested := FramesAt(knobs["seconds"].Number(), H3_FPS);
    var effective := EffectiveFrames(requested);
    (knobs["requested_frames" := Whole(requested)]["effective_frames" := Whole(effective)]
          ["effective_seconds" := Decimal(effective as real / H3_FPS)],
     sources["requested_frames" := "derived"]["effective_frames" := "backend"]["effective_seconds" := "derived"])
  }

  function WithRateFrames(knobs: Knobs, sources: Sources, fps: real, from: string): (Knobs, Sources)
    requires NamesSeconds(knobs)
  {
    (knobs["frames" := Whole(FramesAt(knobs["seconds"].Number(), fps))]["nominal_fps" := Decimal(fps)],
     sources["frames" := "derived"]["nominal_fps" := from])
  }

  /** The knobs and sources with what the run's duration derives; nothing when it cannot be resolved. */
  function Derived(tools: Tools, backend: string, pipeline: string, profile: string, knobs: Knobs, sources: Sources)
    : Option<(Knobs, Sources)>
  {
    if backend == H3 then
      if NamesSeconds(knobs) then Some(WithH3Frames(knobs, sources)) else None
    else if pipeline !in {"i2v", "t2v"} || "frames" in knobs then Some((knobs, sources))
    else if "seconds" in knobs then
      match tools.frameRate(profile)
      case None => None
      case Some((fps, from)) =>
        if !NamesSeconds(knobs) || FramesAt(knobs["seconds"].Number(), fps) < 1 then None
        else Some(WithRateFrames(knobs, sources, fps, from))
    else
      match tools.baseFrames(profile)
      case Some(frames) =>
        if frames >= 1 then Some((knobs["frames" := Whole(frames)], sources["frames" := "settings_profile"]))
        else Some((knobs, sources))
      case None => Some((knobs, sources))
  }

  // --- one run ----------------------------------------------------------------------------------

  datatype EffectiveRun = EffectiveRun(selection: Selection, knobs: Knobs, sources: Sources, safe: string, view: View)

  /** Whether the run reads what the run before it hands off. */
  predicate ConsumesHandoff(selection: Selection) {
    selection.number > 1 && TakesImage(selection.pipeline)
  }

  function InputOf(selection: Selection, jobInput: Option<string>): Option<string> {
    if ConsumesHandoff(selection) then Some(HandoffName(selection.number - 1))
    else if TakesImage(selection.pipeline) then jobInput
    else None
  }

  function Digits(n: nat): string {
    var digit := ["0123456789"[n % 10]];
    if n < 10 then digit else Digits(n / 10) + digit
  }

  function HandoffName(number: nat): string {
    "handoff-from-run-" + Digits(number)
  }

  function HandoffSize(selection: Selection, producer: Option<View>): Option<Size> {
    if ConsumesHandoff(selection) && producer.Some? then producer.value.size else None
  }

  function KeyOf(selection: Selection, jobInput: Option<string>, producer: Option<View>): Key {
    Key(selection.backend, selection.pipeline, selection.prompt, selection.profile,
        AllCompared(selection.knobs), InputOf(selection, jobInput), HandoffSize(selection, producer))
  }

  function Named(knobs: Knobs, key: string): Option<Value> {
    if key in knobs then Some(knobs[key]) else None
  }

  /** The one-run job of the run, its knobs with the derived ones included. */
  function JobOf(selection: Selection, knobs: Knobs, jobInput: Option<string>, producer: Option<View>): OneRunJob {
    var h3 := selection.backend == H3;
    OneRunJob(selection.backend, selection.pipeline, selection.prompt, selection.profile,
              if "timeout_seconds" in knobs then knobs["timeout_seconds"] else Null,
              if h3 then Named(knobs, "seconds") else None,
              Named(knobs, if h3 then "requested_frames" else "frames"),
              Named(knobs, "seed"),
              if selection.pipeline == "r2av" then Named(knobs, "reference_pair") else None,
              InputOf(selection, jobInput), HandoffSize(selection, producer))
  }

  /** The run compiled afresh: its knobs derived, then its view built. */
  function Compiled(tools: Tools, selection: Selection, jobInput: Option<string>, producer: Option<View>)
    : Option<EffectiveRun>
  {
    match Derived(tools, selection.backend, selection.pipeline, selection.profile, selection.knobs, selection.sources)
    case None => None
    case Some((knobs, sources)) =>
      match Built(tools, JobOf(selection, knobs, jobInput, producer))
      case None => None
      case Some(view) =>
        Some(EffectiveRun(selection, knobs, sources, tools.safe(selection, view, knobs, sources), view))
  }

  function Built(tools: Tools, job: OneRunJob): Option<View> {
    match Normalised(job)
    case None => None
    case Some(request) => tools.build(request)
  }

  function Last(runs: seq<EffectiveRun>): Option<View> {
    if runs == [] then None else Some(runs[|runs| - 1].view)
  }

  /** All of them afresh, each the producer of the next; nothing when one cannot be. */
  function AllCompiled(tools: Tools, selections: seq<Selection>, jobInput: Option<string>): Option<seq<EffectiveRun>> {
    if selections == [] then Some([])
    else
      match AllCompiled(tools, selections[..|selections| - 1], jobInput)
      case None => None
      case Some(before) =>
        match Compiled(tools, selections[|selections| - 1], jobInput, Last(before))
        case None => None
        case Some(run) => Some(before + [run])
  }

  // --- the cache --------------------------------------------------------------------------------

  /** Whatever a key was filed for, a selected run with that key would have it built alike now. */
  ghost predicate Coherent(tools: Tools, references: set<string>, views: map<Key, View>, jobInput: Option<string>) {
    forall selection: Selection, producer: Option<View> ::
      Sound(selection, references) && KeyOf(selection, jobInput, producer) in views ==>
        ViewIs(tools, selection, jobInput, producer, views[KeyOf(selection, jobInput, producer)])
  }

  predicate ViewIs(tools: Tools, selection: Selection, jobInput: Option<string>, producer: Option<View>, view: View) {
    && Compiled(tools, selection, jobInput, producer).Some?
    && Compiled(tools, selection, jobInput, producer).value.view == view
  }

  predicate Alike(a: Knobs, b: Knobs) {
    AllCompared(a) == AllCompared(b)
  }

  lemma AlikeHasAlike(a: Knobs, b: Knobs)
    requires Alike(a, b)
    ensures a.Keys == b.Keys
    ensures NamesSeconds(a) <==> NamesSeconds(b)
    ensures NamesSeconds(a) ==> a["seconds"].Number() == b["seconds"].Number()
  {
    assert a.Keys == AllCompared(a).Keys && b.Keys == AllCompared(b).Keys;
    if "seconds" in a {
      assert AllCompared(a)["seconds"] == AllCompared(b)["seconds"];
    }
  }

  lemma AddingComparesAlike(a: Knobs, b: Knobs, key: string, value: Value)
    requires Alike(a, b)
    ensures Alike(a[key := value], b[key := value])
  {
    assert AllCompared(a[key := value]) == AllCompared(a)[key := Comparing(value)];
    assert AllCompared(b[key := value]) == AllCompared(b)[key := Comparing(value)];
  }

  lemma H3FramesCompareAlike(a: Knobs, b: Knobs, ofA: Sources, ofB: Sources)
    requires Alike(a, b) && NamesSeconds(a) && NamesSeconds(b)
    ensures Alike(WithH3Frames(a, ofA).0, WithH3Frames(b, ofB).0)
  {
    AlikeHasAlike(a, b);
    var requested := FramesAt(a["seconds"].Number(), H3_FPS);
    var effective := EffectiveFrames(requested);
    var frames, more := Whole(requested), Whole(effective);
    AddingComparesAlike(a, b, "requested_frames", frames);
    AddingComparesAlike(a["requested_frames" := frames], b["requested_frames" := frames], "effective_frames", more);
    AddingComparesAlike(a["requested_frames" := frames]["effective_frames" := more],
                        b["requested_frames" := frames]["effective_frames" := more],
                        "effective_seconds", Decimal(effective as real / H3_FPS));
  }

  lemma RateFramesCompareAlike(a: Knobs, b: Knobs, ofA: Sources, ofB: Sources, fps: real, from: string)
    requires Alike(a, b) && NamesSeconds(a) && NamesSeconds(b)
    ensures Alike(WithRateFrames(a, ofA, fps, from).0, WithRateFrames(b, ofB, fps, from).0)
  {
    AlikeHasAlike(a, b);
    var frames := Whole(FramesAt(a["seconds"].Number(), fps));
    AddingComparesAlike(a, b, "frames", frames);
    AddingComparesAlike(a["frames" := frames], b["frames" := frames], "nominal_fps", Decimal(fps));
  }

  /** What is derived compares alike for runs that compare alike, whatever their knobs' sources. */
  lemma DerivedComparesAlike(
    tools: Tools, backend: string, pipeline: string, profile: string, a: Knobs, b: Knobs, ofA: Sources, ofB: Sources)
    requires Alike(a, b)
    ensures
      var fromA := Derived(tools, backend, pipeline, profile, a, ofA);
      var fromB := Derived(tools, backend, pipeline, profile, b, ofB);
      && (fromA.Some? <==> fromB.Some?)
      && (fromA.Some? ==> Alike(fromA.value.0, fromB.value.0))
  {
    AlikeHasAlike(a, b);
    if backend == H3 {
      if NamesSeconds(a) {
        H3FramesCompareAlike(a, b, ofA, ofB);
      }
    } else if pipeline in {"i2v", "t2v"} && "frames" !in a {
      if NamesSeconds(a) && tools.frameRate(profile).Some? {
        RateFramesCompareAlike(a, b, ofA, ofB, tools.frameRate(profile).value.0, tools.frameRate(profile).value.1);
      } else if tools.baseFrames(profile).Some? {
        AddingComparesAlike(a, b, "frames", Whole(tools.baseFrames(profile).value));
      }
    }
  }

  /** The forms the checks leave a run's knobs: all but durations have one form for each size. */
  predicate FormsOk(knobs: Knobs) {
    && (forall key | key in {"seed", "frames", "requested_frames"} && key in knobs :: knobs[key].Whole?)
    && ("reference_pair" in knobs ==> knobs["reference_pair"].Text?)
    && "timeout_seconds" in knobs && knobs["timeout_seconds"].Positive()
    && ("seconds" in knobs ==> knobs["seconds"].Positive())
  }

  lemma SoundFormsOk(selection: Selection, references: set<string>)
    requires Sound(selection, references)
    ensures FormsOk(selection.knobs)
  {
    var knobs := selection.knobs;
    assert forall key | key in knobs :: key in KNOB_KEYS && KnobOk(key, knobs[key], selection.backend, references);
    assert "requested_frames" !in KNOB_KEYS;
  }

  lemma DerivedFormsOk(tools: Tools, backend: string, pipeline: string, profile: string, knobs: Knobs, sources: Sources)
    requires FormsOk(knobs)
    requires Derived(tools, backend, pipeline, profile, knobs, sources).Some?
    ensures FormsOk(Derived(tools, backend, pipeline, profile, knobs, sources).value.0)
  {
  }

  lemma OneFormForEach(a: Knobs, b: Knobs, key: string)
    requires Alike(a, b)
    requires key in a ==> a[key].Whole? || a[key].Text?
    requires key in b ==> b[key].Whole? || b[key].Text?
    ensures Named(a, key) == Named(b, key)
  {
    assert a.Keys == AllCompared(a).Keys && b.Keys == AllCompared(b).Keys;
    if key in a {
      assert AllCompared(a)[key] == AllCompared(b)[key];
    }
  }

  lemma OneSizeForEach(a: Knobs, b: Knobs, key: string)
    requires Alike(a, b)
    requires key in a ==> a[key].Positive()
    ensures key in a <==> key in b
    ensures key in a ==> Duration(a[key]) == Duration(b[key])
  {
    assert a.Keys == AllCompared(a).Keys && b.Keys == AllCompared(b).Keys;
    if key in a {
      assert AllCompared(a)[key] == AllCompared(b)[key];
    }
  }

  /**
   Knobs that compare alike and passed their checks are one request, whatever forms their durations were written in.
   */
  lemma NormalisedAlike(
    a: Selection, b: Selection, knobsA: Knobs, knobsB: Knobs, jobInput: Option<string>,
    producerA: Option<View>, producerB: Option<View>)
    requires KeyOf(a, jobInput, producerA) == KeyOf(b, jobInput, producerB)
    requires Alike(knobsA, knobsB) && FormsOk(knobsA) && FormsOk(knobsB)
    ensures Normalised(JobOf(a, knobsA, jobInput, producerA)) == Normalised(JobOf(b, knobsB, jobInput, producerB))
  {
    OneFormForEach(knobsA, knobsB, "seed");
    OneFormForEach(knobsA, knobsB, "frames");
    OneFormForEach(knobsA, knobsB, "requested_frames");
    OneFormForEach(knobsA, knobsB, "reference_pair");
    OneSizeForEach(knobsA, knobsB, "timeout_seconds");
    OneSizeForEach(knobsA, knobsB, "seconds");
  }

  /** The request a run comes to; nothing when its knobs cannot be resolved or its durations are refused. */
  function RequestOf(tools: Tools, selection: Selection, jobInput: Option<string>, producer: Option<View>)
    : Option<Request>
  {
    match Derived(tools, selection.backend, selection.pipeline, selection.profile, selection.knobs, selection.sources)
    case None => None
    case Some((knobs, _)) => Normalised(JobOf(selection, knobs, jobInput, producer))
  }

  lemma OneKeyOneRequest(
    tools: Tools, references: set<string>, a: Selection, b: Selection, jobInput: Option<string>,
    producerA: Option<View>, producerB: Option<View>)
    requires Sound(a, references) && Sound(b, references)
    requires KeyOf(a, jobInput, producerA) == KeyOf(b, jobInput, producerB)
    ensures RequestOf(tools, a, jobInput, producerA) == RequestOf(tools, b, jobInput, producerB)
  {
    SoundFormsOk(a, references);
    SoundFormsOk(b, references);
    DerivedComparesAlike(tools, a.backend, a.pipeline, a.profile, a.knobs, b.knobs, a.sources, b.sources);
    var fromA := Derived(tools, a.backend, a.pipeline, a.profile, a.knobs, a.sources);
    var fromB := Derived(tools, b.backend, b.pipeline, b.profile, b.knobs, b.sources);
    if fromA.Some? {
      DerivedFormsOk(tools, a.backend, a.pipeline, a.profile, a.knobs, a.sources);
      DerivedFormsOk(tools, b.backend, b.pipeline, b.profile, b.knobs, b.sources);
      NormalisedAlike(a, b, fromA.value.0, fromB.value.0, jobInput, producerA, producerB);
    }
  }

  /** Selected runs of one key have one view, in whatever forms the job wrote their numbers. */
  lemma OneKeyOneView(
    tools: Tools, references: set<string>, a: Selection, b: Selection, jobInput: Option<string>,
    producerA: Option<View>, producerB: Option<View>)
    requires Sound(a, references) && Sound(b, references)
    requires KeyOf(a, jobInput, producerA) == KeyOf(b, jobInput, producerB)
    requires Compiled(tools, a, jobInput, producerA).Some?
    ensures ViewIs(tools, b, jobInput, producerB, Compiled(tools, a, jobInput, producerA).value.view)
  {
    OneKeyOneRequest(tools, references, a, b, jobInput, producerA, producerB);
    CompiledFromRequest(tools, a, jobInput, producerA);
    CompiledFromRequest(tools, b, jobInput, producerB);
  }

  lemma CompiledFromRequest(tools: Tools, selection: Selection, jobInput: Option<string>, producer: Option<View>)
    ensures
      var request := RequestOf(tools, selection, jobInput, producer);
      var compiled := Compiled(tools, selection, jobInput, producer);
      && (compiled.Some? <==> request.Some? && tools.build(request.value).Some?)
      && (compiled.Some? ==> Some(compiled.value.view) == tools.build(request.value))
  {
  }

  /** Runs share a key exactly when all that they are built from compares alike, whatever their places in the job. */
  lemma KeysAreSharedExactly(
    a: Selection, b: Selection, jobInput: Option<string>, producerA: Option<View>, producerB: Option<View>)
    ensures KeyOf(a, jobInput, producerA) == KeyOf(b, jobInput, producerB) <==>
            && (a.backend, a.pipeline, a.prompt, a.profile) == (b.backend, b.pipeline, b.prompt, b.profile)
            && Alike(a.knobs, b.knobs)
            && InputOf(a, jobInput) == InputOf(b, jobInput) && HandoffSize(a, producerA) == HandoffSize(b, producerB)
  {
  }

  /** One key does stand for two forms: a timeout of 5 and one of 5.0 are two jobs and one request. */
  lemma OneKeyTwoForms() returns (a: Selection, b: Selection)
    ensures Sound(a, {}) && Sound(b, {}) && a.number == b.number
    ensures KeyOf(a, None, None) == KeyOf(b, None, None)
    ensures JobOf(a, a.knobs, None, None) != JobOf(b, b.knobs, None, None)
    ensures Normalised(JobOf(a, a.knobs, None, None)) == Normalised(JobOf(b, b.knobs, None, None))
  {
    var whole, decimal := map["timeout_seconds" := Whole(5)], map["timeout_seconds" := Decimal(5.0)];
    a := Selection(1, DRAW_THINGS, "i2i", "a", "p", whole, map[]);
    b := a.(knobs := decimal);
    assert AllCompared(whole) == AllCompared(decimal);
    NormalisedAlike(a, b, whole, decimal, None, None, None);
  }

  /** One job's compiler: its cache starts empty and serves only that job. */
  class RunCompiler {
    const tools: Tools
    const references: set<string>
    const jobInput: Option<string>
    var views: map<Key, View>

    ghost predicate Valid()
      reads this
    {
      Coherent(tools, references, views, jobInput)
    }

    constructor (tools: Tools, references: set<string>, jobInput: Option<string>)
      ensures Valid() && this.tools == tools && this.references == references && this.jobInput == jobInput
    {
      this.tools, this.references, this.jobInput, views := tools, references, jobInput, map[];
    }

    /** The run as it would be compiled afresh, its view built only when no run before needed the same. */
    method CompileRun(selection: Selection, producer: Option<View>) returns (run: Option<EffectiveRun>)
      requires Valid() && Sound(selection, references)
      modifies this
      ensures Valid()
      ensures run == Compiled(tools, selection, jobInput, producer)
      ensures old(views).Keys <= views.Keys
      ensures forall key | key in old(views) :: views[key] == old(views)[key]
    {
      var key := KeyOf(selection, jobInput, producer);
      var derived :=
        Derived(tools, selection.backend, selection.pipeline, selection.profile, selection.knobs, selection.sources);
      if key in views {
        assert ViewIs(tools, selection, jobInput, producer, views[key]);
        var (knobs, sources) := derived.value;
        return Some(EffectiveRun(selection, knobs, sources, tools.safe(selection, views[key], knobs, sources),
                                 views[key]));
      }
      if derived.None? {
        return None;
      }
      var (knobs, sources) := derived.value;
      var built := Built(tools, JobOf(selection, knobs, jobInput, producer));
      if built.None? {
        return None;
      }
      FilingStaysCoherent(tools, references, views, selection, jobInput, producer, built.value);
      views := views[key := built.value];
      return Some(EffectiveRun(selection, knobs, sources, tools.safe(selection, built.value, knobs, sources),
                               built.value));
    }

    /** All runs, each handing its view to the next: exactly what compiling every one afresh gives. */
    method ResolveRuns(selections: seq<Selection>) returns (runs: Option<seq<EffectiveRun>>)
      requires Valid() && forall i | 0 <= i < |selections| :: Sound(selections[i], references)
      modifies this
      ensures Valid()
      ensures runs == AllCompiled(tools, selections, jobInput)
    {
      var effective: seq<EffectiveRun> := [];
      for i := 0 to |selections|
        invariant Valid()
        invariant AllCompiled(tools, selections[..i], jobInput) == Some(effective)
      {
        assert selections[..i + 1][..i] == selections[..i];
        var run := CompileRun(selections[i], Last(effective));
        if run.None? {
          RefusedStaysRefused(tools, selections, jobInput, i + 1);
          return None;
        }
        effective := effective + [run.value];
      }
      assert selections[..|selections|] == selections;
      return Some(effective);
    }
  }

  lemma FilingStaysCoherent(
    tools: Tools, references: set<string>, views: map<Key, View>, selection: Selection, jobInput: Option<string>,
    producer: Option<View>, view: View)
    requires Coherent(tools, references, views, jobInput)
    requires Sound(selection, references) && ViewIs(tools, selection, jobInput, producer, view)
    ensures Coherent(tools, references, views[KeyOf(selection, jobInput, producer) := view], jobInput)
  {
    var key := KeyOf(selection, jobInput, producer);
    forall other: Selection, from: Option<View> |
      Sound(other, references) && KeyOf(other, jobInput, from) in views[key := view]
      ensures ViewIs(tools, other, jobInput, from, views[key := view][KeyOf(other, jobInput, from)])
    {
      if KeyOf(other, jobInput, from) == key {
        OneKeyOneView(tools, references, selection, other, jobInput, producer, from);
      } else {
        assert KeyOf(other, jobInput, from) in views;
      }
    }
  }

  lemma {:induction false} RefusedStaysRefused(
    tools: Tools, selections: seq<Selection>, jobInput: Option<string>, i: nat)
    requires i <= |selections| && AllCompiled(tools, selections[..i], jobInput).None?
    ensures AllCompiled(tools, selections, jobInput).None?
  {
    if i == |selections| {
      assert selections[..i] == selections;
    } else {
      assert selections[..|selections| - 1][..i] == selections[..i];
      RefusedStaysRefused(tools, selections[..|selections| - 1], jobInput, i);
    }
  }

  // --- what is derived --------------------------------------------------------------------------

  /** No supported frame count is nearer to the one asked for. */
  lemma EffectiveFramesIsNearest(frames: int, n: int)
    requires 0 <= n <= 21
    ensures
      var effective := EffectiveFrames(frames);
      && (exists k :: 0 <= k <= 21 && effective == 5 + 17 * k)
      && (if effective < frames then frames - effective else effective - frames)
         <= (if 5 + 17 * n < frames then frames - (5 + 17 * n) else 5 + 17 * n - frames)
  {
    var share := (frames - 5) as real / 17.0;
    var k := Rounded(share);
    assert k as real <= share + 0.5 < (k + 1) as real;
    assert 17.0 * share == (frames - 5) as real;
    assert (2 * 17 * k) as real <= (2 * (frames - 5) + 17) as real < (2 * 17 * (k + 1)) as real;
    assert EffectiveFrames(frames) == 5 + 17 * (if k < 0 then 0 else if k > 21 then 21 else k);
  }

  const DERIVED := {"requested_frames", "effective_frames", "effective_seconds", "nominal_fps"}

  lemma SoundNamesNoDerived(selection: Selection, references: set<string>)
    requires Sound(selection, references)
    ensures selection.knobs.Keys !! DERIVED
  {
    assert KNOB_KEYS !! DERIVED;
    assert selection.knobs.Keys <= KNOB_KEYS;
  }

  lemma DerivingOnlyAdds(tools: Tools, selection: Selection, key: string)
    requires selection.knobs.Keys == selection.sources.Keys && selection.knobs.Keys !! DERIVED
    requires
      Derived(tools, selection.backend, selection.pipeline, selection.profile, selection.knobs, selection.sources).Some?
    ensures
      var (knobs, sources) :=
        Derived(tools, selection.backend, selection.pipeline, selection.profile, selection.knobs, selection.sources)
        .value;
      && knobs.Keys == sources.Keys
      && (key in selection.knobs ==>
            key in knobs && knobs[key] == selection.knobs[key] && sources[key] == selection.sources[key])
  {
  }

  /** A derivation keeps every knob a selected run resolved, and says of each where it came from. */
  lemma DerivationOnlyAdds(tools: Tools, references: set<string>, selection: Selection, key: string)
    requires Sound(selection, references) && selection.knobs.Keys == selection.sources.Keys
    requires
      Derived(tools, selection.backend, selection.pipeline, selection.profile, selection.knobs, selection.sources).Some?
    ensures
      var (knobs, sources) :=
        Derived(tools, selection.backend, selection.pipeline, selection.profile, selection.knobs, selection.sources)
        .value;
      && knobs.Keys == sources.Keys
      && (key in selection.knobs ==>
            key in knobs && knobs[key] == selection.knobs[key] && sources[key] == selection.sources[key])
  {
    SoundNamesNoDerived(selection, references);
    DerivingOnlyAdds(tools, selection, key);
  }

  // --- what a run is built from -----------------------------------------------------------------------

  /**
   A request is the one-run job with its durations as decimals, and there is none for a duration that is not positive.
   */
  lemma NormalisedExactly(job: OneRunJob)
    ensures
      var request := Normalised(job);
      && (request.Some? <==> job.timeout.Positive() && (job.seconds.Some? ==> job.seconds.value.Positive()))
      && (request.Some? ==>
            && request.value.timeout == job.timeout.Number()
            && (request.value.seconds.Some? <==> job.seconds.Some?)
            && (job.seconds.Some? ==> request.value.seconds.value == job.seconds.value.Number())
            && (request.value.frames, request.value.seed) == (job.frames, job.seed)
            && (request.value.reference, request.value.input, request.value.handoff) ==
                 (job.reference, job.input, job.handoff)
            && (request.value.backend, request.value.pipeline) == (job.backend, job.pipeline)
            && (request.value.prompt, request.value.profile) == (job.prompt, job.profile))
  {
  }

  /** A count of frames is the nearest to the seconds at the rate, and of two as near the later. */
  lemma FramesAreNearest(seconds: real, rate: real)
    ensures
      var frames := FramesAt(seconds, rate) as real;
      frames - 0.5 <= seconds * rate < frames + 0.5
  {
  }

  /** What a duration derives, by what the run makes and what its profile says. */
  lemma WhatIsDerived(
    tools: Tools, backend: string, pipeline: string, profile: string, knobs: Knobs, sources: Sources)
    requires "seconds" in knobs ==> knobs["seconds"].IsNumber()
    ensures
      var derived := Derived(tools, backend, pipeline, profile, knobs, sources);
      var timed, rate := "seconds" in knobs, tools.frameRate(profile);
      if backend == "h3-metal-cli" then
        && (derived.Some? <==> timed)
        && (timed ==>
              var frames, more := FramesAt(knobs["seconds"].Number(), 24.0), derived.value.0;
              && more.Keys == knobs.Keys + {"requested_frames", "effective_frames", "effective_seconds"}
              && more["requested_frames"] == Whole(frames)
              && more["effective_frames"] == Whole(EffectiveFrames(frames))
              && more["effective_seconds"] == Decimal(EffectiveFrames(frames) as real / 24.0))
      else if pipeline !in {"i2v", "t2v"} || "frames" in knobs then derived == Some((knobs, sources))
      else if timed then
        && (derived.Some? <==> rate.Some? && FramesAt(knobs["seconds"].Number(), rate.value.0) >= 1)
        && (derived.Some? ==>
              && derived.value.0 == knobs["frames" := Whole(FramesAt(knobs["seconds"].Number(), rate.value.0))]
                                         ["nominal_fps" := Decimal(rate.value.0)]
              && derived.value.1 == sources["frames" := "derived"]["nominal_fps" := rate.value.1])
      else
        match tools.baseFrames(profile)
        case None => derived == Some((knobs, sources))
        case Some(frames) =>
          if frames == 0 then derived == Some((knobs, sources))
          else derived == Some((knobs["frames" := Whole(frames)], sources["frames" := "settings_profile"]))
  {
  }

  /** The one-run job: its image is what the run before hands off, or the job's, for a pipeline that takes one. */
  lemma WhatARunIsBuiltFrom(selection: Selection, knobs: Knobs, jobInput: Option<string>, producer: Option<View>)
    ensures
      var job := JobOf(selection, knobs, jobInput, producer);
      var takes, later := selection.pipeline in {"i2i", "i2v", "i2av"}, selection.number > 1;
      var h3 := selection.backend == "h3-metal-cli";
      && (job.backend, job.pipeline) == (selection.backend, selection.pipeline)
      && (job.prompt, job.profile) == (selection.prompt, selection.profile)
      && job.input == (if !takes then None else if later then Some(HandoffName(selection.number - 1)) else jobInput)
      && job.handoff == (if takes && later && producer.Some? then producer.value.size else None)
      && ("timeout_seconds" in knobs ==> job.timeout == knobs["timeout_seconds"])
      && (forall value :: job.seed == Some(value) <==> "seed" in knobs && knobs["seed"] == value)
      && (forall value :: job.seconds == Some(value) <==> h3 && "seconds" in knobs && knobs["seconds"] == value)
      && (forall value :: job.frames == Some(value) <==>
                          var key := if h3 then "requested_frames" else "frames"; key in knobs && knobs[key] == value)
      && (forall value :: job.reference == Some(value) <==>
                          selection.pipeline == "r2av" && "reference_pair" in knobs && knobs["reference_pair"] == value)
  {
  }

  lemma {:induction false} DigitsDiffer(a: nat, b: nat)
    requires a != b
    ensures Digits(a) != Digits(b)
  {
    DigitsEnd(a);
    DigitsEnd(b);
    if a >= 10 && b >= 10 && a % 10 == b % 10 {
      DigitsDiffer(a / 10, b / 10);
      assert Digits(a)[..|Digits(a)| - 1] == Digits(a / 10) && Digits(b)[..|Digits(b)| - 1] == Digits(b / 10);
    }
  }

  lemma DigitsEnd(n: nat)
    ensures Digits(n) != [] && Digits(n)[|Digits(n)| - 1] == "0123456789"[n % 10]
    ensures n < 10 ==> |Digits(n)| == 1
    ensures n >= 10 ==> |Digits(n)| > 1
  {
  }

  /** Each run's handoff has a name of its own, so a key never takes one run's image for another's. */
  lemma HandoffNamesDiffer(a: nat, b: nat)
    requires a != b
    ensures HandoffName(a) != HandoffName(b)
  {
    DigitsDiffer(a, b);
    var prefix := "handoff-from-run-";
    assert HandoffName(a)[|prefix|..] == Digits(a) && HandoffName(b)[|prefix|..] == Digits(b);
  }

  /** Run `i` of those compiled is compiled with the view of the one before it, the first with none. */
  predicate HandedOn(
    tools: Tools, selections: seq<Selection>, jobInput: Option<string>, runs: seq<EffectiveRun>, i: nat)
    requires i < |runs| == |selections|
  {
    Compiled(tools, selections[i], jobInput, if i == 0 then None else Some(runs[i - 1].view)) == Some(runs[i])
  }

  lemma OneMoreHandsOn(
    tools: Tools, selections: seq<Selection>, jobInput: Option<string>, before: seq<EffectiveRun>, run: EffectiveRun)
    requires |selections| == |before| + 1
    requires Compiled(tools, selections[|before|], jobInput, Last(before)) == Some(run)
    ensures HandedOn(tools, selections, jobInput, before + [run], |before|)
  {
  }

  lemma StillHandedOn(
    tools: Tools, selections: seq<Selection>, jobInput: Option<string>, before: seq<EffectiveRun>, run: EffectiveRun,
    i: nat)
    requires |selections| == |before| + 1 && i < |before|
    requires HandedOn(tools, selections[..|before|], jobInput, before, i)
    ensures HandedOn(tools, selections, jobInput, before + [run], i)
  {
    assert selections[..|before|][i] == selections[i];
  }

  lemma {:induction false} CompiledOneByOne(tools: Tools, selections: seq<Selection>, jobInput: Option<string>)
    returns (before: seq<EffectiveRun>, run: EffectiveRun)
    requires selections != [] && AllCompiled(tools, selections, jobInput).Some?
    ensures AllCompiled(tools, selections[..|selections| - 1], jobInput) == Some(before)
    ensures Compiled(tools, selections[|selections| - 1], jobInput, Last(before)) == Some(run)
    ensures AllCompiled(tools, selections, jobInput) == Some(before + [run])
  {
    before := AllCompiled(tools, selections[..|selections| - 1], jobInput).value;
    run := Compiled(tools, selections[|selections| - 1], jobInput, Last(before)).value;
  }

  lemma {:induction false} EachRunHandsItsViewOn(
    tools: Tools, selections: seq<Selection>, jobInput: Option<string>, i: nat)
    requires AllCompiled(tools, selections, jobInput).Some? && i < |selections|
    ensures |AllCompiled(tools, selections, jobInput).value| == |selections|
    ensures HandedOn(tools, selections, jobInput, AllCompiled(tools, selections, jobInput).value, i)
  {
    var last := |selections| - 1;
    var before, run := CompiledOneByOne(tools, selections, jobInput);
    if last > 0 {
      EachRunHandsItsViewOn(tools, selections[..last], jobInput, if i < last then i else 0);
    }
    if i < last {
      StillHandedOn(tools, selections, jobInput, before, run, i);
    } else {
      OneMoreHandsOn(tools, selections, jobInput, before, run);
    }
  }
}
