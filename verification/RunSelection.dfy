/**
 Selecting the runs of a version-2 job: each one's catalog names and knobs, resolved from what the run says itself
 and the defaults of its backend and pipeline, and the check that everything declared is used.
 */
module RunSelection {
  import opened Options

  const DRAW_THINGS := "draw-things-cli"
  const H3 := "h3-metal-cli"
  const MAX_SEED := 0xffff_ffff
  const H3_FPS := 24.0

  function PipelinesOf(backend: string): set<string> {
    if backend == DRAW_THINGS then {"i2i", "t2v", "i2v"}
    else if backend == H3 then {"i2av", "r2av"}
    else {}
  }

  predicate TakesImage(pipeline: string) {
    pipeline in {"i2i", "i2v", "i2av"}
  }

  predicate IsTimed(pipeline: string) {
    pipeline in {"i2v", "t2v", "i2av", "r2av"}
  }

  // --- what a job writes ------------------------------------------------------------------------

  /** A knob's value: an integer and a decimal of the same size are different values that compare as equal. */
  datatype Value = Whole(n: int) | Decimal(x: real) | Text(text: string) | Null | OtherValue
  {
    predicate IsNumber() {
      Whole? || Decimal?
    }

    function Number(): real
      requires IsNumber()
    {
      if Whole? then n as real else x
    }

    predicate Positive() {
      IsNumber() && Number() > 0.0
    }
  }

  type Knobs = map<string, Value>
  type Sources = map<string, string>

  const KNOB_KEYS := {"seconds", "frames", "seed", "timeout_seconds", "reference_pair"}
  const TEMPORAL := {"seconds", "frames"}

  type Selector = (string, string)

  datatype RawRun = RawRun(
    backend: string,
    pipeline: string,
    prompt: Option<string>,
    profile: Option<string>,
    knobs: Knobs)
  {
    function Selector(): Selector {
      (backend, pipeline)
    }
  }

  /**
   A settings profile: its backend, whether it has colors and corrects by them, and whether it names a video format.
   */
  datatype Profile = Profile(backend: string, hasColor: bool, corrects: bool, namesVideoFormat: bool)

  /** Prompts with whether they have a negative, reference pairs and profiles. */
  datatype Catalogs = Catalogs(prompts: map<string, bool>, references: set<string>, profiles: map<string, Profile>)

  type Defaults = map<Selector, RawRun>

  datatype Selection = Selection(
    number: nat,
    backend: string,
    pipeline: string,
    prompt: string,
    profile: string,
    knobs: Knobs,
    sources: Sources)

  // --- checks -----------------------------------------------------------------------------------

  function Applicable(backend: string, pipeline: string): set<string> {
    {"seed", "timeout_seconds"}
    + (if IsTimed(pipeline) then {"seconds"} else {})
    + (if backend == DRAW_THINGS && pipeline in {"i2v", "t2v"} then {"frames"} else {})
    + (if backend == H3 && pipeline == "r2av" then {"reference_pair"} else {})
  }

  predicate KnobOk(key: string, value: Value, backend: string, references: set<string>) {
    && (key == "seed" ==> value.Whole? && 0 <= value.n <= MAX_SEED)
    && (key == "timeout_seconds" ==> value.Positive())
    && (key == "seconds" ==> value.Positive() && (backend == H3 ==> 1.0 <= value.Number() <= 15.0))
    && (key == "frames" ==> value.Whole? && value.n >= 1)
    && (key == "reference_pair" ==> value.Text? && value.text in references)
  }

  /** Every check that needs only these knobs, for a run's or a defaults block's own. */
  predicate KnobsOk(knobs: Knobs, backend: string, pipeline: string, references: set<string>) {
    && (forall key | key in knobs ::
          && key in KNOB_KEYS && !knobs[key].Null?
          && key in Applicable(backend, pipeline) && KnobOk(key, knobs[key], backend, references))
    && !("seconds" in knobs && "frames" in knobs)
  }

  predicate NamesOk(run: RawRun, catalogs: Catalogs) {
    && (run.prompt.Some? ==> run.prompt.value in catalogs.prompts)
    && (run.profile.Some? ==> run.profile.value in catalogs.profiles)
    && (run.profile.Some? ==> catalogs.profiles[run.profile.value].backend == run.backend)
    && (run.prompt.Some? && run.backend == H3 ==> !catalogs.prompts[run.prompt.value])
  }

  predicate BlockOk(run: RawRun, catalogs: Catalogs) {
    && run.pipeline in PipelinesOf(run.backend)
    && NamesOk(run, catalogs)
    && KnobsOk(run.knobs, run.backend, run.pipeline, catalogs.references)
  }

  /** The defaults by selector; nothing when a block is refused or a selector has two. */
  function DefaultsOf(blocks: seq<RawRun>, catalogs: Catalogs): Option<Defaults> {
    if blocks == [] then Some(map[])
    else
      var last := blocks[|blocks| - 1];
      match DefaultsOf(blocks[..|blocks| - 1], catalogs)
      case None => None
      case Some(before) =>
        if !BlockOk(last, catalogs) || (last.backend, last.pipeline) in before then None
        else Some(before[(last.backend, last.pipeline) := last])
  }

  predicate DefaultsOk(defaults: Defaults, catalogs: Catalogs) {
    forall selector | selector in defaults ::
      BlockOk(defaults[selector], catalogs) && selector == (defaults[selector].backend, defaults[selector].pipeline)
  }

  lemma {:induction false} DefaultsAreChecked(blocks: seq<RawRun>, catalogs: Catalogs)
    requires DefaultsOf(blocks, catalogs).Some?
    ensures DefaultsOk(DefaultsOf(blocks, catalogs).value, catalogs)
  {
    if blocks != [] {
      var last := |blocks| - 1;
      DefaultsAreChecked(blocks[..last], catalogs);
      var before, after := DefaultsOf(blocks[..last], catalogs).value, DefaultsOf(blocks, catalogs).value;
      forall selector | selector in after
        ensures BlockOk(after[selector], catalogs) && selector == (after[selector].backend, after[selector].pipeline)
      {
        assert selector in before || after[selector] == blocks[last];
      }
    }
  }

  /** Each block is its selector's, so none is lost. */
  lemma {:induction false} DefaultsHoldEach(blocks: seq<RawRun>, catalogs: Catalogs, i: nat)
    requires DefaultsOf(blocks, catalogs).Some? && i < |blocks|
    ensures
      var selector := (blocks[i].backend, blocks[i].pipeline);
      selector in DefaultsOf(blocks, catalogs).value && DefaultsOf(blocks, catalogs).value[selector] == blocks[i]
  {
    if i < |blocks| - 1 {
      DefaultsHoldEach(blocks[..|blocks| - 1], catalogs, i);
    }
  }

  // --- selecting --------------------------------------------------------------------------------

  function Or(own: Option<string>, inherited: Option<string>): Option<string> {
    if own.Some? then own else inherited
  }

  /** What a run inherits: its block's knobs, but no temporal one when it names either itself. */
  function Inherited(own: Knobs, block: Knobs): Knobs {
    if TEMPORAL !! own.Keys then block else block - TEMPORAL
  }

  function SourcesOf(own: Knobs, inherited: Knobs): Sources {
    map key | key in own.Keys + inherited.Keys :: if key in own then "run" else "defaults"
  }

  predicate ResolvedOk(knobs: Knobs, backend: string, pipeline: string) {
    && "timeout_seconds" in knobs
    && (backend == H3 ==> "seconds" in knobs)
    && (pipeline == "r2av" ==> "reference_pair" in knobs)
  }

  const NO_BLOCK := RawRun("", "", None, None, map[])

  function BlockFor(defaults: Defaults, run: RawRun): RawRun {
    if (run.backend, run.pipeline) in defaults then defaults[(run.backend, run.pipeline)] else NO_BLOCK
  }

  function Select(number: nat, run: RawRun, catalogs: Catalogs, defaults: Defaults): Option<Selection> {
    var block := BlockFor(defaults, run);
    var prompt, profile := Or(run.prompt, block.prompt), Or(run.profile, block.profile);
    var inherited := Inherited(run.knobs, block.knobs);
    if run.pipeline !in PipelinesOf(run.backend) || !NamesOk(run, catalogs) || prompt.None? || profile.None? then None
    else if run.backend == H3 && prompt.value in catalogs.prompts && catalogs.prompts[prompt.value] then None
    else if !KnobsOk(run.knobs, run.backend, run.pipeline, catalogs.references) then None
    else if !ResolvedOk(inherited + run.knobs, run.backend, run.pipeline) then None
    else
      Some(Selection(number, run.backend, run.pipeline, prompt.value, profile.value,
                     inherited + run.knobs, SourcesOf(run.knobs, inherited)))
  }

  /** The same as the loop over the run's own knobs, maps changed in place. */
  method Resolve(own: Knobs, block: Knobs) returns (knobs: Knobs, sources: Sources)
    ensures knobs == Inherited(own, block) + own
    ensures sources == SourcesOf(own, Inherited(own, block))
  {
    knobs, sources := block, map key | key in block :: "defaults";
    if "seconds" in own || "frames" in own {
      knobs, sources := knobs - TEMPORAL, sources - TEMPORAL;
    }
    ghost var inherited := knobs;
    InheritedAsDropped(own, block);
    assert inherited == Inherited(own, block) && sources == SourcesOf(own - own.Keys, inherited);
    var left := own.Keys;
    assert knobs == inherited + (own - left);
    while left != {}
      invariant left <= own.Keys
      invariant knobs == inherited + (own - left)
      invariant sources == SourcesOf(own - left, inherited)
      decreases left
    {
      var key :| key in left;
      OneMoreOwn(own, inherited, left, key);
      knobs, sources := knobs[key := own[key]], sources[key := "run"];
      left := left - {key};
    }
    assert own - left == own;
  }

  lemma InheritedAsDropped(own: Knobs, block: Knobs)
    ensures Inherited(own, block) == if "seconds" in own || "frames" in own then block - TEMPORAL else block
  {
    assert "seconds" in TEMPORAL && "frames" in TEMPORAL;
  }

  lemma OneMoreOwn(own: Knobs, inherited: Knobs, left: set<string>, key: string)
    requires key in left && left <= own.Keys
    ensures (inherited + (own - left))[key := own[key]] == inherited + (own - (left - {key}))
    ensures SourcesOf(own - left, inherited)[key := "run"] == SourcesOf(own - (left - {key}), inherited)
  {
    assert own - (left - {key}) == (own - left)[key := own[key]];
  }

  /** A selected run has every knob it needs, each applies to it and passed its checks, and never both temporal ones. */
  lemma SelectionsAreSound(number: nat, run: RawRun, catalogs: Catalogs, defaults: Defaults)
    requires DefaultsOk(defaults, catalogs) && Select(number, run, catalogs, defaults).Some?
    ensures
      var selection := Select(number, run, catalogs, defaults).value;
      && KnobsOk(selection.knobs, run.backend, run.pipeline, catalogs.references)
      && selection.knobs.Keys <= Applicable(run.backend, run.pipeline)
      && !("seconds" in selection.knobs && "frames" in selection.knobs)
      && ResolvedOk(selection.knobs, run.backend, run.pipeline)
      && selection.prompt in catalogs.prompts
      && selection.profile in catalogs.profiles && catalogs.profiles[selection.profile].backend == run.backend
      && (run.backend == H3 ==> !catalogs.prompts[selection.prompt])
  {
    var block := BlockFor(defaults, run);
    if block != NO_BLOCK {
      assert BlockOk(block, catalogs);
    }
    var selection := Select(number, run, catalogs, defaults).value;
    forall key | key in selection.knobs
      ensures key in KNOB_KEYS && !selection.knobs[key].Null? && key in Applicable(run.backend, run.pipeline)
      ensures KnobOk(key, selection.knobs[key], run.backend, catalogs.references)
    {
      assert key in run.knobs || key in block.knobs;
    }
  }

  /** Where each knob came from: the run's own always, and the defaults' unless the run named a temporal one itself. */
  lemma SourcesTellTheTruth(number: nat, run: RawRun, catalogs: Catalogs, defaults: Defaults, key: string)
    requires Select(number, run, catalogs, defaults).Some?
    ensures
      var selection, block := Select(number, run, catalogs, defaults).value, BlockFor(defaults, run).knobs;
      var replaced := key in TEMPORAL && ("seconds" in run.knobs || "frames" in run.knobs);
      && selection.sources.Keys == selection.knobs.Keys
      && (key in selection.knobs <==> key in run.knobs || (key in block && !replaced))
      && (key in run.knobs ==> selection.knobs[key] == run.knobs[key] && selection.sources[key] == "run")
      && (key in selection.knobs && key !in run.knobs ==>
            selection.knobs[key] == block[key] && selection.sources[key] == "defaults")
  {
  }

  // --- a whole job ------------------------------------------------------------------------------

  /** What each run selects, numbered from 1. */
  function Choices(runs: seq<RawRun>, catalogs: Catalogs, defaults: Defaults): (choices: seq<Option<Selection>>)
    ensures |choices| == |runs|
  {
    seq(|runs|, i requires 0 <= i < |runs| => Select(i + 1, runs[i], catalogs, defaults))
  }

  /** All of them; nothing when one is nothing. */
  function AllOf<T>(choices: seq<Option<T>>): (all: Option<seq<T>>)
    ensures all.Some? <==> forall i | 0 <= i < |choices| :: choices[i].Some?
    ensures all.Some? ==> |all.value| == |choices| && forall i | 0 <= i < |choices| :: choices[i] == Some(all.value[i])
  {
    if exists i | 0 <= i < |choices| :: choices[i].None? then None
    else Some(seq(|choices|, i requires 0 <= i < |choices| && choices[i].Some? => choices[i].value))
  }

  function SelectAll(runs: seq<RawRun>, catalogs: Catalogs, defaults: Defaults): Option<seq<Selection>> {
    AllOf(Choices(runs, catalogs, defaults))
  }

  /** Run `number` of a job with these defaults selects this. */
  predicate IsSelected(number: nat, run: RawRun, catalogs: Catalogs, defaults: Defaults, selection: Selection) {
    Select(number, run, catalogs, defaults) == Some(selection)
  }

  predicate AreSelected(runs: seq<RawRun>, catalogs: Catalogs, defaults: Defaults, selections: seq<Selection>) {
    && |selections| == |runs|
    && forall i | 0 <= i < |runs| :: IsSelected(i + 1, runs[i], catalogs, defaults, selections[i])
  }

  lemma SelectAllSelectsEach(runs: seq<RawRun>, catalogs: Catalogs, defaults: Defaults)
    ensures SelectAll(runs, catalogs, defaults).Some? ==>
              AreSelected(runs, catalogs, defaults, SelectAll(runs, catalogs, defaults).value)
  {
    var choices := Choices(runs, catalogs, defaults);
    if SelectAll(runs, catalogs, defaults).Some? {
      forall i | 0 <= i < |runs|
        ensures IsSelected(i + 1, runs[i], catalogs, defaults, SelectAll(runs, catalogs, defaults).value[i])
      {
        assert choices[i] == Select(i + 1, runs[i], catalogs, defaults);
      }
    }
  }

  function Selected(selections: seq<Selection>): set<Selector> {
    set i | 0 <= i < |selections| :: (selections[i].backend, selections[i].pipeline)
  }

  function PromptsUsed(selections: seq<Selection>): set<string> {
    set i | 0 <= i < |selections| :: selections[i].prompt
  }

  function ProfilesUsed(selections: seq<Selection>): set<string> {
    set i | 0 <= i < |selections| :: selections[i].profile
  }

  function ReferencesUsed(selections: seq<Selection>): set<Value> {
    set i | 0 <= i < |selections| && "reference_pair" in selections[i].knobs :: selections[i].knobs["reference_pair"]
  }

  predicate AllUsed(selections: seq<Selection>, defaults: Defaults, catalogs: Catalogs) {
    && defaults.Keys <= Selected(selections)
    && catalogs.prompts.Keys <= PromptsUsed(selections)
    && catalogs.profiles.Keys <= ProfilesUsed(selections)
    && (forall name | name in catalogs.references :: Text(name) in ReferencesUsed(selections))
  }

  /** The pipelines of the runs that select the profile. */
  function PipelinesWith(selections: seq<Selection>, profile: string): set<string> {
    set i | 0 <= i < |selections| && selections[i].profile == profile :: selections[i].pipeline
  }

  /** A setting that only some pipelines use needs one of their runs to select its profile. */
  predicate ScopeOk(profile: Profile, pipelines: set<string>) {
    if profile.backend == H3 then profile.corrects ==> "i2av" in pipelines
    else pipelines == {"i2i"} ==> !profile.hasColor && !profile.namesVideoFormat
  }

  predicate ScopesOk(selections: seq<Selection>, catalogs: Catalogs) {
    forall name | name in catalogs.profiles :: ScopeOk(catalogs.profiles[name], PipelinesWith(selections, name))
  }

  /** The selections of the job's runs; nothing when any check refuses it. */
  function SelectJob(runs: seq<RawRun>, blocks: seq<RawRun>, catalogs: Catalogs): Option<seq<Selection>> {
    match DefaultsOf(blocks, catalogs)
    case None => None
    case Some(defaults) =>
      match SelectAll(runs, catalogs, defaults)
      case None => None
      case Some(selections) =>
        if runs == [] || !AllUsed(selections, defaults, catalogs) || !ScopesOk(selections, catalogs) then None
        else Some(selections)
  }

  /** What a selected run can be compiled from. */
  predicate Sound(selection: Selection, references: set<string>) {
    && KnobsOk(selection.knobs, selection.backend, selection.pipeline, references)
    && ResolvedOk(selection.knobs, selection.backend, selection.pipeline)
  }

  /** Every run of a job whose runs were all selected under defaults that were all accepted. */
  lemma EverySelectionIsSound(runs: seq<RawRun>, blocks: seq<RawRun>, catalogs: Catalogs, i: nat)
    requires DefaultsOf(blocks, catalogs).Some? && i < |runs|
    requires SelectAll(runs, catalogs, DefaultsOf(blocks, catalogs).value).Some?
    ensures
      var selections := SelectAll(runs, catalogs, DefaultsOf(blocks, catalogs).value).value;
      && |selections| == |runs|
      && selections[i].number == i + 1
      && Sound(selections[i], catalogs.references)
  {
    var defaults := DefaultsOf(blocks, catalogs).value;
    DefaultsAreChecked(blocks, catalogs);
    SelectAllSelectsEach(runs, catalogs, defaults);
    assert IsSelected(i + 1, runs[i], catalogs, defaults, SelectAll(runs, catalogs, defaults).value[i]);
    SelectionsAreSound(i + 1, runs[i], catalogs, defaults);
  }

  // --- everything declared is used ------------------------------------------------------------------

  /**
   The run, as the job writes it, selects the prompt: by naming it, or by naming none where a block of its kind does.
   */
  predicate ChoosesPrompt(run: RawRun, blocks: seq<RawRun>, name: string) {
    || run.prompt == Some(name)
    || (run.prompt.None?
        && exists b | 0 <= b < |blocks| ::
             blocks[b].Selector() == run.Selector() && blocks[b].prompt == Some(name))
  }

  predicate ChoosesProfile(run: RawRun, blocks: seq<RawRun>, name: string) {
    || run.profile == Some(name)
    || (run.profile.None?
        && exists b | 0 <= b < |blocks| ::
             blocks[b].Selector() == run.Selector() && blocks[b].profile == Some(name))
  }

  predicate NamesReference(knobs: Knobs, name: string) {
    "reference_pair" in knobs && knobs["reference_pair"] == Text(name)
  }

  predicate ChoosesReference(run: RawRun, blocks: seq<RawRun>, name: string) {
    || NamesReference(run.knobs, name)
    || ("reference_pair" !in run.knobs
        && exists b | 0 <= b < |blocks| ::
             blocks[b].Selector() == run.Selector() && NamesReference(blocks[b].knobs, name))
  }

  predicate SomeIsFor(runs: seq<RawRun>, selector: Selector) {
    exists i | 0 <= i < |runs| :: runs[i].Selector() == selector
  }

  predicate SomeChoosesPrompt(runs: seq<RawRun>, blocks: seq<RawRun>, name: string) {
    exists i | 0 <= i < |runs| :: ChoosesPrompt(runs[i], blocks, name)
  }

  predicate SomeChoosesProfile(runs: seq<RawRun>, blocks: seq<RawRun>, name: string) {
    exists i | 0 <= i < |runs| :: ChoosesProfile(runs[i], blocks, name)
  }

  predicate SomeChoosesProfileFor(runs: seq<RawRun>, blocks: seq<RawRun>, name: string, pipeline: string) {
    exists i | 0 <= i < |runs| :: ChoosesProfile(runs[i], blocks, name) && runs[i].pipeline == pipeline
  }

  predicate SomeChoosesProfileForVideo(runs: seq<RawRun>, blocks: seq<RawRun>, name: string) {
    exists i | 0 <= i < |runs| :: ChoosesProfile(runs[i], blocks, name) && runs[i].pipeline != "i2i"
  }

  predicate SomeChoosesReference(runs: seq<RawRun>, blocks: seq<RawRun>, name: string) {
    exists i | 0 <= i < |runs| :: ChoosesReference(runs[i], blocks, name)
  }

  /** Everything the job declares is used, told of what its runs and blocks write. */
  predicate EverythingIsUsed(runs: seq<RawRun>, blocks: seq<RawRun>, catalogs: Catalogs) {
    && (forall b | 0 <= b < |blocks| :: SomeIsFor(runs, blocks[b].Selector()))
    && (forall name | name in catalogs.prompts :: SomeChoosesPrompt(runs, blocks, name))
    && (forall name | name in catalogs.profiles :: SomeChoosesProfile(runs, blocks, name))
    && (forall name | name in catalogs.references :: SomeChoosesReference(runs, blocks, name))
  }

  /**
   A profile that corrects colors has an i2av run, and one of the other backend with settings for video a video run.
   */
  predicate SettingsAreUsed(runs: seq<RawRun>, blocks: seq<RawRun>, name: string, profile: Profile) {
    if profile.backend == H3 then profile.corrects ==> SomeChoosesProfileFor(runs, blocks, name, "i2av")
    else profile.hasColor || profile.namesVideoFormat ==> SomeChoosesProfileForVideo(runs, blocks, name)
  }

  predicate EverySettingIsUsed(runs: seq<RawRun>, blocks: seq<RawRun>, catalogs: Catalogs) {
    forall name | name in catalogs.profiles :: SettingsAreUsed(runs, blocks, name, catalogs.profiles[name])
  }

  /** The blocks are accepted exactly when each passes its checks and no two are for one kind of run. */
  predicate BlocksOk(blocks: seq<RawRun>, catalogs: Catalogs) {
    && (forall b | 0 <= b < |blocks| :: BlockOk(blocks[b], catalogs))
    && (forall b, c | 0 <= b < c < |blocks| :: blocks[b].Selector() != blocks[c].Selector())
  }

  lemma {:induction false} DefaultsAreTheBlocks(blocks: seq<RawRun>, catalogs: Catalogs)
    ensures DefaultsOf(blocks, catalogs).Some? <==> BlocksOk(blocks, catalogs)
    ensures BlocksOk(blocks, catalogs) ==>
              DefaultsOf(blocks, catalogs).value.Keys == set b | 0 <= b < |blocks| :: blocks[b].Selector()
  {
    if blocks != [] {
      var last := |blocks| - 1;
      var before := blocks[..last];
      DefaultsAreTheBlocks(before, catalogs);
      assert blocks == before + [blocks[last]];
      if BlocksOk(blocks, catalogs) {
        assert BlocksOk(before, catalogs);
      }
      if DefaultsOf(blocks, catalogs).Some? {
        forall b | 0 <= b < last ensures blocks[b].Selector() != blocks[last].Selector() {
          assert before[b].Selector() in DefaultsOf(before, catalogs).value.Keys;
        }
      }
    }
  }

  /** A run's block is the one of its kind, if there is one. */
  lemma BlockForIsTheBlock(blocks: seq<RawRun>, catalogs: Catalogs, run: RawRun, b: nat)
    requires DefaultsOf(blocks, catalogs).Some? && b < |blocks| && blocks[b].Selector() == run.Selector()
    ensures BlockFor(DefaultsOf(blocks, catalogs).value, run) == blocks[b]
  {
    DefaultsHoldEach(blocks, catalogs, b);
  }

  lemma BlockForIsSome(blocks: seq<RawRun>, catalogs: Catalogs, run: RawRun) returns (b: nat)
    requires DefaultsOf(blocks, catalogs).Some? && BlockFor(DefaultsOf(blocks, catalogs).value, run) != NO_BLOCK
    ensures b < |blocks| && blocks[b].Selector() == run.Selector()
    ensures BlockFor(DefaultsOf(blocks, catalogs).value, run) == blocks[b]
  {
    DefaultsAreTheBlocks(blocks, catalogs);
    b :| b < |blocks| && blocks[b].Selector() == run.Selector();
    BlockForIsTheBlock(blocks, catalogs, run, b);
  }

  /** What a selection holds is what its run chooses. */
  lemma SelectionIsTheChoice(number: nat, run: RawRun, blocks: seq<RawRun>, catalogs: Catalogs, name: string)
    requires DefaultsOf(blocks, catalogs).Some?
    requires Select(number, run, catalogs, DefaultsOf(blocks, catalogs).value).Some?
    ensures
      var selection := Select(number, run, catalogs, DefaultsOf(blocks, catalogs).value).value;
      && (selection.backend, selection.pipeline) == run.Selector()
      && (selection.prompt == name <==> ChoosesPrompt(run, blocks, name))
      && (selection.profile == name <==> ChoosesProfile(run, blocks, name))
      && (NamesReference(selection.knobs, name) <==> ChoosesReference(run, blocks, name))
  {
    var defaults := DefaultsOf(blocks, catalogs).value;
    var block := BlockFor(defaults, run);
    if block != NO_BLOCK {
      var _ := BlockForIsSome(blocks, catalogs, run);
    }
    forall b | 0 <= b < |blocks| && blocks[b].Selector() == run.Selector() ensures blocks[b] == block {
      BlockForIsTheBlock(blocks, catalogs, run, b);
    }
    assert "reference_pair" !in TEMPORAL;
  }

  lemma PromptsUsedAreChosen(
    runs: seq<RawRun>, blocks: seq<RawRun>, catalogs: Catalogs, selections: seq<Selection>, name: string)
    requires DefaultsOf(blocks, catalogs).Some?
    requires AreSelected(runs, catalogs, DefaultsOf(blocks, catalogs).value, selections)
    ensures name in PromptsUsed(selections) <==> SomeChoosesPrompt(runs, blocks, name)
  {
    forall i | 0 <= i < |runs| ensures selections[i].prompt == name <==> ChoosesPrompt(runs[i], blocks, name) {
      assert IsSelected(i + 1, runs[i], catalogs, DefaultsOf(blocks, catalogs).value, selections[i]);
      SelectionIsTheChoice(i + 1, runs[i], blocks, catalogs, name);
    }
  }

  lemma ProfilesUsedAreChosen(
    runs: seq<RawRun>, blocks: seq<RawRun>, catalogs: Catalogs, selections: seq<Selection>, name: string)
    requires DefaultsOf(blocks, catalogs).Some?
    requires AreSelected(runs, catalogs, DefaultsOf(blocks, catalogs).value, selections)
    ensures name in ProfilesUsed(selections) <==> SomeChoosesProfile(runs, blocks, name)
    ensures forall pipeline ::
              pipeline in PipelinesWith(selections, name) <==> SomeChoosesProfileFor(runs, blocks, name, pipeline)
  {
    forall i | 0 <= i < |runs|
      ensures selections[i].profile == name <==> ChoosesProfile(runs[i], blocks, name)
      ensures selections[i].pipeline == runs[i].pipeline
    {
      assert IsSelected(i + 1, runs[i], catalogs, DefaultsOf(blocks, catalogs).value, selections[i]);
      SelectionIsTheChoice(i + 1, runs[i], blocks, catalogs, name);
    }
  }

  lemma ReferencesUsedAreChosen(
    runs: seq<RawRun>, blocks: seq<RawRun>, catalogs: Catalogs, selections: seq<Selection>, name: string)
    requires DefaultsOf(blocks, catalogs).Some?
    requires AreSelected(runs, catalogs, DefaultsOf(blocks, catalogs).value, selections)
    ensures Text(name) in ReferencesUsed(selections) <==> SomeChoosesReference(runs, blocks, name)
  {
    forall i | 0 <= i < |runs|
      ensures NamesReference(selections[i].knobs, name) <==> ChoosesReference(runs[i], blocks, name)
    {
      assert IsSelected(i + 1, runs[i], catalogs, DefaultsOf(blocks, catalogs).value, selections[i]);
      SelectionIsTheChoice(i + 1, runs[i], blocks, catalogs, name);
    }
    if Text(name) in ReferencesUsed(selections) {
      var i :| 0 <= i < |selections| && "reference_pair" in selections[i].knobs
               && selections[i].knobs["reference_pair"] == Text(name);
      assert NamesReference(selections[i].knobs, name);
    }
  }

  lemma SelectorsAreRuns(runs: seq<RawRun>, blocks: seq<RawRun>, catalogs: Catalogs, selections: seq<Selection>)
    requires DefaultsOf(blocks, catalogs).Some?
    requires AreSelected(runs, catalogs, DefaultsOf(blocks, catalogs).value, selections)
    ensures forall selector :: selector in Selected(selections) <==> SomeIsFor(runs, selector)
  {
    forall i | 0 <= i < |runs|
      ensures (selections[i].backend, selections[i].pipeline) == runs[i].Selector()
    {
      assert IsSelected(i + 1, runs[i], catalogs, DefaultsOf(blocks, catalogs).value, selections[i]);
    }
  }

  /** The two checks of use, told of the selections, are those told of what the job writes. */
  lemma ChecksOfUse(runs: seq<RawRun>, blocks: seq<RawRun>, catalogs: Catalogs, selections: seq<Selection>)
    requires DefaultsOf(blocks, catalogs).Some?
    requires AreSelected(runs, catalogs, DefaultsOf(blocks, catalogs).value, selections)
    ensures AllUsed(selections, DefaultsOf(blocks, catalogs).value, catalogs)
       <==> EverythingIsUsed(runs, blocks, catalogs)
  {
    DefaultsAreTheBlocks(blocks, catalogs);
    SelectorsAreRuns(runs, blocks, catalogs, selections);
    forall name
      ensures name in PromptsUsed(selections) <==> SomeChoosesPrompt(runs, blocks, name)
      ensures name in ProfilesUsed(selections) <==> SomeChoosesProfile(runs, blocks, name)
      ensures Text(name) in ReferencesUsed(selections) <==> SomeChoosesReference(runs, blocks, name)
    {
      PromptsUsedAreChosen(runs, blocks, catalogs, selections, name);
      ProfilesUsedAreChosen(runs, blocks, catalogs, selections, name);
      ReferencesUsedAreChosen(runs, blocks, catalogs, selections, name);
    }
    var defaults := DefaultsOf(blocks, catalogs).value;
    assert defaults.Keys <= Selected(selections) <==>
      forall b | 0 <= b < |blocks| :: SomeIsFor(runs, blocks[b].Selector());
  }

  lemma OnlyImageRuns(runs: seq<RawRun>, blocks: seq<RawRun>, name: string, pipelines: set<string>)
    requires forall pipeline :: pipeline in pipelines <==> SomeChoosesProfileFor(runs, blocks, name, pipeline)
    requires SomeChoosesProfile(runs, blocks, name)
    ensures pipelines == {"i2i"} <==> !SomeChoosesProfileForVideo(runs, blocks, name)
  {
    var i :| 0 <= i < |runs| && ChoosesProfile(runs[i], blocks, name);
    assert SomeChoosesProfileFor(runs, blocks, name, runs[i].pipeline);
    if SomeChoosesProfileForVideo(runs, blocks, name) {
      var j :| 0 <= j < |runs| && ChoosesProfile(runs[j], blocks, name) && runs[j].pipeline != "i2i";
      assert SomeChoosesProfileFor(runs, blocks, name, runs[j].pipeline);
    } else {
      forall pipeline | pipeline in pipelines ensures pipeline == "i2i" {
        assert SomeChoosesProfileFor(runs, blocks, name, pipeline);
      }
      assert runs[i].pipeline in pipelines;
    }
  }

  lemma ScopeIsChosen(
    runs: seq<RawRun>, blocks: seq<RawRun>, catalogs: Catalogs, selections: seq<Selection>, name: string)
    requires DefaultsOf(blocks, catalogs).Some?
    requires AreSelected(runs, catalogs, DefaultsOf(blocks, catalogs).value, selections)
    requires name in catalogs.profiles && name in ProfilesUsed(selections)
    ensures ScopeOk(catalogs.profiles[name], PipelinesWith(selections, name))
       <==> SettingsAreUsed(runs, blocks, name, catalogs.profiles[name])
  {
    ProfilesUsedAreChosen(runs, blocks, catalogs, selections, name);
    OnlyImageRuns(runs, blocks, name, PipelinesWith(selections, name));
  }

  lemma UseDecides(runs: seq<RawRun>, blocks: seq<RawRun>, catalogs: Catalogs, selections: seq<Selection>)
    requires DefaultsOf(blocks, catalogs).Some?
    requires AreSelected(runs, catalogs, DefaultsOf(blocks, catalogs).value, selections)
    ensures AllUsed(selections, DefaultsOf(blocks, catalogs).value, catalogs) && ScopesOk(selections, catalogs)
       <==> EverythingIsUsed(runs, blocks, catalogs) && EverySettingIsUsed(runs, blocks, catalogs)
  {
    ChecksOfUse(runs, blocks, catalogs, selections);
    if AllUsed(selections, DefaultsOf(blocks, catalogs).value, catalogs) {
      forall name | name in catalogs.profiles
        ensures ScopeOk(catalogs.profiles[name], PipelinesWith(selections, name))
           <==> SettingsAreUsed(runs, blocks, name, catalogs.profiles[name])
      {
        ScopeIsChosen(runs, blocks, catalogs, selections, name);
      }
    }
  }

  /** Each run can be selected, on its own, under the job's defaults. */
  predicate CanSelectEach(runs: seq<RawRun>, blocks: seq<RawRun>, catalogs: Catalogs) {
    && DefaultsOf(blocks, catalogs).Some?
    && forall i | 0 <= i < |runs| :: CanSelect(i + 1, runs[i], catalogs, DefaultsOf(blocks, catalogs).value)
  }

  predicate CanSelect(number: nat, run: RawRun, catalogs: Catalogs, defaults: Defaults) {
    Select(number, run, catalogs, defaults).Some?
  }

  lemma SelectAllRefusesOne(runs: seq<RawRun>, catalogs: Catalogs, defaults: Defaults)
    ensures SelectAll(runs, catalogs, defaults).Some?
       <==> forall i | 0 <= i < |runs| :: CanSelect(i + 1, runs[i], catalogs, defaults)
  {
    var choices := Choices(runs, catalogs, defaults);
    forall i | 0 <= i < |runs| ensures choices[i].Some? <==> CanSelect(i + 1, runs[i], catalogs, defaults) {
    }
  }

  /**
   A job is accepted exactly when its blocks are, there is a run and each can be selected, and everything declared is
   used: each block and catalog entry by some run, and each setting by a run it applies to.
   */
  lemma AcceptedJobsUseEverything(runs: seq<RawRun>, blocks: seq<RawRun>, catalogs: Catalogs)
    ensures SelectJob(runs, blocks, catalogs).Some? <==>
            && runs != []
            && BlocksOk(blocks, catalogs)
            && CanSelectEach(runs, blocks, catalogs)
            && EverythingIsUsed(runs, blocks, catalogs)
            && EverySettingIsUsed(runs, blocks, catalogs)
  {
    DefaultsAreTheBlocks(blocks, catalogs);
    if DefaultsOf(blocks, catalogs).Some? {
      var defaults := DefaultsOf(blocks, catalogs).value;
      SelectAllRefusesOne(runs, catalogs, defaults);
      SelectAllSelectsEach(runs, catalogs, defaults);
      if SelectAll(runs, catalogs, defaults).Some? {
        UseDecides(runs, blocks, catalogs, SelectAll(runs, catalogs, defaults).value);
      }
    }
  }

  // --- what is accepted, told of what is written ----------------------------------------------------

  /**
   The knobs a run or a block may have, each with the values it may take and the runs it applies to; never both times.
   */
  lemma KnobsAreCheckedExactly(knobs: Knobs, backend: string, pipeline: string, references: set<string>)
    ensures KnobsOk(knobs, backend, pipeline, references) <==>
            && knobs.Keys <= {"seed", "timeout_seconds", "seconds", "frames", "reference_pair"}
            && ("seed" in knobs ==> knobs["seed"].Whole? && 0 <= knobs["seed"].n <= 4294967295)
            && ("timeout_seconds" in knobs ==> knobs["timeout_seconds"].Positive())
            && ("seconds" in knobs ==>
                  && pipeline in {"i2v", "t2v", "i2av", "r2av"} && knobs["seconds"].Positive()
                  && (backend == "h3-metal-cli" ==> 1.0 <= knobs["seconds"].Number() <= 15.0))
            && ("frames" in knobs ==>
                  && backend == "draw-things-cli" && pipeline in {"i2v", "t2v"}
                  && knobs["frames"].Whole? && 1 <= knobs["frames"].n)
            && ("reference_pair" in knobs ==>
                  && backend == "h3-metal-cli" && pipeline == "r2av"
                  && knobs["reference_pair"].Text? && knobs["reference_pair"].text in references)
            && !("seconds" in knobs && "frames" in knobs)
  {
  }

  /** The pipelines there are. */
  predicate IsPipeline(backend: string, pipeline: string) {
    || (backend == "draw-things-cli" && pipeline in {"i2i", "t2v", "i2v"})
    || (backend == "h3-metal-cli" && pipeline in {"i2av", "r2av"})
  }

  /** A prompt there is, with nothing negative for the backend that takes none, and a profile of the run's backend. */
  predicate NamesWhatIs(run: RawRun, catalogs: Catalogs) {
    && (run.prompt.Some? ==>
          && run.prompt.value in catalogs.prompts
          && (run.backend == "h3-metal-cli" ==> !catalogs.prompts[run.prompt.value]))
    && (run.profile.Some? ==>
          && run.profile.value in catalogs.profiles
          && catalogs.profiles[run.profile.value].backend == run.backend)
  }

  predicate Either(own: Knobs, block: Knobs, key: string) {
    key in own || key in block
  }

  /** A block is accepted exactly when its pipeline is one, what it names is there and its knobs pass. */
  lemma ABlockIsAcceptedExactly(block: RawRun, catalogs: Catalogs)
    ensures BlockOk(block, catalogs) <==>
            && IsPipeline(block.backend, block.pipeline) && NamesWhatIs(block, catalogs)
            && KnobsOk(block.knobs, block.backend, block.pipeline, catalogs.references)
  {
  }

  lemma RequiredKnobsAreThere(own: Knobs, block: Knobs, backend: string, pipeline: string)
    requires backend == H3 ==> "frames" !in own
    ensures ResolvedOk(Inherited(own, block) + own, backend, pipeline) <==>
            && Either(own, block, "timeout_seconds")
            && (backend == "h3-metal-cli" ==> Either(own, block, "seconds"))
            && (pipeline == "r2av" ==> Either(own, block, "reference_pair"))
  {
    assert "timeout_seconds" !in TEMPORAL && "reference_pair" !in TEMPORAL && "seconds" in TEMPORAL;
  }

  /** A block's prompt and profile pass for every run of its kind. */
  lemma InheritedNamesPass(run: RawRun, catalogs: Catalogs, defaults: Defaults)
    requires DefaultsOk(defaults, catalogs)
    ensures BlockFor(defaults, run) == NO_BLOCK || BlockOk(BlockFor(defaults, run), catalogs)
    ensures BlockFor(defaults, run) == NO_BLOCK || BlockFor(defaults, run).backend == run.backend
  {
  }

  /**
   A run is selected exactly when that is so of it, and it or its block names a prompt, a profile, a timeout and, where
   they are required, the seconds and the references.
   */
  lemma ARunIsSelectedExactly(number: nat, run: RawRun, catalogs: Catalogs, defaults: Defaults)
    requires DefaultsOk(defaults, catalogs)
    ensures
      var block := BlockFor(defaults, run);
      Select(number, run, catalogs, defaults).Some? <==>
        && IsPipeline(run.backend, run.pipeline) && NamesWhatIs(run, catalogs)
        && KnobsOk(run.knobs, run.backend, run.pipeline, catalogs.references)
        && (run.prompt.Some? || block.prompt.Some?) && (run.profile.Some? || block.profile.Some?)
        && Either(run.knobs, block.knobs, "timeout_seconds")
        && (run.backend == "h3-metal-cli" ==> Either(run.knobs, block.knobs, "seconds"))
        && (run.pipeline == "r2av" ==> Either(run.knobs, block.knobs, "reference_pair"))
  {
    var block := BlockFor(defaults, run);
    InheritedNamesPass(run, catalogs, defaults);
    KnobsAreCheckedExactly(run.knobs, run.backend, run.pipeline, catalogs.references);
    if KnobsOk(run.knobs, run.backend, run.pipeline, catalogs.references) {
      RequiredKnobsAreThere(run.knobs, block.knobs, run.backend, run.pipeline);
    }
  }
}
