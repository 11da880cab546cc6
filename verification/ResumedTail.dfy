/**
 What each run of a chain is given, from what the run before it left; and that a chain cut anywhere, any
 number of times, and resumed gives every run what the uninterrupted one would have.
 */
module ResumedTail {
  import opened Options

  /** The contents of a picture or clip; what reads it does not care where it is kept. */
  type Image = string

  /** One run as the job states it. A version-1 job's runs have no seed of their own and share one profile. */
  datatype RunPlan = RunPlan(
    pair: string,
    visual: bool,
    seed: Option<int>,
    backend: string,
    profile: string,
    handsOff: bool)

  const H3_BACKEND := "h3-metal-cli"

  /** `input` is the job's own, as run 1 reads it. */
  datatype Job = Job(version2: bool, runs: seq<RunPlan>, input: Option<Image>)
  {
    function Total(): nat {
      |runs|
    }

    predicate Has(number: nat) {
      1 <= number <= |runs|
    }

    /** A run past the end needs nothing. */
    predicate NeedsVisual(number: nat) {
      Has(number) && runs[number - 1].visual
    }

    /** Whether run `number` plans a file of its own for the next run; an H3 run only when that one reads it. */
    predicate PlansHandoff(number: nat) {
      && Has(number)
      && runs[number - 1].handsOff
      && (runs[number - 1].backend == H3_BACKEND ==> NeedsVisual(number + 1))
    }
  }

  /** What a run is given: all that what it makes depends on. */
  datatype Given = Given(number: nat, pair: string, input: Option<Image>, seed: int, segmented: bool)

  datatype Produced = Produced(output: Image, handoff: Image)

  /** `make` is the generation itself; `prepare`, the copy a run's own profile makes of another's handoff. */
  datatype Tools = Tools(make: Given -> Produced, prepare: (nat, Image) -> Image)

  // --- one run ----------------------------------------------------------------------------------

  /** What the chain carries from run to run. */
  datatype Chain = Chain(current: Option<Image>, segmented: bool, segmentFirst: Option<Image>)

  /** The file run `number` is conditioned on, as the run before left it. */
  function Durable(job: Job, chain: Chain, number: nat): Option<Image> {
    if job.NeedsVisual(number) || !job.version2 then chain.current else None
  }

  /** As the run reads it: prepared anew across a backend or profile boundary. */
  function Boundary(job: Job, tools: Tools, number: nat, input: Option<Image>): Option<Image>
    requires job.Has(number)
  {
    if !job.version2 || number < 2 || input.None? || !job.NeedsVisual(number) then input
    else
      var producer, consumer := job.runs[number - 2], job.runs[number - 1];
      if producer.backend == consumer.backend && producer.profile == consumer.profile then input
      else Some(tools.prepare(number, input.value))
  }

  /** A version-2 run that needs no handoff starts a segment, whose first image is its first consuming run's input. */
  function Segmented(job: Job, chain: Chain, number: nat): Chain {
    if !job.version2 then chain
    else
      var started :=
        if number > 1 && !job.NeedsVisual(number) then chain.(segmented := true, segmentFirst := None) else chain;
      if started.segmented && started.segmentFirst.None? && job.NeedsVisual(number) then
        started.(segmentFirst := Durable(job, chain, number))
      else started
  }

  /** The first image the run's colors are measured against; `first` is the chain's own. */
  function Measured(job: Job, chain: Chain, number: nat, first: Option<Image>): Option<Image> {
    var after := Segmented(job, chain, number);
    if job.version2 && after.segmented then after.segmentFirst else first
  }

  function SeedOf(job: Job, number: nat, seed: int): int
    requires job.Has(number)
  {
    if job.version2 && job.runs[number - 1].seed.Some? then job.runs[number - 1].seed.value else seed
  }

  function GivenTo(job: Job, tools: Tools, seed: int, chain: Chain, number: nat): Given
    requires job.Has(number)
  {
    Given(number, job.runs[number - 1].pair,
          Boundary(job, tools, number, Durable(job, chain, number)),
          SeedOf(job, number, seed),
          Segmented(job, chain, number).segmented)
  }

  function AfterRun(job: Job, tools: Tools, seed: int, chain: Chain, number: nat): Chain
    requires job.Has(number)
  {
    var made := tools.make(GivenTo(job, tools, seed, chain, number));
    Segmented(job, chain, number).(current := Some(if job.PlansHandoff(number) then made.handoff else made.output))
  }

  // --- runs in order ----------------------------------------------------------------------------

  /** The chain before run `number`, of an execution that starts at run `start` with `chain`. */
  function ChainFrom(job: Job, tools: Tools, seed: int, chain: Chain, start: nat, number: nat): Chain
    requires 1 <= start <= number <= job.Total() + 1
  {
    if number == start then chain
    else AfterRun(job, tools, seed, ChainFrom(job, tools, seed, chain, start, number - 1), number - 1)
  }

  /** What that execution gives run `number`. */
  function RunFrom(job: Job, tools: Tools, seed: int, chain: Chain, start: nat, number: nat): Given
    requires 1 <= start <= number <= job.Total()
  {
    GivenTo(job, tools, seed, ChainFrom(job, tools, seed, chain, start, number), number)
  }

  function FreshChain(job: Job): Chain {
    Chain(job.input, false, None)
  }

  /** What the uninterrupted chain gives run `number`. */
  function Uninterrupted(job: Job, tools: Tools, seed: int, number: nat): Given
    requires job.Has(number)
  {
    RunFrom(job, tools, seed, FreshChain(job), 1, number)
  }

  /** One run, the chain's fields changed in place. */
  method PerformRun(job: Job, tools: Tools, seed: int, chain: Chain, number: nat) returns (given: Given, left: Chain)
    requires job.Has(number)
    ensures given == GivenTo(job, tools, seed, chain, number)
    ensures left == AfterRun(job, tools, seed, chain, number)
  {
    var segmented, segmentFirst := chain.segmented, chain.segmentFirst;
    var input := if job.NeedsVisual(number) || !job.version2 then chain.current else None;
    if job.version2 {
      if number > 1 && !job.NeedsVisual(number) {
        segmented, segmentFirst := true, None;
      }
      if segmented && segmentFirst.None? && job.NeedsVisual(number) {
        segmentFirst := input;
      }
    }
    given := Given(number, job.runs[number - 1].pair, Boundary(job, tools, number, input), SeedOf(job, number, seed),
                   segmented);
    var made := tools.make(given);
    left := Chain(Some(if job.PlansHandoff(number) then made.handoff else made.output), segmented, segmentFirst);
  }

  // --- what each run is given -------------------------------------------------------------------

  /**
   What the run before `runs[i]` left, or what the execution began with: its own file for the next, if it makes one.
   */
  function LeftBefore(job: Job, tools: Tools, chain: Chain, start: nat, runs: seq<Given>, i: nat): Option<Image>
    requires i < |runs| && 1 <= start && start + |runs| <= |job.runs| + 1
  {
    if i == 0 then chain.current
    else
      var producer, consumer, made := job.runs[start + i - 2], job.runs[start + i - 1], tools.make(runs[i - 1]);
      Some(if producer.handsOff && (producer.backend != "h3-metal-cli" || consumer.visual) then made.handoff
           else made.output)
  }

  /** A run after the first that reads nothing. */
  predicate ReadsNothing(job: Job, k: nat) {
    1 < k <= |job.runs| && !job.runs[k - 1].visual
  }

  /** The file is made anew for the run: one of another backend or profile left it. */
  predicate PreparedAnew(job: Job, number: nat)
    requires 1 <= number <= |job.runs|
  {
    && job.version2 && number > 1
    && (job.runs[number - 2].backend != job.runs[number - 1].backend
        || job.runs[number - 2].profile != job.runs[number - 1].profile)
  }

  /**
   Field by field: the run's own pair, its own seed where a version-2 job gives it one, nothing to read where such a run
   reads nothing and otherwise what was left for it, and whether this run or an earlier one began a segment.
   */
  predicate GivenItsOwn(job: Job, tools: Tools, seed: int, chain: Chain, start: nat, runs: seq<Given>, i: nat)
    requires i < |runs| && 1 <= start && start + |runs| <= |job.runs| + 1
  {
    var given, plan, left := runs[i], job.runs[start + i - 1], LeftBefore(job, tools, chain, start, runs, i);
    && given.number == start + i
    && given.pair == plan.pair
    && given.seed == (match plan.seed case Some(own) => (if job.version2 then own else seed) case None => seed)
    && given.input ==
         (if job.version2 && !plan.visual then None
          else if left.Some? && PreparedAnew(job, start + i) then Some(tools.prepare(start + i, left.value))
          else left)
    && (given.segmented <==>
          chain.segmented || (job.version2 && exists k | start <= k <= start + i :: ReadsNothing(job, k)))
  }

  lemma {:induction false} SegmentedSince(job: Job, tools: Tools, seed: int, chain: Chain, start: nat, number: nat)
    requires 1 <= start <= number <= job.Total() + 1
    ensures ChainFrom(job, tools, seed, chain, start, number).segmented <==>
            chain.segmented || (job.version2 && exists k | start <= k < number :: ReadsNothing(job, k))
  {
    if number > start {
      SegmentedSince(job, tools, seed, chain, start, number - 1);
      assert ReadsNothing(job, number - 1) <==> number > 2 && !job.NeedsVisual(number - 1);
    }
  }

  lemma RunsAreGivenTheirOwn(job: Job, tools: Tools, seed: int, chain: Chain, start: nat, runs: seq<Given>, i: nat)
    requires i < |runs| && 1 <= start && start + |runs| <= |job.runs| + 1
    requires forall k | 0 <= k < |runs| :: runs[k] == RunFrom(job, tools, seed, chain, start, start + k)
    ensures GivenItsOwn(job, tools, seed, chain, start, runs, i)
  {
    var number := start + i;
    var before := ChainFrom(job, tools, seed, chain, start, number);
    SegmentedSince(job, tools, seed, chain, start, number);
    if i > 0 {
      assert runs[i - 1] == RunFrom(job, tools, seed, chain, start, number - 1);
      assert before == AfterRun(job, tools, seed, ChainFrom(job, tools, seed, chain, start, number - 1), number - 1);
    }
    assert ReadsNothing(job, number) <==> number > 1 && !job.NeedsVisual(number);
    assert before.current == LeftBefore(job, tools, chain, start, runs, i);
    assert runs[i] == GivenTo(job, tools, seed, before, number);
  }

  /** The loop over the runs from `start` to `last`. */
  method Perform(job: Job, tools: Tools, seed: int, chain: Chain, start: nat, last: nat)
    returns (runs: seq<Given>, left: Chain)
    requires 1 <= start <= last + 1 <= job.Total() + 1
    ensures |runs| == last + 1 - start
    ensures forall i | 0 <= i < |runs| :: runs[i] == RunFrom(job, tools, seed, chain, start, start + i)
    ensures forall i | 0 <= i < |runs| :: GivenItsOwn(job, tools, seed, chain, start, runs, i)
    ensures left == ChainFrom(job, tools, seed, chain, start, last + 1)
  {
    runs, left := [], chain;
    for number := start to last + 1
      invariant |runs| == number - start
      invariant forall i | 0 <= i < |runs| :: runs[i] == RunFrom(job, tools, seed, chain, start, start + i)
      invariant left == ChainFrom(job, tools, seed, chain, start, number)
    {
      var given: Given;
      given, left := PerformRun(job, tools, seed, left, number);
      runs := runs + [given];
    }
    forall i | 0 <= i < |runs| ensures GivenItsOwn(job, tools, seed, chain, start, runs, i) {
      RunsAreGivenTheirOwn(job, tools, seed, chain, start, runs, i);
    }
  }

  // --- a resume ---------------------------------------------------------------------------------

  /** A run before `number`, not the first, needed no handoff. */
  predicate SegmentedBefore(job: Job, number: nat) {
    job.version2 && exists k | 2 <= k < number :: !job.NeedsVisual(k)
  }

  /** What a run left on record: its handoff when that was recorded, otherwise its output. */
  function RecordOf(tools: Tools, given: Given, recorded: set<nat>): Image {
    if given.number in recorded then tools.make(given).handoff else tools.make(given).output
  }

  /** The chain a resume after that run starts from: the record, and what the job itself says. */
  function ResumedChain(job: Job, tools: Tools, given: Given, recorded: set<nat>): Chain {
    Chain(Some(RecordOf(tools, given, recorded)), SegmentedBefore(job, given.number + 1), None)
  }

  /** Each succeeded run recorded the handoff it planned, and no other. */
  predicate RecordsItsPlans(job: Job, recorded: set<nat>) {
    forall k | 1 <= k <= job.Total() :: k in recorded <==> job.PlansHandoff(k)
  }

  /** Two chains that give every run the same: they differ at most in the image colors are measured against. */
  predicate GivesAlike(a: Chain, b: Chain) {
    a.current == b.current && a.segmented == b.segmented
  }

  lemma OneRunAlike(job: Job, tools: Tools, seed: int, a: Chain, b: Chain, number: nat)
    requires job.Has(number) && GivesAlike(a, b)
    ensures GivenTo(job, tools, seed, a, number) == GivenTo(job, tools, seed, b, number)
    ensures GivesAlike(AfterRun(job, tools, seed, a, number), AfterRun(job, tools, seed, b, number))
  {
  }

  lemma OneRunKeepsTheFlag(job: Job, tools: Tools, seed: int, chain: Chain, number: nat)
    requires job.Has(number) && (chain.segmented <==> SegmentedBefore(job, number))
    ensures AfterRun(job, tools, seed, chain, number).segmented <==> SegmentedBefore(job, number + 1)
  {
    if SegmentedBefore(job, number + 1) {
      var k :| 2 <= k < number + 1 && !job.NeedsVisual(k);
      assert k < number ==> SegmentedBefore(job, number);
    }
  }

  // --- any number of resumes ----------------------------------------------------------------------

  /** The chain before run `number` when the job was cut after each run of `cuts` and resumed from its record. */
  function CutChain(job: Job, tools: Tools, seed: int, recorded: set<nat>, cuts: set<nat>, number: nat): Chain
    requires 1 <= number <= job.Total() + 1
  {
    if number == 1 then FreshChain(job)
    else
      var before := CutChain(job, tools, seed, recorded, cuts, number - 1);
      if number - 1 in cuts then ResumedChain(job, tools, GivenTo(job, tools, seed, before, number - 1), recorded)
      else AfterRun(job, tools, seed, before, number - 1)
  }

  /** However often a job was cut and resumed, its chain before every run gives what the uninterrupted one does. */
  lemma {:induction false} CutsGiveAlike(
    job: Job, tools: Tools, seed: int, recorded: set<nat>, cuts: set<nat>, number: nat)
    requires 1 <= number <= job.Total() + 1 && RecordsItsPlans(job, recorded)
    ensures GivesAlike(CutChain(job, tools, seed, recorded, cuts, number),
                       ChainFrom(job, tools, seed, FreshChain(job), 1, number))
    ensures ChainFrom(job, tools, seed, FreshChain(job), 1, number).segmented <==> SegmentedBefore(job, number)
  {
    if number > 1 {
      var cut := CutChain(job, tools, seed, recorded, cuts, number - 1);
      var whole := ChainFrom(job, tools, seed, FreshChain(job), 1, number - 1);
      CutsGiveAlike(job, tools, seed, recorded, cuts, number - 1);
      OneRunAlike(job, tools, seed, cut, whole, number - 1);
      OneRunKeepsTheFlag(job, tools, seed, whole, number - 1);
    }
  }

  /** Every run of a job cut and resumed any number of times is given what the uninterrupted chain gives it. */
  lemma ResumesGiveTheSameRuns(job: Job, tools: Tools, seed: int, recorded: set<nat>, cuts: set<nat>, number: nat)
    requires job.Has(number) && RecordsItsPlans(job, recorded)
    ensures GivenTo(job, tools, seed, CutChain(job, tools, seed, recorded, cuts, number), number)
         == Uninterrupted(job, tools, seed, number)
  {
    CutsGiveAlike(job, tools, seed, recorded, cuts, number);
    OneRunAlike(job, tools, seed, CutChain(job, tools, seed, recorded, cuts, number),
                ChainFrom(job, tools, seed, FreshChain(job), 1, number), number);
  }

  lemma {:induction false} TheRestGivesAlike(
    job: Job, tools: Tools, seed: int, recorded: set<nat>, cut: nat, number: nat)
    requires 1 <= cut < number <= job.Total() + 1 && RecordsItsPlans(job, recorded)
    ensures
      var resumed := ResumedChain(job, tools, Uninterrupted(job, tools, seed, cut), recorded);
      GivesAlike(ChainFrom(job, tools, seed, resumed, cut + 1, number),
                 ChainFrom(job, tools, seed, FreshChain(job), 1, number))
  {
    var resumed := ResumedChain(job, tools, Uninterrupted(job, tools, seed, cut), recorded);
    if number == cut + 1 {
      CutsGiveAlike(job, tools, seed, recorded, {}, number);
    } else {
      TheRestGivesAlike(job, tools, seed, recorded, cut, number - 1);
      OneRunAlike(job, tools, seed, ChainFrom(job, tools, seed, resumed, cut + 1, number - 1),
                  ChainFrom(job, tools, seed, FreshChain(job), 1, number - 1), number - 1);
    }
  }

  /** One execution resumed after run `cut` gives each remaining run what the uninterrupted one gives it. */
  lemma AResumedTailIsTheTail(job: Job, tools: Tools, seed: int, recorded: set<nat>, cut: nat, number: nat)
    requires 1 <= cut < number <= job.Total() && RecordsItsPlans(job, recorded)
    ensures
      var resumed := ResumedChain(job, tools, Uninterrupted(job, tools, seed, cut), recorded);
      RunFrom(job, tools, seed, resumed, cut + 1, number) == Uninterrupted(job, tools, seed, number)
  {
    var resumed := ResumedChain(job, tools, Uninterrupted(job, tools, seed, cut), recorded);
    TheRestGivesAlike(job, tools, seed, recorded, cut, number);
    OneRunAlike(job, tools, seed, ChainFrom(job, tools, seed, resumed, cut + 1, number),
                ChainFrom(job, tools, seed, FreshChain(job), 1, number), number);
  }

  // --- records that miss a plan -------------------------------------------------------------------

  function PlannedRecord(job: Job, tools: Tools, given: Given): Image {
    if job.PlansHandoff(given.number) then tools.make(given).handoff else tools.make(given).output
  }

  /** `image`, as run `number` would read it left by the run before. */
  function ReadBy(job: Job, tools: Tools, number: nat, image: Image): Option<Image>
    requires job.Has(number)
  {
    Boundary(job, tools, number, if job.NeedsVisual(number) || !job.version2 then Some(image) else None)
  }

  /** The run after a cut is given the same exactly when it reads the record as it would the planned file. */
  lemma TheRecordDecidesTheNextRun(job: Job, tools: Tools, seed: int, recorded: set<nat>, cut: nat)
    requires 1 <= cut < job.Total()
    ensures
      var given := Uninterrupted(job, tools, seed, cut);
      var resumed := ResumedChain(job, tools, given, recorded);
      && resumed.segmented == ChainFrom(job, tools, seed, FreshChain(job), 1, cut + 1).segmented
      && (GivenTo(job, tools, seed, resumed, cut + 1) == Uninterrupted(job, tools, seed, cut + 1) <==>
            ReadBy(job, tools, cut + 1, RecordOf(tools, given, recorded))
            == ReadBy(job, tools, cut + 1, PlannedRecord(job, tools, given)))
  {
    var plans := set k | 1 <= k <= job.Total() && job.PlansHandoff(k);
    AResumedTailIsTheTail(job, tools, seed, plans, cut, cut + 1);
    CutsGiveAlike(job, tools, seed, plans, {}, cut + 1);
    var given := Uninterrupted(job, tools, seed, cut);
    assert RecordOf(tools, given, plans) == PlannedRecord(job, tools, given);
  }

  /** The resume gives every run left what the uninterrupted chain gives it. */
  predicate TailAlike(job: Job, tools: Tools, seed: int, resumed: Chain, cut: nat)
    requires 1 <= cut < job.Total()
  {
    forall number | cut < number <= job.Total() ::
      RunFrom(job, tools, seed, resumed, cut + 1, number) == Uninterrupted(job, tools, seed, number)
  }

  lemma {:induction false} AlikeOnceIsAlikeOn(job: Job, tools: Tools, seed: int, resumed: Chain, cut: nat, number: nat)
    requires 1 <= cut < number <= job.Total()
    requires resumed.segmented == ChainFrom(job, tools, seed, FreshChain(job), 1, cut + 1).segmented
    requires GivenTo(job, tools, seed, resumed, cut + 1) == Uninterrupted(job, tools, seed, cut + 1)
    ensures RunFrom(job, tools, seed, resumed, cut + 1, number) == Uninterrupted(job, tools, seed, number)
    ensures GivesAlike(ChainFrom(job, tools, seed, resumed, cut + 1, number + 1),
                       ChainFrom(job, tools, seed, FreshChain(job), 1, number + 1))
  {
    if number > cut + 1 {
      AlikeOnceIsAlikeOn(job, tools, seed, resumed, cut, number - 1);
      OneRunAlike(job, tools, seed, ChainFrom(job, tools, seed, resumed, cut + 1, number),
                  ChainFrom(job, tools, seed, FreshChain(job), 1, number), number);
    } else {
      assert ChainFrom(job, tools, seed, resumed, cut + 1, cut + 1) == resumed;
    }
  }

  /**
   Whatever was recorded, a resume gives the whole tail what the uninterrupted chain gives it exactly when the next run
   reads no handoff, the cut run's handoff was recorded just if it was planned, or the next run would read its handoff
   and its output alike.
   */
  lemma TheRecordDecidesTheTail(job: Job, tools: Tools, seed: int, recorded: set<nat>, cut: nat)
    requires 1 <= cut < job.Total()
    ensures
      var given := Uninterrupted(job, tools, seed, cut);
      var made := tools.make(given);
      TailAlike(job, tools, seed, ResumedChain(job, tools, given, recorded), cut) <==>
        || (job.version2 && !job.NeedsVisual(cut + 1))
        || (cut in recorded <==> job.PlansHandoff(cut))
        || ReadBy(job, tools, cut + 1, made.handoff) == ReadBy(job, tools, cut + 1, made.output)
  {
    var given := Uninterrupted(job, tools, seed, cut);
    var resumed := ResumedChain(job, tools, given, recorded);
    TheRecordDecidesTheNextRun(job, tools, seed, recorded, cut);
    if GivenTo(job, tools, seed, resumed, cut + 1) == Uninterrupted(job, tools, seed, cut + 1) {
      forall number | cut < number <= job.Total()
        ensures RunFrom(job, tools, seed, resumed, cut + 1, number) == Uninterrupted(job, tools, seed, number)
      {
        AlikeOnceIsAlikeOn(job, tools, seed, resumed, cut, number);
      }
    } else {
      assert RunFrom(job, tools, seed, resumed, cut + 1, cut + 1) == GivenTo(job, tools, seed, resumed, cut + 1);
    }
  }

  // --- the image colors are measured against --------------------------------------------------------

  /** Run `k` starts an independent segment. */
  predicate StartsSegment(job: Job, k: nat) {
    job.version2 && k >= 2 && !job.NeedsVisual(k)
  }

  /** The last run up to `number` that starts a segment, or 0. */
  function LastStart(job: Job, number: nat): (start: nat)
    ensures start <= number
  {
    if number == 0 then 0 else if StartsSegment(job, number) then number else LastStart(job, number - 1)
  }

  lemma {:induction false} LastStartIsLast(job: Job, number: nat)
    ensures LastStart(job, number) > 0 ==> StartsSegment(job, LastStart(job, number))
    ensures forall k | LastStart(job, number) < k <= number :: !StartsSegment(job, k)
  {
    if number > 0 {
      LastStartIsLast(job, number - 1);
    }
  }

  /** What run `k` of the uninterrupted chain leaves for the next. */
  function LeftBy(job: Job, tools: Tools, seed: int, k: nat): Image
    requires job.Has(k)
  {
    PlannedRecord(job, tools, Uninterrupted(job, tools, seed, k))
  }

  function Later(a: nat, b: nat): nat {
    if a < b then b else a
  }

  /**
   The chain before run `number` of an execution resumed after run `cut` (0: none was): in a segment, its image is
   what the segment's first consuming run of this execution read, once there was one.
   */
  predicate SegmentKept(job: Job, tools: Tools, seed: int, cut: nat, chain: Chain, number: nat)
    requires cut < number <= job.Total() + 1
  {
    var start := LastStart(job, number - 1);
    var consumed := Later(start, cut) + 1;
    && chain.current == (if number == 1 then job.input else Some(LeftBy(job, tools, seed, number - 1)))
    && (chain.segmented <==> start > 0)
    && chain.segmentFirst ==
         if start > 0 && consumed < number then Some(LeftBy(job, tools, seed, consumed - 1)) else None
  }

  lemma OneRunKeepsTheSegment(job: Job, tools: Tools, seed: int, cut: nat, chain: Chain, number: nat)
    requires cut < number <= job.Total() && SegmentKept(job, tools, seed, cut, chain, number)
    requires GivenTo(job, tools, seed, chain, number) == Uninterrupted(job, tools, seed, number)
    ensures SegmentKept(job, tools, seed, cut, AfterRun(job, tools, seed, chain, number), number + 1)
  {
    LastStartIsLast(job, number - 1);
  }

  lemma {:induction false} TheWholeKeepsItsSegment(job: Job, tools: Tools, seed: int, number: nat)
    requires 1 <= number <= job.Total() + 1
    ensures SegmentKept(job, tools, seed, 0, ChainFrom(job, tools, seed, FreshChain(job), 1, number), number)
  {
    if number > 1 {
      TheWholeKeepsItsSegment(job, tools, seed, number - 1);
      OneRunKeepsTheSegment(job, tools, seed, 0, ChainFrom(job, tools, seed, FreshChain(job), 1, number - 1),
                            number - 1);
    }
  }

  lemma SegmentedBeforeIsStarted(job: Job, number: nat)
    requires 1 <= number <= job.Total() + 1
    ensures SegmentedBefore(job, number) <==> LastStart(job, number - 1) > 0
  {
    LastStartIsLast(job, number - 1);
    if SegmentedBefore(job, number) {
      var k :| 2 <= k < number && !job.NeedsVisual(k);
      assert StartsSegment(job, k);
    }
  }

  /** Just after a resume the segment its cut run was in is kept, and no run of this execution has consumed yet. */
  lemma AResumeStartsInItsSegment(job: Job, tools: Tools, seed: int, recorded: set<nat>, cut: nat)
    requires 1 <= cut <= job.Total() && RecordsItsPlans(job, recorded)
    ensures
      var resumed := ResumedChain(job, tools, Uninterrupted(job, tools, seed, cut), recorded);
      SegmentKept(job, tools, seed, cut, resumed, cut + 1)
  {
    SegmentedBeforeIsStarted(job, cut + 1);
  }

  lemma {:induction false} AResumeKeepsItsSegment(
    job: Job, tools: Tools, seed: int, recorded: set<nat>, cut: nat, number: nat)
    requires 1 <= cut < number <= job.Total() + 1 && RecordsItsPlans(job, recorded)
    ensures
      var resumed := ResumedChain(job, tools, Uninterrupted(job, tools, seed, cut), recorded);
      SegmentKept(job, tools, seed, cut, ChainFrom(job, tools, seed, resumed, cut + 1, number), number)
  {
    var resumed := ResumedChain(job, tools, Uninterrupted(job, tools, seed, cut), recorded);
    if number == cut + 1 {
      AResumeStartsInItsSegment(job, tools, seed, recorded, cut);
    } else {
      AResumeKeepsItsSegment(job, tools, seed, recorded, cut, number - 1);
      AResumedTailIsTheTail(job, tools, seed, recorded, cut, number - 1);
      OneRunKeepsTheSegment(
        job, tools, seed, cut, ChainFrom(job, tools, seed, resumed, cut + 1, number - 1), number - 1);
    }
  }

  /** What run `number` is measured against, in an execution resumed after run `cut` or never. */
  lemma MeasuredIs(job: Job, tools: Tools, seed: int, cut: nat, chain: Chain, number: nat, first: Option<Image>)
    requires cut < number <= job.Total() && SegmentKept(job, tools, seed, cut, chain, number)
    ensures
      var start := LastStart(job, number);
      Measured(job, chain, number, first) ==
        if start == 0 then first
        else if start == number then None
        else Some(LeftBy(job, tools, seed, Later(start, cut)))
  {
    LastStartIsLast(job, number - 1);
  }

  /** Whether the resume measures run `number` as the uninterrupted chain does. */
  predicate MeasuresAlike(
    job: Job, tools: Tools, seed: int, recorded: set<nat>, cut: nat, number: nat, first: Option<Image>)
    requires 1 <= cut < number <= job.Total()
  {
    var resumed := ResumedChain(job, tools, Uninterrupted(job, tools, seed, cut), recorded);
    Measured(job, ChainFrom(job, tools, seed, resumed, cut + 1, number), number, first)
    == Measured(job, ChainFrom(job, tools, seed, FreshChain(job), 1, number), number, first)
  }

  lemma BothMeasure(job: Job, tools: Tools, seed: int, recorded: set<nat>, cut: nat, number: nat, first: Option<Image>)
    requires 1 <= cut < number <= job.Total() && RecordsItsPlans(job, recorded)
    ensures
      var start := LastStart(job, number);
      if start == 0 || start == number then MeasuresAlike(job, tools, seed, recorded, cut, number, first)
      else
        MeasuresAlike(job, tools, seed, recorded, cut, number, first) <==>
          LeftBy(job, tools, seed, Later(start, cut)) == LeftBy(job, tools, seed, start)
  {
    var resumed := ResumedChain(job, tools, Uninterrupted(job, tools, seed, cut), recorded);
    AResumeKeepsItsSegment(job, tools, seed, recorded, cut, number);
    TheWholeKeepsItsSegment(job, tools, seed, number);
    MeasuredIs(job, tools, seed, cut, ChainFrom(job, tools, seed, resumed, cut + 1, number), number, first);
    MeasuredIs(job, tools, seed, 0, ChainFrom(job, tools, seed, FreshChain(job), 1, number), number, first);
  }

  /**
   For every cut and run left, the resume measures it as the uninterrupted chain does exactly when no segment started by
   then (in a version-1 job none ever does), the last one started at the cut or after it, so that no run up to the cut
   consumed in it, or what the run that started it left is the same image as what the cut run left.
   */
  lemma ResumeMeasuresAlike(
    job: Job, tools: Tools, seed: int, recorded: set<nat>, cut: nat, number: nat, first: Option<Image>)
    requires 1 <= cut < number <= job.Total() && RecordsItsPlans(job, recorded)
    ensures
      var start := LastStart(job, number);
      && (!job.version2 ==> start == 0)
      && (MeasuresAlike(job, tools, seed, recorded, cut, number, first) <==>
            || start == 0
            || start >= cut
            || LeftBy(job, tools, seed, start) == LeftBy(job, tools, seed, cut))
  {
    LastStartIsLast(job, number);
    BothMeasure(job, tools, seed, recorded, cut, number, first);
  }

  /**
   A job of two runs that read nothing and two that consume, cut after the third: the fourth is measured against
   another image.
   */
  lemma AResumeMayMeasureAnother() returns (job: Job, tools: Tools)
    ensures job.Total() == 4 && RecordsItsPlans(job, {})
    ensures !MeasuresAlike(job, tools, 0, {}, 3, 4, None)
  {
    var consumes, makes := RunPlan("a", true, None, "b", "p", false), RunPlan("a", false, None, "b", "p", false);
    job := Job(true, [makes, makes, consumes, consumes], None);
    tools := Tools((given: Given) => Produced(if given.number == 2 then "second" else "other", ""),
                   (number: nat, image: Image) => image);
    assert !StartsSegment(job, 4) && !StartsSegment(job, 3) && StartsSegment(job, 2);
    assert LastStart(job, 4) == LastStart(job, 3) == LastStart(job, 2) == 2;
    ResumeMeasuresAlike(job, tools, 0, {}, 3, 4, None);
    assert LeftBy(job, tools, 0, 2) == "second" && LeftBy(job, tools, 0, 3) == "other";
  }
}
