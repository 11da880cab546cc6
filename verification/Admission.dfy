/**
 The limits a job or a resume's tail must meet to be queued: the worst case it is judged by is never
 exceeded, and no smaller bound would do.
 */
module Admission {
  import opened Options
  import opened Cooldowns

  /** A run's time limit and its finishing budget; a run without a limit never passes the rules. */
  datatype TimedRun = TimedRun(timeout: Option<real>, finishing: real)

  /** A version-1 job gives every run the same limits, a version-2 job each its own. */
  datatype Job =
    | Alike(count: nat, run: TimedRun, cooldown: Policy)
    | Each(runs: seq<TimedRun>, cooldown: Policy)
  {
    function Count(): nat {
      if Alike? then count else |runs|
    }
  }

  datatype Limits = Limits(maxRuns: nat, maxSeconds: real, maxOutput: nat)

  datatype Verdict = Accepted | TimeoutRequired | OverRuns | OverSeconds | OverOutput

  predicate MeetsRules(job: Job) {
    match job
    case Alike(_, run, _) => run.timeout.Some?
    case Each(runs, _) => forall i | 0 <= i < |runs| :: runs[i].timeout.Some?
  }

  function TimeoutOf(run: TimedRun): real {
    if run.timeout.Some? then run.timeout.value else 0.0
  }

  /** The last `count` of them, as a slice from the end takes them: from minus zero, all. */
  function LastOf(runs: seq<TimedRun>, count: nat): seq<TimedRun> {
    if count == 0 || count >= |runs| then runs else runs[|runs| - count..]
  }

  function Sum(values: seq<real>): real {
    if values == [] then 0.0 else values[0] + Sum(values[1..])
  }

  function Timeouts(runs: seq<TimedRun>): seq<real> {
    seq(|runs|, i requires 0 <= i < |runs| => TimeoutOf(runs[i]))
  }

  function Finishings(runs: seq<TimedRun>): seq<real> {
    seq(|runs|, i requires 0 <= i < |runs| => runs[i].finishing)
  }

  function Waits(cooldown: Policy, timeouts: seq<real>): seq<real> {
    seq(|timeouts|, i requires 0 <= i < |timeouts| => WaitAfter(cooldown, timeouts[i]).seconds)
  }

  function ButLast(values: seq<real>): seq<real> {
    if values == [] then [] else values[..|values| - 1]
  }

  function WorstCase(job: Job, remaining: Option<nat>): real {
    var runs := if remaining.Some? then remaining.value else job.Count();
    match job
    case Each(all, cooldown) =>
      var selected := if remaining.Some? then LastOf(all, runs) else all;
      Sum(Timeouts(selected)) + Sum(Waits(cooldown, ButLast(Timeouts(selected)))) + Sum(Finishings(selected))
    case Alike(_, run, cooldown) =>
      (if runs == 0 then 0.0
       else runs as real * TimeoutOf(run) + (runs - 1) as real * WaitAfter(cooldown, TimeoutOf(run)).seconds)
      + runs as real * run.finishing
  }

  /** `estimated` is the output the backends expect of the runs left. */
  function Check(job: Job, limits: Limits, remaining: Option<nat>, estimated: nat): Verdict {
    if !MeetsRules(job) then TimeoutRequired
    else if (if remaining.Some? then remaining.value else job.Count()) > limits.maxRuns then OverRuns
    else if WorstCase(job, remaining) > limits.maxSeconds then OverSeconds
    else if estimated > limits.maxOutput then OverOutput
    else Accepted
  }

  // --- what an execution may take -----------------------------------------------------------------

  /** The runs an execution has to make. */
  function ToMake(job: Job, remaining: Option<nat>): seq<TimedRun> {
    match job
    case Each(all, _) => if remaining.Some? then LastOf(all, remaining.value) else all
    case Alike(count, run, _) => seq(if remaining.Some? then remaining.value else count, i => run)
  }

  /** What one run took: itself, its finishing, and the cooldown waited after it. */
  datatype Spent = Spent(run: real, finishing: real, cooldown: real)

  function Total(spent: seq<Spent>): real {
    if spent == [] then 0.0 else spent[0].run + spent[0].finishing + spent[0].cooldown + Total(spent[1..])
  }

  /** A run within its limits, and its cooldown, cut short or not, within the wait that the run's own time gives. */
  predicate WithinRun(run: TimedRun, cooldown: Policy, spent: Spent, last: bool) {
    && 0.0 <= spent.run <= TimeoutOf(run)
    && 0.0 <= spent.finishing <= run.finishing
    && 0.0 <= spent.cooldown <= if last then 0.0 else WaitAfter(cooldown, spent.run).seconds
  }

  /** As far as an execution has got: the first runs of those it has to make. */
  predicate Within(runs: seq<TimedRun>, cooldown: Policy, spent: seq<Spent>)
    decreases |spent|
  {
    spent == [] ||
      (runs != [] && WithinRun(runs[0], cooldown, spent[0], |runs| == 1) && Within(runs[1..], cooldown, spent[1..]))
  }

  predicate Sane(runs: seq<TimedRun>) {
    forall i | 0 <= i < |runs| :: TimeoutOf(runs[i]) >= 0.0 && runs[i].finishing >= 0.0
  }

  /** The worst case, run by run. */
  function Worst(runs: seq<TimedRun>, cooldown: Policy): real {
    if runs == [] then 0.0
    else
      TimeoutOf(runs[0]) + runs[0].finishing
      + (if |runs| == 1 then 0.0 else WaitAfter(cooldown, TimeoutOf(runs[0])).seconds)
      + Worst(runs[1..], cooldown)
  }

  function AtWorst(runs: seq<TimedRun>, cooldown: Policy): seq<Spent> {
    if runs == [] then []
    else
      [Spent(TimeoutOf(runs[0]), runs[0].finishing,
             if |runs| == 1 then 0.0 else WaitAfter(cooldown, TimeoutOf(runs[0])).seconds)]
      + AtWorst(runs[1..], cooldown)
  }

  // --- the two forms agree ------------------------------------------------------------------------

  lemma {:induction false} EachIsWorst(runs: seq<TimedRun>, cooldown: Policy)
    ensures
      Sum(Timeouts(runs)) + Sum(Waits(cooldown, ButLast(Timeouts(runs)))) + Sum(Finishings(runs))
      == Worst(runs, cooldown)
  {
    if runs != [] {
      EachIsWorst(runs[1..], cooldown);
      assert Timeouts(runs)[1..] == Timeouts(runs[1..]);
      assert Finishings(runs)[1..] == Finishings(runs[1..]);
      if |runs| > 1 {
        assert ButLast(Timeouts(runs))[1..] == ButLast(Timeouts(runs[1..]));
        assert Waits(cooldown, ButLast(Timeouts(runs)))[1..] == Waits(cooldown, ButLast(Timeouts(runs[1..])));
      } else {
        assert ButLast(Timeouts(runs)) == [] && runs[1..] == [];
      }
    }
  }

  lemma {:induction false} AlikeIsWorst(count: nat, run: TimedRun, cooldown: Policy)
    ensures Worst(seq(count, i => run), cooldown)
         == (if count == 0 then 0.0
             else count as real * TimeoutOf(run) + (count - 1) as real * WaitAfter(cooldown, TimeoutOf(run)).seconds)
            + count as real * run.finishing
  {
    var runs := seq(count, i => run);
    if count > 0 {
      AlikeIsWorst(count - 1, run, cooldown);
      assert runs[1..] == seq(count - 1, i => run);
    }
  }

  lemma WorstCaseIsWorst(job: Job, remaining: Option<nat>)
    ensures WorstCase(job, remaining) == Worst(ToMake(job, remaining), job.cooldown)
  {
    match job
    case Each(_, cooldown) => EachIsWorst(ToMake(job, remaining), cooldown);
    case Alike(count, run, cooldown) => AlikeIsWorst(|ToMake(job, remaining)|, run, cooldown);
  }

  // --- the bound --------------------------------------------------------------------------------

  lemma {:induction false} WorstIsNotNegative(runs: seq<TimedRun>, cooldown: Policy)
    requires Bounded(cooldown) && Sane(runs)
    ensures Worst(runs, cooldown) >= 0.0
  {
    if runs != [] {
      WaitsAreBounded(cooldown, TimeoutOf(runs[0]));
      WorstIsNotNegative(runs[1..], cooldown);
    }
  }

  lemma {:induction false} NothingExceedsTheWorst(runs: seq<TimedRun>, cooldown: Policy, spent: seq<Spent>)
    requires Bounded(cooldown) && Sane(runs) && Within(runs, cooldown, spent)
    ensures Total(spent) <= Worst(runs, cooldown)
    decreases |spent|
  {
    if spent == [] {
      WorstIsNotNegative(runs, cooldown);
    } else {
      WaitsAreMonotone(cooldown, spent[0].run, TimeoutOf(runs[0]));
      NothingExceedsTheWorst(runs[1..], cooldown, spent[1..]);
    }
  }

  lemma {:induction false} TheWorstIsReached(runs: seq<TimedRun>, cooldown: Policy)
    requires Bounded(cooldown) && Sane(runs)
    ensures Within(runs, cooldown, AtWorst(runs, cooldown))
    ensures Total(AtWorst(runs, cooldown)) == Worst(runs, cooldown)
  {
    if runs != [] {
      var rest := AtWorst(runs[1..], cooldown);
      WaitsAreBounded(cooldown, TimeoutOf(runs[0]));
      TheWorstIsReached(runs[1..], cooldown);
      assert AtWorst(runs, cooldown)[1..] == rest;
    }
  }

  /**
   An accepted job, or resume's tail, never takes longer than the limit, as far as it gets, whatever its runs take
   within their timeouts and finishing budgets; and one within the other limits is refused only if some would.
   */
  lemma AdmissionIsExact(job: Job, limits: Limits, remaining: Option<nat>, estimated: nat)
    requires Bounded(job.cooldown) && Sane(ToMake(job, remaining))
    requires MeetsRules(job) && estimated <= limits.maxOutput
    requires (if remaining.Some? then remaining.value else job.Count()) <= limits.maxRuns
    ensures Check(job, limits, remaining, estimated).Accepted? <==>
            forall spent | Within(ToMake(job, remaining), job.cooldown, spent) :: Total(spent) <= limits.maxSeconds
  {
    var runs := ToMake(job, remaining);
    WorstCaseIsWorst(job, remaining);
    TheWorstIsReached(runs, job.cooldown);
    forall spent | Within(runs, job.cooldown, spent) ensures Total(spent) <= Worst(runs, job.cooldown) {
      NothingExceedsTheWorst(runs, job.cooldown, spent);
    }
  }

  /** The runs a resume's limits are about are the last it has left. */
  lemma ATailIsTheLastRuns(all: seq<TimedRun>, cooldown: Policy, k: nat, i: nat)
    requires 0 < k <= |all| && i < k
    ensures |ToMake(Each(all, cooldown), Some(k))| == k
    ensures ToMake(Each(all, cooldown), Some(k))[i] == all[|all| - k + i]
  {
  }

  /** Each answer, and so each refusal, exactly: the first limit passed, and accepted when every one is met. */
  lemma VerdictsAreExact(job: Job, limits: Limits, remaining: Option<nat>, estimated: nat)
    ensures
      var verdict, runs := Check(job, limits, remaining, estimated), ToMake(job, remaining);
      var count := if remaining.Some? then remaining.value else job.Count();
      var worst := Worst(runs, job.cooldown);
      var timed := if job.Alike? then job.run.timeout.Some? else forall run | run in job.runs :: run.timeout.Some?;
      && (verdict.TimeoutRequired? <==> !timed)
      && (verdict.OverRuns? <==> timed && count > limits.maxRuns)
      && (verdict.OverSeconds? <==> timed && count <= limits.maxRuns && worst > limits.maxSeconds)
      && (verdict.OverOutput? <==>
            timed && count <= limits.maxRuns && worst <= limits.maxSeconds && estimated > limits.maxOutput)
      && (verdict.Accepted? <==>
            timed && count <= limits.maxRuns && worst <= limits.maxSeconds && estimated <= limits.maxOutput)
  {
    WorstCaseIsWorst(job, remaining);
    if job.Each? {
      assert forall i | 0 <= i < |job.runs| :: job.runs[i] in job.runs;
    }
  }
}
