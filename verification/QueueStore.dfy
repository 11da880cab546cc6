/**
 The rows the program keeps: queue entries, executions with their runs, and the counters that
 number them. Every operation is one transaction.
 */
module QueueStore {
  import opened Options
  import opened Callers

  datatype QueueState = Queued | Running | Succeeded | Failed | Cancelled | Interrupted | Parked
  {
    predicate Active() {
      Queued? || Running?
    }

    predicate Resumable() {
      Interrupted? || Failed? || Cancelled? || Parked?
    }
  }

  /** `firstRun` and `total` are of the whole chain: a plain submission starts at run 1. */
  datatype Entry = Entry(
    state: QueueState,
    execution: Option<nat>,
    resumes: Option<nat>,
    resumesExecution: Option<nat>,
    firstRun: nat,
    total: nat,
    submittedBy: Caller)

  datatype RunStatus = RunGoing | RunSucceeded | RunFailed | RunTimedOut | RunInterrupted

  datatype Run = Run(number: nat, status: RunStatus)

  datatype JobStatus = JobRunning | JobSucceeded | JobFailed | JobInterrupted | JobParked

  /** `total` is missing only on rows older than the column. */
  datatype Execution = Execution(status: JobStatus, total: Option<nat>, runs: seq<Run>)

  datatype Store = Store(
    entries: map<nat, Entry>,
    executions: map<nat, Execution>,
    nextEntry: nat,
    nextExecution: nat)

  // --- runs -----------------------------------------------------------------------------------

  /** The numbers of the succeeded runs, in row order. */
  function SucceededNumbers(runs: seq<Run>): seq<nat> {
    if runs == [] then []
    else
      var before := SucceededNumbers(runs[..|runs| - 1]);
      var last := runs[|runs| - 1];
      if last.status.RunSucceeded? then before + [last.number] else before
  }

  function LastSucceeded(runs: seq<Run>): Option<nat> {
    var numbers := SucceededNumbers(runs);
    if numbers == [] then None else Some(numbers[|numbers| - 1])
  }

  predicate RunsInOrder(runs: seq<Run>) {
    forall i, j | 0 <= i < j < |runs| :: runs[i].number < runs[j].number
  }

  /** In rows kept in run order, the last succeeded run is the one of the greatest number. */
  lemma {:induction false} LastSucceededIsGreatest(runs: seq<Run>, k: nat)
    requires RunsInOrder(runs)
    ensures LastSucceeded(runs) == Some(k) <==>
            && (exists i | 0 <= i < |runs| :: runs[i] == Run(k, RunSucceeded))
            && (forall i | 0 <= i < |runs| && runs[i].status.RunSucceeded? :: runs[i].number <= k)
  {
    if runs != [] {
      var last := |runs| - 1;
      LastSucceededIsGreatest(runs[..last], k);
      if runs[last].status.RunSucceeded? {
        assert LastSucceeded(runs) == Some(runs[last].number);
        assert runs[last] == Run(runs[last].number, RunSucceeded);
      } else {
        assert forall i | 0 <= i < last :: runs[..last][i] == runs[i];
      }
    }
  }

  // --- transactions ---------------------------------------------------------------------------

  function Submitted(s: Store, e: Entry): Store {
    s.(entries := s.entries[s.nextEntry := e], nextEntry := s.nextEntry + 1)
  }

  function WithState(s: Store, n: nat, state: QueueState): Store
    requires n in s.entries
  {
    s.(entries := s.entries[n := s.entries[n].(state := state)])
  }

  /** Back to queued, with no link: nothing of it ran. */
  function Requeued(s: Store, n: nat): Store
    requires n in s.entries
  {
    s.(entries := s.entries[n := s.entries[n].(state := Queued, execution := None)])
  }

  /** Failed before its job began: the number it was given never became an execution. */
  function FailedToStart(s: Store, n: nat): Store
    requires n in s.entries
  {
    s.(entries := s.entries[n := s.entries[n].(state := Failed, execution := None)])
  }

  /** Takes the next execution number, for good: a number is never given twice. */
  function NumberTaken(s: Store): Store {
    s.(nextExecution := s.nextExecution + 1)
  }

  function LinkedTo(s: Store, n: nat, x: nat): Store
    requires n in s.entries
  {
    s.(entries := s.entries[n := s.entries[n].(execution := Some(x))])
  }

  function Recorded(s: Store, x: nat, total: nat): Store {
    s.(executions := s.executions[x := Execution(JobRunning, Some(total), [])])
  }

  function RunStarted(s: Store, x: nat, number: nat): Store
    requires x in s.executions
  {
    s.(executions := s.executions[x := s.executions[x].(runs := s.executions[x].runs + [Run(number, RunGoing)])])
  }

  /** Every run row of that number, as an update by number writes them. */
  function RunsFinished(runs: seq<Run>, number: nat, status: RunStatus): seq<Run> {
    seq(|runs|, i requires 0 <= i < |runs| => if runs[i].number == number then Run(number, status) else runs[i])
  }

  function RunFinished(s: Store, x: nat, number: nat, status: RunStatus): Store
    requires x in s.executions
  {
    s.(executions := s.executions[x := s.executions[x].(runs := RunsFinished(s.executions[x].runs, number, status))])
  }

  function ExecutionFinished(s: Store, x: nat, status: JobStatus): Store
    requires x in s.executions
  {
    s.(executions := s.executions[x := s.executions[x].(status := status)])
  }

  /** A running execution was left by a crash: it and its running runs end interrupted. */
  function SweptExecution(execution: Execution): Execution {
    if execution.status.JobRunning? then
      var runs := execution.runs;
      execution.(
        status := JobInterrupted,
        runs := seq(|runs|, i requires 0 <= i < |runs| =>
          if runs[i].status.RunGoing? then Run(runs[i].number, RunInterrupted) else runs[i]))
    else execution
  }

  function Swept(s: Store): Store {
    s.(executions := map x | x in s.executions :: SweptExecution(s.executions[x]))
  }

  function Without(s: Store, numbers: set<nat>): Store {
    s.(executions := s.executions - numbers)
  }

  /** The oldest queued entry from number `from` on. */
  function OldestFrom(s: Store, from: nat): (oldest: Option<nat>)
    ensures oldest.Some? ==> oldest.value in s.entries && s.entries[oldest.value].state.Queued?
    decreases s.nextEntry - from
  {
    if from >= s.nextEntry then None
    else if from in s.entries && s.entries[from].state.Queued? then Some(from)
    else OldestFrom(s, from + 1)
  }

  function OldestQueued(s: Store): (oldest: Option<nat>)
    ensures oldest.Some? ==> oldest.value in s.entries && s.entries[oldest.value].state.Queued?
  {
    OldestFrom(s, 0)
  }

  ghost predicate IsOldestQueued(s: Store, n: nat) {
    && n in s.entries && s.entries[n].state.Queued?
    && forall m | m in s.entries && s.entries[m].state.Queued? :: n <= m
  }

  lemma {:induction false} OldestFromIsLeast(s: Store, from: nat)
    requires forall m | m in s.entries :: m < s.nextEntry
    ensures
      match OldestFrom(s, from)
      case None => forall m | m in s.entries && from <= m :: !s.entries[m].state.Queued?
      case Some(n) =>
        && from <= n && n in s.entries && s.entries[n].state.Queued?
        && forall m | m in s.entries && from <= m < n :: !s.entries[m].state.Queued?
    decreases s.nextEntry - from
  {
    if from < s.nextEntry && !(from in s.entries && s.entries[from].state.Queued?) {
      OldestFromIsLeast(s, from + 1);
    }
  }

  /** First in, first out: the claim takes the least queued number, and nothing only when none is queued. */
  lemma OldestQueuedIsLeast(s: Store)
    requires forall m | m in s.entries :: m < s.nextEntry
    ensures
      match OldestQueued(s)
      case None => forall m | m in s.entries :: !s.entries[m].state.Queued?
      case Some(n) => IsOldestQueued(s, n)
  {
    OldestFromIsLeast(s, 0);
  }

  /** A run's end is recorded on its own row, as it ended, and nothing else of the execution changes. */
  lemma ARunsEndIsRecorded(s: Store, x: nat, number: nat, status: RunStatus, y: nat, i: nat)
    requires x in s.executions && y in s.executions && i < |s.executions[y].runs|
    ensures
      var before, after := s.executions[y], RunFinished(s, x, number, status).executions[y];
      && after == before.(runs := after.runs) && |after.runs| == |before.runs|
      && after.runs[i] == if y == x && before.runs[i].number == number then Run(number, status) else before.runs[i]
  {
  }

  /** After the sweep nothing is running: what was reads interrupted, its running run too, and all else is as it was. */
  lemma TheSweepIsExact(s: Store, x: nat, i: nat)
    requires x in s.executions && i < |s.executions[x].runs|
    ensures
      var before, after := s.executions[x], Swept(s).executions[x];
      && !after.status.JobRunning? && Swept(s).entries == s.entries
      && (!before.status.JobRunning? ==> after == before)
      && (before.status.JobRunning? ==>
            && after == before.(status := JobInterrupted, runs := after.runs) && |after.runs| == |before.runs|
            && after.runs[i] ==
                 if before.runs[i].status.RunGoing? then Run(before.runs[i].number, RunInterrupted) else before.runs[i])
  {
  }
}
