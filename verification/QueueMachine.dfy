/**
 The whole queue as interleaved steps: request threads, the worker's thread with the chain it runs,
 calls on a job's token made after the lock was released, crashes and restarts. Each section under
 the worker's lock and each transaction elsewhere is one step.
 */
module QueueMachine {
  import opened Options
  import opened Callers
  import opened CancelTokens
  import opened QueueHolds
  import opened QueueStore
  import opened ResumeChain
  import opened HistoryDelete
  import opened ChainHistory
  import opened ChainSteps
  import opened QueueWorkers
  import opened QueueRecovery

  /** Where the worker's thread is; the entry it is at is its marks' `current`. */
  datatype Stage =
    | Down(swept: bool)                            // no worker yet: recovery has, or has not, swept the executions
    | Idle
    | Exited
    | Claimed
    | Begun                                        // the job's token begun
    | Numbered(execution: nat)                     // an execution number taken
    | Tied(execution: nat)                         // and linked to the entry
    | Opened(execution: nat)                       // the execution's row written, as JobStarted is told
    | Guarded(execution: nat, pending: bool)       // the start guard's section done, its call not yet made
    | Working(execution: nat, at: Position)
    | Reported(execution: nat, status: JobStatus)  // the execution's end written, as JobFinished is told
    | Decided(execution: nat, state: QueueState)
    | Marked(state: QueueState)                    // the entry's row finished, not yet published
    | Shown
    | FailOpen                                     // an error before JobStarted
    | FailMarked
    | Leaving

  predicate HasEntry(stage: Stage) {
    !stage.Down? && !stage.Idle? && !stage.Exited?
  }

  predicate HasFinished(stage: Stage) {
    stage.Marked? || stage.Shown? || stage.FailMarked? || stage.Leaving?
  }

  /** Between the start guard's section and the entry's being marked finished. */
  predicate HasStarted(stage: Stage) {
    stage.Guarded? || stage.Working? || stage.Reported? || stage.Decided?
  }

  predicate TokenRuns(stage: Stage) {
    stage.Begun? || stage.Numbered? || stage.Tied? || stage.Opened? || HasStarted(stage) ||
    stage.Marked? || stage.Shown?
  }

  /**
   A resume resolved and not yet inserted: it holds the submission lock, which a submission and a deletion take too.
   */
  datatype Planned = Planned(entry: nat, first: nat, execution: nat)

  /**
   `calls` are the token calls still to be made, each with the entry it was meant for; `ledger`,
   `cancels` (entries a cancel was accepted for) and `claims` (this process's, in order) only record.
   */
  datatype World = World(
    sh: Shared,
    stage: Stage,
    calls: multiset<Option<nat>>,
    plan: Option<Planned>,
    ledger: Ledger,
    cancels: set<nat>,
    claims: seq<nat>,
    stopped: bool)
  {
    function Store(): Store {
      sh.store
    }

    function Current(): Option<nat> {
      sh.marks.current
    }
  }

  datatype Action =
    // Requests.
    | Submit(total: nat, caller: Caller)
    | PlanResume(entry: nat)
    | InsertResume(caller: Caller)
    | DropResume
    | CancelWaiting(entry: nat)
    | CancelRunning(entry: nat)
    | SetStopEvent
    | StopLocked
    | CallToken(target: Option<nat>)
    | Park(entry: nat, caller: Caller, now: string, saved: bool)
    | Unpark(entry: nat, caller: Caller, deleted: bool)
    | HoldQueue(caller: Caller, now: string, saved: bool)
    | ReleaseQueue(caller: Caller, deleted: bool)
    | DeleteRows(numbers: set<nat>)
    // The worker's thread.
    | Claim
    | FailParse
    | SweepAgain
    | BeginToken
    | FailStart
    | TakeNumber
    | Link
    | OpenRow
    | Guard
    | GuardCall
    | Work(move: Move)
    | Report
    | Decide
    | Mark
    | Publish
    | EndToken
    | MarkFailed
    | PublishFailed
    | LetGo
    | LeaveLoop
    // Between processes.
    | Crash
    | SweepRows
    | RecoverRow(entry: nat)
    | Serve

  /** Requests that change rows. */
  predicate IsRequest(action: Action) {
    action.Submit? || action.InsertResume? || action.DropResume? || action.CancelWaiting? || action.DeleteRows?
  }

  /** Requests that reach the claimed job, the worker's loop or the hold. */
  predicate IsControl(action: Action) {
    action.CancelRunning? || action.SetStopEvent? || action.StopLocked? || action.CallToken? || action.Park? ||
    action.Unpark? || action.HoldQueue? || action.ReleaseQueue?
  }

  predicate IsRestart(action: Action) {
    action.Crash? || action.SweepRows? || action.RecoverRow? || action.Serve?
  }

  // --- requests -------------------------------------------------------------------------------

  function NewEntry(total: nat, caller: Caller): Entry {
    Entry(Queued, None, None, None, 1, total, caller)
  }

  function ResumeOf(e: Entry, plan: Planned, caller: Caller): Entry {
    Entry(Queued, None, Some(plan.entry), Some(plan.execution), plan.first, e.total, caller)
  }

  /** Chains are always well formed (`Inv`), so that part never refuses. */
  predicate PlanEnabled(w: World, n: nat) {
    !w.stage.Down? && w.plan.None? && OlderLinks(w.Store()) && CanResume(w.Store(), n)
  }

  function AfterPlan(w: World, n: nat): World
    requires PlanEnabled(w, n)
  {
    var found := Resolve(w.Store(), n);
    w.(plan := Some(Planned(n, found.firstRun, found.execution)))
  }

  predicate RequestEnabled(w: World, action: Action)
    requires IsRequest(action)
  {
    && !w.stage.Down?
    && match action
       case Submit(total, caller) => w.plan.None? && 1 <= total
       case InsertResume(caller) => w.plan.Some? && w.plan.value.entry in w.Store().entries
       case DropResume => w.plan.Some?
       case CancelWaiting(n) => true
       case DeleteRows(numbers) =>
         w.plan.None? && OlderLinks(w.Store()) && forall x | x in numbers :: Deletable(w.Store(), x)
  }

  function AfterRequest(w: World, action: Action): (after: World)
    requires IsRequest(action) && RequestEnabled(w, action)
    ensures after == w.(sh := after.sh, plan := after.plan, cancels := after.cancels)
    ensures after.sh == w.sh.(store := after.sh.store, events := after.sh.events)
  {
    match action
    case Submit(total, caller) => w.(sh := EnqueueSection(w.sh, NewEntry(total, caller)))
    case InsertResume(caller) =>
      var plan := w.plan.value;
      w.(sh := EnqueueSection(w.sh, ResumeOf(w.Store().entries[plan.entry], plan, caller)), plan := None)
    case DropResume => w.(plan := None)
    case CancelWaiting(n) =>
      var (sh, cancelled) := CancelQueuedSection(w.sh, n);
      w.(sh := sh, cancels := if cancelled then w.cancels + {n} else w.cancels)
    case DeleteRows(numbers) => w.(sh := w.sh.(store := Without(w.Store(), numbers)))
  }

  predicate ControlEnabled(w: World, action: Action)
    requires IsControl(action)
  {
    && !w.stage.Down?
    && (action.StopLocked? ==> w.sh.stopping)
    && (action.CallToken? ==> action.target in w.calls)
  }

  /** Nothing of these moves the worker's thread, or changes a row or what is claimed. */
  function AfterControl(w: World, action: Action): (after: World)
    requires IsControl(action) && ControlEnabled(w, action)
    ensures after == w.(sh := after.sh, calls := after.calls, cancels := after.cancels, stopped := after.stopped)
    ensures after.sh.store == w.sh.store
    ensures after.sh.marks.current == w.sh.marks.current && after.sh.marks.finished == w.sh.marks.finished
    ensures !action.Park? && !action.Unpark? ==>
              after.sh.events == w.sh.events && after.sh.marks.parkPending == w.sh.marks.parkPending
  {
    match action
    case CancelRunning(n) =>
      var (sh, accepted) := CancelRunningSection(w.sh, n);
      if accepted then w.(sh := sh, calls := w.calls + multiset{Some(n)}, cancels := w.cancels + {n}) else w
    case SetStopEvent => w.(sh := w.sh.(stopping := true))
    case StopLocked => w.(sh := StopSection(w.sh), calls := w.calls + multiset{w.Current()}, stopped := true)
    case CallToken(target) =>
      w.(sh := w.sh.(token := w.sh.token.Cancelled()), calls := w.calls - multiset{target})
    case Park(n, caller, now, saved) => w.(sh := ParkSection(w.sh, n, caller, now, saved).0)
    case Unpark(n, caller, deleted) => w.(sh := UnparkSection(w.sh, n, caller, deleted).0)
    case HoldQueue(caller, now, saved) => w.(sh := HoldSection(w.sh, caller, now, saved).0)
    case ReleaseQueue(caller, deleted) => w.(sh := ReleaseSection(w.sh, caller, deleted).0)
  }

  // --- the worker's thread ----------------------------------------------------------------------

  function PlanOf(e: Entry): Plan {
    Plan(e.firstRun, e.total)
  }

  /** The current entry's row and its execution's are always there when a stage needs them (`Inv`). */
  predicate HasRows(w: World) {
    && w.Current().Some?
    && w.Current().value in w.Store().entries
    && ((w.stage.Working? || w.stage.Reported?) ==> w.stage.execution in w.Store().executions)
  }

  function AfterClaim(w: World): (after: World)
    ensures after == w.(sh := after.sh, stage := after.stage, claims := after.claims)
    ensures after.sh.holding == w.sh.holding && after.sh.token == w.sh.token
    ensures after.stage.Down? ==> w.stage.Down?
  {
    var (sh, answer) := ClaimSection(w.sh);
    match answer
    case ClaimedOne(n) => w.(sh := sh, stage := Claimed, claims := w.claims + [n])
    case PutBack(n) => w.(sh := sh, stage := Exited)
    case NothingToClaim => w
  }

  predicate MoveEnabled(w: World, move: Move) {
    && HasRows(w)
    && w.stage.Working?
    && Allowed(PlanOf(w.Store().entries[w.Current().value]), w.stage.at, move, w.sh.token)
  }

  function AfterMove(w: World, move: Move): (after: World)
    requires MoveEnabled(w, move)
    ensures after == w.(sh := w.sh.(store := after.sh.store, token := after.sh.token), stage := after.stage,
                        ledger := after.ledger)
    ensures after.Store() == w.Store().(executions := after.Store().executions)
    ensures after.stage.Working?
  {
    var n, x, at, s := w.Current().value, w.stage.execution, w.stage.at, w.Store();
    var plan := PlanOf(s.entries[n]);
    var store :=
      if move.StartRun? then RunStarted(s, x, at.number)
      else if move.EndRun? then RunFinished(s, x, at.number, move.status)
      else s;
    w.(sh := w.sh.(store := store, token := TokenAfter(plan, at, move, w.sh.token)),
       stage := Working(x, Moved(plan, at, move, w.sh.token)),
       ledger := if move.EndRun? then NotedIf(w.ledger, n, at.number, move.status) else w.ledger)
  }

  /** From the claim to the execution's row. */
  predicate IsSetup(action: Action) {
    action.FailParse? || action.SweepAgain? || action.BeginToken? || action.FailStart? || action.TakeNumber? ||
    action.Link? || action.OpenRow?
  }

  predicate SetupEnabled(w: World, action: Action)
    requires IsSetup(action)
  {
    && HasRows(w)
    && match action
       case FailParse => w.stage.Claimed?
       case SweepAgain => w.stage.Claimed?
       case BeginToken => w.stage.Claimed?
       case FailStart => w.stage.Claimed? || w.stage.Begun? || w.stage.Numbered? || w.stage.Tied?
       case TakeNumber => w.stage.Begun?
       case Link => w.stage.Numbered?
       case OpenRow => w.stage.Tied?
  }

  function AfterSetup(w: World, action: Action): (after: World)
    requires IsSetup(action) && SetupEnabled(w, action)
    ensures after == w.(sh := w.sh.(store := after.sh.store, token := after.sh.token), stage := after.stage)
    ensures HasEntry(after.stage)
  {
    var n, s := w.Current().value, w.Store();
    match action
    case FailParse => w.(stage := FailOpen)
    case SweepAgain => w.(sh := w.sh.(store := Swept(s)))
    case BeginToken => w.(sh := w.sh.(token := w.sh.token.Begun()), stage := Begun)
    case FailStart => w.(sh := w.sh.(token := w.sh.token.Ended()), stage := FailOpen)
    case TakeNumber => w.(sh := w.sh.(store := NumberTaken(s)), stage := Numbered(s.nextExecution))
    case Link => w.(sh := w.sh.(store := LinkedTo(s, n, w.stage.execution)), stage := Tied(w.stage.execution))
    case OpenRow =>
      w.(sh := w.sh.(store := Recorded(s, w.stage.execution, s.entries[n].total)), stage := Opened(w.stage.execution))
  }

  /** Around the chain: the start guard before it, the execution's end and the entry's final state after it. */
  predicate IsAround(action: Action) {
    action.Guard? || action.GuardCall? || action.Report? || action.Decide?
  }

  predicate AroundEnabled(w: World, action: Action)
    requires IsAround(action)
  {
    && HasRows(w)
    && match action
       case Guard => w.stage.Opened?
       case GuardCall => w.stage.Guarded?
       case Report => w.stage.Working? && w.stage.at.Ending?
       case Decide => w.stage.Reported?
  }

  function AfterAround(w: World, action: Action): (after: World)
    requires IsAround(action) && AroundEnabled(w, action)
    ensures after == w.(sh := w.sh.(store := after.sh.store, token := after.sh.token, marks := after.sh.marks),
                        stage := after.stage)
    ensures after.Store() == w.Store().(executions := after.Store().executions)
    ensures after.sh.marks == w.sh.marks.(started := after.sh.marks.started)
    ensures HasStarted(after.stage)
  {
    match action
    case Guard =>
      var (sh, pending) := GuardSection(w.sh);
      w.(sh := sh, stage := Guarded(w.stage.execution, pending))
    case GuardCall =>
      w.(sh := if w.stage.pending then w.sh.(token := w.sh.token.Cancelled()) else w.sh,
         stage := Working(w.stage.execution, Top(w.Store().entries[w.Current().value].firstRun)))
    case Report =>
      w.(sh := w.sh.(store := ExecutionFinished(w.Store(), w.stage.execution, w.stage.at.status)),
         stage := Reported(w.stage.execution, w.stage.at.status))
    case Decide => w.(stage := Decided(w.stage.execution, FinalState(w.sh.marks.stop, w.stage.status)))
  }

  /** The entry's end, and letting go of it. */
  predicate IsFinish(action: Action) {
    action.Mark? || action.Publish? || action.EndToken? || action.MarkFailed? || action.PublishFailed? || action.LetGo?
  }

  predicate FinishEnabled(w: World, action: Action)
    requires IsFinish(action)
  {
    && HasRows(w)
    && match action
       case Mark => w.stage.Decided?
       case Publish => w.stage.Marked?
       case EndToken => w.stage.Shown?
       case MarkFailed => w.stage.FailOpen?
       case PublishFailed => w.stage.FailMarked?
       case LetGo => w.stage.Leaving?
  }

  function AfterFinish(w: World, action: Action): (after: World)
    requires IsFinish(action) && FinishEnabled(w, action)
    ensures after == w.(sh := after.sh, stage := after.stage)
    ensures after.sh.holding == w.sh.holding && after.sh.stopping == w.sh.stopping
    ensures HasFinished(after.stage) || after.stage.Idle?
  {
    var n := w.Current().value;
    match action
    case Mark => w.(sh := FinishSection(w.sh, n, w.stage.state), stage := Marked(w.stage.state))
    case Publish => w.(sh := Published(w.sh, EntryChanged(n, w.stage.state)), stage := Shown)
    case EndToken => w.(sh := w.sh.(token := w.sh.token.Ended()), stage := Leaving)
    case MarkFailed => w.(sh := FailSection(w.sh, n), stage := FailMarked)
    case PublishFailed => w.(sh := Published(w.sh, EntryChanged(n, Failed)), stage := Leaving)
    case LetGo => w.(sh := ReleasedEntry(w.sh), stage := Idle)
  }

  // --- between processes ------------------------------------------------------------------------

  predicate NoneRunning(s: Store) {
    forall n | n in s.entries :: !s.entries[n].state.Running?
  }

  predicate RestartEnabled(w: World, action: Action)
    requires IsRestart(action)
  {
    match action
    case Crash => true
    case SweepRows => w.stage == Down(false)
    case RecoverRow(n) => w.stage == Down(true) && n in w.Store().entries && w.Store().entries[n].state.Running?
    case Serve => w.stage == Down(true) && NoneRunning(w.Store())
  }

  /** What a process starts from: its rows, and nothing of the process before it. */
  function FreshShared(s: Store, row: Option<SavedRow>): Shared {
    Shared(s, Holding(ReadHold(row), row), IDLE_TOKEN, NO_MARKS, false, Opening(s))
  }

  function AfterRestart(w: World, action: Action): World
    requires IsRestart(action) && RestartEnabled(w, action)
  {
    match action
    case Crash =>
      World(FreshShared(w.Store(), w.sh.holding.row), Down(false), multiset{}, None, w.ledger, w.cancels, [], false)
    case SweepRows => w.(sh := w.sh.(store := Swept(w.Store())), stage := Down(true))
    case RecoverRow(n) => w.(sh := w.sh.(store := EntryRecovered(w.Store(), n)))
    case Serve => w.(sh := FreshShared(w.Store(), w.sh.holding.row), stage := Idle)
  }

  // --- runs -------------------------------------------------------------------------------------

  predicate IsWorkers(action: Action) {
    action.Claim? || action.LeaveLoop? || action.Work? || IsSetup(action) || IsAround(action) || IsFinish(action)
  }

  predicate WorkerEnabled(w: World, action: Action)
    requires IsWorkers(action)
  {
    if action.Claim? then w.stage.Idle?
    else if action.LeaveLoop? then w.stage.Idle? && w.sh.stopping
    else if action.Work? then MoveEnabled(w, action.move)
    else if IsSetup(action) then SetupEnabled(w, action)
    else if IsAround(action) then AroundEnabled(w, action)
    else FinishEnabled(w, action)
  }

  /** No step of the worker's thread changes the hold, or takes the process down. */
  function AfterWorker(w: World, action: Action): (after: World)
    requires IsWorkers(action) && WorkerEnabled(w, action)
    ensures after.sh.holding == w.sh.holding
    ensures after.stage.Down? ==> w.stage.Down?
    ensures action.Claim? && w.sh.holding.state.held ==> after == w
  {
    if action.Claim? then AfterClaim(w)
    else if action.LeaveLoop? then w.(stage := Exited)
    else if action.Work? then AfterMove(w, action.move)
    else if IsSetup(action) then AfterSetup(w, action)
    else if IsAround(action) then AfterAround(w, action)
    else AfterFinish(w, action)
  }

  predicate Enabled(w: World, action: Action) {
    if IsWorkers(action) then WorkerEnabled(w, action)
    else if action.PlanResume? then PlanEnabled(w, action.entry)
    else if IsRequest(action) then RequestEnabled(w, action)
    else if IsControl(action) then ControlEnabled(w, action)
    else RestartEnabled(w, action)
  }

  function After(w: World, action: Action): World
    requires Enabled(w, action)
  {
    if IsWorkers(action) then AfterWorker(w, action)
    else if action.PlanResume? then AfterPlan(w, action.entry)
    else if IsRequest(action) then AfterRequest(w, action)
    else if IsControl(action) then AfterControl(w, action)
    else AfterRestart(w, action)
  }

  const NO_ROWS := QueueStore.Store(map[], map[], 0, 0)

  /** Before the first process: no rows but perhaps a hold's, read or not. */
  function FirstWorld(row: Option<SavedRow>): World {
    World(FreshShared(NO_ROWS, row), Down(false), multiset{}, None, map[], {}, [], false)
  }

  predicate CanRun(w: World, actions: seq<Action>)
    decreases |actions|
  {
    actions == [] || (Enabled(w, actions[0]) && CanRun(After(w, actions[0]), actions[1..]))
  }

  function RunAll(w: World, actions: seq<Action>): World
    requires CanRun(w, actions)
    decreases |actions|
  {
    if actions == [] then w else RunAll(After(w, actions[0]), actions[1..])
  }
}
