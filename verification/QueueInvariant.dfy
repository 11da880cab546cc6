/**
 What every step of the queue keeps: how the rows, the worker's marks, the token, the hold, the
 published events and the records of claims and cancels fit together.
 */
module QueueInvariant {
  import opened Options
  import opened Callers
  import opened CancelTokens
  import opened QueueHolds
  import opened QueueStore
  import opened ResumeChain
  import opened HistoryDelete
  import opened ChainHistory
  import opened ChainSteps
  import opened QueueWorkers
  import opened QueueRecovery
  import opened QueueMachine

  // --- published events -------------------------------------------------------------------------

  /** What a client that read every event of this process knows of an entry. */
  datatype Phase = Unseen | Waiting(again: bool) | Active(parking: bool) | Over | OutOfOrder

  function Told(phase: Phase, event: Event): Phase {
    match event
    case EntryChanged(_, state) =>
      if state.Queued? && phase == Unseen then Waiting(false)
      else if state.Queued? && phase == Waiting(false) then Waiting(true)
      else if state.Cancelled? && phase.Waiting? then Over
      else if state.Running? && phase == Waiting(false) then Active(false)
      else if !state.Active() && phase.Active? then Over
      else OutOfOrder
    case ParkChanged(_, parking) =>
      if phase == Active(!parking) then Active(parking) else OutOfOrder
  }

  function PhaseOf(events: Events, n: nat): Phase {
    match events
    case Opening(store) =>
      if n !in store.entries then Unseen
      else if store.entries[n].state.Queued? then Waiting(false)
      else Over
    case Then(before, event) =>
      if event.entry == n then Told(PhaseOf(before, n), event) else PhaseOf(before, n)
  }

  /** The phase is what the row says, a park reservation included, but for an end not yet published. */
  predicate PhaseFits(phase: Phase, stage: Stage, marks: Marks, s: Store, n: nat) {
    if n !in s.entries then phase == Unseen
    else if s.entries[n].state.Queued? then phase.Waiting? && (phase.again ==> stage.Exited?)
    else if s.entries[n].state.Running? then phase == Active(marks.parkPending)
    else if marks.current == Some(n) && (stage.Marked? || stage.FailMarked?) then phase == Active(marks.parkPending)
    else phase == Over
  }

  ghost predicate EventsOk(w: World) {
    !w.stage.Down? ==>
      forall n :: PhaseFits(PhaseOf(w.sh.events, n), w.stage, w.sh.marks, w.Store(), n)
  }

  // --- marks and token --------------------------------------------------------------------------

  predicate MarksOk(stage: Stage, marks: Marks) {
    && (marks.current.Some? <==> HasEntry(stage))
    && (marks.stop.Some? <==> marks.cancelPending)
    && (HasEntry(stage) ==> (marks.finished <==> HasFinished(stage)))
    && (HasStarted(stage) ==> marks.started)
    && (HasEntry(stage) && !HasStarted(stage) && !HasFinished(stage) ==> !marks.started)
    && (stage.Down? ==> marks == NO_MARKS)
    && (marks.skipWait ==> !HasEntry(stage) || HasFinished(stage))
  }

  /** How the job would end, once that is settled. */
  predicate EndsAs(stage: Stage, status: JobStatus) {
    match stage
    case Working(_, at) => at == Ending(status)
    case Reported(_, known) => known == status
    case _ => false
  }

  predicate TokenOk(stage: Stage, marks: Marks, token: Token) {
    && (token.running <==> TokenRuns(stage))
    && (token.taken ==> token.park)
    && (TokenRuns(stage) && !HasStarted(stage) && !HasFinished(stage) ==> !token.park)
    && (HasStarted(stage) ==> token.park == marks.parkPending)
    && (stage.Guarded? ==> !token.taken)
    && (stage.Working? ==> TakenOnlyAtTheEnd(stage.at, token) && EndShows(stage.at, token))
    && (stage.Reported? ==> token.taken ==> stage.status in {JobParked, JobFailed})
    && (EndsAs(stage, JobParked) ==> token.taken)
    && (EndsAs(stage, JobInterrupted) ==> token.requested)
    && (stage.Decided? && stage.state.Parked? ==> token.taken)
    && (stage.Decided? && token.taken ==> stage.state in {Parked, QueueState.Failed})
  }

  /** A stop asked for the claimed entry is pending, on its way to the token, or there. */
  predicate StopOnItsWay(stage: Stage, marks: Marks, token: Token, calls: multiset<Option<nat>>) {
    HasStarted(stage) && marks.cancelPending ==>
      token.requested || marks.current in calls || (stage.Guarded? && stage.pending)
  }

  predicate StoppedOk(w: World) {
    && (w.stopped ==> w.sh.stopping)
    && (w.stopped && HasEntry(w.stage) ==> w.sh.marks.cancelPending)
    && (w.stage.Exited? ==> w.sh.stopping)
    && (w.stage.Down? ==> !w.stopped)
  }

  predicate CancelsOk(w: World) {
    && (forall n | n in w.Store().entries && w.Store().entries[n].state.Cancelled? :: n in w.cancels)
    && (w.sh.marks.stop == Some(StopForCancel) && w.Current().Some? ==> w.Current().value in w.cancels)
    && (w.stage.Decided? && w.stage.state.Cancelled? && w.Current().Some? ==> w.Current().value in w.cancels)
  }

  // --- rows -------------------------------------------------------------------------------------

  /** A row reads running exactly while its entry is claimed and not finished. */
  predicate RunningOk(stage: Stage, marks: Marks, s: Store) {
    if stage.Down? then
      forall n, m | n in s.entries && m in s.entries && s.entries[n].state.Running? && s.entries[m].state.Running? ::
        n == m
    else
      && (forall n | n in s.entries :: s.entries[n].state.Running? <==> marks.IsRunning(n))
      && (marks.current.Some? ==> marks.current.value in s.entries)
  }

  predicate EntryAtStage(stage: Stage, e: Entry, row: Option<Execution>, made: nat) {
    match stage
    case Claimed => e.execution.None?
    case Begun => e.execution.None?
    case Numbered(_) => e.execution.None?
    case Tied(x) => e.execution == Some(x) && row.None?
    case Opened(x) => e.execution == Some(x) && row.Some? && row.value.status.JobRunning? && row.value.runs == []
    case Guarded(x, _) => e.execution == Some(x) && row.Some? && row.value.status.JobRunning? && row.value.runs == []
    case Working(x, at) =>
      && e.execution == Some(x) && row.Some? && row.value.status.JobRunning?
      && PositionOk(PlanOf(e), at, made)
      && (!at.Ending? ==> |row.value.runs| == if at.Going? then made + 1 else made)
    case Reported(x, status) => e.execution == Some(x) && row.Some? && row.value.status == status && !status.JobRunning?
    case Decided(x, state) =>
      && row.Some? && StateAgrees(state, row.value.status) && !state.Active()
      && EndOk(state, made, e.total + 1 - e.firstRun)
    case Marked(state) => e.state == state && !state.Active()
    case FailOpen => row.None?
    case FailMarked => e.state.Failed?
    case Shown => !e.state.Active()
    case Leaving => !e.state.Active()
    case _ => true
  }

  predicate StageOk(w: World) {
    HasEntry(w.stage) && w.Current().Some? && w.Current().value in w.Store().entries ==>
      var n := w.Current().value;
      EntryAtStage(w.stage, w.Store().entries[n], RowOf(w.Store(), w.Store().entries[n]), |RunsOf(w.ledger, n)|)
  }

  predicate ExecutionKeysBelow(s: Store) {
    forall x | x in s.executions :: x < s.nextExecution
  }

  predicate NoneGoing(s: Store) {
    forall x | x in s.executions :: !s.executions[x].status.JobRunning?
  }

  /** A number taken is nobody's until it is linked; once swept, no execution is left running. */
  predicate NumbersFresh(stage: Stage, s: Store) {
    && ExecutionKeysBelow(s)
    && (stage == Down(true) ==> NoneGoing(s))
    && (stage.Numbered? ==> NewlyLinked(s, Some(stage.execution)) && stage.execution !in s.executions)
  }

  // --- resumes, claims --------------------------------------------------------------------------

  predicate PlanOk(plan: Option<Planned>, s: Store, ledger: Ledger) {
    plan.Some? ==>
      && plan.value.entry in s.entries
      && !s.entries[plan.value.entry].state.Active()
      && !IsResumed(s, plan.value.entry)
      && plan.value.first == NextRun(s, ledger, plan.value.entry)
      && 1 <= plan.value.first <= s.entries[plan.value.entry].total
  }

  predicate RisingNumbers(numbers: seq<nat>) {
    forall i, j | 0 <= i < j < |numbers| :: numbers[i] < numbers[j]
  }

  /** Claims come in queue order, and everything still waiting comes after them. */
  predicate ClaimsOk(claims: seq<nat>, stage: Stage, s: Store) {
    && RisingNumbers(claims)
    && (stage.Down? ==> claims == [])
    && (claims != [] && !stage.Down? ==>
          && claims[|claims| - 1] < s.nextEntry
          && (!stage.Exited? ==>
                forall m | m in s.entries && s.entries[m].state.Queued? :: claims[|claims| - 1] < m))
  }

  /** The worker's marks with the token, at a stage. */
  predicate MarksAndTokenOk(stage: Stage, sh: Shared) {
    MarksOk(stage, sh.marks) && TokenOk(stage, sh.marks, sh.token) && sh.holding.Coherent()
  }

  predicate StopsOk(w: World) {
    StopOnItsWay(w.stage, w.sh.marks, w.sh.token, w.calls) && StoppedOk(w) && CancelsOk(w)
  }

  predicate RowsFit(w: World) {
    && RunningOk(w.stage, w.sh.marks, w.Store())
    && NumbersFresh(w.stage, w.Store())
    && ClaimsOk(w.claims, w.stage, w.Store())
  }

  ghost predicate Inv(w: World) {
    && ChainsOk(w.Store(), w.ledger)
    && MarksAndTokenOk(w.stage, w.sh)
    && StopsOk(w)
    && RowsFit(w)
    && StageOk(w)
    && PlanOk(w.plan, w.Store(), w.ledger)
    && EventsOk(w)
  }

  // --- requests that change rows keep it ----------------------------------------------------------

  lemma RequestKeepsChains(w: World, action: Action)
    requires ChainsOk(w.Store(), w.ledger) && PlanOk(w.plan, w.Store(), w.ledger)
    requires IsRequest(action) && RequestEnabled(w, action)
    ensures ChainsOk(AfterRequest(w, action).Store(), w.ledger)
  {
    var s := w.Store();
    if action.Submit? {
      SubmittingKeeps(s, w.ledger, NewEntry(action.total, action.caller));
    } else if action.InsertResume? {
      SubmittingKeeps(s, w.ledger, ResumeOf(s.entries[w.plan.value.entry], w.plan.value, action.caller));
    } else if action.CancelWaiting? && IsQueued(w.sh, action.entry) {
      assert EntryOk(s, w.ledger, action.entry);
      StateChangeKeeps(s, w.ledger, action.entry, Cancelled);
    } else if action.DeleteRows? {
      DeletingKeeps(s, w.ledger, action.numbers);
    }
  }

  lemma RequestKeepsStops(w: World, action: Action)
    requires IsRequest(action) && RequestEnabled(w, action)
    requires StopsOk(w) && NumbersBelow(w.Store())
    ensures StopsOk(AfterRequest(w, action))
  {
  }

  lemma SubmittingKeepsRows(w: World, e: Entry)
    requires RowsFit(w) && !w.stage.Down? && NumbersBelow(w.Store()) && e.state.Queued? && e.execution.None?
    requires MarksOk(w.stage, w.sh.marks)
    ensures RowsFit(w.(sh := EnqueueSection(w.sh, e)))
  {
  }

  lemma CancellingKeepsRows(w: World, n: nat)
    requires RowsFit(w) && !w.stage.Down?
    ensures RowsFit(w.(sh := CancelQueuedSection(w.sh, n).0))
  {
  }

  lemma DeletingKeepsRows(w: World, numbers: set<nat>)
    requires RowsFit(w)
    ensures RowsFit(w.(sh := w.sh.(store := Without(w.Store(), numbers))))
  {
  }

  lemma RequestKeepsRows(w: World, action: Action)
    requires IsRequest(action) && RequestEnabled(w, action)
    requires RowsFit(w) && NumbersBelow(w.Store()) && MarksOk(w.stage, w.sh.marks)
    ensures RowsFit(AfterRequest(w, action))
  {
    if action.Submit? {
      SubmittingKeepsRows(w, NewEntry(action.total, action.caller));
    } else if action.InsertResume? {
      SubmittingKeepsRows(w, ResumeOf(w.Store().entries[w.plan.value.entry], w.plan.value, action.caller));
    } else if action.CancelWaiting? {
      CancellingKeepsRows(w, action.entry);
    } else if action.DeleteRows? {
      DeletingKeepsRows(w, action.numbers);
    }
  }

  lemma RequestKeepsPlan(w: World, action: Action)
    requires IsRequest(action) && RequestEnabled(w, action)
    requires PlanOk(w.plan, w.Store(), w.ledger) && NumbersBelow(w.Store())
    ensures PlanOk(AfterRequest(w, action).plan, AfterRequest(w, action).Store(), w.ledger)
  {
  }

  lemma RequestKeepsStage(w: World, action: Action)
    requires IsRequest(action) && RequestEnabled(w, action)
    requires StageOk(w) && NumbersBelow(w.Store())
    requires MarksOk(w.stage, w.sh.marks) && RunningOk(w.stage, w.sh.marks, w.Store())
    ensures StageOk(AfterRequest(w, action))
  {
    if HasEntry(w.stage) {
      var n, after := w.Current().value, AfterRequest(w, action);
      var e := w.Store().entries[n];
      assert after.Store().entries[n] == e;
      if action.DeleteRows? {
        if e.state.Running? && e.execution.Some? {
          RunningIsNotDeletable(w.Store(), n);
        }
      } else {
        assert RowOf(after.Store(), e) == RowOf(w.Store(), e);
      }
    }
  }

  predicate AlsoFits(w: World, after: World, n: nat) {
    PhaseFits(PhaseOf(w.sh.events, n), w.stage, w.sh.marks, w.Store(), n) ==>
      PhaseFits(PhaseOf(after.sh.events, n), after.stage, after.sh.marks, after.Store(), n)
  }

  lemma AllAlsoFit(w: World, after: World)
    requires EventsOk(w) && !w.stage.Down?
    requires forall n :: AlsoFits(w, after, n)
    ensures EventsOk(after)
  {
    forall n ensures PhaseFits(PhaseOf(after.sh.events, n), after.stage, after.sh.marks, after.Store(), n) {
      assert PhaseFits(PhaseOf(w.sh.events, n), w.stage, w.sh.marks, w.Store(), n);
      assert AlsoFits(w, after, n);
    }
  }

  lemma EnqueueKeepsPhase(w: World, e: Entry, n: nat)
    requires NumbersBelow(w.Store()) && e.state.Queued?
    ensures AlsoFits(w, w.(sh := EnqueueSection(w.sh, e)), n)
  {
  }

  lemma CancelKeepsPhase(w: World, m: nat, n: nat)
    requires MarksOk(w.stage, w.sh.marks) && RunningOk(w.stage, w.sh.marks, w.Store()) && StageOk(w) && !w.stage.Down?
    ensures AlsoFits(w, w.(sh := CancelQueuedSection(w.sh, m).0), n)
  {
  }

  lemma RequestKeepsEvents(w: World, action: Action)
    requires Inv(w) && IsRequest(action) && RequestEnabled(w, action)
    ensures EventsOk(AfterRequest(w, action))
  {
    var after := AfterRequest(w, action);
    forall n ensures AlsoFits(w, after, n) {
      if action.Submit? {
        EnqueueKeepsPhase(w, NewEntry(action.total, action.caller), n);
      } else if action.InsertResume? {
        EnqueueKeepsPhase(w, ResumeOf(w.Store().entries[w.plan.value.entry], w.plan.value, action.caller), n);
      } else if action.CancelWaiting? {
        CancelKeepsPhase(w, action.entry, n);
      }
    }
    AllAlsoFit(w, after);
  }

  lemma RequestKeepsInv(w: World, action: Action)
    requires Inv(w) && IsRequest(action) && RequestEnabled(w, action)
    ensures Inv(AfterRequest(w, action))
  {
    RequestKeepsChains(w, action);
    RequestKeepsStops(w, action);
    RequestKeepsRows(w, action);
    RequestKeepsStage(w, action);
    RequestKeepsPlan(w, action);
    RequestKeepsEvents(w, action);
  }

  lemma PlanKeepsInv(w: World, n: nat)
    requires Inv(w) && PlanEnabled(w, n)
    ensures Inv(AfterPlan(w, n))
  {
    ResolveIsTheNextRun(w.Store(), w.ledger, n);
    assert EventsOk(AfterPlan(w, n)) by {
      assert EventsOk(w);
    }
  }

  // --- control requests keep it -------------------------------------------------------------------

  lemma ParkKeepsMarksAndToken(stage: Stage, sh: Shared, n: nat, caller: Caller, now: string, saved: bool)
    requires MarksAndTokenOk(stage, sh)
    ensures MarksAndTokenOk(stage, ParkSection(sh, n, caller, now, saved).0)
  {
    MemoryReadsAsTheRow(sh.holding, [CallHold(Some(n), caller, now, saved)]);
  }

  lemma UnparkKeepsMarksAndToken(stage: Stage, sh: Shared, n: nat, caller: Caller, deleted: bool)
    requires MarksAndTokenOk(stage, sh)
    ensures MarksAndTokenOk(stage, UnparkSection(sh, n, caller, deleted).0)
  {
  }

  lemma CancelKeepsMarksAndToken(stage: Stage, sh: Shared, n: nat)
    requires MarksAndTokenOk(stage, sh)
    ensures MarksAndTokenOk(stage, CancelRunningSection(sh, n).0)
    ensures MarksAndTokenOk(stage, StopSection(sh))
    ensures MarksAndTokenOk(stage, sh.(token := sh.token.Cancelled()))
  {
  }

  lemma HoldKeepsMarksAndToken(stage: Stage, sh: Shared, caller: Caller, now: string, saved: bool)
    requires MarksAndTokenOk(stage, sh)
    ensures MarksAndTokenOk(stage, HoldSection(sh, caller, now, saved).0)
  {
    MemoryReadsAsTheRow(sh.holding, [CallHold(None, caller, now, saved)]);
  }

  lemma ReleaseKeepsMarksAndToken(stage: Stage, sh: Shared, caller: Caller, deleted: bool)
    requires MarksAndTokenOk(stage, sh) && !stage.Down?
    ensures MarksAndTokenOk(stage, ReleaseSection(sh, caller, deleted).0)
  {
    MemoryReadsAsTheRow(sh.holding, [CallRelease(None, caller, deleted)]);
  }

  lemma ControlKeepsMarksAndToken(w: World, action: Action)
    requires IsControl(action) && ControlEnabled(w, action)
    requires MarksAndTokenOk(w.stage, w.sh)
    ensures MarksAndTokenOk(w.stage, AfterControl(w, action).sh)
  {
    match action
    case CancelRunning(n) => CancelKeepsMarksAndToken(w.stage, w.sh, n);
    case SetStopEvent =>
    case StopLocked => CancelKeepsMarksAndToken(w.stage, w.sh, 0);
    case CallToken(_) => CancelKeepsMarksAndToken(w.stage, w.sh, 0);
    case Park(n, caller, now, saved) => ParkKeepsMarksAndToken(w.stage, w.sh, n, caller, now, saved);
    case Unpark(n, caller, deleted) => UnparkKeepsMarksAndToken(w.stage, w.sh, n, caller, deleted);
    case HoldQueue(caller, now, saved) => HoldKeepsMarksAndToken(w.stage, w.sh, caller, now, saved);
    case ReleaseQueue(caller, deleted) => ReleaseKeepsMarksAndToken(w.stage, w.sh, caller, deleted);
  }

  lemma ControlKeepsStopsOnTheirWay(w: World, action: Action)
    requires IsControl(action) && ControlEnabled(w, action)
    requires StopsOk(w) && MarksAndTokenOk(w.stage, w.sh)
    ensures
      var after := AfterControl(w, action);
      StopOnItsWay(after.stage, after.sh.marks, after.sh.token, after.calls)
  {
    if action.CallToken? && HasStarted(w.stage) {
      assert w.sh.token.running;
    }
  }

  lemma ControlKeepsStops(w: World, action: Action)
    requires IsControl(action) && ControlEnabled(w, action)
    requires StopsOk(w) && MarksAndTokenOk(w.stage, w.sh)
    ensures StopsOk(AfterControl(w, action))
  {
    ControlKeepsStopsOnTheirWay(w, action);
  }

  lemma ParkKeepsPhase(w: World, m: nat, caller: Caller, now: string, saved: bool, n: nat)
    requires RunningOk(w.stage, w.sh.marks, w.Store()) && !w.stage.Down?
    ensures AlsoFits(w, w.(sh := ParkSection(w.sh, m, caller, now, saved).0), n)
  {
  }

  lemma UnparkKeepsPhase(w: World, m: nat, caller: Caller, deleted: bool, n: nat)
    requires RunningOk(w.stage, w.sh.marks, w.Store()) && !w.stage.Down?
    ensures AlsoFits(w, w.(sh := UnparkSection(w.sh, m, caller, deleted).0), n)
  {
  }

  lemma ControlKeepsEvents(w: World, action: Action)
    requires RowsFit(w) && EventsOk(w) && IsControl(action) && ControlEnabled(w, action)
    ensures EventsOk(AfterControl(w, action))
  {
    var after := AfterControl(w, action);
    forall n ensures AlsoFits(w, after, n) {
      if action.Park? {
        ParkKeepsPhase(w, action.entry, action.caller, action.now, action.saved, n);
      } else if action.Unpark? {
        UnparkKeepsPhase(w, action.entry, action.caller, action.deleted, n);
      }
    }
    AllAlsoFit(w, after);
  }

  lemma ControlKeepsRowsAndStage(w: World, action: Action)
    requires RowsFit(w) && StageOk(w) && IsControl(action) && ControlEnabled(w, action)
    ensures RowsFit(AfterControl(w, action)) && StageOk(AfterControl(w, action))
  {
  }

  lemma ControlKeepsInv(w: World, action: Action)
    requires Inv(w) && IsControl(action) && ControlEnabled(w, action)
    ensures Inv(AfterControl(w, action))
  {
    ControlKeepsMarksAndToken(w, action);
    ControlKeepsStops(w, action);
    ControlKeepsRowsAndStage(w, action);
    ControlKeepsEvents(w, action);
  }

  // --- the worker's loop keeps it ---------------------------------------------------------------

  lemma ClaimKeepsRows(w: World)
    requires RowsFit(w) && w.stage.Idle? && MarksOk(w.stage, w.sh.marks) && NumbersBelow(w.Store())
    ensures RowsFit(AfterClaim(w))
  {
    OldestQueuedIsLeast(w.Store());
  }

  lemma ClaimKeepsChains(w: World)
    requires ChainsOk(w.Store(), w.ledger)
    ensures ChainsOk(AfterClaim(w).Store(), w.ledger)
  {
    var oldest := OldestQueued(w.Store());
    if oldest.Some? {
      ClaimingKeeps(w.Store(), w.ledger, oldest.value);
      assert AfterClaim(w).Store() in
        {w.Store(), WithState(w.Store(), oldest.value, Running),
         Requeued(WithState(w.Store(), oldest.value, Running), oldest.value)};
    }
  }

  lemma ClaimKeepsMarksAndStops(w: World)
    requires MarksAndTokenOk(w.stage, w.sh) && StopsOk(w) && w.stage.Idle?
    ensures MarksAndTokenOk(AfterClaim(w).stage, AfterClaim(w).sh) && StopsOk(AfterClaim(w))
  {
  }

  lemma ClaimKeepsStageAndPlan(w: World)
    requires Inv(w) && w.stage.Idle?
    ensures StageOk(AfterClaim(w))
    ensures PlanOk(w.plan, AfterClaim(w).Store(), w.ledger)
  {
    var oldest := OldestQueued(w.Store());
    if oldest.Some? {
      assert EntryOk(w.Store(), w.ledger, oldest.value);
    }
  }

  lemma ClaimKeepsPhase(w: World, n: nat)
    requires RowsFit(w) && w.stage.Idle? && MarksOk(w.stage, w.sh.marks)
    ensures AlsoFits(w, AfterClaim(w), n)
  {
  }

  lemma ClaimKeepsEvents(w: World)
    requires RowsFit(w) && w.stage.Idle? && MarksOk(w.stage, w.sh.marks) && EventsOk(w)
    ensures EventsOk(AfterClaim(w))
  {
    var after := AfterClaim(w);
    forall n ensures PhaseFits(PhaseOf(after.sh.events, n), after.stage, after.sh.marks, after.Store(), n) {
      assert PhaseFits(PhaseOf(w.sh.events, n), w.stage, w.sh.marks, w.Store(), n);
      ClaimKeepsPhase(w, n);
    }
  }

  lemma ClaimKeepsInv(w: World)
    requires Inv(w) && w.stage.Idle?
    ensures Inv(AfterClaim(w))
  {
    ClaimKeepsRows(w);
    ClaimKeepsChains(w);
    ClaimKeepsMarksAndStops(w);
    ClaimKeepsStageAndPlan(w);
    ClaimKeepsEvents(w);
  }

  lemma LeavingKeepsInv(w: World)
    requires Inv(w) && w.stage.Idle? && w.sh.stopping
    ensures Inv(w.(stage := Exited))
  {
    var after := w.(stage := Exited);
    forall n ensures PhaseFits(PhaseOf(after.sh.events, n), after.stage, after.sh.marks, after.Store(), n) {
      assert PhaseFits(PhaseOf(w.sh.events, n), w.stage, w.sh.marks, w.Store(), n);
    }
  }

  // --- the chain's moves keep it ----------------------------------------------------------------

  /** The claimed entry is running on execution `x`, about to make or making run `number`. */
  predicate AtRun(s: Store, ledger: Ledger, n: nat, x: nat, number: nat, rows: nat) {
    && RunsOn(s, n, x) && x in s.executions
    && s.executions[x].status.JobRunning?
    && |s.executions[x].runs| == rows
    && number == NextRun(s, ledger, n) <= s.entries[n].total
  }

  lemma WorkingIsAtRun(w: World)
    requires MarksOk(w.stage, w.sh.marks) && StageOk(w) && RunningOk(w.stage, w.sh.marks, w.Store())
    requires HasRows(w) && w.stage.Working? && (w.stage.at.Ready? || w.stage.at.Going?)
    ensures
      var n := w.Current().value;
      AtRun(w.Store(), w.ledger, n, w.stage.execution, w.stage.at.number,
            if w.stage.at.Ready? then |RunsOf(w.ledger, n)| else |RunsOf(w.ledger, n)| + 1)
  {
  }

  lemma StartKeepsChains(w: World, n: nat, x: nat, number: nat)
    requires ChainsOk(w.Store(), w.ledger) && MoveEnabled(w, StartRun)
    requires w.Current() == Some(n) && w.stage == Working(x, Ready(number))
    requires AtRun(w.Store(), w.ledger, n, x, number, |RunsOf(w.ledger, n)|)
    ensures ChainsOk(AfterMove(w, StartRun).Store(), w.ledger)
  {
    StartingARunKeeps(w.Store(), w.ledger, n, x);
    assert AfterMove(w, StartRun).Store() == RunStarted(w.Store(), x, number);
  }

  lemma EndKeepsChains(w: World, n: nat, x: nat, number: nat, status: RunStatus)
    requires ChainsOk(w.Store(), w.ledger) && MoveEnabled(w, EndRun(status))
    requires w.Current() == Some(n) && w.stage == Working(x, Going(number))
    requires AtRun(w.Store(), w.ledger, n, x, number, |RunsOf(w.ledger, n)| + 1)
    ensures ChainsOk(AfterMove(w, EndRun(status)).Store(), AfterMove(w, EndRun(status)).ledger)
  {
    FinishingARunKeeps(w.Store(), w.ledger, n, x, status);
    assert AfterMove(w, EndRun(status)).Store() == RunFinished(w.Store(), x, number, status);
    assert AfterMove(w, EndRun(status)).ledger == NotedIf(w.ledger, n, number, status);
  }

  lemma MoveKeepsChains(w: World, move: Move)
    requires ChainsOk(w.Store(), w.ledger) && MarksOk(w.stage, w.sh.marks) && StageOk(w) && RowsFit(w)
    requires MoveEnabled(w, move)
    ensures ChainsOk(AfterMove(w, move).Store(), AfterMove(w, move).ledger)
  {
    if move.StartRun? {
      WorkingIsAtRun(w);
      StartKeepsChains(w, w.Current().value, w.stage.execution, w.stage.at.number);
    } else if move.EndRun? {
      WorkingIsAtRun(w);
      EndKeepsChains(w, w.Current().value, w.stage.execution, w.stage.at.number, move.status);
    }
  }

  lemma MoveKeepsMarksAndToken(w: World, move: Move)
    requires MarksAndTokenOk(w.stage, w.sh) && StageOk(w) && MoveEnabled(w, move)
    ensures MarksAndTokenOk(AfterMove(w, move).stage, AfterMove(w, move).sh)
  {
    var n := w.Current().value;
    MovesKeepPosition(PlanOf(w.Store().entries[n]), w.stage.at, move, w.sh.token, |RunsOf(w.ledger, n)|);
  }

  lemma MoveKeepsStops(w: World, move: Move)
    requires StopsOk(w) && MoveEnabled(w, move)
    ensures StopsOk(AfterMove(w, move))
  {
  }

  lemma MoveKeepsRows(w: World, move: Move)
    requires RowsFit(w) && MoveEnabled(w, move)
    ensures RowsFit(AfterMove(w, move))
  {
  }

  lemma MoveKeepsStage(w: World, move: Move)
    requires StageOk(w) && MarksAndTokenOk(w.stage, w.sh) && MoveEnabled(w, move)
    ensures StageOk(AfterMove(w, move))
  {
    var n, after := w.Current().value, AfterMove(w, move);
    MovesKeepPosition(PlanOf(w.Store().entries[n]), w.stage.at, move, w.sh.token, |RunsOf(w.ledger, n)|);
    assert |RunsOf(after.ledger, n)| == MadeAfter(move, |RunsOf(w.ledger, n)|);
  }

  lemma MoveKeepsPlan(w: World, move: Move)
    requires PlanOk(w.plan, w.Store(), w.ledger) && RowsFit(w) && MarksOk(w.stage, w.sh.marks) && MoveEnabled(w, move)
    ensures PlanOk(AfterMove(w, move).plan, AfterMove(w, move).Store(), AfterMove(w, move).ledger)
  {
  }

  lemma MoveKeepsInv(w: World, move: Move)
    requires Inv(w) && MoveEnabled(w, move)
    ensures Inv(AfterMove(w, move))
  {
    MoveKeepsChains(w, move);
    MoveKeepsMarksAndToken(w, move);
    MoveKeepsStops(w, move);
    MoveKeepsRows(w, move);
    MoveKeepsStage(w, move);
    MoveKeepsPlan(w, move);
    var after := AfterMove(w, move);
    forall n ensures PhaseFits(PhaseOf(after.sh.events, n), after.stage, after.sh.marks, after.Store(), n) {
      assert PhaseFits(PhaseOf(w.sh.events, n), w.stage, w.sh.marks, w.Store(), n);
    }
  }

  // --- the claimed entry's own steps keep it ----------------------------------------------------

  lemma SetupKeepsChains(w: World, action: Action)
    requires ChainsOk(w.Store(), w.ledger) && MarksOk(w.stage, w.sh.marks) && RowsFit(w) && StageOk(w)
    requires IsSetup(action) && SetupEnabled(w, action)
    ensures ChainsOk(AfterSetup(w, action).Store(), w.ledger)
  {
    var s, n := w.Store(), w.Current().value;
    assert EntryOk(s, w.ledger, n);
    if action.SweepAgain? {
      SweepingKeeps(s, w.ledger);
    } else if action.TakeNumber? {
      NumberingKeeps(s, w.ledger);
    } else if action.Link? {
      LinkingKeeps(s, w.ledger, n, w.stage.execution);
    } else if action.OpenRow? {
      RecordingKeeps(s, w.ledger, n, w.stage.execution);
    }
  }

  lemma SetupKeepsMarksAndStops(w: World, action: Action)
    requires MarksAndTokenOk(w.stage, w.sh) && StopsOk(w)
    requires IsSetup(action) && SetupEnabled(w, action)
    ensures MarksAndTokenOk(AfterSetup(w, action).stage, AfterSetup(w, action).sh)
    ensures StopsOk(AfterSetup(w, action))
  {
  }

  lemma SetupKeepsRows(w: World, action: Action)
    requires RowsFit(w) && StageOk(w) && MarksOk(w.stage, w.sh.marks)
    requires NumbersBelow(w.Store()) && ExecutionsBelow(w.Store())
    requires IsSetup(action) && SetupEnabled(w, action)
    ensures RowsFit(AfterSetup(w, action))
  {
  }

  lemma SetupKeepsStage(w: World, action: Action)
    requires EntriesOk(w.Store(), w.ledger) && MarksOk(w.stage, w.sh.marks) && StageOk(w)
    requires NumbersFresh(w.stage, w.Store()) && RunningOk(w.stage, w.sh.marks, w.Store())
    requires IsSetup(action) && SetupEnabled(w, action)
    ensures StageOk(AfterSetup(w, action))
  {
    assert EntryOk(w.Store(), w.ledger, w.Current().value);
  }

  lemma SetupKeepsPlan(w: World, action: Action)
    requires PlanOk(w.plan, w.Store(), w.ledger) && IsSetup(action) && SetupEnabled(w, action)
    ensures PlanOk(w.plan, AfterSetup(w, action).Store(), w.ledger)
  {
  }

  lemma SetupKeepsEvents(w: World, action: Action)
    requires MarksOk(w.stage, w.sh.marks) && EventsOk(w) && IsSetup(action) && SetupEnabled(w, action)
    ensures EventsOk(AfterSetup(w, action))
  {
    forall n ensures AlsoFits(w, AfterSetup(w, action), n) {
    }
    AllAlsoFit(w, AfterSetup(w, action));
  }

  lemma SetupKeepsInv(w: World, action: Action)
    requires Inv(w) && IsSetup(action) && SetupEnabled(w, action)
    ensures Inv(AfterSetup(w, action))
  {
    SetupKeepsChains(w, action);
    SetupKeepsMarksAndStops(w, action);
    SetupKeepsRows(w, action);
    SetupKeepsStage(w, action);
    SetupKeepsPlan(w, action);
    SetupKeepsEvents(w, action);
  }

  lemma AroundKeepsChains(w: World, action: Action)
    requires ChainsOk(w.Store(), w.ledger) && MarksOk(w.stage, w.sh.marks) && RowsFit(w) && StageOk(w)
    requires IsAround(action) && AroundEnabled(w, action)
    ensures ChainsOk(AfterAround(w, action).Store(), w.ledger)
  {
    if action.Report? {
      FinishingAnExecutionKeeps(w.Store(), w.ledger, w.Current().value, w.stage.execution, w.stage.at.status);
    }
  }

  lemma AroundKeepsMarksAndToken(w: World, action: Action)
    requires MarksAndTokenOk(w.stage, w.sh)
    requires IsAround(action) && AroundEnabled(w, action)
    ensures MarksAndTokenOk(AfterAround(w, action).stage, AfterAround(w, action).sh)
  {
  }

  lemma AroundKeepsStops(w: World, action: Action)
    requires MarksAndTokenOk(w.stage, w.sh) && StopsOk(w)
    requires IsAround(action) && AroundEnabled(w, action)
    ensures StopsOk(AfterAround(w, action))
  {
  }

  lemma AroundKeepsRows(w: World, action: Action)
    requires RowsFit(w) && StageOk(w) && MarksOk(w.stage, w.sh.marks)
    requires IsAround(action) && AroundEnabled(w, action)
    ensures RowsFit(AfterAround(w, action))
  {
  }

  lemma AroundKeepsPlan(w: World, action: Action)
    requires PlanOk(w.plan, w.Store(), w.ledger) && IsAround(action) && AroundEnabled(w, action)
    ensures PlanOk(w.plan, AfterAround(w, action).Store(), w.ledger)
  {
  }

  lemma AroundKeepsStage(w: World, action: Action)
    requires EntriesOk(w.Store(), w.ledger) && MarksOk(w.stage, w.sh.marks) && StageOk(w)
    requires IsAround(action) && AroundEnabled(w, action)
    ensures StageOk(AfterAround(w, action))
  {
    assert EntryOk(w.Store(), w.ledger, w.Current().value);
  }

  lemma AroundKeepsInv(w: World, action: Action)
    requires Inv(w) && IsAround(action) && AroundEnabled(w, action)
    ensures Inv(AfterAround(w, action))
  {
    AroundKeepsChains(w, action);
    AroundKeepsMarksAndToken(w, action);
    AroundKeepsStops(w, action);
    AroundKeepsRows(w, action);
    AroundKeepsPlan(w, action);
    AroundKeepsStage(w, action);
    forall n ensures AlsoFits(w, AfterAround(w, action), n) {
    }
    AllAlsoFit(w, AfterAround(w, action));
  }

  lemma FinishKeepsChains(w: World, action: Action)
    requires ChainsOk(w.Store(), w.ledger) && MarksOk(w.stage, w.sh.marks) && RowsFit(w) && StageOk(w)
    requires IsFinish(action) && FinishEnabled(w, action)
    ensures ChainsOk(AfterFinish(w, action).Store(), w.ledger)
  {
    if action.Mark? {
      StateChangeKeeps(w.Store(), w.ledger, w.Current().value, w.stage.state);
    } else if action.MarkFailed? {
      assert EntryOk(w.Store(), w.ledger, w.Current().value);
      UnlinkingKeeps(w.Store(), w.ledger, w.Current().value);
    }
  }

  lemma FinishKeepsMarksAndToken(w: World, action: Action)
    requires MarksAndTokenOk(w.stage, w.sh)
    requires IsFinish(action) && FinishEnabled(w, action)
    ensures MarksAndTokenOk(AfterFinish(w, action).stage, AfterFinish(w, action).sh)
  {
  }

  lemma FinishKeepsStops(w: World, action: Action)
    requires MarksOk(w.stage, w.sh.marks) && StopsOk(w)
    requires IsFinish(action) && FinishEnabled(w, action)
    ensures StopsOk(AfterFinish(w, action))
  {
  }

  lemma EndingKeepsRows(w: World, action: Action)
    requires RowsFit(w) && StageOk(w) && MarksOk(w.stage, w.sh.marks)
    requires (action.Mark? || action.MarkFailed?) && FinishEnabled(w, action)
    ensures RowsFit(AfterFinish(w, action))
  {
  }

  lemma FinishKeepsRows(w: World, action: Action)
    requires RowsFit(w) && StageOk(w) && MarksOk(w.stage, w.sh.marks)
    requires IsFinish(action) && FinishEnabled(w, action)
    ensures RowsFit(AfterFinish(w, action))
  {
    if action.Mark? || action.MarkFailed? {
      EndingKeepsRows(w, action);
    }
  }

  lemma FinishKeepsStage(w: World, action: Action)
    requires StageOk(w) && MarksOk(w.stage, w.sh.marks)
    requires IsFinish(action) && FinishEnabled(w, action)
    ensures StageOk(AfterFinish(w, action))
  {
  }

  lemma FinishKeepsPlan(w: World, action: Action)
    requires PlanOk(w.plan, w.Store(), w.ledger) && RowsFit(w) && MarksOk(w.stage, w.sh.marks)
    requires IsFinish(action) && FinishEnabled(w, action)
    ensures PlanOk(w.plan, AfterFinish(w, action).Store(), w.ledger)
  {
  }

  lemma PublishKeepsPhase(w: World, action: Action, n: nat)
    requires MarksOk(w.stage, w.sh.marks) && RunningOk(w.stage, w.sh.marks, w.Store()) && StageOk(w)
    requires (action.Publish? || action.PublishFailed?) && FinishEnabled(w, action)
    ensures AlsoFits(w, AfterFinish(w, action), n)
  {
  }

  lemma MarkKeepsPhase(w: World, action: Action, n: nat)
    requires MarksOk(w.stage, w.sh.marks) && RunningOk(w.stage, w.sh.marks, w.Store()) && StageOk(w)
    requires (action.Mark? || action.MarkFailed?) && FinishEnabled(w, action)
    ensures AlsoFits(w, AfterFinish(w, action), n)
  {
  }

  lemma FinishKeepsEvents(w: World, action: Action)
    requires MarksOk(w.stage, w.sh.marks) && RunningOk(w.stage, w.sh.marks, w.Store()) && StageOk(w) && EventsOk(w)
    requires IsFinish(action) && FinishEnabled(w, action)
    ensures EventsOk(AfterFinish(w, action))
  {
    forall n ensures AlsoFits(w, AfterFinish(w, action), n) {
      if action.Publish? || action.PublishFailed? {
        PublishKeepsPhase(w, action, n);
      } else if action.Mark? || action.MarkFailed? {
        MarkKeepsPhase(w, action, n);
      }
    }
    AllAlsoFit(w, AfterFinish(w, action));
  }

  lemma FinishKeepsInv(w: World, action: Action)
    requires Inv(w) && IsFinish(action) && FinishEnabled(w, action)
    ensures Inv(AfterFinish(w, action))
  {
    FinishKeepsChains(w, action);
    FinishKeepsMarksAndToken(w, action);
    FinishKeepsStops(w, action);
    FinishKeepsRows(w, action);
    FinishKeepsStage(w, action);
    FinishKeepsPlan(w, action);
    FinishKeepsEvents(w, action);
  }

  // --- a crash, recovery and the next process keep it ---------------------------------------------

  lemma CrashKeepsInv(w: World)
    requires Inv(w)
    ensures Inv(AfterRestart(w, Crash))
  {
  }

  lemma SweepKeepsInv(w: World)
    requires Inv(w) && RestartEnabled(w, SweepRows)
    ensures Inv(AfterRestart(w, SweepRows))
  {
    SweepingKeeps(w.Store(), w.ledger);
  }

  lemma RecoveringKeepsChains(s: Store, ledger: Ledger, n: nat)
    requires ChainsOk(s, ledger) && n in s.entries && s.entries[n].state.Running? && NoneGoing(s)
    ensures ChainsOk(EntryRecovered(s, n), ledger)
  {
    assert EntryOk(s, ledger, n);
    var row := RowOf(s, s.entries[n]);
    if row.None? {
      UnlinkingKeeps(s, ledger, n);
    } else {
      StateChangeKeeps(s, ledger, n, ShownBy(row.value.status));
    }
  }

  lemma RecoverKeepsRows(w: World, n: nat)
    requires RowsFit(w) && StopsOk(w) && PlanOk(w.plan, w.Store(), w.ledger) && RestartEnabled(w, RecoverRow(n))
    ensures RowsFit(AfterRestart(w, RecoverRow(n))) && StopsOk(AfterRestart(w, RecoverRow(n)))
    ensures PlanOk(w.plan, AfterRestart(w, RecoverRow(n)).Store(), w.ledger)
  {
  }

  lemma RecoverKeepsInv(w: World, n: nat)
    requires Inv(w) && RestartEnabled(w, RecoverRow(n))
    ensures Inv(AfterRestart(w, RecoverRow(n)))
  {
    RecoveringKeepsChains(w.Store(), w.ledger, n);
    RecoverKeepsRows(w, n);
    assert AfterRestart(w, RecoverRow(n)).plan == w.plan;
  }

  lemma ServeKeepsInv(w: World)
    requires Inv(w) && RestartEnabled(w, Serve)
    ensures Inv(AfterRestart(w, Serve))
  {
    var s, after := w.Store(), AfterRestart(w, Serve);
    forall n ensures PhaseFits(PhaseOf(after.sh.events, n), after.stage, after.sh.marks, after.Store(), n) {
      assert n in s.entries ==> !s.entries[n].state.Running?;
    }
  }

  // --- every reachable world --------------------------------------------------------------------

  lemma WorkerKeepsInv(w: World, action: Action)
    requires Inv(w) && IsWorkers(action) && WorkerEnabled(w, action)
    ensures Inv(AfterWorker(w, action))
  {
    if action.Claim? {
      ClaimKeepsInv(w);
    } else if action.LeaveLoop? {
      LeavingKeepsInv(w);
    } else if action.Work? {
      MoveKeepsInv(w, action.move);
    } else if IsSetup(action) {
      SetupKeepsInv(w, action);
    } else if IsAround(action) {
      AroundKeepsInv(w, action);
    } else {
      FinishKeepsInv(w, action);
    }
  }

  lemma RestartKeepsInv(w: World, action: Action)
    requires Inv(w) && IsRestart(action) && RestartEnabled(w, action)
    ensures Inv(AfterRestart(w, action))
  {
    match action
    case Crash => CrashKeepsInv(w);
    case SweepRows => SweepKeepsInv(w);
    case RecoverRow(n) => RecoverKeepsInv(w, n);
    case Serve => ServeKeepsInv(w);
  }

  lemma StepKeepsInv(w: World, action: Action)
    requires Inv(w) && Enabled(w, action)
    ensures Inv(After(w, action))
  {
    if IsWorkers(action) {
      WorkerKeepsInv(w, action);
    } else if action.PlanResume? {
      PlanKeepsInv(w, action.entry);
    } else if IsRequest(action) {
      RequestKeepsInv(w, action);
    } else if IsControl(action) {
      ControlKeepsInv(w, action);
    } else {
      RestartKeepsInv(w, action);
    }
  }

  lemma {:induction false} RunKeepsInv(w: World, actions: seq<Action>)
    requires Inv(w) && CanRun(w, actions)
    ensures Inv(RunAll(w, actions))
    decreases |actions|
  {
    if actions != [] {
      StepKeepsInv(w, actions[0]);
      RunKeepsInv(After(w, actions[0]), actions[1..]);
    }
  }

  lemma EveryReachableWorldIsSound(row: Option<SavedRow>, actions: seq<Action>)
    requires CanRun(FirstWorld(row), actions)
    ensures Inv(RunAll(FirstWorld(row), actions))
  {
    RunKeepsInv(FirstWorld(row), actions);
  }
}
