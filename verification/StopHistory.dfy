/**
 Why a stopped job ended as it did: the stops marked for its entry and the token calls that were meant for another,
 noted along any run of the queue, tell exactly whether the entry reads cancelled, interrupted or failed.
 */
module StopHistory {
  import opened Options
  import opened CancelTokens
  import opened QueueStore
  import opened ResumeChain
  import opened HistoryDelete
  import opened ChainHistory
  import opened ChainSteps
  import opened QueueWorkers
  import opened QueueMachine
  import opened QueueInvariant
  import opened QueueTheorems
  import opened HeldResumes

  /**
   Of each entry since it was last claimed: the first stop marked for it, whether a cancel of it was accepted, and
   whether a call meant for another entry was made on its job's token, each before its final state was decided; and the
   entries whose job ended interrupted and which the worker then marked.
   */
  datatype Past = Past(marked: map<nat, StopReason>, cancelled: set<nat>, strays: set<nat>, stopped: set<nat>)

  const NO_PAST := Past(map[], {}, {}, {})

  /** The claimed entry's final state is still open. */
  predicate Undecided(stage: Stage) {
    HasEntry(stage) && !stage.Decided? && !HasFinished(stage)
  }

  function Marked(past: Past, n: nat, reason: StopReason): Past {
    if n in past.marked then past else past.(marked := past.marked[n := reason])
  }

  function Forgotten(past: Past, n: nat): Past {
    Past(past.marked - {n}, past.cancelled - {n}, past.strays - {n}, past.stopped - {n})
  }

  /** A claimed entry's execution, as its row shows it. */
  predicate EndedInterrupted(w: World, n: nat) {
    && n in w.Store().entries
    && RowOf(w.Store(), w.Store().entries[n]).Some?
    && RowOf(w.Store(), w.Store().entries[n]).value.status.JobInterrupted?
  }

  /** A claim begins anew what is noted of the entry it takes. */
  function NotedClaim(past: Past, w: World): Past {
    var after := AfterClaim(w);
    if after.stage.Claimed? && after.Current().Some? then Forgotten(past, after.Current().value) else past
  }

  function NotedMark(past: Past, w: World): Past {
    if w.Current().Some? && EndedInterrupted(w, w.Current().value) then
      past.(stopped := past.stopped + {w.Current().value})
    else past
  }

  function NotedControl(past: Past, w: World, action: Action): Past {
    if w.Current().None? || !Undecided(w.stage) then past
    else
      var n := w.Current().value;
      if action == CancelRunning(n) then Marked(past, n, StopForCancel).(cancelled := past.cancelled + {n})
      else if action.StopLocked? then Marked(past, n, StopForShutdown)
      else if action.CallToken? && action.target != Some(n) && w.sh.token.running then
        past.(strays := past.strays + {n})
      else past
  }

  /** What one step adds to the notes. */
  function PastAfter(past: Past, w: World, action: Action): Past {
    if IsWorkers(action) then
      if action == Claim then NotedClaim(past, w) else if action == Mark then NotedMark(past, w) else past
    else if IsControl(action) then NotedControl(past, w, action)
    else past
  }

  function PastOf(past: Past, w: World, actions: seq<Action>): Past
    requires CanRun(w, actions)
    decreases |actions|
  {
    if actions == [] then past else PastOf(PastAfter(past, w, actions[0]), After(w, actions[0]), actions[1..])
  }

  // --- what the notes say -------------------------------------------------------------------------

  function ReasonOf(past: Past, n: nat): Option<StopReason> {
    if n in past.marked then Some(past.marked[n]) else None
  }

  predicate NotesAgree(past: Past, n: nat) {
    && (n in past.cancelled ==> n in past.marked)
    && (ReasonOf(past, n) == Some(StopForCancel) ==> n in past.cancelled)
  }

  /** A stopped job's entry reads by the first stop marked for it, and with none marked a stray call stopped it. */
  predicate EndsAsNoted(past: Past, n: nat, state: QueueState) {
    && state == FinalState(ReasonOf(past, n), JobInterrupted)
    && (n !in past.marked ==> n in past.strays)
    && NotesAgree(past, n)
  }

  predicate MarksNoted(stage: Stage, marks: Marks, past: Past) {
    Undecided(stage) && marks.current.Some? ==>
      marks.stop == ReasonOf(past, marks.current.value) && NotesAgree(past, marks.current.value)
  }

  ghost predicate CallsNoted(w: World, past: Past) {
    && (w.stage.Down? ==> w.calls == multiset{})
    && forall m: nat | Some(m) in w.calls ::
         && m in w.Store().entries && !w.Store().entries[m].state.Queued?
         && (w.Current() == Some(m) && Undecided(w.stage) ==> m in past.marked)
  }

  predicate TokenNoted(stage: Stage, marks: Marks, token: Token, past: Past) {
    Undecided(stage) && TokenRuns(stage) && marks.current.Some? ==>
      && (token.requested ==> marks.current.value in past.strays || marks.current.value in past.marked)
      && (stage.Guarded? && stage.pending ==> marks.current.value in past.marked)
  }

  predicate DecisionNoted(w: World, past: Past) {
    w.stage.Decided? && w.Current().Some? && EndedInterrupted(w, w.Current().value) ==>
      EndsAsNoted(past, w.Current().value, w.stage.state)
  }

  predicate EndsNoted(s: Store, past: Past) {
    forall n | n in past.stopped ::
      && n in s.entries && !s.entries[n].state.Active()
      && EndsAsNoted(past, n, s.entries[n].state)
  }

  ghost predicate Noted(w: World, past: Past) {
    && MarksNoted(w.stage, w.sh.marks, past)
    && CallsNoted(w, past)
    && TokenNoted(w.stage, w.sh.marks, w.sh.token, past)
    && DecisionNoted(w, past)
    && EndsNoted(w.Store(), past)
  }

  // --- every step keeps them so -------------------------------------------------------------------

  /** What of the queue's invariant the notes rest on. */
  predicate Basics(w: World) {
    && MarksOk(w.stage, w.sh.marks)
    && TokenOk(w.stage, w.sh.marks, w.sh.token)
    && RunningOk(w.stage, w.sh.marks, w.Store())
    && StageOk(w)
  }

  /** Only what is noted of `n` differs. */
  ghost predicate NotesBut(past: Past, after: Past, n: nat) {
    && after.stopped == past.stopped
    && (forall m | m != n :: m in after.marked <==> m in past.marked)
    && (forall m | m != n && m in past.marked :: after.marked[m] == past.marked[m])
    && (forall m | m != n :: m in after.cancelled <==> m in past.cancelled)
    && (forall m | m != n :: m in after.strays <==> m in past.strays)
  }

  lemma ActiveNotesAreFree(s: Store, past: Past, after: Past, n: nat)
    requires EndsNoted(s, past) && NotesBut(past, after, n)
    requires n in s.entries && s.entries[n].state.Active()
    ensures EndsNoted(s, after)
  {
    forall m | m in after.stopped
      ensures m in s.entries && !s.entries[m].state.Active() && EndsAsNoted(after, m, s.entries[m].state)
    {
      assert EndsAsNoted(past, m, s.entries[m].state);
    }
  }

  lemma CancellingKeepsNotes(w: World, past: Past, n: nat)
    requires MarksOk(w.stage, w.sh.marks) && RunningOk(w.stage, w.sh.marks, w.Store()) && StageOk(w)
    requires Noted(w, past) && ControlEnabled(w, CancelRunning(n))
    ensures Noted(AfterControl(w, CancelRunning(n)), NotedControl(past, w, CancelRunning(n)))
  {
    if w.Current() == Some(n) && Undecided(w.stage) {
      ActiveNotesAreFree(w.Store(), past, NotedControl(past, w, CancelRunning(n)), n);
    }
  }

  lemma StoppingKeepsNotes(w: World, past: Past)
    requires MarksOk(w.stage, w.sh.marks) && RunningOk(w.stage, w.sh.marks, w.Store()) && StageOk(w)
    requires Noted(w, past) && ControlEnabled(w, StopLocked)
    ensures Noted(AfterControl(w, StopLocked), NotedControl(past, w, StopLocked))
  {
    if w.Current().Some? && Undecided(w.stage) {
      ActiveNotesAreFree(w.Store(), past, NotedControl(past, w, StopLocked), w.Current().value);
    }
  }

  lemma CallingKeepsCalls(w: World, past: Past, target: Option<nat>)
    requires CallsNoted(w, past) && ControlEnabled(w, CallToken(target))
    ensures CallsNoted(AfterControl(w, CallToken(target)), NotedControl(past, w, CallToken(target)))
  {
  }

  lemma CallingKeepsNotes(w: World, past: Past, target: Option<nat>)
    requires MarksOk(w.stage, w.sh.marks) && RunningOk(w.stage, w.sh.marks, w.Store()) && StageOk(w)
    requires TokenOk(w.stage, w.sh.marks, w.sh.token)
    requires Noted(w, past) && ControlEnabled(w, CallToken(target))
    ensures Noted(AfterControl(w, CallToken(target)), NotedControl(past, w, CallToken(target)))
  {
    CallingKeepsCalls(w, past, target);
    if w.Current().Some? && Undecided(w.stage) {
      ActiveNotesAreFree(w.Store(), past, NotedControl(past, w, CallToken(target)), w.Current().value);
    }
  }

  /** Nothing the notes are about. */
  predicate AlikeForNotes(w: World, after: World) {
    && after.Store() == w.Store()
    && after.stage == w.stage
    && after.calls == w.calls
    && after.sh.marks.current == w.sh.marks.current
    && after.sh.marks.stop == w.sh.marks.stop
    && after.sh.token.requested == w.sh.token.requested
  }

  lemma ParkingIsAlike(w: World, action: Action)
    requires (action.Park? || action.Unpark?) && ControlEnabled(w, action)
    ensures AlikeForNotes(w, AfterControl(w, action))
  {
  }

  lemma HoldingIsAlike(w: World, action: Action)
    requires (action.HoldQueue? || action.ReleaseQueue? || action.SetStopEvent?) && ControlEnabled(w, action)
    ensures AlikeForNotes(w, AfterControl(w, action))
  {
  }

  lemma AlikeKeepsNotes(w: World, after: World, past: Past)
    requires Noted(w, past) && AlikeForNotes(w, after)
    ensures Noted(after, past)
  {
  }

  lemma ControlKeepsNotes(w: World, past: Past, action: Action)
    requires Basics(w) && Noted(w, past) && IsControl(action) && ControlEnabled(w, action)
    ensures Noted(AfterControl(w, action), NotedControl(past, w, action))
  {
    if action.CancelRunning? {
      CancellingKeepsNotes(w, past, action.entry);
    } else if action.StopLocked? {
      StoppingKeepsNotes(w, past);
    } else if action.CallToken? {
      CallingKeepsNotes(w, past, action.target);
    } else {
      OtherControlsAreAlike(w, action);
      AlikeKeepsNotes(w, AfterControl(w, action), past);
    }
  }

  lemma OtherControlsAreAlike(w: World, action: Action)
    requires IsControl(action) && ControlEnabled(w, action)
    requires !action.CancelRunning? && !action.StopLocked? && !action.CallToken?
    ensures AlikeForNotes(w, AfterControl(w, action))
  {
    if action.Park? || action.Unpark? {
      ParkingIsAlike(w, action);
    } else {
      HoldingIsAlike(w, action);
    }
  }

  /** Rows, but not what the notes are about: finished rows stand, and what no longer waits does not wait again. */
  predicate RowsAlikeForNotes(w: World, after: World) {
    && (forall m | m in w.Store().entries ::
          RowStands(w.Store(), after.Store(), m) && m in after.Store().entries &&
          (!w.Store().entries[m].state.Queued? ==> !after.Store().entries[m].state.Queued?))
    && after.calls == w.calls
  }

  lemma RowsKeepCallsAndEnds(w: World, after: World, past: Past)
    requires CallsNoted(w, past) && EndsNoted(w.Store(), past) && RowsAlikeForNotes(w, after)
    requires after.stage.Down? <==> w.stage.Down?
    requires after.Current() == w.Current() && (Undecided(after.stage) ==> Undecided(w.stage))
    ensures CallsNoted(after, past) && EndsNoted(after.Store(), past)
  {
  }

  lemma RequestRowsAlike(w: World, action: Action)
    requires NumbersBelow(w.Store()) && MarksOk(w.stage, w.sh.marks) && RunningOk(w.stage, w.sh.marks, w.Store())
    requires IsRequest(action) && RequestEnabled(w, action)
    ensures RowsAlikeForNotes(w, AfterRequest(w, action))
  {
    var after := AfterRequest(w, action);
    forall m | m in w.Store().entries
      ensures RowStands(w.Store(), after.Store(), m) && m in after.Store().entries
      ensures !w.Store().entries[m].state.Queued? ==> !after.Store().entries[m].state.Queued?
    {
      RequestKeepsTerms(w, action, m);
      RequestKeepsFinalRows(w, action, m);
    }
  }

  lemma RequestKeepsFinalRows(w: World, action: Action, m: nat)
    requires NumbersBelow(w.Store()) && IsRequest(action) && RequestEnabled(w, action)
    ensures RowStands(w.Store(), AfterRequest(w, action).Store(), m)
  {
  }

  lemma DecidedRowStands(w: World, action: Action)
    requires NumbersBelow(w.Store()) && OlderLinks(w.Store()) && MarksOk(w.stage, w.sh.marks)
    requires RunningOk(w.stage, w.sh.marks, w.Store())
    requires IsRequest(action) && RequestEnabled(w, action) && w.stage.Decided?
    ensures EndedInterrupted(AfterRequest(w, action), w.Current().value) ==> EndedInterrupted(w, w.Current().value)
  {
    var n := w.Current().value;
    if action.DeleteRows? && w.Store().entries[n].execution.Some? {
      RunningIsNotDeletable(w.Store(), n);
    }
  }

  lemma RequestKeepsNotes(w: World, past: Past, action: Action)
    requires NumbersBelow(w.Store()) && OlderLinks(w.Store()) && MarksOk(w.stage, w.sh.marks)
    requires RunningOk(w.stage, w.sh.marks, w.Store())
    requires Noted(w, past) && IsRequest(action) && RequestEnabled(w, action)
    ensures Noted(AfterRequest(w, action), past)
  {
    RequestRowsAlike(w, action);
    RowsKeepCallsAndEnds(w, AfterRequest(w, action), past);
    if w.stage.Decided? {
      DecidedRowStands(w, action);
    }
  }

  lemma ClaimRowsAlike(w: World)
    ensures RowsAlikeForNotes(w, AfterClaim(w))
  {
    var after := AfterClaim(w);
    forall m | m in w.Store().entries
      ensures RowStands(w.Store(), after.Store(), m) && m in after.Store().entries
      ensures !w.Store().entries[m].state.Queued? ==> !after.Store().entries[m].state.Queued?
    {
      ClaimKeepsTerms(w, m);
      ClaimKeepsFinalRows(w, m);
    }
  }

  lemma ClaimKeepsCallsAndEnds(w: World, past: Past)
    requires CallsNoted(w, past) && EndsNoted(w.Store(), past) && w.stage.Idle? && RowsAlikeForNotes(w, AfterClaim(w))
    ensures CallsNoted(AfterClaim(w), NotedClaim(past, w))
    ensures EndsNoted(AfterClaim(w).Store(), NotedClaim(past, w))
  {
  }

  lemma ClaimKeepsNotes(w: World, past: Past)
    requires MarksOk(w.stage, w.sh.marks) && Noted(w, past) && w.stage.Idle?
    ensures Noted(AfterClaim(w), NotedClaim(past, w))
  {
    ClaimRowsAlike(w);
    ClaimKeepsCallsAndEnds(w, past);
  }

  lemma MoveKeepsNotes(w: World, past: Past, move: Move)
    requires Basics(w) && Noted(w, past) && MoveEnabled(w, move)
    ensures Noted(AfterMove(w, move), past)
  {
  }

  lemma SetupKeepsNotes(w: World, past: Past, action: Action)
    requires Basics(w) && Noted(w, past) && IsSetup(action) && SetupEnabled(w, action)
    ensures Noted(AfterSetup(w, action), past)
  {
    var after := AfterSetup(w, action);
    forall m | m in w.Store().entries
      ensures RowStands(w.Store(), after.Store(), m) && m in after.Store().entries
      ensures !w.Store().entries[m].state.Queued? ==> !after.Store().entries[m].state.Queued?
    {
      SetupKeepsTerms(w, action, m);
      SetupKeepsFinalRows(w, action, m);
    }
    RowsKeepCallsAndEnds(w, after, past);
    SetupKeepsToken(w, past, action);
  }

  lemma SetupKeepsToken(w: World, past: Past, action: Action)
    requires MarksOk(w.stage, w.sh.marks) && IsSetup(action) && SetupEnabled(w, action)
    requires MarksNoted(w.stage, w.sh.marks, past) && TokenNoted(w.stage, w.sh.marks, w.sh.token, past)
    ensures MarksNoted(AfterSetup(w, action).stage, AfterSetup(w, action).sh.marks, past)
    ensures TokenNoted(AfterSetup(w, action).stage, AfterSetup(w, action).sh.marks, AfterSetup(w, action).sh.token,
                       past)
    ensures !AfterSetup(w, action).stage.Decided? && Undecided(w.stage)
  {
  }

  lemma DecidingIsNoted(w: World, past: Past)
    requires MarksOk(w.stage, w.sh.marks) && TokenOk(w.stage, w.sh.marks, w.sh.token) && StageOk(w)
    requires Noted(w, past) && AroundEnabled(w, Decide)
    ensures DecisionNoted(AfterAround(w, Decide), past)
  {
  }

  lemma AroundKeepsNotes(w: World, past: Past, action: Action)
    requires MarksOk(w.stage, w.sh.marks) && TokenOk(w.stage, w.sh.marks, w.sh.token) && StageOk(w)
    requires Noted(w, past) && IsAround(action) && AroundEnabled(w, action)
    ensures Noted(AfterAround(w, action), past)
  {
    if action.Decide? {
      DecidingIsNoted(w, past);
    }
  }

  lemma MarkingKeepsEnds(w: World, past: Past)
    requires MarksOk(w.stage, w.sh.marks) && RunningOk(w.stage, w.sh.marks, w.Store()) && StageOk(w)
    requires EndsNoted(w.Store(), past) && DecisionNoted(w, past) && FinishEnabled(w, Mark)
    ensures EndsNoted(AfterFinish(w, Mark).Store(), NotedMark(past, w))
  {
    var n, after := w.Current().value, AfterFinish(w, Mark).Store();
    var now := NotedMark(past, w);
    forall m | m in now.stopped
      ensures m in after.entries && !after.entries[m].state.Active() && EndsAsNoted(now, m, after.entries[m].state)
    {
      if m in past.stopped {
        assert EndsAsNoted(past, m, w.Store().entries[m].state);
      }
    }
  }

  lemma FinishRowsAlike(w: World, action: Action)
    requires Basics(w) && IsFinish(action) && FinishEnabled(w, action)
    ensures RowsAlikeForNotes(w, AfterFinish(w, action))
  {
    var after := AfterFinish(w, action);
    forall m | m in w.Store().entries
      ensures RowStands(w.Store(), after.Store(), m) && m in after.Store().entries
      ensures !w.Store().entries[m].state.Queued? ==> !after.Store().entries[m].state.Queued?
    {
      FinishKeepsTerms(w, action, m);
      FinishKeepsFinalRows(w, action, m);
    }
  }

  lemma FinishKeepsNotes(w: World, past: Past, action: Action)
    requires Basics(w) && Noted(w, past) && IsFinish(action) && FinishEnabled(w, action)
    ensures Noted(AfterFinish(w, action), if action.Mark? then NotedMark(past, w) else past)
  {
    FinishRowsAlike(w, action);
    if action.Mark? {
      MarkingKeepsEnds(w, past);
    }
    FinishKeepsCalls(w, past, action);
  }

  lemma FinishKeepsCalls(w: World, past: Past, action: Action)
    requires CallsNoted(w, past) && IsFinish(action) && FinishEnabled(w, action)
    requires RowsAlikeForNotes(w, AfterFinish(w, action))
    ensures CallsNoted(AfterFinish(w, action), if action.Mark? then NotedMark(past, w) else past)
    ensures !Undecided(AfterFinish(w, action).stage) && !AfterFinish(w, action).stage.Decided?
  {
  }

  lemma FinalRowsKeepEnds(s: Store, after: Store, past: Past)
    requires EndsNoted(s, past) && forall n | n in s.entries :: RowStands(s, after, n)
    ensures EndsNoted(after, past)
  {
  }

  lemma RestartKeepsFinalRows(w: World, action: Action, n: nat)
    requires IsRestart(action) && RestartEnabled(w, action)
    ensures RowStands(w.Store(), AfterRestart(w, action).Store(), n)
  {
  }

  lemma RestartKeepsNotes(w: World, past: Past, action: Action)
    requires MarksOk(w.stage, w.sh.marks) && Noted(w, past) && IsRestart(action) && RestartEnabled(w, action)
    ensures Noted(AfterRestart(w, action), past)
  {
    forall n | n in w.Store().entries ensures RowStands(w.Store(), AfterRestart(w, action).Store(), n) {
      RestartKeepsFinalRows(w, action, n);
    }
    FinalRowsKeepEnds(w.Store(), AfterRestart(w, action).Store(), past);
    RestartHasNoEntry(w, past, action);
  }

  lemma RestartHasNoEntry(w: World, past: Past, action: Action)
    requires MarksOk(w.stage, w.sh.marks) && CallsNoted(w, past) && IsRestart(action) && RestartEnabled(w, action)
    ensures !HasEntry(AfterRestart(w, action).stage) && AfterRestart(w, action).calls == multiset{}
  {
  }

  /** The worker's steps that add no note. */
  lemma WorkingKeepsNotes(w: World, past: Past, action: Action)
    requires Basics(w) && Noted(w, past) && IsWorkers(action) && WorkerEnabled(w, action)
    requires !action.Claim? && !action.Mark?
    ensures Noted(AfterWorker(w, action), past)
  {
    if action.LeaveLoop? {
      LeavingKeepsNotes(w, past);
    } else if action.Work? {
      MoveKeepsNotes(w, past, action.move);
    } else if IsSetup(action) {
      SetupKeepsNotes(w, past, action);
    } else if IsAround(action) {
      AroundKeepsNotes(w, past, action);
    } else {
      FinishKeepsNotes(w, past, action);
    }
  }

  /** And the two that do. */
  lemma NotingKeepsNotes(w: World, past: Past)
    requires Basics(w) && Noted(w, past)
    ensures WorkerEnabled(w, Claim) ==> Noted(AfterWorker(w, Claim), NotedClaim(past, w))
    ensures WorkerEnabled(w, Mark) ==> Noted(AfterWorker(w, Mark), NotedMark(past, w))
  {
    if w.stage.Idle? {
      ClaimKeepsNotes(w, past);
      assert AfterWorker(w, Claim) == AfterClaim(w);
    } else if WorkerEnabled(w, Mark) {
      FinishKeepsNotes(w, past, Mark);
      assert AfterWorker(w, Mark) == AfterFinish(w, Mark);
    }
  }

  lemma LeavingKeepsNotes(w: World, past: Past)
    requires Noted(w, past) && w.stage.Idle?
    ensures Noted(w.(stage := Exited), past)
  {
  }

  /** The steps outside the worker's thread that add no note. */
  lemma OutsideKeepsNotes(w: World, past: Past, action: Action)
    requires Inv(w) && Noted(w, past) && Enabled(w, action) && !IsWorkers(action) && !IsControl(action)
    ensures Noted(After(w, action), past)
  {
    if action.PlanResume? {
      AlikeKeepsNotes(w, AfterPlan(w, action.entry), past);
    } else if IsRequest(action) {
      RequestKeepsNotes(w, past, action);
    } else {
      RestartKeepsNotes(w, past, action);
    }
  }

  lemma WorkerKeepsNotes(w: World, past: Past, action: Action)
    requires Basics(w) && Noted(w, past) && IsWorkers(action) && WorkerEnabled(w, action)
    ensures Noted(AfterWorker(w, action), PastAfter(past, w, action))
  {
    if action == Claim || action == Mark {
      NotingKeepsNotes(w, past);
    } else {
      WorkingKeepsNotes(w, past, action);
    }
  }

  lemma StepKeepsNotes(w: World, past: Past, action: Action)
    requires Inv(w) && Noted(w, past) && Enabled(w, action)
    ensures Noted(After(w, action), PastAfter(past, w, action))
  {
    if IsWorkers(action) {
      WorkerKeepsNotes(w, past, action);
    } else if IsControl(action) {
      ControlKeepsNotes(w, past, action);
    } else {
      OutsideKeepsNotes(w, past, action);
    }
  }


  // --- every stopped end is noted or recovered ----------------------------------------------------

  /**
   A finished entry whose execution reads interrupted was marked so by the worker, or a crash's recovery found it so.
   */
  predicate AllStopsNoted(s: Store, past: Past) {
    forall n | n in s.entries :: StopNoted(s, past, n)
  }

  predicate StopNoted(s: Store, past: Past, n: nat)
    requires n in s.entries
  {
    && !s.entries[n].state.Active()
    && RowOf(s, s.entries[n]).Some? && RowOf(s, s.entries[n]).value.status.JobInterrupted? ==>
      n in past.stopped || s.entries[n].state.Interrupted?
  }

  lemma StandingStopsStayNoted(s: Store, after: Store, past: Past, later: Past)
    requires AllStopsNoted(s, past) && FinishedStand(s, after)
    requires forall n | n in past.stopped && n in s.entries && !s.entries[n].state.Active() :: n in later.stopped
    requires forall n | n in after.entries && !(n in s.entries && !s.entries[n].state.Active()) ::
               StopNoted(after, later, n)
    ensures AllStopsNoted(after, later)
  {
    forall n | n in after.entries ensures StopNoted(after, later, n) {
      if n in s.entries && !s.entries[n].state.Active() {
        assert EntryStands(s, after, n) && StopNoted(s, past, n);
      }
    }
  }

  lemma MarkingNotesStops(w: World, past: Past)
    requires Basics(w) && AllStopsNoted(w.Store(), past) && FinishEnabled(w, Mark)
    ensures AllStopsNoted(AfterFinish(w, Mark).Store(), NotedMark(past, w))
  {
    FinishLeavesFinished(w, Mark);
    var s, after, n := w.Store(), AfterFinish(w, Mark).Store(), w.Current().value;
    assert RowOf(after, after.entries[n]) == RowOf(s, s.entries[n]);
    StandingStopsStayNoted(s, after, past, NotedMark(past, w));
  }

  lemma ClaimingNotesStops(w: World, past: Past)
    requires MarksOk(w.stage, w.sh.marks) && AllStopsNoted(w.Store(), past) && w.stage.Idle?
    ensures AllStopsNoted(AfterClaim(w).Store(), NotedClaim(past, w))
  {
    ClaimLeavesFinished(w);
    StandingStopsStayNoted(w.Store(), AfterClaim(w).Store(), past, NotedClaim(past, w));
  }

  lemma WorkNotesStops(w: World, past: Past, action: Action)
    requires Inv(w) && AllStopsNoted(w.Store(), past) && IsWorkers(action) && WorkerEnabled(w, action)
    requires action != Claim && action != Mark
    ensures AllStopsNoted(AfterWorker(w, action).Store(), past)
  {
    WorkerLeavesFinished(w, action);
    var s, after := w.Store(), AfterWorker(w, action).Store();
    forall n | n in after.entries && !(n in s.entries && !s.entries[n].state.Active())
      ensures StopNoted(after, past, n)
    {
      WorkFinishesUnlinked(w, action, n);
    }
    StandingStopsStayNoted(s, after, past, past);
  }

  /** But for the marking, the worker's thread ends an entry only by failing it with no link. */
  lemma WorkFinishesUnlinked(w: World, action: Action, n: nat)
    requires IsWorkers(action) && WorkerEnabled(w, action) && action != Claim && action != Mark
    requires n in AfterWorker(w, action).Store().entries
    requires !(n in w.Store().entries && !w.Store().entries[n].state.Active())
    ensures var e := AfterWorker(w, action).Store().entries[n]; e.state.Active() || e.execution.None?
  {
    if action.LeaveLoop? {
      assert AfterWorker(w, action) == w.(stage := Exited);
    } else if IsSetup(action) {
      SetupEndsNone(w, action, n);
    } else if IsFinish(action) {
      FinishEndsUnlinked(w, action, n);
    }
  }

  lemma SetupEndsNone(w: World, action: Action, n: nat)
    requires IsSetup(action) && SetupEnabled(w, action) && n in AfterSetup(w, action).Store().entries
    requires !(n in w.Store().entries && !w.Store().entries[n].state.Active())
    ensures AfterSetup(w, action).Store().entries[n].state.Active()
  {
  }

  lemma FinishEndsUnlinked(w: World, action: Action, n: nat)
    requires IsFinish(action) && FinishEnabled(w, action) && action != Mark
    requires n in AfterFinish(w, action).Store().entries
    requires !(n in w.Store().entries && !w.Store().entries[n].state.Active())
    ensures var e := AfterFinish(w, action).Store().entries[n]; e.state.Active() || e.execution.None?
  {
  }

  lemma RequestNotesStops(w: World, past: Past, action: Action)
    requires Inv(w) && AllStopsNoted(w.Store(), past) && IsRequest(action) && RequestEnabled(w, action)
    ensures AllStopsNoted(AfterRequest(w, action).Store(), past)
  {
    var s, after := w.Store(), AfterRequest(w, action).Store();
    if action.DeleteRows? {
      forall n | n in after.entries ensures StopNoted(after, past, n) {
        assert StopNoted(s, past, n);
      }
    } else {
      RequestLeavesFinished(w, action);
      forall n | n in after.entries && !(n in s.entries && !s.entries[n].state.Active())
        ensures StopNoted(after, past, n)
      {
        if n in s.entries {
          assert EntryOk(s, w.ledger, n);
        }
        RequestFinishesUnlinked(w, action, n);
      }
      StandingStopsStayNoted(s, after, past, past);
    }
  }

  lemma RequestFinishesUnlinked(w: World, action: Action, n: nat)
    requires IsRequest(action) && RequestEnabled(w, action) && !action.DeleteRows?
    requires n in AfterRequest(w, action).Store().entries
    requires !(n in w.Store().entries && !w.Store().entries[n].state.Active())
    requires n in w.Store().entries && w.Store().entries[n].state.Queued? ==> w.Store().entries[n].execution.None?
    ensures var e := AfterRequest(w, action).Store().entries[n]; e.state.Active() || e.execution.None?
  {
  }

  lemma RestartNotesStops(w: World, past: Past, action: Action)
    requires Inv(w) && AllStopsNoted(w.Store(), past) && IsRestart(action) && RestartEnabled(w, action)
    ensures AllStopsNoted(AfterRestart(w, action).Store(), past)
  {
    RestartLeavesFinished(w, action);
    StandingStopsStayNoted(w.Store(), AfterRestart(w, action).Store(), past, past);
  }

  lemma WorkerNotesStops(w: World, past: Past, action: Action)
    requires Inv(w) && AllStopsNoted(w.Store(), past) && IsWorkers(action) && WorkerEnabled(w, action)
    ensures AllStopsNoted(AfterWorker(w, action).Store(), PastAfter(past, w, action))
  {
    if action == Claim {
      ClaimingNotesStops(w, past);
      assert AfterWorker(w, action) == AfterClaim(w);
    } else if action == Mark {
      MarkingNotesStops(w, past);
      assert AfterWorker(w, action) == AfterFinish(w, action);
    } else {
      WorkNotesStops(w, past, action);
    }
  }

  lemma ControlNotesStops(w: World, past: Past, action: Action)
    requires AllStopsNoted(w.Store(), past) && IsControl(action) && ControlEnabled(w, action)
    ensures AllStopsNoted(AfterControl(w, action).Store(), NotedControl(past, w, action))
  {
    assert NotedControl(past, w, action).stopped == past.stopped;
    forall n | n in w.Store().entries ensures StopNoted(w.Store(), NotedControl(past, w, action), n) {
      assert StopNoted(w.Store(), past, n);
    }
  }

  lemma OutsideNotesStops(w: World, past: Past, action: Action)
    requires Inv(w) && AllStopsNoted(w.Store(), past) && Enabled(w, action) && !IsWorkers(action) && !IsControl(action)
    ensures AllStopsNoted(After(w, action).Store(), past)
  {
    if action.PlanResume? {
      assert After(w, action) == AfterPlan(w, action.entry);
    } else if IsRequest(action) {
      RequestNotesStops(w, past, action);
    } else {
      RestartNotesStops(w, past, action);
    }
  }

  lemma StepNotesStops(w: World, past: Past, action: Action)
    requires Inv(w) && AllStopsNoted(w.Store(), past) && Enabled(w, action)
    ensures AllStopsNoted(After(w, action).Store(), PastAfter(past, w, action))
  {
    if IsWorkers(action) {
      WorkerNotesStops(w, past, action);
    } else if IsControl(action) {
      ControlNotesStops(w, past, action);
    } else {
      OutsideNotesStops(w, past, action);
    }
  }

  // --- why a stopped job's entry reads as it does -------------------------------------------------

  lemma {:induction false} RunKeepsNotes(w: World, past: Past, actions: seq<Action>)
    requires Inv(w) && Noted(w, past) && AllStopsNoted(w.Store(), past) && CanRun(w, actions)
    ensures Inv(RunAll(w, actions)) && Noted(RunAll(w, actions), PastOf(past, w, actions))
    ensures AllStopsNoted(RunAll(w, actions).Store(), PastOf(past, w, actions))
    decreases |actions|
  {
    if actions != [] {
      StepKeepsInv(w, actions[0]);
      StepKeepsNotes(w, past, actions[0]);
      StepNotesStops(w, past, actions[0]);
      RunKeepsNotes(After(w, actions[0]), PastAfter(past, w, actions[0]), actions[1..]);
    }
  }

  /** Reached from nothing, with these notes taken on the way. */
  ghost predicate ReachedWith(w: World, past: Past) {
    exists row, actions :: Leads(FirstWorld(row), NO_PAST, actions, w, past)
  }

  predicate Leads(w: World, past: Past, actions: seq<Action>, later: World, noted: Past) {
    CanRun(w, actions) && RunAll(w, actions) == later && PastOf(past, w, actions) == noted
  }

  lemma ReachedIsNoted(w: World, past: Past)
    requires ReachedWith(w, past)
    ensures EndsNoted(w.Store(), past) && AllStopsNoted(w.Store(), past)
  {
    var row, actions :| Leads(FirstWorld(row), NO_PAST, actions, w, past);
    EveryReachableWorldIsSound(row, []);
    RunKeepsNotes(FirstWorld(row), NO_PAST, actions);
  }

  /**
   In every reachable world, an entry that finished with its execution interrupted was ended by the worker or
   recovered. One the worker ended reads failed exactly when no stop was marked for it while that was open, and then a
   call meant for another entry was made on its token; it reads cancelled exactly when a cancel's mark came first, and
   interrupted exactly when a shutdown's did. So an accepted cancel whose job ends interrupted reads cancelled, unless a
   shutdown's stop was marked before it.
   */
  lemma WhyAStoppedJobEnded(w: World, past: Past, n: nat)
    requires ReachedWith(w, past) && n in w.Store().entries && !w.Store().entries[n].state.Active()
    requires EndedInterrupted(w, n)
    ensures n in past.stopped || w.Store().entries[n].state.Interrupted?
    ensures n in past.stopped ==>
              var state := w.Store().entries[n].state;
              && (state.Failed? <==> n !in past.marked)
              && (state.Failed? ==> n in past.strays)
              && (state.Cancelled? <==> ReasonOf(past, n) == Some(StopForCancel))
              && (state.Interrupted? <==> ReasonOf(past, n) == Some(StopForShutdown))
              && (state.Cancelled? ==> n in past.cancelled)
              && (n in past.cancelled ==> state.Cancelled? || ReasonOf(past, n) == Some(StopForShutdown))
  {
    ReachedIsNoted(w, past);
    assert StopNoted(w.Store(), past, n);
    if n in past.stopped {
      assert EndsAsNoted(past, n, w.Store().entries[n].state);
    }
  }
}
