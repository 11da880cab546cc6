/**
 A resume that waits or runs keeps what it was resolved to: the submission lock keeps deletions out between its
 resolution and its insert, and from then on every deletion leaves what its chain reads.
 */
module HeldResumes {
  import opened Options
  import opened Callers
  import opened QueueStore
  import opened ResumeChain
  import opened HistoryDelete
  import opened ChainHistory
  import ChainSteps
  import opened QueueMachine
  import opened QueueInvariant
  import opened QueueTheorems

  // --- what is kept -----------------------------------------------------------------------------

  predicate EndedWith(s: Store, m: nat, x: nat) {
    m in s.entries && !s.entries[m].state.Active() && s.entries[m].execution == Some(x)
  }

  /** Execution `x` is there, some finished entry's, and its last succeeded run is the one before `first`. */
  predicate Holds(s: Store, x: nat, first: nat) {
    && x in s.executions
    && first > 0 && Made(s, x) == Some(first - 1)
    && exists m | m in s.entries :: EndedWith(s, m, x)
  }

  /** An active resume has what it was resolved to, and, before a run of its own succeeds, would be so resolved now. */
  predicate HeldEntry(s: Store, ledger: Ledger, n: nat)
    requires OlderLinks(s) && n in s.entries
  {
    var e := s.entries[n];
    e.state.Active() && e.resumes.Some? ==>
      && e.resumesExecution.Some? && Holds(s, e.resumesExecution.value, e.firstRun)
      && (RunsOf(ledger, n) == [] ==>
            && e.resumes.value in s.entries
            && Resolve(s, e.resumes.value) == ResumeAt(e.firstRun, e.resumesExecution.value))
  }

  predicate AllHeld(s: Store, ledger: Ledger)
    requires OlderLinks(s)
  {
    forall n {:trigger HeldEntry(s, ledger, n)} | n in s.entries :: HeldEntry(s, ledger, n)
  }

  predicate PlanHeld(s: Store, plan: Option<Planned>)
    requires OlderLinks(s)
  {
    plan.Some? ==>
      plan.value.entry in s.entries && Resolve(s, plan.value.entry) == ResumeAt(plan.value.first, plan.value.execution)
  }

  ghost predicate ResumesOk(w: World) {
    OlderLinks(w.Store()) && AllHeld(w.Store(), w.ledger) && PlanHeld(w.Store(), w.plan)
  }

  // --- finished chains do not move ----------------------------------------------------------------

  /** Finished entries and the executions they have stand as they were. */
  predicate FinishedStand(s: Store, after: Store) {
    forall m | m in s.entries && !s.entries[m].state.Active() :: EntryStands(s, after, m)
  }

  predicate EntryStands(s: Store, after: Store, m: nat)
    requires m in s.entries
  {
    m in after.entries && after.entries[m] == s.entries[m] && RowOf(after, s.entries[m]) == RowOf(s, s.entries[m])
  }

  lemma {:induction false} FinishedWalksStand(s: Store, after: Store, ledger: Ledger, p: nat)
    requires ChainsOk(s, ledger) && OlderLinks(after) && FinishedStand(s, after)
    requires p in s.entries && !s.entries[p].state.Active()
    ensures p in after.entries && WalkOf(after, p, Resume) == WalkOf(s, p, Resume)
    ensures forall x | x in WalkOf(s, p, Resume).Reads() ::
              x in s.executions && x in after.executions && after.executions[x] == s.executions[x]
    decreases p
  {
    assert EntryStands(s, after, p) && LinkOk(s, ledger, p);
    var link := LinkOf(s, p, Resume);
    assert LinkOf(after, p, Resume) == link;
    if !link.Gone? {
      if Stops(s, p, link) {
        assert WalkOf(s, p, Resume) == Walk([ReadingOf(p, link)], false);
      } else {
        var older := s.entries[p].resumes.value;
        FinishedWalksStand(s, after, ledger, older);
        ReadsOfStep(ReadingOf(p, link), WalkOf(s, older, Resume), WalkOf(s, p, Resume));
      }
    }
  }

  lemma ResolvedAlike(s: Store, after: Store, ledger: Ledger, p: nat)
    requires ChainsOk(s, ledger) && OlderLinks(after) && FinishedStand(s, after)
    requires p in s.entries && !s.entries[p].state.Active()
    ensures p in after.entries && Resolve(after, p) == Resolve(s, p)
  {
    FinishedWalksStand(s, after, ledger, p);
    var walk := WalkOf(s, p, Resume);
    if !walk.broken && walk.readings[|walk.readings| - 1].execution.Some? {
      assert walk.readings[|walk.readings| - 1].execution.value in walk.Reads();
    }
  }

  /** A resolution's execution is some finished entry's of the chain, and shows the run before the one resolved. */
  lemma {:induction false} ResolutionsHold(s: Store, ledger: Ledger, p: nat)
    requires ChainsOk(s, ledger) && p in s.entries && !s.entries[p].state.Active() && Resolve(s, p).ResumeAt?
    ensures Holds(s, Resolve(s, p).execution, Resolve(s, p).firstRun)
    decreases p
  {
    assert LinkOk(s, ledger, p);
    var link := LinkOf(s, p, Resume);
    WholeWalkSteps(s, p);
    if Stops(s, p, link) {
      assert WalkOf(s, p, Resume).readings[0].execution.Some?;
      assert EndedWith(s, p, link.execution);
    } else {
      var older := s.entries[p].resumes.value;
      var walk, rest := WalkOf(s, p, Resume), WalkOf(s, older, Resume);
      assert walk.readings[|walk.readings| - 1] == rest.readings[|rest.readings| - 1];
      assert Resolve(s, older) == Resolve(s, p);
      ResolutionsHold(s, ledger, older);
    }
  }

  lemma HoldingStands(s: Store, after: Store, x: nat, first: nat)
    requires Holds(s, x, first) && FinishedStand(s, after)
    ensures Holds(after, x, first)
  {
    var m :| m in s.entries && EndedWith(s, m, x);
    assert EntryStands(s, after, m);
    assert RowOf(s, s.entries[m]) == Some(s.executions[x]);
    assert EndedWith(after, m, x);
  }

  /** An entry held before is held after, whatever it has made since. */
  lemma HeldStays(s: Store, after: Store, ledger: Ledger, noted: Ledger, n: nat)
    requires ChainsOk(s, ledger) && OlderLinks(after) && FinishedStand(s, after)
    requires n in s.entries && HeldEntry(s, ledger, n) && KeepsTerms(s, after, n)
    requires RunsOf(noted, n) == [] ==> RunsOf(ledger, n) == []
    requires RowStands(s, after, n)
    ensures n in after.entries && HeldEntry(after, noted, n)
  {
    assert LinkOk(s, ledger, n);
    var e := after.entries[n];
    if e.state.Active() && e.resumes.Some? {
      HoldingStands(s, after, e.resumesExecution.value, e.firstRun);
      if RunsOf(noted, n) == [] {
        ResolvedAlike(s, after, ledger, e.resumes.value);
      }
    }
  }

  // --- every step but a deletion leaves finished chains -------------------------------------------

  lemma ClaimLeavesFinished(w: World)
    ensures FinishedStand(w.Store(), AfterClaim(w).Store())
  {
    var s, after := w.Store(), AfterClaim(w).Store();
    forall m | m in s.entries && !s.entries[m].state.Active() ensures EntryStands(s, after, m) {
      assert RowOf(after, s.entries[m]) == RowOf(s, s.entries[m]);
    }
  }

  lemma OneExecutionLeavesFinished(s: Store, after: Store, n: nat, x: nat)
    requires LinkedOnce(s) && n in s.entries && s.entries[n].state.Active() && s.entries[n].execution == Some(x)
    requires SameButExecution(s, after, x) || after == s
    ensures FinishedStand(s, after)
  {
    forall m | m in s.entries && !s.entries[m].state.Active() ensures EntryStands(s, after, m) {
      assert s.entries[m].execution != Some(x);
      assert RowOf(after, s.entries[m]) == RowOf(s, s.entries[m]);
    }
  }

  lemma OneEntryLeavesFinished(s: Store, after: Store, n: nat)
    requires SameBut(s, after, n) && s.entries[n].state.Active()
    ensures FinishedStand(s, after)
  {
    forall m | m in s.entries && !s.entries[m].state.Active() ensures EntryStands(s, after, m) {
      assert RowOf(after, s.entries[m]) == RowOf(s, s.entries[m]);
    }
  }

  lemma SweepLeavesFinished(s: Store, ledger: Ledger)
    requires EntriesOk(s, ledger)
    ensures FinishedStand(s, Swept(s))
  {
    forall m | m in s.entries && !s.entries[m].state.Active() ensures EntryStands(s, Swept(s), m) {
      assert EntryOk(s, ledger, m);
      var row := RowOf(s, s.entries[m]);
      if row.Some? {
        assert SweptExecution(row.value) == row.value;
        assert RowOf(Swept(s), s.entries[m]) == row;
      } else {
        assert RowOf(Swept(s), s.entries[m]) == None;
      }
    }
  }

  /** The claimed entry's row, its execution's row, or neither: what a step of the worker's thread changes. */
  lemma MoveLeavesFinished(w: World, move: ChainSteps.Move)
    requires MoveEnabled(w, move) && StageOk(w) && MarksOk(w.stage, w.sh.marks)
    requires RunningOk(w.stage, w.sh.marks, w.Store()) && LinkedOnce(w.Store())
    ensures FinishedStand(w.Store(), AfterMove(w, move).Store())
  {
    OneExecutionLeavesFinished(w.Store(), AfterMove(w, move).Store(), w.Current().value, w.stage.execution);
  }

  lemma SetupLeavesFinished(w: World, action: Action)
    requires IsSetup(action) && SetupEnabled(w, action) && StageOk(w) && MarksOk(w.stage, w.sh.marks)
    requires RunningOk(w.stage, w.sh.marks, w.Store()) && LinkedOnce(w.Store()) && EntriesOk(w.Store(), w.ledger)
    ensures FinishedStand(w.Store(), AfterSetup(w, action).Store())
  {
    var s, n, after := w.Store(), w.Current().value, AfterSetup(w, action).Store();
    if action.SweepAgain? {
      SweepLeavesFinished(s, w.ledger);
    } else if action.OpenRow? {
      OneExecutionLeavesFinished(s, after, n, w.stage.execution);
    } else if action.Link? {
      OneEntryLeavesFinished(s, after, n);
    } else {
      assert forall m | m in s.entries :: RowOf(after, s.entries[m]) == RowOf(s, s.entries[m]);
    }
  }

  lemma AroundLeavesFinished(w: World, action: Action)
    requires IsAround(action) && AroundEnabled(w, action) && StageOk(w) && MarksOk(w.stage, w.sh.marks)
    requires RunningOk(w.stage, w.sh.marks, w.Store()) && LinkedOnce(w.Store())
    ensures FinishedStand(w.Store(), AfterAround(w, action).Store())
  {
    OneExecutionLeavesFinished(w.Store(), AfterAround(w, action).Store(), w.Current().value, w.stage.execution);
  }

  lemma FinishLeavesFinished(w: World, action: Action)
    requires IsFinish(action) && FinishEnabled(w, action) && MarksOk(w.stage, w.sh.marks)
    requires RunningOk(w.stage, w.sh.marks, w.Store())
    ensures FinishedStand(w.Store(), AfterFinish(w, action).Store())
  {
    var s, after := w.Store(), AfterFinish(w, action).Store();
    if action.Mark? || action.MarkFailed? {
      OneEntryLeavesFinished(s, after, w.Current().value);
    } else {
      assert after == s;
    }
  }

  lemma WorkerLeavesFinished(w: World, action: Action)
    requires Inv(w) && IsWorkers(action) && WorkerEnabled(w, action)
    ensures FinishedStand(w.Store(), AfterWorker(w, action).Store())
  {
    if action.Claim? {
      ClaimLeavesFinished(w);
    } else if action.Work? {
      MoveLeavesFinished(w, action.move);
    } else if IsSetup(action) {
      SetupLeavesFinished(w, action);
    } else if IsAround(action) {
      AroundLeavesFinished(w, action);
    } else if IsFinish(action) {
      FinishLeavesFinished(w, action);
    }
  }

  lemma RequestLeavesFinished(w: World, action: Action)
    requires IsRequest(action) && RequestEnabled(w, action) && !action.DeleteRows? && NumbersBelow(w.Store())
    ensures FinishedStand(w.Store(), AfterRequest(w, action).Store())
  {
    var s, after := w.Store(), AfterRequest(w, action).Store();
    forall m | m in s.entries && !s.entries[m].state.Active() ensures EntryStands(s, after, m) {
      assert RowOf(after, s.entries[m]) == RowOf(s, s.entries[m]);
    }
  }

  lemma RestartLeavesFinished(w: World, action: Action)
    requires Inv(w) && IsRestart(action) && RestartEnabled(w, action)
    ensures FinishedStand(w.Store(), AfterRestart(w, action).Store())
  {
    var s, after := w.Store(), AfterRestart(w, action).Store();
    match action
    case Crash => assert after == s;
    case SweepRows => SweepLeavesFinished(s, w.ledger);
    case RecoverRow(n) => OneEntryLeavesFinished(s, after, n);
    case Serve => assert after == s;
  }

  // --- every step keeps resumes -------------------------------------------------------------------

  /** Entries that were there stay held; a new one, if there is one, is held itself. */
  lemma AllStayHeld(s: Store, after: Store, ledger: Ledger, noted: Ledger, plan: Option<Planned>)
    requires ChainsOk(s, ledger) && OlderLinks(after) && FinishedStand(s, after) && AllHeld(s, ledger)
    requires forall n | n in s.entries :: KeepsTerms(s, after, n) && RowStands(s, after, n)
    requires forall n | n in s.entries :: RunsOf(noted, n) == [] ==> RunsOf(ledger, n) == []
    requires forall n | n in after.entries && n !in s.entries :: HeldEntry(after, noted, n)
    requires PlanHeld(s, plan) && (plan.Some? ==> !s.entries[plan.value.entry].state.Active())
    ensures AllHeld(after, noted) && PlanHeld(after, plan)
  {
    forall n | n in after.entries ensures HeldEntry(after, noted, n) {
      if n in s.entries {
        assert HeldEntry(s, ledger, n);
        HeldStays(s, after, ledger, noted, n);
      }
    }
    if plan.Some? {
      ResolvedAlike(s, after, ledger, plan.value.entry);
    }
  }

  lemma WorkerKeepsResumes(w: World, action: Action)
    requires Inv(w) && ResumesOk(w) && IsWorkers(action) && WorkerEnabled(w, action)
    ensures ResumesOk(AfterWorker(w, action))
  {
    var s, after := w.Store(), AfterWorker(w, action);
    WorkerKeepsInv(w, action);
    WorkerLeavesFinished(w, action);
    forall n | n in s.entries ensures KeepsTerms(s, after.Store(), n) && RowStands(s, after.Store(), n) {
      WorkerKeepsTerms(w, action, n);
      WorkerKeepsFinalRows(w, action, n);
    }
    WorkerAddsNone(w, action);
    AllStayHeld(s, after.Store(), w.ledger, after.ledger, w.plan);
  }

  lemma MoveTakesNoneBack(w: World, move: ChainSteps.Move, n: nat)
    requires MoveEnabled(w, move) && RunsOf(AfterMove(w, move).ledger, n) == []
    ensures RunsOf(w.ledger, n) == []
  {
  }

  lemma SetupAddsNone(w: World, action: Action)
    requires IsSetup(action) && SetupEnabled(w, action)
    ensures AfterSetup(w, action).Store().entries.Keys == w.Store().entries.Keys
  {
  }

  lemma FinishAddsNone(w: World, action: Action)
    requires IsFinish(action) && FinishEnabled(w, action)
    ensures AfterFinish(w, action).Store().entries.Keys == w.Store().entries.Keys
  {
  }

  lemma ClaimAddsNone(w: World)
    ensures AfterClaim(w).Store().entries.Keys == w.Store().entries.Keys
  {
  }

  /** The worker's thread submits nothing and takes no run back. */
  lemma WorkerAddsNone(w: World, action: Action)
    requires IsWorkers(action) && WorkerEnabled(w, action)
    ensures AfterWorker(w, action).Store().entries.Keys == w.Store().entries.Keys
    ensures forall n :: RunsOf(AfterWorker(w, action).ledger, n) == [] ==> RunsOf(w.ledger, n) == []
    ensures AfterWorker(w, action).plan == w.plan
  {
    if action.Claim? {
      ClaimAddsNone(w);
    } else if action.LeaveLoop? {
      assert AfterWorker(w, action) == w.(stage := Exited);
    } else if action.Work? {
      assert AfterWorker(w, action) == AfterMove(w, action.move);
      forall n | RunsOf(AfterMove(w, action.move).ledger, n) == [] ensures RunsOf(w.ledger, n) == [] {
        MoveTakesNoneBack(w, action.move, n);
      }
    } else if IsSetup(action) {
      SetupAddsNone(w, action);
    } else if IsAround(action) {
      assert AfterWorker(w, action) == AfterAround(w, action);
    } else {
      FinishAddsNone(w, action);
    }
  }

  lemma InsertedIsHeld(w: World, caller: Caller)
    requires Inv(w) && ResumesOk(w) && RequestEnabled(w, InsertResume(caller))
    ensures OlderLinks(AfterRequest(w, InsertResume(caller)).Store())
    ensures HeldEntry(AfterRequest(w, InsertResume(caller)).Store(), w.ledger, w.Store().nextEntry)
  {
    var s, after, plan := w.Store(), AfterRequest(w, InsertResume(caller)).Store(), w.plan.value;
    RequestKeepsChains(w, InsertResume(caller));
    RequestLeavesFinished(w, InsertResume(caller));
    ResolutionsHold(s, w.ledger, plan.entry);
    HoldingStands(s, after, plan.execution, plan.first);
    ResolvedAlike(s, after, w.ledger, plan.entry);
  }

  lemma RequestKeepsResumes(w: World, action: Action)
    requires Inv(w) && ResumesOk(w) && IsRequest(action) && RequestEnabled(w, action) && !action.DeleteRows?
    ensures ResumesOk(AfterRequest(w, action))
  {
    var s, after := w.Store(), AfterRequest(w, action).Store();
    RequestKeepsChains(w, action);
    RequestLeavesFinished(w, action);
    forall n | n in s.entries ensures KeepsTerms(s, after, n) && RowStands(s, after, n) {
      RequestKeepsTerms(w, action, n);
    }
    if action.InsertResume? {
      InsertedIsHeld(w, action.caller);
    }
    AllStayHeld(s, after, w.ledger, w.ledger, AfterRequest(w, action).plan);
  }

  /** An accepted deletion leaves what an active resume was resolved to, and the chain it still reads. */
  lemma DeletionKeepsHeld(s: Store, ledger: Ledger, numbers: set<nat>, n: nat)
    requires ChainsOk(s, ledger) && n in s.entries && HeldEntry(s, ledger, n)
    requires forall x | x in numbers :: Deletable(s, x)
    ensures OlderLinks(Without(s, numbers)) && HeldEntry(Without(s, numbers), ledger, n)
  {
    var e, after := s.entries[n], Without(s, numbers);
    if e.state.Active() && e.resumes.Some? {
      var x := e.resumesExecution.value;
      assert UsedBy(s, n, x);
      var m :| m in s.entries && EndedWith(s, m, x);
      assert EndedWith(after, m, x);
      if RunsOf(ledger, n) == [] {
        DeletionKeepsResolution(s, ledger, numbers, n);
      }
    }
  }

  lemma DeletionKeepsResolution(s: Store, ledger: Ledger, numbers: set<nat>, n: nat)
    requires ChainsOk(s, ledger) && n in s.entries && s.entries[n].state.Active() && s.entries[n].resumes.Some?
    requires RunsOf(ledger, n) == [] && forall x | x in numbers :: Deletable(s, x)
    requires s.entries[n].resumes.value in s.entries && Resolve(s, s.entries[n].resumes.value).ResumeAt?
    ensures OlderLinks(Without(s, numbers))
    ensures Resolve(Without(s, numbers), s.entries[n].resumes.value) == Resolve(s, s.entries[n].resumes.value)
  {
    var p := s.entries[n].resumes.value;
    assert LinkOk(s, ledger, n);
    ResumedHaveFinished(s, ledger);
    PassesOn(s, ledger, n);
    WalkersAgree(s, p);
    assert forall y | y in numbers :: !UsedBy(s, n, y);
    UnreadDeletionChangesNothing(s, numbers, p, Resume);
    EndIsRead(s, p);
  }

  lemma EndIsRead(s: Store, p: nat)
    requires OlderLinks(s) && p in s.entries && Resolve(s, p).ResumeAt?
    ensures Resolve(s, p).execution in WalkOf(s, p, Resume).Reads()
  {
    var readings := WalkOf(s, p, Resume).readings;
    assert readings[|readings| - 1].execution == Some(Resolve(s, p).execution);
  }

  /** A walk from an active entry that has made no run reads all its resumed entry's does. */
  lemma PassesOn(s: Store, ledger: Ledger, n: nat)
    requires ChainsOk(s, ledger) && n in s.entries && s.entries[n].state.Active()
    requires s.entries[n].resumes.Some? && RunsOf(ledger, n) == []
    ensures s.entries[n].resumes.value in s.entries
    ensures WalkOf(s, s.entries[n].resumes.value, Deletion).Reads() <= WalkOf(s, n, Deletion).Reads()
    ensures WalkOf(s, n, Deletion).broken == WalkOf(s, s.entries[n].resumes.value, Deletion).broken
  {
    assert EntryOk(s, ledger, n) && LinkOk(s, ledger, n);
    var link, p := LinkOf(s, n, Deletion), s.entries[n].resumes.value;
    if link.Linked? {
      assert RowOf(s, s.entries[n]) == Some(s.executions[link.execution]);
      RowsShowTheLedger(s.executions[link.execution].runs, s.entries[n].firstRun, 0);
    }
    assert !Stops(s, n, link);
    ReadsOfStep(ReadingOf(n, link), WalkOf(s, p, Deletion), WalkOf(s, n, Deletion));
  }

  lemma DeletionKeepsResumes(w: World, numbers: set<nat>)
    requires Inv(w) && ResumesOk(w) && RequestEnabled(w, DeleteRows(numbers))
    ensures ResumesOk(AfterRequest(w, DeleteRows(numbers)))
  {
    var after := AfterRequest(w, DeleteRows(numbers)).Store();
    forall n | n in after.entries ensures HeldEntry(after, w.ledger, n) {
      assert HeldEntry(w.Store(), w.ledger, n);
      DeletionKeepsHeld(w.Store(), w.ledger, numbers, n);
    }
  }

  lemma RestartKeepsResumes(w: World, action: Action)
    requires Inv(w) && ResumesOk(w) && IsRestart(action) && RestartEnabled(w, action)
    ensures ResumesOk(AfterRestart(w, action))
  {
    var s, after := w.Store(), AfterRestart(w, action);
    RestartKeepsInv(w, action);
    RestartLeavesFinished(w, action);
    AllStayHeld(s, after.Store(), w.ledger, w.ledger, if action.Crash? then None else w.plan);
  }

  lemma StepKeepsResumes(w: World, action: Action)
    requires Inv(w) && ResumesOk(w) && Enabled(w, action)
    ensures ResumesOk(After(w, action))
  {
    if IsWorkers(action) {
      WorkerKeepsResumes(w, action);
    } else if action.PlanResume? {
      assert After(w, action) == AfterPlan(w, action.entry);
    } else if action.DeleteRows? {
      DeletionKeepsResumes(w, action.numbers);
    } else if IsRequest(action) {
      RequestKeepsResumes(w, action);
    } else if IsControl(action) {
      assert After(w, action).Store() == w.Store() && After(w, action).plan == w.plan;
    } else {
      RestartKeepsResumes(w, action);
    }
  }

  lemma {:induction false} RunKeepsResumes(w: World, actions: seq<Action>)
    requires Inv(w) && ResumesOk(w) && CanRun(w, actions)
    ensures Inv(RunAll(w, actions)) && ResumesOk(RunAll(w, actions))
    decreases |actions|
  {
    if actions != [] {
      StepKeepsInv(w, actions[0]);
      StepKeepsResumes(w, actions[0]);
      RunKeepsResumes(After(w, actions[0]), actions[1..]);
    }
  }

  lemma ReachableHoldsResumes(w: World)
    requires Reachable(w)
    ensures Inv(w) && ResumesOk(w)
  {
    var row, actions :| CanRun(FirstWorld(row), actions) && RunAll(FirstWorld(row), actions) == w;
    EveryReachableWorldIsSound(row, []);
    RunKeepsResumes(FirstWorld(row), actions);
  }

  // --- what that means ----------------------------------------------------------------------------

  /**
   In every reachable world a waiting or running resume has the execution it was resolved to, whose last succeeded
   run is the one before its first; its walk is whole; and until a run of its own succeeds a resume would be resolved to
   just that again.
   */
  lemma AnActiveResumeIsHeld(w: World, n: nat)
    requires Reachable(w) && n in w.Store().entries
    requires w.Store().entries[n].state.Active() && w.Store().entries[n].resumes.Some?
    ensures OlderLinks(w.Store())
    ensures
      var s, e := w.Store(), w.Store().entries[n];
      && e.resumesExecution.Some? && e.resumesExecution.value in s.executions
      && e.firstRun > 1 && Made(s, e.resumesExecution.value) == Some(e.firstRun - 1)
      && !WalkOf(s, n, Deletion).broken
      && (RunsOf(w.ledger, n) == [] ==>
            && e.resumes.value in s.entries
            && Resolve(s, e.resumes.value) == ResumeAt(e.firstRun, e.resumesExecution.value))
  {
    ReachableHoldsResumes(w);
    var s, e := w.Store(), w.Store().entries[n];
    assert HeldEntry(s, w.ledger, n) && EntryOk(s, w.ledger, n) && LinkOk(s, w.ledger, n);
    var x := e.resumesExecution.value;
    FirstOfAHeld(s, w.ledger, x, e.firstRun);
    if RunsOf(w.ledger, n) == [] {
      PassesOn(s, w.ledger, n);
      ResumedHaveFinished(s, w.ledger);
      WalkersAgree(s, e.resumes.value);
    } else {
      var link := LinkOf(s, n, Deletion);
      assert RowOf(s, e).Some?;
      RowsShowTheLedger(RowOf(s, e).value.runs, e.firstRun, |RunsOf(w.ledger, n)|);
      assert Stops(s, n, link);
    }
  }

  lemma FirstOfAHeld(s: Store, ledger: Ledger, x: nat, first: nat)
    requires ChainsOk(s, ledger) && Holds(s, x, first)
    ensures first > 1
  {
    var m :| m in s.entries && EndedWith(s, m, x);
    assert EntryOk(s, ledger, m);
    RowsShowTheLedger(s.executions[x].runs, s.entries[m].firstRun, |RunsOf(ledger, m)|);
  }

  /** From any moment on until it ends, through any steps, deletions and crashes among them, it keeps both. */
  lemma AResumeKeepsWhatItWasResolvedTo(w: World, actions: seq<Action>, n: nat)
    requires Inv(w) && ResumesOk(w) && CanRun(w, actions)
    requires n in w.Store().entries && w.Store().entries[n].resumes.Some?
    ensures
      var later := RunAll(w, actions).Store();
      && n in later.entries
      && later.entries[n].firstRun == w.Store().entries[n].firstRun
      && later.entries[n].resumesExecution == w.Store().entries[n].resumesExecution
      && (later.entries[n].state.Active() ==>
            && later.entries[n].resumesExecution.Some?
            && Holds(later, later.entries[n].resumesExecution.value, later.entries[n].firstRun))
  {
    TermsStand(w, actions, n);
    RunKeepsResumes(w, actions);
    assert HeldEntry(RunAll(w, actions).Store(), RunAll(w, actions).ledger, n);
  }
}
