/**
 What every interleaving of the queue's steps guarantees, crashes and restarts included.
 */
module QueueTheorems {
  import opened Options
  import opened Callers
  import opened QueueHolds
  import opened QueueStore
  import opened ResumeChain
  import opened HistoryDelete
  import opened ChainHistory
  import opened ChainSteps
  import opened QueueWorkers
  import opened QueueRecovery
  import opened QueueMachine
  import opened QueueInvariant

  /** Reached from nothing but perhaps a saved hold, by any steps at all. */
  ghost predicate Reachable(w: World) {
    exists row, actions :: CanRun(FirstWorld(row), actions) && RunAll(FirstWorld(row), actions) == w
  }

  lemma ReachableIsSound(w: World)
    requires Reachable(w)
    ensures Inv(w)
  {
    var row, actions :| CanRun(FirstWorld(row), actions) && RunAll(FirstWorld(row), actions) == w;
    EveryReachableWorldIsSound(row, actions);
  }

  // --- rows and claims --------------------------------------------------------------------------

  /** A row reads running exactly while it is the claimed one and not finished, so at most one does. */
  lemma RunningRowIsTheClaimedOne(w: World, n: nat, m: nat)
    requires Reachable(w) && n in w.Store().entries && m in w.Store().entries
    ensures !w.stage.Down? ==>
              (w.Store().entries[n].state.Running? <==> w.Current() == Some(n) && !w.sh.marks.finished)
    ensures w.Store().entries[n].state.Running? && w.Store().entries[m].state.Running? ==> n == m
  {
    ReachableIsSound(w);
  }

  /** A claim takes the oldest waiting entry, never while the queue is held, and never once a stop has been asked. */
  lemma ClaimsTakeTheOldest(w: World)
    requires Reachable(w) && w.stage.Idle?
    ensures
      var after := AfterClaim(w);
      after.stage.Claimed? ==>
        && after.Current().Some?
        && IsOldestQueued(w.Store(), after.Current().value)
        && !w.sh.holding.state.held
        && !w.sh.stopping && !w.stopped
        && after.claims == w.claims + [after.Current().value]
    ensures w.sh.holding.state.held ==> AfterClaim(w) == w
    ensures !w.sh.holding.state.held && !w.sh.stopping ==>
              (AfterClaim(w).stage.Claimed? <==>
               exists n :: n in w.Store().entries && w.Store().entries[n].state.Queued?)
  {
    ReachableIsSound(w);
    OldestQueuedIsLeast(w.Store());
  }

  /** One process claims in queue order. */
  lemma ClaimsComeInOrder(w: World)
    requires Reachable(w)
    ensures RisingNumbers(w.claims)
  {
    ReachableIsSound(w);
  }

  // --- final states -----------------------------------------------------------------------------

  predicate RowStands(s: Store, after: Store, n: nat) {
    n in s.entries && !s.entries[n].state.Active() ==> n in after.entries && after.entries[n] == s.entries[n]
  }

  lemma ClaimKeepsFinalRows(w: World, n: nat)
    ensures RowStands(w.Store(), AfterClaim(w).Store(), n)
  {
  }

  lemma SetupKeepsFinalRows(w: World, action: Action, n: nat)
    requires MarksOk(w.stage, w.sh.marks) && RunningOk(w.stage, w.sh.marks, w.Store())
    requires IsSetup(action) && SetupEnabled(w, action)
    ensures RowStands(w.Store(), AfterSetup(w, action).Store(), n)
  {
  }

  lemma FinishKeepsFinalRows(w: World, action: Action, n: nat)
    requires MarksOk(w.stage, w.sh.marks) && RunningOk(w.stage, w.sh.marks, w.Store())
    requires IsFinish(action) && FinishEnabled(w, action)
    ensures RowStands(w.Store(), AfterFinish(w, action).Store(), n)
  {
  }

  lemma WorkerKeepsFinalRows(w: World, action: Action, n: nat)
    requires MarksOk(w.stage, w.sh.marks) && RunningOk(w.stage, w.sh.marks, w.Store())
    requires IsWorkers(action) && WorkerEnabled(w, action)
    ensures RowStands(w.Store(), AfterWorker(w, action).Store(), n)
  {
    if action.Claim? {
      ClaimKeepsFinalRows(w, n);
    } else if IsSetup(action) {
      SetupKeepsFinalRows(w, action, n);
    } else if IsFinish(action) {
      FinishKeepsFinalRows(w, action, n);
    }
  }

  lemma StepKeepsFinalRows(w: World, action: Action, n: nat)
    requires NumbersBelow(w.Store()) && MarksOk(w.stage, w.sh.marks) && RunningOk(w.stage, w.sh.marks, w.Store())
    requires Enabled(w, action)
    ensures RowStands(w.Store(), After(w, action).Store(), n)
  {
    if IsWorkers(action) {
      WorkerKeepsFinalRows(w, action, n);
    }
  }

  /** A final state once written never changes, nor does the row it is in, through anything that follows. */
  lemma {:induction false} FinalStatesStand(w: World, actions: seq<Action>, n: nat)
    requires Inv(w) && CanRun(w, actions)
    requires n in w.Store().entries && !w.Store().entries[n].state.Active()
    ensures n in RunAll(w, actions).Store().entries
    ensures RunAll(w, actions).Store().entries[n] == w.Store().entries[n]
    decreases |actions|
  {
    if actions != [] {
      StepKeepsInv(w, actions[0]);
      StepKeepsFinalRows(w, actions[0], n);
      FinalStatesStand(After(w, actions[0]), actions[1..], n);
    }
  }

  /** What never changes of an entry: who submitted it, what it resumes and the runs it is for. */
  predicate KeepsTerms(s: Store, after: Store, n: nat) {
    n in s.entries ==>
      && n in after.entries
      && after.entries[n] == s.entries[n].(state := after.entries[n].state, execution := after.entries[n].execution)
  }

  lemma ClaimKeepsTerms(w: World, n: nat)
    ensures KeepsTerms(w.Store(), AfterClaim(w).Store(), n)
    ensures n in w.Store().entries && !w.Store().entries[n].state.Queued? ==>
              !AfterClaim(w).Store().entries[n].state.Queued?
  {
  }

  lemma SetupKeepsTerms(w: World, action: Action, n: nat)
    requires IsSetup(action) && SetupEnabled(w, action)
    ensures KeepsTerms(w.Store(), AfterSetup(w, action).Store(), n)
    ensures n in w.Store().entries && !w.Store().entries[n].state.Queued? ==>
              !AfterSetup(w, action).Store().entries[n].state.Queued?
  {
  }

  lemma FinishKeepsTerms(w: World, action: Action, n: nat)
    requires StageOk(w) && MarksOk(w.stage, w.sh.marks) && IsFinish(action) && FinishEnabled(w, action)
    ensures KeepsTerms(w.Store(), AfterFinish(w, action).Store(), n)
    ensures n in w.Store().entries && !w.Store().entries[n].state.Queued? ==>
              !AfterFinish(w, action).Store().entries[n].state.Queued?
  {
  }

  lemma RequestKeepsTerms(w: World, action: Action, n: nat)
    requires NumbersBelow(w.Store()) && IsRequest(action) && RequestEnabled(w, action)
    ensures KeepsTerms(w.Store(), AfterRequest(w, action).Store(), n)
    ensures n in w.Store().entries && !w.Store().entries[n].state.Queued? ==>
              !AfterRequest(w, action).Store().entries[n].state.Queued?
  {
  }

  lemma WorkerKeepsTerms(w: World, action: Action, n: nat)
    requires StageOk(w) && MarksOk(w.stage, w.sh.marks) && IsWorkers(action) && WorkerEnabled(w, action)
    ensures KeepsTerms(w.Store(), AfterWorker(w, action).Store(), n)
    ensures n in w.Store().entries && !w.Store().entries[n].state.Queued? ==>
              !AfterWorker(w, action).Store().entries[n].state.Queued?
  {
    if action.Claim? {
      ClaimKeepsTerms(w, n);
    } else if IsSetup(action) {
      SetupKeepsTerms(w, action, n);
    } else if IsFinish(action) {
      FinishKeepsTerms(w, action, n);
    }
  }

  lemma StepKeepsTerms(w: World, action: Action, n: nat)
    requires NumbersBelow(w.Store()) && StageOk(w) && MarksOk(w.stage, w.sh.marks) && Enabled(w, action)
    ensures KeepsTerms(w.Store(), After(w, action).Store(), n)
    ensures n in w.Store().entries && !w.Store().entries[n].state.Queued? && !w.stage.Down? ==>
              !After(w, action).Store().entries[n].state.Queued?
  {
    if IsWorkers(action) {
      WorkerKeepsTerms(w, action, n);
    } else if IsRequest(action) {
      RequestKeepsTerms(w, action, n);
    }
  }

  /** An entry's terms, its submitter among them, never change: a permission checked before is good after. */
  lemma {:induction false} TermsStand(w: World, actions: seq<Action>, n: nat)
    requires Inv(w) && CanRun(w, actions)
    ensures KeepsTerms(w.Store(), RunAll(w, actions).Store(), n)
    decreases |actions|
  {
    if actions != [] {
      StepKeepsInv(w, actions[0]);
      StepKeepsTerms(w, actions[0], n);
      TermsStand(After(w, actions[0]), actions[1..], n);
    }
  }

  /** Within one process. */
  predicate NoCrash(actions: seq<Action>) {
    forall i | 0 <= i < |actions| :: !actions[i].Crash?
  }

  /** In one process an entry that no longer waits never waits again. */
  lemma {:induction false} NoLongerWaiting(w: World, actions: seq<Action>, n: nat)
    requires Inv(w) && CanRun(w, actions) && NoCrash(actions) && !w.stage.Down?
    requires n in w.Store().entries && !w.Store().entries[n].state.Queued?
    ensures n in RunAll(w, actions).Store().entries && !RunAll(w, actions).Store().entries[n].state.Queued?
    ensures !RunAll(w, actions).stage.Down? && Inv(RunAll(w, actions))
    decreases |actions|
  {
    if actions != [] {
      StepKeepsInv(w, actions[0]);
      StepKeepsTerms(w, actions[0], n);
      assert !After(w, actions[0]).stage.Down? by {
        UpStaysUp(w, actions[0]);
      }
      NoLongerWaiting(After(w, actions[0]), actions[1..], n);
    }
  }

  lemma UpStaysUp(w: World, action: Action)
    requires Enabled(w, action) && !action.Crash? && !w.stage.Down?
    ensures !After(w, action).stage.Down?
  {
  }

  /**
   A cancel that finds its entry no longer waiting and, any steps later, finds it not claimed either, has missed
   nothing: the entry has ended. So a cancel of an active entry is accepted by one section or the other, or too late.
   */
  lemma ACancelMissesOnlyAnEnd(w: World, actions: seq<Action>, n: nat)
    requires Inv(w) && !w.stage.Down? && n in w.Store().entries && CanRun(w, actions) && NoCrash(actions)
    requires !CancelQueuedSection(w.sh, n).1
    ensures n in RunAll(w, actions).Store().entries
    ensures !CancelRunningSection(RunAll(w, actions).sh, n).1 ==> !RunAll(w, actions).Store().entries[n].state.Active()
  {
    NoLongerWaiting(w, actions, n);
  }

  /**
   A finished entry reads as its execution does: succeeded and parked exactly alike, cancelled or interrupted only of
   one that was stopped.
   */
  lemma AFinishedEntryReadsAsItsExecution(w: World, n: nat)
    requires Reachable(w) && n in w.Store().entries && !w.Store().entries[n].state.Active()
    requires RowOf(w.Store(), w.Store().entries[n]).Some?
    ensures StateAgrees(w.Store().entries[n].state, RowOf(w.Store(), w.Store().entries[n]).value.status)
  {
    ReachableIsSound(w);
    assert EntryOk(w.Store(), w.ledger, n);
  }

  // --- stops ------------------------------------------------------------------------------------

  /** Once stop's section has run, whatever is claimed has a stop pending, and no claim goes through any more. */
  lemma StopReachesTheClaimed(w: World)
    requires Reachable(w) && w.stopped
    ensures w.Current().Some? ==> w.sh.marks.cancelPending && w.sh.marks.stop.Some?
    ensures w.stage.Idle? ==> !AfterClaim(w).stage.Claimed?
  {
    ReachableIsSound(w);
  }

  /**
   No accepted stop is lost: once the start guard is through with its call, and the call meant for the
   claimed entry has been made, the token is asked to stop, until the job has ended.
   */
  lemma AcceptedStopReachesTheToken(w: World)
    requires Reachable(w) && w.sh.marks.cancelPending
    requires w.stage.Working? || w.stage.Reported? || w.stage.Decided?
    requires w.Current() !in w.calls
    ensures w.sh.token.requested && w.sh.token.running
  {
    ReachableIsSound(w);
  }

  /** An entry reads cancelled only if a cancel of that very entry was accepted. */
  lemma CancelledOnlyByItsOwnCancel(w: World, n: nat)
    requires Reachable(w) && n in w.Store().entries && w.Store().entries[n].state.Cancelled?
    ensures n in w.cancels
  {
    ReachableIsSound(w);
  }

  /** An active entry is always within reach: exactly one of the two sections of a cancel accepts it. */
  lemma CancelReachesEveryActiveEntry(w: World, n: nat)
    requires Reachable(w) && !w.stage.Down? && n in w.Store().entries
    ensures w.Store().entries[n].state.Active() <==>
              CancelQueuedSection(w.sh, n).1 || (CancelRunningSection(w.sh, n).1 && !w.sh.marks.finished)
    ensures !(CancelQueuedSection(w.sh, n).1 && CancelRunningSection(w.sh, n).1)
  {
    ReachableIsSound(w);
    if CancelRunningSection(w.sh, n).1 && w.sh.marks.finished {
      assert StageOk(w);
    }
  }

  // --- published events -------------------------------------------------------------------------

  /** Each event came where an entry's life allows it: never running before queued, nothing after the end. */
  predicate InOrder(events: Events) {
    match events
    case Opening(_) => true
    case Then(before, event) => Told(PhaseOf(before, event.entry), event) != OutOfOrder && InOrder(before)
  }

  lemma {:induction false} NoPhaseOutOfOrder(events: Events)
    requires forall n: nat :: PhaseOf(events, n) != OutOfOrder
    ensures InOrder(events)
  {
    match events
    case Opening(_) =>
    case Then(before, event) =>
      forall n: nat ensures PhaseOf(before, n) != OutOfOrder {
        assert PhaseOf(events, n) != OutOfOrder;
      }
      NoPhaseOutOfOrder(before);
      assert PhaseOf(events, event.entry) != OutOfOrder;
  }

  /** The events of every entry form its life's story, at every moment of every run. */
  lemma EventsTellALife(w: World)
    requires Reachable(w) && !w.stage.Down?
    ensures InOrder(w.sh.events)
  {
    ReachableIsSound(w);
    forall n: nat ensures PhaseOf(w.sh.events, n) != OutOfOrder {
      assert PhaseFits(PhaseOf(w.sh.events, n), w.stage, w.sh.marks, w.Store(), n);
    }
    NoPhaseOutOfOrder(w.sh.events);
  }

  /** And they tell it all: a reader of the events knows the row, but for an end still to be published. */
  lemma EventsTellTheRow(w: World, n: nat)
    requires Reachable(w) && !w.stage.Down? && n in w.Store().entries
    requires !(w.Current() == Some(n) && (w.stage.Marked? || w.stage.FailMarked?))
    ensures
      var phase, state := PhaseOf(w.sh.events, n), w.Store().entries[n].state;
      && (phase.Waiting? <==> state.Queued?)
      && (phase.Active? <==> state.Running?)
      && (phase.Over? <==> !state.Active())
      && (phase.Active? ==> phase.parking == w.sh.marks.parkPending)
  {
    ReachableIsSound(w);
    assert PhaseFits(PhaseOf(w.sh.events, n), w.stage, w.sh.marks, w.Store(), n);
  }

  // --- holds and parks --------------------------------------------------------------------------

  /** A successful release, or an unpark that released the hold. */
  predicate EndsTheHold(w: World, action: Action)
    requires Enabled(w, action)
  {
    && (action.ReleaseQueue? || action.Unpark?)
    && w.sh.holding.state.held && !AfterControl(w, action).sh.holding.state.held
  }

  predicate SomeStepEndsTheHold(w: World, actions: seq<Action>)
    requires CanRun(w, actions)
    decreases |actions|
  {
    actions != [] && (EndsTheHold(w, actions[0]) || SomeStepEndsTheHold(After(w, actions[0]), actions[1..]))
  }

  predicate SomeClaimGoesThrough(w: World, actions: seq<Action>)
    requires CanRun(w, actions)
    decreases |actions|
  {
    actions != [] &&
      ((actions[0].Claim? && After(w, actions[0]) != w) || SomeClaimGoesThrough(After(w, actions[0]), actions[1..]))
  }

  lemma ControlKeepsTheHold(w: World, action: Action)
    requires w.sh.holding.state.held && IsControl(action) && ControlEnabled(w, action)
    requires !action.ReleaseQueue? && !action.Unpark?
    ensures AfterControl(w, action).sh.holding.state.held
  {
  }

  lemma RestartKeepsTheHold(w: World, action: Action)
    requires w.sh.holding.Coherent() && w.sh.holding.state.held && IsRestart(action) && RestartEnabled(w, action)
    ensures AfterRestart(w, action).sh.holding.state.held
  {
  }

  lemma StepKeepsTheHold(w: World, action: Action)
    requires w.sh.holding.Coherent() && w.sh.holding.state.held && Enabled(w, action) && !EndsTheHold(w, action)
    ensures After(w, action).sh.holding.state.held
    ensures action.Claim? ==> After(w, action) == w
  {
    if IsWorkers(action) {
      assert After(w, action) == AfterWorker(w, action);
    } else if IsRequest(action) {
      assert After(w, action) == AfterRequest(w, action);
    } else if IsControl(action) {
      assert After(w, action) == AfterControl(w, action);
      if !action.ReleaseQueue? && !action.Unpark? {
        ControlKeepsTheHold(w, action);
      }
    } else if IsRestart(action) {
      RestartKeepsTheHold(w, action);
    }
  }

  /** On a held queue nothing is claimed, crashes and restarts included, until a step ends the hold. */
  lemma {:induction false} NothingIsClaimedUntilReleased(w: World, actions: seq<Action>)
    requires Inv(w) && w.sh.holding.state.held && CanRun(w, actions)
    requires !SomeStepEndsTheHold(w, actions)
    ensures RunAll(w, actions).sh.holding.state.held
    ensures !SomeClaimGoesThrough(w, actions)
    decreases |actions|
  {
    if actions != [] {
      StepKeepsInv(w, actions[0]);
      StepKeepsTheHold(w, actions[0]);
      NothingIsClaimedUntilReleased(After(w, actions[0]), actions[1..]);
    }
  }

  /** An accepted park leaves the queue held: between it and the next claim, some step ends the hold. */
  lemma AClaimAfterAParkNeedsARelease(w: World, n: nat, caller: Caller, now: string, saved: bool, actions: seq<Action>)
    requires Inv(w) && !w.stage.Down? && ParkSection(w.sh, n, caller, now, saved).1 == ParkAccepted
    requires CanRun(AfterControl(w, Park(n, caller, now, saved)), actions)
    requires SomeClaimGoesThrough(AfterControl(w, Park(n, caller, now, saved)), actions)
    ensures SomeStepEndsTheHold(AfterControl(w, Park(n, caller, now, saved)), actions)
  {
    var parked := AfterControl(w, Park(n, caller, now, saved));
    ControlKeepsInv(w, Park(n, caller, now, saved));
    assert parked.sh.holding.state.held;
    if !SomeStepEndsTheHold(parked, actions) {
      NothingIsClaimedUntilReleased(parked, actions);
    }
  }

  /** A person's release, or an unpark by a person that released the hold. */
  predicate APersonEndsIt(w: World, action: Action)
    requires Enabled(w, action)
  {
    EndsTheHold(w, action) && !IsAgent(action.caller)
  }

  predicate SomePersonEndsIt(w: World, actions: seq<Action>)
    requires CanRun(w, actions)
    decreases |actions|
  {
    actions != [] && (APersonEndsIt(w, actions[0]) || SomePersonEndsIt(After(w, actions[0]), actions[1..]))
  }

  lemma HoldingKeepsAPersons(w: World, action: Action)
    requires w.sh.holding.state.Persons() && (action.Park? || action.HoldQueue?) && ControlEnabled(w, action)
    ensures AfterControl(w, action).sh.holding.state.Persons()
  {
    var maker := if action.Park? then Some(action.entry) else None;
    PersonsHoldStands(w.sh.holding, [CallHold(maker, action.caller, action.now, action.saved)]);
  }

  lemma ReleasingKeepsAPersons(w: World, action: Action)
    requires w.sh.holding.state.Persons() && (action.Unpark? || action.ReleaseQueue?) && ControlEnabled(w, action)
    requires !AfterControl(w, action).sh.holding.state.held ==> IsAgent(action.caller)
    ensures AfterControl(w, action).sh.holding.state.Persons()
  {
  }

  lemma StepKeepsAPersonsHold(w: World, action: Action)
    requires w.sh.holding.Coherent() && w.sh.holding.state.Persons() && Enabled(w, action) && !APersonEndsIt(w, action)
    ensures After(w, action).sh.holding.state.Persons()
  {
    if IsWorkers(action) {
      assert After(w, action) == AfterWorker(w, action);
    } else if IsRequest(action) {
      assert After(w, action) == AfterRequest(w, action);
    } else if IsControl(action) {
      assert After(w, action) == AfterControl(w, action);
      if action.Park? || action.HoldQueue? {
        HoldingKeepsAPersons(w, action);
      } else if action.Unpark? || action.ReleaseQueue? {
        ReleasingKeepsAPersons(w, action);
      }
    }
  }

  /**
   A person's hold stays a person's through every run, agents' calls and restarts included, until a person ends it.
   */
  lemma {:induction false} APersonsHoldStands(w: World, actions: seq<Action>)
    requires Inv(w) && w.sh.holding.state.Persons() && CanRun(w, actions)
    requires !SomePersonEndsIt(w, actions)
    ensures RunAll(w, actions).sh.holding.state.Persons()
    ensures RunAll(w, actions).sh.holding.Coherent()
    decreases |actions|
  {
    if actions != [] {
      StepKeepsInv(w, actions[0]);
      StepKeepsAPersonsHold(w, actions[0]);
      APersonsHoldStands(After(w, actions[0]), actions[1..]);
    }
  }

  /**
   A release drops the next claim's wait only when no job is running: one that lands earlier leaves the wait as it is.
   */
  lemma OnlyALateReleaseSkipsTheWait(w: World)
    requires Reachable(w) && w.sh.marks.skipWait
    ensures NoneRunning(w.Store())
  {
    ReachableIsSound(w);
  }

  /** The hold is entry `n`'s, by its park. */
  predicate HoldIsOf(h: HoldState, n: nat) {
    h.held && h.maker == Some(n)
  }

  /** The hold is one an agent may not end, asked by an agent. */
  predicate HoldIsForbidden(h: HoldState, caller: Caller) {
    caller == Some("mcp") && h.caller != Some("mcp")
  }

  /**
   An unpark's answer, and all it does: declined when its entry does not run or its park was taken, raised when the
   entry's own hold is a person's asked back by an agent or cannot be deleted, and otherwise accepted. A refusal changes
   nothing; an unpark withdraws the reservation with the hold it made.
   */
  lemma RefusedUnparkChangesNothing(sh: Shared, n: nat, caller: Caller, deleted: bool)
    ensures
      var (after, answer) := UnparkSection(sh, n, caller, deleted);
      var runs := sh.marks.current == Some(n) && !sh.marks.finished;
      var pending := runs && sh.marks.parkPending;
      var untaken := pending && !(sh.marks.started && sh.token.taken);
      var ours := HoldIsOf(sh.holding.state, n);
      && (answer == ParkDeclined <==> !runs || (pending && !untaken))
      && (answer == ParkRaised(NotPermitted) <==> untaken && ours && HoldIsForbidden(sh.holding.state, caller))
      && (answer == ParkRaised(StoreFailed) <==>
            untaken && ours && !HoldIsForbidden(sh.holding.state, caller) && !deleted)
      && (answer == ParkAccepted <==>
            runs && (pending ==> untaken && (ours ==> !HoldIsForbidden(sh.holding.state, caller) && deleted)))
      && (answer != ParkAccepted || !pending ==> after == sh)
      && (answer == ParkAccepted && pending ==>
            && after.store == sh.store && after.stopping == sh.stopping
            && after.marks == sh.marks.(parkPending := false)
            && after.token == (if sh.marks.started then sh.token.(park := false) else sh.token)
            && after.holding == (if ours then Holding(NOT_HELD, None) else sh.holding)
            && after.events == Then(sh.events, ParkChanged(n, false)))
  {
  }

  /** So an agent never withdraws a park whose hold is a person's: it is refused, and reservation and hold stand. */
  lemma AnAgentKeepsAPersonsPark(sh: Shared, n: nat, deleted: bool)
    requires sh.marks.parkPending && HoldIsOf(sh.holding.state, n) && sh.holding.state.caller != Some("mcp")
    ensures UnparkSection(sh, n, Some("mcp"), deleted).1 != ParkAccepted
    ensures UnparkSection(sh, n, Some("mcp"), deleted).0 == sh
  {
    RefusedUnparkChangesNothing(sh, n, Some("mcp"), deleted);
  }

  /**
   A park's answer, and all it does: declined when its entry does not run or a stop is asked for it, raised when the
   hold cannot be saved; accepted, it is reserved with the queue held, its token told once, and its event published
   once.
   */
  lemma AParkReservesAndHolds(sh: Shared, n: nat, caller: Caller, now: string, saved: bool)
    ensures
      var (after, answer) := ParkSection(sh, n, caller, now, saved);
      var runs := sh.marks.current == Some(n) && !sh.marks.finished && sh.marks.stop == None;
      && (answer == ParkDeclined <==> !runs)
      && (runs && saved ==> answer == ParkAccepted)
      && (runs && !saved && !sh.holding.state.held ==> answer == ParkRaised(StoreFailed))
      && (answer != ParkAccepted ==> after == sh)
      && (answer == ParkAccepted ==>
            && after.store == sh.store && after.stopping == sh.stopping
            && after.marks == sh.marks.(parkPending := true) && after.holding.state.held
            && (!sh.holding.state.held ==> after.holding.state == HoldState(true, Some(now), Some(n), caller))
            && after.token == (if sh.marks.started && !sh.marks.parkPending then sh.token.Parked() else sh.token)
            && after.events == (if sh.marks.parkPending then sh.events else Then(sh.events, ParkChanged(n, true))))
  {
  }

  /**
   On a queue not held, an unpark by the same caller undoes a park: the hold, the reservation and the token's park.
   */
  lemma AnUnparkUndoesItsPark(sh: Shared, n: nat, caller: Caller, now: string)
    requires sh.marks.current == Some(n) && !sh.marks.finished && sh.marks.stop == None && !sh.marks.parkPending
    requires sh.holding == Holding(NOT_HELD, None)
    requires sh.marks.started ==> sh.token.running && !sh.token.park && !sh.token.taken
    ensures
      var parked := ParkSection(sh, n, caller, now, true).0;
      var (after, answer) := UnparkSection(parked, n, caller, true);
      && parked.holding.state.held && parked.marks.parkPending && (sh.marks.started ==> parked.token.park)
      && answer == ParkAccepted
      && after.store == sh.store && after.holding == sh.holding && after.marks == sh.marks
      && after.token == if sh.marks.started then sh.token.(parks := sh.token.parks + 1) else sh.token
  {
  }

  /**
   A release's skip mark, exactly: set by one that ended the hold with nothing claimed, or what was claimed finished.
   */
  lemma AReleaseSkipsExactlyWhen(sh: Shared, caller: Caller, deleted: bool)
    ensures
      var (after, outcome) := ReleaseSection(sh, caller, deleted);
      var ended := sh.holding.state.held && !HoldIsForbidden(sh.holding.state, caller) && deleted;
      && (outcome == Done(true) <==> ended)
      && after.holding == (if ended then Holding(NOT_HELD, None) else sh.holding)
      && after.marks == sh.marks.(
           skipWait := sh.marks.skipWait || (ended && (sh.marks.current == None || sh.marks.finished)))
      && after == sh.(holding := after.holding, marks := after.marks)
  {
  }

  /** The entry has no reservation that could still park it, and has not parked. */
  predicate NotParkingAt(stage: Stage, marks: Marks, e: Entry, row: Option<Execution>, n: nat) {
    && !e.state.Parked?
    && (row.Some? && e.state.Active() ==> !row.value.status.JobParked?)
    && (marks.current == Some(n) && !HasFinished(stage) ==> !marks.parkPending)
  }

  predicate NotParking(w: World, n: nat) {
    && n in w.Store().entries
    && NotParkingAt(w.stage, w.sh.marks, w.Store().entries[n], RowOf(w.Store(), w.Store().entries[n]), n)
  }

  predicate Reserves(w: World, action: Action, n: nat)
    requires Enabled(w, action)
  {
    action.Park? && w.Current() == Some(n) && !w.sh.marks.parkPending && After(w, action).sh.marks.parkPending
  }

  predicate SomeStepReserves(w: World, actions: seq<Action>, n: nat)
    requires CanRun(w, actions)
    decreases |actions|
  {
    actions != [] && (Reserves(w, actions[0], n) || SomeStepReserves(After(w, actions[0]), actions[1..], n))
  }

  lemma ClaimKeepsNotParking(w: World, n: nat)
    requires NotParking(w, n) && EntriesOk(w.Store(), w.ledger) && w.stage.Idle? && MarksOk(w.stage, w.sh.marks)
    ensures NotParking(AfterClaim(w), n)
  {
    assert EntryOk(w.Store(), w.ledger, n);
  }

  lemma MoveKeepsNotParking(w: World, move: Move, n: nat)
    requires NotParking(w, n) && MoveEnabled(w, move) && StageOk(w)
    ensures NotParking(AfterMove(w, move), n)
  {
  }

  /** What a setup step leaves of each entry: only the claimed one's execution may change. */
  lemma SetupKeepsNotParking(w: World, action: Action, n: nat)
    requires NotParking(w, n) && MarksOk(w.stage, w.sh.marks) && RunningOk(w.stage, w.sh.marks, w.Store())
    requires NumbersFresh(w.stage, w.Store()) && IsSetup(action) && SetupEnabled(w, action)
    ensures NotParking(AfterSetup(w, action), n)
  {
  }

  lemma ReportKeepsNotParking(w: World, n: nat)
    requires NotParking(w, n) && MarksOk(w.stage, w.sh.marks) && TokenOk(w.stage, w.sh.marks, w.sh.token)
    requires StageOk(w) && LinkedOnce(w.Store()) && AroundEnabled(w, Report)
    ensures NotParking(AfterAround(w, Report), n)
  {
    if w.Store().entries[n].execution == Some(w.stage.execution) {
      assert w.Current() == Some(n);
    } else {
      assert RowOf(AfterAround(w, Report).Store(), w.Store().entries[n]) == RowOf(w.Store(), w.Store().entries[n]);
    }
  }

  lemma AroundKeepsNotParking(w: World, action: Action, n: nat)
    requires NotParking(w, n) && MarksOk(w.stage, w.sh.marks) && TokenOk(w.stage, w.sh.marks, w.sh.token)
    requires StageOk(w) && LinkedOnce(w.Store()) && IsAround(action) && AroundEnabled(w, action)
    ensures NotParking(AfterAround(w, action), n)
  {
    if action.Report? {
      ReportKeepsNotParking(w, n);
    }
  }

  lemma FinishKeepsNotParking(w: World, action: Action, n: nat)
    requires NotParking(w, n) && MarksAndTokenOk(w.stage, w.sh) && StageOk(w)
    requires IsFinish(action) && FinishEnabled(w, action)
    ensures NotParking(AfterFinish(w, action), n)
  {
  }

  lemma WorkerKeepsNotParking(w: World, action: Action, n: nat)
    requires Inv(w) && NotParking(w, n) && IsWorkers(action) && WorkerEnabled(w, action)
    ensures NotParking(AfterWorker(w, action), n)
  {
    if action.Claim? {
      ClaimKeepsNotParking(w, n);
    } else if action.Work? {
      MoveKeepsNotParking(w, action.move, n);
    } else if IsSetup(action) {
      SetupKeepsNotParking(w, action, n);
    } else if IsAround(action) {
      AroundKeepsNotParking(w, action, n);
    } else if IsFinish(action) {
      FinishKeepsNotParking(w, action, n);
    }
  }

  lemma RequestKeepsNotParking(w: World, action: Action, n: nat)
    requires NotParking(w, n) && NumbersBelow(w.Store()) && IsRequest(action) && RequestEnabled(w, action)
    ensures NotParking(AfterRequest(w, action), n)
  {
  }

  lemma ControlKeepsNotParking(w: World, action: Action, n: nat)
    requires NotParking(w, n) && IsControl(action) && ControlEnabled(w, action)
    requires !(action.Park? && w.Current() == Some(n) && !w.sh.marks.parkPending &&
               AfterControl(w, action).sh.marks.parkPending)
    ensures NotParking(AfterControl(w, action), n)
  {
  }

  lemma RestartKeepsNotParking(w: World, action: Action, n: nat)
    requires NotParking(w, n) && IsRestart(action) && RestartEnabled(w, action)
    ensures NotParking(AfterRestart(w, action), n)
  {
  }

  lemma StepKeepsNotParking(w: World, action: Action, n: nat)
    requires Inv(w) && NotParking(w, n) && Enabled(w, action) && !Reserves(w, action, n)
    ensures NotParking(After(w, action), n)
  {
    if IsWorkers(action) {
      WorkerKeepsNotParking(w, action, n);
    } else if IsRequest(action) {
      RequestKeepsNotParking(w, action, n);
    } else if IsControl(action) {
      ControlKeepsNotParking(w, action, n);
    } else if IsRestart(action) {
      RestartKeepsNotParking(w, action, n);
    }
  }

  /**
   After an accepted unpark, that entry never ends parked, crashes included, unless a later park reserves it again.
   */
  lemma {:induction false} AnUnparkedEntryNeverParks(w: World, actions: seq<Action>, n: nat)
    requires Inv(w) && NotParking(w, n) && CanRun(w, actions)
    requires !SomeStepReserves(w, actions, n)
    ensures NotParking(RunAll(w, actions), n)
    decreases |actions|
  {
    if actions != [] {
      StepKeepsInv(w, actions[0]);
      StepKeepsNotParking(w, actions[0], n);
      AnUnparkedEntryNeverParks(After(w, actions[0]), actions[1..], n);
    }
  }

  lemma AnAcceptedUnparkIsNotParking(w: World, n: nat, caller: Caller, deleted: bool)
    requires Inv(w) && !w.stage.Down? && UnparkSection(w.sh, n, caller, deleted).1 == ParkAccepted
    ensures NotParking(AfterControl(w, Unpark(n, caller, deleted)), n)
  {
    var after := AfterControl(w, Unpark(n, caller, deleted));
    ControlKeepsInv(w, Unpark(n, caller, deleted));
    assert EntryOk(after.Store(), after.ledger, n);
  }

  // --- crashes ----------------------------------------------------------------------------------

  /** Before the execution's row is written, so before any run of it. */
  predicate NothingRecorded(stage: Stage) {
    stage.Claimed? || stage.Begun? || stage.Numbered? || stage.Tied? || stage.FailOpen?
  }

  /**
   A crash anywhere requeues the claimed entry exactly when no execution of it was recorded, and then none of its runs
   had started.
   */
  lemma ACrashRequeuesOnlyTheUnstarted(w: World, n: nat)
    requires Reachable(w) && !w.stage.Down? && n in w.Store().entries && w.Store().entries[n].state.Running?
    ensures OlderLinks(w.Store())
    ensures
      var recovered := RecoveredStore(w.Store()).entries[n];
      && (recovered.state.Queued? <==> NothingRecorded(w.stage))
      && (recovered.state.Queued? ==> RunsOf(w.ledger, n) == [] && recovered.execution.None?)
      && (recovered.state.Succeeded? ==> |ChainRuns(w.Store(), w.ledger, n)| == w.Store().entries[n].total)
  {
    ReachableIsSound(w);
    RecoveryIsExact(w.Store(), n);
    ChainIsConsecutive(w.Store(), w.ledger, n);
    assert EntryOk(w.Store(), w.ledger, n);
  }

  /** The steps between two processes make the store that recovery specifies. */
  lemma RecoveringTheOneIsRecovering(s: Store, n: nat)
    requires n in s.entries && s.entries[n].state.Running?
    requires forall m | m in s.entries && s.entries[m].state.Running? :: m == n
    ensures EntryRecovered(Swept(s), n) == RecoveredStore(s)
    ensures NoneRunning(RecoveredStore(s))
  {
    assert EntryRecovered(Swept(s), n).entries == RecoveredStore(s).entries;
  }

  lemma RestartRecovers(w: World)
    requires Inv(w) && w.stage == Down(false)
    ensures
      var swept := AfterRestart(w, SweepRows);
      if NoneRunning(w.Store()) then swept.Store() == RecoveredStore(w.Store()) && RestartEnabled(swept, Serve)
      else exists n ::
        && RestartEnabled(swept, RecoverRow(n))
        && AfterRestart(swept, RecoverRow(n)).Store() == RecoveredStore(w.Store())
        && RestartEnabled(AfterRestart(swept, RecoverRow(n)), Serve)
  {
    var s, swept := w.Store(), AfterRestart(w, SweepRows);
    if !NoneRunning(s) {
      var n :| n in s.entries && s.entries[n].state.Running?;
      RecoveringTheOneIsRecovering(s, n);
      assert RestartEnabled(swept, RecoverRow(n));
    } else {
      assert RecoveredStore(s).entries == s.entries;
    }
  }

  // --- resumes ----------------------------------------------------------------------------------

  /**
   Through any history, the succeeded runs along any chain are 1 to k; an entry reads succeeded only when k is the
   whole chain, and parked only with runs made and runs left; each entry is resumed at most once.
   */
  lemma ChainsAreWhole(w: World, n: nat, m: nat)
    requires Reachable(w) && n in w.Store().entries && m in w.Store().entries
    ensures OlderLinks(w.Store())
    ensures
      var runs, e := ChainRuns(w.Store(), w.ledger, n), w.Store().entries[n];
      && NumberedFrom(runs, 1)
      && |runs| <= e.total
      && (e.state.Succeeded? ==> |runs| == e.total)
      && (e.state.Parked? ==> 0 < |runs| < e.total)
    ensures n != m && w.Store().entries[n].resumes.Some? ==>
              w.Store().entries[n].resumes != w.Store().entries[m].resumes
  {
    ReachableIsSound(w);
    ChainIsConsecutive(w.Store(), w.ledger, n);
  }

  /** And a resume starts at run k + 1, or is refused for what is so. */
  lemma ResumesContinueTheChain(w: World, n: nat)
    requires Reachable(w) && n in w.Store().entries
    ensures OlderLinks(w.Store())
    ensures
      var made := |ChainRuns(w.Store(), w.ledger, n)|;
      match Resolve(w.Store(), n)
      case ResumeAt(first, _) => first == made + 1 && 0 < made < w.Store().entries[n].total
      case Refused(NoSucceededRun) => made == 0
      case Refused(AlreadyFinished) => made == w.Store().entries[n].total
      case Refused(ChainGone) => !Intact(w.Store(), n)
  {
    ReachableIsSound(w);
    ChainIsConsecutive(w.Store(), w.ledger, n);
    ResolveIsTheNextRun(w.Store(), w.ledger, n);
  }

  /** Every deletion the queue ever makes is exact about the resumes it ends. */
  lemma DeletionsAreExact(w: World, numbers: seq<nat>, n: nat)
    requires Reachable(w) && n in w.Store().entries
    ensures OlderLinks(w.Store()) && NumbersBelow(w.Store())
    ensures
      var deleted := DeletedOf(w.Store(), numbers);
      && OlderLinks(Without(w.Store(), deleted))
      && ((exists x :: EndedBy(w.Store(), deleted, x, n)) <==>
            CanResume(w.Store(), n) && !CanResume(Without(w.Store(), deleted), n))
      && (w.Store().entries[n].state.Active() ==> Resolve(Without(w.Store(), deleted), n) == Resolve(w.Store(), n))
  {
    ReachableIsSound(w);
    ResumedHaveFinished(w.Store(), w.ledger);
    EndedIsExact(w.Store(), numbers, n);
    if w.Store().entries[n].state.Active() {
      ActiveChainsSurvive(w.Store(), numbers, n, Deletion);
    }
  }
}
