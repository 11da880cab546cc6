/**
 What a park, an unpark or a cancel tells its client is true, whatever the other threads did between the row it read,
 the worker's section and what it read after that.
 */
module TrueRefusals {
  import opened Options
  import opened Callers
  import opened QueueStore
  import opened ChainSteps
  import opened QueueWorkers
  import opened QueueRequests
  import opened QueueMachine
  import opened QueueInvariant
  import opened QueueTheorems

  /** The entry's park can no longer be withdrawn. */
  predicate ParkTaken(sh: Shared) {
    sh.marks.started && sh.marks.parkPending && sh.token.taken
  }

  /** If the entry still runs, it did, for the same stop if it had one, and parking if its park was taken. */
  predicate Kept(sh: Shared, after: Shared, n: nat) {
    after.marks.IsRunning(n) ==>
      && sh.marks.IsRunning(n)
      && (sh.marks.stop.Some? ==> after.marks.stop == sh.marks.stop)
      && (ParkTaken(sh) ==> ParkTaken(after))
  }

  lemma ClaimKeepsRunning(w: World, n: nat)
    requires w.stage.Idle? && n in w.Store().entries && !w.Store().entries[n].state.Queued?
    requires MarksOk(w.stage, w.sh.marks)
    ensures Kept(w.sh, AfterClaim(w).sh, n)
  {
  }

  lemma MoveKeepsRunning(w: World, move: Move, n: nat)
    requires MoveEnabled(w, move)
    ensures Kept(w.sh, AfterMove(w, move).sh, n)
  {
  }

  lemma SetupKeepsRunning(w: World, action: Action, n: nat)
    requires IsSetup(action) && SetupEnabled(w, action) && MarksOk(w.stage, w.sh.marks)
    ensures Kept(w.sh, AfterSetup(w, action).sh, n)
  {
  }

  lemma AroundKeepsRunning(w: World, action: Action, n: nat)
    requires IsAround(action) && AroundEnabled(w, action) && MarksOk(w.stage, w.sh.marks)
    ensures Kept(w.sh, AfterAround(w, action).sh, n)
  {
  }

  lemma FinishKeepsRunning(w: World, action: Action, n: nat)
    requires IsFinish(action) && FinishEnabled(w, action)
    ensures Kept(w.sh, AfterFinish(w, action).sh, n)
  {
  }

  lemma WorkerKeepsRunning(w: World, action: Action, n: nat)
    requires IsWorkers(action) && WorkerEnabled(w, action) && MarksOk(w.stage, w.sh.marks)
    requires n in w.Store().entries && !w.Store().entries[n].state.Queued?
    ensures Kept(w.sh, AfterWorker(w, action).sh, n)
  {
    if action.Claim? {
      ClaimKeepsRunning(w, n);
    } else if action.Work? {
      MoveKeepsRunning(w, action.move, n);
    } else if IsSetup(action) {
      SetupKeepsRunning(w, action, n);
    } else if IsAround(action) {
      AroundKeepsRunning(w, action, n);
    } else if IsFinish(action) {
      FinishKeepsRunning(w, action, n);
    }
  }

  lemma ParkKeepsRunning(sh: Shared, m: nat, caller: Caller, now: string, saved: bool, n: nat)
    ensures Kept(sh, ParkSection(sh, m, caller, now, saved).0, n)
  {
  }

  lemma UnparkKeepsRunning(sh: Shared, m: nat, caller: Caller, deleted: bool, n: nat)
    ensures Kept(sh, UnparkSection(sh, m, caller, deleted).0, n)
  {
  }

  lemma ControlKeepsRunning(w: World, action: Action, n: nat)
    requires IsControl(action) && ControlEnabled(w, action)
    ensures Kept(w.sh, AfterControl(w, action).sh, n)
  {
    if action.Park? {
      ParkKeepsRunning(w.sh, action.entry, action.caller, action.now, action.saved, n);
    } else if action.Unpark? {
      UnparkKeepsRunning(w.sh, action.entry, action.caller, action.deleted, n);
    }
  }

  lemma StepKeepsRunning(w: World, action: Action, n: nat)
    requires Enabled(w, action) && !action.Crash? && !w.stage.Down? && MarksOk(w.stage, w.sh.marks)
    requires n in w.Store().entries && !w.Store().entries[n].state.Queued?
    ensures Kept(w.sh, After(w, action).sh, n)
  {
    if IsWorkers(action) {
      WorkerKeepsRunning(w, action, n);
    } else if IsControl(action) {
      ControlKeepsRunning(w, action, n);
    }
  }

  /** One process's steps from one moment to a later one. */
  predicate Reaches(w: World, actions: seq<Action>, later: World) {
    CanRun(w, actions) && NoCrash(actions) && RunAll(w, actions) == later
  }

  /** The row no longer waits, and reads running while the entry is claimed and not finished. */
  predicate RowTells(w: World, n: nat) {
    && n in w.Store().entries
    && !w.Store().entries[n].state.Queued?
    && (w.Store().entries[n].state.Running? <==> w.sh.marks.IsRunning(n))
  }

  lemma SoundRowTells(w: World, n: nat)
    requires Inv(w) && !w.stage.Down? && n in w.Store().entries && !w.Store().entries[n].state.Queued?
    ensures RowTells(w, n) && MarksOk(w.stage, w.sh.marks)
  {
  }

  lemma OneStepIsKept(w: World, action: Action, n: nat)
    requires Inv(w) && !w.stage.Down? && Enabled(w, action) && !action.Crash? && RowTells(w, n)
    ensures Inv(After(w, action)) && !After(w, action).stage.Down? && RowTells(After(w, action), n)
    ensures Kept(w.sh, After(w, action).sh, n)
  {
    assert CanRun(w, [action]);
    NoLongerWaiting(w, [action], n);
    SoundRowTells(w, n);
    StepKeepsRunning(w, action, n);
    SoundRowTells(After(w, action), n);
  }

  lemma KeptOn(sh: Shared, next: Shared, later: Shared, n: nat)
    requires Kept(sh, next, n) && Kept(next, later, n)
    ensures Kept(sh, later, n)
  {
  }

  lemma {:induction false} RunningIsKept(w: World, actions: seq<Action>, later: World, n: nat)
    requires Inv(w) && !w.stage.Down? && Reaches(w, actions, later) && RowTells(w, n)
    ensures Inv(later) && !later.stage.Down? && RowTells(later, n)
    ensures Kept(w.sh, later.sh, n)
    decreases |actions|
  {
    if actions != [] {
      var next := After(w, actions[0]);
      OneStepIsKept(w, actions[0], n);
      RunningIsKept(next, actions[1..], later, n);
      KeptOn(w.sh, next.sh, later.sh, n);
    }
  }

  lemma {:induction false} EntriesStay(w: World, actions: seq<Action>, later: World, n: nat)
    requires Inv(w) && !w.stage.Down? && Reaches(w, actions, later) && n in w.Store().entries
    ensures Inv(later) && !later.stage.Down? && n in later.Store().entries
    decreases |actions|
  {
    if actions != [] {
      StepKeepsInv(w, actions[0]);
      StepKeepsTerms(w, actions[0], n);
      UpStaysUp(w, actions[0]);
      EntriesStay(After(w, actions[0]), actions[1..], later, n);
    }
  }

  lemma WhatTwoMomentsKeep(
    w: World, first: seq<Action>, section: World, between: seq<Action>, second: World, n: nat)
    requires Reachable(w) && !w.stage.Down? && n in w.Store().entries && w.Store().entries[n].state.Running?
    requires Reaches(w, first, section) && Reaches(section, between, second)
    ensures RowTells(section, n) && RowTells(second, n) && Kept(section.sh, second.sh, n)
  {
    ReachableIsSound(w);
    SoundRowTells(w, n);
    RunningIsKept(w, first, section, n);
    RunningIsKept(section, between, second, n);
  }

  lemma WhatThreeMomentsKeep(
    w: World, first: seq<Action>, section: World, between: seq<Action>, second: World, rest: seq<Action>, last: World,
    n: nat)
    requires Reachable(w) && !w.stage.Down? && n in w.Store().entries && w.Store().entries[n].state.Running?
    requires Reaches(w, first, section) && Reaches(section, between, second) && Reaches(second, rest, last)
    ensures RowTells(section, n) && RowTells(second, n) && RowTells(last, n)
    ensures Kept(section.sh, second.sh, n) && Kept(second.sh, last.sh, n)
  {
    ReachableIsSound(w);
    SoundRowTells(w, n);
    RunningIsKept(w, first, section, n);
    RunningIsKept(section, between, second, n);
    RunningIsKept(second, rest, last, n);
  }

  /**
   A park that read its entry running and was declined names the stop that was marked for the entry when it was
   declined, or the state the entry ended in; never that it waits or runs.
   */
  lemma AParkRefusalIsTrue(
    w: World, first: seq<Action>, section: World, between: seq<Action>, second: World, rest: seq<Action>, last: World,
    n: nat, caller: Caller, now: string, saved: bool)
    requires Reachable(w) && !w.stage.Down? && n in w.Store().entries && w.Store().entries[n].state.Running?
    requires Reaches(w, first, section) && Reaches(section, between, second) && Reaches(second, rest, last)
    requires ParkSection(section.sh, n, caller, now, saved).1.ParkDeclined?
    ensures
      var answer := ParkAnswered(Looks(section.sh, second.sh, section.sh, last.sh), n, ParkDeclined);
      if answer.RefusedStopping? then section.sh.marks.IsRunning(n) && section.sh.marks.stop == Some(answer.reason)
      else
        && n in last.Store().entries
        && !last.Store().entries[n].state.Active()
        && answer == RefusedAs(last.Store().entries[n].state)
  {
    WhatThreeMomentsKeep(w, first, section, between, second, rest, last, n);
  }

  /**
   An unpark that read its entry running and was declined says it has parked exactly when it has, or its park was taken
   by then and it still runs; otherwise it names the other state the entry ended in.
   */
  lemma AnUnparkRefusalIsTrue(
    w: World, first: seq<Action>, section: World, rest: seq<Action>, last: World, n: nat, caller: Caller, deleted: bool)
    requires Reachable(w) && !w.stage.Down? && n in w.Store().entries && w.Store().entries[n].state.Running?
    requires Reaches(w, first, section) && Reaches(section, rest, last)
    requires UnparkSection(section.sh, n, caller, deleted).1.ParkDeclined?
    ensures
      var answer := UnparkAnswered(Looks(section.sh, section.sh, section.sh, last.sh), n, ParkDeclined);
      && n in last.Store().entries
      && var state := last.Store().entries[n].state;
      && !state.Queued?
      && (answer.RefusedParked? <==> state.Parked? || state.Running?)
      && (state.Running? ==> ParkTaken(section.sh) && ParkTaken(last.sh))
      && (!answer.RefusedParked? ==> answer == RefusedAs(state) && !state.Active())
  {
    WhatTwoMomentsKeep(w, first, section, rest, last, n);
  }

  /** An entry read active that a cancel did not find waiting reads running from then on just while it is claimed. */
  lemma APassedEntryIsTold(
    w: World, first: seq<Action>, section: World, between: seq<Action>, second: World, n: nat)
    requires Reachable(w) && !w.stage.Down? && n in w.Store().entries && w.Store().entries[n].state.Active()
    requires Reaches(w, first, section) && Reaches(section, between, second)
    ensures n in section.Store().entries
    ensures w.Store().entries[n].state.Running? || !IsQueued(section.sh, n) ==> RowTells(second, n)
  {
    ReachableIsSound(w);
    EntriesStay(w, first, section, n);
    if w.Store().entries[n].state.Running? {
      WhatTwoMomentsKeep(w, first, section, between, second, n);
    } else if !IsQueued(section.sh, n) {
      SoundRowTells(section, n);
      RunningIsKept(section, between, second, n);
    }
  }

  /** A cancel of an entry it read active either cancels it waiting, or marks its stop, or found that it had ended. */
  lemma ACancelTellsTrue(
    w: World, first: seq<Action>, section: World, between: seq<Action>, second: World, n: nat)
    requires Reachable(w) && !w.stage.Down? && n in w.Store().entries && w.Store().entries[n].state.Active()
    requires Reaches(w, first, section) && Reaches(section, between, second)
    ensures
      var waiting := w.Store().entries[n].state.Queued?;
      var answer := CancelAnswered(Looks(section.sh, second.sh, second.sh, second.sh), n, waiting);
      if answer.CancelledWaiting? then
        && n in section.Store().entries
        && CancelQueuedSection(section.sh, n).0.store == WithState(section.Store(), n, Cancelled)
      else
        var (left, accepted) := CancelRunningSection(second.sh, n);
        && n in second.Store().entries
        && (if accepted then left.marks.current == Some(n) && left.marks.stop.Some?
            else !second.Store().entries[n].state.Active())
  {
    APassedEntryIsTold(w, first, section, between, second, n);
  }
}
