/**
 A stop that reaches another entry's job, in full: the first entry's cancel is accepted, its token call waits, the entry
 ends; the second is claimed and started; the call stops it, and it reads failed though nobody cancelled it.
 */
module StrayStop {
  import opened Options
  import opened CancelTokens
  import opened QueueHolds
  import opened QueueStore
  import opened ChainSteps
  import opened QueueWorkers
  import opened QueueMachine
  import opened QueueTheorems
  import opened StopHistory

  const STEPS := 22

  function ActionAt(k: nat): Action {
    match k
    case 0 => SweepRows
    case 1 => Serve
    case 2 => Submit(1, None)
    case 3 => Submit(1, None)
    case 4 => Claim
    case 5 => CancelRunning(0)
    case 6 => FailParse
    case 7 => MarkFailed
    case 8 => PublishFailed
    case 9 => LetGo
    case 10 => Claim
    case 11 => BeginToken
    case 12 => TakeNumber
    case 13 => Link
    case 14 => OpenRow
    case 15 => Guard
    case 16 => GuardCall
    case 17 => CallToken(Some(0))
    case 18 => Work(CheckStop)
    case 19 => Report
    case 20 => Decide
    case _ => Mark
  }

  // --- the worlds passed through ------------------------------------------------------------------

  function OneRun(state: QueueState, execution: Option<nat>): Entry {
    Entry(state, execution, None, None, 1, 1, None)
  }

  function RowsAt(k: nat): Store {
    if k <= 2 then NO_ROWS
    else if k == 3 then QueueStore.Store(map[0 := OneRun(Queued, None)], map[], 1, 0)
    else
      var first := OneRun(if k == 4 then Queued else if k <= 7 then Running else QueueState.Failed, None);
      var second := OneRun(if k <= 10 then Queued else if k <= 21 then Running else QueueState.Failed,
                           if k <= 13 then None else Some(0));
      var executions :=
        if k <= 14 then map[] else map[0 := Execution(if k <= 19 then JobRunning else JobInterrupted, Some(1), [])];
      QueueStore.Store(map[0 := first, 1 := second], executions, 2, if k <= 12 then 0 else 1)
  }

  function EventsAt(k: nat): Events {
    var e1 := if k < 3 then Opening(NO_ROWS) else Then(Opening(NO_ROWS), EntryChanged(0, Queued));
    var e2 := if k < 4 then e1 else Then(e1, EntryChanged(1, Queued));
    var e3 := if k < 5 then e2 else Then(e2, EntryChanged(0, Running));
    var e4 := if k < 9 then e3 else Then(e3, EntryChanged(0, QueueState.Failed));
    if k < 11 then e4 else Then(e4, EntryChanged(1, Running))
  }

  function MarksAt(k: nat): Marks {
    if k < 5 then NO_MARKS
    else if k == 5 then NO_MARKS.(current := Some(0))
    else if k < 11 then
      Marks(if k == 10 then None else Some(0), Some(StopForCancel), true, false, false, k >= 8, false)
    else Marks(Some(1), None, false, false, k >= 16, k >= 22, false)
  }

  function StageAt(k: nat): Stage {
    match k
    case 0 => Down(false)
    case 1 => Down(true)
    case 2 => Idle
    case 3 => Idle
    case 4 => Idle
    case 5 => Claimed
    case 6 => Claimed
    case 7 => FailOpen
    case 8 => FailMarked
    case 9 => Leaving
    case 10 => Idle
    case 11 => Claimed
    case 12 => Begun
    case 13 => Numbered(0)
    case 14 => Tied(0)
    case 15 => Stage.Opened(0)
    case 16 => Guarded(0, false)
    case 17 => Working(0, Top(1))
    case 18 => Working(0, Top(1))
    case 19 => Working(0, Ending(JobInterrupted))
    case 20 => Reported(0, JobInterrupted)
    case 21 => Decided(0, QueueState.Failed)
    case _ => Stage.Marked(QueueState.Failed)
  }

  function WorldAt(k: nat): World {
    World(
      Shared(RowsAt(k), Holding(NOT_HELD, None), if k < 12 then IDLE_TOKEN else Token(true, k >= 18, false, false, 0),
             MarksAt(k), false, EventsAt(k)),
      StageAt(k),
      if 6 <= k <= 17 then multiset{Some(0)} else multiset{},
      None, map[], if k < 6 then {} else {0}, if k < 5 then [] else if k < 11 then [0] else [0, 1], false)
  }

  function PastAt(k: nat): Past {
    Past(if k < 6 then map[] else map[0 := StopForCancel], if k < 6 then {} else {0}, if k < 18 then {} else {1},
         if k < 22 then {} else {1})
  }

  // --- step by step -----------------------------------------------------------------------------

  predicate StepsOn(k: nat) {
    && Enabled(WorldAt(k), ActionAt(k))
    && After(WorldAt(k), ActionAt(k)) == WorldAt(k + 1)
    && PastAfter(PastAt(k), WorldAt(k), ActionAt(k)) == PastAt(k + 1)
  }

  lemma TheProcessStarts(k: nat)
    requires k <= 1
    ensures StepsOn(k)
  {
    assert Swept(NO_ROWS) == NO_ROWS;
  }

  lemma TwoAreSubmitted(k: nat)
    requires 2 <= k <= 3
    ensures StepsOn(k)
  {
  }

  lemma TheFirstIsClaimed()
    ensures StepsOn(4)
  {
    assert OldestFrom(RowsAt(4), 0) == Some(0);
  }

  lemma TheCancelIsAccepted()
    ensures Enabled(WorldAt(5), CancelRunning(0)) && After(WorldAt(5), CancelRunning(0)) == WorldAt(6)
  {
    var w := WorldAt(5);
    assert CancelRunningSection(w.sh, 0) == (WorldAt(6).sh, true);
    assert multiset{} + multiset{Some(0)} == multiset{Some(0)};
    assert After(w, CancelRunning(0)) == AfterControl(w, CancelRunning(0)) == WorldAt(6);
  }

  lemma TheFirstIsCancelled()
    ensures StepsOn(5)
  {
    TheCancelIsAccepted();
    assert NotedControl(PastAt(5), WorldAt(5), CancelRunning(0)) == PastAt(6);
  }

  lemma TheFirstFailsToParse()
    ensures StepsOn(6)
  {
    assert After(WorldAt(6), FailParse) == AfterSetup(WorldAt(6), FailParse) == WorldAt(7);
  }

  lemma TheFirstIsMarked()
    ensures StepsOn(7)
  {
    assert FailedToStart(RowsAt(7), 0) == RowsAt(8);
    assert After(WorldAt(7), MarkFailed) == AfterFinish(WorldAt(7), MarkFailed) == WorldAt(8);
  }

  lemma TheFirstIsPublished()
    ensures StepsOn(8)
  {
    assert After(WorldAt(8), PublishFailed) == AfterFinish(WorldAt(8), PublishFailed) == WorldAt(9);
  }

  lemma TheFirstIsLetGo()
    ensures StepsOn(9)
  {
    assert After(WorldAt(9), LetGo) == AfterFinish(WorldAt(9), LetGo) == WorldAt(10);
  }

  lemma TheSecondIsOldest()
    ensures OldestQueued(RowsAt(10)) == Some(1)
    ensures WithState(RowsAt(10), 1, Running) == RowsAt(11)
  {
    assert OldestFrom(RowsAt(10), 1) == Some(1);
    assert OldestFrom(RowsAt(10), 0) == OldestFrom(RowsAt(10), 1);
  }

  lemma TheSecondIsClaimed()
    ensures StepsOn(10)
  {
    TheSecondIsOldest();
    assert ClaimSection(WorldAt(10).sh) == (WorldAt(11).sh, ClaimedOne(1));
    assert After(WorldAt(10), Claim) == AfterClaim(WorldAt(10)) == WorldAt(11);
    assert PastAfter(PastAt(10), WorldAt(10), Claim) == NotedClaim(PastAt(10), WorldAt(10)) == Forgotten(PastAt(10), 1);
    assert Forgotten(PastAt(10), 1) == PastAt(11);
  }

  lemma TheSecondBegins(k: nat)
    requires 11 <= k <= 12
    ensures StepsOn(k)
  {
  }

  lemma TheSecondIsRecorded(k: nat)
    requires 13 <= k <= 14
    ensures StepsOn(k)
  {
  }

  lemma TheSecondIsGuarded()
    ensures StepsOn(15)
  {
    assert GuardSection(WorldAt(15).sh) == (WorldAt(16).sh, false);
    assert After(WorldAt(15), Guard) == AfterAround(WorldAt(15), Guard) == WorldAt(16);
  }

  lemma TheSecondStarts()
    ensures StepsOn(16)
  {
    assert After(WorldAt(16), GuardCall) == AfterAround(WorldAt(16), GuardCall) == WorldAt(17);
  }

  lemma TheCallGetsThrough()
    ensures Enabled(WorldAt(17), CallToken(Some(0))) && After(WorldAt(17), CallToken(Some(0))) == WorldAt(18)
  {
    var w := WorldAt(17);
    assert w.calls - multiset{Some(0)} == multiset{};
    assert After(w, CallToken(Some(0))) == AfterControl(w, CallToken(Some(0))) == WorldAt(18);
  }

  lemma TheCallIsMade()
    ensures StepsOn(17)
  {
    TheCallGetsThrough();
    assert NotedControl(PastAt(17), WorldAt(17), CallToken(Some(0))) == PastAt(18);
  }

  lemma TheSecondStops(k: nat)
    requires 18 <= k <= 20
    ensures StepsOn(k)
  {
  }

  lemma TheSecondIsFinished()
    ensures Enabled(WorldAt(21), Mark) && After(WorldAt(21), Mark) == WorldAt(22)
  {
    assert WithState(RowsAt(21), 1, QueueState.Failed) == RowsAt(22);
    assert After(WorldAt(21), Mark) == AfterFinish(WorldAt(21), Mark) == WorldAt(22);
  }

  lemma TheSecondIsMarked()
    ensures StepsOn(21)
  {
    TheSecondIsFinished();
    assert EndedInterrupted(WorldAt(21), 1);
    assert NotedMark(PastAt(21), WorldAt(21)) == PastAt(22);
  }

  lemma EachStepsOn(k: nat)
    requires k < STEPS
    ensures StepsOn(k)
  {
    if k <= 1 {
      TheProcessStarts(k);
    } else if k <= 3 {
      TwoAreSubmitted(k);
    } else if k == 4 {
      TheFirstIsClaimed();
    } else if k == 5 {
      TheFirstIsCancelled();
    } else if k <= 9 {
      TheFirstEnds(k);
    } else if k == 10 {
      TheSecondIsClaimed();
    } else if k <= 12 {
      TheSecondBegins(k);
    } else if k <= 14 {
      TheSecondIsRecorded(k);
    } else if k <= 16 {
      TheSecondRuns(k);
    } else if k == 17 {
      TheCallIsMade();
    } else if k <= 20 {
      TheSecondStops(k);
    } else {
      TheSecondIsMarked();
    }
  }

  lemma TheFirstEnds(k: nat)
    requires 6 <= k <= 9
    ensures StepsOn(k)
  {
    if k == 6 {
      TheFirstFailsToParse();
    } else if k == 7 {
      TheFirstIsMarked();
    } else if k == 8 {
      TheFirstIsPublished();
    } else {
      TheFirstIsLetGo();
    }
  }

  lemma TheSecondRuns(k: nat)
    requires 15 <= k <= 16
    ensures StepsOn(k)
  {
    if k == 15 {
      TheSecondIsGuarded();
    } else {
      TheSecondStarts();
    }
  }

  // --- the whole run ----------------------------------------------------------------------------

  function ActionsFrom(k: nat): seq<Action>
    decreases STEPS - k
  {
    if k >= STEPS then [] else [ActionAt(k)] + ActionsFrom(k + 1)
  }

  lemma OneMoreLeads(
    w: World, past: Past, action: Action, next: World, between: Past, actions: seq<Action>, later: World, noted: Past)
    requires Enabled(w, action) && After(w, action) == next && PastAfter(past, w, action) == between
    requires Leads(next, between, actions, later, noted)
    ensures Leads(w, past, [action] + actions, later, noted)
  {
    assert ([action] + actions)[1..] == actions;
  }

  lemma {:induction false} TheStoryLeads(k: nat)
    requires k <= STEPS
    ensures Leads(WorldAt(k), PastAt(k), ActionsFrom(k), WorldAt(STEPS), PastAt(STEPS))
    decreases STEPS - k
  {
    if k < STEPS {
      EachStepsOn(k);
      TheStoryLeads(k + 1);
      OneMoreLeads(WorldAt(k), PastAt(k), ActionAt(k), WorldAt(k + 1), PastAt(k + 1), ActionsFrom(k + 1),
                   WorldAt(STEPS), PastAt(STEPS));
    }
  }

  lemma TheStoryIsReached()
    ensures ReachedWith(WorldAt(STEPS), PastAt(STEPS)) && Reachable(WorldAt(STEPS))
  {
    assert FirstWorld(None) == WorldAt(0) && NO_PAST == PastAt(0);
    TheStoryLeads(0);
    assert Leads(FirstWorld(None), NO_PAST, ActionsFrom(0), WorldAt(STEPS), PastAt(STEPS));
    assert CanRun(FirstWorld(None), ActionsFrom(0)) && RunAll(FirstWorld(None), ActionsFrom(0)) == WorldAt(STEPS);
  }

  predicate FailedUncancelled(w: World, past: Past, n: nat) {
    && n in w.Store().entries && w.Store().entries[n].state.Failed? && EndedInterrupted(w, n)
    && n !in w.cancels && n !in past.marked && n in past.strays && n in past.stopped
  }

  lemma TheStoryEnds()
    ensures FailedUncancelled(WorldAt(STEPS), PastAt(STEPS), 1) && 0 in WorldAt(STEPS).cancels
  {
  }

  /**
   A reachable world in which an entry reads failed, its execution interrupted, though no cancel of it was ever accepted
   and no stop marked for it: the call that stopped it was meant for an entry that had ended.
   */
  lemma AStrayCallFailsTheNextJob() returns (w: World, past: Past)
    ensures Reachable(w) && ReachedWith(w, past)
    ensures FailedUncancelled(w, past, 1) && 0 in w.cancels
  {
    w, past := WorldAt(STEPS), PastAt(STEPS);
    TheStoryIsReached();
    TheStoryEnds();
  }
}
