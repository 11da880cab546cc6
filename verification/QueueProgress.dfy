/**
 What the queue can always do next: its worker is never stuck, each request is taken exactly when the rows allow it, and
 a submission or a resume adds exactly its own entry.
 */
module QueueProgress {
  import opened Options
  import opened Callers
  import opened CancelTokens
  import opened QueueStore
  import opened ResumeChain
  import opened HistoryDelete
  import opened ChainHistory
  import opened ChainSteps
  import opened QueueWorkers
  import opened QueueMachine
  import opened QueueInvariant
  import opened QueueTheorems

  /** A chain that has not ended can always move on without an error. */
  lemma AChainIsNeverStuck(plan: Plan, at: Position, token: Token, made: nat) returns (move: Move)
    requires PositionOk(plan, at, made) && !at.Ending?
    ensures !move.Raise? && Allowed(plan, at, move, token)
  {
    match at
    case Top(_) => move := CheckStop;
    case TopPark(_) => move := CheckPark;
    case Ready(_) => move := StartRun;
    case Going(_) => move := EndRun(RunSucceeded);
    case Made(_) => move := CheckStop;
    case MadePark(_) => move := CheckPark;
    case Pause(_) => move := EndPause;
    case PausePark(_) => move := CheckPark;
  }

  lemma TheSetupIsNeverStuck(w: World) returns (action: Action)
    requires HasRows(w) && !w.stage.Guarded?
    requires w.stage.Claimed? || w.stage.Begun? || w.stage.Numbered? || w.stage.Tied?
    ensures IsSetup(action) && SetupEnabled(w, action) && AfterSetup(w, action).stage != w.stage
  {
    match w.stage
    case Claimed => action := BeginToken;
    case Begun => action := TakeNumber;
    case Numbered(_) => action := Link;
    case Tied(_) => action := OpenRow;
  }

  lemma TheEndIsNeverStuck(w: World) returns (action: Action)
    requires HasRows(w)
    requires w.stage.Decided? || HasFinished(w.stage) || w.stage.FailOpen?
    ensures IsFinish(action) && FinishEnabled(w, action) && AfterFinish(w, action).stage != w.stage
  {
    match w.stage
    case Decided(_, _) => action := Mark;
    case Marked(_) => action := Publish;
    case Shown => action := EndToken;
    case Leaving => action := LetGo;
    case FailOpen => action := MarkFailed;
    case FailMarked => action := PublishFailed;
  }

  lemma TheJobIsNeverStuck(w: World) returns (action: Action)
    requires HasRows(w) && StageOk(w)
    requires w.stage.Opened? || w.stage.Guarded? || w.stage.Working? || w.stage.Reported?
    ensures (IsAround(action) && AroundEnabled(w, action)) || (action.Work? && MoveEnabled(w, action.move))
  {
    match w.stage
    case Opened(_) => action := Guard;
    case Guarded(_, _) => action := GuardCall;
    case Reported(_, _) => action := Decide;
    case Working(_, at) =>
      if at.Ending? {
        action := Report;
      } else {
        var n := w.Current().value;
        var move := AChainIsNeverStuck(PlanOf(w.Store().entries[n]), at, w.sh.token, |RunsOf(w.ledger, n)|);
        action := Work(move);
      }
  }

  lemma RowsAreThere(w: World)
    requires Reachable(w) && HasEntry(w.stage)
    ensures HasRows(w) && StageOk(w)
  {
    ReachableIsSound(w);
    assert w.Current().Some? && w.Current().value in w.Store().entries;
  }

  lemma AClaimedEntryIsNeverStuck(w: World) returns (action: Action)
    requires HasEntry(w.stage) && HasRows(w) && StageOk(w)
    ensures IsWorkers(action) && WorkerEnabled(w, action)
  {
    if w.stage.Claimed? || w.stage.Begun? || w.stage.Numbered? || w.stage.Tied? {
      action := TheSetupIsNeverStuck(w);
    } else if w.stage.Decided? || HasFinished(w.stage) || w.stage.FailOpen? {
      action := TheEndIsNeverStuck(w);
    } else {
      action := TheJobIsNeverStuck(w);
    }
  }

  /** In every reachable world of a process whose worker has not left its loop, the worker can take a step. */
  lemma TheWorkerIsNeverStuck(w: World) returns (action: Action)
    requires Reachable(w) && !w.stage.Down? && !w.stage.Exited?
    ensures IsWorkers(action) && WorkerEnabled(w, action)
  {
    if w.stage.Idle? {
      action := Claim;
    } else {
      RowsAreThere(w);
      action := AClaimedEntryIsNeverStuck(w);
    }
  }

  // --- requests ---------------------------------------------------------------------------------

  lemma RowsDecideRequests(w: World, total: nat, n: nat, numbers: set<nat>, caller: Caller)
    requires !w.stage.Down? && w.plan == None && OlderLinks(w.Store())
    ensures RequestEnabled(w, Submit(total, caller)) <==> total >= 1
    ensures RequestEnabled(w, CancelWaiting(n))
    ensures RequestEnabled(w, DeleteRows(numbers)) <==> forall x | x in numbers :: Deletable(w.Store(), x)
    ensures PlanEnabled(w, n) <==> CanResume(w.Store(), n)
  {
  }

  /**
   With no resume being resolved, a submission, a resume's resolution, a cancel and a deletion are each taken exactly
   when the rows allow it.
   */
  lemma RequestsAreTakenExactly(w: World, total: nat, n: nat, numbers: set<nat>, caller: Caller)
    requires Reachable(w) && !w.stage.Down? && w.plan == None
    ensures OlderLinks(w.Store())
    ensures Enabled(w, Submit(total, caller)) <==> total >= 1
    ensures Enabled(w, PlanResume(n)) <==> CanResume(w.Store(), n)
    ensures Enabled(w, CancelWaiting(n)) && Enabled(w, CancelRunning(n))
    ensures Enabled(w, DeleteRows(numbers)) <==> forall x | x in numbers :: Deletable(w.Store(), x)
  {
    LinksAreOlder(w);
    RowsDecideRequests(w, total, n, numbers, caller);
  }

  lemma LinksAreOlder(w: World)
    requires Reachable(w)
    ensures OlderLinks(w.Store())
  {
    ReachableIsSound(w);
  }

  /** A resume resolved and not yet inserted still is where its chain goes on. */
  lemma APlanIsTheNextRun(w: World)
    requires Reachable(w) && w.plan.Some? && OlderLinks(w.Store())
    ensures
      var plan := w.plan.value;
      plan.entry in w.Store().entries && plan.first == |ChainRuns(w.Store(), w.ledger, plan.entry)| + 1
  {
    ReachableIsSound(w);
    ChainIsConsecutive(w.Store(), w.ledger, w.plan.value.entry);
  }

  /**
   A submission adds one entry, the next number's, waiting, from run 1, for its caller; all others stay as they are.
   */
  lemma ASubmissionAddsItsEntry(w: World, total: nat, caller: Caller)
    requires Enabled(w, Submit(total, caller))
    ensures
      var n, s, after := w.Store().nextEntry, w.Store(), After(w, Submit(total, caller)).Store();
      && after.entries == s.entries[n := Entry(Queued, None, None, None, 1, total, caller)]
      && after.nextEntry == n + 1 && after.executions == s.executions && after.nextExecution == s.nextExecution
  {
  }

  /** A resume adds one entry that goes on where its chain stopped, for the same total, and links both ways back. */
  lemma AResumeAddsItsEntry(w: World, caller: Caller)
    requires Reachable(w) && Enabled(w, InsertResume(caller)) && OlderLinks(w.Store())
    ensures w.plan.Some? && w.plan.value.entry in w.Store().entries
    ensures
      var n, s, after := w.Store().nextEntry, w.Store(), After(w, InsertResume(caller)).Store();
      var resumed, x := w.plan.value.entry, w.plan.value.execution;
      var first := |ChainRuns(s, w.ledger, resumed)| + 1;
      && after.entries ==
           s.entries[n := Entry(Queued, None, Some(resumed), Some(x), first, s.entries[resumed].total, caller)]
      && after.nextEntry == n + 1 && after.executions == s.executions && After(w, InsertResume(caller)).plan == None
  {
    APlanIsTheNextRun(w);
  }

  // --- stops ------------------------------------------------------------------------------------

  /** A cancel of the claimed entry can be made, and its call on the token after it: both have reached the job then. */
  lemma ACancelGoesThrough(w: World, n: nat) returns (marked: World, after: World)
    requires !w.stage.Down? && w.Current() == Some(n)
    ensures ControlEnabled(w, CancelRunning(n)) && AfterControl(w, CancelRunning(n)) == marked
    ensures ControlEnabled(marked, CallToken(Some(n))) && AfterControl(marked, CallToken(Some(n))) == after
    ensures after.sh.marks == w.sh.marks.(
              stop := if w.sh.marks.stop == None then Some(StopForCancel) else w.sh.marks.stop, cancelPending := true)
    ensures after.sh.token == if w.sh.token.running then w.sh.token.(requested := true) else w.sh.token
    ensures after.sh == w.sh.(marks := after.sh.marks, token := after.sh.token)
    ensures after.calls == w.calls && after.cancels == w.cancels + {n}
  {
    marked := AfterControl(w, CancelRunning(n));
    assert marked.calls == w.calls + multiset{Some(n)};
    after := AfterControl(marked, CallToken(Some(n)));
  }

  /** So can shutdown's three steps: the loop is told to end, whatever is claimed is marked, and its token told. */
  lemma AShutdownGoesThrough(w: World) returns (told: World, marked: World, after: World)
    requires !w.stage.Down?
    ensures ControlEnabled(w, SetStopEvent) && AfterControl(w, SetStopEvent) == told
    ensures ControlEnabled(told, StopLocked) && AfterControl(told, StopLocked) == marked
    ensures ControlEnabled(marked, CallToken(w.Current())) && AfterControl(marked, CallToken(w.Current())) == after
    ensures after.stopped && after.sh.stopping && after.calls == w.calls
    ensures after.sh.marks ==
              if w.Current().Some? && w.sh.marks.stop == None then
                w.sh.marks.(stop := Some(StopForShutdown), cancelPending := true)
              else w.sh.marks
    ensures after.sh.token == if w.sh.token.running then w.sh.token.(requested := true) else w.sh.token
    ensures after.sh.store == w.sh.store && after.sh.holding == w.sh.holding
  {
    told := AfterControl(w, SetStopEvent);
    marked := AfterControl(told, StopLocked);
    assert marked.calls == w.calls + multiset{w.Current()};
    after := AfterControl(marked, CallToken(w.Current()));
  }
}
