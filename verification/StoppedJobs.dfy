/**
 What a stop does once it has reached the token: the chain starts at most one more run, one it was already past its
 check for, however much longer anyone waits, and whatever else is asked of it.
 */
module StoppedJobs {
  import opened Options
  import opened CancelTokens
  import opened QueueStore
  import opened HistoryDelete
  import opened ChainSteps
  import opened ChainExecutor
  import opened QueueMachine
  import opened QueueInvariant
  import opened QueueTheorems

  // --- any path of a chain ----------------------------------------------------------------------

  /** `longer` is `path` gone on, or as it is. */
  predicate GoesOn(longer: Path, path: Path) {
    || longer == path
    || (longer.Moves? && GoesOn(longer.before, path))
    || (longer.Asks? && GoesOn(longer.before, path))
  }

  /** The runs the chain may still start with a stop asked: the one it is past its check for. */
  function LeftToStart(at: Position): nat {
    if at.TopPark? || at.Ready? then 1 else 0
  }

  /** It may still end parked: it has, or its next look is for a park it may take. */
  predicate MayPark(plan: Plan, at: Position) {
    || at == Ending(JobParked)
    || ((at.TopPark? || at.MadePark? || at.PausePark?) && TakesPark(plan, at))
  }

  lemma AMoveOnceStopped(plan: Plan, at: Position, move: Move, token: Token)
    requires token.requested && Allowed(plan, at, move, token)
    ensures
      var next := Moved(plan, at, move, token);
      && TokenAfter(plan, at, move, token).requested
      && LeftToStart(next) + (if move.StartRun? then 1 else 0) <= LeftToStart(at)
      && (MayPark(plan, next) ==> MayPark(plan, at))
  {
  }

  /**
   However a chain with a stop asked goes on, it starts no run but one it is already past its check for, makes no
   other, and ends parked only if it stood at a look for a park, its look for a stop just made, or had parked.
   */
  lemma {:induction false} AStoppedChainStartsAtMostOne(plan: Plan, longer: Path, path: Path)
    requires Valid(plan, longer) && GoesOn(longer, path)
    ensures Valid(plan, path)
    ensures TokenOf(plan, path).requested ==>
              && TokenOf(plan, longer).requested
              && StartsOf(longer) + LeftToStart(At(plan, longer)) <= StartsOf(path) + LeftToStart(At(plan, path))
              && (MayPark(plan, At(plan, longer)) ==> MayPark(plan, At(plan, path)))
  {
    if longer != path {
      AStoppedChainStartsAtMostOne(plan, longer.before, path);
      var before := longer.before;
      if longer.Moves? && TokenOf(plan, before).requested {
        AMoveOnceStopped(plan, At(plan, before), longer.move, TokenOf(plan, before));
      }
    }
  }

  /** From its check for a stop it ends there, interrupted unless it raises, with no run started or made. */
  lemma {:induction false} AtItsCheckItEnds(plan: Plan, longer: Path, path: Path)
    requires Valid(plan, longer) && GoesOn(longer, path) && Valid(plan, path)
    requires TokenOf(plan, path).requested && At(plan, path).Top?
    ensures TokenOf(plan, longer).requested
    ensures StartsOf(longer) == StartsOf(path) && MadeOf(longer) == MadeOf(path)
    ensures At(plan, longer) == At(plan, path) || At(plan, longer) in {Ending(JobInterrupted), Ending(JobFailed)}
    ensures At(plan, longer) == Ending(JobFailed) ==> Raised(longer)
  {
    if longer != path {
      AStoppedChainStartsAtMostOne(plan, longer.before, path);
      AtItsCheckItEnds(plan, longer.before, path);
    }
  }

  predicate GoesOnToPark(plan: Plan, longer: Path, path: Path) {
    Valid(plan, longer) && GoesOn(longer, path) && At(plan, longer) == Ending(JobParked)
  }

  /** Whether it can still end parked is exactly whether it stands at such a look, or has parked. */
  lemma AStoppedChainMayPark(plan: Plan, path: Path)
    requires Valid(plan, path) && TokenOf(plan, path).requested
    ensures MayPark(plan, At(plan, path)) <==> exists longer :: GoesOnToPark(plan, longer, path)
  {
    var at := At(plan, path);
    if MayPark(plan, at) {
      PathsKeepPosition(plan, path);
      var asked := Asks(path, AskPark);
      assert Valid(plan, asked) && At(plan, asked) == at && TokenOf(plan, asked).park && GoesOn(asked, path);
      var longer := if at.Ending? then path else Moves(asked, CheckPark);
      assert GoesOnToPark(plan, longer, path);
    }
    forall longer | GoesOnToPark(plan, longer, path) ensures MayPark(plan, at) {
      AStoppedChainStartsAtMostOne(plan, longer, path);
    }
  }

  // --- any run of the queue ---------------------------------------------------------------------

  /** The runs entry `n`'s job starts along these steps. */
  function RunStartsOf(w: World, actions: seq<Action>, n: nat): nat
    requires CanRun(w, actions)
    decreases |actions|
  {
    if actions == [] then 0
    else
      (if actions[0] == Work(StartRun) && w.Current() == Some(n) then 1 else 0)
      + RunStartsOf(After(w, actions[0]), actions[1..], n)
  }

  /** The job is stopped, with at most `left` runs to start; or its entry is past its chain for good. */
  predicate Stopped(w: World, n: nat, left: nat) {
    && !w.stage.Down?
    && (|| (w.stage.Working? && w.Current() == Some(n) && w.sh.token.requested && LeftToStart(w.stage.at) <= left)
        || PastItsChain(w, n))
  }

  predicate PastItsChain(w: World, n: nat) {
    && n in w.Store().entries
    && !w.Store().entries[n].state.Queued?
    && (w.Current() == Some(n) ==> w.stage.Reported? || w.stage.Decided? || HasFinished(w.stage))
  }

  lemma AroundStaysPast(w: World, action: Action, n: nat)
    requires PastItsChain(w, n) && IsAround(action) && AroundEnabled(w, action)
    ensures PastItsChain(AfterAround(w, action), n)
  {
  }

  lemma SetupStaysPast(w: World, action: Action, n: nat)
    requires PastItsChain(w, n) && IsSetup(action) && SetupEnabled(w, action)
    ensures PastItsChain(AfterSetup(w, action), n)
  {
    SetupKeepsTerms(w, action, n);
  }

  lemma FinishStaysPast(w: World, action: Action, n: nat)
    requires StageOk(w) && MarksOk(w.stage, w.sh.marks)
    requires PastItsChain(w, n) && IsFinish(action) && FinishEnabled(w, action)
    ensures PastItsChain(AfterFinish(w, action), n)
  {
    FinishKeepsTerms(w, action, n);
  }

  lemma WorkerStaysPast(w: World, action: Action, n: nat)
    requires StageOk(w) && MarksOk(w.stage, w.sh.marks)
    requires PastItsChain(w, n) && IsWorkers(action) && WorkerEnabled(w, action)
    ensures PastItsChain(AfterWorker(w, action), n)
  {
    if action.Claim? {
      ClaimKeepsTerms(w, n);
      ClaimTakesAnother(w, n);
    } else if IsSetup(action) {
      SetupStaysPast(w, action, n);
    } else if IsAround(action) {
      AroundStaysPast(w, action, n);
    } else if IsFinish(action) {
      FinishStaysPast(w, action, n);
    }
  }

  lemma ClaimTakesAnother(w: World, n: nat)
    requires MarksOk(w.stage, w.sh.marks) && w.stage.Idle?
    requires n in w.Store().entries && !w.Store().entries[n].state.Queued?
    ensures AfterClaim(w).Current() != Some(n)
  {
  }

  lemma MovingStaysStopped(w: World, move: Move, n: nat, left: nat)
    requires Inv(w) && MoveEnabled(w, move) && w.Current() == Some(n)
    requires w.sh.token.requested && LeftToStart(w.stage.at) <= left
    ensures move.StartRun? ==> left > 0
    ensures Stopped(AfterMove(w, move), n, if move.StartRun? && left > 0 then left - 1 else left)
  {
    AMoveOnceStopped(PlanOf(w.Store().entries[n]), w.stage.at, move, w.sh.token);
  }

  lemma ControlStaysStopped(w: World, action: Action, n: nat, left: nat)
    requires Stopped(w, n, left) && IsControl(action) && ControlEnabled(w, action)
    ensures Stopped(AfterControl(w, action), n, left)
  {
  }

  lemma RequestStaysStopped(w: World, action: Action, n: nat, left: nat)
    requires NumbersBelow(w.Store()) && Stopped(w, n, left) && IsRequest(action) && RequestEnabled(w, action)
    ensures Stopped(AfterRequest(w, action), n, left)
  {
    RequestKeepsTerms(w, action, n);
  }

  /** What is left to start after a step. */
  function LeftAfter(w: World, action: Action, n: nat, left: nat): nat {
    if action == Work(StartRun) && w.Current() == Some(n) && left > 0 then left - 1 else left
  }

  lemma ReportingIsPast(w: World, n: nat)
    requires MarksOk(w.stage, w.sh.marks) && RunningOk(w.stage, w.sh.marks, w.Store())
    requires w.Current() == Some(n) && AroundEnabled(w, Report)
    ensures PastItsChain(AfterAround(w, Report), n)
  {
  }

  lemma WorkerStaysStopped(w: World, action: Action, n: nat, left: nat)
    requires Inv(w) && Stopped(w, n, left) && IsWorkers(action) && WorkerEnabled(w, action)
    ensures action == Work(StartRun) && w.Current() == Some(n) ==> left > 0
    ensures Stopped(AfterWorker(w, action), n, LeftAfter(w, action, n, left))
  {
    if PastItsChain(w, n) {
      WorkerStaysPast(w, action, n);
    } else if action.Work? {
      MovingStaysStopped(w, action.move, n, left);
    } else {
      ReportingIsPast(w, n);
    }
  }

  lemma StepStaysStopped(w: World, action: Action, n: nat, left: nat)
    requires Inv(w) && Stopped(w, n, left) && Enabled(w, action) && !action.Crash?
    ensures action == Work(StartRun) && w.Current() == Some(n) ==> left > 0
    ensures Stopped(After(w, action), n, LeftAfter(w, action, n, left))
  {
    if IsWorkers(action) {
      WorkerStaysStopped(w, action, n, left);
    } else if IsRequest(action) {
      RequestStaysStopped(w, action, n, left);
    } else if IsControl(action) {
      ControlStaysStopped(w, action, n, left);
    }
  }

  lemma {:induction false} StoppedRunsStayStopped(w: World, actions: seq<Action>, n: nat, left: nat)
    requires Inv(w) && Stopped(w, n, left) && CanRun(w, actions) && NoCrash(actions)
    ensures RunStartsOf(w, actions, n) <= left
    decreases |actions|
  {
    if actions != [] {
      StepKeepsInv(w, actions[0]);
      StepStaysStopped(w, actions[0], n, left);
      StoppedRunsStayStopped(After(w, actions[0]), actions[1..], n, LeftAfter(w, actions[0], n, left));
    }
  }

  /**
   With a stop pending for the claimed entry, its call and the start guard's made, its job starts at most one more run
   in any run of the queue, and none unless it already stands past its check for a stop.
   */
  lemma AnAcceptedStopStartsAtMostOneRun(w: World, actions: seq<Action>, n: nat)
    requires Reachable(w) && w.sh.marks.cancelPending && w.stage.Working?
    requires w.Current() == Some(n) && Some(n) !in w.calls
    requires CanRun(w, actions) && NoCrash(actions)
    ensures RunStartsOf(w, actions, n) <= 1
    ensures !w.stage.at.TopPark? && !w.stage.at.Ready? ==> RunStartsOf(w, actions, n) == 0
  {
    ReachableIsSound(w);
    AcceptedStopReachesTheToken(w);
    StoppedRunsStayStopped(w, actions, n, LeftToStart(w.stage.at));
  }
}
