/**
 What an execution comes to: the first of its laps that is stopped, parked, unprepared, not succeeded or not handed on
 decides its end, each cause with its own status, and without one it succeeds.
 */
module LapDecisions {
  import opened Options
  import opened CancelTokens
  import opened QueueStore
  import opened ChainSteps
  import opened ChainExecutor

  // --- what others ask --------------------------------------------------------------------------

  /** Neither a stop nor a park. */
  predicate Calm(requests: seq<Request>) {
    AskCancel !in requests && AskPark !in requests
  }

  predicate EndsInPark(requests: seq<Request>) {
    requests != [] && requests[|requests| - 1].AskPark?
  }

  predicate Clear(token: Token) {
    token.running && !token.requested && !token.park && !token.taken
  }

  lemma {:induction false} CalmStaysClear(token: Token, requests: seq<Request>)
    requires Clear(token) && Calm(requests)
    ensures Clear(AllAsked(token, requests))
    decreases |requests|
  {
    if requests != [] {
      CalmStaysClear(Asked(token, requests[0]), requests[1..]);
    }
  }

  lemma {:induction false} ACancelIsSeen(token: Token, requests: seq<Request>)
    requires token.running && (token.requested || AskCancel in requests)
    ensures AllAsked(token, requests).requested
    decreases |requests|
  {
    if requests != [] {
      ACancelIsSeen(Asked(token, requests[0]), requests[1..]);
    }
  }

  lemma {:induction false} ALastParkIsSeen(token: Token, requests: seq<Request>)
    requires token.running && EndsInPark(requests)
    ensures AllAsked(token, requests).park
    decreases |requests|
  {
    if |requests| > 1 {
      ALastParkIsSeen(Asked(token, requests[0]), requests[1..]);
    } else {
      assert AllAsked(token, requests) == AllAsked(Asked(token, requests[0]), requests[1..]) == Asked(token, AskPark);
    }
  }

  // --- laps that go on --------------------------------------------------------------------------

  /** What is asked up to the boundary after the lap's run. */
  predicate CalmToTheBoundary(lap: Lap) {
    && Calm(lap.toTop) && Calm(lap.toTopPark) && Calm(lap.during)
    && Calm(lap.toCount) && Calm(lap.toMade) && Calm(lap.toMadePark)
  }

  /** And after it; the turns that follow a wait only come of one that was cut. */
  predicate CalmAfterIt(lap: Lap) {
    && Calm(lap.toPause) && Calm(lap.first.after) && Calm(lap.toEnd)
    && forall i | 0 <= i < |lap.first.asks| :: Calm(lap.first.asks[i])
  }

  predicate Succeeds(lap: Lap) {
    lap.prepares && lap.outcome == EndedAs(RunSucceeded)
  }

  /** Nothing is asked during it, and its run is prepared, succeeds and hands on. */
  predicate Smooth(lap: Lap) {
    CalmToTheBoundary(lap) && CalmAfterIt(lap) && Succeeds(lap) && lap.handsOn
  }

  lemma {:induction false} ACalmWaitIsWhole(token: Token, wait: Wait, seconds: real)
    requires Clear(token) && Calm(wait.after) && forall i | 0 <= i < |wait.asks| :: Calm(wait.asks[i])
    ensures Clear(Waited(token, wait, seconds).0) && Waited(token, wait, seconds).1 == seconds
    decreases |wait.asks|
  {
    if wait.asks == [] {
      CalmStaysClear(token, wait.after);
    } else {
      CalmStaysClear(token, wait.asks[0]);
      ACalmWaitIsWhole(AllAsked(token, wait.asks[0]), wait.(asks := wait.asks[1..]), seconds);
    }
  }

  lemma TopsStayClear(token: Token, lap: Lap)
    requires Clear(token) && Calm(lap.toTop) && Calm(lap.toTopPark)
    ensures Clear(AllAsked(token, lap.toTop)) && Clear(AllAsked(AllAsked(token, lap.toTop), lap.toTopPark))
  {
    CalmStaysClear(token, lap.toTop);
    CalmStaysClear(AllAsked(token, lap.toTop), lap.toTopPark);
  }

  lemma RunStaysClear(token: Token, lap: Lap)
    requires Clear(token) && Calm(lap.toTop) && Calm(lap.toTopPark) && Calm(lap.during)
    ensures Clear(AtRunEnd(token, lap))
  {
    TopsStayClear(token, lap);
    CalmStaysClear(AllAsked(AllAsked(token, lap.toTop), lap.toTopPark), lap.during);
  }

  lemma BoundaryStaysClear(token: Token, lap: Lap)
    requires Clear(token) && Calm(lap.toCount) && Calm(lap.toMade) && Calm(lap.toMadePark) && Calm(lap.toPause)
    ensures !StopSeenFirst(token, lap) && Clear(AtBoundary(token, lap)) && Clear(AtRest(token, lap))
  {
    CalmStaysClear(token, lap.toCount);
    CalmStaysClear(AllAsked(token, lap.toCount), lap.toMade);
    CalmStaysClear(AllAsked(AllAsked(token, lap.toCount), lap.toMade), lap.toMadePark);
    CalmStaysClear(AtBoundary(token, lap), lap.toPause);
  }

  lemma ASmoothLapGoesOn(plan: Plan, token: Token, lap: Lap, number: nat)
    requires Clear(token) && Smooth(lap) && number < plan.total
    ensures FateOf(plan, token, lap, number).GoesOn? && Clear(FateOf(plan, token, lap, number).token)
  {
    TopsStayClear(token, lap);
    RunStaysClear(token, lap);
    var ran := AtRunEnd(token, lap);
    BoundaryStaysClear(ran, lap);
    ACalmWaitIsWhole(AtRest(ran, lap), lap.first, lap.seconds);
    var (after, waited) := Waited(AtRest(ran, lap), lap.first, lap.seconds);
    CalmStaysClear(after, lap.toEnd);
  }

  // --- the first that does not decides ------------------------------------------------------------

  /** The decision of a job one of whose laps, after `k` that went on, ends it so. */
  function DecisionAt(k: nat, status: JobStatus, ran: Option<RunStatus>): Decision {
    if ran == Some(RunSucceeded) then Decision(status, k + 1, None) else Decision(status, k, ran)
  }

  /** All laps before `k` go on, and lap `k` begins with this token. */
  predicate Reaches(plan: Plan, token: Token, laps: seq<Lap>, number: nat, k: nat, at: Token)
    requires k < |laps|
    decreases k
  {
    if k == 0 then at == token
    else
      match FateOf(plan, token, laps[0], number)
      case GoesOn(next) => Reaches(plan, next, laps[1..], number + 1, k - 1, at)
      case Ends(_, _) => false
  }

  lemma {:induction false} TheLapReachedDecides(
    plan: Plan, token: Token, laps: seq<Lap>, number: nat, k: nat, at: Token)
    requires k < |laps| && number + |laps| == plan.total + 1 && Reaches(plan, token, laps, number, k, at)
    requires FateOf(plan, at, laps[k], number + k).Ends?
    ensures
      var fate := FateOf(plan, at, laps[k], number + k);
      Decide(plan, token, laps, number) == DecisionAt(k, fate.status, fate.ran)
    decreases k
  {
    TheFirstLeftDecides(plan, token, laps, number);
    if k > 0 {
      TheLapReachedDecides(plan, FateOf(plan, token, laps[0], number).token, laps[1..], number + 1, k - 1, at);
    }
  }

  /** Some lap is the first that ends the job; those before it go on. */
  lemma {:induction false} SomeLapEndsIt(plan: Plan, token: Token, laps: seq<Lap>, number: nat)
    returns (k: nat, at: Token)
    requires laps != [] && number + |laps| == plan.total + 1
    ensures k < |laps| && Reaches(plan, token, laps, number, k, at)
    ensures FateOf(plan, at, laps[k], number + k).Ends?
    decreases |laps|
  {
    match FateOf(plan, token, laps[0], number)
    case Ends(_, _) => k, at := 0, token;
    case GoesOn(next) =>
      TheFirstLeftDecides(plan, token, laps, number);
      k, at := SomeLapEndsIt(plan, next, laps[1..], number + 1);
      k := k + 1;
  }

  lemma {:induction false} SmoothLapsReach(plan: Plan, token: Token, laps: seq<Lap>, number: nat, k: nat)
    returns (at: Token)
    requires k < |laps| && number + |laps| == plan.total + 1 && Clear(token)
    requires forall i | 0 <= i < k :: Smooth(laps[i])
    ensures Clear(at) && Reaches(plan, token, laps, number, k, at)
    decreases k
  {
    at := token;
    if k > 0 {
      ASmoothLapGoesOn(plan, token, laps[0], number);
      at := SmoothLapsReach(plan, FateOf(plan, token, laps[0], number).token, laps[1..], number + 1, k - 1);
    }
  }

  // --- what a lap's own causes come to --------------------------------------------------------------

  /** A lap begun with a clear token, of what is asked before its run. */
  lemma BeforeItsRun(plan: Plan, token: Token, lap: Lap, number: nat)
    requires Clear(token)
    ensures AskCancel in lap.toTop ==> FateOf(plan, token, lap, number) == Ends(JobInterrupted, None)
    ensures Calm(lap.toTop) && EndsInPark(lap.toTopPark) && number > plan.first ==>
              FateOf(plan, token, lap, number) == Ends(JobParked, None)
    ensures Calm(lap.toTop) && Calm(lap.toTopPark) && !lap.prepares ==>
              FateOf(plan, token, lap, number) == Ends(JobFailed, None)
  {
    if AskCancel in lap.toTop {
      ACancelIsSeen(token, lap.toTop);
    }
    if Calm(lap.toTop) {
      CalmStaysClear(token, lap.toTop);
      if EndsInPark(lap.toTopPark) {
        ALastParkIsSeen(AllAsked(token, lap.toTop), lap.toTopPark);
      } else if Calm(lap.toTopPark) {
        TopsStayClear(token, lap);
      }
    }
  }

  /** How its run ends, once nothing was asked before it. */
  lemma OfItsRun(plan: Plan, token: Token, lap: Lap, number: nat)
    requires Clear(token) && Calm(lap.toTop) && Calm(lap.toTopPark) && lap.prepares
    ensures lap.outcome.RaisedError? ==> FateOf(plan, token, lap, number) == Ends(JobFailed, Some(RunFailed))
    ensures forall status | status in {RunFailed, RunTimedOut} && lap.outcome == EndedAs(status) ::
              FateOf(plan, token, lap, number) == Ends(JobFailed, Some(status))
    ensures lap.outcome == EndedAs(RunInterrupted) && AskCancel in lap.during ==>
              FateOf(plan, token, lap, number) == Ends(JobInterrupted, Some(RunInterrupted))
    ensures lap.outcome == EndedAs(RunInterrupted) && Calm(lap.during) ==>
              FateOf(plan, token, lap, number) == Ends(JobFailed, Some(RunFailed))
    ensures Succeeds(lap) && number < plan.total && !lap.handsOn ==>
              FateOf(plan, token, lap, number) == Ends(JobFailed, Some(RunSucceeded))
    ensures Succeeds(lap) && number == plan.total ==>
              FateOf(plan, token, lap, number) == Ends(JobSucceeded, Some(RunSucceeded))
  {
    TopsStayClear(token, lap);
    var begun := AllAsked(AllAsked(token, lap.toTop), lap.toTopPark);
    if AskCancel in lap.during {
      ACancelIsSeen(begun, lap.during);
    }
    if Calm(lap.during) {
      CalmStaysClear(begun, lap.during);
    }
  }

  /** A run handed on with more to come: a park asked last before the boundary looks for one. */
  lemma AtItsBoundary(plan: Plan, token: Token, lap: Lap, number: nat)
    requires Clear(token) && Calm(lap.toTop) && Calm(lap.toTopPark) && Calm(lap.during)
    requires Succeeds(lap) && lap.handsOn && number < plan.total
    requires Calm(lap.toCount) && Calm(lap.toMade) && EndsInPark(lap.toMadePark)
    ensures FateOf(plan, token, lap, number) == Ends(JobParked, Some(RunSucceeded))
  {
    TopsStayClear(token, lap);
    RunStaysClear(token, lap);
    var ran := AtRunEnd(token, lap);
    CalmStaysClear(ran, lap.toCount);
    CalmStaysClear(AllAsked(ran, lap.toCount), lap.toMade);
    ALastParkIsSeen(AllAsked(AllAsked(ran, lap.toCount), lap.toMade), lap.toMadePark);
  }

  /** What cuts the cooldown is a park, and nothing is asked from then until it is looked for. */
  predicate ParksIt(lap: Lap) {
    && lap.first.asks != [] && AskCancel !in lap.first.asks[0] && EndsInPark(lap.first.asks[0])
    && lap.first.after == [] && (lap.turns == [] || lap.turns[0].beforeTake == [])
  }

  /** The first group asked in its cooldown, cut short by it: a stop, or a park. */
  lemma InItsCooldown(plan: Plan, token: Token, lap: Lap, number: nat)
    requires Clear(token) && CalmToTheBoundary(lap) && Calm(lap.toPause)
    requires Succeeds(lap) && lap.handsOn && number < plan.total
    requires lap.first.asks != [] && lap.first.cut < lap.seconds && lap.seconds > 0.0
    ensures AskCancel in lap.first.asks[0] ==>
              FateOf(plan, token, lap, number) == Ends(JobInterrupted, Some(RunSucceeded))
    ensures ParksIt(lap) ==> FateOf(plan, token, lap, number) == Ends(JobParked, Some(RunSucceeded))
  {
    TopsStayClear(token, lap);
    RunStaysClear(token, lap);
    var ran := AtRunEnd(token, lap);
    BoundaryStaysClear(ran, lap);
    var rest, wait := AtRest(ran, lap), lap.first;
    var asked, left := AllAsked(rest, wait.asks[0]), wait.(asks := wait.asks[1..]);
    assert Waited(rest, wait, lap.seconds) == Waited(asked, left, lap.seconds);
    if AskCancel in wait.asks[0] {
      ACancelIsSeen(rest, wait.asks[0]);
      RequestsOnlyAdd(rest, wait.asks[0]);
      RequestsOnlyAdd(asked, wait.after);
      RequestsOnlyAdd(AllAsked(asked, wait.after), lap.toEnd);
    } else if ParksIt(lap) {
      ALastParkIsSeen(rest, wait.asks[0]);
      NoCancelNoStop(rest, wait.asks[0]);
    }
  }

  lemma {:induction false} NoCancelNoStop(token: Token, requests: seq<Request>)
    requires !token.requested && AskCancel !in requests
    ensures !AllAsked(token, requests).requested
    decreases |requests|
  {
    if requests != [] {
      NoCancelNoStop(Asked(token, requests[0]), requests[1..]);
    }
  }

  predicate EndsIn(fate: Fate, status: JobStatus) {
    fate.Ends? && fate.status == status
  }

  /** Whatever is asked: the only reasons a lap has for each status a job can end with, and for going on. */
  lemma WhyALapEnds(plan: Plan, token: Token, lap: Lap, number: nat)
    ensures
      var fate, ran := FateOf(plan, token, lap, number), AtRunEnd(token, lap);
      var stopped := AllAsked(token, lap.toTop).requested;
      var parked := number > plan.first && AllAsked(AllAsked(token, lap.toTop), lap.toTopPark).park;
      var starts := !stopped && !parked && lap.prepares;
      var status := if lap.outcome.RaisedError? then RunFailed else StatusOf(lap.outcome, ran);
      var more := starts && status.RunSucceeded? && number < plan.total && lap.handsOn;
      var parksAfter := more && !StopSeenFirst(ran, lap) && AtBoundary(ran, lap).park;
      var waits := more && !parksAfter && !AtRest(ran, lap).requested && lap.seconds > 0.0;
      var rest := RestOf(ran, lap);
      var cut := waits && !rest.parked && rest.waited < lap.seconds && AllAsked(rest.token, lap.toEnd).requested;
      && (EndsIn(fate, JobInterrupted) <==> stopped || (starts && status.RunInterrupted?) || cut)
      && (EndsIn(fate, JobParked) <==> (!stopped && parked) || parksAfter || (waits && rest.parked))
      && (EndsIn(fate, JobFailed) <==>
            || (!stopped && !parked && !lap.prepares)
            || (starts && status !in {RunSucceeded, RunInterrupted})
            || (starts && status.RunSucceeded? && number < plan.total && !lap.handsOn))
      && (EndsIn(fate, JobSucceeded) <==> starts && status.RunSucceeded? && number >= plan.total)
      && (fate.GoesOn? <==> more && !parksAfter && !(waits && rest.parked) && !cut)
      && (fate.Ends? ==> fate.ran == if starts then Some(status) else None)
  {
  }

  // --- over a whole execution -----------------------------------------------------------------------

  /** Of a whole execution begun with a clear token. */
  predicate Whole(plan: Plan, token: Token, laps: seq<Lap>) {
    1 <= plan.first <= plan.total && |laps| == plan.total + 1 - plan.first && Clear(token)
  }

  /** With nothing asked, and every run prepared, succeeded and handed on, all runs are made and the job succeeds. */
  lemma SmoothLapsSucceed(plan: Plan, token: Token, laps: seq<Lap>)
    requires Whole(plan, token, laps)
    requires forall i | 0 <= i < |laps| - 1 :: Smooth(laps[i])
    requires Calm(laps[|laps| - 1].toTop) && Calm(laps[|laps| - 1].toTopPark) && Succeeds(laps[|laps| - 1])
    ensures EventsOf(plan.first, Decide(plan, token, laps, plan.first))
         == RunsMade(plan.first, |laps|) + [JobFinished(JobSucceeded, |laps|)]
  {
    var k := |laps| - 1;
    var at := SmoothLapsReach(plan, token, laps, plan.first, k);
    OfItsRun(plan, at, laps[k], plan.total);
    TheLapReachedDecides(plan, token, laps, plan.first, k, at);
  }

  /**
   Otherwise, after `k` runs made smoothly, the next lap's first cause decides: what was asked before its run, how that
   ended, whether it handed on, and what was asked at the boundary after it and in its cooldown.
   */
  lemma TheFirstCauseDecides(plan: Plan, token: Token, laps: seq<Lap>, k: nat)
    requires Whole(plan, token, laps) && k < |laps|
    requires forall i | 0 <= i < k :: Smooth(laps[i])
    ensures
      var lap, last, decision := laps[k], k == |laps| - 1, Decide(plan, token, laps, plan.first);
      var unasked := Calm(lap.toTop) && Calm(lap.toTopPark);
      var more := unasked && Calm(lap.during) && Succeeds(lap) && lap.handsOn && !last;
      && (AskCancel in lap.toTop ==> decision == Decision(JobInterrupted, k, None))
      && (Calm(lap.toTop) && EndsInPark(lap.toTopPark) && k > 0 ==> decision == Decision(JobParked, k, None))
      && (unasked && !lap.prepares ==> decision == Decision(JobFailed, k, None))
      && (unasked && lap.prepares && lap.outcome.RaisedError? ==> decision == Decision(JobFailed, k, Some(RunFailed)))
      && (forall status | status in {RunFailed, RunTimedOut} ::
            unasked && lap.prepares && lap.outcome == EndedAs(status) ==>
              decision == Decision(JobFailed, k, Some(status)))
      && (unasked && lap.prepares && lap.outcome == EndedAs(RunInterrupted) && AskCancel in lap.during ==>
            decision == Decision(JobInterrupted, k, Some(RunInterrupted)))
      && (unasked && lap.prepares && lap.outcome == EndedAs(RunInterrupted) && Calm(lap.during) ==>
            decision == Decision(JobFailed, k, Some(RunFailed)))
      && (unasked && Succeeds(lap) && !last && !lap.handsOn ==> decision == Decision(JobFailed, k + 1, None))
      && (unasked && Succeeds(lap) && last ==> decision == Decision(JobSucceeded, k + 1, None))
      && (more && Calm(lap.toCount) && Calm(lap.toMade) && EndsInPark(lap.toMadePark) ==>
            decision == Decision(JobParked, k + 1, None))
  {
    var at := SmoothLapsReach(plan, token, laps, plan.first, k);
    var lap, number := laps[k], plan.first + k;
    BeforeItsRun(plan, at, lap, number);
    if Calm(lap.toTop) && Calm(lap.toTopPark) && lap.prepares {
      OfItsRun(plan, at, lap, number);
    }
    if Calm(lap.toTop) && Calm(lap.toTopPark) && Calm(lap.during) && Succeeds(lap) && lap.handsOn && k < |laps| - 1
       && Calm(lap.toCount) && Calm(lap.toMade) && EndsInPark(lap.toMadePark) {
      AtItsBoundary(plan, at, lap, number);
    }
    if FateOf(plan, at, lap, number).Ends? {
      TheLapReachedDecides(plan, token, laps, plan.first, k, at);
    }
  }

  /** And of its cooldown, cut short. */
  lemma TheCutCooldownDecides(plan: Plan, token: Token, laps: seq<Lap>, k: nat)
    requires Whole(plan, token, laps) && k < |laps| - 1
    requires forall i | 0 <= i < k :: Smooth(laps[i])
    requires
      var lap := laps[k];
      && CalmToTheBoundary(lap) && Calm(lap.toPause) && Succeeds(lap) && lap.handsOn
      && lap.first.asks != [] && lap.first.cut < lap.seconds && lap.seconds > 0.0
    ensures
      var lap, decision := laps[k], Decide(plan, token, laps, plan.first);
      && (AskCancel in lap.first.asks[0] ==> decision == Decision(JobInterrupted, k + 1, None))
      && (ParksIt(lap) ==> decision == Decision(JobParked, k + 1, None))
  {
    var at := SmoothLapsReach(plan, token, laps, plan.first, k);
    InItsCooldown(plan, at, laps[k], plan.first + k);
    if FateOf(plan, at, laps[k], plan.first + k).Ends? {
      TheLapReachedDecides(plan, token, laps, plan.first, k, at);
    }
  }
}
