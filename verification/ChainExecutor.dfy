/**
 One execution of a chain of runs, as the loop that makes it, whatever other threads ask of its token
 between any two of its reads: every way it may go is a path of the chain's steps, and its events and
 end are what the path shows. The cooldown between runs is waited through parks that come and go.
 */
module ChainExecutor {
  import opened Options
  import opened CancelTokens
  import opened QueueStore
  import opened ChainSteps

  // --- paths ------------------------------------------------------------------------------------

  /** How a job got where it is: its own moves, and what others asked in between. */
  datatype Path = Start(token: Token) | Moves(before: Path, move: Move) | Asks(before: Path, request: Request)

  predicate Valid(plan: Plan, path: Path)
    decreases path, 0
  {
    match path
    case Start(token) => 1 <= plan.first <= plan.total && token.running && !token.taken
    case Moves(before, move) => Valid(plan, before) && Allowed(plan, At(plan, before), move, TokenOf(plan, before))
    case Asks(before, _) => Valid(plan, before)
  }

  function At(plan: Plan, path: Path): Position
    requires Valid(plan, path)
    decreases path, 1
  {
    match path
    case Start(_) => Top(plan.first)
    case Moves(before, move) => Moved(plan, At(plan, before), move, TokenOf(plan, before))
    case Asks(before, _) => At(plan, before)
  }

  function TokenOf(plan: Plan, path: Path): Token
    requires Valid(plan, path)
    decreases path, 1
  {
    match path
    case Start(token) => token
    case Moves(before, move) => TokenAfter(plan, At(plan, before), move, TokenOf(plan, before))
    case Asks(before, request) => Asked(TokenOf(plan, before), request)
  }

  function MadeOf(path: Path): nat {
    match path
    case Start(_) => 0
    case Moves(before, move) => MadeAfter(move, MadeOf(before))
    case Asks(before, _) => MadeOf(before)
  }

  predicate Raised(path: Path) {
    match path
    case Start(_) => false
    case Moves(before, move) => move.Raise? || Raised(before)
    case Asks(before, _) => Raised(before)
  }

  /** How many runs it started. */
  function StartsOf(path: Path): nat {
    match path
    case Start(_) => 0
    case Moves(before, move) => StartsOf(before) + if move.StartRun? then 1 else 0
    case Asks(before, _) => StartsOf(before)
  }

  /** The token as each succeeded run left it, before anything more was asked. */
  function EndTokens(plan: Plan, path: Path): seq<Token>
    requires Valid(plan, path)
  {
    match path
    case Start(_) => []
    case Moves(before, move) =>
      EndTokens(plan, before) + if move == EndRun(RunSucceeded) then [TokenOf(plan, path)] else []
    case Asks(before, _) => EndTokens(plan, before)
  }

  datatype JobEvent =
    | RunStarted(number: nat)
    | RunFinished(number: nat, status: RunStatus)
    | JobFinished(end: JobStatus, completed: nat)

  /** The run events of a path; the end is told once, after them. */
  function RunEvents(plan: Plan, path: Path): seq<JobEvent>
    requires Valid(plan, path)
  {
    match path
    case Start(_) => []
    case Moves(before, move) =>
      RunEvents(plan, before) +
        (match move
         case StartRun => [RunStarted(At(plan, before).number)]
         case EndRun(status) => [RunFinished(At(plan, before).number, status)]
         case _ => [])
    case Asks(before, _) => RunEvents(plan, before)
  }

  // --- what every path keeps --------------------------------------------------------------------

  lemma {:induction false} PathsKeepPosition(plan: Plan, path: Path)
    requires Valid(plan, path)
    ensures PositionOk(plan, At(plan, path), MadeOf(path))
    ensures EndShows(At(plan, path), TokenOf(plan, path))
    ensures TakenOnlyAtTheEnd(At(plan, path), TokenOf(plan, path))
    ensures TokenOf(plan, path).running
  {
    match path
    case Start(_) =>
    case Moves(before, move) =>
      PathsKeepPosition(plan, before);
      MovesKeepPosition(plan, At(plan, before), move, TokenOf(plan, before), MadeOf(before));
    case Asks(before, _) => PathsKeepPosition(plan, before);
  }

  /** The events of `made` succeeded runs from `first` on. */
  function RunsMade(first: nat, made: nat): seq<JobEvent> {
    if made == 0 then []
    else RunsMade(first, made - 1) + [RunStarted(first + made - 1), RunFinished(first + made - 1, RunSucceeded)]
  }

  /** After the succeeded ones: nothing, a run going, or one that ended otherwise. */
  predicate TailOk(tail: seq<JobEvent>, number: nat, at: Position) {
    || tail == []
    || (tail == [RunStarted(number)] && (at.Going? || at == Ending(JobFailed)))
    || (|tail| == 2 && tail[0] == RunStarted(number) && tail[1].RunFinished? && tail[1].number == number
        && !tail[1].status.RunSucceeded? && at in {Ending(JobFailed), Ending(JobInterrupted)})
  }

  /** Run events come in pairs, numbered consecutively from the first run, all but perhaps the last succeeded. */
  lemma {:induction false} EventsAreConsecutive(plan: Plan, path: Path) returns (tail: seq<JobEvent>)
    requires Valid(plan, path)
    ensures RunEvents(plan, path) == RunsMade(plan.first, MadeOf(path)) + tail
    ensures TailOk(tail, plan.first + MadeOf(path), At(plan, path))
    ensures At(plan, path).Going? ==> tail == [RunStarted(plan.first + MadeOf(path))]
    ensures At(plan, path) in {Ending(JobParked), Ending(JobSucceeded)} ==> tail == []
  {
    PathsKeepPosition(plan, path);
    match path
    case Start(_) => tail := [];
    case Asks(before, _) => tail := EventsAreConsecutive(plan, before);
    case Moves(before, move) =>
      PathsKeepPosition(plan, before);
      tail := EventsAreConsecutive(plan, before);
      if move.StartRun? {
        tail := tail + [RunStarted(At(plan, before).number)];
      } else if move.EndRun? {
        tail := if move.status.RunSucceeded? then [] else tail + [RunFinished(At(plan, before).number, move.status)];
      }
  }

  predicate Ended(plan: Plan, path: Path) {
    Valid(plan, path) && At(plan, path).Ending?
  }

  /** A path that ended without an error it raised, told by its last move. */
  lemma {:induction false} AllMadeSucceeds(plan: Plan, path: Path)
    requires Valid(plan, path) && !Raised(path)
    requires MadeOf(path) == plan.total + 1 - plan.first
    ensures At(plan, path) in {Made(plan.total), Pause(plan.total), Ending(JobSucceeded)}
  {
    PathsKeepPosition(plan, path);
    match path
    case Start(_) =>
    case Asks(before, _) => AllMadeSucceeds(plan, before);
    case Moves(before, move) =>
      PathsKeepPosition(plan, before);
      if MadeOf(before) == MadeOf(path) {
        AllMadeSucceeds(plan, before);
      }
  }

  /**
   However a job ends: succeeded exactly when every run to the total did (unless it raised), parked only at a
   boundary after a run of its own and before the last with its park taken, interrupted only when a stop was
   asked for; and its run events are the succeeded runs in order with at most one more.
   */
  lemma EveryEnd(plan: Plan, path: Path) returns (tail: seq<JobEvent>)
    requires Ended(plan, path)
    ensures
      var status, made, left := At(plan, path).status, MadeOf(path), plan.total + 1 - plan.first;
      && !status.JobRunning?
      && (status.JobSucceeded? ==> made == left)
      && (!Raised(path) && made == left ==> status.JobSucceeded?)
      && (status.JobParked? ==> 0 < made < left && TokenOf(plan, path).taken)
      && (status.JobInterrupted? ==> TokenOf(plan, path).requested)
      && RunEvents(plan, path) == RunsMade(plan.first, made) + tail
      && TailOk(tail, plan.first + made, At(plan, path))
      && (status.JobParked? || status.JobSucceeded? ==> tail == [])
  {
    PathsKeepPosition(plan, path);
    tail := EventsAreConsecutive(plan, path);
    if !Raised(path) && MadeOf(path) == plan.total + 1 - plan.first {
      AllMadeSucceeds(plan, path);
    }
  }

  // --- the cooldown -----------------------------------------------------------------------------

  /**
   One wait: what others ask during it, a group at a time, how much of it is waited if they cut it, and what they ask
   right after.
   */
  datatype Wait = Wait(asks: seq<seq<Request>>, cut: real, after: seq<Request>)

  function Cut(wait: Wait, seconds: real): real {
    if wait.cut < 0.0 then 0.0 else if wait.cut > seconds then seconds else wait.cut
  }

  /** A stop or a park ends a wait at once, and nothing else does; the token is as the wait's end finds it. */
  function Waited(token: Token, wait: Wait, seconds: real): (Token, real)
    decreases |wait.asks|
  {
    if token.requested || token.park then (AllAsked(token, wait.after), Cut(wait, seconds))
    else if wait.asks == [] then (AllAsked(token, wait.after), seconds)
    else Waited(AllAsked(token, wait.asks[0]), wait.(asks := wait.asks[1..]), seconds)
  }

  /** What others ask before each read of one turn of the loop, and its wait. */
  datatype Turn = Turn(beforeTake: seq<Request>, beforeCount: seq<Request>, beforeRead: seq<Request>, wait: Wait)

  /** The token as a turn takes its park, compares the park count and then reads it again. */
  function AtTake(token: Token, turn: Turn): Token {
    AllAsked(token, turn.beforeTake)
  }

  function AtCount(token: Token, turn: Turn): Token {
    AllAsked(AtTake(token, turn).Taken(), turn.beforeCount)
  }

  function AtRead(token: Token, turn: Turn): Token {
    AllAsked(AtCount(token, turn), turn.beforeRead)
  }

  datatype Rest = Rest(token: Token, waited: real, parked: bool)

  const NO_TURN := Turn([], [], [], Wait([], 0.0, []))

  /** The loop after the first wait; past `turns` nobody asks anything. */
  function Cooling(token: Token, waited: real, seconds: real, parks: nat, turns: seq<Turn>): Rest
    decreases |turns|
  {
    var turn := if turns == [] then NO_TURN else turns[0];
    if waited >= seconds || token.requested then Rest(token, waited, false)
    else if AtTake(token, turn).Taken().taken then Rest(AtTake(token, turn).Taken(), waited, true)
    else if AtCount(token, turn).parks == parks then Rest(AtCount(token, turn), waited, false)
    else
      var read := AtRead(token, turn);
      var (after, more) := Waited(read, turn.wait, seconds - waited);
      if turns == [] then Rest(after, waited + more, false)
      else Cooling(after, waited + more, seconds, read.parks, turns[1..])
  }

  /** The whole cooldown: `parks` is the park count read before the boundary's own take of a park. */
  function Cooldown(token: Token, parks: nat, seconds: real, first: Wait, turns: seq<Turn>): Rest {
    var (after, waited) := Waited(token, first, seconds);
    Cooling(after, waited, seconds, parks, turns)
  }

  // --- how much of it is waited -------------------------------------------------------------------

  /** A park stands that the count does not know of yet. */
  predicate Counted(token: Token, parks: nat) {
    token.running && parks <= token.parks && (token.park ==> parks < token.parks)
  }

  lemma AskingStaysCounted(token: Token, parks: nat, requests: seq<Request>)
    requires Counted(token, parks)
    ensures Counted(AllAsked(token, requests), parks)
  {
    RequestsOnlyAdd(token, requests);
  }

  /** A wait that was cut, cut by no stop, was cut by a park asked for since the count. */
  lemma {:induction false} ACutWaitSawANewPark(token: Token, wait: Wait, seconds: real, parks: nat)
    requires Counted(token, parks)
    ensures
      var (after, waited) := Waited(token, wait, seconds);
      && after.running && parks <= after.parks
      && (waited < seconds && !after.requested ==> parks < after.parks)
    decreases |wait.asks|
  {
    if token.requested || token.park || wait.asks == [] {
      RequestsOnlyAdd(token, wait.after);
    } else {
      AskingStaysCounted(token, parks, wait.asks[0]);
      ACutWaitSawANewPark(AllAsked(token, wait.asks[0]), wait.(asks := wait.asks[1..]), seconds, parks);
    }
  }

  /** At some turn a park was pending as the count was read again: it had come after that turn's take. */
  predicate SomeReadPending(token: Token, waited: real, seconds: real, parks: nat, turns: seq<Turn>)
    decreases |turns|
  {
    && turns != [] && waited < seconds && !token.requested
    && !AtTake(token, turns[0]).Taken().taken
    && AtCount(token, turns[0]).parks != parks
    && (|| AtRead(token, turns[0]).park
        || var (after, more) := Waited(AtRead(token, turns[0]), turns[0].wait, seconds - waited);
           SomeReadPending(after, waited + more, seconds, AtRead(token, turns[0]).parks, turns[1..]))
  }

  lemma TurnKeepsRunning(token: Token, turn: Turn)
    requires token.running
    ensures AtTake(token, turn).Taken().running && AtCount(token, turn).running && AtRead(token, turn).running
    ensures token.parks <= AtTake(token, turn).parks <= AtCount(token, turn).parks <= AtRead(token, turn).parks
  {
    RequestsOnlyAdd(token, turn.beforeTake);
    RequestsOnlyAdd(AtTake(token, turn).Taken(), turn.beforeCount);
    RequestsOnlyAdd(AtCount(token, turn), turn.beforeRead);
  }

  lemma {:induction false} CoolingIsWhole(token: Token, waited: real, seconds: real, parks: nat, turns: seq<Turn>)
    requires token.running && parks <= token.parks
    requires waited < seconds && !token.requested ==> parks < token.parks
    requires !SomeReadPending(token, waited, seconds, parks, turns)
    ensures
      var rest := Cooling(token, waited, seconds, parks, turns);
      rest.parked || rest.token.requested || rest.waited >= seconds
    decreases |turns|
  {
    if waited < seconds && !token.requested {
      var turn := if turns == [] then NO_TURN else turns[0];
      TurnKeepsRunning(token, turn);
      if !AtTake(token, turn).Taken().taken {
        var read := AtRead(token, turn);
        if turns != [] {
          ACutWaitSawANewPark(read, turn.wait, seconds - waited, read.parks);
          var (after, more) := Waited(read, turn.wait, seconds - waited);
          CoolingIsWhole(after, waited + more, seconds, read.parks, turns[1..]);
        }
      }
    }
  }

  /**
   A job that goes on, neither parked nor asked to stop, has waited its whole cooldown, however parks came
   and went, unless a park was pending as some turn read the count again.
   */
  lemma TheWholeCooldownIsWaited(token: Token, parks: nat, seconds: real, first: Wait, turns: seq<Turn>)
    requires Counted(token, parks)
    requires
      var (after, waited) := Waited(token, first, seconds);
      !SomeReadPending(after, waited, seconds, parks, turns)
    ensures
      var rest := Cooldown(token, parks, seconds, first, turns);
      rest.parked || rest.token.requested || rest.waited >= seconds
  {
    ACutWaitSawANewPark(token, first, seconds, parks);
    var (after, waited) := Waited(token, first, seconds);
    CoolingIsWhole(after, waited, seconds, parks, turns);
  }

  lemma {:induction false} WaitsAreWithin(token: Token, wait: Wait, seconds: real)
    requires seconds >= 0.0
    ensures 0.0 <= Waited(token, wait, seconds).1 <= seconds
    decreases |wait.asks|
  {
    if !token.requested && !token.park && wait.asks != [] {
      WaitsAreWithin(AllAsked(token, wait.asks[0]), wait.(asks := wait.asks[1..]), seconds);
    }
  }

  lemma {:induction false} CoolingIsWithin(token: Token, waited: real, seconds: real, parks: nat, turns: seq<Turn>)
    requires 0.0 <= waited <= seconds
    ensures 0.0 <= Cooling(token, waited, seconds, parks, turns).waited <= seconds
    decreases |turns|
  {
    var turn := if turns == [] then NO_TURN else turns[0];
    var read := AtRead(token, turn);
    WaitsAreWithin(read, turn.wait, seconds - waited);
    if turns != [] {
      var (after, more) := Waited(read, turn.wait, seconds - waited);
      CoolingIsWithin(after, waited + more, seconds, read.parks, turns[1..]);
    }
  }

  /** However often it is cut and waited again, a cooldown never takes longer than its wait. */
  lemma CooldownsNeverOverrun(token: Token, parks: nat, seconds: real, first: Wait, turns: seq<Turn>)
    requires seconds >= 0.0
    ensures 0.0 <= Cooldown(token, parks, seconds, first, turns).waited <= seconds
  {
    WaitsAreWithin(token, first, seconds);
    var (after, waited) := Waited(token, first, seconds);
    CoolingIsWithin(after, waited, seconds, parks, turns);
  }

  /** From a turn's second read of the count, the job goes on short, with no later such read of a pending park. */
  predicate GoesOnShort(read: Token, waited: real, seconds: real, wait: Wait, turns: seq<Turn>) {
    var (after, more) := Waited(read, wait, seconds - waited);
    var rest := Cooling(after, waited + more, seconds, read.parks, turns);
    && !SomeReadPending(after, waited + more, seconds, read.parks, turns)
    && !rest.parked && !rest.token.requested && rest.waited < seconds
  }

  lemma APendingReadMayGoOnShort(read: Token, waited: real, seconds: real) returns (wait: Wait, turns: seq<Turn>)
    requires read.running && !read.requested && !read.taken && read.park && waited < seconds
    ensures GoesOnShort(read, waited, seconds, wait, turns)
  {
    var turn := Turn([AskUnpark], [], [], Wait([], 0.0, []));
    wait, turns := Wait([], 0.0, []), [turn];
    assert Waited(read, wait, seconds - waited) == (read, 0.0);
    assert AllAsked(Asked(read, AskUnpark), [AskUnpark][1..]) == read.(park := false);
    assert AtTake(read, turn) == read.(park := false);
    assert AtCount(read, turn) == read.(park := false);
  }

  lemma AClearReadNeverGoesOnShort(read: Token, waited: real, seconds: real, wait: Wait, turns: seq<Turn>)
    requires read.running && !read.park
    ensures !GoesOnShort(read, waited, seconds, wait, turns)
  {
    ACutWaitSawANewPark(read, wait, seconds - waited, read.parks);
    var (after, more) := Waited(read, wait, seconds - waited);
    if !SomeReadPending(after, waited + more, seconds, read.parks, turns) {
      CoolingIsWhole(after, waited + more, seconds, read.parks, turns);
    }
  }

  /** The window exactly: a cooldown can end short from such a read if and only if a park is pending at it. */
  lemma ShortExactlyFromAPendingRead(read: Token, waited: real, seconds: real)
    requires read.running && !read.requested && !read.taken && waited < seconds
    ensures (exists wait: Wait, turns: seq<Turn> :: GoesOnShort(read, waited, seconds, wait, turns)) <==> read.park
  {
    if read.park {
      var wait, turns := APendingReadMayGoOnShort(read, waited, seconds);
    } else {
      forall wait: Wait, turns: seq<Turn> ensures !GoesOnShort(read, waited, seconds, wait, turns) {
        AClearReadNeverGoesOnShort(read, waited, seconds, wait, turns);
      }
    }
  }

  /**
   The window is real: of a ten-second cooldown four are waited. A park cuts the first wait at three and is
   withdrawn; another, asked between the take and the second read, cuts the next at one and is withdrawn too.
   */
  lemma AJobMayGoOnShort()
    ensures
      var token := Token(true, false, false, false, 0);
      var first := Wait([[AskPark]], 3.0, []);
      var turns := [
        Turn([AskUnpark], [AskPark], [], Wait([], 1.0, [])),
        Turn([AskUnpark], [], [], Wait([], 0.0, []))];
      && Counted(token, 0)
      && Cooldown(token, 0, 10.0, first, turns) == Rest(Token(true, false, false, false, 2), 4.0, false)
  {
    var token := Token(true, false, false, false, 0);
    var first := Wait([[AskPark]], 3.0, []);
    var one := Turn([AskUnpark], [AskPark], [], Wait([], 1.0, []));
    var two := Turn([AskUnpark], [], [], Wait([], 0.0, []));
    var parked := Token(true, false, true, false, 1);
    assert AllAsked(token, [AskPark]) == AllAsked(parked, [AskPark][1..]) == parked;
    assert Waited(parked, first.(asks := first.asks[1..]), 10.0) == (parked, 3.0);
    assert Waited(token, first, 10.0) == (parked, 3.0);
    var clear := parked.(park := false);
    assert AllAsked(parked, [AskUnpark]) == AllAsked(clear, [AskUnpark][1..]) == clear;
    var again := Token(true, false, true, false, 2);
    assert AllAsked(clear, [AskPark]) == AllAsked(again, [AskPark][1..]) == again;
    assert AtRead(parked, one) == again && AtTake(parked, one) == clear;
    assert Waited(again, one.wait, 7.0) == (again, 1.0);
    var gone := again.(park := false);
    assert AllAsked(again, [AskUnpark]) == AllAsked(gone, [AskUnpark][1..]) == gone;
    assert AtTake(again, two) == gone && AtCount(again, two) == gone;
    assert [one, two][1..] == [two];
    assert Cooling(again, 4.0, 10.0, 2, [two]) == Rest(gone, 4.0, false);
  }

  // --- the loop -----------------------------------------------------------------------------------

  function AskedPath(path: Path, requests: seq<Request>): Path
    decreases |requests|
  {
    if requests == [] then path else AskedPath(Asks(path, requests[0]), requests[1..])
  }

  lemma {:induction false} AskedPathIsAsked(plan: Plan, path: Path, requests: seq<Request>)
    requires Valid(plan, path)
    ensures
      var asked := AskedPath(path, requests);
      && Valid(plan, asked)
      && At(plan, asked) == At(plan, path)
      && TokenOf(plan, asked) == AllAsked(TokenOf(plan, path), requests)
      && MadeOf(asked) == MadeOf(path)
      && Origin(asked) == Origin(path)
      && StartsOf(asked) == StartsOf(path)
      && EndTokens(plan, asked) == EndTokens(plan, path)
      && RunEvents(plan, asked) == RunEvents(plan, path)
      && (Raised(asked) <==> Raised(path))
    decreases |requests|
  {
    if requests != [] {
      AskedPathIsAsked(plan, Asks(path, requests[0]), requests[1..]);
    }
  }

  /** How a run ended, or that it raised. A run reads interrupted only when a stop was asked for. */
  datatype Outcome = EndedAs(status: RunStatus) | RaisedError

  function StatusOf(outcome: Outcome, token: Token): RunStatus
    requires outcome.EndedAs?
  {
    if outcome.status.RunGoing? || (outcome.status.RunInterrupted? && !token.requested) then RunFailed
    else outcome.status
  }

  /** Everything one turn of the loop meets from outside, in order. */
  datatype Lap = Lap(
    toTop: seq<Request>,
    toTopPark: seq<Request>,
    prepares: bool,
    during: seq<Request>,
    outcome: Outcome,
    handsOn: bool,
    toCount: seq<Request>,
    toMade: seq<Request>,
    toMadePark: seq<Request>,
    toPause: seq<Request>,
    seconds: real,
    first: Wait,
    turns: seq<Turn>,
    toEnd: seq<Request>)

  function Origin(path: Path): Token {
    match path
    case Start(token) => token
    case Moves(before, _) => Origin(before)
    case Asks(before, _) => Origin(before)
  }

  /** What a part of the loop leaves: the same job further on, with these events more. */
  predicate Extends(plan: Plan, path: Path, longer: Path, events: seq<JobEvent>) {
    && Valid(plan, path) && Valid(plan, longer)
    && Origin(longer) == Origin(path)
    && StartsOf(longer) == StartsOf(path) + (if events == [] then 0 else 1)
    && (events == [] ==> EndTokens(plan, longer) == EndTokens(plan, path))
    && RunEvents(plan, longer) == RunEvents(plan, path) + events
  }

  /** The checks before run `number`: ends at Ready, or at an end. */
  method CheckTop(plan: Plan, path: Path, lap: Lap, number: nat) returns (longer: Path)
    requires Valid(plan, path) && At(plan, path) == Top(number)
    ensures Extends(plan, path, longer, []) && Raised(longer) == Raised(path) && MadeOf(longer) == MadeOf(path)
    ensures
      var top := AllAsked(TokenOf(plan, path), lap.toTop);
      At(plan, longer) ==
        if top.requested then Ending(JobInterrupted)
        else if number > plan.first && AllAsked(top, lap.toTopPark).park then Ending(JobParked)
        else if !lap.prepares then Ending(JobFailed)
        else Ready(number)
    ensures At(plan, longer).Ready? ==>
              TokenOf(plan, longer) == AllAsked(AllAsked(TokenOf(plan, path), lap.toTop), lap.toTopPark)
  {
    PathsKeepPosition(plan, path);
    AskedPathIsAsked(plan, path, lap.toTop);
    longer := Moves(AskedPath(path, lap.toTop), CheckStop);
    if At(plan, longer).Ending? {
      return;
    }
    // A park that landed after a full cooldown: only after a run this execution made.
    AskedPathIsAsked(plan, longer, lap.toTopPark);
    longer := AskedPath(longer, lap.toTopPark);
    PathsKeepPosition(plan, longer);
    longer := Moves(longer, CheckPark);
    if At(plan, longer).Ending? {
      return;
    }
    if !lap.prepares {
      longer := Moves(longer, FailHandoff);
    }
  }

  /** Run `number`: ends at Made, or at an end, with the run's own events. */
  method RunStep(plan: Plan, path: Path, lap: Lap, number: nat) returns (longer: Path, events: seq<JobEvent>)
    requires Valid(plan, path) && At(plan, path) == Ready(number)
    ensures Extends(plan, path, longer, events)
    ensures EndTokens(plan, path) <= EndTokens(plan, longer)
    ensures lap.outcome.RaisedError? ==>
              && At(plan, longer) == Ending(JobFailed)
              && events == [RunStarted(number), RunFinished(number, RunFailed)]
              && MadeOf(longer) == MadeOf(path)
    ensures lap.outcome.EndedAs? ==>
              var status := StatusOf(lap.outcome, AllAsked(TokenOf(plan, path), lap.during));
              && Raised(longer) == Raised(path)
              && MadeOf(longer) == MadeOf(path) + (if status.RunSucceeded? then 1 else 0)
              && events == [RunStarted(number), RunFinished(number, status)]
              && EndTokens(plan, longer) == EndTokens(plan, path) +
                   (if status.RunSucceeded? then [AllAsked(TokenOf(plan, path), lap.during)] else [])
              && (At(plan, longer).Made? ==> TokenOf(plan, longer) == AllAsked(TokenOf(plan, path), lap.during))
              && At(plan, longer) ==
                   (if status.RunInterrupted? then Ending(JobInterrupted)
                    else if !status.RunSucceeded? || (number < plan.total && !lap.handsOn) then Ending(JobFailed)
                    else Made(number))
  {
    longer := Moves(path, StartRun);
    events := [RunStarted(number)];
    AskedPathIsAsked(plan, longer, lap.during);
    longer := AskedPath(longer, lap.during);
    var status := if lap.outcome.RaisedError? then RunFailed else StatusOf(lap.outcome, TokenOf(plan, longer));
    longer := Moves(longer, EndRun(status));
    events := events + [RunFinished(number, status)];
    if lap.outcome.RaisedError? {
      // The run was finished as failed before its error went on.
      longer := Moves(longer, Raise);
    } else if At(plan, longer).Made? && number < plan.total && !lap.handsOn {
      longer := Moves(longer, FailHandoff);
    }
  }

  /** Further on with the same runs made, and at the same place. */
  predicate Stays(plan: Plan, path: Path, longer: Path) {
    && Extends(plan, path, longer, [])
    && Raised(longer) == Raised(path)
    && MadeOf(longer) == MadeOf(path)
    && At(plan, longer) == At(plan, path)
  }

  lemma AskingStays(plan: Plan, path: Path, longer: Path, requests: seq<Request>)
    requires Stays(plan, path, longer)
    ensures Stays(plan, path, AskedPath(longer, requests))
    ensures TokenOf(plan, AskedPath(longer, requests)) == AllAsked(TokenOf(plan, longer), requests)
  {
    AskedPathIsAsked(plan, longer, requests);
  }

  /** The cooldown, as its loop waits it; a park ends it, and a stop is the caller's to see. */
  method CoolDown(plan: Plan, path: Path, parks: nat, seconds: real, first: Wait, turns: seq<Turn>)
    returns (longer: Path, waited: real, parked: bool)
    requires Valid(plan, path) && At(plan, path).Pause? && At(plan, path).number < plan.total
    ensures Extends(plan, path, longer, []) && Raised(longer) == Raised(path) && MadeOf(longer) == MadeOf(path)
    ensures Rest(TokenOf(plan, longer), waited, parked) == Cooldown(TokenOf(plan, path), parks, seconds, first, turns)
    ensures At(plan, longer) == if parked then Ending(JobParked) else At(plan, path)
  {
    var counted := parks;
    longer, waited := WaitOut(plan, path, first, seconds);
    parked := false;
    var i := 0;
    while waited < seconds && !TokenOf(plan, longer).requested
      invariant 0 <= i <= |turns|
      invariant Stays(plan, path, longer)
      invariant Cooldown(TokenOf(plan, path), parks, seconds, first, turns)
             == Cooling(TokenOf(plan, longer), waited, seconds, counted, turns[i..])
      decreases |turns| - i
    {
      var turn := if i < |turns| then turns[i] else NO_TURN;
      longer, parked := TakePark(plan, longer, turn);
      if parked {
        return;
      }
      var more: Option<real>;
      longer, counted, more := WaitAgain(plan, longer, turn, counted, seconds - waited);
      if more.None? {
        return;
      }
      waited := waited + more.value;
      if i == |turns| {
        return;
      }
      assert turns[i..][1..] == turns[i + 1..];
      i := i + 1;
    }
  }

  /** The rest of a turn: nothing when no park was asked for since the count, else the wait again from a new count. */
  method WaitAgain(plan: Plan, path: Path, turn: Turn, counted: nat, seconds: real)
    returns (longer: Path, recounted: nat, more: Option<real>)
    requires Valid(plan, path)
    ensures Stays(plan, path, longer)
    ensures
      var token := AllAsked(TokenOf(plan, path), turn.beforeCount);
      var read := AllAsked(token, turn.beforeRead);
      if token.parks == counted then more.None? && TokenOf(plan, longer) == token
      else
        && more.Some? && recounted == read.parks
        && (TokenOf(plan, longer), more.value) == Waited(read, turn.wait, seconds)
  {
    AskingStays(plan, path, path, turn.beforeCount);
    longer, recounted, more := AskedPath(path, turn.beforeCount), counted, None;
    if TokenOf(plan, longer).parks != counted {
      AskingStays(plan, path, longer, turn.beforeRead);
      longer := AskedPath(longer, turn.beforeRead);
      recounted := TokenOf(plan, longer).parks;
      var waited: real;
      longer, waited := WaitOut(plan, longer, turn.wait, seconds);
      more := Some(waited);
    }
  }

  /** A turn's take of a park, after its look for a stop found none. */
  method TakePark(plan: Plan, path: Path, turn: Turn) returns (longer: Path, parked: bool)
    requires Valid(plan, path) && At(plan, path).Pause? && At(plan, path).number < plan.total
    requires !TokenOf(plan, path).requested
    ensures Extends(plan, path, longer, []) && Raised(longer) == Raised(path) && MadeOf(longer) == MadeOf(path)
    ensures TokenOf(plan, longer) == AtTake(TokenOf(plan, path), turn).Taken()
    ensures parked == TokenOf(plan, longer).taken
    ensures At(plan, longer) == if parked then Ending(JobParked) else At(plan, path)
  {
    longer := Moves(path, CheckStop);
    AskedPathIsAsked(plan, longer, turn.beforeTake);
    longer := Moves(AskedPath(longer, turn.beforeTake), CheckPark);
    parked := At(plan, longer).Ending?;
  }

  method WaitOut(plan: Plan, path: Path, wait: Wait, seconds: real) returns (longer: Path, waited: real)
    requires Valid(plan, path)
    ensures Stays(plan, path, longer)
    ensures (TokenOf(plan, longer), waited) == Waited(TokenOf(plan, path), wait, seconds)
  {
    longer, waited := path, seconds;
    var i := 0;
    while i < |wait.asks| && !(TokenOf(plan, longer).requested || TokenOf(plan, longer).park)
      invariant 0 <= i <= |wait.asks|
      invariant Stays(plan, path, longer)
      invariant Waited(TokenOf(plan, path), wait, seconds)
             == Waited(TokenOf(plan, longer), wait.(asks := wait.asks[i..]), seconds)
    {
      AskingStays(plan, path, longer, wait.asks[i]);
      assert wait.asks[i..][1..] == wait.asks[i + 1..];
      longer := AskedPath(longer, wait.asks[i]);
      i := i + 1;
    }
    if TokenOf(plan, longer).requested || TokenOf(plan, longer).park {
      waited := Cut(wait, seconds);
    }
    AskingStays(plan, path, longer, wait.after);
    longer := AskedPath(longer, wait.after);
  }

  /** The token as the cooldown after a run finds it, when the boundary saw neither a stop nor a park. */
  function AtCooldown(token: Token, lap: Lap): Token {
    AllAsked(AllAsked(AllAsked(AllAsked(token, lap.toCount), lap.toMade), lap.toMadePark).Taken(), lap.toPause)
  }

  /** In the cooldown of this lap, some turn read the park count again while a park was pending. */
  predicate PendingReadIn(token: Token, lap: Lap) {
    var (after, waited) := Waited(AtCooldown(token, lap), lap.first, lap.seconds);
    SomeReadPending(after, waited, lap.seconds, AllAsked(token, lap.toCount).parks, lap.turns)
  }

  lemma ABoundaryCooldownIsWhole(token: Token, lap: Lap)
    requires token.running && !PendingReadIn(token, lap)
    requires !AllAsked(AllAsked(AllAsked(token, lap.toCount), lap.toMade), lap.toMadePark).Taken().taken
    ensures
      var rest :=
          Cooldown(AtCooldown(token, lap), AllAsked(token, lap.toCount).parks, lap.seconds, lap.first, lap.turns);
      rest.parked || rest.token.requested || rest.waited >= lap.seconds
  {
    var counted := AllAsked(token, lap.toCount);
    RequestsOnlyAdd(token, lap.toCount);
    RequestsOnlyAdd(counted, lap.toMade);
    var take := AllAsked(AllAsked(counted, lap.toMade), lap.toMadePark);
    RequestsOnlyAdd(AllAsked(counted, lap.toMade), lap.toMadePark);
    assert Counted(take.Taken(), counted.parks);
    AskingStaysCounted(take.Taken(), counted.parks, lap.toPause);
    TheWholeCooldownIsWaited(AtCooldown(token, lap), counted.parks, lap.seconds, lap.first, lap.turns);
  }

  /** The token as the boundary after a run takes a park, if no stop was seen first. */
  function AtBoundary(token: Token, lap: Lap): Token {
    AllAsked(AllAsked(AllAsked(token, lap.toCount), lap.toMade), lap.toMadePark)
  }

  predicate StopSeenFirst(token: Token, lap: Lap) {
    AllAsked(AllAsked(token, lap.toCount), lap.toMade).requested
  }

  /** The token as the cooldown after a run that is not the last begins, neither parked nor stopped by then. */
  function AtRest(token: Token, lap: Lap): Token {
    if StopSeenFirst(token, lap) then AllAsked(AllAsked(AllAsked(token, lap.toCount), lap.toMade), lap.toPause)
    else AtCooldown(token, lap)
  }

  function RestOf(token: Token, lap: Lap): Rest {
    Cooldown(AtRest(token, lap), AllAsked(token, lap.toCount).parks, lap.seconds, lap.first, lap.turns)
  }

  // --- what a lap decides -----------------------------------------------------------------------

  /** What comes of one turn of the loop: the token for the next, or the job's end and how its run ended, if one did. */
  datatype Fate = GoesOn(token: Token) | Ends(status: JobStatus, ran: Option<RunStatus>)

  /** After a run that succeeded and handed on, and was not the last. */
  function FateAtBoundary(token: Token, lap: Lap): Fate {
    if !StopSeenFirst(token, lap) && AtBoundary(token, lap).park then Ends(JobParked, Some(RunSucceeded))
    else if AtRest(token, lap).requested || lap.seconds <= 0.0 then GoesOn(AtRest(token, lap))
    else
      var rest := RestOf(token, lap);
      var left := AllAsked(rest.token, lap.toEnd);
      if rest.parked then Ends(JobParked, Some(RunSucceeded))
      else if rest.waited < lap.seconds && left.requested then Ends(JobInterrupted, Some(RunSucceeded))
      else GoesOn(left)
  }

  /** The token as a run's end finds it. */
  function AtRunEnd(token: Token, lap: Lap): Token {
    AllAsked(AllAsked(AllAsked(token, lap.toTop), lap.toTopPark), lap.during)
  }

  function FateOf(plan: Plan, token: Token, lap: Lap, number: nat): Fate {
    var top, ran := AllAsked(token, lap.toTop), AtRunEnd(token, lap);
    if top.requested then Ends(JobInterrupted, None)
    else if number > plan.first && AllAsked(top, lap.toTopPark).park then Ends(JobParked, None)
    else if !lap.prepares then Ends(JobFailed, None)
    else if lap.outcome.RaisedError? then Ends(JobFailed, Some(RunFailed))
    else
      var status := StatusOf(lap.outcome, ran);
      if status.RunInterrupted? then Ends(JobInterrupted, Some(status))
      else if !status.RunSucceeded? || (number < plan.total && !lap.handsOn) then Ends(JobFailed, Some(status))
      else if number >= plan.total then Ends(JobSucceeded, Some(status))
      else FateAtBoundary(ran, lap)
  }

  /** How a job ends: its status, the runs it made, and how the one after them ended, if one did. */
  datatype Decision = Decision(status: JobStatus, made: nat, unmade: Option<RunStatus>)

  /** The laps from run `number` on. */
  function Decide(plan: Plan, token: Token, laps: seq<Lap>, number: nat): Decision
    requires laps != [] && number + |laps| == plan.total + 1
    decreases |laps|
  {
    match FateOf(plan, token, laps[0], number)
    case Ends(status, ran) =>
      if ran == Some(RunSucceeded) then Decision(status, 1, None) else Decision(status, 0, ran)
    case GoesOn(next) =>
      var later := Decide(plan, next, laps[1..], number + 1);
      later.(made := later.made + 1)
  }

  function RunsOf(first: nat, decision: Decision): seq<JobEvent> {
    RunsMade(first, decision.made) +
    if decision.unmade.None? then []
    else [RunStarted(first + decision.made), RunFinished(first + decision.made, decision.unmade.value)]
  }

  /** All that is told of an execution that ends so. */
  function EventsOf(first: nat, decision: Decision): seq<JobEvent> {
    RunsOf(first, decision) + [JobFinished(decision.status, decision.made)]
  }

  // --- the loop's turn --------------------------------------------------------------------------

  /** What follows a succeeded run, up to its cooldown: a stop that landed first wins over a park. */
  method AtRunsEnd(plan: Plan, path: Path, lap: Lap, number: nat) returns (longer: Path, parks: nat)
    requires Valid(plan, path) && At(plan, path) == Made(number)
    ensures Extends(plan, path, longer, []) && Raised(longer) == Raised(path) && MadeOf(longer) == MadeOf(path)
    ensures parks == AllAsked(TokenOf(plan, path), lap.toCount).parks
    ensures
      var token := TokenOf(plan, path);
      if number < plan.total && !StopSeenFirst(token, lap) && AtBoundary(token, lap).park then
        At(plan, longer) == Ending(JobParked)
      else
        && At(plan, longer) == Pause(number)
        && (number < plan.total && StopSeenFirst(token, lap) ==>
            TokenOf(plan, longer) == AllAsked(AllAsked(token, lap.toCount), lap.toMade))
        && (number < plan.total && !StopSeenFirst(token, lap) ==>
            TokenOf(plan, longer) == AtBoundary(token, lap).Taken())
  {
    PathsKeepPosition(plan, path);
    AskedPathIsAsked(plan, path, lap.toCount);
    longer := AskedPath(path, lap.toCount);
    parks := TokenOf(plan, longer).parks;
    AskedPathIsAsked(plan, longer, lap.toMade);
    longer := Moves(AskedPath(longer, lap.toMade), CheckStop);
    if At(plan, longer).MadePark? {
      AskedPathIsAsked(plan, longer, lap.toMadePark);
      longer := AskedPath(longer, lap.toMadePark);
      PathsKeepPosition(plan, longer);
      longer := Moves(longer, CheckPark);
    }
  }

  /** The cooldown and how it ends, after the boundary's own checks. */
  method Rests(plan: Plan, path: Path, parks: nat, lap: Lap, number: nat) returns (longer: Path, waited: real)
    requires Valid(plan, path) && At(plan, path) == Pause(number) && number < plan.total && lap.seconds > 0.0
    requires !TokenOf(plan, path).requested
    ensures Extends(plan, path, longer, []) && Raised(longer) == Raised(path) && MadeOf(longer) == MadeOf(path)
    ensures
      var rest := Cooldown(TokenOf(plan, path), parks, lap.seconds, lap.first, lap.turns);
      && waited == rest.waited
      && At(plan, longer) ==
           (if rest.parked then Ending(JobParked)
            else if waited < lap.seconds && AllAsked(rest.token, lap.toEnd).requested then Ending(JobInterrupted)
            else Top(number + 1))
      && (!rest.parked ==> TokenOf(plan, longer) == AllAsked(rest.token, lap.toEnd))
  {
    var parked: bool;
    longer, waited, parked := CoolDown(plan, path, parks, lap.seconds, lap.first, lap.turns);
    if parked {
      return;
    }
    AskedPathIsAsked(plan, longer, lap.toEnd);
    longer := AskedPath(longer, lap.toEnd);
    // Only a wait that ended early was cut short; a stop after a full wait is seen before the next run.
    longer := Moves(longer, if waited < lap.seconds && TokenOf(plan, longer).requested then StopPause else EndPause);
  }

  /** What follows a succeeded run: the job's end, or the next run, its cooldown waited whole but for the one window. */
  method AfterRun(plan: Plan, path: Path, lap: Lap, number: nat) returns (longer: Path, waited: real)
    requires Valid(plan, path) && At(plan, path) == Made(number)
    ensures Extends(plan, path, longer, []) && Raised(longer) == Raised(path) && MadeOf(longer) == MadeOf(path)
    ensures At(plan, longer) == Ending(JobSucceeded) <==> number == plan.total
    ensures At(plan, longer).Ending? || (number < plan.total && At(plan, longer) == Top(number + 1))
    ensures At(plan, longer).Top? && !TokenOf(plan, longer).requested && !PendingReadIn(TokenOf(plan, path), lap) ==>
              waited >= lap.seconds
    ensures number < plan.total ==>
              match FateAtBoundary(TokenOf(plan, path), lap)
              case GoesOn(next) => At(plan, longer) == Top(number + 1) && TokenOf(plan, longer) == next
              case Ends(status, _) => At(plan, longer) == Ending(status)
  {
    PathsKeepPosition(plan, path);
    ghost var token := TokenOf(plan, path);
    var parks: nat;
    longer, parks := AtRunsEnd(plan, path, lap, number);
    waited := 0.0;
    if At(plan, longer).Ending? {
      return;
    }
    PathsKeepPosition(plan, longer);
    AskedPathIsAsked(plan, longer, lap.toPause);
    RequestsOnlyAdd(TokenOf(plan, longer), lap.toPause);
    longer := AskedPath(longer, lap.toPause);
    if number < plan.total && !TokenOf(plan, longer).requested && lap.seconds > 0.0 {
      assert TokenOf(plan, longer) == AtCooldown(token, lap);
      longer, waited := Rests(plan, longer, parks, lap, number);
      if !PendingReadIn(token, lap) {
        ABoundaryCooldownIsWhole(token, lap);
        RestStaysRequested(token, lap);
      }
    } else {
      longer := Moves(longer, EndPause);
    }
  }

  lemma {:induction false} WaitingKeepsRunning(token: Token, wait: Wait, seconds: real)
    requires token.running
    ensures Waited(token, wait, seconds).0.running
    decreases |wait.asks|
  {
    if token.requested || token.park || wait.asks == [] {
      RequestsOnlyAdd(token, wait.after);
    } else {
      RequestsOnlyAdd(token, wait.asks[0]);
      WaitingKeepsRunning(AllAsked(token, wait.asks[0]), wait.(asks := wait.asks[1..]), seconds);
    }
  }

  lemma {:induction false} CoolingKeepsRunning(token: Token, waited: real, seconds: real, parks: nat, turns: seq<Turn>)
    requires token.running
    ensures Cooling(token, waited, seconds, parks, turns).token.running
    decreases |turns|
  {
    var turn := if turns == [] then NO_TURN else turns[0];
    TurnKeepsRunning(token, turn);
    WaitingKeepsRunning(AtRead(token, turn), turn.wait, seconds - waited);
    if turns != [] {
      var (after, more) := Waited(AtRead(token, turn), turn.wait, seconds - waited);
      CoolingKeepsRunning(after, waited + more, seconds, AtRead(token, turn).parks, turns[1..]);
    }
  }

  /** A stop seen as the cooldown ended is still there after whatever is asked next. */
  lemma RestStaysRequested(token: Token, lap: Lap)
    requires token.running
    ensures
      var rest :=
          Cooldown(AtCooldown(token, lap), AllAsked(token, lap.toCount).parks, lap.seconds, lap.first, lap.turns);
      rest.token.requested ==> AllAsked(rest.token, lap.toEnd).requested
  {
    RequestsOnlyAdd(token, lap.toCount);
    RequestsOnlyAdd(AllAsked(token, lap.toCount), lap.toMade);
    RequestsOnlyAdd(AllAsked(AllAsked(token, lap.toCount), lap.toMade), lap.toMadePark);
    RequestsOnlyAdd(AtBoundary(token, lap).Taken(), lap.toPause);
    var start := AtCooldown(token, lap);
    WaitingKeepsRunning(start, lap.first, lap.seconds);
    var (after, waited) := Waited(start, lap.first, lap.seconds);
    CoolingKeepsRunning(after, waited, lap.seconds, AllAsked(token, lap.toCount).parks, lap.turns);
    RequestsOnlyAdd(Cooldown(start, AllAsked(token, lap.toCount).parks, lap.seconds, lap.first, lap.turns).token,
                    lap.toEnd);
  }

  /** What the boundary after a run promises, when the next run starts: its whole cooldown, but for the one window. */
  predicate RestedOk(token: Token, lap: Lap, waited: real) {
    waited >= lap.seconds || PendingReadIn(token, lap)
  }

  /** Every boundary so far that led to a run. */
  predicate RestsOk(ends: seq<Token>, laps: seq<Lap>, rests: seq<real>, starts: nat) {
    && |rests| <= |ends| && |rests| <= |laps|
    && forall i | 0 <= i < |rests| && i + 1 < starts :: RestedOk(ends[i], laps[i], rests[i])
  }

  lemma TheNextRunRested(ends: seq<Token>, longer: seq<Token>, laps: seq<Lap>, rests: seq<real>)
    requires RestsOk(ends, laps, rests, |rests|) && ends <= longer
    requires |rests| > 0 ==> RestedOk(ends[|rests| - 1], laps[|rests| - 1], rests[|rests| - 1])
    ensures RestsOk(longer, laps, rests, |rests| + 1)
  {
  }

  /** A turn of the loop did what its lap decides: its run's events, if there was one, and where the job is then. */
  predicate LapRan(plan: Plan, path: Path, lap: Lap, number: nat, longer: Path, events: seq<JobEvent>, waited: real)
    requires Valid(plan, path)
  {
    && Extends(plan, path, longer, events) && EndTokens(plan, path) <= EndTokens(plan, longer)
    && (lap.outcome.EndedAs? ==> Raised(longer) == Raised(path))
    && match FateOf(plan, TokenOf(plan, path), lap, number)
       case GoesOn(next) =>
         && number < plan.total && At(plan, longer) == Top(number + 1) && TokenOf(plan, longer) == next
         && events == [RunStarted(number), RunFinished(number, RunSucceeded)]
         && EndTokens(plan, longer) == EndTokens(plan, path) + [AtRunEnd(TokenOf(plan, path), lap)]
         && (next.requested || RestedOk(AtRunEnd(TokenOf(plan, path), lap), lap, waited))
       case Ends(status, ran) =>
         && At(plan, longer) == Ending(status)
         && MadeOf(longer) == MadeOf(path) + (if ran == Some(RunSucceeded) then 1 else 0)
         && events == if ran.None? then [] else [RunStarted(number), RunFinished(number, ran.value)]
  }

  method RunLap(plan: Plan, path: Path, lap: Lap, number: nat)
    returns (longer: Path, events: seq<JobEvent>, waited: real)
    requires Valid(plan, path) && At(plan, path) == Top(number)
    ensures LapRan(plan, path, lap, number, longer, events, waited)
  {
    PathsKeepPosition(plan, path);
    events, waited := [], 0.0;
    longer := CheckTop(plan, path, lap, number);
    if At(plan, longer).Ready? {
      longer, events := RunStep(plan, longer, lap, number);
      if At(plan, longer).Made? {
        longer, waited := AfterRun(plan, longer, lap, number);
      }
    }
  }

  /** What a loop past some laps has told, against what all laps decide. */
  predicate DecidedSoFar(
    plan: Plan, laps: seq<Lap>, whole: Decision, path: Path, events: seq<JobEvent>, number: nat)
    requires Valid(plan, path) && plan.first <= number <= plan.total && |laps| == plan.total + 1 - plan.first
  {
    if At(plan, path).Ending? then
      At(plan, path).status == whole.status && MadeOf(path) == whole.made && events == RunsOf(plan.first, whole)
    else
      var later := Decide(plan, TokenOf(plan, path), laps[number - plan.first..], number);
      && At(plan, path) == Top(number)
      && whole == later.(made := later.made + number - plan.first)
      && events == RunsMade(plan.first, number - plan.first)
  }

  lemma TheFirstLeftDecides(plan: Plan, token: Token, laps: seq<Lap>, number: nat)
    requires laps != [] && number + |laps| == plan.total + 1
    ensures
      var decision := Decide(plan, token, laps, number);
      match FateOf(plan, token, laps[0], number)
      case GoesOn(next) =>
        && number < plan.total
        && var later := Decide(plan, next, laps[1..], number + 1);
        && decision == later.(made := later.made + 1)
      case Ends(status, ran) =>
        decision == if ran == Some(RunSucceeded) then Decision(status, 1, None) else Decision(status, 0, ran)
  {
  }

  lemma OneMoreMade(first: nat, made: nat)
    ensures RunsMade(first, made + 1)
         == RunsMade(first, made) + [RunStarted(first + made), RunFinished(first + made, RunSucceeded)]
  {
  }

  lemma OneLapGoesOn(
    plan: Plan, laps: seq<Lap>, whole: Decision, path: Path, events: seq<JobEvent>, number: nat, longer: Path,
    ran: seq<JobEvent>, waited: real)
    requires Valid(plan, path) && At(plan, path) == Top(number)
    requires plan.first <= number <= plan.total && |laps| == plan.total + 1 - plan.first
    requires DecidedSoFar(plan, laps, whole, path, events, number)
    requires LapRan(plan, path, laps[number - plan.first], number, longer, ran, waited) && !At(plan, longer).Ending?
    ensures number < plan.total && DecidedSoFar(plan, laps, whole, longer, events + ran, number + 1)
  {
    var left, token := laps[number - plan.first..], TokenOf(plan, path);
    assert left[0] == laps[number - plan.first] && left[1..] == laps[number - plan.first + 1..];
    TheFirstLeftDecides(plan, token, left, number);
    OneMoreMade(plan.first, number - plan.first);
  }

  lemma OneLapEnds(
    plan: Plan, laps: seq<Lap>, whole: Decision, path: Path, events: seq<JobEvent>, number: nat, longer: Path,
    ran: seq<JobEvent>, waited: real)
    requires Valid(plan, path) && At(plan, path) == Top(number)
    requires plan.first <= number <= plan.total && |laps| == plan.total + 1 - plan.first
    requires DecidedSoFar(plan, laps, whole, path, events, number)
    requires LapRan(plan, path, laps[number - plan.first], number, longer, ran, waited) && At(plan, longer).Ending?
    ensures DecidedSoFar(plan, laps, whole, longer, events + ran, number)
  {
    PathsKeepPosition(plan, path);
    var left, token := laps[number - plan.first..], TokenOf(plan, path);
    assert left[0] == laps[number - plan.first];
    TheFirstLeftDecides(plan, token, left, number);
    OneMoreMade(plan.first, number - plan.first);
    assert events + ran == RunsOf(plan.first, whole);
  }

  lemma OneLapDecides(
    plan: Plan, laps: seq<Lap>, whole: Decision, path: Path, events: seq<JobEvent>, number: nat, longer: Path,
    ran: seq<JobEvent>, waited: real)
    requires Valid(plan, path) && At(plan, path) == Top(number)
    requires plan.first <= number <= plan.total && |laps| == plan.total + 1 - plan.first
    requires DecidedSoFar(plan, laps, whole, path, events, number)
    requires LapRan(plan, path, laps[number - plan.first], number, longer, ran, waited)
    ensures At(plan, longer).Ending? || (number < plan.total && At(plan, longer) == Top(number + 1))
    ensures DecidedSoFar(plan, laps, whole, longer, events + ran, if At(plan, longer).Top? then number + 1 else number)
  {
    if At(plan, longer).Ending? {
      OneLapEnds(plan, laps, whole, path, events, number, longer, ran, waited);
    } else {
      OneLapGoesOn(plan, laps, whole, path, events, number, longer, ran, waited);
    }
  }

  lemma NothingIsDecidedYet(plan: Plan, token: Token, laps: seq<Lap>)
    requires 1 <= plan.first <= plan.total && token.running && !token.taken
    requires |laps| == plan.total + 1 - plan.first
    ensures DecidedSoFar(plan, laps, Decide(plan, token, laps, plan.first), Start(token), [], plan.first)
  {
    assert laps[0..] == laps;
  }

  /** What it has waited: at every boundary that led to a run, and, unless a stop was asked for since, at the last. */
  predicate RestedSoFar(plan: Plan, laps: seq<Lap>, path: Path, rests: seq<real>)
    requires Valid(plan, path)
  {
    var ends, starts := EndTokens(plan, path), StartsOf(path);
    && |rests| <= |ends| && |rests| <= |laps| && starts <= |rests| + 1
    && RestsOk(ends, laps, rests, starts)
    && (At(plan, path).Top? ==> starts == |rests| == |ends|)
    && (At(plan, path).Top? && |rests| > 0 && !TokenOf(plan, path).requested ==>
          RestedOk(ends[|rests| - 1], laps[|rests| - 1], rests[|rests| - 1]))
  }

  lemma OneLapRests(
    plan: Plan, laps: seq<Lap>, path: Path, rests: seq<real>, number: nat, longer: Path, ran: seq<JobEvent>,
    waited: real)
    requires Valid(plan, path) && At(plan, path) == Top(number) && |rests| < |laps|
    requires RestedSoFar(plan, laps, path, rests)
    requires LapRan(plan, path, laps[|rests|], number, longer, ran, waited)
    ensures RestedSoFar(plan, laps, longer, if At(plan, longer).Top? then rests + [waited] else rests)
  {
    PathsKeepPosition(plan, path);
    RequestsOnlyAdd(TokenOf(plan, path), laps[|rests|].toTop);
    if ran != [] {
      TheNextRunRested(EndTokens(plan, path), EndTokens(plan, longer), laps, rests);
    }
  }

  /** One turn more of a loop that has told `events` and waited `rests`. */
  method TurnOnce(
    plan: Plan, laps: seq<Lap>, ghost whole: Decision, path: Path, events: seq<JobEvent>, rests: seq<real>, number: nat)
    returns (longer: Path, told: seq<JobEvent>, waited: real)
    requires Valid(plan, path) && At(plan, path) == Top(number) && RunEvents(plan, path) == events
    requires plan.first <= number <= plan.total && |laps| == plan.total + 1 - plan.first
    requires |rests| == number - plan.first
    requires DecidedSoFar(plan, laps, whole, path, events, number) && RestedSoFar(plan, laps, path, rests)
    ensures Valid(plan, longer) && Origin(longer) == Origin(path) && RunEvents(plan, longer) == told
    ensures At(plan, longer).Ending? || (number < plan.total && At(plan, longer) == Top(number + 1))
    ensures DecidedSoFar(plan, laps, whole, longer, told, if At(plan, longer).Top? then number + 1 else number)
    ensures RestedSoFar(plan, laps, longer, if At(plan, longer).Top? then rests + [waited] else rests)
    ensures laps[number - plan.first].outcome.EndedAs? ==> Raised(longer) == Raised(path)
  {
    var ran: seq<JobEvent>;
    longer, ran, waited := RunLap(plan, path, laps[number - plan.first], number);
    told := events + ran;
    OneLapDecides(plan, laps, whole, path, events, number, longer, ran, waited);
    OneLapRests(plan, laps, path, rests, number, longer, ran, waited);
  }

  /**
   The whole execution: what is told of it is what its laps decide, one JobFinished last. It goes a path the chain's
   steps allow; and before every run but the first it waited the whole cooldown after the one before, unless a park was
   pending there at a second read of the count.
   */
  method RunRuns(plan: Plan, token: Token, laps: seq<Lap>)
    returns (events: seq<JobEvent>, path: Path, rests: seq<real>)
    requires 1 <= plan.first <= plan.total && token.running && !token.taken
    requires |laps| == plan.total + 1 - plan.first
    ensures events == EventsOf(plan.first, Decide(plan, token, laps, plan.first))
    ensures Ended(plan, path) && Origin(path) == token
    ensures events == RunEvents(plan, path) + [JobFinished(At(plan, path).status, MadeOf(path))]
    ensures (forall lap | lap in laps :: lap.outcome.EndedAs?) ==> !Raised(path)
    ensures StartsOf(path) <= |rests| + 1
    ensures RestsOk(EndTokens(plan, path), laps, rests, StartsOf(path))
  {
    path, events, rests := Start(token), [], [];
    var number := plan.first;
    ghost var whole := Decide(plan, token, laps, plan.first);
    NothingIsDecidedYet(plan, token, laps);
    while !At(plan, path).Ending?
      invariant plan.first <= number <= plan.total && |rests| == number - plan.first
      invariant Valid(plan, path) && Origin(path) == token && RunEvents(plan, path) == events
      invariant At(plan, path) == Top(number) || At(plan, path).Ending?
      invariant DecidedSoFar(plan, laps, whole, path, events, number)
      invariant RestedSoFar(plan, laps, path, rests)
      invariant (forall lap | lap in laps :: lap.outcome.EndedAs?) ==> !Raised(path)
      decreases plan.total - number, if At(plan, path).Ending? then 0 else 1
    {
      var waited: real;
      path, events, waited := TurnOnce(plan, laps, whole, path, events, rests, number);
      if At(plan, path).Top? {
        number := number + 1;
        rests := rests + [waited];
      }
    }
    events := events + [JobFinished(At(plan, path).status, MadeOf(path))];
  }
}
