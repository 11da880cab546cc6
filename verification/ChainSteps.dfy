/**
 The chain of runs one execution makes, as the steps between its reads of the token: where the job
 is, which moves it may make there, and how it may end.
 */
module ChainSteps {
  import opened CancelTokens
  import opened QueueStore

  /** The runs left to make: a resume starts at `first`, `total` counts the whole chain. */
  datatype Plan = Plan(first: nat, total: nat)

  datatype Position =
    | Top(number: nat)       // the loop's check for a stop, before run `number`
    | TopPark(number: nat)   // the check for a park, before run `number`
    | Ready(number: nat)
    | Going(number: nat)
    | Made(number: nat)      // run `number` succeeded; the check for a stop after it
    | MadePark(number: nat)  // the check for a park after run `number`
    | Pause(number: nat)     // the cooldown after run `number`, before its next look at the token
    | PausePark(number: nat) // no stop seen there; the check for a park
    | Ending(status: JobStatus)

  datatype Move =
    | CheckStop
    | CheckPark
    | FailHandoff
    | StartRun
    | EndRun(status: RunStatus)
    | EndPause
    | StopPause
    | Raise

  predicate Allowed(plan: Plan, at: Position, move: Move, token: Token) {
    match move
    case CheckStop => at.Top? || at.Made? || (at.Pause? && at.number < plan.total)
    case CheckPark => at.TopPark? || at.MadePark? || at.PausePark?
    case FailHandoff => at.Ready? || (at.Made? && at.number < plan.total)
    case StartRun => at.Ready?
    case EndRun(status) => at.Going? && !status.RunGoing? && (status.RunInterrupted? ==> token.requested)
    case EndPause => at.Pause?
    case StopPause => at.Pause? && at.number < plan.total && token.requested
    case Raise => true
  }

  /** A park is taken only after a run this execution made. */
  predicate TakesPark(plan: Plan, at: Position) {
    at.TopPark? ==> at.number > plan.first
  }

  function TokenAfter(plan: Plan, at: Position, move: Move, token: Token): Token {
    if move.CheckPark? && TakesPark(plan, at) then token.Taken() else token
  }

  function Moved(plan: Plan, at: Position, move: Move, token: Token): Position
    requires Allowed(plan, at, move, token)
  {
    match move
    case CheckStop =>
      if at.Top? then (if token.requested then Ending(JobInterrupted) else TopPark(at.number))
      else if at.Pause? then (if token.requested then at else PausePark(at.number))
      else if at.number < plan.total && !token.requested then MadePark(at.number)
      else Pause(at.number)
    case CheckPark =>
      if TakesPark(plan, at) && token.Taken().taken then Ending(JobParked)
      else if at.TopPark? then Ready(at.number)
      else Pause(at.number)
    case FailHandoff => Ending(JobFailed)
    case StartRun => Going(at.number)
    case EndRun(status) =>
      if status.RunSucceeded? then Made(at.number)
      else Ending(if status.RunInterrupted? then JobInterrupted else JobFailed)
    case EndPause => if at.number < plan.total then Top(at.number + 1) else Ending(JobSucceeded)
    case StopPause => Ending(JobInterrupted)
    case Raise => Ending(JobFailed)
  }

  function MadeAfter(move: Move, made: nat): nat {
    if move == EndRun(RunSucceeded) then made + 1 else made
  }

  /** Where the job is, against how many runs this execution has made. */
  predicate PositionOk(plan: Plan, at: Position, made: nat) {
    && 1 <= plan.first <= plan.total
    && match at
       case Top(k) => k <= plan.total && k == plan.first + made
       case TopPark(k) => k <= plan.total && k == plan.first + made
       case Ready(k) => k <= plan.total && k == plan.first + made
       case Going(k) => k <= plan.total && k == plan.first + made
       case Made(k) => k <= plan.total && 0 < made && k == plan.first + made - 1
       case MadePark(k) => k < plan.total && 0 < made && k == plan.first + made - 1
       case Pause(k) => k <= plan.total && 0 < made && k == plan.first + made - 1
       case PausePark(k) => k < plan.total && 0 < made && k == plan.first + made - 1
       case Ending(status) =>
         && !status.JobRunning?
         && plan.first + made <= plan.total + 1
         && (status.JobSucceeded? ==> plan.first + made == plan.total + 1)
         && (status.JobParked? ==> 0 < made && plan.first + made <= plan.total)
  }

  /** What an end shows of the token: a park that took effect, or a stop that was asked for. */
  predicate EndShows(at: Position, token: Token) {
    at.Ending? ==>
      && (at.status.JobParked? ==> token.taken)
      && (at.status.JobInterrupted? ==> token.requested)
  }

  predicate TakenOnlyAtTheEnd(at: Position, token: Token) {
    token.taken ==> at in {Ending(JobParked), Ending(JobFailed)}
  }

  lemma MovesKeepPosition(plan: Plan, at: Position, move: Move, token: Token, made: nat)
    requires PositionOk(plan, at, made) && Allowed(plan, at, move, token)
    requires EndShows(at, token) && TakenOnlyAtTheEnd(at, token)
    ensures PositionOk(plan, Moved(plan, at, move, token), MadeAfter(move, made))
    ensures EndShows(Moved(plan, at, move, token), TokenAfter(plan, at, move, token))
    ensures TakenOnlyAtTheEnd(Moved(plan, at, move, token), TokenAfter(plan, at, move, token))
  {
  }
}
