/**
 The token of one running job: whether a stop or a park was asked for, and whether a park has
 taken effect. A token belongs to one job at a time, between `Begin` and `End`.
 */
module CancelTokens {

  datatype Token = Token(
    running: bool,
    requested: bool,
    park: bool,
    taken: bool,
    parks: nat)
  {
    /** A new job: every mark of the job before it is gone. */
    function Begun(): Token {
      Token(true, false, false, false, 0)
    }

    function Ended(): Token {
      this.(running := false)
    }

    /** A stop is a no-op between jobs. */
    function Cancelled(): Token {
      if running then this.(requested := true) else this
    }

    function Parked(): Token {
      if running then this.(park := true, parks := parks + 1) else this
    }

    /** Withdraws a park that has not been taken. */
    function Unparked(): Token {
      if taken then this else this.(park := false)
    }

    /** The executor's check-and-commit at a run boundary; once taken, a park stays taken. */
    function Taken(): Token {
      if park then this.(taken := true) else this
    }
  }

  const IDLE_TOKEN := Token(false, false, false, false, 0)

  /** What other threads may ask of the token while a job runs. */
  datatype Request = AskCancel | AskPark | AskUnpark

  function Asked(token: Token, request: Request): Token {
    match request
    case AskCancel => token.Cancelled()
    case AskPark => token.Parked()
    case AskUnpark => token.Unparked()
  }

  function AllAsked(token: Token, requests: seq<Request>): Token
    decreases |requests|
  {
    if requests == [] then token else AllAsked(Asked(token, requests[0]), requests[1..])
  }

  /**
   Whatever the other threads ask of a running job's token: a stop once requested stays requested,
   a park once taken stays taken, no request takes a park, and the park count never falls.
   */
  lemma {:induction false} RequestsOnlyAdd(token: Token, requests: seq<Request>)
    requires token.running
    ensures
      var after := AllAsked(token, requests);
      && after.running
      && (token.requested ==> after.requested)
      && after.taken == token.taken
      && token.parks <= after.parks
      && (after.parks == token.parks && after.park ==> token.park)
      && (token.taken && token.park ==> after.park)
    decreases |requests|
  {
    if requests != [] {
      RequestsOnlyAdd(Asked(token, requests[0]), requests[1..]);
    }
  }

  /** Whether the last park or unpark among them, if there is one, is a park. */
  predicate ParkStands(park: bool, requests: seq<Request>) {
    if requests == [] then park
    else
      match requests[|requests| - 1]
      case AskPark => true
      case AskUnpark => false
      case AskCancel => ParkStands(park, requests[..|requests| - 1])
  }

  lemma {:induction false} AskedInOrder(token: Token, requests: seq<Request>, last: Request)
    ensures AllAsked(token, requests + [last]) == Asked(AllAsked(token, requests), last)
    decreases |requests|
  {
    if requests == [] {
      assert AllAsked(token, requests + [last]) == AllAsked(Asked(token, last), (requests + [last])[1..]);
    } else {
      assert (requests + [last])[1..] == requests[1..] + [last];
      AskedInOrder(Asked(token, requests[0]), requests[1..], last);
    }
  }

  /**
   A running job's token after any requests: a stop if one was asked for, then or before; the park as last asked, unless
   it was taken; and each park asked for counted, one that stands already too.
   */
  lemma {:induction false} ATokenShowsWhatWasAsked(token: Token, requests: seq<Request>)
    requires token.running && (token.taken ==> token.park)
    ensures
      AllAsked(token, requests) == Token(
        true,
        token.requested || AskCancel in requests,
        token.taken || ParkStands(token.park, requests),
        token.taken,
        token.parks + multiset(requests)[AskPark])
  {
    if requests != [] {
      var before, last := requests[..|requests| - 1], requests[|requests| - 1];
      assert requests == before + [last];
      ATokenShowsWhatWasAsked(token, before);
      AskedInOrder(token, before, last);
    }
  }

  /** A job begins with a token that shows nothing of the job before it. */
  lemma ABegunTokenShowsNothing(token: Token, requests: seq<Request>)
    ensures
      AllAsked(token.Begun(), requests)
      == Token(true, AskCancel in requests, ParkStands(false, requests), false, multiset(requests)[AskPark])
  {
    ATokenShowsWhatWasAsked(token.Begun(), requests);
  }

  /** Between jobs a token takes no stop and no park, and a taken park is not withdrawn. */
  lemma AnEndedTokenTakesNothing(token: Token)
    ensures token.Ended().Cancelled() == token.Ended() && token.Ended().Parked() == token.Ended()
    ensures token.taken ==> token.Unparked() == token && token.Taken().taken
    ensures !token.taken ==> token.Taken().taken == token.park && token.Unparked() == token.(park := false)
  {
  }

  /** The token as an object shared by the worker's thread, the request threads and the executor. */
  class CancelToken {
    var running: bool
    var requested: bool
    var park: bool
    var taken: bool
    var parks: nat

    ghost function View(): Token
      reads this
    {
      Token(running, requested, park, taken, parks)
    }

    constructor ()
      ensures View() == IDLE_TOKEN
    {
      running, requested, park, taken, parks := false, false, false, false, 0;
    }

    /** False, changing nothing, when a job is already running on this token. */
    method Begin() returns (begun: bool)
      modifies this
      ensures begun == !old(running)
      ensures View() == if begun then old(View()).Begun() else old(View())
    {
      if running {
        return false;
      }
      running, requested := true, false;
      park, taken, parks := false, false, 0;
      return true;
    }

    method End()
      modifies this
      ensures View() == old(View()).Ended()
    {
      running := false;
    }

    method Cancel() returns (accepted: bool)
      modifies this
      ensures accepted == old(running)
      ensures View() == old(View()).Cancelled()
    {
      if running {
        requested := true;
      }
      return running;
    }

    method Park() returns (accepted: bool)
      modifies this
      ensures accepted == old(running)
      ensures View() == old(View()).Parked()
    {
      if running {
        park := true;
        parks := parks + 1;
      }
      return running;
    }

    /** The last step of an unpark, after its commit went through. */
    method Withdraw()
      requires !taken
      modifies this
      ensures View() == old(View()).Unparked()
    {
      park := false;
    }

    method TakePark() returns (parked: bool)
      modifies this
      ensures View() == old(View()).Taken()
      ensures parked == View().taken
    {
      if park {
        taken := true;
      }
      return taken;
    }
  }
}
