/**
 The queue's hold: while held, nothing new starts. It lives in memory and in one saved row, so it
 survives a restart, and it remembers which entry's park made it and for whom.
 */
module QueueHolds {
  import opened Options
  import opened Callers

  /** `maker` is the entry whose park reservation made the hold, or nothing for a direct hold. */
  datatype HoldState = HoldState(held: bool, since: Option<string>, maker: Option<nat>, caller: Caller)
  {
    /** A hold always saves when it began, so one without it was read from a damaged row. */
    predicate Damaged() {
      held && since.None?
    }

    predicate Persons() {
      held && !IsAgent(caller)
    }
  }

  const NOT_HELD := HoldState(false, None, None, None)

  datatype SavedRow = Unreadable | Fields(since: string, maker: Option<nat>, caller: Caller)

  /** No row is no hold; a row that cannot be read counts as held, by nobody in particular. */
  function ReadHold(row: Option<SavedRow>): HoldState {
    match row
    case None => NOT_HELD
    case Some(Unreadable) => HoldState(true, None, None, None)
    case Some(Fields(since, maker, caller)) => HoldState(true, Some(since), maker, caller)
  }

  /** The hold in memory with its saved row. */
  datatype Holding = Holding(state: HoldState, row: Option<SavedRow>)
  {
    predicate Coherent() {
      state == ReadHold(row)
    }
  }

  datatype Outcome = Done(changed: bool) | NotPermitted | StoreFailed

  /** The maker and caller of a held queue's hold after one more hold; nothing when it changes nothing. */
  function HeldAgain(state: HoldState, maker: Option<nat>, caller: Caller): Option<(Option<nat>, Caller)> {
    var newMaker := if maker.None? then None else state.maker;
    var newCaller :=
      if IsAgent(caller) != IsAgent(state.caller) then
        if IsAgent(caller) then state.caller else caller
      else if newMaker.None? && state.maker.Some? then caller
      else state.caller;
    if state.Damaged() || (newMaker, newCaller) == (state.maker, state.caller) then None
    else Some((newMaker, newCaller))
  }

  function Written(since: string, maker: Option<nat>, caller: Caller): Holding {
    Holding(HoldState(true, Some(since), maker, caller), Some(Fields(since, maker, caller)))
  }

  /** A hold at `now`; `saved` says whether the row's write goes through. */
  function Held(h: Holding, maker: Option<nat>, caller: Caller, now: string, saved: bool): (Holding, Outcome) {
    if !h.state.held then
      if saved then (Written(now, maker, caller), Done(true)) else (h, StoreFailed)
    else
      match HeldAgain(h.state, maker, caller)
      case None => (h, Done(false))
      case Some((newMaker, newCaller)) =>
        if !saved then (h, StoreFailed)
        else (Written(if h.state.since.Some? then h.state.since.value else now, newMaker, newCaller), Done(false))
  }

  /** A release, only of entry `only`'s hold when one is named; `deleted` says whether the row's delete goes through. */
  function Released(h: Holding, only: Option<nat>, caller: Caller, deleted: bool): (Holding, Outcome) {
    if !h.state.held || (only.Some? && h.state.maker != only) then (h, Done(false))
    else if IsAgent(caller) && !IsAgent(h.state.caller) then (h, NotPermitted)
    else if !deleted then (h, StoreFailed)
    else (Holding(NOT_HELD, None), Done(true))
  }

  class QueueHold {
    var state: HoldState
    var row: Option<SavedRow>

    ghost function View(): Holding
      reads this
    {
      Holding(state, row)
    }

    constructor (saved: Option<SavedRow>)
      ensures View() == Holding(ReadHold(saved), saved)
    {
      state, row := ReadHold(saved), saved;
    }

    method Hold(maker: Option<nat>, caller: Caller, now: string, saved: bool) returns (outcome: Outcome)
      modifies this
      ensures (View(), outcome) == Held(old(View()), maker, caller, now, saved)
    {
      var wasHeld := state.held;
      var keptMaker, holder := maker, caller;
      if wasHeld {
        var again := HeldAgain(state, maker, caller);
        if again.None? {
          return Done(false);
        }
        keptMaker, holder := again.value.0, again.value.1;
      }
      var since := if wasHeld && state.since.Some? then state.since.value else now;
      // The row first: a hold that could not be saved is not held in memory either.
      if !saved {
        return StoreFailed;
      }
      row := Some(Fields(since, keptMaker, holder));
      state := HoldState(true, Some(since), keptMaker, holder);
      return Done(!wasHeld);
    }

    method Release(only: Option<nat>, caller: Caller, deleted: bool) returns (outcome: Outcome)
      modifies this
      ensures (View(), outcome) == Released(old(View()), only, caller, deleted)
    {
      if !state.held || (only.Some? && state.maker != only) {
        return Done(false);
      }
      if IsAgent(caller) && !IsAgent(state.caller) {
        return NotPermitted;
      }
      // The row first: a hold whose row could not be removed is still held in memory too.
      if !deleted {
        return StoreFailed;
      }
      row := None;
      state := NOT_HELD;
      return Done(true);
    }
  }

  // --- every sequence of holds and releases ---------------------------------------------------

  datatype HoldCall =
    | CallHold(maker: Option<nat>, caller: Caller, now: string, saved: bool)
    | CallRelease(only: Option<nat>, caller: Caller, deleted: bool)

  function Called(h: Holding, call: HoldCall): (Holding, Outcome) {
    match call
    case CallHold(maker, caller, now, saved) => Held(h, maker, caller, now, saved)
    case CallRelease(only, caller, deleted) => Released(h, only, caller, deleted)
  }

  function AllCalled(h: Holding, calls: seq<HoldCall>): Holding
    decreases |calls|
  {
    if calls == [] then h else AllCalled(Called(h, calls[0]).0, calls[1..])
  }

  /** A person's release (an unpark's included) that really ended the hold. */
  predicate PersonEnds(h: Holding, call: HoldCall) {
    call.CallRelease? && !IsAgent(call.caller) && Called(h, call).1 == Done(true)
  }

  /** A release that really ended the hold, whoever asked. */
  predicate Ends(h: Holding, call: HoldCall) {
    call.CallRelease? && Called(h, call).1 == Done(true)
  }

  /** Whether some call of `calls`, made in order from `h`, is a person's release that ended the hold. */
  predicate SomePersonEnds(h: Holding, calls: seq<HoldCall>)
    decreases |calls|
  {
    calls != [] && (PersonEnds(h, calls[0]) || SomePersonEnds(Called(h, calls[0]).0, calls[1..]))
  }

  predicate SomeEnds(h: Holding, calls: seq<HoldCall>)
    decreases |calls|
  {
    calls != [] && (Ends(h, calls[0]) || SomeEnds(Called(h, calls[0]).0, calls[1..]))
  }

  /** Memory reads as the saved row does after every sequence of calls, failed saves and deletes included. */
  lemma {:induction false} MemoryReadsAsTheRow(h: Holding, calls: seq<HoldCall>)
    requires h.Coherent()
    ensures AllCalled(h, calls).Coherent()
    decreases |calls|
  {
    if calls != [] {
      MemoryReadsAsTheRow(Called(h, calls[0]).0, calls[1..]);
    }
  }

  /** A person's hold stays held, and a person's, through any calls by anyone, until a person releases it. */
  lemma {:induction false} PersonsHoldStands(h: Holding, calls: seq<HoldCall>)
    requires h.state.Persons()
    requires !SomePersonEnds(h, calls)
    ensures AllCalled(h, calls).state.Persons()
    decreases |calls|
  {
    if calls != [] {
      PersonsHoldStands(Called(h, calls[0]).0, calls[1..]);
    }
  }

  /** Any hold lasts, begun when it began, until some release ends it. */
  lemma {:induction false} HoldLasts(h: Holding, calls: seq<HoldCall>)
    requires h.state.held
    requires !SomeEnds(h, calls)
    ensures AllCalled(h, calls).state.held
    ensures AllCalled(h, calls).state.since == h.state.since
    decreases |calls|
  {
    if calls != [] {
      HoldLasts(Called(h, calls[0]).0, calls[1..]);
    }
  }

  /** Exactly when a release ends the hold; every other release changes nothing at all. */
  lemma ReleaseEndsExactlyWhenAllowed(h: Holding, only: Option<nat>, caller: Caller, deleted: bool)
    ensures
      var (after, outcome) := Released(h, only, caller, deleted);
      && (outcome == Done(true) <==>
            && deleted && h.state.held
            && (only.Some? ==> h.state.maker == only)
            && !(IsAgent(caller) && h.state.Persons()))
      && (outcome == Done(true) ==> !after.state.held && after.row.None? && after.Coherent())
      && (outcome != Done(true) ==> after == h)
  {
  }

  /** And the answer of every other: nothing asked of it, an agent asking for a person's, or the delete failed. */
  lemma ReleaseAnswersExactly(h: Holding, only: Option<nat>, caller: Caller, deleted: bool)
    ensures
      var outcome := Released(h, only, caller, deleted).1;
      var asked := h.state.held && (only == None || only == h.state.maker);
      var forbidden := caller == Some("mcp") && h.state.caller != Some("mcp");
      && (outcome == Done(false) <==> !asked)
      && (outcome == NotPermitted <==> asked && forbidden)
      && (outcome == StoreFailed <==> asked && !forbidden && !deleted)
      && (outcome == Done(true) <==> asked && !forbidden && deleted)
  {
  }

  /** A hold where there was none is the maker's and the caller's, from now; a failed save makes none. */
  lemma AFirstHoldIsTheCallers(h: Holding, maker: Option<nat>, caller: Caller, now: string, saved: bool)
    requires !h.state.held
    ensures
      var (after, outcome) := Held(h, maker, caller, now, saved);
      && (saved ==>
          outcome == Done(true) && after.state == HoldState(true, Some(now), maker, caller) && after.Coherent())
      && (!saved ==> outcome == StoreFailed && after == h)
  {
  }

  /**
   One more hold on a readable hold, saved: a direct one is no entry's from then on, and a park's leaves whose it is; a
   person's is a person's from then on, an agent's leaves a person's as it was; and it began when it began.
   */
  lemma AHoldAgainKeeps(h: Holding, maker: Option<nat>, caller: Caller, now: string)
    requires h.state.held && h.state.since.Some? && h.Coherent()
    ensures
      var (after, outcome) := Held(h, maker, caller, now, true);
      && outcome == Done(false) && after.Coherent()
      && after.state.held && after.state.since == h.state.since
      && after.state.maker == (if maker == None then None else h.state.maker)
      && (after.state.Persons() <==> h.state.Persons() || caller != Some("mcp"))
      && after.state.caller in {h.state.caller, caller}
      && (h.state.Persons() && caller == Some("mcp") ==> after.state.caller == h.state.caller)
      && (!h.state.Persons() && caller != Some("mcp") ==> after.state.caller == caller)
      && (h.state.Persons() && caller != Some("mcp") ==>
            after.state.caller == if maker == None && h.state.maker != None then caller else h.state.caller)
  {
  }

  /** A direct hold outlasts every unpark, and every park made on it, until some direct release. */
  lemma {:induction false} ADirectHoldOutlastsUnparks(h: Holding, calls: seq<HoldCall>)
    requires h.state.held && h.state.maker == None
    requires forall call | call in calls && call.CallRelease? :: call.only != None
    ensures AllCalled(h, calls).state.held && AllCalled(h, calls).state.maker == None
    ensures AllCalled(h, calls).state.since == h.state.since
    decreases |calls|
  {
    if calls != [] {
      ADirectHoldOutlastsUnparks(Called(h, calls[0]).0, calls[1..]);
    }
  }

  /** A row that cannot be read holds the queue for good: only a release that is allowed a person ends it. */
  lemma ADamagedRowHolds(maker: Option<nat>, caller: Caller, now: string, saved: bool, deleted: bool)
    ensures
      var h := Holding(ReadHold(Some(Unreadable)), Some(Unreadable));
      && h.state.held && Held(h, maker, caller, now, saved) == (h, Done(false))
      && Released(h, Some(0), caller, deleted) == (h, Done(false))
      && (caller == Some("mcp") ==> Released(h, None, caller, deleted) == (h, NotPermitted))
  {
  }

  /**
   A person's hold call takes over any readable hold of an agent's, and a failed save leaves the agent's as it was.
   */
  lemma PersonTakesOverAnAgentsHold(h: Holding, maker: Option<nat>, caller: Caller, now: string, saved: bool)
    requires h.state.held && IsAgent(h.state.caller) && h.Coherent()
    requires !IsAgent(caller)
    ensures
      var (after, outcome) := Held(h, maker, caller, now, saved);
      && (saved ==> after.state.Persons() && after.state.caller == caller && after.state.since == h.state.since)
      && (!saved ==> after == h && outcome == StoreFailed)
  {
  }
}
