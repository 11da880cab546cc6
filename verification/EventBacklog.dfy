/**
 The bounded backlog of events and the loop that streams it to one watching client: a window over
 an unbounded log, and a replay that either delivers the log without a gap or says "reset".
 */
module EventBacklog {
  import opened Options

  datatype Item = Item(kind: string, data: string)

  datatype Event = Event(id: int, item: Item)

  const RUN_OUTPUT_KIND := "run_output"

  // --- the unbounded log, and what a window of it can still answer ----------------------------

  /** Everything this run of the server has emitted; the first event's ID is `first`. */
  datatype Log = Log(first: nat, capacity: nat, items: seq<Item>)
  {
    function NextId(): int {
      first + |items|
    }

    function LatestId(): int {
      NextId() - 1
    }

    /** The ID of the oldest event a window of `capacity` still keeps (the next ID when it keeps none). */
    function OldestKept(): int {
      NextId() - (if |items| <= capacity then |items| else capacity)
    }

    function At(id: int): Event
      requires first <= id < NextId()
    {
      Event(id, items[id - first])
    }

    /** The log's events with IDs above `low` and up to `high`, in order. */
    function Between(low: int, high: int): seq<Event>
      requires first - 1 <= low && high < NextId()
    {
      if high <= low then []
      else seq(high - low, i requires 0 <= i < high - low => At(low + 1 + i))
    }

    function Appended(item: Item): Log {
      this.(items := items + [item])
    }

    /** What a client at `last` is told: nothing for 0, "reset" when an event is out of reach, else all that follows. */
    function Since(last: int): Option<seq<Event>> {
      if last == 0 then Some([])
      else if last < OldestKept() - 1 then None
      else Some(Between(last, LatestId()))
    }
  }

  lemma BetweenGrows(log: Log, low: int, high: int)
    requires log.first - 1 <= low < high < log.NextId()
    ensures log.Between(low, high) == log.Between(low, high - 1) + [log.At(high)]
  {
  }

  lemma BetweenKeeps(log: Log, item: Item, low: int, high: int)
    requires log.first - 1 <= low && high < log.NextId()
    ensures log.Appended(item).Between(low, high) == log.Between(low, high)
  {
    var kept, before := log.Appended(item).Between(low, high), log.Between(low, high);
    forall i | 0 <= i < |kept| ensures kept[i] == before[i] {
      assert log.Appended(item).At(low + 1 + i) == log.At(low + 1 + i);
    }
  }

  /** An event the client at `last` still needs was evicted, or belongs to an earlier run. */
  predicate OutOfReach(log: Log, last: int, id: int) {
    last < id < log.OldestKept()
  }

  predicate SomethingLost(log: Log, last: int) {
    OutOfReach(log, last, last + 1)
  }

  /** "Reset" is said exactly when some event the client needs is out of reach. */
  lemma ResetExactlyWhenSomethingIsLost(log: Log, last: int)
    requires last != 0
    ensures log.Since(last).None? <==> exists id :: OutOfReach(log, last, id)
    ensures log.Since(last).None? <==> SomethingLost(log, last)
  {
    if last < log.OldestKept() - 1 {
      assert OutOfReach(log, last, last + 1);
    }
  }

  // --- the bounded window ---------------------------------------------------------------------

  class Backlog {
    const capacity: nat
    var events: seq<Event>
    var nextId: int
    ghost var log: Log

    /** The window is the newest part of the log. */
    ghost predicate Valid()
      reads this
    {
      && log.capacity == capacity
      && nextId == log.NextId()
      && |events| == nextId - log.OldestKept()
      && forall i | 0 <= i < |events| :: events[i] == log.At(log.OldestKept() + i)
    }

    constructor (capacity: nat, clock: nat)
      ensures Valid() && log == Log(clock, capacity, [])
    {
      this.capacity, events, nextId := capacity, [], clock;
      log := Log(clock, capacity, []);
    }

    method Append(item: Item) returns (event: Event)
      requires Valid()
      modifies this
      ensures Valid() && log == old(log).Appended(item)
      ensures event == log.At(log.LatestId())
    {
      event := Event(nextId, item);
      nextId := nextId + 1;
      // A full deque drops its oldest event; one of no capacity keeps nothing.
      if capacity > 0 {
        events := (if |events| == capacity then events[1..] else events) + [event];
      }
      log := log.Appended(item);
    }

    method Since(last: int) returns (answer: Option<seq<Event>>)
      requires Valid()
      ensures answer == log.Since(last)
    {
      if last == 0 {
        return Some([]);
      }
      var oldestExplainable := if events != [] then events[0].id else nextId;
      if last < oldestExplainable - 1 {
        return None;
      }
      var found: seq<Event> := [];
      for i := 0 to |events|
        invariant found == if log.OldestKept() + i - 1 <= last then [] else log.Between(last, log.OldestKept() + i - 1)
      {
        if events[i].id > last {
          BetweenGrows(log, last, log.OldestKept() + i);
          found := found + [events[i]];
        }
      }
      return Some(found);
    }

    method LatestId() returns (id: int)
      requires Valid()
      ensures id == log.LatestId()
    {
      return if events != [] then events[|events| - 1].id else nextId - 1;
    }
  }

  // --- the watching loop, interleaved with appends --------------------------------------------

  datatype Message = Reset | Deliver(event: Event)

  /** Where the loop stands between two of its reads or sends. */
  datatype Point = Starting | Asking | Replaying(rest: seq<Event>) | MustRead | MustReset

  datatype Watch = Watch(
    log: Log,
    request: int,
    includeOutput: bool,
    point: Point,
    last: int,
    baseline: int,
    sent: seq<Message>)

  predicate Wanted(event: Event, includeOutput: bool) {
    includeOutput || event.item.kind != RUN_OUTPUT_KIND
  }

  function Filtered(events: seq<Event>, includeOutput: bool): seq<Event> {
    if events == [] then []
    else
      var before := Filtered(events[..|events| - 1], includeOutput);
      var event := events[|events| - 1];
      if Wanted(event, includeOutput) then before + [event] else before
  }

  /** The events sent since the last reset, or since the start. */
  function Delivered(sent: seq<Message>): seq<Event> {
    if sent == [] || sent[|sent| - 1].Reset? then []
    else Delivered(sent[..|sent| - 1]) + [sent[|sent| - 1].event]
  }

  datatype Step = Emit(item: Item) | ReadStart | Ask | Handle | Read | SendReset

  predicate Enabled(w: Watch, step: Step) {
    match step
    case Emit(_) => true
    case ReadStart => w.point.Starting?
    case Ask => w.point.Asking?
    case Handle => w.point.Replaying?
    case Read => w.point.MustRead?
    case SendReset => w.point.MustReset?
  }

  function Least(a: int, b: int): int {
    if a <= b then a else b
  }

  function Next(w: Watch, step: Step): Watch
    requires Enabled(w, step)
  {
    match step
    case Emit(item) => w.(log := w.log.Appended(item))
    case ReadStart =>
      var latest := w.log.LatestId();
      var from := if w.request != 0 then Least(w.request, latest) else latest;
      w.(point := Asking, last := from, baseline := from)
    case Ask =>
      (match w.log.Since(w.last)
       case None => w.(point := MustRead)
       case Some(events) => w.(point := Replaying(events)))
    case Handle =>
      if w.point.rest == [] then w.(point := Asking)
      else
        var event := w.point.rest[0];
        w.(point := Replaying(w.point.rest[1..]), last := event.id,
           sent := if Wanted(event, w.includeOutput) then w.sent + [Deliver(event)] else w.sent)
    case Read =>
      // Read before the reset is sent: what is appended from here on must still be streamed.
      w.(point := MustReset, last := w.log.LatestId(), baseline := w.log.LatestId())
    case SendReset => w.(point := Asking, sent := w.sent + [Reset])
  }

  predicate Start(w: Watch) {
    w.point.Starting? && w.sent == [] && w.log.items == []
  }

  predicate Possible(w: Watch, steps: seq<Step>)
    decreases |steps|
  {
    steps == [] || (Enabled(w, steps[0]) && Possible(Next(w, steps[0]), steps[1..]))
  }

  function Reached(w: Watch, steps: seq<Step>): Watch
    requires Possible(w, steps)
    decreases |steps|
  {
    if steps == [] then w else Reached(Next(w, steps[0]), steps[1..])
  }

  /** What the client has is the log from its baseline to the last handled event, in order, once each. */
  predicate GapFree(w: Watch) {
    && w.log.first - 1 <= w.baseline <= w.last <= w.log.LatestId()
    && Delivered(w.sent) == Filtered(w.log.Between(w.baseline, w.last), w.includeOutput)
  }

  predicate Sound(w: Watch) {
    && w.log.first >= 2
    && (w.point.Starting? ==> w.sent == [])
    && (!w.point.Starting? ==> w.last != 0 && w.baseline <= w.last <= w.log.LatestId())
    && (w.point.Asking? || w.point.MustRead? ==> GapFree(w) || (w.sent == [] && w.baseline == w.last < w.log.first - 1))
    && (w.point.MustRead? ==> SomethingLost(w.log, w.last))
    && (w.point.Replaying? ==>
          && GapFree(w)
          && w.last + |w.point.rest| <= w.log.LatestId()
          && w.point.rest == w.log.Between(w.last, w.last + |w.point.rest|))
    && (w.point.MustReset? ==> w.log.first - 1 <= w.baseline == w.last)
  }

  lemma FilteredAppends(events: seq<Event>, event: Event, includeOutput: bool)
    ensures Filtered(events + [event], includeOutput)
         == Filtered(events, includeOutput) + if Wanted(event, includeOutput) then [event] else []
  {
    assert (events + [event])[..|events|] == events;
  }

  lemma DeliveredAppends(sent: seq<Message>, event: Event)
    ensures Delivered(sent + [Deliver(event)]) == Delivered(sent) + [event]
  {
    assert (sent + [Deliver(event)])[..|sent|] == sent;
  }

  lemma EmitKeepsSound(w: Watch, item: Item)
    requires Sound(w)
    ensures Sound(Next(w, Emit(item)))
  {
    if w.log.first - 1 <= w.baseline <= w.last <= w.log.LatestId() {
      BetweenKeeps(w.log, item, w.baseline, w.last);
    }
    if w.point.Replaying? {
      BetweenKeeps(w.log, item, w.last, w.last + |w.point.rest|);
    }
  }

  lemma AskKeepsSound(w: Watch)
    requires Sound(w) && w.point.Asking?
    ensures Sound(Next(w, Ask))
  {
    ResetExactlyWhenSomethingIsLost(w.log, w.last);
  }

  lemma BetweenTail(log: Log, low: int, high: int)
    requires log.first - 1 <= low < high < log.NextId()
    ensures log.Between(low, high) != []
    ensures log.Between(low, high)[0] == log.At(low + 1)
    ensures log.Between(low, high)[1..] == log.Between(low + 1, high)
  {
  }

  lemma OneMoreHandled(w: Watch, event: Event)
    requires GapFree(w) && w.last < w.log.LatestId() && event == w.log.At(w.last + 1)
    ensures
      var sent := if Wanted(event, w.includeOutput) then w.sent + [Deliver(event)] else w.sent;
      Delivered(sent) == Filtered(w.log.Between(w.baseline, w.last + 1), w.includeOutput)
  {
    BetweenGrows(w.log, w.baseline, w.last + 1);
    FilteredAppends(w.log.Between(w.baseline, w.last), event, w.includeOutput);
    DeliveredAppends(w.sent, event);
  }

  lemma HandleKeepsSound(w: Watch)
    requires Sound(w) && w.point.Replaying?
    ensures Sound(Next(w, Handle))
  {
    if w.point.rest != [] {
      HandlingOneKeeps(w, w.point.rest);
    }
  }

  lemma HandlingOneKeeps(w: Watch, rest: seq<Event>)
    requires GapFree(w) && w.point == Replaying(rest) && rest != []
    requires w.last + |rest| <= w.log.LatestId() && rest == w.log.Between(w.last, w.last + |rest|)
    ensures
      var next := Next(w, Handle);
      && GapFree(next)
      && next.last == w.last + 1
      && next.point.rest == next.log.Between(next.last, next.last + |next.point.rest|)
  {
    BetweenTail(w.log, w.last, w.last + |rest|);
    OneMoreHandled(w, rest[0]);
  }

  lemma StepKeepsSound(w: Watch, step: Step)
    requires Sound(w) && Enabled(w, step)
    ensures Sound(Next(w, step))
  {
    match step
    case Emit(item) => EmitKeepsSound(w, item);
    case ReadStart =>
    case Ask => AskKeepsSound(w);
    case Handle => HandleKeepsSound(w);
    case Read =>
    case SendReset => assert Delivered(Next(w, step).sent) == [];
  }

  lemma {:induction false} RunKeepsSound(w: Watch, steps: seq<Step>)
    requires Sound(w) && Possible(w, steps)
    ensures Sound(Reached(w, steps))
    decreases |steps|
  {
    if steps != [] {
      StepKeepsSound(w, steps[0]);
      RunKeepsSound(Next(w, steps[0]), steps[1..]);
    }
  }

  /**
   Through every interleaving of appends with the loop: while the loop is asking or replaying, what
   was delivered since the start or the last reset is exactly the log from the baseline to the last
   handled ID, filtered, unless the client began with an ID of an earlier run and is owed a reset;
   and a reset is owed only when an event it needs is out of reach.
   */
  lemma WatchIsGapFree(w: Watch, steps: seq<Step>)
    requires Start(w) && w.log.first >= 2 && Possible(w, steps)
    ensures
      var now := Reached(w, steps);
      && (now.point.Replaying? ==> GapFree(now))
      && (now.point.Asking? ==> GapFree(now) || (now.sent == [] && now.last < now.log.first - 1))
      && (now.point.MustRead? ==> GapFree(now) || (now.sent == [] && now.last < now.log.first - 1))
      && (now.point.MustRead? ==> SomethingLost(now.log, now.last))
      && (now.point.MustReset? ==> now.baseline == now.last <= now.log.LatestId())
  {
    RunKeepsSound(w, steps);
  }

  // --- what the client's own last ID decides ------------------------------------------------------

  lemma {:induction false} TheBaselineStays(w: Watch, steps: seq<Step>)
    requires Possible(w, steps) && Read !in steps && ReadStart !in steps
    ensures Reached(w, steps).baseline == w.baseline
    ensures Reached(w, steps).includeOutput == w.includeOutput && Reached(w, steps).request == w.request
    ensures Reached(w, steps).point.MustReset? ==> w.point.MustReset?
    ensures Reset in Reached(w, steps).sent ==> Reset in w.sent || w.point.MustReset?
    decreases |steps|
  {
    if steps != [] {
      TheBaselineStays(Next(w, steps[0]), steps[1..]);
    }
  }

  lemma {:induction false} TheRequestStays(w: Watch, steps: seq<Step>)
    requires Possible(w, steps)
    ensures Reached(w, steps).request == w.request && Reached(w, steps).includeOutput == w.includeOutput
    ensures Reached(w, steps).log.first == w.log.first && w.log.items <= Reached(w, steps).log.items
    ensures Reached(w, steps).point.Starting? ==> w.point.Starting? && Reached(w, steps).sent == w.sent
    decreases |steps|
  {
    if steps != [] {
      TheRequestStays(Next(w, steps[0]), steps[1..]);
    }
  }

  lemma {:induction false} FilteredHas(events: seq<Event>, includeOutput: bool, event: Event)
    ensures event in Filtered(events, includeOutput) <==> event in events && Wanted(event, includeOutput)
  {
    if events != [] {
      FilteredHas(events[..|events| - 1], includeOutput, event);
      assert events == events[..|events| - 1] + [events[|events| - 1]];
    }
  }

  lemma {:induction false} DeliveredHas(sent: seq<Message>, event: Event)
    requires Reset !in sent
    ensures event in Delivered(sent) <==> Deliver(event) in sent
  {
    if sent != [] {
      DeliveredHas(sent[..|sent| - 1], event);
      assert sent == sent[..|sent| - 1] + [sent[|sent| - 1]];
    }
  }

  lemma BetweenHas(log: Log, low: int, high: int, event: Event)
    requires log.first - 1 <= low && high < log.NextId()
    ensures event in log.Between(low, high) <==> low < event.id <= high && event == log.At(event.id)
  {
    if low < event.id <= high && event == log.At(event.id) {
      assert log.Between(low, high)[event.id - low - 1] == event;
    }
    if event in log.Between(low, high) {
      var i :| 0 <= i < |log.Between(low, high)| && log.Between(low, high)[i] == event;
      assert event == log.At(low + 1 + i);
    }
  }

  /** The log holds this event, and the client asked for its kind. */
  predicate IsWanted(w: Watch, event: Event) {
    && w.log.first <= event.id < w.log.first + |w.log.items|
    && event.item == w.log.items[event.id - w.log.first]
    && (w.includeOutput || event.item.kind != "run_output")
  }

  lemma GapFreeHas(w: Watch, event: Event)
    requires GapFree(w)
    ensures event in Delivered(w.sent) <==> w.baseline < event.id <= w.last && IsWanted(w, event)
  {
    FilteredHas(w.log.Between(w.baseline, w.last), w.includeOutput, event);
    BetweenHas(w.log, w.baseline, w.last, event);
  }

  /** A loop just started, gone on with no reset since. */
  predicate SinceStart(w: Watch, before: seq<Step>, after: seq<Step>) {
    && Start(w) && w.log.first >= 2
    && Possible(w, before) && Reached(w, before).point.Starting?
    && Possible(Next(Reached(w, before), ReadStart), after) && Read !in after
  }

  lemma {:induction false} ReadStartIsOnce(w: Watch, steps: seq<Step>)
    requires Possible(w, steps) && !w.point.Starting?
    ensures ReadStart !in steps && !Reached(w, steps).point.Starting?
    decreases |steps|
  {
    if steps != [] {
      ReadStartIsOnce(Next(w, steps[0]), steps[1..]);
    }
  }

  /**
   A client that asked to go on from an ID, until a reset: what it has been sent is, once each and in order, every event
   it wants of those above its ID, or above the latest ID there was as the loop started if that was less, up to the last
   handled; one that asked for no ID, of those above that latest one. Otherwise it is at an ID of an earlier run and has
   been sent nothing, and the loop's next look at the log is answered with a reset.
   */
  lemma TheClientMissesNothing(w: Watch, before: seq<Step>, after: seq<Step>, event: Event)
    requires SinceStart(w, before, after)
    ensures
      var latest := Reached(w, before).log.LatestId();
      var now := Reached(Next(Reached(w, before), ReadStart), after);
      var from := if w.request != 0 && w.request <= latest then w.request else latest;
      && Reset !in now.sent && now.baseline == from <= now.last
      && (from >= w.log.first - 1 ==>
            && GapFree(now)
            && (Deliver(event) in now.sent <==> from < event.id <= now.last && IsWanted(now, event)))
      && (from < w.log.first - 1 ==> now.sent == [] && now.last == from && now.log.Since(from).None?)
  {
    var started := Next(Reached(w, before), ReadStart);
    RunKeepsSound(w, before);
    StepKeepsSound(Reached(w, before), ReadStart);
    TheRequestStays(w, before);
    ReadStartIsOnce(started, after);
    TheBaselineStays(started, after);
    TheRequestStays(started, after);
    RunKeepsSound(started, after);
    var now := Reached(started, after);
    if started.baseline >= w.log.first - 1 {
      assert GapFree(now);
      GapFreeHas(now, event);
      DeliveredHas(now.sent, event);
    }
  }

  /** After a reset, the same from the latest ID there was as it was owed, read before it was sent. */
  lemma AResetMissesNothing(w: Watch, before: seq<Step>, after: seq<Step>, event: Event)
    requires Start(w) && w.log.first >= 2 && Possible(w, before) && Reached(w, before).point.MustRead?
    requires Possible(Next(Reached(w, before), Read), after) && Read !in after
    ensures
      var latest := Reached(w, before).log.LatestId();
      var now := Reached(Next(Reached(w, before), Read), after);
      !now.point.MustReset? ==>
        && now.baseline == latest <= now.last
        && GapFree(now)
        && (event in Delivered(now.sent) <==> latest < event.id <= now.last && IsWanted(now, event))
  {
    var reading := Next(Reached(w, before), Read);
    RunKeepsSound(w, before);
    StepKeepsSound(Reached(w, before), Read);
    TheRequestStays(w, before);
    ReadStartIsOnce(reading, after);
    TheBaselineStays(reading, after);
    TheRequestStays(reading, after);
    RunKeepsSound(reading, after);
    var now := Reached(reading, after);
    if !now.point.MustReset? {
      assert GapFree(now);
      GapFreeHas(now, event);
    }
  }

  /** Handling a whole answer with nothing appended meanwhile. */
  function Drained(w: Watch): Watch
    requires w.point.Replaying?
    decreases |w.point.rest|
  {
    if w.point.rest == [] then w else Drained(Next(w, Handle))
  }

  /** One answer, handled to its end, brings the client level with the log it was read from. */
  lemma {:induction false} ReplayCatchesUp(w: Watch)
    requires Sound(w) && w.point.Replaying? && w.last + |w.point.rest| == w.log.LatestId()
    ensures Drained(w).log == w.log && Drained(w).last == w.log.LatestId() && GapFree(Drained(w))
    ensures Drained(w).baseline == w.baseline
    decreases |w.point.rest|
  {
    if w.point.rest != [] {
      StepKeepsSound(w, Handle);
      HandlingOneKeeps(w, w.point.rest);
      ReplayCatchesUp(Next(w, Handle));
    }
  }

  /**
   Why the first ID must be at least 2 (a clock in milliseconds always is): ID 0 means "nothing is
   replayed". A loop at 0 asks and is answered nothing whatever the log holds, and it starts there
   exactly when the next ID is 1.
   */
  lemma ZeroIsNeverReplayed(w: Watch)
    requires w.point.Asking? && w.last == 0
    ensures Next(Next(w, Ask), Handle) == w
    ensures forall start: Watch | start.point.Starting? && start.request == 0 ::
        Next(start, ReadStart).last == 0 <==> start.log.NextId() == 1
  {
  }
}
