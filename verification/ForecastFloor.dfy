/**
 What a front end is shown of a job's progress: the publisher keeps a floor under each bar, so that no forecast it
 sends, however its predicted end moves, shows less than the one just before of the same start did by then; and exactly
 when a bar goes back even so.
 */
module ForecastFloor {
  import opened Options

  datatype Span = Span(start: real, end: real, floor: real)

  function Max(a: real, b: real): real {
    if a < b then b else a
  }

  function Min(a: real, b: real): real {
    if a < b then a else b
  }

  /** The share of a published span done at `now`, as every front end shows it. */
  function Progress(span: Span, now: real): real {
    var length := span.end - span.start;
    if length <= 0.0 then span.floor
    else Min(1.0, Max(span.floor, (now - span.start) / length))
  }

  /** The stage the run is in, and how far. */
  datatype Stage = Stage(name: Option<string>, done: Option<nat>, total: Option<nat>)

  datatype Forecast = Forecast(stage: Stage, run: Option<Span>, job: Option<Span>)

  datatype Tunables = Tunables(interval: real, sameEnd: real)

  /** The events that matter to a publisher, each with what else is told apart of it. */
  datatype Event = JobFinished | RunStarted | StageOrTimingFinished | RunOutput(reading: bool) | OtherEvent

  /** A forecast sent, when, and in which run: how many had started. */
  datatype Publication = Publication(forecast: Forecast, moment: real, runs: nat)

  /** The publisher's own fields, with a record of what it sent and of the runs that started. */
  datatype State = State(
    last: Option<Forecast>,
    parking: bool,
    parkingAtLast: bool,
    lastReadingAt: Option<real>,
    runFloor: real,
    jobFloor: real,
    done: bool,
    runs: nat,
    sent: seq<Publication>)

  const FRESH := State(None, false, false, None, 0.0, 0.0, false, 0, [])

  // --- publishing -------------------------------------------------------------------------------

  /** The share a span of its own puts at `now`; nothing of one with no length. */
  function ShareAt(span: Span, now: real): real {
    var length := span.end - span.start;
    if length > 0.0 then Min(1.0, Max(0.0, (now - span.start) / length)) else 0.0
  }

  /** The floor a new span is given: what was held, its own share, and what the last one shows now. */
  function FloorFor(span: Span, shown: Option<Span>, now: real, held: real): real {
    var floor := Max(held, ShareAt(span, now));
    if shown.Some? && shown.value.start == span.start then Max(floor, Progress(shown.value, now)) else floor
  }

  function Held(span: Option<Span>, shown: Option<Span>, now: real, held: real): (Option<Span>, real) {
    if span.None? then (None, held)
    else
      var floor := FloorFor(span.value, shown, now, held);
      (Some(span.value.(floor := floor)), floor)
  }

  function RunOf(forecast: Option<Forecast>): Option<Span> {
    if forecast.Some? then forecast.value.run else None
  }

  function JobOf(forecast: Option<Forecast>): Option<Span> {
    if forecast.Some? then forecast.value.job else None
  }

  function Sent(s: State, forecast: Forecast, now: real): State {
    var (run, runFloor) := Held(forecast.run, RunOf(s.last), now, s.runFloor);
    var (job, jobFloor) := Held(forecast.job, JobOf(s.last), now, s.jobFloor);
    var published := Forecast(forecast.stage, run, job);
    s.(last := Some(published), parkingAtLast := s.parking, runFloor := runFloor, jobFloor := jobFloor,
       sent := s.sent + [Publication(published, now, s.runs)])
  }

  function SameEnd(a: Option<Span>, b: Option<Span>, within: real): bool {
    if a.None? || b.None? then a.None? && b.None?
    else -within <= a.value.end - b.value.end <= within
  }

  predicate Identical(s: State, forecast: Forecast, tunables: Tunables) {
    && s.last.Some?
    && forecast.stage == s.last.value.stage
    && s.parking == s.parkingAtLast
    && SameEnd(forecast.run, s.last.value.run, tunables.sameEnd)
    && SameEnd(forecast.job, s.last.value.job, tunables.sameEnd)
  }

  function Finished(s: State): State {
    s.(done := true, last := None)
  }

  function Started(s: State): State {
    s.(runFloor := 0.0, runs := s.runs + 1,
       last := if s.last.Some? then Some(s.last.value.(run := None)) else None)
  }

  predicate TooSoon(s: State, forecast: Forecast, now: real, tunables: Tunables) {
    && !(forecast.stage.total.Some? && forecast.stage.done == forecast.stage.total)
    && s.lastReadingAt.Some? && now - s.lastReadingAt.value < tunables.interval
  }

  /** A forecast made on an event, sent unless there is too little new in it. */
  function Considered(s: State, event: Event, forecast: Forecast, now: real, tunables: Tunables): State {
    var advanced := s.last.None? || forecast.stage != s.last.value.stage;
    var stageChanged := s.last.None? || forecast.stage.name != s.last.value.stage.name;
    if event.RunOutput? && (!advanced || TooSoon(s, forecast, now, tunables)) then s
    else
      var noted :=
        if event.RunOutput? then s.(lastReadingAt := Some(now))
        else if s.lastReadingAt.Some? && stageChanged then s.(lastReadingAt := None)
        else s;
      if Identical(noted, forecast, tunables) then noted else Sent(noted, forecast, now)
  }

  /** One event at `now`; `forecast` is what the forecaster makes of it. */
  function Observed(s: State, event: Event, forecast: Option<Forecast>, now: real, tunables: Tunables): State {
    if s.done then s
    else if event.JobFinished? then Finished(s)
    else
      var begun := if event.RunStarted? then Started(s) else s;
      if event.StageOrTimingFinished? || (event.RunOutput? && !event.reading) || forecast.None? then begun
      else Considered(begun, event, forecast.value, now, tunables)
  }

  function ParkChanged(s: State, parking: bool, forecast: Option<Forecast>, now: real): State {
    if s.done then s
    else
      var noted := s.(parking := parking);
      if forecast.None? then noted else Sent(noted, forecast.value, now)
  }

  class ForecastPublisher {
    const tunables: Tunables
    var last: Option<Forecast>
    var parking: bool
    var parkingAtLast: bool
    var lastReadingAt: Option<real>
    var runFloor: real
    var jobFloor: real
    var done: bool
    ghost var runs: nat
    ghost var sent: seq<Publication>

    ghost function View(): State
      reads this
    {
      State(last, parking, parkingAtLast, lastReadingAt, runFloor, jobFloor, done, runs, sent)
    }

    constructor (tunables: Tunables)
      ensures View() == FRESH && this.tunables == tunables
    {
      this.tunables := tunables;
      last, parking, parkingAtLast, lastReadingAt := None, false, false, None;
      runFloor, jobFloor, done, runs, sent := 0.0, 0.0, false, 0, [];
    }

    method Observe(event: Event, forecast: Option<Forecast>, now: real)
      modifies this
      ensures View() == Observed(old(View()), event, forecast, now, tunables)
    {
      if done {
        return;
      }
      if event.JobFinished? {
        Finish();
        return;
      }
      if event.RunStarted? {
        runFloor := 0.0;
        runs := runs + 1;
        if last.Some? {
          last := Some(last.value.(run := None));
        }
      }
      if event.StageOrTimingFinished? || (event.RunOutput? && !event.reading) || forecast.None? {
        return;
      }
      var latest := forecast.value;
      if event.RunOutput? {
        if last.Some? && latest.stage == last.value.stage {
          return;
        }
        var lastReading := latest.stage.total.Some? && latest.stage.done == latest.stage.total;
        if !lastReading && lastReadingAt.Some? && now - lastReadingAt.value < tunables.interval {
          return;
        }
        lastReadingAt := Some(now);
      } else if lastReadingAt.Some? && (last.None? || latest.stage.name != last.value.stage.name) {
        lastReadingAt := None;
      }
      if last.Some? && latest.stage == last.value.stage && parking == parkingAtLast
        && SameEnd(latest.run, last.value.run, tunables.sameEnd)
        && SameEnd(latest.job, last.value.job, tunables.sameEnd) {
        return;
      }
      Send(latest, now);
    }

    method ChangePark(parking: bool, forecast: Option<Forecast>, now: real)
      modifies this
      ensures View() == ParkChanged(old(View()), parking, forecast, now)
    {
      if done {
        return;
      }
      this.parking := parking;
      if forecast.Some? {
        Send(forecast.value, now);
      }
    }

    method Finish()
      modifies this
      ensures View() == Finished(old(View()))
    {
      done := true;
      last := None;
    }

    method Send(forecast: Forecast, now: real)
      modifies this
      ensures View() == Sent(old(View()), forecast, now)
    {
      var run, job: Option<Span>;
      run, runFloor := Hold(forecast.run, RunOf(last), now, runFloor);
      job, jobFloor := Hold(forecast.job, JobOf(last), now, jobFloor);
      var published := Forecast(forecast.stage, run, job);
      last := Some(published);
      parkingAtLast := parking;
      sent := sent + [Publication(published, now, runs)];
    }
  }

  method Hold(span: Option<Span>, shown: Option<Span>, now: real, held: real)
    returns (published: Option<Span>, floor: real)
    ensures (published, floor) == Held(span, shown, now, held)
  {
    if span.None? {
      return None, held;
    }
    floor := Max(held, ShareAt(span.value, now));
    if shown.Some? && shown.value.start == span.value.start {
      floor := Max(floor, Progress(shown.value, now));
    }
    published := Some(span.value.(floor := floor));
  }

  // --- what is shown ----------------------------------------------------------------------------

  predicate IsShare(x: real) {
    0.0 <= x <= 1.0
  }

  predicate SpanOk(span: Option<Span>) {
    span.Some? ==> IsShare(span.value.floor)
  }

  lemma DivisionRises(a: real, b: real, length: real)
    requires length > 0.0 && a <= b
    ensures a / length <= b / length
  {
    assert (b - a) / length >= 0.0;
  }

  /** A span's own share of its time: none before it starts, all from its end on, and none of one with no length. */
  lemma AShareIsExactly(span: Span, now: real)
    ensures now <= span.start || span.end <= span.start ==> ShareAt(span, now) == 0.0
    ensures span.start < span.end <= now ==> ShareAt(span, now) == 1.0
    ensures span.start < now < span.end ==> ShareAt(span, now) == (now - span.start) / (span.end - span.start)
  {
    if span.start < span.end {
      var length := span.end - span.start;
      assert length / length == 1.0;
      if now >= span.end {
        DivisionRises(length, now - span.start, length);
      } else {
        DivisionRises(now - span.start, length, length);
      }
    }
  }

  /** What is shown of it is that share, or the floor it came with if that is more. */
  lemma WhatIsShownIsExactly(span: Span, now: real)
    requires IsShare(span.floor)
    ensures Progress(span, now) == if ShareAt(span, now) < span.floor then span.floor else ShareAt(span, now)
  {
  }

  /** A bar under one span only fills. */
  lemma ProgressRises(span: Span, seen: real, later: real)
    requires IsShare(span.floor) && seen <= later
    ensures IsShare(Progress(span, seen)) && IsShare(Progress(span, later))
    ensures span.floor <= Progress(span, seen) <= Progress(span, later)
  {
    if span.end - span.start > 0.0 {
      DivisionRises(seen - span.start, later - span.start, span.end - span.start);
    }
  }

  /** And a new span of the same start shows no less than the one before it did by then, wherever its end went. */
  lemma ANewSpanShowsNoLess(span: Span, shown: Span, held: real, seen: real, now: real, later: real)
    requires IsShare(held) && IsShare(shown.floor) && shown.start == span.start
    requires seen <= now <= later
    ensures
      var published := Held(Some(span), Some(shown), now, held).0.value;
      && IsShare(published.floor)
      && Progress(shown, seen) <= Progress(published, later)
  {
    ProgressRises(shown, seen, now);
    var published := Held(Some(span), Some(shown), now, held).0.value;
    ProgressRises(published, now, later);
  }

  // --- over any events --------------------------------------------------------------------------

  datatype Input =
    | AnEvent(event: Event, forecast: Option<Forecast>, now: real)
    | APark(parking: bool, forecast: Option<Forecast>, now: real)
    | ACancel(now: real)

  function Fed(s: State, input: Input, tunables: Tunables): State {
    match input
    case AnEvent(event, forecast, now) => Observed(s, event, forecast, now, tunables)
    case APark(parking, forecast, now) => ParkChanged(s, parking, forecast, now)
    case ACancel(_) => Finished(s)
  }

  function AllFed(s: State, inputs: seq<Input>, tunables: Tunables): State
    decreases |inputs|
  {
    if inputs == [] then s else AllFed(Fed(s, inputs[0], tunables), inputs[1..], tunables)
  }

  /** Read times never go back, the first not before `from`. */
  predicate InTime(inputs: seq<Input>, from: real)
    decreases |inputs|
  {
    inputs == [] || (from <= inputs[0].now && InTime(inputs[1..], inputs[0].now))
  }

  predicate ShownNoLess(before: Option<Span>, after: Option<Span>, moment: real) {
    before.Some? && after.Some? && before.value.start == after.value.start ==>
      && IsShare(before.value.floor) && IsShare(after.value.floor)
      && Progress(before.value, moment) <= Progress(after.value, moment)
  }

  /** Two publications in a row: neither bar goes back, the run's within one run. */
  predicate NeitherGoesBack(a: Publication, b: Publication) {
    && a.moment <= b.moment
    && ShownNoLess(a.forecast.job, b.forecast.job, b.moment)
    && (a.runs == b.runs ==> ShownNoLess(a.forecast.run, b.forecast.run, b.moment))
  }

  predicate NeverBack(sent: seq<Publication>) {
    forall i | 0 <= i < |sent| - 1 :: NeitherGoesBack(sent[i], sent[i + 1])
  }

  predicate Shares(sent: seq<Publication>) {
    forall i | 0 <= i < |sent| :: SpanOk(sent[i].forecast.run) && SpanOk(sent[i].forecast.job)
  }

  /** What the publisher remembers is what it last sent, but for the run of a run since over. */
  predicate Remembers(s: State) {
    s.sent != [] && !s.done ==>
      var last := s.sent[|s.sent| - 1];
      && s.last.Some?
      && s.last.value.job == last.forecast.job
      && last.runs <= s.runs
      && s.last.value.run == if last.runs == s.runs then last.forecast.run else None
  }

  predicate StateOk(s: State, from: real) {
    && IsShare(s.runFloor) && IsShare(s.jobFloor)
    && (s.sent == [] ==> s.last.None?)
    && (s.last.Some? ==> SpanOk(s.last.value.run) && SpanOk(s.last.value.job))
    && (s.sent != [] ==> s.sent[|s.sent| - 1].moment <= from)
    && Remembers(s)
    && NeverBack(s.sent) && Shares(s.sent)
  }

  lemma HeldShowsNoLess(span: Option<Span>, shown: Option<Span>, now: real, held: real)
    requires IsShare(held) && SpanOk(shown)
    ensures IsShare(Held(span, shown, now, held).1) && SpanOk(Held(span, shown, now, held).0)
    ensures ShownNoLess(shown, Held(span, shown, now, held).0, now)
  {
    if shown.Some? {
      ProgressRises(shown.value, now, now);
      if span.Some? && shown.value.start == span.value.start {
        ANewSpanShowsNoLess(span.value, shown.value, held, now, now, now);
      }
    }
  }

  lemma SendingIsOk(s: State, forecast: Forecast, now: real, from: real)
    requires StateOk(s, from) && from <= now && !s.done
    ensures StateOk(Sent(s, forecast, now), now)
  {
    HeldShowsNoLess(forecast.run, RunOf(s.last), now, s.runFloor);
    HeldShowsNoLess(forecast.job, JobOf(s.last), now, s.jobFloor);
    var after := Sent(s, forecast, now);
    forall i | 0 <= i < |after.sent| - 1 ensures NeitherGoesBack(after.sent[i], after.sent[i + 1]) {
      if i < |s.sent| - 1 {
        assert NeitherGoesBack(s.sent[i], s.sent[i + 1]);
      }
    }
  }

  lemma LaterIsOk(s: State, from: real, now: real)
    requires StateOk(s, from) && from <= now
    ensures StateOk(s, now) && StateOk(Finished(s), now) && StateOk(Started(s), now)
  {
  }

  lemma ConsideringIsOk(s: State, event: Event, forecast: Forecast, now: real, tunables: Tunables)
    requires StateOk(s, now) && !s.done
    ensures StateOk(Considered(s, event, forecast, now, tunables), now)
  {
    SendingIsOk(s, forecast, now, now);
    assert StateOk(s.(lastReadingAt := Some(now)), now) && StateOk(s.(lastReadingAt := None), now);
    SendingIsOk(s.(lastReadingAt := Some(now)), forecast, now, now);
    SendingIsOk(s.(lastReadingAt := None), forecast, now, now);
  }

  lemma ObservingIsOk(s: State, event: Event, forecast: Option<Forecast>, now: real, tunables: Tunables)
    requires StateOk(s, now)
    ensures StateOk(Observed(s, event, forecast, now, tunables), now)
  {
    LaterIsOk(s, now, now);
    if !s.done && forecast.Some? {
      ConsideringIsOk(if event.RunStarted? then Started(s) else s, event, forecast.value, now, tunables);
    }
  }

  lemma ParkingIsOk(s: State, parking: bool, forecast: Option<Forecast>, now: real)
    requires StateOk(s, now)
    ensures StateOk(ParkChanged(s, parking, forecast, now), now)
  {
    if !s.done && forecast.Some? {
      SendingIsOk(s.(parking := parking), forecast.value, now, now);
    }
  }

  lemma FeedingIsOk(s: State, input: Input, from: real, tunables: Tunables)
    requires StateOk(s, from) && from <= input.now
    ensures StateOk(Fed(s, input, tunables), input.now)
  {
    LaterIsOk(s, from, input.now);
    match input
    case AnEvent(event, forecast, now) => ObservingIsOk(s, event, forecast, now, tunables);
    case APark(parking, forecast, now) => ParkingIsOk(s, parking, forecast, now);
    case ACancel(_) =>
  }

  lemma {:induction false} AllFeedingIsOk(s: State, inputs: seq<Input>, from: real, tunables: Tunables)
    returns (until: real)
    requires StateOk(s, from) && InTime(inputs, from)
    ensures StateOk(AllFed(s, inputs, tunables), until)
    decreases |inputs|
  {
    until := from;
    if inputs != [] {
      FeedingIsOk(s, inputs[0], from, tunables);
      until := AllFeedingIsOk(Fed(s, inputs[0], tunables), inputs[1..], inputs[0].now, tunables);
    }
  }

  /**
   Through any events, parks and forecasts read in time order, two forecasts sent in a row never show less than
   the one before, whenever each is looked at while it stands; and every share shown is from 0 to 1.
   */
  lemma BarsInARowNeverGoBack(
    inputs: seq<Input>, from: real, tunables: Tunables, i: nat, seen: real, later: real)
    requires InTime(inputs, from)
    requires i + 1 < |AllFed(FRESH, inputs, tunables).sent|
    requires seen <= AllFed(FRESH, inputs, tunables).sent[i + 1].moment <= later
    ensures
      var a, b := AllFed(FRESH, inputs, tunables).sent[i], AllFed(FRESH, inputs, tunables).sent[i + 1];
      && (a.forecast.job.Some? && b.forecast.job.Some? && a.forecast.job.value.start == b.forecast.job.value.start ==>
            0.0 <= Progress(a.forecast.job.value, seen) <= Progress(b.forecast.job.value, later) <= 1.0)
      && (a.runs == b.runs && a.forecast.run.Some? && b.forecast.run.Some?
          && a.forecast.run.value.start == b.forecast.run.value.start ==>
            0.0 <= Progress(a.forecast.run.value, seen) <= Progress(b.forecast.run.value, later) <= 1.0)
  {
    var until := AllFeedingIsOk(FRESH, inputs, from, tunables);
    var sent := AllFed(FRESH, inputs, tunables).sent;
    var a, b := sent[i], sent[i + 1];
    assert NeitherGoesBack(sent[i], sent[i + 1]);
    if a.forecast.job.Some? && b.forecast.job.Some? && a.forecast.job.value.start == b.forecast.job.value.start {
      ProgressRises(a.forecast.job.value, seen, b.moment);
      ProgressRises(b.forecast.job.value, b.moment, later);
    }
    if a.runs == b.runs && a.forecast.run.Some? && b.forecast.run.Some?
        && a.forecast.run.value.start == b.forecast.run.value.start {
      ProgressRises(a.forecast.run.value, seen, b.moment);
      ProgressRises(b.forecast.run.value, b.moment, later);
    }
  }

  // --- a bar over its whole life ----------------------------------------------------------------

  datatype Bar = RunBar | JobBar

  function SpanOf(publication: Publication, bar: Bar): Option<Span> {
    if bar.JobBar? then publication.forecast.job else publication.forecast.run
  }

  /** A run's bar lives as long as its run; the job's, through them all. */
  predicate OneLife(a: nat, b: nat, bar: Bar) {
    bar.RunBar? ==> a == b
  }

  predicate Carries(sent: seq<Publication>, bar: Bar, i: nat) {
    i < |sent| && SpanOf(sent[i], bar).Some?
  }

  /** Both carry the bar in one life of it, the earlier first. */
  predicate BothCarry(sent: seq<Publication>, bar: Bar, i: nat, j: nat) {
    i < j && Carries(sent, bar, i) && Carries(sent, bar, j) && OneLife(sent[i].runs, sent[j].runs, bar)
  }

  /** And none in between does. */
  predicate Neighbours(sent: seq<Publication>, bar: Bar, i: nat, j: nat) {
    BothCarry(sent, bar, i, j) && forall k | i < k < j :: !Carries(sent, bar, k)
  }

  /** However late the earlier one is looked at while it stands, and however early the later, the bar is not back. */
  ghost predicate NotBack(sent: seq<Publication>, bar: Bar, i: nat, j: nat)
    requires BothCarry(sent, bar, i, j)
  {
    forall seen, later | seen <= sent[i + 1].moment && sent[j].moment <= later ::
      Progress(SpanOf(sent[i], bar).value, seen) <= Progress(SpanOf(sent[j], bar).value, later)
  }

  /**
   What a later forecast must meet: it follows the earlier one at once and starts where it does, or the earlier one
   showed no more than its floor when it was replaced, or no more than the later one's own share.
   */
  predicate Catches(sent: seq<Publication>, bar: Bar, i: nat, j: nat)
    requires BothCarry(sent, bar, i, j)
  {
    var a, b := SpanOf(sent[i], bar).value, SpanOf(sent[j], bar).value;
    var shown := Progress(a, sent[i + 1].moment);
    || (j == i + 1 && a.start == b.start)
    || shown <= a.floor
    || shown <= ShareAt(b, sent[j].moment)
  }

  /** The floor a bar has after its neighbour's. */
  predicate FloorStands(sent: seq<Publication>, bar: Bar, i: nat, j: nat)
    requires BothCarry(sent, bar, i, j)
  {
    var a, b, now := SpanOf(sent[i], bar).value, SpanOf(sent[j], bar).value, sent[j].moment;
    var held := Max(a.floor, ShareAt(b, now));
    b.floor == if j == i + 1 && a.start == b.start then Max(held, Progress(a, now)) else held
  }

  function HeldFloor(s: State, bar: Bar): real {
    if bar.JobBar? then s.jobFloor else s.runFloor
  }

  /** Forecast `i` is the last to carry the bar in its present life. */
  predicate LastToCarry(s: State, bar: Bar, i: nat) {
    && Carries(s.sent, bar, i) && OneLife(s.sent[i].runs, s.runs, bar)
    && forall k | i < k < |s.sent| :: !Carries(s.sent, bar, k)
  }

  /** None carries the bar in its present life. */
  predicate NoneCarries(s: State, bar: Bar) {
    forall i | 0 <= i < |s.sent| :: !(Carries(s.sent, bar, i) && OneLife(s.sent[i].runs, s.runs, bar))
  }

  /** None before `j` carries the bar in the life `j` does. */
  predicate FirstToCarry(sent: seq<Publication>, bar: Bar, j: nat) {
    Carries(sent, bar, j) && forall i | 0 <= i < j :: !BothCarry(sent, bar, i, j)
  }

  predicate StartsAtItsShare(publication: Publication, bar: Bar)
    requires SpanOf(publication, bar).Some?
  {
    SpanOf(publication, bar).value.floor == ShareAt(SpanOf(publication, bar).value, publication.moment)
  }

  /** The held floor is that of the last forecast to carry the bar, and every floor follows from its neighbour's. */
  ghost predicate BarOk(s: State, bar: Bar) {
    && (forall i | 0 <= i < |s.sent| :: s.sent[i].runs <= s.runs)
    && (forall i | 0 <= i < |s.sent| - 1 :: s.sent[i].runs <= s.sent[i + 1].runs)
    && (forall i: nat | LastToCarry(s, bar, i) :: HeldFloor(s, bar) == SpanOf(s.sent[i], bar).value.floor)
    && (forall i: nat, j: nat | Neighbours(s.sent, bar, i, j) :: FloorStands(s.sent, bar, i, j))
  }

  /** Before any forecast carries the bar in its present life nothing is held, and the first of each life started so. */
  ghost predicate FirstsOk(s: State, bar: Bar) {
    && (NoneCarries(s, bar) ==> HeldFloor(s, bar) == 0.0)
    && (forall j: nat | FirstToCarry(s.sent, bar, j) :: StartsAtItsShare(s.sent[j], bar))
  }

  /** Nothing sent, and no floor changed but by a run's start. */
  predicate Unsent(s: State, after: State) {
    && after.sent == s.sent && after.jobFloor == s.jobFloor
    && (|| (after.runs == s.runs && after.runFloor == s.runFloor)
        || (after.runs == s.runs + 1 && after.runFloor == 0.0))
  }

  lemma ConsideredOnce(s: State, event: Event, forecast: Forecast, now: real, tunables: Tunables)
    returns (before: State, goes: bool)
    requires StateOk(s, now) && !s.done
    ensures StateOk(before, now) && !before.done && before == s.(lastReadingAt := before.lastReadingAt)
    ensures Considered(s, event, forecast, now, tunables) == if goes then Sent(before, forecast, now) else before
  {
    before := s.(lastReadingAt := Considered(s, event, forecast, now, tunables).lastReadingAt);
    goes := Considered(s, event, forecast, now, tunables) != before;
    assert StateOk(before, now);
  }

  /** Whatever is fed sends once or not at all, after what sends nothing. */
  lemma FedOnce(s: State, input: Input, tunables: Tunables) returns (before: State, forecast: Option<Forecast>)
    requires StateOk(s, input.now)
    ensures StateOk(before, input.now) && Unsent(s, before) && (forecast.Some? ==> !before.done)
    ensures Fed(s, input, tunables) ==
            if forecast.Some? then Sent(before, forecast.value, input.now) else before
  {
    LaterIsOk(s, input.now, input.now);
    before, forecast := s, None;
    match input
    case AnEvent(event, latest, now) =>
      if !s.done && event.JobFinished? {
        before := Finished(s);
      } else if !s.done {
        before := if event.RunStarted? then Started(s) else s;
        if !event.StageOrTimingFinished? && !(event.RunOutput? && !event.reading) && latest.Some? {
          var goes;
          before, goes := ConsideredOnce(before, event, latest.value, now, tunables);
          forecast := if goes then latest else None;
        }
      }
    case APark(parking, latest, now) =>
      if !s.done {
        before, forecast := s.(parking := parking), latest;
      }
    case ACancel(_) => before := Finished(s);
  }

  lemma SendingStands(s: State, forecast: Forecast, now: real, bar: Bar, i: nat)
    requires StateOk(s, now) && BarOk(s, bar) && !s.done
    requires Neighbours(Sent(s, forecast, now).sent, bar, i, |s.sent|)
    ensures FloorStands(Sent(s, forecast, now).sent, bar, i, |s.sent|)
  {
    var sent := Sent(s, forecast, now).sent;
    assert sent[i] == s.sent[i];
    assert LastToCarry(s, bar, i) by {
      forall k | i < k < |s.sent| ensures !Carries(s.sent, bar, k) {
        assert !Carries(sent, bar, k);
      }
    }
    if i < |s.sent| - 1 {
      assert !Carries(s.sent, bar, |s.sent| - 1);
    }
  }

  /** What the publisher remembers of a bar none carries in its present life: nothing to be shown no less than. */
  lemma NoneCarriedNoneShown(s: State, now: real, bar: Bar)
    requires StateOk(s, now) && NoneCarries(s, bar) && !s.done
    ensures (if bar.JobBar? then JobOf(s.last) else RunOf(s.last)) == None
  {
    if s.sent != [] {
      var n := |s.sent| - 1;
      assert !(Carries(s.sent, bar, n) && OneLife(s.sent[n].runs, s.runs, bar));
    }
  }

  lemma ALifeStartsAtItsShare(s: State, forecast: Forecast, now: real, bar: Bar)
    requires StateOk(s, now) && FirstsOk(s, bar) && !s.done
    requires FirstToCarry(Sent(s, forecast, now).sent, bar, |s.sent|)
    ensures StartsAtItsShare(Sent(s, forecast, now).sent[|s.sent|], bar)
  {
    var sent, n := Sent(s, forecast, now).sent, |s.sent|;
    forall i | 0 <= i < n ensures !(Carries(s.sent, bar, i) && OneLife(s.sent[i].runs, s.runs, bar)) {
      assert sent[i] == s.sent[i] && !BothCarry(sent, bar, i, n);
    }
    NoneCarriedNoneShown(s, now, bar);
    assert HeldFloor(s, bar) == 0.0;
  }

  /** Nothing carries the bar after a send only if nothing did before, and the one sent does not. */
  lemma SendingKeepsNone(s: State, forecast: Forecast, now: real, bar: Bar)
    requires NoneCarries(Sent(s, forecast, now), bar)
    ensures NoneCarries(s, bar) && HeldFloor(Sent(s, forecast, now), bar) == HeldFloor(s, bar)
  {
    var after := Sent(s, forecast, now);
    var n := |s.sent|;
    assert !(Carries(after.sent, bar, n) && OneLife(after.sent[n].runs, after.runs, bar));
    forall i | 0 <= i < n ensures !(Carries(s.sent, bar, i) && OneLife(s.sent[i].runs, s.runs, bar)) {
      assert !(Carries(after.sent, bar, i) && OneLife(after.sent[i].runs, after.runs, bar));
    }
  }

  lemma SendingKeepsFirsts(s: State, forecast: Forecast, now: real, bar: Bar)
    requires StateOk(s, now) && FirstsOk(s, bar) && !s.done
    ensures FirstsOk(Sent(s, forecast, now), bar)
  {
    var after := Sent(s, forecast, now);
    if NoneCarries(after, bar) {
      SendingKeepsNone(s, forecast, now, bar);
    }
    forall j: nat | FirstToCarry(after.sent, bar, j) ensures StartsAtItsShare(after.sent[j], bar) {
      if j == |s.sent| {
        ALifeStartsAtItsShare(s, forecast, now, bar);
      } else {
        forall i | 0 <= i < j ensures !BothCarry(s.sent, bar, i, j) {
          assert !BothCarry(after.sent, bar, i, j);
        }
        assert FirstToCarry(s.sent, bar, j);
      }
    }
  }

  lemma SendingKeepsBar(s: State, forecast: Forecast, now: real, bar: Bar)
    requires StateOk(s, now) && BarOk(s, bar) && !s.done
    ensures BarOk(Sent(s, forecast, now), bar)
  {
    var after := Sent(s, forecast, now);
    var n := |s.sent|;
    forall i: nat, j: nat | Neighbours(after.sent, bar, i, j) ensures FloorStands(after.sent, bar, i, j) {
      if j == n {
        SendingStands(s, forecast, now, bar, i);
      } else {
        assert Neighbours(s.sent, bar, i, j) by {
          forall k | i < k < j ensures !Carries(s.sent, bar, k) {
            assert !Carries(after.sent, bar, k);
          }
        }
      }
    }
    forall i: nat | LastToCarry(after, bar, i)
      ensures HeldFloor(after, bar) == SpanOf(after.sent[i], bar).value.floor
    {
      if i < n {
        assert !Carries(after.sent, bar, n);
        assert LastToCarry(s, bar, i) by {
          forall k | i < k < n ensures !Carries(s.sent, bar, k) {
            assert !Carries(after.sent, bar, k);
          }
        }
      }
    }
  }

  /** What sends nothing keeps both bars, a run's start ending the life of the run's. */
  lemma NotSendingKeepsBar(s: State, after: State, bar: Bar)
    requires BarOk(s, bar) && Unsent(s, after)
    ensures BarOk(after, bar)
  {
    forall i: nat | LastToCarry(after, bar, i)
      ensures HeldFloor(after, bar) == SpanOf(after.sent[i], bar).value.floor
    {
      assert LastToCarry(s, bar, i);
    }
  }

  lemma NotSendingKeepsFirsts(s: State, after: State, bar: Bar)
    requires FirstsOk(s, bar) && Unsent(s, after)
    ensures FirstsOk(after, bar)
  {
    if NoneCarries(after, bar) && (bar.JobBar? || after.runs == s.runs) {
      forall i | 0 <= i < |s.sent| ensures !(Carries(s.sent, bar, i) && OneLife(s.sent[i].runs, s.runs, bar)) {
        assert !(Carries(after.sent, bar, i) && OneLife(after.sent[i].runs, after.runs, bar));
      }
      assert NoneCarries(s, bar);
    }
  }

  lemma FeedingKeepsBar(s: State, input: Input, tunables: Tunables, bar: Bar)
    requires StateOk(s, input.now) && BarOk(s, bar) && FirstsOk(s, bar)
    ensures BarOk(Fed(s, input, tunables), bar) && FirstsOk(Fed(s, input, tunables), bar)
  {
    var before, forecast := FedOnce(s, input, tunables);
    NotSendingKeepsBar(s, before, bar);
    NotSendingKeepsFirsts(s, before, bar);
    if forecast.Some? {
      SendingKeepsBar(before, forecast.value, input.now, bar);
      SendingKeepsFirsts(before, forecast.value, input.now, bar);
    }
  }

  lemma {:induction false} AllFeedingKeepsBar(s: State, inputs: seq<Input>, from: real, tunables: Tunables, bar: Bar)
    requires StateOk(s, from) && BarOk(s, bar) && FirstsOk(s, bar) && InTime(inputs, from)
    ensures BarOk(AllFed(s, inputs, tunables), bar) && FirstsOk(AllFed(s, inputs, tunables), bar)
    decreases |inputs|
  {
    if inputs != [] {
      LaterIsOk(s, from, inputs[0].now);
      FeedingIsOk(s, inputs[0], from, tunables);
      FeedingKeepsBar(s, inputs[0], tunables, bar);
      AllFeedingKeepsBar(Fed(s, inputs[0], tunables), inputs[1..], inputs[0].now, tunables, bar);
    }
  }

  /** What was sent, whatever was fed: floors that follow from their neighbours', and moments that never go back. */
  ghost predicate SentOk(sent: seq<Publication>, bar: Bar) {
    && (forall i: nat, j: nat | Neighbours(sent, bar, i, j) :: FloorStands(sent, bar, i, j))
    && (forall i: nat | Carries(sent, bar, i) :: IsShare(SpanOf(sent[i], bar).value.floor))
    && (forall i | 0 <= i < |sent| - 1 :: sent[i].moment <= sent[i + 1].moment)
    && (forall i | 0 <= i < |sent| - 1 :: sent[i].runs <= sent[i + 1].runs)
  }

  /** Where its floor is at least its own share, a span first shows just its floor. */
  lemma FirstShown(span: Span, now: real)
    requires IsShare(span.floor) && ShareAt(span, now) <= span.floor
    ensures Progress(span, now) == span.floor
  {
  }

  /** The bar goes back between two neighbours exactly when the later one does not catch the earlier. */
  lemma NeighboursGoBackExactlyWhen(sent: seq<Publication>, bar: Bar, i: nat, j: nat)
    requires SentOk(sent, bar) && Neighbours(sent, bar, i, j)
    ensures SpanOf(sent[i], bar).value.floor <= SpanOf(sent[j], bar).value.floor
    ensures NotBack(sent, bar, i, j) <==> Catches(sent, bar, i, j)
  {
    var a, b := SpanOf(sent[i], bar).value, SpanOf(sent[j], bar).value;
    var replaced, now := sent[i + 1].moment, sent[j].moment;
    assert FloorStands(sent, bar, i, j);
    FirstShown(b, now);
    if Catches(sent, bar, i, j) {
      forall seen, later | seen <= replaced && now <= later ensures Progress(a, seen) <= Progress(b, later) {
        ProgressRises(a, seen, replaced);
        ProgressRises(b, now, later);
      }
    } else {
      assert Progress(a, replaced) > Progress(b, now);
    }
  }

  lemma {:induction false} RunsRise(sent: seq<Publication>, bar: Bar, i: nat, j: nat)
    requires SentOk(sent, bar) && i <= j < |sent|
    ensures sent[i].runs <= sent[j].runs
    decreases j
  {
    if i < j {
      RunsRise(sent, bar, i, j - 1);
      assert sent[j - 1].runs <= sent[j - 1 + 1].runs;
    }
  }

  lemma NotBackOn(sent: seq<Publication>, bar: Bar, i: nat, k: nat, j: nat)
    requires SentOk(sent, bar) && BothCarry(sent, bar, i, k) && BothCarry(sent, bar, k, j)
    requires NotBack(sent, bar, i, k) && NotBack(sent, bar, k, j)
    ensures BothCarry(sent, bar, i, j) && NotBack(sent, bar, i, j)
  {
    var a, between, b := SpanOf(sent[i], bar).value, SpanOf(sent[k], bar).value, SpanOf(sent[j], bar).value;
    var replaced := sent[k + 1].moment;
    assert sent[k].moment <= replaced;
    forall seen, later | seen <= sent[i + 1].moment && sent[j].moment <= later
      ensures Progress(a, seen) <= Progress(b, later)
    {
      assert Progress(a, seen) <= Progress(between, replaced) <= Progress(b, later);
    }
  }

  lemma {:induction false} CaughtNeverGoesBack(sent: seq<Publication>, bar: Bar, i: nat, j: nat)
    requires SentOk(sent, bar) && BothCarry(sent, bar, i, j)
    requires forall i: nat, j: nat | Neighbours(sent, bar, i, j) :: Catches(sent, bar, i, j)
    ensures NotBack(sent, bar, i, j)
    decreases j - i
  {
    if k: nat :| i < k < j && Carries(sent, bar, k) {
      RunsRise(sent, bar, i, k);
      RunsRise(sent, bar, k, j);
      CaughtNeverGoesBack(sent, bar, i, k);
      CaughtNeverGoesBack(sent, bar, k, j);
      NotBackOn(sent, bar, i, k, j);
    } else {
      assert Neighbours(sent, bar, i, j);
      NeighboursGoBackExactlyWhen(sent, bar, i, j);
    }
  }

  lemma WhatWasSentIsOk(inputs: seq<Input>, from: real, tunables: Tunables, bar: Bar)
    requires InTime(inputs, from)
    ensures SentOk(AllFed(FRESH, inputs, tunables).sent, bar)
  {
    var until := AllFeedingIsOk(FRESH, inputs, from, tunables);
    AllFeedingKeepsBar(FRESH, inputs, from, tunables, bar);
    OkStatesSentOk(AllFed(FRESH, inputs, tunables), until, bar);
  }

  lemma OkStatesSentOk(s: State, from: real, bar: Bar)
    requires StateOk(s, from) && BarOk(s, bar)
    ensures SentOk(s.sent, bar)
  {
    forall i | 0 <= i < |s.sent| - 1 ensures s.sent[i].moment <= s.sent[i + 1].moment {
      assert NeitherGoesBack(s.sent[i], s.sent[i + 1]);
    }
  }

  /**
   Through any events, parks and forecasts read in time order, and for the job's bar or within one run the run's: of a
   forecast that carries the bar and the next one that does, the floor never falls, and the bar goes back, looked at
   while each stands, exactly when the later one does not catch the earlier.
   */
  lemma ABarGoesBackExactlyWhen(inputs: seq<Input>, from: real, tunables: Tunables, bar: Bar, i: nat, j: nat)
    requires InTime(inputs, from) && Neighbours(AllFed(FRESH, inputs, tunables).sent, bar, i, j)
    ensures
      var sent := AllFed(FRESH, inputs, tunables).sent;
      && SpanOf(sent[i], bar).value.floor <= SpanOf(sent[j], bar).value.floor
      && (NotBack(sent, bar, i, j) <==> Catches(sent, bar, i, j))
  {
    WhatWasSentIsOk(inputs, from, tunables, bar);
    NeighboursGoBackExactlyWhen(AllFed(FRESH, inputs, tunables).sent, bar, i, j);
  }

  /** And in each life of a bar, a new run's of its own, the first to carry it holds just its own share. */
  lemma ANewBarStartsAtItsShare(inputs: seq<Input>, from: real, tunables: Tunables, bar: Bar, j: nat)
    requires InTime(inputs, from) && FirstToCarry(AllFed(FRESH, inputs, tunables).sent, bar, j)
    ensures StartsAtItsShare(AllFed(FRESH, inputs, tunables).sent[j], bar)
  {
    AllFeedingKeepsBar(FRESH, inputs, from, tunables, bar);
  }

  /**
   So a bar never goes back in its whole life, between any two forecasts that carry it, exactly when each of them
   catches the one that carried it before.
   */
  lemma BarsNeverGoBack(inputs: seq<Input>, from: real, tunables: Tunables, bar: Bar)
    requires InTime(inputs, from)
    ensures
      var sent := AllFed(FRESH, inputs, tunables).sent;
      (forall i: nat, j: nat | BothCarry(sent, bar, i, j) :: NotBack(sent, bar, i, j))
      <==> (forall i: nat, j: nat | Neighbours(sent, bar, i, j) :: Catches(sent, bar, i, j))
  {
    var sent := AllFed(FRESH, inputs, tunables).sent;
    WhatWasSentIsOk(inputs, from, tunables, bar);
    if forall i: nat, j: nat | BothCarry(sent, bar, i, j) :: NotBack(sent, bar, i, j) {
      forall i: nat, j: nat | Neighbours(sent, bar, i, j) ensures Catches(sent, bar, i, j) {
        assert BothCarry(sent, bar, i, j);
        NeighboursGoBackExactlyWhen(sent, bar, i, j);
      }
    }
    if forall i: nat, j: nat | Neighbours(sent, bar, i, j) :: Catches(sent, bar, i, j) {
      forall i: nat, j: nat | BothCarry(sent, bar, i, j) ensures NotBack(sent, bar, i, j) {
        CaughtNeverGoesBack(sent, bar, i, j);
      }
    }
  }

  // --- where a bar goes back --------------------------------------------------------------------

  /** A forecast within a run: a parking job ends with it, and one with a later run of no history has no end known. */
  function InRun(run: Span, whole: Option<Span>, parking: bool): Option<Forecast> {
    Some(Forecast(Stage(None, None, None), Some(run), if parking then Some(run) else whole))
  }

  /** And one between two runs of a job not parking. */
  function BetweenRuns(whole: Option<Span>): Option<Forecast> {
    Some(Forecast(Stage(None, None, None), None, whole))
  }

  const USUAL := Tunables(2.0, 1.0)

  function Ending(start: real, end: real): Span {
    Span(start, end, 0.0)
  }

  function Shown(run: Option<Span>, job: Option<Span>, moment: real, runs: nat): Publication {
    Publication(Forecast(Stage(None, None, None), run, job), moment, runs)
  }

  lemma LookedAtItIsBack(
    sent: seq<Publication>, bar: Bar, i: nat, j: nat, a: Span, b: Span, seen: real, later: real)
    requires BothCarry(sent, bar, i, j) && SpanOf(sent[i], bar) == Some(a) && SpanOf(sent[j], bar) == Some(b)
    requires seen <= sent[i + 1].moment && sent[j].moment <= later && Progress(a, seen) > Progress(b, later)
    ensures !NotBack(sent, bar, i, j)
  {
  }

  lemma WhatFiveSend(inputs: seq<Input>)
    requires |inputs| == 5
    ensures
      var first := Fed(Fed(FRESH, inputs[0], USUAL), inputs[1], USUAL);
      var last := Fed(Fed(Fed(first, inputs[2], USUAL), inputs[3], USUAL), inputs[4], USUAL);
      AllFed(FRESH, inputs, USUAL) == last
  {
    var one := Fed(FRESH, inputs[0], USUAL);
    var two := Fed(one, inputs[1], USUAL);
    var three := Fed(two, inputs[2], USUAL);
    var four := Fed(three, inputs[3], USUAL);
    assert AllFed(FRESH, inputs, USUAL) == AllFed(one, inputs[1..], USUAL);
    assert inputs[1..][1..] == inputs[2..] && AllFed(one, inputs[1..], USUAL) == AllFed(two, inputs[2..], USUAL);
    assert inputs[2..][1..] == inputs[3..] && AllFed(two, inputs[2..], USUAL) == AllFed(three, inputs[3..], USUAL);
    assert inputs[3..][1..] == inputs[4..] && AllFed(three, inputs[3..], USUAL) == AllFed(four, inputs[4..], USUAL);
    assert inputs[4..][1..] == [];
  }

  /** A job whose second run has no history is parked, unparked and parked again in its first, which grows slower. */
  const PARKED_TWICE := [
    AnEvent(OtherEvent, InRun(Ending(0.0, 10.0), None, false), 0.0),
    AnEvent(RunStarted, InRun(Ending(0.0, 10.0), None, false), 0.0),
    APark(true, InRun(Ending(0.0, 10.0), None, true), 0.0),
    APark(false, InRun(Ending(0.0, 10.0), None, false), 8.0),
    APark(true, InRun(Ending(0.0, 100.0), None, true), 9.0)]

  const SENT_TWICE := [
    Shown(Some(Ending(0.0, 10.0)), None, 0.0, 0),
    Shown(Some(Ending(0.0, 10.0)), None, 0.0, 1),
    Shown(Some(Ending(0.0, 10.0)), Some(Ending(0.0, 10.0)), 0.0, 1),
    Shown(Some(Span(0.0, 10.0, 0.8)), None, 8.0, 1),
    Shown(Some(Span(0.0, 100.0, 0.9)), Some(Span(0.0, 100.0, 0.09)), 9.0, 1)]

  lemma WhatIsSentOfTwoParks() returns (inputs: seq<Input>, sent: seq<Publication>)
    ensures InTime(inputs, 0.0) && AllFed(FRESH, inputs, USUAL).sent == sent
    ensures inputs == PARKED_TWICE && sent == SENT_TWICE
  {
    inputs, sent := PARKED_TWICE, SENT_TWICE;
    WhatFiveSend(inputs);
    var one := Fed(FRESH, inputs[0], USUAL);
    assert one.sent == SENT_TWICE[..1];
    var two := Fed(one, inputs[1], USUAL);
    assert two.sent == SENT_TWICE[..2];
    var three := Fed(two, inputs[2], USUAL);
    assert three.sent == SENT_TWICE[..3];
    var four := Fed(three, inputs[3], USUAL);
    assert four.sent == SENT_TWICE[..4];
  }

  lemma TwoParksGoBack(sent: seq<Publication>)
    requires sent == SENT_TWICE
    ensures Neighbours(sent, JobBar, 2, 4) && !NotBack(sent, JobBar, 2, 4)
    ensures sent[2].forecast.job.value.start == sent[4].forecast.job.value.start
    ensures Progress(sent[2].forecast.job.value, 8.0) == 0.8 && sent[3].moment == 8.0
    ensures Progress(sent[4].forecast.job.value, 9.0) == 0.09 && sent[4].moment == 9.0
    ensures sent[4].forecast.run.Some? && Progress(sent[4].forecast.run.value, 9.0) == 0.9
  {
    LookedAtItIsBack(sent, JobBar, 2, 4, Ending(0.0, 10.0), Span(0.0, 100.0, 0.09), 8.0, 9.0);
  }

  /** Then its bar goes back over the forecast that carried none, from 0.8 to 0.09, while its run's stands at 0.9. */
  lemma AGapMayGoBack() returns (inputs: seq<Input>, sent: seq<Publication>)
    ensures inputs == PARKED_TWICE && InTime(inputs, 0.0) && AllFed(FRESH, inputs, USUAL).sent == sent
    ensures Neighbours(sent, JobBar, 2, 4) && !NotBack(sent, JobBar, 2, 4)
    ensures sent[2].forecast.job.value.start == sent[4].forecast.job.value.start
    ensures Progress(sent[2].forecast.job.value, 8.0) == 0.8 && sent[3].moment == 8.0
    ensures Progress(sent[4].forecast.job.value, 9.0) == 0.09 && sent[4].moment == 9.0
    ensures sent[4].forecast.run.Some? && Progress(sent[4].forecast.run.value, 9.0) == 0.9
  {
    inputs, sent := WhatIsSentOfTwoParks();
    TwoParksGoBack(sent);
  }

  /** A job whose every run has a history is parked in its second. */
  const PARKED_LATE := [
    AnEvent(OtherEvent, InRun(Ending(0.0, 40.0), Some(Ending(0.0, 100.0)), false), 0.0),
    AnEvent(RunStarted, InRun(Ending(0.0, 40.0), Some(Ending(0.0, 100.0)), false), 0.0),
    AnEvent(OtherEvent, BetweenRuns(Some(Ending(0.0, 100.0))), 40.0),
    AnEvent(RunStarted, InRun(Ending(50.0, 90.0), Some(Ending(0.0, 100.0)), false), 50.0),
    APark(true, InRun(Ending(50.0, 90.0), Some(Ending(0.0, 100.0)), true), 70.0)]

  const SENT_LATE := [
    Shown(Some(Ending(0.0, 40.0)), Some(Ending(0.0, 100.0)), 0.0, 0),
    Shown(Some(Ending(0.0, 40.0)), Some(Ending(0.0, 100.0)), 0.0, 1),
    Shown(None, Some(Span(0.0, 100.0, 0.4)), 40.0, 1),
    Shown(Some(Ending(50.0, 90.0)), Some(Span(0.0, 100.0, 0.5)), 50.0, 2),
    Shown(Some(Span(50.0, 90.0, 0.5)), Some(Span(50.0, 90.0, 0.5)), 70.0, 2)]

  lemma WhatIsSentOfALatePark() returns (inputs: seq<Input>, sent: seq<Publication>)
    ensures InTime(inputs, 0.0) && AllFed(FRESH, inputs, USUAL).sent == sent
    ensures inputs == PARKED_LATE && sent == SENT_LATE
  {
    inputs, sent := PARKED_LATE, SENT_LATE;
    WhatFiveSend(inputs);
    var one := Fed(FRESH, inputs[0], USUAL);
    assert one.sent == SENT_LATE[..1];
    var two := Fed(one, inputs[1], USUAL);
    assert two.sent == SENT_LATE[..2];
    var three := Fed(two, inputs[2], USUAL);
    assert three.sent == SENT_LATE[..3];
    var four := Fed(three, inputs[3], USUAL);
    assert four.sent == SENT_LATE[..4];
  }

  lemma ALateParkGoesBack(sent: seq<Publication>)
    requires sent == SENT_LATE
    ensures Neighbours(sent, JobBar, 3, 4) && !NotBack(sent, JobBar, 3, 4)
    ensures Progress(sent[3].forecast.job.value, 70.0) == 0.7
    ensures Progress(sent[4].forecast.job.value, 70.0) == 0.5 && sent[4].moment == 70.0
  {
    LookedAtItIsBack(sent, JobBar, 3, 4, Span(0.0, 100.0, 0.5), Span(50.0, 90.0, 0.5), 70.0, 70.0);
  }

  /** Then its bar, now its run's and begun with it, goes back at once: from 0.7 to 0.5. */
  lemma AParkMayGoBack() returns (inputs: seq<Input>, sent: seq<Publication>)
    ensures inputs == PARKED_LATE && InTime(inputs, 0.0) && AllFed(FRESH, inputs, USUAL).sent == sent
    ensures Neighbours(sent, JobBar, 3, 4) && !NotBack(sent, JobBar, 3, 4)
    ensures Progress(sent[3].forecast.job.value, 70.0) == 0.7
    ensures Progress(sent[4].forecast.job.value, 70.0) == 0.5 && sent[4].moment == 70.0
  {
    inputs, sent := WhatIsSentOfALatePark();
    ALateParkGoesBack(sent);
  }

  // --- when a forecast goes out -------------------------------------------------------------------

  /** Some share of the forecast is new: a bar comes or goes, or ends at another time than the one last sent. */
  predicate EndMoved(a: Option<Span>, b: Option<Span>, within: real) {
    if a.Some? && b.Some? then a.value.end - b.value.end > within || b.value.end - a.value.end > within
    else a.Some? || b.Some?
  }

  /**
   On an event, a forecast goes out exactly then: on a reading of a counter when the stage or its units are others than
   last sent, and it is the stage's last or the interval since the reading before is over; on any other event that can
   send, when the stage, its units, the parking or an end is another. The end of a stage or its timing, and output that
   is no reading, send none.
   */
  lemma AForecastGoesOutExactlyWhen(s: State, event: Event, forecast: Option<Forecast>, now: real, tunables: Tunables)
    requires !s.done && !event.JobFinished? && tunables.sameEnd >= 0.0
    ensures
      var begun := if event.RunStarted? then Started(s) else s;
      var can := forecast.Some? && !event.StageOrTimingFinished? && (event.RunOutput? ==> event.reading);
      var goes :=
        can &&
        (if event.RunOutput? then
           && (s.last == None || forecast.value.stage != s.last.value.stage)
           && (|| (forecast.value.stage.total.Some? && forecast.value.stage.done == forecast.value.stage.total)
               || s.lastReadingAt == None || now - s.lastReadingAt.value >= tunables.interval)
         else
           || begun.last == None || forecast.value.stage != begun.last.value.stage || s.parking != s.parkingAtLast
           || EndMoved(forecast.value.run, begun.last.value.run, tunables.sameEnd)
           || EndMoved(forecast.value.job, begun.last.value.job, tunables.sameEnd));
      var after := Observed(s, event, forecast, now, tunables);
      && |after.sent| == |s.sent| + (if goes then 1 else 0)
      && (goes ==> after.sent[|s.sent|].moment == now && after.sent[|s.sent|].forecast.stage == forecast.value.stage)
      && after.lastReadingAt ==
           (if event.RunOutput? then (if goes then Some(now) else s.lastReadingAt)
            else if can && (begun.last == None || forecast.value.stage.name != begun.last.value.stage.name) then None
            else s.lastReadingAt)
  {
  }

  /** A park reserved or withdrawn sends at once, whatever was sent before, if there is a forecast at all. */
  lemma AParkIsShownAtOnce(s: State, parking: bool, forecast: Option<Forecast>, now: real)
    requires !s.done
    ensures
      var after := ParkChanged(s, parking, forecast, now);
      && after.parking == parking
      && |after.sent| == |s.sent| + (if forecast.Some? then 1 else 0)
      && (forecast.Some? ==> after.parkingAtLast == parking && after.sent[|s.sent|].moment == now)
  {
  }

  /** Readings and nothing else, in time order. */
  predicate AreReadings(inputs: seq<Input>) {
    forall i | 0 <= i < |inputs| :: inputs[i].AnEvent? && inputs[i].event.RunOutput?
  }

  predicate IsLastReading(stage: Stage) {
    stage.total.Some? && stage.done == stage.total
  }

  /** However fast a counter counts, its forecasts keep the interval apart, but for a stage's last. */
  lemma {:induction false} ReadingsDoNotFlood(s: State, inputs: seq<Input>, tunables: Tunables, i: nat)
    requires AreReadings(inputs) && |s.sent| <= i < |AllFed(s, inputs, tunables).sent|
    requires i > 0 && (i == |s.sent| ==> s.lastReadingAt == Some(s.sent[i - 1].moment))
    ensures
      var sent := AllFed(s, inputs, tunables).sent;
      IsLastReading(sent[i].forecast.stage) || sent[i].moment - sent[i - 1].moment >= tunables.interval
    decreases |inputs|
  {
    if inputs != [] {
      var next := Fed(s, inputs[0], tunables);
      SentOnlyGrows(next, inputs[1..], tunables);
      if i > |s.sent| || |next.sent| == |s.sent| {
        ReadingsDoNotFlood(next, inputs[1..], tunables, i);
      }
    }
  }

  lemma {:induction false} SentOnlyGrows(s: State, inputs: seq<Input>, tunables: Tunables)
    ensures s.sent <= AllFed(s, inputs, tunables).sent
    decreases |inputs|
  {
    if inputs != [] {
      SentOnlyGrows(Fed(s, inputs[0], tunables), inputs[1..], tunables);
    }
  }
}
