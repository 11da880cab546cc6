/**
 The queue worker's shared state and the sections it changes under its lock: what each one does to
 the store, the hold, the running job's token, the worker's own marks and the published events.
 */
module QueueWorkers {
  import opened Options
  import opened Callers
  import opened CancelTokens
  import opened QueueHolds
  import opened QueueStore

  datatype StopReason = StopForCancel | StopForShutdown

  datatype Event = EntryChanged(entry: nat, state: QueueState) | ParkChanged(entry: nat, parking: bool)

  /** The events of one process, newest outermost; `store` is what it opened with. */
  datatype Events = Opening(store: Store) | Then(before: Events, event: Event)

  /** The worker's marks about the entry it has claimed. */
  datatype Marks = Marks(
    current: Option<nat>,
    stop: Option<StopReason>,
    cancelPending: bool,
    parkPending: bool,
    started: bool,
    finished: bool,
    skipWait: bool)
  {
    /** Claimed and not yet marked finished. */
    predicate IsRunning(n: nat) {
      current == Some(n) && !finished
    }
  }

  const NO_MARKS := Marks(None, None, false, false, false, false, false)

  datatype Shared = Shared(
    store: Store,
    holding: Holding,
    token: Token,
    marks: Marks,
    stopping: bool,
    events: Events)

  datatype ClaimAnswer = NothingToClaim | PutBack(entry: nat) | ClaimedOne(entry: nat)

  datatype ParkAnswer = ParkAccepted | ParkDeclined | ParkRaised(why: Outcome)

  // --- what each section does -----------------------------------------------------------------

  function Published(s: Shared, event: Event): Shared {
    s.(events := Then(s.events, event))
  }

  /** An insert and its event, before any claim can see the row. */
  function EnqueueSection(s: Shared, e: Entry): Shared {
    Published(s.(store := Submitted(s.store, e)), EntryChanged(s.store.nextEntry, e.state))
  }

  predicate IsQueued(s: Shared, n: nat) {
    n in s.store.entries && s.store.entries[n].state.Queued?
  }

  function CancelQueuedSection(s: Shared, n: nat): (Shared, bool) {
    if IsQueued(s, n) then
      (Published(s.(store := WithState(s.store, n, Cancelled)), EntryChanged(n, Cancelled)), true)
    else (s, false)
  }

  /** The first stop reason stands; the token is told after the lock is released. */
  function CancelRunningSection(s: Shared, n: nat): (Shared, bool) {
    if s.marks.current != Some(n) then (s, false)
    else
      var reason := if s.marks.stop.None? then Some(StopForCancel) else s.marks.stop;
      (s.(marks := s.marks.(stop := reason, cancelPending := true)), true)
  }

  function StopSection(s: Shared): Shared {
    if s.marks.current.Some? && s.marks.stop.None? then
      s.(marks := s.marks.(stop := Some(StopForShutdown), cancelPending := true))
    else s
  }

  function ParkSection(s: Shared, n: nat, caller: Caller, now: string, saved: bool): (Shared, ParkAnswer) {
    if !s.marks.IsRunning(n) || s.marks.stop.Some? then (s, ParkDeclined)
    else
      var (holding, outcome) := Held(s.holding, Some(n), caller, now, saved);
      if !outcome.Done? then (s, ParkRaised(outcome))
      else if s.marks.parkPending then (s.(holding := holding), ParkAccepted)
      else
        var token := if s.marks.started then s.token.Parked() else s.token;
        (Published(s.(holding := holding, token := token, marks := s.marks.(parkPending := true)),
                   ParkChanged(n, true)),
         ParkAccepted)
  }

  /** The hold is released with the token's lock held; a hold that stays leaves the reservation standing too. */
  function UnparkSection(s: Shared, n: nat, caller: Caller, deleted: bool): (Shared, ParkAnswer) {
    if !s.marks.IsRunning(n) then (s, ParkDeclined)
    else if !s.marks.parkPending then (s, ParkAccepted)
    else if s.marks.started && s.token.taken then (s, ParkDeclined)
    else
      var (holding, outcome) := Released(s.holding, Some(n), caller, deleted);
      if !outcome.Done? then (s, ParkRaised(outcome))
      else
        var token := if s.marks.started then s.token.Unparked() else s.token;
        (Published(s.(holding := holding, token := token, marks := s.marks.(parkPending := false)),
                   ParkChanged(n, false)),
         ParkAccepted)
  }

  function HoldSection(s: Shared, caller: Caller, now: string, saved: bool): (Shared, Outcome) {
    var (holding, outcome) := Held(s.holding, None, caller, now, saved);
    (s.(holding := holding), outcome)
  }

  /** A release once the claimed job has ended also drops the wait before the next claim. */
  function ReleaseSection(s: Shared, caller: Caller, deleted: bool): (Shared, Outcome) {
    var (holding, outcome) := Released(s.holding, None, caller, deleted);
    var skips := outcome == Done(true) && (s.marks.current.None? || s.marks.finished);
    (s.(holding := holding, marks := if skips then s.marks.(skipWait := true) else s.marks), outcome)
  }

  /** Claims the oldest queued entry unless held; one claimed as shutdown began goes straight back. */
  function ClaimSection(s: Shared): (Shared, ClaimAnswer) {
    var oldest := OldestQueued(s.store);
    if s.holding.state.held || oldest.None? then (s, NothingToClaim)
    else
      var n := oldest.value;
      var claimed := WithState(s.store, n, Running);
      if s.stopping then (Published(s.(store := Requeued(claimed, n)), EntryChanged(n, Queued)), PutBack(n))
      else
        (Published(s.(store := claimed, marks := NO_MARKS.(current := Some(n))), EntryChanged(n, Running)),
         ClaimedOne(n))
  }

  /** At the job's start: a park reserved before it is asked of the token; the answer is whether a stop was. */
  function GuardSection(s: Shared): (Shared, bool) {
    var token := if s.marks.parkPending then s.token.Parked() else s.token;
    (s.(token := token, marks := s.marks.(started := true)), s.marks.cancelPending)
  }

  function FinalState(stop: Option<StopReason>, status: JobStatus): QueueState {
    match status
    case JobSucceeded => Succeeded
    case JobFailed => Failed
    case JobParked => Parked
    case _ =>
      match stop
      case Some(StopForCancel) => Cancelled
      case Some(StopForShutdown) => Interrupted
      case None => Failed
  }

  function FinishSection(s: Shared, n: nat, state: QueueState): Shared
    requires n in s.store.entries
  {
    s.(store := WithState(s.store, n, state), marks := s.marks.(finished := true))
  }

  function FailSection(s: Shared, n: nat): Shared
    requires n in s.store.entries
  {
    s.(store := FailedToStart(s.store, n), marks := s.marks.(finished := true))
  }

  function ReleasedEntry(s: Shared): Shared {
    s.(marks := s.marks.(current := None))
  }

  // --- the worker -----------------------------------------------------------------------------

  class QueueWorker {
    var store: Store
    const hold: QueueHold
    const token: CancelToken
    var current: Option<nat>
    var stopReason: Option<StopReason>
    var pendingCancel: bool
    var parkPending: bool
    var jobStarted: bool
    var jobFinished: bool
    var releaseSkipsWait: bool
    var stopping: bool
    var events: Events

    ghost function View(): Shared
      reads this, hold, token
    {
      Shared(store, hold.View(), token.View(),
             Marks(current, stopReason, pendingCancel, parkPending, jobStarted, jobFinished, releaseSkipsWait),
             stopping, events)
    }

    constructor (store: Store, saved: Option<SavedRow>)
      ensures View() == Shared(store, Holding(ReadHold(saved), saved), IDLE_TOKEN, NO_MARKS, false, Opening(store))
      ensures fresh(hold) && fresh(token)
    {
      this.store := store;
      hold := new QueueHold(saved);
      token := new CancelToken();
      current, stopReason, pendingCancel, parkPending := None, None, false, false;
      jobStarted, jobFinished, releaseSkipsWait, stopping := false, false, false, false;
      events := Opening(store);
    }

    method Enqueue(e: Entry)
      modifies this
      ensures View() == EnqueueSection(old(View()), e)
    {
      var number := store.nextEntry;
      store := Submitted(store, e);
      events := Then(events, EntryChanged(number, e.state));
    }

    method CancelQueued(n: nat) returns (cancelled: bool)
      modifies this
      ensures (View(), cancelled) == CancelQueuedSection(old(View()), n)
    {
      if n !in store.entries || !store.entries[n].state.Queued? {
        return false;
      }
      store := WithState(store, n, Cancelled);
      events := Then(events, EntryChanged(n, Cancelled));
      return true;
    }

    method CancelRunning(n: nat) returns (accepted: bool)
      modifies this
      ensures (View(), accepted) == CancelRunningSection(old(View()), n)
    {
      if current.None? || current.value != n {
        return false;
      }
      if stopReason.None? {
        stopReason := Some(StopForCancel);
      }
      pendingCancel := true;
      return true;
    }

    method Stop()
      modifies this
      ensures View() == StopSection(old(View()))
    {
      // Whichever stop reason lands first wins.
      if current.Some? && stopReason.None? {
        stopReason := Some(StopForShutdown);
        pendingCancel := true;
      }
    }

    method ParkRunning(n: nat, caller: Caller, now: string, saved: bool) returns (answer: ParkAnswer)
      modifies this, hold, token
      ensures (View(), answer) == ParkSection(old(View()), n, caller, now, saved)
    {
      if current != Some(n) || jobFinished || stopReason.Some? {
        return ParkDeclined;
      }
      // The hold first: a park never runs without the hold that keeps the next entry from starting after it.
      var outcome := hold.Hold(Some(n), caller, now, saved);
      if !outcome.Done? {
        return ParkRaised(outcome);
      }
      if !parkPending {
        parkPending := true;
        if jobStarted {
          var asked := token.Park();
        }
        events := Then(events, ParkChanged(n, true));
      }
      return ParkAccepted;
    }

    method UnparkRunning(n: nat, caller: Caller, deleted: bool) returns (answer: ParkAnswer)
      modifies this, hold, token
      ensures (View(), answer) == UnparkSection(old(View()), n, caller, deleted)
    {
      if current != Some(n) || jobFinished {
        return ParkDeclined;
      }
      if !parkPending {
        return ParkAccepted;
      }
      if jobStarted && token.taken {
        return ParkDeclined;
      }
      var outcome := hold.Release(Some(n), caller, deleted);
      if !outcome.Done? {
        return ParkRaised(outcome);
      }
      if jobStarted {
        token.Withdraw();
      }
      parkPending := false;
      events := Then(events, ParkChanged(n, false));
      return ParkAccepted;
    }

    method Hold(caller: Caller, now: string, saved: bool) returns (outcome: Outcome)
      modifies hold
      ensures (View(), outcome) == HoldSection(old(View()), caller, now, saved)
    {
      outcome := hold.Hold(None, caller, now, saved);
    }

    method Release(caller: Caller, deleted: bool) returns (outcome: Outcome)
      modifies this, hold
      ensures (View(), outcome) == ReleaseSection(old(View()), caller, deleted)
    {
      outcome := hold.Release(None, caller, deleted);
      if outcome == Done(true) && (current.None? || jobFinished) {
        releaseSkipsWait := true;
      }
    }

    method ClaimOne() returns (answer: ClaimAnswer)
      modifies this
      ensures (View(), answer) == ClaimSection(old(View()))
    {
      var oldest := OldestQueued(store);
      if hold.state.held || oldest.None? {
        return NothingToClaim;
      }
      var n := oldest.value;
      store := WithState(store, n, Running);
      if stopping {
        store := Requeued(store, n);
        events := Then(events, EntryChanged(n, Queued));
        return PutBack(n);
      }
      current, stopReason, pendingCancel := Some(n), None, false;
      parkPending, jobStarted, jobFinished, releaseSkipsWait := false, false, false, false;
      events := Then(events, EntryChanged(n, Running));
      return ClaimedOne(n);
    }

    /** At JobStarted: the caller cancels the job's token when this says a stop is pending. */
    method StartGuard() returns (pending: bool)
      modifies this, token
      ensures (View(), pending) == GuardSection(old(View()))
    {
      jobStarted := true;
      pending := pendingCancel;
      if parkPending {
        var asked := token.Park();
      }
    }

    method Finish(n: nat, state: QueueState)
      requires n in store.entries
      modifies this
      ensures View() == FinishSection(old(View()), n, state)
    {
      store := WithState(store, n, state);
      jobFinished := true;
    }

    method FailToStart(n: nat)
      requires n in store.entries
      modifies this
      ensures View() == FailSection(old(View()), n)
    {
      store := FailedToStart(store, n);
      jobFinished := true;
    }

    method ReleaseEntry()
      modifies this
      ensures View() == ReleasedEntry(old(View()))
    {
      current := None;
    }
  }
}
