/**
 What a client's request on one entry does: the row is read first, with no lock, so by the time the
 worker's own section runs it may have changed; the section decides.
 */
module QueueRequests {
  import opened Options
  import opened Callers
  import opened QueueHolds
  import opened QueueStore
  import opened QueueWorkers

  datatype Answer =
    | NoSuchEntry
    | Forbidden
    | RefusedAs(state: QueueState)
    | RefusedStopping(reason: StopReason)
    | RefusedParked
    | HoldFailed(why: Outcome)
    | CancelledWaiting
    | Told

  /** Whether the row as read lets `caller` go on to the worker. */
  function Checked(read: Store, n: nat, caller: Caller): Option<Answer> {
    if n !in read.entries then Some(NoSuchEntry)
    else if !EntryPermitted(read.entries[n].submittedBy, caller) then Some(Forbidden)
    else None
  }

  /** An agent is forbidden what a person submitted, and nobody else anything; a missing entry is nobody's. */
  lemma WhoIsForbidden(read: Store, n: nat, caller: Caller)
    ensures Checked(read, n, caller) == Some(NoSuchEntry) <==> n !in read.entries
    ensures Checked(read, n, caller) == Some(Forbidden) <==>
              n in read.entries && caller == Some("mcp") && read.entries[n].submittedBy != Some("mcp")
    ensures Checked(read, n, caller).Some? ==> Checked(read, n, caller).value in {NoSuchEntry, Forbidden}
  {
  }

  /** What the entry is told to be, after its worker declined: a store read again, or gone. */
  function StateNow(s: Store, n: nat): Answer {
    if n in s.entries then RefusedAs(s.entries[n].state) else NoSuchEntry
  }

  /** The shared state as a request met it: as it made its worker's section, a second time, then left it, and last. */
  datatype Looks = Looks(section: Shared, second: Shared, left: Shared, last: Shared)

  /**
   A park that was declined asks for the stop's reason (`second`) and then, if there is none, for the row (`last`).
   */
  function ParkAnswered(looks: Looks, n: nat, answer: ParkAnswer): Answer {
    match answer
    case ParkAccepted => Told
    case ParkRaised(why) => HoldFailed(why)
    case ParkDeclined =>
      var marks := looks.second.marks;
      if marks.IsRunning(n) && marks.stop.Some? then RefusedStopping(marks.stop.value)
      else StateNow(looks.last.store, n)
  }

  function UnparkAnswered(looks: Looks, n: nat, answer: ParkAnswer): Answer {
    match answer
    case ParkAccepted => Told
    case ParkRaised(why) => HoldFailed(why)
    case ParkDeclined =>
      var s := looks.last.store;
      if n in s.entries && s.entries[n].state in {Running, Parked} then RefusedParked else StateNow(s, n)
  }

  /** A cancel tries the waiting entry's section and then the running one's (`second`), or only the latter. */
  function CancelAnswered(looks: Looks, n: nat, waiting: bool): Answer {
    if waiting && IsQueued(looks.section, n) then CancelledWaiting else Told
  }

  /** Whatever other threads do while this one holds no lock: callers learn nothing of it. */
  method OtherThreads(worker: QueueWorker)
    modifies worker, worker.hold, worker.token
  {
  }

  method ParkEntry(worker: QueueWorker, n: nat, caller: Caller, now: string, saved: bool)
    returns (answer: Answer, ghost looks: Looks)
    modifies worker, worker.hold, worker.token
    ensures
      var read := old(worker.store);
      if Checked(read, n, caller).Some? then
        answer == Checked(read, n, caller).value && worker.View() == old(worker.View())
      else if !read.entries[n].state.Running? then
        answer == RefusedAs(read.entries[n].state) && worker.View() == old(worker.View())
      else
        var (after, parked) := ParkSection(looks.section, n, caller, now, saved);
        && answer == ParkAnswered(looks, n, parked)
        && (if parked.ParkDeclined? then after == looks.section && worker.View() == looks.last
            else worker.View() == after)
  {
    looks := Looks(worker.View(), worker.View(), worker.View(), worker.View());
    if n !in worker.store.entries {
      return NoSuchEntry, looks;
    }
    if !EntryPermitted(worker.store.entries[n].submittedBy, caller) {
      return Forbidden, looks;
    }
    if !worker.store.entries[n].state.Running? {
      return RefusedAs(worker.store.entries[n].state), looks;
    }
    OtherThreads(worker);
    looks := looks.(section := worker.View());
    var parked := worker.ParkRunning(n, caller, now, saved);
    if parked.ParkAccepted? {
      return Told, looks;
    } else if parked.ParkRaised? {
      return HoldFailed(parked.why), looks;
    }
    OtherThreads(worker);
    looks := looks.(second := worker.View(), last := worker.View());
    if worker.current == Some(n) && !worker.jobFinished && worker.stopReason.Some? {
      return RefusedStopping(worker.stopReason.value), looks;
    }
    OtherThreads(worker);
    looks := looks.(last := worker.View());
    return StateNow(worker.store, n), looks;
  }

  method UnparkEntry(worker: QueueWorker, n: nat, caller: Caller, deleted: bool)
    returns (answer: Answer, ghost looks: Looks)
    modifies worker, worker.hold, worker.token
    ensures
      var read := old(worker.store);
      if Checked(read, n, caller).Some? then
        answer == Checked(read, n, caller).value && worker.View() == old(worker.View())
      else if !read.entries[n].state.Running? then
        answer == RefusedAs(read.entries[n].state) && worker.View() == old(worker.View())
      else
        var (after, unparked) := UnparkSection(looks.section, n, caller, deleted);
        && answer == UnparkAnswered(looks, n, unparked)
        && (if unparked.ParkDeclined? then after == looks.section && worker.View() == looks.last
            else worker.View() == after)
  {
    looks := Looks(worker.View(), worker.View(), worker.View(), worker.View());
    if n !in worker.store.entries {
      return NoSuchEntry, looks;
    }
    if !EntryPermitted(worker.store.entries[n].submittedBy, caller) {
      return Forbidden, looks;
    }
    if !worker.store.entries[n].state.Running? {
      return RefusedAs(worker.store.entries[n].state), looks;
    }
    OtherThreads(worker);
    looks := looks.(section := worker.View());
    var unparked := worker.UnparkRunning(n, caller, deleted);
    if unparked.ParkAccepted? {
      return Told, looks;
    } else if unparked.ParkRaised? {
      return HoldFailed(unparked.why), looks;
    }
    OtherThreads(worker);
    looks := looks.(last := worker.View());
    if n in worker.store.entries && worker.store.entries[n].state in {Running, Parked} {
      return RefusedParked, looks;
    }
    return StateNow(worker.store, n), looks;
  }

  /** A waiting entry claimed since the read falls through to the running one's stop, whose token is told last. */
  method CancelEntry(worker: QueueWorker, n: nat, caller: Caller) returns (answer: Answer, ghost looks: Looks)
    modifies worker, worker.hold, worker.token
    ensures
      var read := old(worker.store);
      if Checked(read, n, caller).Some? then
        answer == Checked(read, n, caller).value && worker.View() == old(worker.View())
      else if !read.entries[n].state.Active() then
        answer == RefusedAs(read.entries[n].state) && worker.View() == old(worker.View())
      else
        && answer == CancelAnswered(looks, n, read.entries[n].state.Queued?)
        && (if answer.CancelledWaiting? then worker.View() == CancelQueuedSection(looks.section, n).0
            else
              var (left, accepted) := CancelRunningSection(looks.second, n);
              && looks.left == left
              && worker.View() == if accepted then looks.last.(token := looks.last.token.Cancelled()) else left)
  {
    looks := Looks(worker.View(), worker.View(), worker.View(), worker.View());
    if n !in worker.store.entries {
      return NoSuchEntry, looks;
    }
    if !EntryPermitted(worker.store.entries[n].submittedBy, caller) {
      return Forbidden, looks;
    }
    var waiting := worker.store.entries[n].state.Queued?;
    if !waiting && !worker.store.entries[n].state.Running? {
      return RefusedAs(worker.store.entries[n].state), looks;
    }
    if waiting {
      OtherThreads(worker);
      looks := looks.(section := worker.View());
      var cancelled := worker.CancelQueued(n);
      if cancelled {
        return CancelledWaiting, looks;
      }
    }
    OtherThreads(worker);
    looks := looks.(second := worker.View());
    var accepted := worker.CancelRunning(n);
    looks := looks.(left := worker.View());
    if accepted {
      OtherThreads(worker);
      looks := looks.(last := worker.View());
      var _ := worker.token.Cancel();
    }
    return Told, looks;
  }
}
