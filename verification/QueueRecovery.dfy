/**
 Recovery after a crash, before the worker starts: running executions end interrupted, and each
 running entry becomes what its execution shows, or queued again when it has none.
 */
module QueueRecovery {
  import opened Options
  import opened QueueStore

  function ShownBy(status: JobStatus): QueueState {
    match status
    case JobSucceeded => Succeeded
    case JobFailed => Failed
    case JobParked => Parked
    case _ => Interrupted
  }

  function RecoveredEntry(s: Store, e: Entry): Entry {
    match e.execution
    case None => e.(state := Queued, execution := None)
    case Some(x) =>
      if x in s.executions then e.(state := ShownBy(s.executions[x].status))
      else e.(state := Queued, execution := None)
  }

  /** What recovery makes of the whole store, in one go. */
  function RecoveredStore(s: Store): Store {
    var swept := Swept(s);
    swept.(entries := map n | n in s.entries ::
      if s.entries[n].state.Running? then RecoveredEntry(swept, s.entries[n]) else s.entries[n])
  }

  /** One running entry's recovery, a transaction of its own. */
  function EntryRecovered(s: Store, n: nat): Store
    requires n in s.entries
  {
    match s.entries[n].execution
    case None => Requeued(s, n)
    case Some(x) =>
      if x in s.executions then WithState(s, n, ShownBy(s.executions[x].status)) else Requeued(s, n)
  }

  /** The running entries, oldest first. */
  function RunningFrom(s: Store, from: nat): seq<nat>
    decreases s.nextEntry - from
  {
    if from >= s.nextEntry then []
    else (if from in s.entries && s.entries[from].state.Running? then [from] else []) + RunningFrom(s, from + 1)
  }

  lemma {:induction false} RunningFromHas(s: Store, from: nat, n: nat)
    ensures n in RunningFrom(s, from) <==> from <= n < s.nextEntry && n in s.entries && s.entries[n].state.Running?
    decreases s.nextEntry - from
  {
    if from < s.nextEntry {
      RunningFromHas(s, from + 1, n);
    }
  }

  lemma {:induction false} RunningFromRises(s: Store, from: nat)
    ensures forall i | 0 <= i < |RunningFrom(s, from)| :: from <= RunningFrom(s, from)[i]
    ensures forall i, j | 0 <= i < j < |RunningFrom(s, from)| :: RunningFrom(s, from)[i] < RunningFrom(s, from)[j]
    decreases s.nextEntry - from
  {
    if from < s.nextEntry {
      RunningFromRises(s, from + 1);
    }
  }

  /** `s` is `swept` with the entries of `done` recovered. */
  predicate PartRecovered(swept: Store, s: Store, done: seq<nat>) {
    && s == swept.(entries := s.entries)
    && s.entries.Keys == swept.entries.Keys
    && forall n | n in swept.entries ::
         s.entries[n] == if n in done then RecoveredEntry(swept, swept.entries[n]) else swept.entries[n]
  }

  lemma OneMoreRecovered(swept: Store, s: Store, done: seq<nat>, n: nat)
    requires PartRecovered(swept, s, done) && n in swept.entries && n !in done
    ensures PartRecovered(swept, EntryRecovered(s, n), done + [n])
  {
    var after := EntryRecovered(s, n);
    assert after.entries[n] == RecoveredEntry(swept, swept.entries[n]);
    assert forall m | m in swept.entries && m != n :: after.entries[m] == s.entries[m];
  }

  lemma AllRecovered(s: Store, after: Store, done: seq<nat>)
    requires PartRecovered(Swept(s), after, done)
    requires forall n :: n in done <==> n in s.entries && s.entries[n].state.Running?
    ensures after == RecoveredStore(s)
  {
    assert after.entries == RecoveredStore(s).entries;
  }

  class Recovery {
    var store: Store

    constructor (store: Store)
      ensures this.store == store
    {
      this.store := store;
    }

    method RecoverQueue()
      requires forall n | n in store.entries :: n < store.nextEntry
      modifies this
      ensures store == RecoveredStore(old(store))
    {
      store := Swept(store);
      ghost var swept := store;
      var running := RunningFrom(store, 0);
      forall n ensures n in running <==> n in swept.entries && swept.entries[n].state.Running? {
        RunningFromHas(swept, 0, n);
      }
      RunningFromRises(swept, 0);
      for i := 0 to |running|
        invariant PartRecovered(swept, store, running[..i])
      {
        assert running[i] in running && running[i] !in running[..i];
        assert running[..i + 1] == running[..i] + [running[i]];
        OneMoreRecovered(swept, store, running[..i], running[i]);
        store := EntryRecovered(store, running[i]);
      }
      assert running[..|running|] == running;
      AllRecovered(old(store), store, running);
    }
  }

  // --- what recovery leaves -------------------------------------------------------------------

  /**
   No entry is left running. An entry that was is queued again exactly when its execution was never
   recorded, and otherwise in the state that execution shows; every other entry stands as it was.
   */
  lemma RecoveryIsExact(s: Store, n: nat)
    requires n in s.entries
    ensures
      var before, after := s.entries[n], RecoveredStore(s).entries;
      && after.Keys == s.entries.Keys
      && !after[n].state.Running?
      && (!before.state.Running? ==> after[n] == before)
      && (before.state.Running? ==>
            && (after[n].state.Queued? <==> before.execution.None? || before.execution.value !in s.executions)
            && (after[n].state.Queued? ==> after[n].execution.None?)
            && (!after[n].state.Queued? ==>
                  && after[n].execution == before.execution
                  && after[n].state == ShownBy(Swept(s).executions[before.execution.value].status)
                  && (after[n].state.Failed? <==> s.executions[before.execution.value].status.JobFailed?)
                  && (after[n].state.Interrupted? <==>
                        s.executions[before.execution.value].status in {JobInterrupted, JobRunning})
                  && (after[n].state.Succeeded? <==> s.executions[before.execution.value].status.JobSucceeded?)
                  && (after[n].state.Parked? <==> s.executions[before.execution.value].status.JobParked?)))
  {
  }

  /** A second recovery changes nothing. */
  lemma RecoveringTwiceIsOnce(s: Store)
    ensures RecoveredStore(RecoveredStore(s)) == RecoveredStore(s)
  {
    var once := RecoveredStore(s);
    forall x | x in once.executions ensures SweptExecution(once.executions[x]) == once.executions[x] {
      assert once.executions[x] == SweptExecution(s.executions[x]);
    }
    assert Swept(once) == once;
    forall n | n in once.entries ensures !once.entries[n].state.Running? {
      RecoveryIsExact(s, n);
    }
    assert RecoveredStore(once).entries == once.entries;
  }

  /** A crash between any two of recovery's own transactions is recovered to the same store. */
  lemma RecoveryMayCrash(s: Store, n: nat)
    requires n in s.entries && s.entries[n].state.Running?
    ensures RecoveredStore(Swept(s)) == RecoveredStore(s)
    ensures RecoveredStore(EntryRecovered(Swept(s), n)) == RecoveredStore(s)
  {
    var swept := Swept(s);
    forall x | x in swept.executions ensures SweptExecution(swept.executions[x]) == swept.executions[x] {
      assert swept.executions[x] == SweptExecution(s.executions[x]);
    }
    assert Swept(swept) == swept;
    assert RecoveredStore(swept) == RecoveredStore(s);
    var part := EntryRecovered(swept, n);
    assert Swept(part) == part.(executions := swept.executions);
    assert RecoveredStore(part).entries == RecoveredStore(swept).entries;
  }
}
