/**
 Deleting executions from the history: which ones a queued or running entry still uses, which
 resumes a deletion ends, and the deletion itself, checked and done in one step.
 */
module HistoryDelete {
  import opened Options
  import opened QueueStore
  import opened ResumeChain

  predicate NumbersBelow(s: Store) {
    forall n | n in s.entries :: n < s.nextEntry
  }

  /** Entry `n` is queued or running with execution `x`, resumes from it, or reads it on its chain. */
  predicate UsedBy(s: Store, n: nat, x: nat)
    requires OlderLinks(s) && n in s.entries
  {
    && s.entries[n].state.Active()
    && (|| s.entries[n].execution == Some(x)
        || s.entries[n].resumesExecution == Some(x)
        || x in WalkOf(s, n, Deletion).Reads())
  }

  predicate InUse(s: Store, x: nat)
    requires OlderLinks(s)
  {
    exists n | n in s.entries :: UsedBy(s, n, x)
  }

  predicate Deletable(s: Store, x: nat)
    requires OlderLinks(s)
  {
    x in s.executions && !s.executions[x].status.JobRunning? && !InUse(s, x)
  }

  function DeletedOf(s: Store, numbers: seq<nat>): set<nat>
    requires OlderLinks(s)
  {
    set x | x in numbers && Deletable(s, x)
  }

  predicate EndedBy(s: Store, numbers: set<nat>, x: nat, n: nat)
    requires OlderLinks(s)
  {
    && x in numbers
    && n in s.entries
    && CountedResumable(s, n)
    && x in WalkOf(s, n, Deletion).Reads()
  }

  datatype DeleteReport = DeleteReport(
    deleted: seq<nat>,
    refused: set<nat>,
    missing: set<nat>,
    ended: map<nat, seq<nat>>)

  function ReadNumbers(readings: seq<Reading>): seq<nat> {
    if readings == [] then []
    else
      (if readings[0].execution.Some? then [readings[0].execution.value] else []) + ReadNumbers(readings[1..])
  }

  lemma {:induction false} ReadNumbersAreReads(readings: seq<Reading>, broken: bool, x: nat)
    ensures x in ReadNumbers(readings) <==> x in Walk(readings, broken).Reads()
  {
    if readings == [] {
    } else {
      var rest := Walk(readings[1..], broken);
      assert readings == [readings[0]] + readings[1..];
      ReadsOfStep(readings[0], rest, Walk(readings, broken));
      ReadNumbersAreReads(readings[1..], broken, x);
    }
  }

  function Numbers(x: Option<nat>): seq<nat> {
    if x.Some? then [x.value] else []
  }

  /** Each of `numbers` not yet named is named by `n`. */
  method NoteAll(used: map<nat, nat>, numbers: seq<nat>, n: nat) returns (noted: map<nat, nat>)
    ensures forall x :: x in noted <==> x in used || x in numbers
    ensures forall x | x in noted :: noted[x] == if x in used then used[x] else n
  {
    noted := used;
    for i := 0 to |numbers|
      invariant forall x :: x in noted <==> x in used || x in numbers[..i]
      invariant forall x | x in noted :: noted[x] == if x in used then used[x] else n
    {
      assert numbers[..i + 1] == numbers[..i] + [numbers[i]];
      if numbers[i] !in noted {
        noted := noted[numbers[i] := n];
      }
    }
    assert numbers[..|numbers|] == numbers;
  }

  /** Each execution in use, with the oldest entry that uses it: the one the refusal names. */
  method InUseMap(s: Store) returns (used: map<nat, nat>)
    requires OlderLinks(s) && NumbersBelow(s)
    ensures forall x :: x in used <==> InUse(s, x)
    ensures forall x | x in used :: used[x] in s.entries && UsedBy(s, used[x], x)
    ensures forall x, n | x in used && n in s.entries && UsedBy(s, n, x) :: used[x] <= n
  {
    used := map[];
    for n := 0 to s.nextEntry
      invariant forall x | x in used :: used[x] < n && used[x] in s.entries && UsedBy(s, used[x], x)
      invariant forall x, m | m in s.entries && m < n && UsedBy(s, m, x) :: x in used && used[x] <= m
    {
      if n in s.entries && s.entries[n].state.Active() {
        used := NoteEntry(s, n, used);
      }
    }
  }

  method NoteEntry(s: Store, n: nat, used: map<nat, nat>) returns (noted: map<nat, nat>)
    requires OlderLinks(s) && n in s.entries && s.entries[n].state.Active()
    ensures forall x :: x in noted <==> x in used || UsedBy(s, n, x)
    ensures forall x | x in noted :: noted[x] == if x in used then used[x] else n
  {
    var walk := WalkChain(s, n, Deletion);
    forall x ensures x in ReadNumbers(walk.readings) <==> x in walk.Reads() {
      ReadNumbersAreReads(walk.readings, walk.broken, x);
    }
    noted := NoteAll(used, Numbers(s.entries[n].execution), n);
    noted := NoteAll(noted, Numbers(s.entries[n].resumesExecution), n);
    noted := NoteAll(noted, ReadNumbers(walk.readings), n);
  }

  function Listed(m: map<nat, seq<nat>>, x: nat, n: nat): map<nat, seq<nat>> {
    m[x := (if x in m then m[x] else []) + [n]]
  }

  /** For each number, the entries that deleting it would leave unresumable. */
  method EndedMap(s: Store, numbers: set<nat>) returns (ended: map<nat, seq<nat>>)
    requires OlderLinks(s) && NumbersBelow(s)
    ensures forall x: nat, n: nat :: x in ended && n in ended[x] <==> EndedBy(s, numbers, x, n)
  {
    ended := map[];
    for n := 0 to s.nextEntry
      invariant forall x: nat, m: nat :: x in ended && m in ended[x] <==> m < n && EndedBy(s, numbers, x, m)
    {
      if n in s.entries && CountedResumable(s, n) {
        ghost var before := ended;
        var walk := WalkChain(s, n, Deletion);
        for i := 0 to |walk.readings|
          invariant forall x: nat, m: nat | m != n :: x in ended && m in ended[x] <==> x in before && m in before[x]
          invariant forall x :: x in ended && n in ended[x] <==>
              x in numbers && exists j | 0 <= j < i :: walk.readings[j].execution == Some(x)
        {
          var execution := walk.readings[i].execution;
          if execution.Some? && execution.value in numbers {
            ended := Listed(ended, execution.value, n);
          }
        }
        assert forall x :: x in walk.Reads() <==>
            exists j | 0 <= j < |walk.readings| :: walk.readings[j].execution == Some(x);
      }
    }
  }

  class History {
    var store: Store

    constructor (store: Store)
      ensures this.store == store
    {
      this.store := store;
    }

    /** Deletes what may be deleted of `numbers`; a dry run reports the same and deletes nothing. */
    method DeleteExecutions(numbers: seq<nat>, dryRun: bool) returns (report: DeleteReport)
      requires OlderLinks(store) && NumbersBelow(store)
      modifies this
      ensures store == if dryRun then old(store) else Without(old(store), DeletedOf(old(store), numbers))
      ensures forall x :: x in report.deleted <==> x in DeletedOf(old(store), numbers)
      ensures forall i, j | 0 <= i < j < |report.deleted| :: report.deleted[i] != report.deleted[j]
      ensures forall x :: x in report.missing <==> x in numbers && x !in old(store).executions
      ensures forall x :: x in report.refused <==>
                  x in numbers && x in old(store).executions && !Deletable(old(store), x)
      ensures forall x: nat, n: nat :: x in report.ended && n in report.ended[x] <==>
                  EndedBy(old(store), DeletedOf(old(store), numbers), x, n)
    {
      var used := InUseMap(store);
      var deleted: seq<nat>, refused: set<nat>, missing: set<nat> := [], {}, {};
      for i := 0 to |numbers|
        invariant forall x :: x in deleted <==> x in numbers[..i] && Deletable(store, x)
        invariant forall a, b | 0 <= a < b < |deleted| :: deleted[a] != deleted[b]
        invariant forall x :: x in missing <==> x in numbers[..i] && x !in store.executions
        invariant forall x :: x in refused <==> x in numbers[..i] && x in store.executions && !Deletable(store, x)
      {
        var x := numbers[i];
        assert numbers[..i + 1] == numbers[..i] + [x];
        if x !in deleted {
          if x !in store.executions {
            missing := missing + {x};
          } else if store.executions[x].status.JobRunning? || x in used {
            refused := refused + {x};
          } else {
            deleted := deleted + [x];
          }
        }
      }
      assert numbers[..|numbers|] == numbers;
      var gone := set x | x in deleted;
      assert gone == DeletedOf(store, numbers);
      var ended := EndedMap(store, gone);
      report := DeleteReport(deleted, refused, missing, ended);
      if !dryRun {
        store := Without(store, gone);
      }
    }
  }

  // --- what a deletion leaves -----------------------------------------------------------------

  /**
   Every queued or running entry walks its chain after an accepted deletion exactly as before,
   whoever walks, with the same succeeded runs on it, and keeps the execution it resumes from.
   */
  lemma ActiveChainsSurvive(s: Store, numbers: seq<nat>, n: nat, walker: Walker)
    requires OlderLinks(s) && n in s.entries && s.entries[n].state.Active()
    ensures
      var after := Without(s, DeletedOf(s, numbers));
      && OlderLinks(after)
      && WalkOf(after, n, walker) == WalkOf(s, n, walker)
      && (forall x | x in WalkOf(s, n, walker).Reads() :: Made(after, x) == Made(s, x))
      && Resolve(after, n) == Resolve(s, n)
      && (forall x | s.entries[n].resumesExecution == Some(x) && x in s.executions :: x in after.executions)
  {
    var deleted := DeletedOf(s, numbers);
    forall x | x in deleted ensures !UsedBy(s, n, x) {
      assert !InUse(s, x);
    }
    ResumeReadsNoMore(s, n);
    UnreadDeletionChangesNothing(s, deleted, n, Resume);
    UnreadDeletionChangesNothing(s, deleted, n, walker);
    var walk := WalkOf(s, n, Resume);
    if !walk.broken && walk.readings[|walk.readings| - 1].execution.Some? {
      assert walk.readings[|walk.readings| - 1].execution.value in walk.Reads();
    }
  }

  /** The entries a deletion lists are exactly those a resume accepted before and refuses after. */
  lemma EndedIsExact(s: Store, numbers: seq<nat>, n: nat)
    requires OlderLinks(s) && ResumedAreFinished(s) && n in s.entries
    ensures
      var deleted := DeletedOf(s, numbers);
      && OlderLinks(Without(s, deleted))
      && ((exists x :: EndedBy(s, deleted, x, n)) <==>
            CanResume(s, n) && !CanResume(Without(s, deleted), n))
  {
    var deleted := DeletedOf(s, numbers);
    CountAgreesWithResume(s, n);
    if CanResume(s, n) {
      DeletionEndsExactlyWhatItReads(s, deleted, n);
      var readNow := WalkOf(s, n, Deletion).Reads();
      if !(readNow !! deleted) {
        var x :| x in readNow && x in deleted;
        assert EndedBy(s, deleted, x, n);
      }
    }
  }

  /** No deletion makes an entry resumable that was not. */
  lemma DeletionMakesNothingResumable(s: Store, numbers: set<nat>, n: nat)
    requires OlderLinks(s) && ResumedAreFinished(s)
    requires OlderLinks(Without(s, numbers)) && CanResume(Without(s, numbers), n)
    ensures CanResume(s, n)
  {
    assert IsResumed(Without(s, numbers), n) == IsResumed(s, n);
    if !(WalkOf(s, n, Resume).Reads() !! numbers) {
      ReadDeletionBreaks(s, numbers, n);
    } else {
      UnreadDeletionChangesNothing(s, numbers, n, Resume);
      var walk := WalkOf(s, n, Resume);
      if !walk.broken && walk.readings[|walk.readings| - 1].execution.Some? {
        assert walk.readings[|walk.readings| - 1].execution.value in walk.Reads();
      }
    }
  }

  /**
   An execution can be deleted exactly when it is there, has ended, and no waiting or running entry is bound to it.
   */
  lemma DeletableExactlyWhen(s: Store, x: nat)
    requires OlderLinks(s)
    ensures Deletable(s, x) <==>
            && x in s.executions && s.executions[x].status != JobRunning
            && forall n | n in s.entries && s.entries[n].state in {Queued, Running} ::
                 && s.entries[n].execution != Some(x)
                 && s.entries[n].resumesExecution != Some(x)
                 && x !in WalkOf(s, n, Deletion).Reads()
  {
    if InUse(s, x) {
      var n :| n in s.entries && UsedBy(s, n, x);
      assert s.entries[n].state in {Queued, Running};
    }
  }

  /** With nothing waiting or running, every ended execution asked for is deleted. */
  lemma AnIdleQueueKeepsNothing(s: Store, numbers: seq<nat>)
    requires OlderLinks(s) && forall n | n in s.entries :: s.entries[n].state !in {Queued, Running}
    ensures DeletedOf(s, numbers) == set x | x in numbers && x in s.executions && s.executions[x].status != JobRunning
  {
    forall x ensures Deletable(s, x) <==> x in s.executions && s.executions[x].status != JobRunning {
      DeletableExactlyWhen(s, x);
    }
  }
}
