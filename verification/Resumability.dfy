/**
 Which entries can be resumed, told of their states, the runs their chains made and the rows still there; and so that
 a parked job can always go on until something of its chain is deleted.
 */
module Resumability {
  import opened Options
  import opened QueueStore
  import opened ResumeChain
  import opened HistoryDelete
  import opened ChainHistory
  import opened QueueMachine
  import opened QueueInvariant
  import opened QueueTheorems

  /** The execution of `n`, and of each entry it goes back to until one that made a run, is there if it ever was. */
  predicate KeptToItsLastRun(s: Store, ledger: Ledger, n: nat)
    requires OlderLinks(s) && n in s.entries
    decreases n
  {
    && (s.entries[n].execution.Some? ==> s.entries[n].execution.value in s.executions)
    && (RunsOf(ledger, n) == [] && s.entries[n].resumes.Some? && s.entries[n].resumes.value in s.entries ==>
          KeptToItsLastRun(s, ledger, s.entries[n].resumes.value))
  }

  lemma {:induction false} WholeWalksAreKept(s: Store, ledger: Ledger, n: nat)
    requires ChainsOk(s, ledger) && n in s.entries
    ensures !WalkOf(s, n, Resume).broken <==> KeptToItsLastRun(s, ledger, n)
    decreases n
  {
    assert EntryOk(s, ledger, n) && LinkOk(s, ledger, n);
    var link := LinkOf(s, n, Resume);
    if link.Linked? {
      RecordedRunsAreTheLedgers(s, ledger, n);
    }
    if s.entries[n].resumes.Some? {
      WholeWalksAreKept(s, ledger, s.entries[n].resumes.value);
    }
  }

  /**
   In every reachable world a resume of an entry is accepted exactly when it has finished in any state but succeeded, no
   entry resumes it, what its chain goes back on is still there, and its chain made a run and has one left.
   */
  lemma ResumableExactlyWhen(w: World, n: nat)
    requires Reachable(w) && n in w.Store().entries
    ensures OlderLinks(w.Store())
    ensures
      var s, e, made := w.Store(), w.Store().entries[n], |ChainRuns(w.Store(), w.ledger, n)|;
      CanResume(s, n) <==>
        && e.state !in {Queued, Running, Succeeded}
        && (forall m | m in s.entries :: s.entries[m].resumes != Some(n))
        && KeptToItsLastRun(s, w.ledger, n)
        && 0 < made < e.total
  {
    ReachableIsSound(w);
    ResumesContinueTheChain(w, n);
    WholeWalksAreKept(w.Store(), w.ledger, n);
  }

  /** So a parked entry with nothing of its chain gone, and not resumed, goes on at the run after its last. */
  lemma AParkedJobCanGoOn(w: World, n: nat)
    requires Reachable(w) && n in w.Store().entries && w.Store().entries[n].state.Parked?
    requires forall m | m in w.Store().entries :: w.Store().entries[m].resumes != Some(n)
    requires OlderLinks(w.Store()) && Intact(w.Store(), n)
    ensures CanResume(w.Store(), n)
    ensures Resolve(w.Store(), n).ResumeAt?
         && Resolve(w.Store(), n).firstRun == |ChainRuns(w.Store(), w.ledger, n)| + 1
  {
    ReachableIsSound(w);
    ChainsAreWhole(w, n, n);
    IntactWalks(w.Store(), w.ledger, n);
    WholeWalksAreKept(w.Store(), w.ledger, n);
    ResumableExactlyWhen(w, n);
    ResumesContinueTheChain(w, n);
  }

  /** And a deletion of any execution its chain reads is told to end it. */
  lemma ADeletionTellsOfAParkedJob(w: World, n: nat, numbers: set<nat>, x: nat)
    requires Reachable(w) && n in w.Store().entries && w.Store().entries[n].state.Parked?
    requires forall m | m in w.Store().entries :: w.Store().entries[m].resumes != Some(n)
    requires OlderLinks(w.Store()) && Intact(w.Store(), n)
    requires x in numbers && x in WalkOf(w.Store(), n, Deletion).Reads()
    ensures EndedBy(w.Store(), numbers, x, n)
  {
    AParkedJobCanGoOn(w, n);
    ReachableIsSound(w);
    ResumedHaveFinished(w.Store(), w.ledger);
    CountAgreesWithResume(w.Store(), n);
  }

  /** What a chain reads for itself: an execution that made a run of it, as `n`'s own did. */
  lemma ItsOwnExecutionIsRead(w: World, n: nat)
    requires Reachable(w) && n in w.Store().entries && RowOf(w.Store(), w.Store().entries[n]).Some?
    ensures OlderLinks(w.Store())
    ensures w.Store().entries[n].execution.value in WalkOf(w.Store(), n, Deletion).Reads()
  {
    ReachableIsSound(w);
    var s := w.Store();
    var link, walk := LinkOf(s, n, Deletion), WalkOf(s, n, Deletion);
    assert walk.readings[0] == ReadingOf(n, link);
  }
}
