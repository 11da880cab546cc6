/**
 The walk back along an entry's resumes to the last succeeded run of its chain, and the two pieces
 of code that read it: a resume, which refuses where the chain is gone, and a deletion, which asks
 what the chain reads.
 */
module ResumeChain {
  import opened Options
  import opened QueueStore

  /** A resume names an entry submitted before it. */
  predicate OlderLinks(s: Store) {
    forall n | n in s.entries && s.entries[n].resumes.Some? :: s.entries[n].resumes.value < n
  }

  /** Only a finished entry is ever resumed. */
  predicate ResumedAreFinished(s: Store) {
    forall n | n in s.entries && s.entries[n].resumes.Some? && s.entries[n].resumes.value in s.entries ::
      !s.entries[s.entries[n].resumes.value].state.Active()
  }

  // --- the walk -------------------------------------------------------------------------------

  datatype Link = Gone | NoExecution | Linked(execution: nat)

  /** Who walks: a resume refuses any link whose execution is gone; a deletion reads an active entry's as not begun. */
  datatype Walker = Resume | Deletion

  function LinkOf(s: Store, n: nat, walker: Walker): Link
    requires n in s.entries
  {
    match s.entries[n].execution
    case None => NoExecution
    case Some(x) =>
      if x in s.executions then Linked(x)
      else if walker.Deletion? && s.entries[n].state.Active() then NoExecution
      else Gone
  }

  function Made(s: Store, x: nat): Option<nat> {
    if x in s.executions then LastSucceeded(s.executions[x].runs) else None
  }

  /** One step of a walk: the entry, and its execution when it has one. */
  datatype Reading = Reading(entry: nat, execution: Option<nat>)

  datatype Walk = Walk(readings: seq<Reading>, broken: bool)
  {
    /** The executions read, newest entry first. */
    function Reads(): set<nat> {
      set i | 0 <= i < |readings| && readings[i].execution.Some? :: readings[i].execution.value
    }
  }

  predicate Stops(s: Store, n: nat, link: Link)
    requires n in s.entries
  {
    (link.Linked? && Made(s, link.execution).Some?) || s.entries[n].resumes.None?
  }

  function ReadingOf(n: nat, link: Link): Reading {
    Reading(n, if link.Linked? then Some(link.execution) else None)
  }

  function WalkOf(s: Store, n: nat, walker: Walker): (w: Walk)
    requires OlderLinks(s) && n in s.entries
    ensures !w.broken ==> w.readings != []
    decreases n
  {
    var link := LinkOf(s, n, walker);
    if link.Gone? then Walk([], true)
    else if Stops(s, n, link) then Walk([ReadingOf(n, link)], false)
    else if s.entries[n].resumes.value !in s.entries then Walk([ReadingOf(n, link)], true)
    else
      var rest := WalkOf(s, s.entries[n].resumes.value, walker);
      Walk([ReadingOf(n, link)] + rest.readings, rest.broken)
  }

  /** The walk as the loop that makes it. */
  method WalkChain(s: Store, entry: nat, walker: Walker) returns (walk: Walk)
    requires OlderLinks(s) && entry in s.entries
    ensures walk == WalkOf(s, entry, walker)
  {
    var current := entry;
    var readings: seq<Reading> := [];
    while true
      invariant current in s.entries
      invariant WalkOf(s, entry, walker).readings == readings + WalkOf(s, current, walker).readings
      invariant WalkOf(s, entry, walker).broken == WalkOf(s, current, walker).broken
      decreases current
    {
      var link := LinkOf(s, current, walker);
      if link.Gone? {
        return Walk(readings, true);
      }
      readings := readings + [ReadingOf(current, link)];
      if Stops(s, current, link) {
        return Walk(readings, false);
      }
      if s.entries[current].resumes.value !in s.entries {
        return Walk(readings, true);
      }
      current := s.entries[current].resumes.value;
    }
  }

  // --- a resume -------------------------------------------------------------------------------

  datatype Refusal = ChainGone | NoSucceededRun | AlreadyFinished

  datatype Resolution = ResumeAt(firstRun: nat, execution: nat) | Refused(why: Refusal)

  predicate AllRunsMade(s: Store, x: nat, last: nat) {
    x in s.executions && s.executions[x].total.Some? && last >= s.executions[x].total.value
  }

  function Resolve(s: Store, n: nat): Resolution
    requires OlderLinks(s) && n in s.entries
  {
    var walk := WalkOf(s, n, Resume);
    if walk.broken then Refused(ChainGone)
    else
      var end := walk.readings[|walk.readings| - 1].execution;
      if end.None? || Made(s, end.value).None? then Refused(NoSucceededRun)
      else if AllRunsMade(s, end.value, Made(s, end.value).value) then Refused(AlreadyFinished)
      else ResumeAt(Made(s, end.value).value + 1, end.value)
  }

  predicate IsResumed(s: Store, n: nat) {
    exists m | m in s.entries :: s.entries[m].resumes == Some(n)
  }

  /** A resume of `n` is accepted now, the caller and the files it needs aside. */
  predicate CanResume(s: Store, n: nat)
    requires OlderLinks(s)
  {
    && n in s.entries
    && s.entries[n].state.Resumable()
    && !IsResumed(s, n)
    && Resolve(s, n).ResumeAt?
  }

  // --- what a deletion asks -------------------------------------------------------------------

  /** The execution the deletion's walk ended at: the last one it read. */
  function PointOf(readings: seq<Reading>): Option<nat> {
    if readings == [] then None
    else
      var later := PointOf(readings[1..]);
      if later.Some? then later else readings[0].execution
  }

  /** Whether a deletion counts `n` as an entry a resume would accept now. */
  predicate CountedResumable(s: Store, n: nat)
    requires OlderLinks(s) && n in s.entries
  {
    var walk := WalkOf(s, n, Deletion);
    var point := PointOf(walk.readings);
    && s.entries[n].state.Resumable()
    && !IsResumed(s, n)
    && !walk.broken
    && point.Some?
    && Made(s, point.value).Some?
    && !AllRunsMade(s, point.value, Made(s, point.value).value)
  }

  // --- the two agree --------------------------------------------------------------------------

  /** Both walkers read a finished entry's chain alike. */
  lemma {:induction false} WalkersAgree(s: Store, n: nat)
    requires OlderLinks(s) && ResumedAreFinished(s)
    requires n in s.entries && !s.entries[n].state.Active()
    ensures WalkOf(s, n, Resume) == WalkOf(s, n, Deletion)
    decreases n
  {
    var link := LinkOf(s, n, Resume);
    assert LinkOf(s, n, Deletion) == link;
    if !link.Gone? && !Stops(s, n, link) && s.entries[n].resumes.value in s.entries {
      WalkersAgree(s, s.entries[n].resumes.value);
    }
  }

  /** A resume reads nothing of any entry's chain that a deletion does not. */
  lemma {:induction false} ResumeReadsNoMore(s: Store, n: nat)
    requires OlderLinks(s) && n in s.entries
    ensures WalkOf(s, n, Resume).Reads() <= WalkOf(s, n, Deletion).Reads()
    decreases n
  {
    var link := LinkOf(s, n, Resume);
    if !link.Gone? {
      assert LinkOf(s, n, Deletion) == link;
      if !Stops(s, n, link) && s.entries[n].resumes.value in s.entries {
        var older := s.entries[n].resumes.value;
        ResumeReadsNoMore(s, older);
        ReadsOfStep(ReadingOf(n, link), WalkOf(s, older, Resume), WalkOf(s, n, Resume));
        ReadsOfStep(ReadingOf(n, link), WalkOf(s, older, Deletion), WalkOf(s, n, Deletion));
      }
    }
  }

  lemma ReadsOfStep(reading: Reading, rest: Walk, walk: Walk)
    requires walk == Walk([reading] + rest.readings, rest.broken)
    ensures walk.Reads() == (if reading.execution.Some? then {reading.execution.value} else {}) + rest.Reads()
  {
    forall x | x in rest.Reads() ensures x in walk.Reads() {
      var i :| 0 <= i < |rest.readings| && rest.readings[i].execution == Some(x);
      assert walk.readings[i + 1].execution == Some(x);
    }
    if reading.execution.Some? {
      assert walk.readings[0].execution == reading.execution;
    }
  }

  /** A whole walk's point is its end, unless the end has no execution: then nothing at the point ever succeeded. */
  lemma {:induction false} PointIsEnd(s: Store, n: nat, walker: Walker)
    requires OlderLinks(s) && n in s.entries && !WalkOf(s, n, walker).broken
    ensures
      var readings := WalkOf(s, n, walker).readings;
      var end := readings[|readings| - 1].execution;
      && (end.Some? ==> PointOf(readings) == end)
      && (end.None? && PointOf(readings).Some? ==> Made(s, PointOf(readings).value).None?)
    decreases n
  {
    var link := LinkOf(s, n, walker);
    var readings := WalkOf(s, n, walker).readings;
    if Stops(s, n, link) {
      assert readings[1..] == [];
    } else {
      PointIsEnd(s, s.entries[n].resumes.value, walker);
      assert readings[1..] == WalkOf(s, s.entries[n].resumes.value, walker).readings;
    }
  }

  /** The deletion's count and the resume's own checks accept the same entries, and end at the same execution. */
  lemma CountAgreesWithResume(s: Store, n: nat)
    requires OlderLinks(s) && ResumedAreFinished(s) && n in s.entries
    ensures CountedResumable(s, n) <==> CanResume(s, n)
    ensures CountedResumable(s, n) ==>
              PointOf(WalkOf(s, n, Deletion).readings) == Some(Resolve(s, n).execution)
  {
    if s.entries[n].state.Resumable() {
      WalkersAgree(s, n);
      if !WalkOf(s, n, Deletion).broken {
        PointIsEnd(s, n, Deletion);
      }
    }
  }

  // --- deleting executions --------------------------------------------------------------------

  /** A walk that reads nothing of what was deleted is the same after it. */
  lemma {:induction false} UnreadDeletionChangesNothing(s: Store, numbers: set<nat>, n: nat, walker: Walker)
    requires OlderLinks(s) && n in s.entries
    requires WalkOf(s, n, walker).Reads() !! numbers
    ensures WalkOf(Without(s, numbers), n, walker) == WalkOf(s, n, walker)
    ensures forall x | x in WalkOf(s, n, walker).Reads() :: Made(Without(s, numbers), x) == Made(s, x)
    decreases n
  {
    var after := Without(s, numbers);
    var link := LinkOf(s, n, walker);
    var walk := WalkOf(s, n, walker);
    if link.Linked? {
      assert walk.readings[0].execution == Some(link.execution);
      assert link.execution in walk.Reads();
    }
    assert LinkOf(after, n, walker) == link;
    if !link.Gone? && !Stops(s, n, link) && s.entries[n].resumes.value in s.entries {
      var older := s.entries[n].resumes.value;
      ReadsOfStep(ReadingOf(n, link), WalkOf(s, older, walker), walk);
      UnreadDeletionChangesNothing(s, numbers, older, walker);
    }
  }

  /** A resume's walk that read something now deleted is broken. */
  lemma {:induction false} ReadDeletionBreaks(s: Store, numbers: set<nat>, n: nat)
    requires OlderLinks(s) && n in s.entries
    requires !(WalkOf(s, n, Resume).Reads() !! numbers)
    ensures WalkOf(Without(s, numbers), n, Resume).broken
    decreases n
  {
    var after := Without(s, numbers);
    var link := LinkOf(s, n, Resume);
    if link.Linked? && link.execution in numbers {
      assert LinkOf(after, n, Resume).Gone?;
    } else if !link.Gone? && !Stops(s, n, link) && s.entries[n].resumes.value in s.entries {
      assert LinkOf(after, n, Resume) == link;
      var older := s.entries[n].resumes.value;
      ReadsOfStep(ReadingOf(n, link), WalkOf(s, older, Resume), WalkOf(s, n, Resume));
      ReadDeletionBreaks(s, numbers, older);
    } else {
      assert false;
    }
  }

  /** For an entry that could be resumed, a deletion ends that exactly when its chain reads what was deleted. */
  lemma DeletionEndsExactlyWhatItReads(s: Store, numbers: set<nat>, n: nat)
    requires OlderLinks(s) && ResumedAreFinished(s)
    requires CanResume(s, n)
    ensures OlderLinks(Without(s, numbers))
    ensures CanResume(Without(s, numbers), n) <==> WalkOf(s, n, Deletion).Reads() !! numbers
  {
    WalkersAgree(s, n);
    var after := Without(s, numbers);
    assert IsResumed(after, n) == IsResumed(s, n);
    var walk := WalkOf(s, n, Resume);
    if walk.Reads() !! numbers {
      UnreadDeletionChangesNothing(s, numbers, n, Resume);
      var end := |walk.readings| - 1;
      assert walk.readings[end].execution.value in walk.Reads();
    } else {
      ReadDeletionBreaks(s, numbers, n);
    }
  }
}
