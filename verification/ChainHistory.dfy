/**
 What every transaction on the store keeps about chains of resumes, whatever was deleted since: each
 entry goes on where the one it resumes stopped, so the succeeded runs of a chain, oldest entry to
 newest, number 1, 2, 3 and so on with no gap and no repeat.
 */
module ChainHistory {
  import opened Options
  import opened QueueStore
  import opened ResumeChain
  import opened HistoryDelete

  /** The numbers of every run ever recorded as succeeded for each entry, in order; a deletion does not reach it. */
  type Ledger = map<nat, seq<nat>>

  function RunsOf(ledger: Ledger, n: nat): seq<nat> {
    if n in ledger then ledger[n] else []
  }

  function Noted(ledger: Ledger, n: nat, number: nat): Ledger {
    ledger[n := RunsOf(ledger, n) + [number]]
  }

  predicate NumberedFrom(numbers: seq<nat>, first: nat) {
    forall i | 0 <= i < |numbers| :: numbers[i] == first + i
  }

  /** The run the entry's chain has to make next. */
  function NextRun(s: Store, ledger: Ledger, n: nat): nat
    requires n in s.entries
  {
    s.entries[n].firstRun + |RunsOf(ledger, n)|
  }

  // --- the invariant --------------------------------------------------------------------------

  /** The run rows of one execution: consecutive from `first`, all but perhaps the last succeeded. */
  predicate RowsOk(runs: seq<Run>, first: nat, made: nat) {
    && made <= |runs| <= made + 1
    && (forall i | 0 <= i < |runs| :: runs[i].number == first + i)
    && (forall i | 0 <= i < |runs| :: runs[i].status.RunSucceeded? <==> i < made)
  }

  /** What an end says about the runs made: `left` were there to make. */
  predicate JobEndOk(status: JobStatus, made: nat, left: int) {
    && (status.JobSucceeded? ==> made == left)
    && (status.JobParked? ==> 0 < made < left)
  }

  predicate EndOk(state: QueueState, made: nat, left: int) {
    && (state.Succeeded? ==> made == left)
    && (state.Parked? ==> 0 < made < left)
  }

  /** What a finished entry's state says of its execution's. */
  predicate StateAgrees(state: QueueState, status: JobStatus) {
    && !status.JobRunning?
    && (state.Succeeded? <==> status.JobSucceeded?)
    && (state.Parked? <==> status.JobParked?)
    && (state.Cancelled? || state.Interrupted? ==> status.JobInterrupted?)
  }

  function RowOf(s: Store, e: Entry): Option<Execution> {
    if e.execution.Some? && e.execution.value in s.executions then Some(s.executions[e.execution.value]) else None
  }

  /** An entry with its execution's row, when there is one, and the succeeded runs noted for it. */
  predicate EntryFits(e: Entry, row: Option<Execution>, numbers: seq<nat>) {
    var made, left := |numbers|, e.total + 1 - e.firstRun;
    && 1 <= e.firstRun <= e.total
    && made <= left
    && NumberedFrom(numbers, e.firstRun)
    && EndOk(e.state, made, left)
    && (e.state.Queued? ==> e.execution.None?)
    && (e.execution.None? ==> made == 0)
    && (e.state.Running? && row.None? ==> made == 0)
    && (row.Some? && !e.state.Active() ==> StateAgrees(e.state, row.value.status))
    && (row.Some? ==>
          && row.value.total == Some(e.total)
          && RowsOk(row.value.runs, e.firstRun, made)
          && JobEndOk(row.value.status, made, left))
  }

  predicate EntryOk(s: Store, ledger: Ledger, n: nat)
    requires n in s.entries
  {
    EntryFits(s.entries[n], RowOf(s, s.entries[n]), RunsOf(ledger, n))
  }

  /** A resume goes on with a finished entry's chain, at the run after its last succeeded one. */
  predicate LinkFits(e: Entry, resumed: Option<Entry>, numbers: seq<nat>) {
    if e.resumes.None? then e.firstRun == 1
    else
      && resumed.Some?
      && !resumed.value.state.Active()
      && resumed.value.total == e.total
      && e.firstRun == resumed.value.firstRun + |numbers|
  }

  function EntryAt(s: Store, n: Option<nat>): Option<Entry> {
    if n.Some? && n.value in s.entries then Some(s.entries[n.value]) else None
  }

  predicate LinkOk(s: Store, ledger: Ledger, n: nat)
    requires n in s.entries
  {
    var resumes := s.entries[n].resumes;
    LinkFits(s.entries[n], EntryAt(s, resumes), if resumes.Some? then RunsOf(ledger, resumes.value) else [])
  }

  predicate ExecutionsBelow(s: Store) {
    forall n | n in s.entries && s.entries[n].execution.Some? :: s.entries[n].execution.value < s.nextExecution
  }

  predicate ResumedOnce(s: Store) {
    forall n, m | n in s.entries && m in s.entries && n != m && s.entries[n].resumes.Some? ::
      s.entries[n].resumes != s.entries[m].resumes
  }

  predicate LinkedOnce(s: Store) {
    forall n, m | n in s.entries && m in s.entries && n != m && s.entries[n].execution.Some? ::
      s.entries[n].execution != s.entries[m].execution
  }

  predicate NumbersOk(s: Store) {
    NumbersBelow(s) && OlderLinks(s) && ExecutionsBelow(s) && ResumedOnce(s) && LinkedOnce(s)
  }

  predicate EntriesOk(s: Store, ledger: Ledger) {
    forall n {:trigger EntryOk(s, ledger, n)} | n in s.entries :: EntryOk(s, ledger, n)
  }

  predicate LinksOk(s: Store, ledger: Ledger) {
    forall n {:trigger LinkOk(s, ledger, n)} | n in s.entries :: LinkOk(s, ledger, n)
  }

  predicate ChainsOk(s: Store, ledger: Ledger) {
    && NumbersOk(s)
    && (forall n | n in ledger :: n < s.nextEntry)
    && EntriesOk(s, ledger)
    && LinksOk(s, ledger)
  }

  lemma ResumedHaveFinished(s: Store, ledger: Ledger)
    requires ChainsOk(s, ledger)
    ensures ResumedAreFinished(s)
  {
    forall n | n in s.entries && s.entries[n].resumes.Some? && s.entries[n].resumes.value in s.entries
      ensures !s.entries[s.entries[n].resumes.value].state.Active()
    {
      assert LinkOk(s, ledger, n);
    }
  }

  /** Recorded run rows hold exactly the succeeded numbers the ledger noted. */
  lemma {:induction false} RowsShowTheLedger(runs: seq<Run>, first: nat, made: nat)
    requires RowsOk(runs, first, made)
    ensures |SucceededNumbers(runs)| == made && NumberedFrom(SucceededNumbers(runs), first)
    ensures LastSucceeded(runs) == if made == 0 then None else Some(first + made - 1)
  {
    if runs != [] {
      var last := |runs| - 1;
      RowsShowTheLedger(runs[..last], first, if made > last then last else made);
    }
  }

  /** While an entry's execution is there, its succeeded run rows are exactly the runs noted for the entry. */
  lemma RecordedRunsAreTheLedgers(s: Store, ledger: Ledger, n: nat)
    requires ChainsOk(s, ledger) && n in s.entries && RowOf(s, s.entries[n]).Some?
    ensures SucceededNumbers(RowOf(s, s.entries[n]).value.runs) == RunsOf(ledger, n)
  {
    assert EntryOk(s, ledger, n);
    RowsShowTheLedger(RowOf(s, s.entries[n]).value.runs, s.entries[n].firstRun, |RunsOf(ledger, n)|);
  }

  // --- what it says about chains --------------------------------------------------------------

  /** The succeeded runs along `n`'s chain, from the oldest entry to `n` itself. */
  function ChainRuns(s: Store, ledger: Ledger, n: nat): seq<nat>
    requires OlderLinks(s) && n in s.entries
    decreases n
  {
    match s.entries[n].resumes
    case None => RunsOf(ledger, n)
    case Some(p) => (if p in s.entries then ChainRuns(s, ledger, p) else []) + RunsOf(ledger, n)
  }

  /** The succeeded runs along any chain are exactly 1 to k, in order, once each. */
  lemma {:induction false} ChainIsConsecutive(s: Store, ledger: Ledger, n: nat)
    requires ChainsOk(s, ledger) && n in s.entries
    ensures
      var runs := ChainRuns(s, ledger, n);
      && NumberedFrom(runs, 1)
      && |runs| == NextRun(s, ledger, n) - 1
      && |runs| <= s.entries[n].total
      && (s.entries[n].state.Succeeded? ==> |runs| == s.entries[n].total)
      && (s.entries[n].state.Parked? ==> 0 < |runs| < s.entries[n].total)
    decreases n
  {
    assert EntryOk(s, ledger, n) && LinkOk(s, ledger, n);
    match s.entries[n].resumes {
      case None =>
      case Some(p) => ChainIsConsecutive(s, ledger, p);
    }
  }

  /** No execution of `n`'s chain is gone. */
  predicate Intact(s: Store, n: nat)
    requires OlderLinks(s) && n in s.entries
    decreases n
  {
    && (s.entries[n].execution.Some? ==> s.entries[n].execution.value in s.executions)
    && (s.entries[n].resumes.Some? && s.entries[n].resumes.value in s.entries ==> Intact(s, s.entries[n].resumes.value))
  }

  lemma {:induction false} IntactWalks(s: Store, ledger: Ledger, n: nat)
    requires ChainsOk(s, ledger) && n in s.entries && Intact(s, n)
    ensures !WalkOf(s, n, Resume).broken
    decreases n
  {
    assert LinkOk(s, ledger, n);
    if s.entries[n].resumes.Some? {
      IntactWalks(s, ledger, s.entries[n].resumes.value);
    }
  }

  predicate EndsAtTheLast(s: Store, walk: Walk, last: nat, total: nat)
    requires walk.readings != []
  {
    var end := walk.readings[|walk.readings| - 1].execution;
    if last == 0 then end.None? || Made(s, end.value).None?
    else
      && end.Some? && end.value in s.executions
      && Made(s, end.value) == Some(last) && s.executions[end.value].total == Some(total)
  }

  lemma OwnExecutionShowsTheLast(s: Store, ledger: Ledger, n: nat)
    requires n in s.entries && EntryOk(s, ledger, n) && !LinkOf(s, n, Resume).Gone?
    ensures
      var link, made := LinkOf(s, n, Resume), |RunsOf(ledger, n)|;
      && (link.Linked? ==> s.executions[link.execution].total == Some(s.entries[n].total))
      && (link.Linked? ==> Made(s, link.execution) == if made == 0 then None else Some(NextRun(s, ledger, n) - 1))
      && (!link.Linked? ==> made == 0)
  {
    var link := LinkOf(s, n, Resume);
    if link.Linked? {
      assert RowOf(s, s.entries[n]) == Some(s.executions[link.execution]);
      RowsShowTheLedger(s.executions[link.execution].runs, s.entries[n].firstRun, |RunsOf(ledger, n)|);
    }
  }

  lemma LongerWalkEndsAlike(s: Store, reading: Reading, rest: Walk, last: nat, total: nat)
    requires rest.readings != [] && EndsAtTheLast(s, rest, last, total)
    ensures EndsAtTheLast(s, Walk([reading] + rest.readings, rest.broken), last, total)
  {
    var walk := Walk([reading] + rest.readings, rest.broken);
    assert walk.readings[|walk.readings| - 1] == rest.readings[|rest.readings| - 1];
  }

  /** A whole walk stops at `n`, or goes on as the whole walk from the entry it resumes. */
  lemma WholeWalkSteps(s: Store, n: nat)
    requires OlderLinks(s) && n in s.entries && !WalkOf(s, n, Resume).broken
    ensures
      var walk, link, resumes := WalkOf(s, n, Resume), LinkOf(s, n, Resume), s.entries[n].resumes;
      && !link.Gone?
      && (Stops(s, n, link) ==> walk == Walk([ReadingOf(n, link)], false))
      && (!Stops(s, n, link) ==>
            && resumes.Some? && resumes.value in s.entries
            && !WalkOf(s, resumes.value, Resume).broken
            && walk == Walk([ReadingOf(n, link)] + WalkOf(s, resumes.value, Resume).readings, false))
  {
  }

  lemma StoppedAtTheLast(s: Store, ledger: Ledger, n: nat)
    requires n in s.entries && EntryOk(s, ledger, n) && LinkOk(s, ledger, n)
    requires !LinkOf(s, n, Resume).Gone? && Stops(s, n, LinkOf(s, n, Resume))
    ensures EndsAtTheLast(s, Walk([ReadingOf(n, LinkOf(s, n, Resume))], false), NextRun(s, ledger, n) - 1,
                          s.entries[n].total)
  {
    OwnExecutionShowsTheLast(s, ledger, n);
  }

  lemma PassedByMadeNone(s: Store, ledger: Ledger, n: nat)
    requires n in s.entries && EntryOk(s, ledger, n) && LinkOk(s, ledger, n)
    requires !LinkOf(s, n, Resume).Gone? && !Stops(s, n, LinkOf(s, n, Resume))
    ensures
      var resumes := s.entries[n].resumes;
      && resumes.Some? && resumes.value in s.entries
      && NextRun(s, ledger, n) == NextRun(s, ledger, resumes.value)
      && s.entries[n].total == s.entries[resumes.value].total
  {
    OwnExecutionShowsTheLast(s, ledger, n);
  }

  /** A whole walk ends at the chain's last succeeded run, or finds that there is none. */
  lemma {:induction false} WalkEndsAtTheLast(s: Store, ledger: Ledger, n: nat)
    requires OlderLinks(s) && EntriesOk(s, ledger) && LinksOk(s, ledger)
    requires n in s.entries && !WalkOf(s, n, Resume).broken
    ensures NextRun(s, ledger, n) >= 1
    ensures EndsAtTheLast(s, WalkOf(s, n, Resume), NextRun(s, ledger, n) - 1, s.entries[n].total)
    decreases n
  {
    assert EntryOk(s, ledger, n) && LinkOk(s, ledger, n);
    WholeWalkSteps(s, n);
    if Stops(s, n, LinkOf(s, n, Resume)) {
      StoppedAtTheLast(s, ledger, n);
    } else {
      var p := s.entries[n].resumes.value;
      PassedByMadeNone(s, ledger, n);
      WalkEndsAtTheLast(s, ledger, p);
      LongerWalkEndsAlike(s, ReadingOf(n, LinkOf(s, n, Resume)), WalkOf(s, p, Resume), NextRun(s, ledger, p) - 1,
                          s.entries[p].total);
    }
  }

  lemma ResolvedFromTheEnd(s: Store, n: nat, last: nat, total: nat)
    requires OlderLinks(s) && n in s.entries && !WalkOf(s, n, Resume).broken
    requires EndsAtTheLast(s, WalkOf(s, n, Resume), last, total)
    ensures
      match Resolve(s, n)
      case ResumeAt(first, _) => first == last + 1 && 0 < last < total
      case Refused(why) => if last == 0 then why.NoSucceededRun? else why.AlreadyFinished? && last >= total
  {
  }

  /**
   A resume starts at the run after the chain's last succeeded one, and is refused exactly when there is
   none, when none is left, or when its walk comes to something gone, which no whole chain has.
   */
  lemma ResolveIsTheNextRun(s: Store, ledger: Ledger, n: nat)
    requires ChainsOk(s, ledger) && n in s.entries
    ensures
      match Resolve(s, n)
      case ResumeAt(first, x) => first == NextRun(s, ledger, n) && 1 < first <= s.entries[n].total
      case Refused(NoSucceededRun) => NextRun(s, ledger, n) == 1
      case Refused(AlreadyFinished) => NextRun(s, ledger, n) == s.entries[n].total + 1
      case Refused(ChainGone) => !Intact(s, n)
  {
    assert EntryOk(s, ledger, n);
    var walk, last := WalkOf(s, n, Resume), NextRun(s, ledger, n) - 1;
    if walk.broken {
      assert Resolve(s, n) == Refused(ChainGone);
      if Intact(s, n) {
        IntactWalks(s, ledger, n);
      }
    } else {
      WalkEndsAtTheLast(s, ledger, n);
      ResolvedFromTheEnd(s, n, last, s.entries[n].total);
    }
  }

  // --- what keeps it: submissions and resumes ---------------------------------------------------

  /** A plain submission of a job of `total` runs, or a resume of a finished entry not resumed before. */
  predicate Submittable(s: Store, ledger: Ledger, e: Entry) {
    && e.state.Queued? && e.execution.None? && 1 <= e.firstRun <= e.total
    && match e.resumes
       case None => e.firstRun == 1
       case Some(p) =>
         && p in s.entries
         && !s.entries[p].state.Active()
         && s.entries[p].total == e.total
         && e.firstRun == NextRun(s, ledger, p)
         && !IsResumed(s, p)
  }

  lemma SubmittedNumbersOk(s: Store, e: Entry)
    requires NumbersOk(s) && e.execution.None?
    requires e.resumes.Some? ==> e.resumes.value in s.entries && !IsResumed(s, e.resumes.value)
    ensures NumbersOk(Submitted(s, e))
  {
  }

  lemma SubmittedEntriesOk(s: Store, ledger: Ledger, e: Entry)
    requires ChainsOk(s, ledger) && Submittable(s, ledger, e)
    ensures EntriesOk(Submitted(s, e), ledger)
  {
    var after := Submitted(s, e);
    forall n | n in after.entries ensures EntryOk(after, ledger, n) {
      if n != s.nextEntry {
        assert EntryOk(s, ledger, n);
        assert RowOf(after, s.entries[n]) == RowOf(s, s.entries[n]);
      } else {
        assert RunsOf(ledger, n) == [];
      }
    }
  }

  lemma SubmittedLinksOk(s: Store, ledger: Ledger, e: Entry)
    requires ChainsOk(s, ledger) && Submittable(s, ledger, e)
    ensures LinksOk(Submitted(s, e), ledger)
  {
    var after := Submitted(s, e);
    forall n | n in after.entries ensures LinkOk(after, ledger, n) {
      var resumes := after.entries[n].resumes;
      assert EntryAt(after, resumes) == EntryAt(s, resumes) by {
        assert resumes != Some(s.nextEntry);
      }
      if n != s.nextEntry {
        assert LinkOk(s, ledger, n);
      }
    }
  }

  lemma SubmittingKeeps(s: Store, ledger: Ledger, e: Entry)
    requires ChainsOk(s, ledger) && Submittable(s, ledger, e)
    ensures ChainsOk(Submitted(s, e), ledger)
  {
    SubmittedNumbersOk(s, e);
    SubmittedEntriesOk(s, ledger, e);
    SubmittedLinksOk(s, ledger, e);
  }

  // --- what keeps it: an entry's own row --------------------------------------------------------

  /** Only `n`'s row changes, and of it neither what it resumes nor its runs. */
  predicate SameBut(s: Store, after: Store, n: nat) {
    && n in s.entries
    && after.entries.Keys == s.entries.Keys
    && (forall m | m in s.entries && m != n :: after.entries[m] == s.entries[m])
    && after == s.(entries := after.entries)
    && s.entries[n].(state := after.entries[n].state, execution := after.entries[n].execution) == after.entries[n]
  }

  /** What an entry is linked to after its row changed: nothing, what it was, or a number nobody has. */
  predicate LinkMayBe(s: Store, n: nat, execution: Option<nat>)
    requires n in s.entries
  {
    execution == None || execution == s.entries[n].execution || NewlyLinked(s, execution)
  }

  lemma ChangedNumbersOk(s: Store, after: Store, n: nat)
    requires NumbersOk(s) && SameBut(s, after, n) && LinkMayBe(s, n, after.entries[n].execution)
    ensures NumbersOk(after)
  {
  }

  lemma ChangedLinksOk(s: Store, after: Store, ledger: Ledger, n: nat)
    requires LinksOk(s, ledger) && SameBut(s, after, n) && s.entries[n].state.Active()
    ensures LinksOk(after, ledger)
  {
    forall m | m in after.entries ensures LinkOk(after, ledger, m) {
      assert LinkOk(s, ledger, m);
      assert EntryAt(after, s.entries[m].resumes) == EntryAt(s, s.entries[m].resumes);
    }
  }

  /** One active entry's row changes, and nothing else: every other entry stands as it did. */
  lemma EntryChangeKeeps(s: Store, after: Store, ledger: Ledger, n: nat)
    requires ChainsOk(s, ledger) && SameBut(s, after, n)
    requires s.entries[n].state.Active()
    requires EntryOk(after, ledger, n)
    requires LinkMayBe(s, n, after.entries[n].execution)
    ensures ChainsOk(after, ledger)
  {
    forall m | m in after.entries ensures EntryOk(after, ledger, m) {
      if m != n {
        assert EntryOk(s, ledger, m);
        assert RowOf(after, s.entries[m]) == RowOf(s, s.entries[m]);
      }
    }
    ChangedNumbersOk(s, after, n);
    ChangedLinksOk(s, after, ledger, n);
  }

  predicate NewlyLinked(s: Store, execution: Option<nat>) {
    && execution.Some? && execution.value < s.nextExecution
    && forall m | m in s.entries :: s.entries[m].execution != execution
  }

  lemma StateChangeKeeps(s: Store, ledger: Ledger, n: nat, state: QueueState)
    requires ChainsOk(s, ledger)
    requires n in s.entries && s.entries[n].state.Active()
    requires state.Queued? ==> s.entries[n].execution.None?
    requires state.Running? ==> s.entries[n].state.Queued?
    requires EndOk(state, |RunsOf(ledger, n)|, s.entries[n].total + 1 - s.entries[n].firstRun)
    requires !state.Active() && RowOf(s, s.entries[n]).Some? ==> StateAgrees(state, RowOf(s, s.entries[n]).value.status)
    ensures ChainsOk(WithState(s, n, state), ledger)
  {
    assert EntryOk(s, ledger, n);
    assert RowOf(WithState(s, n, state), WithState(s, n, state).entries[n]) == RowOf(s, s.entries[n]);
    EntryChangeKeeps(s, WithState(s, n, state), ledger, n);
  }

  /** Back to queued, or failed with no link, for an entry of which nothing ran. */
  lemma UnlinkingKeeps(s: Store, ledger: Ledger, n: nat)
    requires ChainsOk(s, ledger)
    requires n in s.entries && s.entries[n].state.Running? && RunsOf(ledger, n) == []
    ensures ChainsOk(Requeued(s, n), ledger)
    ensures ChainsOk(FailedToStart(s, n), ledger)
  {
    assert EntryOk(s, ledger, n);
    assert RowOf(Requeued(s, n), Requeued(s, n).entries[n]) == None;
    EntryChangeKeeps(s, Requeued(s, n), ledger, n);
    assert RowOf(FailedToStart(s, n), FailedToStart(s, n).entries[n]) == None;
    EntryChangeKeeps(s, FailedToStart(s, n), ledger, n);
  }

  /** A claim, and putting the claimed entry straight back. */
  lemma ClaimingKeeps(s: Store, ledger: Ledger, n: nat)
    requires ChainsOk(s, ledger) && n in s.entries && s.entries[n].state.Queued?
    ensures ChainsOk(WithState(s, n, Running), ledger)
    ensures ChainsOk(Requeued(WithState(s, n, Running), n), ledger)
  {
    assert EntryOk(s, ledger, n);
    StateChangeKeeps(s, ledger, n, Running);
    UnlinkingKeeps(WithState(s, n, Running), ledger, n);
  }

  lemma NumberingKeeps(s: Store, ledger: Ledger)
    requires ChainsOk(s, ledger)
    ensures ChainsOk(NumberTaken(s), ledger)
  {
    var after := NumberTaken(s);
    forall m | m in after.entries ensures EntryOk(after, ledger, m) && LinkOk(after, ledger, m) {
      assert EntryOk(s, ledger, m) && LinkOk(s, ledger, m);
      assert RowOf(after, s.entries[m]) == RowOf(s, s.entries[m]);
      assert EntryAt(after, s.entries[m].resumes) == EntryAt(s, s.entries[m].resumes);
    }
  }

  lemma LinkingKeeps(s: Store, ledger: Ledger, n: nat, x: nat)
    requires ChainsOk(s, ledger)
    requires n in s.entries && s.entries[n].state.Running? && s.entries[n].execution.None?
    requires NewlyLinked(s, Some(x)) && x !in s.executions
    ensures ChainsOk(LinkedTo(s, n, x), ledger)
  {
    assert EntryOk(s, ledger, n);
    assert RowOf(LinkedTo(s, n, x), LinkedTo(s, n, x).entries[n]) == None;
    EntryChangeKeeps(s, LinkedTo(s, n, x), ledger, n);
  }

  // --- what keeps it: an execution's rows -------------------------------------------------------

  /** Only execution `x` changes. */
  predicate SameButExecution(s: Store, after: Store, x: nat) {
    && after == s.(executions := after.executions)
    && x in after.executions
    && after.executions == s.executions[x := after.executions[x]]
  }

  lemma ExecutionChangeKeepsLinks(s: Store, after: Store, ledger: Ledger, noted: Ledger, n: nat)
    requires LinksOk(s, ledger) && after == s.(executions := after.executions)
    requires n in s.entries && s.entries[n].state.Running?
    requires forall m | m != n :: RunsOf(noted, m) == RunsOf(ledger, m)
    ensures LinksOk(after, noted)
  {
    forall m | m in after.entries ensures LinkOk(after, noted, m) {
      assert LinkOk(s, ledger, m);
      assert s.entries[m].resumes != Some(n);
      assert EntryAt(after, s.entries[m].resumes) == EntryAt(s, s.entries[m].resumes);
    }
  }

  /** One running entry's execution and ledger change: no other entry has that execution, and none resumes it. */
  lemma ExecutionChangeKeeps(s: Store, after: Store, ledger: Ledger, noted: Ledger, n: nat, x: nat)
    requires ChainsOk(s, ledger)
    requires n in s.entries && s.entries[n].execution == Some(x) && s.entries[n].state.Running?
    requires SameButExecution(s, after, x)
    requires noted == ledger || noted == ledger[n := RunsOf(noted, n)]
    requires EntryFits(s.entries[n], Some(after.executions[x]), RunsOf(noted, n))
    ensures ChainsOk(after, noted)
  {
    forall m | m in after.entries ensures EntryOk(after, noted, m) {
      if m != n {
        assert EntryOk(s, ledger, m);
        assert s.entries[m].execution != Some(x);
        assert RowOf(after, s.entries[m]) == RowOf(s, s.entries[m]);
        assert RunsOf(noted, m) == RunsOf(ledger, m);
      } else {
        assert RowOf(after, s.entries[n]) == Some(after.executions[x]);
      }
    }
    ExecutionChangeKeepsLinks(s, after, ledger, noted, n);
  }

  /** `n` is running on execution number `x`. */
  predicate RunsOn(s: Store, n: nat, x: nat) {
    n in s.entries && s.entries[n].execution == Some(x) && s.entries[n].state.Running?
  }

  lemma RecordingKeeps(s: Store, ledger: Ledger, n: nat, x: nat)
    requires ChainsOk(s, ledger) && RunsOn(s, n, x)
    requires RunsOf(ledger, n) == []
    ensures ChainsOk(Recorded(s, x, s.entries[n].total), ledger)
  {
    assert EntryOk(s, ledger, n);
    ExecutionChangeKeeps(s, Recorded(s, x, s.entries[n].total), ledger, ledger, n, x);
  }

  lemma StartedRowsOk(runs: seq<Run>, first: nat, made: nat)
    requires RowsOk(runs, first, made) && |runs| == made
    ensures RowsOk(runs + [Run(first + made, RunGoing)], first, made)
  {
  }

  lemma StartingARunKeeps(s: Store, ledger: Ledger, n: nat, x: nat)
    requires ChainsOk(s, ledger) && RunsOn(s, n, x) && x in s.executions
    requires |s.executions[x].runs| == |RunsOf(ledger, n)|
    requires s.executions[x].status.JobRunning?
    ensures ChainsOk(RunStarted(s, x, NextRun(s, ledger, n)), ledger)
  {
    assert EntryOk(s, ledger, n);
    var made := |RunsOf(ledger, n)|;
    StartedRowsOk(s.executions[x].runs, s.entries[n].firstRun, made);
    ExecutionChangeKeeps(s, RunStarted(s, x, NextRun(s, ledger, n)), ledger, ledger, n, x);
  }

  function NotedIf(ledger: Ledger, n: nat, number: nat, status: RunStatus): Ledger {
    if status.RunSucceeded? then Noted(ledger, n, number) else ledger
  }

  lemma FinishedRowsOk(runs: seq<Run>, first: nat, made: nat, status: RunStatus)
    requires RowsOk(runs, first, made) && |runs| == made + 1
    ensures RowsOk(RunsFinished(runs, first + made, status), first, if status.RunSucceeded? then made + 1 else made)
  {
  }

  lemma FinishingARunKeeps(s: Store, ledger: Ledger, n: nat, x: nat, status: RunStatus)
    requires ChainsOk(s, ledger) && RunsOn(s, n, x) && x in s.executions
    requires NextRun(s, ledger, n) <= s.entries[n].total
    requires |s.executions[x].runs| == |RunsOf(ledger, n)| + 1
    requires s.executions[x].status.JobRunning?
    ensures
      var number := NextRun(s, ledger, n);
      ChainsOk(RunFinished(s, x, number, status), NotedIf(ledger, n, number, status))
  {
    assert EntryOk(s, ledger, n);
    var number := NextRun(s, ledger, n);
    var after, noted := RunFinished(s, x, number, status), NotedIf(ledger, n, number, status);
    FinishedRowsOk(s.executions[x].runs, s.entries[n].firstRun, |RunsOf(ledger, n)|, status);
    ExecutionChangeKeeps(s, after, ledger, noted, n, x);
  }

  lemma FinishingAnExecutionKeeps(s: Store, ledger: Ledger, n: nat, x: nat, status: JobStatus)
    requires ChainsOk(s, ledger) && RunsOn(s, n, x) && x in s.executions
    requires JobEndOk(status, |RunsOf(ledger, n)|, s.entries[n].total + 1 - s.entries[n].firstRun)
    ensures ChainsOk(ExecutionFinished(s, x, status), ledger)
  {
    assert EntryOk(s, ledger, n);
    ExecutionChangeKeeps(s, ExecutionFinished(s, x, status), ledger, ledger, n, x);
  }

  lemma SweptRowFits(e: Entry, row: Execution, numbers: seq<nat>)
    requires EntryFits(e, Some(row), numbers)
    ensures EntryFits(e, Some(SweptExecution(row)), numbers)
  {
    var swept := SweptExecution(row);
    assert |swept.runs| == |row.runs|;
    assert forall i | 0 <= i < |row.runs| ::
      && swept.runs[i].number == row.runs[i].number
      && (swept.runs[i].status.RunSucceeded? <==> row.runs[i].status.RunSucceeded?);
  }

  lemma SweepingKeeps(s: Store, ledger: Ledger)
    requires ChainsOk(s, ledger)
    ensures ChainsOk(Swept(s), ledger)
  {
    var after := Swept(s);
    forall m | m in after.entries ensures EntryOk(after, ledger, m) {
      assert EntryOk(s, ledger, m);
      var row := RowOf(s, s.entries[m]);
      if row.Some? {
        SweptRowFits(s.entries[m], row.value, RunsOf(ledger, m));
        assert RowOf(after, s.entries[m]) == Some(SweptExecution(row.value));
      } else {
        assert RowOf(after, s.entries[m]) == None;
      }
    }
    forall m | m in after.entries ensures LinkOk(after, ledger, m) {
      assert LinkOk(s, ledger, m);
      assert EntryAt(after, s.entries[m].resumes) == EntryAt(s, s.entries[m].resumes);
    }
  }

  /** A running entry's own execution is in use, so a deletion never takes its row. */
  lemma RunningIsNotDeletable(s: Store, n: nat)
    requires OlderLinks(s) && n in s.entries && s.entries[n].state.Running? && s.entries[n].execution.Some?
    ensures !Deletable(s, s.entries[n].execution.value)
  {
    assert UsedBy(s, n, s.entries[n].execution.value);
  }

  lemma DeletingKeeps(s: Store, ledger: Ledger, numbers: set<nat>)
    requires ChainsOk(s, ledger)
    requires forall x | x in numbers :: Deletable(s, x)
    ensures ChainsOk(Without(s, numbers), ledger)
  {
    var after := Without(s, numbers);
    forall m | m in after.entries ensures EntryOk(after, ledger, m) {
      assert EntryOk(s, ledger, m);
      if s.entries[m].state.Running? && s.entries[m].execution.Some? {
        RunningIsNotDeletable(s, m);
        assert RowOf(after, s.entries[m]) == RowOf(s, s.entries[m]);
      } else {
        assert RowOf(after, s.entries[m]) in {None, RowOf(s, s.entries[m])};
      }
    }
    forall m | m in after.entries ensures LinkOk(after, ledger, m) {
      assert LinkOk(s, ledger, m);
      assert EntryAt(after, s.entries[m].resumes) == EntryAt(s, s.entries[m].resumes);
    }
  }
}
