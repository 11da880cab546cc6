/**
 The updater's ring of complete runs: a bounded window per backend and pipeline, with a count of
 runs ever added and a high mark, standing in for the unbounded record of every accepted run; and
 the checkpoints those counts cross.
 */
module KnobRing {

  datatype Group = Group(backend: string, pipeline: string)

  /** A run's place in the history: its execution, then its number in it. */
  datatype Key = Key(execution: nat, run: nat)

  predicate Before(a: Key, b: Key) {
    a.execution < b.execution || (a.execution == b.execution && a.run < b.run)
  }

  /** `ringable` is whether the ring takes the run at all: complete, live, of a known backend and pipeline. */
  datatype HistoryRun = HistoryRun(key: Key, group: Group, ringable: bool)

  datatype Entry = Entry(group: Group, key: Key)

  datatype Ring = Ring(entries: seq<Entry>, counts: map<Group, nat>, high: map<Group, Key>)

  const EMPTY_RING := Ring([], map[], map[])

  // --- the unbounded record -------------------------------------------------------------------

  /** Every run ever accepted, per group, oldest first. */
  type Record = map<Group, seq<Key>>

  function Accepted(record: Record, group: Group): seq<Key> {
    if group in record then record[group] else []
  }

  predicate Newer(keys: seq<Key>, key: Key) {
    keys == [] || Before(keys[|keys| - 1], key)
  }

  function Accept(record: Record, run: HistoryRun): Record {
    var known := Accepted(record, run.group);
    if run.ringable && Newer(known, run.key) then record[run.group := known + [run.key]] else record
  }

  function AcceptAll(record: Record, runs: seq<HistoryRun>): Record
    decreases |runs|
  {
    if runs == [] then record else AcceptAll(Accept(record, runs[0]), runs[1..])
  }

  predicate Rising(keys: seq<Key>) {
    forall i, j | 0 <= i < j < |keys| :: Before(keys[i], keys[j])
  }

  /** One (execution, run) is one row of the store, so it names one group. */
  predicate FromStore(catalog: map<Key, Group>, runs: seq<HistoryRun>) {
    forall i | 0 <= i < |runs| :: runs[i].key in catalog && catalog[runs[i].key] == runs[i].group
  }

  ghost predicate RecordFromStore(catalog: map<Key, Group>, record: Record) {
    forall group, key | key in Accepted(record, group) :: key in catalog && catalog[key] == group
  }

  // --- an update of the ring ------------------------------------------------------------------

  predicate NotAfter(a: HistoryRun, b: HistoryRun) {
    !Before(b.key, a.key)
  }

  predicate Ordered(runs: seq<HistoryRun>) {
    forall i, j | 0 <= i < j < |runs| :: NotAfter(runs[i], runs[j])
  }

  function Inserted(run: HistoryRun, runs: seq<HistoryRun>): (r: seq<HistoryRun>)
    ensures multiset(r) == multiset(runs) + multiset{run}
    decreases |runs|
  {
    if runs == [] then [run]
    else if NotAfter(run, runs[0]) then [run] + runs
    else
      assert runs == [runs[0]] + runs[1..];
      [runs[0]] + Inserted(run, runs[1..])
  }

  lemma {:induction false} InsertedStaysOrdered(run: HistoryRun, runs: seq<HistoryRun>)
    requires Ordered(runs)
    ensures Ordered(Inserted(run, runs))
    decreases |runs|
  {
    if runs != [] && !NotAfter(run, runs[0]) {
      var rest := Inserted(run, runs[1..]);
      InsertedStaysOrdered(run, runs[1..]);
      forall j | 0 <= j < |rest| ensures NotAfter(runs[0], rest[j]) {
        assert rest[j] in multiset(runs[1..]) + multiset{run};
        assert rest[j] in runs[1..] || rest[j] == run;
      }
    }
  }

  function Sorted(runs: seq<HistoryRun>): (r: seq<HistoryRun>)
    ensures multiset(r) == multiset(runs)
  {
    if runs == [] then []
    else
      assert runs == [runs[0]] + runs[1..];
      Inserted(runs[0], Sorted(runs[1..]))
  }

  lemma {:induction false} SortedIsOrdered(runs: seq<HistoryRun>)
    ensures Ordered(Sorted(runs))
  {
    if runs != [] {
      SortedIsOrdered(runs[1..]);
      InsertedStaysOrdered(runs[0], Sorted(runs[1..]));
    }
  }

  function CountOf(ring: Ring, group: Group): nat {
    if group in ring.counts then ring.counts[group] else 0
  }

  /** A run already in the ring, or not newer than its group's mark, was added before. */
  predicate Fresh(ring: Ring, run: HistoryRun) {
    && run.ringable
    && (forall entry | entry in ring.entries ::
          !(entry.group.backend == run.group.backend && entry.key == run.key))
    && (run.group in ring.high ==> Before(ring.high[run.group], run.key))
  }

  function Added(ring: Ring, run: HistoryRun): Ring {
    if Fresh(ring, run) then
      Ring(ring.entries + [Entry(run.group, run.key)],
           ring.counts[run.group := CountOf(ring, run.group) + 1],
           ring.high[run.group := run.key])
    else ring
  }

  /** A run the ring holds, of its backend, is not added again, nor one that cannot be, nor one not after its mark. */
  lemma AnOldRunIsNotAdded(ring: Ring, run: HistoryRun, entry: Entry)
    requires || (entry in ring.entries && entry.group.backend == run.group.backend && entry.key == run.key)
             || !run.ringable
             || (run.group in ring.high && !Before(ring.high[run.group], run.key))
    ensures Added(ring, run) == ring
  {
  }

  function AddedAll(ring: Ring, runs: seq<HistoryRun>): Ring
    decreases |runs|
  {
    if runs == [] then ring else AddedAll(Added(ring, runs[0]), runs[1..])
  }

  /** The ring's runs of one group, in ring order. */
  function Of(entries: seq<Entry>, group: Group): seq<Key> {
    if entries == [] then []
    else (if entries[0].group == group then [entries[0].key] else []) + Of(entries[1..], group)
  }

  /** Without the oldest `count` runs of `group`. */
  function DropOldest(entries: seq<Entry>, group: Group, count: nat): seq<Entry> {
    if entries == [] || count == 0 then entries
    else if entries[0].group == group then DropOldest(entries[1..], group, count - 1)
    else [entries[0]] + DropOldest(entries[1..], group, count)
  }

  function Trimmed(entries: seq<Entry>, group: Group, size: nat): seq<Entry> {
    var members := Of(entries, group);
    if |members| > size then DropOldest(entries, group, |members| - size) else entries
  }

  function TrimmedAll(entries: seq<Entry>, groups: seq<Group>, size: nat): seq<Entry>
    decreases |groups|
  {
    if groups == [] then entries else TrimmedAll(Trimmed(entries, groups[0], size), groups[1..], size)
  }

  function GroupsOf(entries: seq<Entry>): seq<Group> {
    if entries == [] then []
    else
      var before := GroupsOf(entries[..|entries| - 1]);
      var last := entries[|entries| - 1].group;
      if last in before then before else before + [last]
  }

  function Updated(ring: Ring, runs: seq<HistoryRun>, size: nat): Ring {
    var grown := AddedAll(ring, Sorted(runs));
    grown.(entries := TrimmedAll(grown.entries, GroupsOf(grown.entries), size))
  }

  /** The update as the loops that make it, with the number of runs added. */
  method UpdateRing(ring: Ring, runs: seq<HistoryRun>, size: nat) returns (updated: Ring, runsAdded: nat)
    ensures updated == Updated(ring, runs, size)
    ensures runsAdded == |AddedAll(ring, Sorted(runs)).entries| - |ring.entries|
  {
    var entries, counts, high := ring.entries, ring.counts, ring.high;
    var keys := set entry | entry in entries :: (entry.group.backend, entry.key);
    var ordered := Sorted(runs);
    runsAdded := 0;
    for i := 0 to |ordered|
      invariant keys == set entry | entry in entries :: (entry.group.backend, entry.key)
      invariant AddedAll(ring, ordered) == AddedAll(Ring(entries, counts, high), ordered[i..])
      invariant |entries| == |ring.entries| + runsAdded
    {
      var run := ordered[i];
      ghost var before := Ring(entries, counts, high);
      assert ordered[i..][1..] == ordered[i + 1..];
      if !run.ringable || (run.group.backend, run.key) in keys {
        assert !Fresh(before, run);
      } else if run.group in high && !Before(high[run.group], run.key) {
        // Added before and since trimmed from the ring, or older than the newest it has seen.
        assert !Fresh(before, run);
      } else {
        assert Fresh(before, run);
        keys := keys + {(run.group.backend, run.key)};
        entries := entries + [Entry(run.group, run.key)];
        high := high[run.group := run.key];
        counts := counts[run.group := (if run.group in counts then counts[run.group] else 0) + 1];
        runsAdded := runsAdded + 1;
      }
    }
    assert ordered[|ordered|..] == [];
    entries := TrimRing(entries, size);
    updated := Ring(entries, counts, high);
  }

  method TrimRing(entries: seq<Entry>, size: nat) returns (trimmed: seq<Entry>)
    ensures trimmed == TrimmedAll(entries, GroupsOf(entries), size)
  {
    var groups := GroupsOf(entries);
    trimmed := entries;
    for i := 0 to |groups|
      invariant TrimmedAll(entries, groups, size) == TrimmedAll(trimmed, groups[i..], size)
    {
      assert groups[i..][1..] == groups[i + 1..];
      var members := Of(trimmed, groups[i]);
      if |members| > size {
        trimmed := DropOldest(trimmed, groups[i], |members| - size);
      }
    }
    assert groups[|groups|..] == [];
  }

  // --- the ring is a window of the record -----------------------------------------------------

  predicate Suffix(part: seq<Key>, whole: seq<Key>) {
    |part| <= |whole| && part == whole[|whole| - |part|..]
  }

  /** The newest `size` of `keys`. */
  function Newest(keys: seq<Key>, size: nat): seq<Key> {
    if |keys| <= size then keys else keys[|keys| - size..]
  }

  /** The group's count is of every run it ever accepted, and its mark is the newest of them. */
  predicate MarksOf(ring: Ring, known: seq<Key>, group: Group) {
    && Rising(known)
    && CountOf(ring, group) == |known|
    && (group in ring.high <==> known != [])
    && (known != [] ==> ring.high[group] == known[|known| - 1])
  }

  /** Between adding and trimming: a group's runs are the newest of its record, at least `size` of them. */
  predicate GrownOf(ring: Ring, known: seq<Key>, size: nat, group: Group) {
    var kept := Of(ring.entries, group);
    && MarksOf(ring, known, group)
    && Suffix(kept, known)
    && (|kept| >= size || kept == known)
  }

  ghost predicate Grown(ring: Ring, record: Record, size: nat) {
    forall group :: GrownOf(ring, Accepted(record, group), size, group)
  }

  /** The group's runs in the ring are exactly the newest `size` of its accepted runs. */
  predicate RefinesOf(ring: Ring, known: seq<Key>, size: nat, group: Group) {
    MarksOf(ring, known, group) && Of(ring.entries, group) == Newest(known, size)
  }

  ghost predicate Refines(ring: Ring, record: Record, size: nat) {
    forall group :: RefinesOf(ring, Accepted(record, group), size, group)
  }

  lemma {:induction false} OfAppends(entries: seq<Entry>, entry: Entry, group: Group)
    ensures Of(entries + [entry], group)
         == Of(entries, group) + if entry.group == group then [entry.key] else []
  {
    if entries == [] {
      assert entries + [entry] == [entry];
    } else {
      assert (entries + [entry])[1..] == entries[1..] + [entry];
      OfAppends(entries[1..], entry, group);
    }
  }

  lemma {:induction false} EntryIsOf(entries: seq<Entry>, entry: Entry)
    requires entry in entries
    ensures entry.key in Of(entries, entry.group)
  {
    if entries[0] != entry {
      EntryIsOf(entries[1..], entry);
    }
  }

  lemma {:induction false} OfDropped(entries: seq<Entry>, group: Group, count: nat, other: Group)
    requires count <= |Of(entries, group)|
    ensures Of(DropOldest(entries, group, count), other)
         == if other == group then Of(entries, group)[count..] else Of(entries, other)
  {
    if entries != [] && count != 0 {
      if entries[0].group == group {
        OfDropped(entries[1..], group, count - 1, other);
      } else {
        OfDropped(entries[1..], group, count, other);
        var rest := DropOldest(entries[1..], group, count);
        assert ([entries[0]] + rest)[1..] == rest;
      }
    }
  }

  lemma NewerIsNotIn(known: seq<Key>, key: Key)
    requires Rising(known) && Newer(known, key)
    ensures key !in known
  {
    forall i | 0 <= i < |known| ensures known[i] != key {
      assert i < |known| - 1 ==> Before(known[i], known[|known| - 1]);
    }
  }

  /** A key the ring holds for any group is one that group's record holds, so a newer run's is not there. */
  lemma NewerIsNotHeld(ring: Ring, record: Record, size: nat, catalog: map<Key, Group>, run: HistoryRun, entry: Entry)
    requires Grown(ring, record, size) && RecordFromStore(catalog, record)
    requires run.key in catalog && catalog[run.key] == run.group
    requires Newer(Accepted(record, run.group), run.key)
    requires entry in ring.entries
    ensures entry.key != run.key
  {
    if entry.key == run.key {
      var known := Accepted(record, entry.group);
      EntryIsOf(ring.entries, entry);
      assert GrownOf(ring, known, size, entry.group);
      assert entry.key in known;
      assert entry.group == run.group;
      NewerIsNotIn(known, run.key);
    }
  }

  /** The bounded form takes a run exactly when it is newer than everything accepted for its group. */
  lemma FreshIsNewer(ring: Ring, record: Record, size: nat, catalog: map<Key, Group>, run: HistoryRun)
    requires Grown(ring, record, size) && RecordFromStore(catalog, record)
    requires run.key in catalog && catalog[run.key] == run.group
    ensures Fresh(ring, run) <==> run.ringable && Newer(Accepted(record, run.group), run.key)
  {
    assert GrownOf(ring, Accepted(record, run.group), size, run.group);
    if run.ringable && Newer(Accepted(record, run.group), run.key) {
      forall entry | entry in ring.entries ensures entry.key != run.key {
        NewerIsNotHeld(ring, record, size, catalog, run, entry);
      }
    }
  }

  lemma RisesOn(known: seq<Key>, key: Key)
    requires Rising(known) && Newer(known, key)
    ensures Rising(known + [key])
  {
    var grown := known + [key];
    forall i, j | 0 <= i < j < |grown| ensures Before(grown[i], grown[j]) {
      if j == |known| && i < |known| - 1 {
        assert Before(known[i], known[|known| - 1]);
      }
    }
  }

  lemma AcceptKeepsCatalog(record: Record, run: HistoryRun, catalog: map<Key, Group>)
    requires RecordFromStore(catalog, record)
    requires run.key in catalog && catalog[run.key] == run.group
    ensures RecordFromStore(catalog, Accept(record, run))
  {
    var after := Accept(record, run);
    forall group, key | key in Accepted(after, group) ensures key in catalog && catalog[key] == group {
      assert key in Accepted(record, group) || (group == run.group && key == run.key);
    }
  }

  lemma AddedMarks(ring: Ring, known: seq<Key>, run: HistoryRun, group: Group)
    requires Fresh(ring, run) && MarksOf(ring, known, group)
    requires group == run.group ==> Newer(known, run.key)
    ensures MarksOf(Added(ring, run), if group == run.group then known + [run.key] else known, group)
  {
    if group == run.group {
      RisesOn(known, run.key);
    }
  }

  lemma WhatAddingAdds(ring: Ring, record: Record, run: HistoryRun, group: Group)
    requires Fresh(ring, run) && Newer(Accepted(record, run.group), run.key)
    ensures
      var added := if group == run.group then [run.key] else [];
      && Accepted(Accept(record, run), group) == Accepted(record, group) + added
      && Of(Added(ring, run).entries, group) == Of(ring.entries, group) + added
  {
    OfAppends(ring.entries, Entry(run.group, run.key), group);
  }

  lemma AddedMirrorsIn(ring: Ring, record: Record, size: nat, run: HistoryRun, group: Group)
    requires Fresh(ring, run) && Newer(Accepted(record, run.group), run.key)
    requires GrownOf(ring, Accepted(record, group), size, group)
    ensures GrownOf(Added(ring, run), Accepted(Accept(record, run), group), size, group)
  {
    var known, kept := Accepted(record, group), Of(ring.entries, group);
    WhatAddingAdds(ring, record, run, group);
    AddedMarks(ring, known, run, group);
    if group == run.group {
      SuffixGrows(kept, known, run.key);
    } else {
      assert known + [] == known && kept + [] == kept;
    }
  }

  lemma SuffixGrows(part: seq<Key>, whole: seq<Key>, key: Key)
    requires Suffix(part, whole)
    ensures Suffix(part + [key], whole + [key])
  {
  }

  lemma AddedMirrorsAccept(ring: Ring, record: Record, size: nat, catalog: map<Key, Group>, run: HistoryRun)
    requires Grown(ring, record, size) && RecordFromStore(catalog, record)
    requires run.key in catalog && catalog[run.key] == run.group
    ensures Grown(Added(ring, run), Accept(record, run), size)
  {
    FreshIsNewer(ring, record, size, catalog, run);
    var added, accepted := Added(ring, run), Accept(record, run);
    if Fresh(ring, run) {
      forall group ensures GrownOf(added, Accepted(accepted, group), size, group) {
        assert GrownOf(ring, Accepted(record, group), size, group);
        AddedMirrorsIn(ring, record, size, run, group);
      }
    }
  }

  lemma {:induction false} AddedAllMirrors(
    ring: Ring, record: Record, size: nat, catalog: map<Key, Group>, runs: seq<HistoryRun>)
    requires Grown(ring, record, size) && RecordFromStore(catalog, record) && FromStore(catalog, runs)
    ensures Grown(AddedAll(ring, runs), AcceptAll(record, runs), size)
    ensures RecordFromStore(catalog, AcceptAll(record, runs))
    decreases |runs|
  {
    if runs != [] {
      AddedMirrorsAccept(ring, record, size, catalog, runs[0]);
      AcceptKeepsCatalog(record, runs[0], catalog);
      AddedAllMirrors(Added(ring, runs[0]), Accept(record, runs[0]), size, catalog, runs[1..]);
    }
  }

  lemma {:induction false} GroupsOfHas(entries: seq<Entry>, group: Group)
    requires Of(entries, group) != []
    ensures group in GroupsOf(entries)
  {
    var last := |entries| - 1;
    OfAppends(entries[..last], entries[last], group);
    assert entries[..last] + [entries[last]] == entries;
    if entries[last].group != group {
      GroupsOfHas(entries[..last], group);
    }
  }

  lemma TrimmedIsNewest(entries: seq<Entry>, trimmed: Group, size: nat, group: Group)
    ensures Of(Trimmed(entries, trimmed, size), group)
         == if group == trimmed then Newest(Of(entries, group), size) else Of(entries, group)
  {
    var surplus := |Of(entries, trimmed)| - size;
    if surplus > 0 {
      OfDropped(entries, trimmed, surplus, group);
      assert Trimmed(entries, trimmed, size) == DropOldest(entries, trimmed, surplus);
    } else {
      assert Trimmed(entries, trimmed, size) == entries;
    }
  }

  lemma {:induction false} TrimmedAllIsNewest(entries: seq<Entry>, groups: seq<Group>, size: nat, group: Group)
    ensures Of(TrimmedAll(entries, groups, size), group)
         == if group in groups then Newest(Of(entries, group), size) else Of(entries, group)
    decreases |groups|
  {
    if groups != [] {
      TrimmedIsNewest(entries, groups[0], size, group);
      TrimmedAllIsNewest(Trimmed(entries, groups[0], size), groups[1..], size, group);
    }
  }

  lemma TrimmingRefines(grown: Ring, known: seq<Key>, size: nat, group: Group)
    requires GrownOf(grown, known, size, group)
    ensures
      var entries := TrimmedAll(grown.entries, GroupsOf(grown.entries), size);
      RefinesOf(grown.(entries := entries), known, size, group)
  {
    var groups := GroupsOf(grown.entries);
    var entries := TrimmedAll(grown.entries, groups, size);
    var kept := Of(grown.entries, group);
    TrimmedAllIsNewest(grown.entries, groups, size, group);
    if kept != [] {
      GroupsOfHas(grown.entries, group);
    }
    assert Of(entries, group) == Newest(kept, size);
    NewestOfSuffix(kept, known, size);
    assert MarksOf(grown.(entries := entries), known, group);
  }

  lemma NewestOfSuffix(kept: seq<Key>, known: seq<Key>, size: nat)
    requires Suffix(kept, known) && (|kept| >= size || kept == known)
    ensures Newest(kept, size) == Newest(known, size)
  {
  }

  lemma RefinedIsGrown(ring: Ring, record: Record, size: nat)
    requires Refines(ring, record, size)
    ensures Grown(ring, record, size)
  {
    forall group ensures GrownOf(ring, Accepted(record, group), size, group) {
      assert RefinesOf(ring, Accepted(record, group), size, group);
    }
  }

  lemma SortedFromStore(catalog: map<Key, Group>, runs: seq<HistoryRun>)
    requires FromStore(catalog, runs)
    ensures FromStore(catalog, Sorted(runs))
  {
    var ordered := Sorted(runs);
    forall i | 0 <= i < |ordered| ensures ordered[i].key in catalog && catalog[ordered[i].key] == ordered[i].group {
      assert ordered[i] in multiset(ordered);
      assert ordered[i] in runs;
    }
  }

  /** One update: the ring goes on being exactly the newest `size` of each group's record, which took the same runs. */
  lemma UpdateRefines(ring: Ring, record: Record, size: nat, catalog: map<Key, Group>, runs: seq<HistoryRun>)
    requires Refines(ring, record, size) && RecordFromStore(catalog, record) && FromStore(catalog, runs)
    ensures Refines(Updated(ring, runs, size), AcceptAll(record, Sorted(runs)), size)
    ensures RecordFromStore(catalog, AcceptAll(record, Sorted(runs)))
  {
    RefinedIsGrown(ring, record, size);
    SortedFromStore(catalog, runs);
    AddedAllMirrors(ring, record, size, catalog, Sorted(runs));
    var grown, after := AddedAll(ring, Sorted(runs)), AcceptAll(record, Sorted(runs));
    forall group ensures RefinesOf(Updated(ring, runs, size), Accepted(after, group), size, group) {
      assert GrownOf(grown, Accepted(after, group), size, group);
      TrimmingRefines(grown, Accepted(after, group), size, group);
    }
  }

  // --- over any sequence of updates -----------------------------------------------------------

  /**
   An update, with the backends whose files it finds suspended; it commits as a whole or leaves the files as they
   were.
   */
  datatype Attempt = Attempt(runs: seq<HistoryRun>, suspended: set<string>, committed: bool)

  function RingAfter(attempts: seq<Attempt>, size: nat): Ring {
    if attempts == [] then EMPTY_RING
    else
      var before := RingAfter(attempts[..|attempts| - 1], size);
      var last := attempts[|attempts| - 1];
      if last.committed then Updated(before, last.runs, size) else before
  }

  function RecordAfter(attempts: seq<Attempt>): Record {
    if attempts == [] then map[]
    else
      var before := RecordAfter(attempts[..|attempts| - 1]);
      var last := attempts[|attempts| - 1];
      if last.committed then AcceptAll(before, Sorted(last.runs)) else before
  }

  /**
   Over any updates of one store from an empty ring, failed ones included: every group's count is
   the number of its accepted runs, trimmed ones too, and its ring is the newest `size` of them, in
   strictly rising order.
   */
  lemma {:induction false} RingRefinesRecord(attempts: seq<Attempt>, size: nat, catalog: map<Key, Group>)
    requires forall i | 0 <= i < |attempts| :: FromStore(catalog, attempts[i].runs)
    ensures Refines(RingAfter(attempts, size), RecordAfter(attempts), size)
    ensures RecordFromStore(catalog, RecordAfter(attempts))
    ensures forall group :: Rising(Of(RingAfter(attempts, size).entries, group))
  {
    if attempts != [] {
      var last := |attempts| - 1;
      RingRefinesRecord(attempts[..last], size, catalog);
      if attempts[last].committed {
        UpdateRefines(RingAfter(attempts[..last], size), RecordAfter(attempts[..last]), size, catalog,
                      attempts[last].runs);
      }
    }
    var ring, record := RingAfter(attempts, size), RecordAfter(attempts);
    forall group ensures Rising(Of(ring.entries, group)) {
      assert RefinesOf(ring, Accepted(record, group), size, group);
    }
  }

  predicate Covered(record: Record, run: HistoryRun) {
    run.ringable ==> !Newer(Accepted(record, run.group), run.key)
  }

  lemma {:induction false} AcceptAllCovers(record: Record, runs: seq<HistoryRun>, run: HistoryRun)
    requires run in runs || Covered(record, run)
    ensures Covered(AcceptAll(record, runs), run)
    decreases |runs|
  {
    if runs != [] {
      AcceptAllCovers(Accept(record, runs[0]), runs[1..], run);
    }
  }

  lemma {:induction false} CoveredAddNothing(
    ring: Ring, record: Record, size: nat, catalog: map<Key, Group>, runs: seq<HistoryRun>)
    requires Refines(ring, record, size) && RecordFromStore(catalog, record) && FromStore(catalog, runs)
    requires forall i | 0 <= i < |runs| :: Covered(record, runs[i])
    ensures AddedAll(ring, runs) == ring
    decreases |runs|
  {
    if runs != [] {
      assert Covered(record, runs[0]);
      RefinedIsGrown(ring, record, size);
      FreshIsNewer(ring, record, size, catalog, runs[0]);
      CoveredAddNothing(ring, record, size, catalog, runs[1..]);
    }
  }

  /** Repeating an update with the same runs adds none, however many of them the ring has trimmed. */
  lemma RepeatingAddsNone(ring: Ring, record: Record, size: nat, catalog: map<Key, Group>, runs: seq<HistoryRun>)
    requires Refines(ring, record, size) && RecordFromStore(catalog, record) && FromStore(catalog, runs)
    ensures
      var once := Updated(ring, runs, size);
      AddedAll(once, Sorted(runs)) == once
  {
    var once := AcceptAll(record, Sorted(runs));
    forall i | 0 <= i < |Sorted(runs)| ensures Covered(once, Sorted(runs)[i]) {
      AcceptAllCovers(record, Sorted(runs), Sorted(runs)[i]);
    }
    UpdateRefines(ring, record, size, catalog, runs);
    SortedFromStore(catalog, runs);
    CoveredAddNothing(Updated(ring, runs, size), once, size, catalog, Sorted(runs));
  }

  /** In order, an update accepts every ringable run newer than its group's mark, and no other. */
  lemma {:induction false} EveryNewRunIsCounted(record: Record, runs: seq<HistoryRun>, group: Group, key: Key)
    requires Ordered(runs)
    ensures
      key in Accepted(AcceptAll(record, runs), group) <==>
        || key in Accepted(record, group)
        || (Newer(Accepted(record, group), key)
            && exists i | 0 <= i < |runs| :: runs[i] == HistoryRun(key, group, true))
    decreases |runs|
  {
    if runs != [] {
      var first := runs[0];
      var next := Accept(record, first);
      EveryNewRunIsCounted(next, runs[1..], group, key);
      var run := HistoryRun(key, group, true);
      assert (exists i | 0 <= i < |runs| :: runs[i] == run)
        <==> first == run || exists i | 0 <= i < |runs[1..]| :: runs[1..][i] == run by {
        if i: nat :| i < |runs| && runs[i] == run && i > 0 {
          assert runs[1..][i - 1] == run;
        }
        if i: nat :| i < |runs[1..]| && runs[1..][i] == run {
          assert runs[i + 1] == run;
        }
      }
      if i: nat :| i < |runs| && runs[i] == run && i > 0 {
        assert NotAfter(first, run);
      }
    }
  }

  // --- checkpoints ----------------------------------------------------------------------------

  predicate Increasing(points: seq<nat>) {
    forall i, j | 0 <= i < j < |points| :: points[i] < points[j]
  }

  /** What follows holds of any rising checkpoints; the updater's are `CHECKPOINTS`. */
  type Points = points: seq<nat> | Increasing(points)

  const CHECKPOINTS: Points := [1, 2, 4, 8, 16, 32]

  function Between(points: seq<nat>, low: nat, high: nat): seq<nat> {
    if points == [] then []
    else (if low < points[0] <= high then [points[0]] else []) + Between(points[1..], low, high)
  }

  /** One look at a group: its count so far, and whether its file is suspended just then. */
  datatype Look = Look(added: nat, suspended: bool)

  /** The group's processed count after a look, and the checkpoints that look crossed. */
  function Looked(points: Points, processed: nat, look: Look): (nat, seq<nat>) {
    if look.added <= processed || look.suspended then (processed, [])
    else (look.added, Between(points, processed, look.added))
  }

  function Processed(processed: map<Group, nat>, group: Group): nat {
    if group in processed then processed[group] else 0
  }

  function LookAt(grown: Ring, suspended: set<string>, group: Group): Look {
    Look(CountOf(grown, group), group.backend in suspended)
  }

  /** An update looks once at each group with a run in the ring, suspended ones keeping their counts. */
  method LookAtGroups(points: Points, grown: Ring, suspended: set<string>, processed: map<Group, nat>)
    returns (after: map<Group, nat>, crossed: map<Group, seq<nat>>)
    ensures forall group ::
              Processed(after, group) ==
                if Of(grown.entries, group) == [] then Processed(processed, group)
                else Looked(points, Processed(processed, group), LookAt(grown, suspended, group)).0
    ensures forall group | group in crossed :: Of(grown.entries, group) != []
    ensures forall group | Of(grown.entries, group) != [] ::
              (if group in crossed then crossed[group] else [])
              == Looked(points, Processed(processed, group), LookAt(grown, suspended, group)).1
  {
    var groups := GroupsOf(grown.entries);
    GroupsOfAreHeld(grown.entries);
    after, crossed := processed, map[];
    for i := 0 to |groups|
      invariant forall group ::
                  Processed(after, group) ==
                    if group !in groups[..i] then Processed(processed, group)
                    else Looked(points, Processed(processed, group), LookAt(grown, suspended, group)).0
      invariant forall group | group in crossed :: group in groups[..i]
      invariant forall group | group in groups[..i] ::
                  (if group in crossed then crossed[group] else [])
                  == Looked(points, Processed(processed, group), LookAt(grown, suspended, group)).1
    {
      var group := groups[i];
      assert groups[..i + 1] == groups[..i] + [group];
      assert group !in groups[..i];
      var known := if group in after then after[group] else 0;
      var added := if group in grown.counts then grown.counts[group] else 0;
      if added > known && group.backend !in suspended {
        after := after[group := added];
        var passed := Between(points, known, added);
        if passed != [] {
          crossed := crossed[group := passed];
        }
      }
    }
    assert groups[..|groups|] == groups;
    forall group ensures group in groups <==> Of(grown.entries, group) != [] {
      if Of(grown.entries, group) != [] {
        GroupsOfHas(grown.entries, group);
      }
    }
  }

  lemma {:induction false} GroupsOfAreHeld(entries: seq<Entry>)
    ensures forall i, j | 0 <= i < j < |GroupsOf(entries)| :: GroupsOf(entries)[i] != GroupsOf(entries)[j]
    ensures forall group | group in GroupsOf(entries) :: Of(entries, group) != []
  {
    if entries != [] {
      var last := |entries| - 1;
      GroupsOfAreHeld(entries[..last]);
      assert entries[..last] + [entries[last]] == entries;
      forall group | group in GroupsOf(entries) ensures Of(entries, group) != [] {
        OfAppends(entries[..last], entries[last], group);
      }
    }
  }

  /** What one attempt makes of a group: its processed count if the attempt commits, and the checkpoints it crosses. */
  function Attempted(points: Points, ring: Ring, processed: nat, attempt: Attempt, group: Group): (nat, seq<nat>) {
    var grown := AddedAll(ring, Sorted(attempt.runs));
    if Of(grown.entries, group) == [] then (processed, [])
    else Looked(points, processed, LookAt(grown, attempt.suspended, group))
  }

  /** The group's processed count after attempts from an empty ring; only a commit moves it. */
  function ProcessedAfter(points: Points, attempts: seq<Attempt>, size: nat, group: Group): nat {
    if attempts == [] then 0
    else
      var before, last := attempts[..|attempts| - 1], attempts[|attempts| - 1];
      var processed := ProcessedAfter(points, before, size, group);
      if last.committed then Attempted(points, RingAfter(before, size), processed, last, group).0 else processed
  }

  /** The checkpoints attempt `i` crosses for the group, whether or not it commits. */
  function CrossedBy(points: Points, attempts: seq<Attempt>, size: nat, group: Group, i: nat): seq<nat>
    requires i < |attempts|
  {
    Attempted(points, RingAfter(attempts[..i], size), ProcessedAfter(points, attempts[..i], size, group), attempts[i],
              group).1
  }

  /** The checkpoints crossed by the attempts that committed, in order. */
  function CommittedCrossings(points: Points, attempts: seq<Attempt>, size: nat, group: Group): seq<nat> {
    if attempts == [] then []
    else
      var last := |attempts| - 1;
      CommittedCrossings(points, attempts[..last], size, group)
      + if attempts[last].committed then CrossedBy(points, attempts, size, group, last) else []
  }

  lemma {:induction false} BetweenJoins(points: seq<nat>, low: nat, middle: nat, high: nat)
    requires Increasing(points) && low <= middle <= high
    ensures Between(points, low, middle) + Between(points, middle, high) == Between(points, low, high)
  {
    if points != [] {
      BetweenJoins(points[1..], low, middle, high);
      if points[0] > middle {
        NoneBelow(points[1..], low, middle);
      }
    }
  }

  lemma {:induction false} NoneBelow(points: seq<nat>, low: nat, high: nat)
    requires forall i | 0 <= i < |points| :: points[i] > high
    ensures Between(points, low, high) == []
  {
    if points != [] {
      NoneBelow(points[1..], low, high);
    }
  }

  lemma {:induction false} BetweenHas(points: seq<nat>, low: nat, high: nat, point: nat)
    ensures point in Between(points, low, high) <==> point in points && low < point <= high
  {
    if points != [] {
      BetweenHas(points[1..], low, high, point);
    }
  }

  /** A group's processed count never passes its count in the ring, and never falls. */
  lemma {:induction false} ProcessedIsWithin(points: Points, attempts: seq<Attempt>, size: nat, group: Group)
    ensures ProcessedAfter(points, attempts, size, group) <= CountOf(RingAfter(attempts, size), group)
    ensures forall i | 0 <= i <= |attempts| ::
              ProcessedAfter(points, attempts[..i], size, group) <= ProcessedAfter(points, attempts, size, group)
  {
    if attempts != [] {
      var last := |attempts| - 1;
      var before := attempts[..last];
      ProcessedIsWithin(points, before, size, group);
      CountsNeverFall(RingAfter(before, size), Sorted(attempts[last].runs), group);
      forall i | 0 <= i <= |attempts|
        ensures ProcessedAfter(points, attempts[..i], size, group) <= ProcessedAfter(points, attempts, size, group)
      {
        if i <= last {
          assert before[..i] == attempts[..i];
        } else {
          assert attempts[..i] == attempts;
        }
      }
    } else {
      assert forall i | 0 <= i <= |attempts| :: attempts[..i] == attempts;
    }
  }

  lemma {:induction false} CountsNeverFall(ring: Ring, runs: seq<HistoryRun>, group: Group)
    ensures CountOf(ring, group) <= CountOf(AddedAll(ring, runs), group)
    decreases |runs|
  {
    if runs != [] {
      CountsNeverFall(Added(ring, runs[0]), runs[1..], group);
    }
  }

  /**
   Through any updates, failed and suspended ones included, the checkpoints crossed by those that committed are exactly
   those up to the group's processed count, each once and in order.
   */
  lemma {:induction false} CheckpointsCrossedOnce(points: Points, attempts: seq<Attempt>, size: nat, group: Group)
    ensures CommittedCrossings(points, attempts, size, group)
        == Between(points, 0, ProcessedAfter(points, attempts, size, group))
    ensures Increasing(CommittedCrossings(points, attempts, size, group))
  {
    if attempts == [] {
      NothingPassed(points, 0);
    } else {
      var last := |attempts| - 1;
      CheckpointsCrossedOnce(points, attempts[..last], size, group);
      var processed := ProcessedAfter(points, attempts[..last], size, group);
      var reached := ProcessedAfter(points, attempts, size, group);
      if attempts[last].committed && processed < reached {
        BetweenJoins(points, 0, processed, reached);
      }
    }
    BetweenIncreases(points, 0, ProcessedAfter(points, attempts, size, group));
  }

  lemma {:induction false} NothingPassed(points: seq<nat>, count: nat)
    ensures Between(points, count, count) == []
  {
    if points != [] {
      NothingPassed(points[1..], count);
    }
  }

  lemma {:induction false} BetweenIncreases(points: seq<nat>, low: nat, high: nat)
    requires Increasing(points)
    ensures Increasing(Between(points, low, high))
  {
    if points != [] {
      var rest := Between(points[1..], low, high);
      BetweenIncreases(points[1..], low, high);
      forall k | 0 <= k < |rest| ensures points[0] < rest[k] {
        BetweenHas(points[1..], low, high, rest[k]);
      }
    }
  }

  /** What an attempt crosses lies above the processed count it finds and not above the one it would leave. */
  lemma CrossedLiesBetween(
    points: Points, ring: Ring, processed: nat, attempt: Attempt, group: Group, point: nat)
    requires point in Attempted(points, ring, processed, attempt, group).1
    ensures processed < point <= Attempted(points, ring, processed, attempt, group).0
  {
    BetweenHas(points, processed, CountOf(AddedAll(ring, Sorted(attempt.runs)), group), point);
  }

  lemma CommittedStaysProcessed(
    points: Points, attempts: seq<Attempt>, size: nat, group: Group, i: nat, j: nat, point: nat)
    requires i < j < |attempts| && attempts[i].committed && point in CrossedBy(points, attempts, size, group, i)
    ensures point <= ProcessedAfter(points, attempts[..j], size, group)
  {
    var now, later := attempts[..i + 1], attempts[..j];
    assert now[..i] == attempts[..i] && later[..i + 1] == now;
    CrossedLiesBetween(points, RingAfter(attempts[..i], size), ProcessedAfter(points, attempts[..i], size, group),
                       attempts[i], group, point);
    assert point <= ProcessedAfter(points, now, size, group);
    ProcessedIsWithin(points, later, size, group);
  }

  /**
   A checkpoint an attempt crosses is crossed again by no later one if the attempt commits; if it does not, the same
   update tried again next crosses it again.
   */
  lemma ACrossingIsFinalOnceCommitted(
    points: Points, attempts: seq<Attempt>, size: nat, group: Group, i: nat, point: nat)
    requires i < |attempts| && point in CrossedBy(points, attempts, size, group, i)
    ensures attempts[i].committed ==>
              forall j | i < j < |attempts| :: point !in CrossedBy(points, attempts, size, group, j)
    ensures !attempts[i].committed ==>
              forall again: Attempt | again.runs == attempts[i].runs && again.suspended == attempts[i].suspended ::
                CrossedBy(points, attempts[..i + 1] + [again], size, group, i + 1)
                == CrossedBy(points, attempts, size, group, i)
  {
    if attempts[i].committed {
      forall j | i < j < |attempts| ensures point !in CrossedBy(points, attempts, size, group, j) {
        CommittedStaysProcessed(points, attempts, size, group, i, j, point);
        if point in CrossedBy(points, attempts, size, group, j) {
          CrossedLiesBetween(points, RingAfter(attempts[..j], size),
                             ProcessedAfter(points, attempts[..j], size, group), attempts[j], group, point);
        }
      }
    } else {
      forall again: Attempt | again.runs == attempts[i].runs && again.suspended == attempts[i].suspended
        ensures CrossedBy(points, attempts[..i + 1] + [again], size, group, i + 1)
             == CrossedBy(points, attempts, size, group, i)
      {
        TriedAgain(points, attempts, size, group, i, again);
      }
    }
  }

  lemma TriedAgain(
    points: Points, attempts: seq<Attempt>, size: nat, group: Group, i: nat, again: Attempt)
    requires i < |attempts| && !attempts[i].committed
    requires again.runs == attempts[i].runs && again.suspended == attempts[i].suspended
    ensures CrossedBy(points, attempts[..i + 1] + [again], size, group, i + 1)
         == CrossedBy(points, attempts, size, group, i)
  {
    var now := attempts[..i + 1];
    assert now[..i] == attempts[..i] && (now + [again])[..i + 1] == now;
  }

  lemma GrownHoldsTheRecord(attempts: seq<Attempt>, size: nat, catalog: map<Key, Group>, group: Group)
    requires forall i | 0 <= i < |attempts| :: FromStore(catalog, attempts[i].runs)
    requires attempts != [] && attempts[|attempts| - 1].committed
    ensures
      var last := |attempts| - 1;
      var grown := AddedAll(RingAfter(attempts[..last], size), Sorted(attempts[last].runs));
      GrownOf(grown, Accepted(RecordAfter(attempts), group), size, group)
  {
    var last := |attempts| - 1;
    var ring, record := RingAfter(attempts[..last], size), RecordAfter(attempts[..last]);
    RingRefinesRecord(attempts[..last], size, catalog);
    RefinedIsGrown(ring, record, size);
    SortedFromStore(catalog, attempts[last].runs);
    AddedAllMirrors(ring, record, size, catalog, Sorted(attempts[last].runs));
  }

  /** A look that finds the group's ring as its record has it brings the processed count level with that record. */
  lemma ALookIsLevel(
    points: Points, ring: Ring, processed: nat, attempt: Attempt, known: seq<Key>, size: nat, group: Group)
    requires size >= 1 && GrownOf(AddedAll(ring, Sorted(attempt.runs)), known, size, group)
    requires processed <= CountOf(AddedAll(ring, Sorted(attempt.runs)), group)
    requires group.backend !in attempt.suspended
    ensures Attempted(points, ring, processed, attempt, group).0 == |known|
  {
  }

  /**
   After a commit that did not find the group suspended, the checkpoints crossed and committed are those its whole
   record of accepted runs has reached.
   */
  lemma CheckpointsReachTheRecord(
    points: Points, attempts: seq<Attempt>, size: nat, catalog: map<Key, Group>, group: Group)
    requires size >= 1
    requires forall i | 0 <= i < |attempts| :: FromStore(catalog, attempts[i].runs)
    requires attempts != []
    requires attempts[|attempts| - 1].committed && group.backend !in attempts[|attempts| - 1].suspended
    ensures
      CommittedCrossings(points, attempts, size, group)
      == Between(points, 0, |Accepted(RecordAfter(attempts), group)|)
  {
    var before, last := attempts[..|attempts| - 1], attempts[|attempts| - 1];
    var ring, processed := RingAfter(before, size), ProcessedAfter(points, before, size, group);
    GrownHoldsTheRecord(attempts, size, catalog, group);
    ProcessedIsWithin(points, before, size, group);
    CountsNeverFall(ring, Sorted(last.runs), group);
    ALookIsLevel(points, ring, processed, last, Accepted(RecordAfter(attempts), group), size, group);
    CheckpointsCrossedOnce(points, attempts, size, group);
  }

  /**
   A suspended group is left as it is: its count waits, and no checkpoint is crossed, until an update finds it
   otherwise.
   */
  lemma ASuspendedGroupWaits(points: Points, ring: Ring, processed: nat, attempt: Attempt, group: Group)
    requires group.backend in attempt.suspended
    ensures Attempted(points, ring, processed, attempt, group) == (processed, [])
  {
  }
}
