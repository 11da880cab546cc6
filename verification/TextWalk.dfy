/**
 The walk over a parsed document that refuses NUL text and self-reference. The document is a finite
 graph of values by identity: aliases share a value, and a cycle may run through containers. The
 explicit-stack walk is compared with the plain recursive check of the YAML reader.
 */
module TextWalk {

  /** A mapping's keys are text, as the strict reader makes them. */
  datatype Node =
    | Text(nul: bool)
    | Other
    | Mapping(entries: seq<(nat, nat)>)
    | Listing(items: seq<nat>)
  {
    predicate Container() {
      Mapping? || Listing?
    }
  }

  type Graph = map<nat, Node>

  /** Keys and values in the order the walk meets them. */
  function Flattened(entries: seq<(nat, nat)>): seq<nat> {
    if entries == [] then [] else [entries[0].0, entries[0].1] + Flattened(entries[1..])
  }

  function Children(node: Node): seq<nat> {
    match node
    case Mapping(entries) => Flattened(entries)
    case Listing(items) => items
    case _ => []
  }

  /** Everything a container holds is one of its children: the keys and values of a mapping, the items of a listing. */
  lemma ChildrenAreAll(node: Node, c: nat)
    ensures c in Children(node) <==>
            || (node.Mapping? && exists i | 0 <= i < |node.entries| :: c == node.entries[i].0 || c == node.entries[i].1)
            || (node.Listing? && c in node.items)
  {
    if node.Mapping? {
      FlattenedHas(node.entries, c);
    }
  }

  predicate WellFormed(g: Graph) {
    && (forall n, c | n in g && c in Children(g[n]) :: c in g)
    && (forall n, e | n in g && g[n].Mapping? && e in g[n].entries :: e.0 in g && !g[e.0].Container())
  }

  function Containers(g: Graph): set<nat> {
    set n | n in g && g[n].Container()
  }

  // --- what acceptance means ------------------------------------------------------------------

  predicate Edge(g: Graph, a: nat, b: nat) {
    a in g && b in Children(g[a])
  }

  predicate Path(g: Graph, p: seq<nat>) {
    p != [] && forall i | 0 <= i < |p| - 1 :: Edge(g, p[i], p[i + 1])
  }

  predicate PathFrom(g: Graph, a: nat, p: seq<nat>) {
    Path(g, p) && p[0] == a
  }

  /** Some value reachable from `root` is text that holds NUL. */
  ghost predicate NulReachable(g: Graph, root: nat) {
    exists p :: PathFrom(g, root, p) && EndsInNul(g, p)
  }

  predicate EndsInNul(g: Graph, p: seq<nat>) {
    p != [] && p[|p| - 1] in g && g[p[|p| - 1]] == Text(true)
  }

  /** Some value reachable from `root` reaches itself: a path from the root meets the same value twice. */
  ghost predicate CycleReachable(g: Graph, root: nat) {
    exists p :: PathFrom(g, root, p) && Repeats(p)
  }

  predicate Repeats(p: seq<nat>) {
    exists i, j | 0 <= i < j < |p| :: p[i] == p[j]
  }

  lemma PathTail(g: Graph, p: seq<nat>)
    requires Path(g, p) && |p| > 1
    ensures Path(g, p[1..])
  {
    forall j | 0 <= j < |p[1..]| - 1 ensures Edge(g, p[1..][j], p[1..][j + 1]) {
      assert Edge(g, p[j + 1], p[j + 1 + 1]);
    }
  }

  lemma LeafEndsPath(g: Graph, p: seq<nat>)
    requires Path(g, p) && p[0] in g && !g[p[0]].Container()
    ensures |p| == 1
  {
    assert |p| > 1 ==> Edge(g, p[0], p[1]);
  }

  lemma NewNeverRepeats(values: seq<nat>, value: nat)
    requires !Repeats(values) && value !in values
    ensures !Repeats(values + [value])
  {
    var all := values + [value];
    assert forall k | 0 <= k < |values| :: all[k] == values[k];
  }

  // --- the recursive check --------------------------------------------------------------------

  /** The recursive check's cycle verdict: a container met again among its own parents. Keys are not walked. */
  function Values(node: Node): seq<nat> {
    match node
    case Mapping(entries) => seq(|entries|, i requires 0 <= i < |entries| => entries[i].1)
    case Listing(items) => items
    case _ => []
  }

  lemma {:induction false} FlattenedHas(entries: seq<(nat, nat)>, c: nat)
    ensures c in Flattened(entries) <==> exists i | 0 <= i < |entries| :: c == entries[i].0 || c == entries[i].1
  {
    if entries != [] {
      FlattenedHas(entries[1..], c);
      if c in Flattened(entries[1..]) {
        var i :| 0 <= i < |entries[1..]| && (c == entries[1..][i].0 || c == entries[1..][i].1);
        assert entries[i + 1] == entries[1..][i];
      }
      if exists i | 0 < i < |entries| :: c == entries[i].0 || c == entries[i].1 {
        var i :| 0 < i < |entries| && (c == entries[i].0 || c == entries[i].1);
        assert entries[1..][i - 1] == entries[i];
      }
    }
  }

  /** Every value is a child, and every child that is a container is a value. */
  lemma ValuesAreTheContainers(g: Graph, n: nat, c: nat)
    requires WellFormed(g) && n in g
    ensures c in Values(g[n]) ==> c in Children(g[n])
    ensures c in Children(g[n]) && g[c].Container() ==> c in Values(g[n])
  {
    if g[n].Mapping? {
      FlattenedHas(g[n].entries, c);
      if c in Children(g[n]) && g[c].Container() {
        var i :| 0 <= i < |g[n].entries| && (c == g[n].entries[i].0 || c == g[n].entries[i].1);
        assert g[n].entries[i] in g[n].entries;
        assert Values(g[n])[i] == c;
      }
    }
  }

  lemma FewerLeft(g: Graph, n: nat, parents: set<nat>)
    requires n in Containers(g) && n !in parents
    ensures |Containers(g) - (parents + {n})| < |Containers(g) - parents|
  {
    assert Containers(g) - (parents + {n}) == (Containers(g) - parents) - {n};
  }

  predicate RefersToItself(g: Graph, n: nat, parents: set<nat>)
    requires WellFormed(g) && n in g
    decreases |Containers(g) - parents|
  {
    && g[n].Container()
    && (n in parents
        || (FewerLeft(g, n, parents);
            exists i | 0 <= i < |Values(g[n])| ::
              (ValuesAreTheContainers(g, n, Values(g[n])[i]);
               RefersToItself(g, Values(g[n])[i], parents + {n}))))
  }

  /** A recursive verdict of "cycle" names a real one: the parents and the value lie on one path. */
  lemma {:induction false} RecursiveVerdictIsReal(g: Graph, root: nat, n: nat, parents: set<nat>, way: seq<nat>)
    requires WellFormed(g) && n in g && RefersToItself(g, n, parents)
    requires PathFrom(g, root, way + [n]) && parents == set m | m in way
    ensures CycleReachable(g, root)
    decreases |Containers(g) - parents|
  {
    var p := way + [n];
    if n in parents {
      var i :| 0 <= i < |way| && way[i] == n;
      assert p[i] == p[|way|];
      assert Repeats(p);
    } else {
      FewerLeft(g, n, parents);
      var i :| 0 <= i < |Values(g[n])|
        && (ValuesAreTheContainers(g, n, Values(g[n])[i]); RefersToItself(g, Values(g[n])[i], parents + {n}));
      var c := Values(g[n])[i];
      ValuesAreTheContainers(g, n, c);
      assert forall j | 0 <= j < |p| :: (p + [c])[j] == p[j];
      RecursiveVerdictIsReal(g, root, c, parents + {n}, p);
    }
  }

  /** Where the recursive check says "no cycle", no path meets a container twice, or one of its parents. */
  lemma {:induction false} RecursiveVerdictIsWhole(g: Graph, n: nat, parents: set<nat>, p: seq<nat>)
    requires WellFormed(g) && n in g && !RefersToItself(g, n, parents)
    requires PathFrom(g, n, p) && forall i | 0 <= i < |p| :: p[i] in Containers(g)
    ensures forall i | 0 <= i < |p| :: p[i] !in parents
    ensures !Repeats(p)
    decreases |p|
  {
    if |p| > 1 {
      assert Edge(g, p[0], p[1]);
      ValuesAreTheContainers(g, n, p[1]);
      var i :| 0 <= i < |Values(g[n])| && Values(g[n])[i] == p[1];
      assert !RefersToItself(g, Values(g[n])[i], parents + {n});
      var rest := p[1..];
      PathTail(g, p);
      RecursiveVerdictIsWhole(g, p[1], parents + {n}, rest);
      assert forall j | 1 <= j < |p| :: p[j] == rest[j - 1];
    }
  }

  /** The recursive check's cycle verdict is exactly whether a cycle is reachable. */
  lemma RecursiveVerdict(g: Graph, root: nat)
    requires WellFormed(g) && root in g
    ensures RefersToItself(g, root, {}) <==> CycleReachable(g, root)
  {
    if RefersToItself(g, root, {}) {
      assert [] + [root] == [root];
      RecursiveVerdictIsReal(g, root, root, {}, []);
    } else if CycleReachable(g, root) {
      var p :| PathFrom(g, root, p) && Repeats(p);
      var i, j :| 0 <= i < j < |p| && p[i] == p[j];
      var cut := p[..j + 1];
      forall k | 0 <= k < |cut| - 1 ensures Edge(g, cut[k], cut[k + 1]) {
        assert Edge(g, p[k], p[k + 1]);
      }
      forall k | 0 <= k < |cut| ensures cut[k] in Containers(g) {
        if k < j {
          assert Edge(g, p[k], p[k + 1]);
        } else {
          assert Edge(g, p[i], p[i + 1]);
        }
      }
      RecursiveVerdictIsWhole(g, root, {}, cut);
      assert cut[i] == cut[j];
      assert Repeats(cut);
      assert false;
    }
  }

  // --- the explicit-stack walk ----------------------------------------------------------------

  datatype Frame = Frame(value: nat, leaving: bool)

  datatype Stack = Bottom | Push(top: Frame, below: Stack)

  datatype Verdict = Accepted | HoldsNul | SelfReference

  /** The containers being walked, outermost first: the leaving frames, bottom up. */
  function Spine(stack: Stack): seq<nat> {
    match stack
    case Bottom => []
    case Push(top, below) => if top.leaving then Spine(below) + [top.value] else Spine(below)
  }

  /** The value follows the innermost container being walked, or is the root. */
  predicate Follows(g: Graph, root: nat, spine: seq<nat>, value: nat) {
    if spine == [] then value == root else Edge(g, spine[|spine| - 1], value)
  }

  predicate StackOk(g: Graph, root: nat, stack: Stack) {
    match stack
    case Bottom => true
    case Push(top, below) =>
      && StackOk(g, root, below)
      && top.value in g
      && Follows(g, root, Spine(below), top.value)
      && (top.leaving ==> g[top.value].Container() && top.value !in Spine(below))
  }

  /** A value needs no more walking: harmless text, a scalar, or a completed container. */
  predicate Clear(g: Graph, completed: set<nat>, n: nat) {
    n in g && (g[n].Container() ==> n in completed) && g[n] != Text(true)
  }

  predicate Covered(g: Graph, completed: set<nat>, above: set<nat>, n: nat) {
    Clear(g, completed, n) || n in above
  }

  predicate ChildrenCovered(g: Graph, completed: set<nat>, above: set<nat>, n: nat) {
    n in g && forall c | c in Children(g[n]) :: Covered(g, completed, above, c)
  }

  /** The root, and every child of a container being walked, is done or still to come further up. */
  predicate CoversAll(g: Graph, root: nat, completed: set<nat>, stack: Stack, above: set<nat>)
    decreases stack
  {
    match stack
    case Bottom => Covered(g, completed, above, root)
    case Push(top, below) =>
      && (top.leaving ==> ChildrenCovered(g, completed, above, top.value))
      && CoversAll(g, root, completed, below, above + {top.value})
  }

  /** The first `count` containers of a completion order. */
  function Done(order: seq<nat>, count: nat): set<nat>
    requires count <= |order|
  {
    set k | 0 <= k < count :: order[k]
  }

  lemma DoneAppends(order: seq<nat>, value: nat)
    ensures forall i | 0 <= i <= |order| :: Done(order + [value], i) == Done(order, i)
    ensures Done(order + [value], |order| + 1) == Done(order, |order|) + {value}
  {
    var all := order + [value];
    assert all[|order|] == value;
    forall i | 0 <= i <= |order| ensures Done(all, i) == Done(order, i) {
      assert forall k | 0 <= k < i :: all[k] == order[k];
    }
    assert forall k | 0 <= k < |order| :: all[k] == order[k];
    forall x | x in Done(order, |order|) + {value} ensures x in Done(all, |order| + 1) {
      if x != value {
        var k :| 0 <= k < |order| && order[k] == x;
        assert all[k] == x;
      }
    }
  }

  /** Completed containers in the order they were completed: each child came before. */
  predicate InCompletionOrder(g: Graph, order: seq<nat>) {
    forall i, c | 0 <= i < |order| && order[i] in g && c in Children(g[order[i]]) ::
      Clear(g, Done(order, i), c)
  }

  /** A completed set closed in completion order is harmless: no NUL and no repeat below it. */
  lemma {:induction false} CompletedIsHarmless(g: Graph, order: seq<nat>, i: nat, p: seq<nat>)
    requires WellFormed(g) && InCompletionOrder(g, order)
    requires i < |order| && PathFrom(g, order[i], p)
    requires forall k | 0 <= k < |order| :: order[k] in Containers(g)
    requires !Repeats(order)
    ensures !EndsInNul(g, p) && !Repeats(p)
    ensures forall k | 0 < k < |p| :: Clear(g, Done(order, i), p[k])
    decreases i
  {
    if |p| > 1 {
      assert Edge(g, p[0], p[1]);
      var earlier := Done(order, i);
      assert Clear(g, earlier, p[1]);
      var rest := p[1..];
      PathTail(g, p);
      if g[p[1]].Container() {
        var m :| 0 <= m < i && order[m] == p[1];
        CompletedIsHarmless(g, order, m, rest);
        forall k | 0 < k < |p| ensures Clear(g, earlier, p[k]) && p[k] != p[0] {
          assert k > 1 ==> p[k] == rest[k - 1];
          assert Done(order, m) <= earlier;
          if g[p[k]].Container() {
            assert p[k] in earlier;
            var x :| 0 <= x < i && order[x] == p[k];
          }
        }
        assert forall a, b | 0 <= a < b < |p| && a > 0 :: p[a] == rest[a - 1] && p[b] == rest[b - 1];
      } else {
        LeafEndsPath(g, rest);
      }
    }
  }

  lemma AcceptedIsHarmless(g: Graph, root: nat, order: seq<nat>)
    requires WellFormed(g) && InCompletionOrder(g, order)
    requires !Repeats(order)
    requires forall k | 0 <= k < |order| :: order[k] in Containers(g)
    requires Clear(g, Done(order, |order|), root)
    ensures !NulReachable(g, root) && !CycleReachable(g, root)
  {
    forall p | PathFrom(g, root, p) ensures !EndsInNul(g, p) && !Repeats(p) {
      if g[root].Container() {
        var i :| 0 <= i < |order| && order[i] == root;
        CompletedIsHarmless(g, order, i, p);
      } else {
        LeafEndsPath(g, p);
      }
    }
  }

  lemma {:induction false} SpineIsPath(g: Graph, root: nat, stack: Stack)
    requires StackOk(g, root, stack) && Spine(stack) != []
    ensures PathFrom(g, root, Spine(stack))
    decreases stack
  {
    if Spine(stack.below) != [] {
      SpineIsPath(g, root, stack.below);
    }
  }

  /** The top value, met again while it is being walked, closes a cycle. */
  lemma MetAgainIsACycle(g: Graph, root: nat, stack: Stack, value: nat)
    requires StackOk(g, root, stack) && Follows(g, root, Spine(stack), value) && value in Spine(stack)
    ensures CycleReachable(g, root)
  {
    SpineIsPath(g, root, stack);
    var p := Spine(stack) + [value];
    assert PathFrom(g, root, p);
    var i :| 0 <= i < |Spine(stack)| && Spine(stack)[i] == value;
    assert p[i] == p[|p| - 1];
    assert Repeats(p);
  }

  lemma MetNul(g: Graph, root: nat, stack: Stack, value: nat)
    requires StackOk(g, root, stack) && Follows(g, root, Spine(stack), value)
    requires value in g && g[value] == Text(true)
    ensures NulReachable(g, root)
  {
    var p := Spine(stack) + [value];
    if Spine(stack) != [] {
      SpineIsPath(g, root, stack);
    }
    assert PathFrom(g, root, p) && EndsInNul(g, p);
  }

  /** More may be done, and values that were still to come may be done instead. */
  lemma {:induction false} StillCovers(
    g: Graph, root: nat, completed: set<nat>, completed': set<nat>, stack: Stack, above: set<nat>, above': set<nat>)
    requires CoversAll(g, root, completed, stack, above)
    requires completed <= completed'
    requires forall n | n in above :: Covered(g, completed', above', n)
    ensures CoversAll(g, root, completed', stack, above')
    decreases stack
  {
    match stack
    case Bottom =>
    case Push(top, below) =>
      StillCovers(g, root, completed, completed', below, above + {top.value}, above' + {top.value});
  }

  /** The children on top of the stack, the first of them topmost. */
  function WithChildren(values: seq<nat>, stack: Stack): Stack {
    if values == [] then stack else Push(Frame(values[0], false), WithChildren(values[1..], stack))
  }

  lemma {:induction false} ChildrenStackOk(g: Graph, root: nat, values: seq<nat>, stack: Stack)
    requires StackOk(g, root, stack)
    requires forall c | c in values :: c in g && Follows(g, root, Spine(stack), c)
    ensures StackOk(g, root, WithChildren(values, stack)) && Spine(WithChildren(values, stack)) == Spine(stack)
  {
    if values != [] {
      ChildrenStackOk(g, root, values[1..], stack);
    }
  }

  lemma {:induction false} ChildrenCover(
    g: Graph, root: nat, completed: set<nat>, values: seq<nat>, stack: Stack, above: set<nat>)
    requires CoversAll(g, root, completed, stack, above + set c | c in values)
    ensures CoversAll(g, root, completed, WithChildren(values, stack), above)
    decreases |values|
  {
    if values == [] {
      assert above + (set c | c in values) == above;
    } else {
      assert above + (set c | c in values) == (above + {values[0]}) + (set c | c in values[1..]);
      ChildrenCover(g, root, completed, values[1..], stack, above + {values[0]});
    }
  }

  ghost predicate SetsOk(g: Graph, spine: seq<nat>, active: set<nat>, completed: set<nat>, order: seq<nat>) {
    && active == (set n | n in spine)
    && active !! completed
    && active + completed <= Containers(g)
    && completed == Done(order, |order|)
    && !Repeats(order)
    && (forall k | 0 <= k < |order| :: order[k] in completed)
    && InCompletionOrder(g, order)
  }

  lemma LeaveSets(g: Graph, spine: seq<nat>, value: nat, active: set<nat>, completed: set<nat>, order: seq<nat>)
    requires SetsOk(g, spine + [value], active, completed, order) && value !in spine && value in g
    requires forall c | c in Children(g[value]) :: Clear(g, completed, c)
    ensures value in active
    ensures SetsOk(g, spine, active - {value}, completed + {value}, order + [value])
  {
    var order' := order + [value];
    assert forall n :: n in spine + [value] <==> n in spine || n == value;
    DoneAppends(order, value);
    NewNeverRepeats(order, value);
    forall i, c | 0 <= i < |order'| && order'[i] in g && c in Children(g[order'[i]])
      ensures Clear(g, Done(order', i), c)
    {
      if i < |order| {
        assert Clear(g, Done(order, i), c);
      }
    }
  }

  lemma EnterSets(g: Graph, spine: seq<nat>, value: nat, active: set<nat>, completed: set<nat>, order: seq<nat>)
    requires SetsOk(g, spine, active, completed, order)
    requires value in Containers(g) && value !in active + completed
    ensures SetsOk(g, spine + [value], active + {value}, completed, order)
    ensures (active + {value}) + completed == (active + completed) + {value}
  {
    assert forall n :: n in spine + [value] <==> n in spine || n == value;
  }

  method PushChildren(stack: Stack, children: seq<nat>) returns (pushed: Stack)
    ensures pushed == WithChildren(children, stack)
  {
    pushed := stack;
    for i := |children| downto 0
      invariant pushed == WithChildren(children[i..], stack)
    {
      pushed := Push(Frame(children[i], false), pushed);
    }
  }

  /** Everything the loop carries; `order` only serves the proof. */
  datatype Progress = Progress(
    stack: Stack,
    active: set<nat>,
    completed: set<nat>,
    expanded: seq<nat>,
    order: seq<nat>)

  /** A stack and what is done, between two turns of the loop. */
  ghost predicate Going(g: Graph, root: nat, s: Progress) {
    && StackOk(g, root, s.stack)
    && SetsOk(g, Spine(s.stack), s.active, s.completed, s.order)
    && CoversAll(g, root, s.completed, s.stack, {})
    && (forall n :: n in s.expanded <==> n in s.active + s.completed)
    && !Repeats(s.expanded)
  }

  /** A container is left: it and all below it are done. */
  method Leave(g: Graph, root: nat, s: Progress) returns (s': Progress)
    requires Going(g, root, s) && s.stack.Push? && s.stack.top.leaving
    ensures Going(g, root, s')
    ensures s'.stack == s.stack.below
    ensures s'.active + s'.completed == s.active + s.completed
  {
    var value := s.stack.top.value;
    LeaveSets(g, Spine(s.stack.below), value, s.active, s.completed, s.order);
    assert {} + {value} == {value};
    StillCovers(g, root, s.completed, s.completed + {value}, s.stack.below, {value}, {});
    s' := Progress(s.stack.below, s.active - {value}, s.completed + {value}, s.expanded, s.order + [value]);
  }

  /** A container is met for the first time: it is entered, and its children are next. */
  method Enter(g: Graph, root: nat, s: Progress) returns (s': Progress)
    requires WellFormed(g) && Going(g, root, s)
    requires s.stack.Push? && !s.stack.top.leaving && s.stack.top.value in Containers(g)
    requires s.stack.top.value !in s.active && s.stack.top.value !in s.completed
    ensures Going(g, root, s')
    ensures |Containers(g) - (s'.active + s'.completed)| < |Containers(g) - (s.active + s.completed)|
  {
    var value := s.stack.top.value;
    var children := Children(g[value]);
    var entered := Push(Frame(value, true), s.stack.below);
    EnterSets(g, Spine(s.stack.below), value, s.active, s.completed, s.order);
    ChildrenStackOk(g, root, children, entered);
    assert {} + {value} == {value};
    StillCovers(g, root, s.completed, s.completed, s.stack.below, {value}, (set c | c in children) + {value});
    assert {} + (set c | c in children) == set c | c in children;
    ChildrenCover(g, root, s.completed, children, entered, {});
    FewerLeft(g, value, s.active + s.completed);
    NewNeverRepeats(s.expanded, value);
    var stack := PushChildren(entered, children);
    s' := Progress(stack, s.active + {value}, s.completed, s.expanded + [value], s.order);
  }

  /** What is met again, or needs no walking, is dropped. */
  method Skip(g: Graph, root: nat, s: Progress) returns (s': Progress)
    requires Going(g, root, s)
    requires s.stack.Push? && !s.stack.top.leaving && Clear(g, s.completed, s.stack.top.value)
    ensures Going(g, root, s')
    ensures s'.stack == s.stack.below
    ensures s'.active + s'.completed == s.active + s.completed
  {
    assert {} + {s.stack.top.value} == {s.stack.top.value};
    StillCovers(g, root, s.completed, s.completed, s.stack.below, {s.stack.top.value}, {});
    s' := s.(stack := s.stack.below);
  }

  /** What the loop reads at the top of the stack, and what a refusal there means. */
  lemma TopOfStack(g: Graph, root: nat, s: Progress)
    requires Going(g, root, s) && s.stack.Push?
    ensures
      var top := s.stack.top;
      && top.value in g
      && (!top.leaving && g[top.value] == Text(true) ==> NulReachable(g, root))
      && (!top.leaving && top.value in s.active ==> CycleReachable(g, root))
  {
    var top := s.stack.top;
    if !top.leaving && g[top.value] == Text(true) {
      MetNul(g, root, s.stack.below, top.value);
    }
    if !top.leaving && top.value in s.active {
      MetAgainIsACycle(g, root, s.stack.below, top.value);
    }
  }

  /**
   The walk without recursion. It ends on every finite graph, aliased or cyclic; it expands each
   container at most once; and it accepts exactly when no NUL text and no cycle is reachable.
   */
  method CheckTextValues(g: Graph, root: nat) returns (verdict: Verdict, expanded: seq<nat>)
    requires WellFormed(g) && root in g
    ensures verdict.Accepted? <==> !NulReachable(g, root) && !CycleReachable(g, root)
    ensures verdict.HoldsNul? ==> NulReachable(g, root)
    ensures verdict.SelfReference? ==> CycleReachable(g, root)
    ensures !Repeats(expanded)
  {
    var s := Progress(Push(Frame(root, false), Bottom), {}, {}, [], []);
    while s.stack.Push?
      invariant Going(g, root, s)
      decreases |Containers(g) - (s.active + s.completed)|, s.stack
    {
      TopOfStack(g, root, s);
      var top := s.stack.top;
      if top.leaving {
        s := Leave(g, root, s);
      } else if g[top.value].Text? && g[top.value].nul {
        return HoldsNul, s.expanded;
      } else if g[top.value].Container() && top.value in s.active {
        return SelfReference, s.expanded;
      } else if g[top.value].Container() && top.value !in s.completed {
        s := Enter(g, root, s);
      } else {
        s := Skip(g, root, s);
      }
    }
    AcceptedIsHarmless(g, root, s.order);
    return Accepted, s.expanded;
  }

  /** On a document without NUL text, the walk refuses exactly what the recursive check calls a self-reference. */
  method CompareVerdicts(g: Graph, root: nat) returns (walk: Verdict, recursive: bool)
    requires WellFormed(g) && root in g
    ensures recursive <==> CycleReachable(g, root)
    ensures walk.SelfReference? ==> recursive
    ensures !NulReachable(g, root) ==> (walk.SelfReference? <==> recursive)
  {
    var expanded;
    walk, expanded := CheckTextValues(g, root);
    recursive := RefersToItself(g, root, {});
    RecursiveVerdict(g, root);
  }
}
