/** The scheduler's three interchangeable thread queues.  Each class keeps its
    own representation, and its methods are specified by one function of the
    list of threads it holds: `Added` and `Without`. */
module PriorityQueues {
  import opened Common
  import opened PriorityOrder

  datatype Thread = Thread(id: nat, prio: int)

  function Prios(q: seq<Thread>): (r: seq<int>)
    ensures |r| == |q| && forall i :: 0 <= i < |q| ==> r[i] == q[i].prio
  {
    seq(|q|, i requires 0 <= i < |q| => q[i].prio)
  }

  /** The reference queue: in priority order, first come first served. */
  function Added(q: seq<Thread>, t: Thread): seq<Thread> {
    InsertAt(q, Slot(Prios(q), t.prio), t)
  }

  predicate Ordered(q: seq<Thread>) {
    Ascending(Prios(q)) && NoDup(q)
  }

  function Head(q: seq<Thread>): Option<Thread> {
    if q == [] then None else Some(q[0])
  }

  lemma HeadIsBest(q: seq<Thread>)
    requires Ordered(q)
    ensures forall u :: u in q ==> q[0].prio <= u.prio
  {
    forall u | u in q ensures q[0].prio <= u.prio {
      var i :| 0 <= i < |q| && q[i] == u;
      assert Prios(q)[0] <= Prios(q)[i];
    }
  }

  lemma AddedAscending(q: seq<Thread>, t: Thread)
    requires Ascending(Prios(q))
    ensures Ascending(Prios(Added(q, t)))
  {
    InsertKeepsAscending(Prios(q), t.prio);
    assert Prios(Added(q, t)) == InsertAt(Prios(q), Slot(Prios(q), t.prio), t.prio);
  }

  lemma AddedKeepsOrder(q: seq<Thread>, t: Thread)
    requires Ordered(q) && t !in q
    ensures Ordered(Added(q, t))
  {
    AddedAscending(q, t);
    InsertKeepsNoDup(q, Slot(Prios(q), t.prio), t);
  }

  lemma RemovedKeepsOrder(q: seq<Thread>, t: Thread)
    requires Ordered(q)
    ensures Ordered(Without(q, t))
  {
    if t in q {
      var k :| 0 <= k < |q| && q[k] == t;
      WithoutAt(q, k);
      WithoutNoDup(q, t);
      var r := Without(q, t);
      forall i, j | 0 <= i < j < |r| ensures Prios(r)[i] <= Prios(r)[j] {
        assert Prios(q)[if i < k then i else i + 1] <= Prios(q)[if j < k then j else j + 1];
      }
    }
  }

  /** Equal priorities are served in arrival order: whoever was queued before t
      and is not beaten by it stays ahead of it, and t is ahead of the rest. */
  lemma ArrivalOrder(q: seq<Thread>, t: Thread, i: nat)
    requires Ordered(q) && i < |q|
    ensures var k := Slot(Prios(q), t.prio);
            && Added(q, t)[k] == t
            && (q[i].prio <= t.prio ==> i < k && Added(q, t)[i] == q[i])
            && (t.prio < q[i].prio ==> k <= i && Added(q, t)[i + 1] == q[i])
  {
    var k := Slot(Prios(q), t.prio);
    assert Prios(q)[i] == q[i].prio;
    if k < |q| && i < k {
      assert Prios(q)[k] == q[k].prio;
    }
    if k < i {
      assert Prios(q)[k] <= Prios(q)[i];
    }
  }

  // ---------------------------------------------------------------- sorted list

  class SortedList {
    var list: seq<Thread>

    constructor ()
      ensures list == []
    {
      list := [];
    }

    method Add(t: Thread)
      modifies this
      ensures list == Added(old(list), t)
    {
      var i := 0;
      while i < |list|
        invariant 0 <= i <= |list| && list == old(list)
        invariant forall j :: 0 <= j < i ==> list[j].prio <= t.prio
        invariant Slot(Prios(list), t.prio) >= i
      {
        if t.prio < list[i].prio {
          assert Prios(list)[i] == list[i].prio;
          list := list[..i] + [t] + list[i..];
          return;
        }
        assert Prios(list)[i] == list[i].prio;
        i := i + 1;
      }
      list := list + [t];
    }

    method Remove(t: Thread)
      requires NoDup(list)
      modifies this
      ensures list == Without(old(list), t)
    {
      list := Unlinked(list, t);
    }

    /** In an ordered list nobody beats the result. */
    method Best() returns (t: Option<Thread>)
      ensures t == Head(list)
      ensures t == None ==> list == []
      ensures t.Some? ==> t.value in list && (Ordered(list) ==> forall u :: u in list ==> t.value.prio <= u.prio)
    {
      t := if |list| > 0 then Some(list[0]) else None;
      if Ordered(list) {
        HeadIsBest(list);
      }
    }
  }

  // ---------------------------------------------------------------- multi-queue

  const LEVELS: nat := 32

  ghost function Concat(qs: seq<seq<Thread>>): seq<Thread> {
    if qs == [] then [] else qs[0] + Concat(qs[1..])
  }

  /** Queue i, counted from `base`, holds threads of priority `base + i` only. */
  ghost predicate Levelled(qs: seq<seq<Thread>>, base: int) {
    forall i, j :: 0 <= i < |qs| && 0 <= j < |qs[i]| ==> qs[i][j].prio == base + i
  }

  /** A thread of the concatenation is on the level of its priority. */
  ghost predicate OnLevel(qs: seq<seq<Thread>>, base: int, t: Thread) {
    base <= t.prio < base + |qs| && t in qs[t.prio - base]
  }

  lemma {:induction false} ConcatLevel(qs: seq<seq<Thread>>, base: int, t: Thread)
    requires Levelled(qs, base) && t in Concat(qs)
    ensures OnLevel(qs, base, t)
  {
    if t !in qs[0] {
      TailLevelled(qs, base);
      ConcatLevel(qs[1..], base + 1, t);
      assert qs[1..][t.prio - (base + 1)] == qs[t.prio - base];
    }
  }

  lemma ConcatLevels(qs: seq<seq<Thread>>, base: int)
    requires Levelled(qs, base)
    ensures forall t :: t in Concat(qs) ==> OnLevel(qs, base, t)
  {
    forall t | t in Concat(qs) ensures OnLevel(qs, base, t) {
      ConcatLevel(qs, base, t);
    }
  }

  lemma {:induction false} ConcatRange(qs: seq<seq<Thread>>, base: int)
    requires Levelled(qs, base)
    ensures forall t :: t in Concat(qs) ==> OnLevel(qs, base, t)
    ensures Ascending(Prios(Concat(qs)))
  {
    ConcatLevels(qs, base);
    if qs != [] {
      TailLevelled(qs, base);
      ConcatRange(qs[1..], base + 1);
      assert forall t :: t in Concat(qs[1..]) ==> OnLevel(qs[1..], base + 1, t);
      LevelAhead(qs[0], Concat(qs[1..]), base);
    }
  }

  lemma LevelAhead(level: seq<Thread>, rest: seq<Thread>, prio: int)
    requires (forall t :: t in level ==> t.prio == prio) && (forall t :: t in rest ==> t.prio > prio)
    requires Ascending(Prios(rest))
    ensures Ascending(Prios(level + rest))
  {
    var ps := Prios(level + rest);
    forall i, j | 0 <= i < j < |ps| ensures ps[i] <= ps[j] {
      if i < |level| {
        assert level[i] in level && (j < |level| ==> level[j] in level);
        assert j >= |level| ==> rest[j - |level|] in rest;
      } else {
        assert Prios(rest)[i - |level|] <= Prios(rest)[j - |level|];
      }
    }
  }

  lemma TailLevelled(qs: seq<seq<Thread>>, base: int)
    requires Levelled(qs, base) && qs != []
    ensures Levelled(qs[1..], base + 1)
  {
    forall i, j | 0 <= i < |qs[1..]| && 0 <= j < |qs[1..][i]|
      ensures qs[1..][i][j].prio == base + 1 + i
    {
      assert qs[1..][i] == qs[i + 1];
    }
  }

  lemma AddedPasses(ahead: seq<Thread>, rest: seq<Thread>, t: Thread)
    requires forall i :: 0 <= i < |ahead| ==> ahead[i].prio <= t.prio
    ensures Added(ahead + rest, t) == ahead + Added(rest, t)
  {
    SlotPasses(Prios(ahead), Prios(rest), t.prio);
    PriosConcat(ahead, rest);
    InsertBehind(ahead, rest, Slot(Prios(rest), t.prio), t);
  }

  lemma PriosConcat(a: seq<Thread>, b: seq<Thread>)
    ensures Prios(a + b) == Prios(a) + Prios(b)
  {
  }

  lemma AddedFirst(q: seq<Thread>, t: Thread)
    requires q != [] ==> t.prio < q[0].prio
    ensures Added(q, t) == [t] + q
  {
  }

  /** A later level comes after all threads of the first. */
  lemma FirstLevelAhead(qs: seq<seq<Thread>>, base: int, t: Thread)
    requires Levelled(qs, base) && qs != [] && t.prio == base
    ensures Added(Concat(qs[1..]), t) == [t] + Concat(qs[1..])
  {
    var tail := Concat(qs[1..]);
    TailLevelled(qs, base);
    if tail != [] {
      ConcatLevel(qs[1..], base + 1, tail[0]);
    }
    AddedFirst(tail, t);
  }

  lemma ConcatUpdate(qs: seq<seq<Thread>>, b: nat, q: seq<Thread>)
    requires b < |qs|
    ensures Concat(qs[b := q]) == if b == 0 then q + Concat(qs[1..]) else qs[0] + Concat(qs[1..][b - 1 := q])
  {
    assert qs[b := q][1..] == if b == 0 then qs[1..] else qs[1..][b - 1 := q];
  }

  lemma Between<T>(a: seq<T>, x: T, b: seq<T>)
    ensures (a + [x]) + b == a + ([x] + b)
  {
  }

  /** Appending to the newcomer's own level is the sorted insertion. */
  lemma {:induction false} AppendToLevel(qs: seq<seq<Thread>>, base: int, b: nat, t: Thread)
    requires Levelled(qs, base) && b < |qs| && t.prio == base + b
    ensures Concat(qs[b := qs[b] + [t]]) == Added(Concat(qs), t)
  {
    var tail := Concat(qs[1..]);
    AddedPasses(qs[0], tail, t);
    ConcatUpdate(qs, b, qs[b] + [t]);
    if b == 0 {
      FirstLevelAhead(qs, base, t);
      Between(qs[0], t, tail);
    } else {
      TailLevelled(qs, base);
      AppendToLevel(qs[1..], base + 1, b - 1, t);
    }
  }

  lemma {:induction false} RemoveFromLevel(qs: seq<seq<Thread>>, base: int, b: nat, t: Thread)
    requires Levelled(qs, base) && b < |qs| && t.prio == base + b
    ensures Concat(qs[b := Without(qs[b], t)]) == Without(Concat(qs), t)
  {
    TailLevelled(qs, base);
    WithoutConcat(qs[0], Concat(qs[1..]), t);
    if b == 0 {
      ConcatRange(qs[1..], base + 1);
      assert qs[0 := Without(qs[0], t)][1..] == qs[1..];
    } else {
      RemoveFromLevel(qs[1..], base + 1, b - 1, t);
      assert qs[b := Without(qs[b], t)][1..] == qs[1..][b - 1 := Without(qs[b], t)];
      assert t !in qs[0];
    }
  }

  lemma LevelledUpdate(qs: seq<seq<Thread>>, base: int, b: nat, q: seq<Thread>)
    requires Levelled(qs, base) && b < |qs|
    requires forall t :: t in q ==> t in qs[b] || t.prio == base + b
    ensures Levelled(qs[b := q], base)
  {
    assert forall j :: 0 <= j < |q| ==> q[j] in q;
  }

  lemma LevelGrows(qs: seq<seq<Thread>>, base: int, b: nat, t: Thread)
    requires Levelled(qs, base) && b < |qs| && t.prio == base + b
    ensures Levelled(qs[b := qs[b] + [t]], base) && Concat(qs[b := qs[b] + [t]]) == Added(Concat(qs), t)
  {
    AppendToLevel(qs, base, b, t);
    LevelledUpdate(qs, base, b, qs[b] + [t]);
  }

  lemma LevelShrinks(qs: seq<seq<Thread>>, base: int, b: nat, t: Thread)
    requires Levelled(qs, base) && b < |qs| && t.prio == base + b
    ensures Levelled(qs[b := Without(qs[b], t)], base) && Concat(qs[b := Without(qs[b], t)]) == Without(Concat(qs), t)
  {
    RemoveFromLevel(qs, base, b, t);
    LevelledUpdate(qs, base, b, Without(qs[b], t));
  }

  lemma {:induction false} FirstNonEmpty(qs: seq<seq<Thread>>, b: nat)
    requires b <= |qs| && forall i :: 0 <= i < b ==> qs[i] == []
    requires b < |qs| ==> qs[b] != []
    ensures Head(Concat(qs)) == if b < |qs| then Some(qs[b][0]) else None
  {
    if b > 0 {
      FirstNonEmpty(qs[1..], b - 1);
    }
  }

  class MultiQueue {
    const highest: int
    const queues: array<seq<Thread>>
    /** The positions of the one-bits of the mask word. */
    var bitmask: set<nat>

    ghost predicate Valid()
      reads this, queues
    {
      queues.Length == LEVELS && Levelled(queues[..], highest) && BitsOk()
    }

    ghost predicate BitsOk()
      requires queues.Length == LEVELS
      reads this, queues
    {
      forall i :: i in bitmask <==> 0 <= i < LEVELS && queues[i] != []
    }

    ghost function Contents(): seq<Thread>
      reads this, queues
    {
      Concat(queues[..])
    }

    constructor (highest: int)
      ensures Valid() && fresh(queues) && Contents() == [] && this.highest == highest
    {
      this.highest := highest;
      queues := new seq<Thread>[LEVELS](_ => []);
      bitmask := {};
      new;
      FirstNonEmpty(queues[..], LEVELS);
    }

    method Add(t: Thread)
      requires Valid() && highest <= t.prio < highest + LEVELS
      modifies this`bitmask, queues
      ensures Valid() && Contents() == Added(old(Contents()), t)
    {
      var bit: nat := t.prio - highest;
      LevelGrows(queues[..], highest, bit, t);
      Append(bit, t);
    }

    method Append(bit: nat, t: Thread)
      requires queues.Length == LEVELS && bit < LEVELS && BitsOk()
      modifies this`bitmask, queues
      ensures queues[..] == old(queues[..])[bit := old(queues[bit]) + [t]] && BitsOk()
    {
      SetLevel(bit, queues[bit] + [t]);
      bitmask := bitmask + {bit};
    }

    method SetLevel(bit: nat, q: seq<Thread>)
      requires bit < queues.Length
      modifies queues
      ensures queues[..] == old(queues[..])[bit := q]
      ensures forall i :: 0 <= i < queues.Length ==> queues[i] == if i == bit then q else old(queues[i])
    {
      queues[bit] := q;
    }

    method Remove(t: Thread)
      requires Valid() && highest <= t.prio < highest + LEVELS
      modifies this`bitmask, queues
      ensures Valid() && Contents() == Without(old(Contents()), t)
    {
      var bit: nat := t.prio - highest;
      LevelShrinks(queues[..], highest, bit, t);
      Unlink(bit, t);
    }

    method Unlink(bit: nat, t: Thread)
      requires queues.Length == LEVELS && bit < LEVELS && BitsOk()
      modifies this`bitmask, queues
      ensures queues[..] == old(queues[..])[bit := Without(old(queues[bit]), t)] && BitsOk()
    {
      SetLevel(bit, Without(queues[bit], t));
      if queues[bit] == [] {
        bitmask := bitmask - {bit};
      }
    }

    method Best() returns (t: Option<Thread>)
      requires Valid()
      ensures t == Head(Contents())
    {
      if bitmask == {} {
        FirstNonEmpty(queues[..], LEVELS);
        return None;
      }
      // count the trailing zeros of the mask
      var bit := 0;
      while bit !in bitmask
        invariant 0 <= bit < LEVELS
        invariant forall i :: 0 <= i < bit ==> i !in bitmask
        invariant exists i :: i in bitmask
        decreases LEVELS - bit
      {
        bit := bit + 1;
      }
      FirstNonEmpty(queues[..], bit);
      t := Some(queues[bit][0]);
    }
  }

  // ------------------------------------------------------------- balanced tree

  const KEYS: nat := 0x1_0000_0000

  /** Order keys are unsigned 32-bit words.  The counter is declared signed but only
      ever copied into one and compared with zero, so it is held as the same word. */
  type Key = k: int | 0 <= k < KEYS

  const LAST_KEY: Key := KEYS - 1

  datatype Node = Node(thread: Thread, key: Key)

  /** The tree is held as its in-order walk. */
  datatype Tree = Tree(nodes: seq<Node>, nextKey: Key)

  predicate LessThan(a: Node, b: Node) {
    if a.thread.prio != b.thread.prio then a.thread.prio < b.thread.prio else a.key < b.key
  }

  /** Where the descent of an insertion ends up in the in-order walk. */
  function Rank(nodes: seq<Node>, n: Node): (k: nat)
    ensures k <= |nodes|
    ensures forall i :: 0 <= i < k ==> !LessThan(n, nodes[i])
    ensures k < |nodes| ==> LessThan(n, nodes[k])
  {
    if nodes == [] || LessThan(n, nodes[0]) then 0 else 1 + Rank(nodes[1..], n)
  }

  function Threads(nodes: seq<Node>): (r: seq<Thread>)
    ensures |r| == |nodes| && forall i :: 0 <= i < |nodes| ==> r[i] == nodes[i].thread
  {
    seq(|nodes|, i requires 0 <= i < |nodes| => nodes[i].thread)
  }

  function Bump(key: Key): Key {
    if key == LAST_KEY then 0 else key + 1
  }

  function Renumbered(nodes: seq<Node>): (r: seq<Node>)
    ensures |r| == |nodes|
    ensures forall i :: 0 <= i < |nodes| ==> r[i] == Node(nodes[i].thread, i % KEYS)
  {
    seq(|nodes|, i requires 0 <= i < |nodes| => Node(nodes[i].thread, i % KEYS))
  }

  function TreeAdded(tree: Tree, t: Thread): Tree {
    var n := Node(t, tree.nextKey);
    var w := Walk(tree);
    Tree(InsertAt(w, Rank(w, n), n), if tree.nextKey == LAST_KEY then |w| % KEYS else Bump(tree.nextKey))
  }

  /** The newcomer gets the last key of all, or no queued thread of its priority holds
      a later one than it is about to get. */
  predicate KeyIsLatest(tree: Tree, t: Thread) {
    tree.nextKey == LAST_KEY || forall n :: n in tree.nodes && n.thread.prio == t.prio ==> n.key <= tree.nextKey
  }

  lemma RankIsSlot(nodes: seq<Node>, n: Node)
    requires forall i :: 0 <= i < |nodes| && nodes[i].thread.prio == n.thread.prio ==> nodes[i].key <= n.key
    ensures Rank(nodes, n) == Slot(Prios(Threads(nodes)), n.thread.prio)
  {
    if nodes != [] && !LessThan(n, nodes[0]) {
      RankIsSlot(nodes[1..], n);
      assert Prios(Threads(nodes))[1..] == Prios(Threads(nodes[1..]));
    }
  }

  /** The walk the newcomer is inserted into: the old keys, or fresh ones when
      the counter comes round to zero. */
  function Walk(tree: Tree): (r: seq<Node>)
    ensures Threads(r) == Threads(tree.nodes)
  {
    if tree.nextKey == LAST_KEY then Renumbered(tree.nodes) else tree.nodes
  }

  lemma TreeAddedThreads(tree: Tree, t: Thread)
    ensures Threads(TreeAdded(tree, t).nodes)
         == InsertAt(Threads(tree.nodes), Rank(Walk(tree), Node(t, tree.nextKey)), t)
  {
    ThreadsInsert(Walk(tree), Rank(Walk(tree), Node(t, tree.nextKey)), Node(t, tree.nextKey));
  }

  lemma ThreadsInsert(nodes: seq<Node>, k: nat, n: Node)
    requires k <= |nodes|
    ensures Threads(InsertAt(nodes, k, n)) == InsertAt(Threads(nodes), k, n.thread)
  {
  }

  lemma InsertDiffers(q: seq<Thread>, r: nat, k: nat, t: Thread)
    requires r < k <= |q| && t !in q
    ensures InsertAt(q, r, t) != InsertAt(q, k, t)
  {
    assert InsertAt(q, k, t)[r] == q[r];
  }

  /** A walk in which no node comes before an earlier one, as the descent expects. */
  ghost predicate Sorted(nodes: seq<Node>) {
    nodes == [] || (NoneBefore(nodes[0], nodes[1..]) && Sorted(nodes[1..]))
  }

  ghost predicate NoneBefore(n: Node, rest: seq<Node>) {
    forall m :: m in rest ==> !LessThan(m, n)
  }

  lemma {:induction false} SortedAscending(nodes: seq<Node>)
    requires Sorted(nodes)
    ensures Ascending(Prios(Threads(nodes)))
  {
    if nodes != [] {
      SortedAscending(nodes[1..]);
      var ps := Prios(Threads(nodes));
      assert ps[1..] == Prios(Threads(nodes[1..]));
      forall i, j | 0 <= i < j < |ps| ensures ps[i] <= ps[j] {
        if i == 0 {
          assert nodes[1..][j - 1] in nodes[1..];
        } else {
          assert ps[1..][i - 1] <= ps[1..][j - 1];
        }
      }
    }
  }

  lemma InsertTail(nodes: seq<Node>, n: Node)
    requires nodes != [] && !LessThan(n, nodes[0])
    ensures InsertAt(nodes, Rank(nodes, n), n) == [nodes[0]] + InsertAt(nodes[1..], Rank(nodes[1..], n), n)
  {
    assert nodes == [nodes[0]] + nodes[1..];
    InsertBehind([nodes[0]], nodes[1..], Rank(nodes[1..], n), n);
  }

  lemma BeforeAll(nodes: seq<Node>, n: Node)
    requires Sorted(nodes) && (nodes != [] ==> LessThan(n, nodes[0]))
    ensures NoneBefore(n, nodes)
  {
    forall m | m in nodes ensures !LessThan(m, n) {
      assert m == nodes[0] || m in nodes[1..];
    }
  }

  lemma {:induction false} InsertSorted(nodes: seq<Node>, n: Node)
    requires Sorted(nodes)
    ensures Sorted(InsertAt(nodes, Rank(nodes, n), n))
  {
    if nodes == [] || LessThan(n, nodes[0]) {
      BeforeAll(nodes, n);
      var r := InsertAt(nodes, 0, n);
      assert r[0] == n && r[1..] == nodes;
    } else {
      var rest := InsertAt(nodes[1..], Rank(nodes[1..], n), n);
      InsertSorted(nodes[1..], n);
      InsertTail(nodes, n);
      assert ([nodes[0]] + rest)[1..] == rest;
    }
  }

  /** Keys that ascend along a walk in priority order keep it sorted. */
  lemma {:induction false} RisingSorted(nodes: seq<Node>)
    requires Ascending(Prios(Threads(nodes)))
    requires forall i, j :: 0 <= i < j < |nodes| ==> nodes[i].key <= nodes[j].key
    ensures Sorted(nodes)
  {
    if nodes != [] {
      var tail, ps := nodes[1..], Prios(Threads(nodes));
      forall i, j | 0 <= i < j < |tail| ensures Prios(Threads(tail))[i] <= Prios(Threads(tail))[j] {
        assert ps[i + 1] <= ps[j + 1];
      }
      RisingSorted(tail);
      forall m | m in tail ensures !LessThan(m, nodes[0]) {
        var i :| 0 <= i < |tail| && tail[i] == m;
        assert ps[0] <= ps[i + 1];
      }
    }
  }

  lemma RenumberedRises(nodes: seq<Node>, i: nat, j: nat)
    requires i < j < |nodes| <= KEYS
    ensures Renumbered(nodes)[i].key == i && Renumbered(nodes)[j].key == j
  {
  }

  lemma RenumberedSorted(nodes: seq<Node>)
    requires Sorted(nodes) && |nodes| <= KEYS
    ensures Sorted(Renumbered(nodes))
  {
    var r := Renumbered(nodes);
    SortedAscending(nodes);
    assert Threads(r) == Threads(nodes);
    forall i, j | 0 <= i < j < |r| ensures r[i].key <= r[j].key {
      RenumberedRises(nodes, i, j);
    }
    RisingSorted(r);
  }

  lemma TreeAddedSorted(tree: Tree, t: Thread)
    requires Sorted(tree.nodes) && |tree.nodes| <= KEYS
    ensures Sorted(TreeAdded(tree, t).nodes)
  {
    RenumberedSorted(tree.nodes);
    InsertSorted(Walk(tree), Node(t, tree.nextKey));
  }

  /** An insertion serves arrival order exactly when the newcomer's key is the latest
      of its priority. */
  lemma TreeServesArrivalOrder(tree: Tree, t: Thread)
    requires Sorted(tree.nodes) && t !in Threads(tree.nodes)
    ensures Threads(TreeAdded(tree, t).nodes) == Added(Threads(tree.nodes), t) <==> KeyIsLatest(tree, t)
  {
    var n, w, q := Node(t, tree.nextKey), Walk(tree), Threads(tree.nodes);
    TreeAddedThreads(tree, t);
    if KeyIsLatest(tree, t) {
      LatestIsLast(tree, t);
    } else {
      SortedAscending(tree.nodes);
      RankTooEarly(tree, t);
      InsertDiffers(q, Rank(w, n), Slot(Prios(q), t.prio), t);
    }
  }

  /** Whoever brings the renumbering about keeps the last key of all, while the counter
      starts again low: the next thread of its priority overtakes it. */
  lemma RenumberingIsUnfair(tree: Tree, t: Thread, late: Thread) returns (i: nat, j: nat)
    requires tree.nextKey == LAST_KEY && |tree.nodes| < LAST_KEY && t.prio == late.prio
    ensures KeyIsLatest(tree, t)
    ensures var q := Threads(TreeAdded(TreeAdded(tree, t), late).nodes);
            i < j < |q| && q[i] == late && q[j] == t
  {
    j := CounterStartsLow(tree, t);
    i := Overtakes(TreeAdded(tree, t), late, j);
    j := j + 1;
  }

  /** A newcomer comes before a thread of its priority with a later key. */
  lemma Overtakes(tree: Tree, late: Thread, j: nat) returns (i: nat)
    requires j < |tree.nodes| && tree.nodes[j].thread.prio == late.prio && tree.nextKey < tree.nodes[j].key
    ensures var q := Threads(TreeAdded(tree, late).nodes);
            i <= j && j + 1 < |q| && q[i] == late && q[j + 1] == tree.nodes[j].thread
  {
    var m := Node(late, tree.nextKey);
    RankAtMost(tree.nodes, m, j);
    TreeAddedThreads(tree, late);
    i := Rank(tree.nodes, m);
    InsertEarlier(Threads(tree.nodes), i, j, late);
  }

  lemma InsertEarlier(q: seq<Thread>, k: nat, j: nat, t: Thread)
    requires k <= j < |q|
    ensures |InsertAt(q, k, t)| == |q| + 1 && InsertAt(q, k, t)[k] == t && InsertAt(q, k, t)[j + 1] == q[j]
  {
  }

  lemma CounterStartsLow(tree: Tree, t: Thread) returns (j: nat)
    requires tree.nextKey == LAST_KEY && |tree.nodes| < LAST_KEY
    ensures var r := TreeAdded(tree, t);
            r.nextKey == |tree.nodes| && j < |r.nodes| && r.nodes[j] == Node(t, LAST_KEY)
  {
    j := Rank(Walk(tree), Node(t, LAST_KEY));
    assert TreeAdded(tree, t).nodes == InsertAt(Walk(tree), j, Node(t, LAST_KEY));
  }

  lemma RenumberingLosesArrivalOrder(first: Thread, early: Thread, late: Thread)
    requires first.prio == early.prio == late.prio
    ensures var tree := Tree([Node(first, 5)], LAST_KEY);
            && TreeAdded(tree, early) == Tree([Node(first, 0), Node(early, LAST_KEY)], 1)
            && Threads(TreeAdded(TreeAdded(tree, early), late).nodes) == [first, late, early]
            && Added([first, early], late) == [first, early, late]
  {
    var tree, middle := Tree([Node(first, 5)], LAST_KEY), Tree([Node(first, 0), Node(early, LAST_KEY)], 1);
    assert Walk(tree) == [Node(first, 0)];
    assert Rank([Node(first, 0)], Node(early, LAST_KEY)) == 1;
    assert Rank(middle.nodes, Node(late, 1)) == 1;
    assert middle.nodes[1..] == [Node(early, LAST_KEY)];
    assert Prios([first, early])[1..] == [early.prio];
    assert Slot(Prios([first, early]), late.prio) == 2;
  }

  lemma KeysBelow(tree: Tree, t: Thread)
    requires KeyIsLatest(tree, t)
    ensures forall i :: 0 <= i < |Walk(tree)| && Walk(tree)[i].thread.prio == t.prio ==> Walk(tree)[i].key <= tree.nextKey
  {
    forall i | 0 <= i < |tree.nodes| && Walk(tree)[i].thread.prio == t.prio
      ensures Walk(tree)[i].key <= tree.nextKey
    {
      assert Threads(tree.nodes)[i] == Threads(Walk(tree))[i];
      assert tree.nodes[i] in tree.nodes;
    }
  }

  lemma RankAtMost(nodes: seq<Node>, n: Node, i: nat)
    requires i < |nodes| && LessThan(n, nodes[i])
    ensures Rank(nodes, n) <= i
  {
  }

  lemma RankTooEarly(tree: Tree, t: Thread)
    requires Ascending(Prios(Threads(tree.nodes))) && !KeyIsLatest(tree, t)
    ensures Rank(Walk(tree), Node(t, tree.nextKey)) < Slot(Prios(Threads(tree.nodes)), t.prio)
  {
    var m :| m in tree.nodes && m.thread.prio == t.prio && m.key > tree.nextKey;
    var i :| 0 <= i < |tree.nodes| && tree.nodes[i] == m;
    assert Threads(Walk(tree))[i] == Threads(tree.nodes)[i];
    RankAtMost(Walk(tree), Node(t, tree.nextKey), i);
    SlotAbove(Prios(Threads(tree.nodes)), t.prio, i);
  }

  /** Keys were handed out in increasing order and have not wrapped: they are all
      different, and the walk is in order of priority and then of key. */
  ghost predicate KeysInOrder(tree: Tree) {
    && InKeyOrder(tree.nodes)
    && (forall n :: n in tree.nodes ==> n.key < tree.nextKey)
  }

  ghost predicate InKeyOrder(nodes: seq<Node>) {
    nodes == [] || (ComesFirst(nodes[0], nodes[1..]) && InKeyOrder(nodes[1..]))
  }

  ghost predicate ComesFirst(n: Node, rest: seq<Node>) {
    forall m :: m in rest ==> LessThan(n, m) && n.key != m.key
  }

  lemma {:induction false} KeyOrderSorted(nodes: seq<Node>)
    requires InKeyOrder(nodes)
    ensures Sorted(nodes)
  {
    if nodes != [] {
      KeyOrderSorted(nodes[1..]);
    }
  }

  lemma FirstOfInserted(first: Node, rest: seq<Node>, k: nat, n: Node)
    requires ComesFirst(first, rest) && LessThan(first, n) && first.key != n.key && k <= |rest|
    ensures ComesFirst(first, InsertAt(rest, k, n))
  {
  }

  /** A key later than all others takes its place in the order. */
  lemma {:induction false} InsertKeyOrder(nodes: seq<Node>, n: Node)
    requires InKeyOrder(nodes) && forall m :: m in nodes ==> m.key < n.key
    ensures InKeyOrder(InsertAt(nodes, Rank(nodes, n), n))
  {
    if nodes == [] || LessThan(n, nodes[0]) {
      var r := InsertAt(nodes, 0, n);
      assert r[0] == n && r[1..] == nodes;
    } else {
      var tail := nodes[1..];
      InsertKeyOrder(tail, n);
      InsertTail(nodes, n);
      assert nodes[0] in nodes;
      FirstOfInserted(nodes[0], tail, Rank(tail, n), n);
      var rest := InsertAt(tail, Rank(tail, n), n);
      assert ([nodes[0]] + rest)[1..] == rest;
    }
  }

  lemma LatestIsLast(tree: Tree, t: Thread)
    requires KeyIsLatest(tree, t)
    ensures Threads(TreeAdded(tree, t).nodes) == Added(Threads(tree.nodes), t)
  {
    TreeAddedThreads(tree, t);
    KeysBelow(tree, t);
    RankIsSlot(Walk(tree), Node(t, tree.nextKey));
  }

  lemma TreeAddedValid(tree: Tree, t: Thread)
    requires KeysInOrder(tree) && t !in Threads(tree.nodes)
    ensures Threads(TreeAdded(tree, t).nodes) == Added(Threads(tree.nodes), t)
    ensures tree.nextKey < LAST_KEY ==> KeysInOrder(TreeAdded(tree, t)) && TreeAdded(tree, t).nextKey == tree.nextKey + 1
  {
    KeyOrderSorted(tree.nodes);
    TreeServesArrivalOrder(tree, t);
    InsertKeyOrder(tree.nodes, Node(t, tree.nextKey));
    if tree.nextKey < LAST_KEY {
      NewKeyBelow(tree, t);
    }
  }

  lemma NewKeyBelow(tree: Tree, t: Thread)
    requires (forall n :: n in tree.nodes ==> n.key < tree.nextKey) && tree.nextKey < LAST_KEY
    ensures forall n :: n in TreeAdded(tree, t).nodes ==> n.key < tree.nextKey + 1
  {
  }

  function Dropped(nodes: seq<Node>, t: Thread): (r: seq<Node>)
    ensures Threads(r) == Without(Threads(nodes), t)
    ensures forall n :: n in r ==> n in nodes
  {
    if nodes == [] then []
    else
      assert Threads(nodes)[1..] == Threads(nodes[1..]);
      if nodes[0].thread == t then Dropped(nodes[1..], t) else [nodes[0]] + Dropped(nodes[1..], t)
  }

  lemma {:induction false} DroppedKeyOrder(nodes: seq<Node>, t: Thread)
    requires InKeyOrder(nodes)
    ensures InKeyOrder(Dropped(nodes, t))
  {
    if nodes != [] {
      DroppedKeyOrder(nodes[1..], t);
      if nodes[0].thread != t {
        assert Dropped(nodes, t)[1..] == Dropped(nodes[1..], t);
      }
    }
  }

  lemma {:induction false} DroppedSorted(nodes: seq<Node>, t: Thread)
    requires Sorted(nodes)
    ensures Sorted(Dropped(nodes, t))
  {
    if nodes != [] {
      DroppedSorted(nodes[1..], t);
      if nodes[0].thread != t {
        assert Dropped(nodes, t)[1..] == Dropped(nodes[1..], t);
      }
    }
  }

  function TreeDropped(tree: Tree, t: Thread): Tree {
    var nodes := Dropped(tree.nodes, t);
    Tree(nodes, if nodes == [] then 0 else tree.nextKey)
  }

  lemma BumpWraps(i: nat)
    ensures Bump(i % KEYS) == (i + 1) % KEYS
  {
  }

  class TreeQueue {
    var nodes: seq<Node>
    var nextKey: Key

    ghost predicate Valid()
      reads this
    {
      KeysInOrder(Now())
    }

    ghost function Contents(): seq<Thread>
      reads this
    {
      Threads(nodes)
    }

    ghost function Now(): Tree
      reads this
    {
      Tree(nodes, nextKey)
    }

    constructor ()
      ensures Valid() && Now() == Tree([], 0)
    {
      nodes, nextKey := [], 0;
    }

    method Add(t: Thread)
      modifies this
      ensures Now() == TreeAdded(old(Now()), t)
      ensures old(KeyIsLatest(Now(), t)) ==> Contents() == Added(old(Contents()), t)
      ensures old(Valid()) && t !in old(Contents()) && old(nextKey) < LAST_KEY ==> Valid() && nextKey == old(nextKey) + 1
    {
      ghost var before := Now();
      var n := Node(t, nextKey);
      nextKey := Bump(nextKey);
      if nextKey == 0 {
        Renumber();
      }
      var k := Rank(nodes, n);
      nodes := nodes[..k] + [n] + nodes[k..];
      if KeyIsLatest(before, t) {
        LatestIsLast(before, t);
      }
      if KeysInOrder(before) && t !in Threads(before.nodes) {
        TreeAddedValid(before, t);
      }
    }

    method Renumber()
      requires nextKey == 0
      modifies this
      ensures nodes == Renumbered(old(nodes)) && nextKey == |nodes| % KEYS
    {
      var i := 0;
      while i < |nodes|
        invariant 0 <= i <= |nodes| == |old(nodes)| && nextKey == i % KEYS
        invariant forall j :: 0 <= j < i ==> nodes[j] == Node(old(nodes)[j].thread, j % KEYS)
        invariant forall j :: i <= j < |nodes| ==> nodes[j] == old(nodes)[j]
      {
        nodes := nodes[i := nodes[i].(key := nextKey)];
        BumpWraps(i);
        nextKey := Bump(nextKey);
        i := i + 1;
      }
    }

    method Remove(t: Thread)
      modifies this
      ensures Now() == TreeDropped(old(Now()), t)
      ensures Contents() == Without(old(Contents()), t)
      ensures nextKey == if Contents() == [] then 0 else old(nextKey)
      ensures old(Valid()) ==> Valid()
    {
      if Valid() {
        DroppedKeyOrder(nodes, t);
      }
      nodes := Dropped(nodes, t);
      if nodes == [] {
        nextKey := 0;
      }
    }

    method Best() returns (t: Option<Thread>)
      ensures t == Head(Contents())
    {
      t := if |nodes| > 0 then Some(nodes[0].thread) else None;
    }
  }

  // -------------------------------------------------------------- interchange

  datatype Op = Queue(t: Thread) | Dequeue(t: Thread)

  /** A thread that is already queued is not queued again. */
  function Next(q: seq<Thread>, op: Op): seq<Thread> {
    match op
    case Queue(t) => if t in q then q else Added(q, t)
    case Dequeue(t) => Without(q, t)
  }

  predicate QueuesNew(q: seq<Thread>, op: Op) {
    op.Queue? && op.t !in q
  }

  lemma NextKeepsOrder(q: seq<Thread>, op: Op)
    requires Ordered(q)
    ensures Ordered(Next(q, op))
  {
    match op
    case Queue(t) => if t !in q { AddedKeepsOrder(q, t); }
    case Dequeue(t) => RemovedKeepsOrder(q, t);
  }

  /** The queued threads after a history. */
  function Replay(q: seq<Thread>, ops: seq<Op>): seq<Thread>
    decreases |ops|
  {
    if ops == [] then q else Replay(Next(q, ops[0]), ops[1..])
  }

  /** After each operation, the head of the reference list. */
  function ReferenceBests(q: seq<Thread>, ops: seq<Op>): seq<Option<Thread>>
    decreases |ops|
  {
    if ops == [] then [] else [Head(Next(q, ops[0]))] + ReferenceBests(Next(q, ops[0]), ops[1..])
  }

  predicate InRange(ops: seq<Op>, highest: int) {
    forall i :: 0 <= i < |ops| ==> highest <= ops[i].t.prio < highest + LEVELS
  }

  /** The sorted list and the multi-queue, side by side. */
  class Duo {
    const list: SortedList
    const multi: MultiQueue

    ghost function Parts(): set<object> {
      {list, multi, multi.queues}
    }

    ghost predicate Agree(q: seq<Thread>)
      reads Parts()
    {
      multi.Valid() && Ordered(q) && list.list == multi.Contents() == q
    }

    constructor (highest: int)
      ensures Agree([]) && multi.highest == highest && fresh(list) && fresh(multi) && fresh(multi.queues)
    {
      list := new SortedList();
      multi := new MultiQueue(highest);
    }

    method Apply(op: Op, ghost q: seq<Thread>)
      requires Agree(q) && multi.highest <= op.t.prio < multi.highest + LEVELS
      modifies Parts()
      ensures Agree(Next(q, op))
    {
      NextKeepsOrder(q, op);
      match op
      case Queue(t) =>
        if t !in list.list {
          list.Add(t);
          multi.Add(t);
        }
      case Dequeue(t) =>
        list.Remove(t);
        multi.Remove(t);
    }

    method Advance(op: Op, ghost q: seq<Thread>) returns (a: Option<Thread>, b: Option<Thread>)
      requires Agree(q) && multi.highest <= op.t.prio < multi.highest + LEVELS
      modifies Parts()
      ensures Agree(Next(q, op)) && a == b == Head(Next(q, op))
    {
      Apply(op, q);
      a := list.Best();
      b := multi.Best();
    }

    /** Every history of queueings and removals takes the two queues through the same
        lists, so both always name the same best thread. */
    method Lockstep(ops: seq<Op>, ghost q: seq<Thread>)
        returns (listBests: seq<Option<Thread>>, multiBests: seq<Option<Thread>>)
      requires Agree(q) && InRange(ops, multi.highest)
      modifies Parts()
      ensures Agree(Replay(q, ops)) && listBests == multiBests == ReferenceBests(q, ops)
      decreases |ops|
    {
      listBests, multiBests := [], [];
      if ops != [] {
        var a, b := Advance(ops[0], q);
        listBests, multiBests := Lockstep(ops[1..], Next(q, ops[0]));
        listBests, multiBests := [a] + listBests, [b] + multiBests;
      }
    }
  }

  // ------------------------------------------------- when the tree serves alike

  function TreeNext(tree: Tree, op: Op): Tree {
    match op
    case Queue(t) => if t in Threads(tree.nodes) then tree else TreeAdded(tree, t)
    case Dequeue(t) => TreeDropped(tree, t)
  }

  function TreeReplay(tree: Tree, ops: seq<Op>): Tree
    decreases |ops|
  {
    if ops == [] then tree else TreeReplay(TreeNext(tree, ops[0]), ops[1..])
  }

  function TreeBests(tree: Tree, ops: seq<Op>): seq<Option<Thread>>
    decreases |ops|
  {
    if ops == [] then []
    else [Head(Threads(TreeNext(tree, ops[0]).nodes))] + TreeBests(TreeNext(tree, ops[0]), ops[1..])
  }

  /** If the operation queues a thread, that thread gets the latest key of its
      priority. */
  predicate NewIsLatest(tree: Tree, op: Op) {
    QueuesNew(Threads(tree.nodes), op) ==> KeyIsLatest(tree, op.t)
  }

  lemma NextAgrees(tree: Tree, op: Op)
    requires Sorted(tree.nodes)
    ensures Threads(TreeNext(tree, op).nodes) == Next(Threads(tree.nodes), op) <==> NewIsLatest(tree, op)
  {
    if QueuesNew(Threads(tree.nodes), op) {
      TreeServesArrivalOrder(tree, op.t);
    }
  }

  lemma NextFollows(tree: Tree, op: Op)
    requires NewIsLatest(tree, op)
    ensures Threads(TreeNext(tree, op).nodes) == Next(Threads(tree.nodes), op)
  {
    if QueuesNew(Threads(tree.nodes), op) {
      LatestIsLast(tree, op.t);
    }
  }

  lemma NextSorted(tree: Tree, op: Op)
    requires Sorted(tree.nodes) && |tree.nodes| <= KEYS
    ensures Sorted(TreeNext(tree, op).nodes)
  {
    match op
    case Queue(t) => TreeAddedSorted(tree, t);
    case Dequeue(t) => DroppedSorted(tree.nodes, t);
  }

  /** No more threads are ever queued than there are keys. */
  predicate FewThreads(q: seq<Thread>, ops: seq<Op>)
    decreases |ops|
  {
    |q| <= KEYS && (ops == [] || FewThreads(Next(q, ops[0]), ops[1..]))
  }

  /** At the start and after each operation the tree holds the reference list. */
  predicate ServesAlike(tree: Tree, q: seq<Thread>, ops: seq<Op>)
    decreases |ops|
  {
    Threads(tree.nodes) == q && (ops == [] || ServesAlike(TreeNext(tree, ops[0]), Next(q, ops[0]), ops[1..]))
  }

  /** Every thread that is queued gets the latest key of its priority. */
  predicate KeysLatest(tree: Tree, ops: seq<Op>)
    decreases |ops|
  {
    ops == [] || (NewIsLatest(tree, ops[0]) && KeysLatest(TreeNext(tree, ops[0]), ops[1..]))
  }

  /** The tree serves what the other queues serve over exactly those histories. */
  lemma {:induction false} TreeAgreesExactly(tree: Tree, q: seq<Thread>, ops: seq<Op>)
    requires Sorted(tree.nodes) && Threads(tree.nodes) == q && FewThreads(q, ops)
    ensures ServesAlike(tree, q, ops) <==> KeysLatest(tree, ops)
    decreases |ops|
  {
    if ops != [] {
      NextAgrees(tree, ops[0]);
      if NewIsLatest(tree, ops[0]) {
        NextSorted(tree, ops[0]);
        TreeAgreesExactly(TreeNext(tree, ops[0]), Next(q, ops[0]), ops[1..]);
      } else {
        assert !ServesAlike(TreeNext(tree, ops[0]), Next(q, ops[0]), ops[1..]);
      }
    }
  }

  lemma {:induction false} LatestKeepsPace(tree: Tree, q: seq<Thread>, ops: seq<Op>)
    requires Threads(tree.nodes) == q && KeysLatest(tree, ops)
    ensures Threads(TreeReplay(tree, ops).nodes) == Replay(q, ops) && TreeBests(tree, ops) == ReferenceBests(q, ops)
    decreases |ops|
  {
    if ops != [] {
      NextFollows(tree, ops[0]);
      LatestKeepsPace(TreeNext(tree, ops[0]), Next(q, ops[0]), ops[1..]);
    }
  }

  /** How many keys have been handed out since the tree was last empty. */
  function KeysNext(q: seq<Thread>, keys: nat, op: Op): nat {
    if Next(q, op) == [] then 0 else if QueuesNew(q, op) then keys + 1 else keys
  }

  /** The counter does not come round between two moments at which the tree is empty,
      except with the last operation. */
  predicate KeysFit(q: seq<Thread>, keys: nat, ops: seq<Op>)
    decreases |ops|
  {
    ops == [] || (keys < KEYS && KeysFit(Next(q, ops[0]), KeysNext(q, keys, ops[0]), ops[1..]))
  }

  lemma NextValid(tree: Tree, op: Op)
    requires KeysInOrder(tree)
    ensures NewIsLatest(tree, op)
    ensures tree.nextKey < LAST_KEY || !QueuesNew(Threads(tree.nodes), op) ==>
              KeysInOrder(TreeNext(tree, op)) &&
              TreeNext(tree, op).nextKey == KeysNext(Threads(tree.nodes), tree.nextKey, op)
  {
    match op
    case Queue(t) => if t !in Threads(tree.nodes) { TreeAddedValid(tree, t); }
    case Dequeue(t) => DroppedKeyOrder(tree.nodes, t);
  }

  /** Which is so for every history in which the counter does not come round. */
  lemma {:induction false} KeysFitLatest(tree: Tree, ops: seq<Op>)
    requires KeysInOrder(tree) && KeysFit(Threads(tree.nodes), tree.nextKey, ops)
    ensures KeysLatest(tree, ops)
    decreases |ops|
  {
    if ops != [] {
      var op := ops[0];
      NextValid(tree, op);
      NextFollows(tree, op);
      if tree.nextKey < LAST_KEY || !QueuesNew(Threads(tree.nodes), op) {
        KeysFitLatest(TreeNext(tree, op), ops[1..]);
      }
    }
  }

  /** All three: the tree beside the other two. */
  class Trio {
    const duo: Duo
    const tree: TreeQueue

    ghost function Parts(): set<object> {
      duo.Parts() + {tree}
    }

    ghost predicate Agree(q: seq<Thread>, t: Tree)
      reads Parts()
    {
      duo.Agree(q) && tree.Now() == t && tree !in duo.Parts()
    }

    constructor (highest: int)
      ensures Agree([], Tree([], 0)) && duo.multi.highest == highest
      ensures fresh(duo.list) && fresh(duo.multi) && fresh(duo.multi.queues) && fresh(tree)
    {
      duo := new Duo(highest);
      tree := new TreeQueue();
    }

    method ApplyTree(op: Op)
      modifies tree
      ensures tree.Now() == TreeNext(old(tree.Now()), op)
    {
      match op
      case Queue(t) =>
        var queued := IsQueued(t);
        if !queued {
          tree.Add(t);
        }
      case Dequeue(t) =>
        tree.Remove(t);
    }

    method IsQueued(t: Thread) returns (b: bool)
      ensures b <==> t in tree.Contents()
    {
      b := exists i :: 0 <= i < |tree.nodes| && tree.nodes[i].thread == t;
      assert b ==> t in tree.Contents() by {
        if i :| 0 <= i < |tree.nodes| && tree.nodes[i].thread == t {
          assert tree.Contents()[i] == t;
        }
      }
    }

    method Advance(op: Op, ghost q: seq<Thread>, ghost t: Tree)
        returns (a: Option<Thread>, b: Option<Thread>, c: Option<Thread>)
      requires Agree(q, t) && duo.multi.highest <= op.t.prio < duo.multi.highest + LEVELS
      modifies Parts()
      ensures Agree(Next(q, op), TreeNext(t, op))
      ensures a == b == Head(Next(q, op)) && c == Head(Threads(TreeNext(t, op).nodes))
    {
      a, b := duo.Advance(op, q);
      ApplyTree(op);
      c := tree.Best();
    }

    method LockstepBody(ops: seq<Op>, ghost q: seq<Thread>, ghost t: Tree)
        returns (listBests: seq<Option<Thread>>, multiBests: seq<Option<Thread>>, treeBests: seq<Option<Thread>>)
      requires Agree(q, t) && InRange(ops, duo.multi.highest)
      modifies Parts()
      ensures Agree(Replay(q, ops), TreeReplay(t, ops))
      ensures listBests == multiBests == ReferenceBests(q, ops) && treeBests == TreeBests(t, ops)
      decreases |ops|
    {
      listBests, multiBests, treeBests := [], [], [];
      if ops != [] {
        var a, b, c := Advance(ops[0], q, t);
        listBests, multiBests, treeBests := LockstepBody(ops[1..], Next(q, ops[0]), TreeNext(t, ops[0]));
        listBests, multiBests, treeBests := [a] + listBests, [b] + multiBests, [c] + treeBests;
      }
    }

    /** Every history takes the list and the multi-queue through the reference lists,
        and the tree with them if it hands out the latest keys: then all three always
        name the same best thread. */
    method Lockstep(ops: seq<Op>, ghost q: seq<Thread>, ghost t: Tree)
        returns (listBests: seq<Option<Thread>>, multiBests: seq<Option<Thread>>, treeBests: seq<Option<Thread>>)
      requires Agree(q, t) && Threads(t.nodes) == q && InRange(ops, duo.multi.highest)
      modifies Parts()
      ensures Agree(Replay(q, ops), TreeReplay(t, ops)) && listBests == multiBests == ReferenceBests(q, ops)
      ensures KeysLatest(t, ops) ==> tree.Contents() == Replay(q, ops) && treeBests == ReferenceBests(q, ops)
    {
      listBests, multiBests, treeBests := LockstepBody(ops, q, t);
      if KeysLatest(t, ops) {
        LatestKeepsPace(t, q, ops);
      }
    }
  }
}
