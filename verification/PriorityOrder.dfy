/** The place a thread takes in a priority-ordered list, and what insertion and
    removal keep.  A smaller number is a higher priority, and a newcomer goes
    after every occupant of the same priority. */
module PriorityOrder {

  /** Index of the first occupant that the newcomer beats. */
  function Slot(prios: seq<int>, prio: int): (k: nat)
    ensures k <= |prios|
    ensures forall i :: 0 <= i < k ==> prios[i] <= prio
    ensures k < |prios| ==> prio < prios[k]
  {
    if prios == [] || prio < prios[0] then 0 else 1 + Slot(prios[1..], prio)
  }

  function InsertAt<T>(q: seq<T>, k: nat, x: T): (r: seq<T>)
    requires k <= |q|
    ensures |r| == |q| + 1 && r[k] == x
  {
    q[..k] + [x] + q[k..]
  }

  lemma InsertBehind<T>(a: seq<T>, b: seq<T>, k: nat, x: T)
    requires k <= |b|
    ensures InsertAt(a + b, |a| + k, x) == a + InsertAt(b, k, x)
  {
  }

  lemma InsertMembers<T>(q: seq<T>, k: nat, x: T)
    requires k <= |q|
    ensures multiset(InsertAt(q, k, x)) == multiset(q) + multiset{x}
  {
    assert q == q[..k] + q[k..];
  }

  predicate Ascending(prios: seq<int>) {
    forall i, j :: 0 <= i < j < |prios| ==> prios[i] <= prios[j]
  }

  /** Occupants that the newcomer does not beat are all passed over. */
  lemma {:induction false} SlotPasses(ahead: seq<int>, rest: seq<int>, prio: int)
    requires forall i :: 0 <= i < |ahead| ==> ahead[i] <= prio
    ensures Slot(ahead + rest, prio) == |ahead| + Slot(rest, prio)
  {
    if ahead == [] {
      assert ahead + rest == rest;
    } else {
      SlotPasses(ahead[1..], rest, prio);
      assert (ahead + rest)[1..] == ahead[1..] + rest;
    }
  }

  /** The slot is where a walk that passes every occupant not beaten comes to rest. */
  lemma SlotAt(prios: seq<int>, prio: int, k: nat)
    requires k <= |prios| && forall i :: 0 <= i < k ==> prios[i] <= prio
    requires k < |prios| ==> prio < prios[k]
    ensures k == Slot(prios, prio)
  {
    SlotPasses(prios[..k], prios[k..], prio);
    assert prios[..k] + prios[k..] == prios;
  }

  /** Walk past every occupant that the newcomer does not beat. */
  method FindSlot(prios: seq<int>, prio: int) returns (k: nat)
    ensures k == Slot(prios, prio)
  {
    k := 0;
    while k < |prios| && prios[k] <= prio
      invariant k <= |prios| && forall i :: 0 <= i < k ==> prios[i] <= prio
    {
      k := k + 1;
    }
    SlotAt(prios, prio, k);
  }

  lemma SlotAbove(prios: seq<int>, prio: int, i: nat)
    requires Ascending(prios) && i < |prios| && prios[i] <= prio
    ensures i < Slot(prios, prio)
  {
  }

  lemma InsertKeepsAscending(prios: seq<int>, prio: int)
    requires Ascending(prios)
    ensures Ascending(InsertAt(prios, Slot(prios, prio), prio))
  {
  }

  /** The list with every occurrence of x taken out. */
  function Without<T(==, !new)>(q: seq<T>, x: T): (r: seq<T>)
    ensures forall y :: y in r <==> y in q && y != x
    ensures x !in q ==> r == q
    ensures |r| <= |q|
  {
    if q == [] then []
    else if q[0] == x then Without(q[1..], x)
    else [q[0]] + Without(q[1..], x)
  }

  predicate NoDup<T(==, !new)>(q: seq<T>) {
    forall i, j :: 0 <= i < j < |q| ==> q[i] != q[j]
  }

  lemma {:induction false} WithoutSplit<T(!new)>(a: seq<T>, x: T, b: seq<T>)
    requires x !in a && x !in b
    ensures Without(a + [x] + b, x) == a + b
  {
    if a == [] {
      assert (a + [x] + b)[1..] == b;
      assert a + b == b;
    } else {
      WithoutSplit(a[1..], x, b);
      assert (a + [x] + b)[1..] == a[1..] + [x] + b;
      assert a + b == [a[0]] + (a[1..] + b);
    }
  }

  /** In a list without repeats, taking x out closes the gap it leaves. */
  lemma WithoutAt<T(!new)>(q: seq<T>, k: nat)
    requires NoDup(q) && k < |q|
    ensures Without(q, q[k]) == q[..k] + q[k + 1..]
  {
    assert q == q[..k] + [q[k]] + q[k + 1..];
    WithoutSplit(q[..k], q[k], q[k + 1..]);
  }

  lemma {:induction false} WithoutMembers<T(!new)>(q: seq<T>, x: T)
    requires NoDup(q) && x in q
    ensures multiset(Without(q, x)) + multiset{x} == multiset(q)
  {
    var tail := q[1..];
    assert q == [q[0]] + tail;
    if q[0] != x {
      WithoutMembers(tail, x);
    } else {
      assert x !in tail;
    }
  }

  /** Everyone behind the newcomer is beaten by it. */
  lemma BehindSlot(prios: seq<int>, prio: int, j: nat)
    requires Ascending(prios) && Slot(prios, prio) <= j < |prios|
    ensures prios[j] > prio
  {
    assert Slot(prios, prio) < j ==> prios[Slot(prios, prio)] <= prios[j];
  }

  lemma GapAscending(prios: seq<int>, k: nat)
    requires Ascending(prios) && k < |prios|
    ensures Ascending(prios[..k] + prios[k + 1..])
  {
    var r := prios[..k] + prios[k + 1..];
    forall i, j | 0 <= i < j < |r| ensures r[i] <= r[j] {
      assert r[i] == prios[if i < k then i else i + 1];
      assert r[j] == prios[if j < k then j else j + 1];
    }
  }

  lemma GapNoDup<T(!new)>(q: seq<T>, k: nat)
    requires NoDup(q) && k < |q|
    ensures NoDup(q[..k] + q[k + 1..])
  {
    var r := q[..k] + q[k + 1..];
    forall i, j | 0 <= i < j < |r| ensures r[i] != r[j] {
      assert r[i] == q[if i < k then i else i + 1];
      assert r[j] == q[if j < k then j else j + 1];
    }
  }

  lemma {:induction false} WithoutConcat<T(!new)>(a: seq<T>, b: seq<T>, x: T)
    ensures Without(a + b, x) == Without(a, x) + Without(b, x)
  {
    if a == [] {
      assert a + b == b;
    } else {
      var head := if a[0] == x then [] else [a[0]];
      calc {
        Without(a + b, x);
        { assert (a + b)[1..] == a[1..] + b; }
        head + Without(a[1..] + b, x);
        { WithoutConcat(a[1..], b, x); }
        head + (Without(a[1..], x) + Without(b, x));
        Without(a, x) + Without(b, x);
      }
    }
  }

  lemma {:induction false} WithoutNoDup<T(!new)>(q: seq<T>, x: T)
    requires NoDup(q)
    ensures NoDup(Without(q, x))
  {
    if x in q {
      var k :| 0 <= k < |q| && q[k] == x;
      WithoutAt(q, k);
      GapNoDup(q, k);
    }
  }

  lemma InsertKeepsNoDup<T(!new)>(q: seq<T>, k: nat, x: T)
    requires NoDup(q) && k <= |q| && x !in q
    ensures NoDup(InsertAt(q, k, x))
  {
  }

  /** Search for x and unlink it. */
  method Unlinked<T(==, !new)>(q: seq<T>, x: T) returns (r: seq<T>)
    requires NoDup(q)
    ensures r == Without(q, x)
  {
    var k := 0;
    while k < |q| && q[k] != x
      invariant k <= |q| && forall i :: 0 <= i < k ==> q[i] != x
    {
      k := k + 1;
    }
    if k == |q| {
      return q;
    }
    WithoutAt(q, k);
    r := q[..k] + q[k + 1..];
  }

  /** The newcomer stands behind everyone it does not beat and before the others, who
      keep their order. */
  ghost predicate Joins<T>(before: seq<T>, prios: seq<int>, x: T, prio: int, after: seq<T>) {
    |prios| == |before| &&
    exists k: nat :: k <= |before| && after == before[..k] + [x] + before[k..] && Divides(prios, prio, k)
  }

  ghost predicate Divides(prios: seq<int>, prio: int, k: nat) {
    (forall i :: 0 <= i < k && i < |prios| ==> prios[i] <= prio) && (forall i :: k <= i < |prios| ==> prio < prios[i])
  }

  lemma SlotJoins<T>(q: seq<T>, prios: seq<int>, x: T, prio: int)
    requires Ascending(prios) && |prios| == |q|
    ensures Joins(q, prios, x, prio, InsertAt(q, Slot(prios, prio), x))
  {
    var k := Slot(prios, prio);
    forall i | k <= i < |prios| ensures prio < prios[i] {
      assert i == k || prios[k] <= prios[i];
    }
    assert Divides(prios, prio, k);
  }
}
