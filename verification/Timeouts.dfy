/** The kernel's timeout queue: a list in which each entry holds the number of
    ticks after the one before it.  Its meaning is a map from timeout to absolute
    deadline, kept in order of deadline and then of insertion. */
module Timeouts {
  import opened Common

  datatype Node = Node(id: nat, dticks: nat)

  /** `remaining` is not zero only while an announcement is being worked through. */
  datatype Queue = Queue(tick: nat, remaining: nat, list: seq<Node>)

  datatype Due = Due(id: nat, deadline: nat)

  /** The absolute deadlines of a list that starts at `base`, in list order. */
  function Dues(base: nat, list: seq<Node>): (r: seq<Due>)
    ensures |r| == |list|
    decreases |list|
  {
    if list == [] then []
    else [Due(list[0].id, base + list[0].dticks)] + Dues(base + list[0].dticks, list[1..])
  }

  /** The same as a map: the deadline of one timeout. */
  function Deadline(base: nat, list: seq<Node>, id: nat): Option<nat>
    decreases |list|
  {
    if list == [] then None
    else if list[0].id == id then Some(base + list[0].dticks)
    else Deadline(base + list[0].dticks, list[1..], id)
  }

  predicate Linked(list: seq<Node>, id: nat) {
    list != [] && (list[0].id == id || Linked(list[1..], id))
  }

  predicate Distinct(list: seq<Node>) {
    list == [] || (!Linked(list[1..], list[0].id) && Distinct(list[1..]))
  }

  // ------------------------------------------------------------------ requests

  const FOREVER: int := -1

  /** Absolute expiry times are packed into the numbers below `FOREVER`. */
  function TickAbs(t: int): int {
    FOREVER - 1 - t
  }

  /** Ticks from now that a request asks for: at least one always passes. */
  function Ticks(request: int, now: nat): (r: nat)
  {
    Max(1, if TickAbs(request + 1) >= 0 then TickAbs(request) - now else request + 1)
  }

  /** A request for `d` ticks expires `d + 1` ticks from now, rounding up, and a
      request for absolute time `t` expires then, or on the next tick if that is past. */
  lemma TicksLand(now: nat, d: nat, t: nat)
    ensures now + Ticks(d, now) == now + d + 1
    ensures now + Ticks(TickAbs(t), now) == Max(t, now + 1)
  {
  }

  /** Ticks that have passed since the last announcement, as the queue sees them. */
  function Elapsed(q: Queue, clock: nat): nat {
    if q.remaining == 0 then clock else 0
  }

  function Now(q: Queue, clock: nat): nat {
    q.tick + Elapsed(q, clock)
  }

  // ---------------------------------------------------------------- the list

  function Insert(list: seq<Node>, id: nat, d: nat): (r: seq<Node>)
    ensures |r| == |list| + 1
  {
    if list == [] then [Node(id, d)]
    else if list[0].dticks > d then [Node(id, d)] + [list[0].(dticks := list[0].dticks - d)] + list[1..]
    else [list[0]] + Insert(list[1..], id, d - list[0].dticks)
  }

  function Remove(list: seq<Node>, id: nat): (r: seq<Node>)
  {
    if list == [] then []
    else if list[0].id != id then [list[0]] + Remove(list[1..], id)
    else if |list| == 1 then []
    else [list[1].(dticks := list[1].dticks + list[0].dticks)] + list[2..]
  }

  /** Behind every entry that is not later. */
  function Placed(ds: seq<Due>, x: Due): seq<Due> {
    if ds == [] || x.deadline < ds[0].deadline then [x] + ds
    else [ds[0]] + Placed(ds[1..], x)
  }

  lemma {:induction false} PlacedOrder(ds: seq<Due>, x: Due) returns (k: nat)
    ensures k <= |ds| && Placed(ds, x) == ds[..k] + [x] + ds[k..]
    ensures forall i :: 0 <= i < k ==> ds[i].deadline <= x.deadline
    ensures k < |ds| ==> x.deadline < ds[k].deadline
  {
    if ds == [] || x.deadline < ds[0].deadline {
      k := 0;
    } else {
      k := PlacedOrder(ds[1..], x);
      Shift(ds, k, x);
      assert forall i :: 0 < i < k + 1 ==> ds[i] == ds[1..][i - 1];
      k := k + 1;
    }
  }

  lemma Shift(ds: seq<Due>, k: nat, x: Due)
    requires k < |ds|
    ensures [ds[0]] + (ds[1..][..k] + [x] + ds[1..][k..]) == ds[..k + 1] + [x] + ds[k + 1..]
  {
  }

  /** Adding puts the new deadline behind every one that is not later, and moves
      no other. */
  lemma {:induction false} InsertMeaning(base: nat, list: seq<Node>, id: nat, d: nat)
    ensures Dues(base, Insert(list, id, d)) == Placed(Dues(base, list), Due(id, base + d))
    decreases |list|
  {
    var r := Insert(list, id, d);
    if list == [] {
    } else if list[0].dticks > d {
      assert r[1..][1..] == list[1..] && r[1..][0] == Node(list[0].id, list[0].dticks - d);
      assert Dues(base + d, r[1..]) == Dues(base, list);
    } else {
      InsertMeaning(base + list[0].dticks, list[1..], id, d - list[0].dticks);
      assert r[1..] == Insert(list[1..], id, d - list[0].dticks);
    }
  }

  /** ... as a map: one key more. */
  lemma {:induction false} InsertDeadline(base: nat, list: seq<Node>, id: nat, d: nat, j: nat)
    requires !Linked(list, id)
    ensures Deadline(base, Insert(list, id, d), j) == if j == id then Some(base + d) else Deadline(base, list, j)
    ensures Linked(Insert(list, id, d), j) <==> j == id || Linked(list, j)
    decreases |list|
  {
    var r := Insert(list, id, d);
    if list == [] {
    } else if list[0].dticks > d {
      assert r[1..][1..] == list[1..] && r[1..][0] == Node(list[0].id, list[0].dticks - d);
    } else {
      InsertDeadline(base + list[0].dticks, list[1..], id, d - list[0].dticks, j);
      assert r[1..] == Insert(list[1..], id, d - list[0].dticks);
    }
  }

  lemma {:induction false} InsertDistinct(list: seq<Node>, id: nat, d: nat)
    requires Distinct(list) && !Linked(list, id)
    ensures Distinct(Insert(list, id, d))
  {
    var r := Insert(list, id, d);
    if list == [] {
    } else if list[0].dticks > d {
      assert r[1..][1..] == list[1..] && r[1..][0] == Node(list[0].id, list[0].dticks - d);
    } else {
      InsertDistinct(list[1..], id, d - list[0].dticks);
      InsertDeadline(0, list[1..], id, d - list[0].dticks, list[0].id);
      assert r[1..] == Insert(list[1..], id, d - list[0].dticks);
    }
  }

  /** Removing takes one deadline out and moves no other. */
  lemma {:induction false} RemoveDeadline(base: nat, list: seq<Node>, id: nat, j: nat)
    requires Distinct(list)
    ensures Deadline(base, Remove(list, id), j) == if j == id then None else Deadline(base, list, j)
    ensures Linked(Remove(list, id), j) <==> j != id && Linked(list, j)
    decreases |list|
  {
    var r := Remove(list, id);
    if list == [] {
    } else if list[0].id != id {
      RemoveDeadline(base + list[0].dticks, list[1..], id, j);
      assert r[1..] == Remove(list[1..], id);
    } else {
      Unlinked(base + list[0].dticks, list[1..], id);
      if |list| > 1 {
        assert r[1..] == list[2..] == list[1..][1..];
      }
    }
  }

  lemma {:induction false} Unlinked(base: nat, list: seq<Node>, id: nat)
    ensures Deadline(base, list, id).Some? <==> Linked(list, id)
    ensures !Linked(list, id) ==> Remove(list, id) == list
    decreases |list|
  {
    if list != [] {
      Unlinked(base + list[0].dticks, list[1..], id);
    }
  }

  /** ... and keeps the order of the rest. */
  lemma {:induction false} RemoveMeaning(base: nat, list: seq<Node>, id: nat)
    requires Distinct(list)
    ensures Dues(base, Remove(list, id)) == OtherDues(Dues(base, list), id)
    decreases |list|
  {
    if list != [] {
      var b := base + list[0].dticks;
      RemoveMeaning(b, list[1..], id);
      assert Dues(base, list)[1..] == Dues(b, list[1..]);
      if list[0].id != id {
        assert Remove(list, id)[1..] == Remove(list[1..], id);
      } else {
        Unlinked(b, list[1..], id);
        RemoveHead(base, list);
      }
    }
  }

  lemma RemoveHead(base: nat, list: seq<Node>)
    requires list != []
    ensures Dues(base, Remove(list, list[0].id)) == Dues(base + list[0].dticks, list[1..])
  {
    if |list| > 1 {
      var r := Remove(list, list[0].id);
      assert r[1..] == list[2..] && list[1..][1..] == list[2..] && list[1..][0] == list[1];
    }
  }

  function OtherDues(ds: seq<Due>, id: nat): seq<Due> {
    if ds == [] then []
    else if ds[0].id == id then OtherDues(ds[1..], id)
    else [ds[0]] + OtherDues(ds[1..], id)
  }

  lemma {:induction false} RemoveDistinct(list: seq<Node>, id: nat)
    requires Distinct(list)
    ensures Distinct(Remove(list, id))
  {
    var r := Remove(list, id);
    if list == [] {
    } else if list[0].id != id {
      RemoveDistinct(list[1..], id);
      RemoveDeadline(0, list[1..], id, list[0].id);
      assert r[1..] == Remove(list[1..], id);
    } else if |list| > 1 {
      assert r[1..] == list[2..] == list[1..][1..];
    }
  }

  // ---------------------------------------------------------------- operations

  datatype Cmd = Add(id: nat, request: int) | Abort(id: nat)

  /** One call to add or abort a timeout.  A timeout that is already linked must
      not be added, so such a call is not made. */
  function Do(q: Queue, c: Cmd, clock: nat): Queue {
    match c
    case Add(id, request) =>
      if request == FOREVER || Linked(q.list, id) then q
      else q.(list := Insert(q.list, id, Ticks(request, Now(q, clock)) + Elapsed(q, clock)))
    case Abort(id) => q.(list := Remove(q.list, id))
  }

  function DeadlineIn(q: Queue, id: nat): Option<nat> {
    Deadline(q.tick, q.list, id)
  }

  /** What callers mean by the two calls: only the named timeout's deadline changes. */
  lemma DoDeadline(q: Queue, c: Cmd, clock: nat, j: nat)
    requires Distinct(q.list)
    ensures var r := Do(q, c, clock);
            Distinct(r.list) && r.tick == q.tick && r.remaining == q.remaining &&
            DeadlineIn(r, j) ==
              if j != c.id then DeadlineIn(q, j)
              else if c.Abort? then None
              else if DeadlineIn(q, j).Some? || c.request == FOREVER then DeadlineIn(q, j)
              else Some(Now(q, clock) + Ticks(c.request, Now(q, clock)))
  {
    Unlinked(q.tick, q.list, c.id);
    match c
    case Add(id, request) =>
      if request != FOREVER && !Linked(q.list, id) {
        var d := Ticks(request, Now(q, clock)) + Elapsed(q, clock);
        InsertDeadline(q.tick, q.list, id, d, j);
        InsertDistinct(q.list, id, d);
      }
    case Abort(id) =>
      RemoveDeadline(q.tick, q.list, id, j);
      RemoveDistinct(q.list, id);
  }

  function DoAll(q: Queue, cs: seq<Cmd>, clock: nat): Queue
    decreases |cs|
  {
    if cs == [] then q else DoAll(Do(q, cs[0], clock), cs[1..], clock)
  }

  predicate Names(cs: seq<Cmd>, id: nat) {
    exists i :: 0 <= i < |cs| && cs[i].id == id
  }

  lemma {:induction false} DoAllDeadline(q: Queue, cs: seq<Cmd>, clock: nat, j: nat)
    requires Distinct(q.list)
    ensures var r := DoAll(q, cs, clock);
            Distinct(r.list) && r.tick == q.tick && r.remaining == q.remaining &&
            (!Names(cs, j) ==> DeadlineIn(r, j) == DeadlineIn(q, j))
    decreases |cs|
  {
    if cs != [] {
      DoDeadline(q, cs[0], clock, j);
      DoAllDeadline(Do(q, cs[0], clock), cs[1..], clock, j);
      assert Names(cs[1..], j) ==> Names(cs, j) by {
        if i :| 0 <= i < |cs[1..]| && cs[1..][i].id == j {
          assert cs[i + 1].id == j;
        }
      }
    }
  }

  // ------------------------------------------------------------- announcements

  datatype Fired = Fired(id: nat, tick: nat)

  /** A handler sees the queue, which timeout fired and everything that fired before. */
  type Handler = (Queue, nat, seq<Fired>) -> seq<Cmd>

  function Zeros(list: seq<Node>): nat {
    if list == [] || list[0].dticks != 0 then 0 else 1 + Zeros(list[1..])
  }

  /** New timeouts are at least one tick away, so no call adds to the entries that
      are due at once. */
  lemma {:induction false} InsertZeros(list: seq<Node>, id: nat, d: nat)
    requires d >= 1
    ensures Zeros(Insert(list, id, d)) == Zeros(list)
  {
    if list != [] && list[0].dticks == 0 {
      InsertZeros(list[1..], id, d);
      assert Insert(list, id, d)[1..] == Insert(list[1..], id, d);
    }
  }

  lemma {:induction false} RemoveZeros(list: seq<Node>, id: nat)
    ensures Zeros(Remove(list, id)) <= Zeros(list)
  {
    if list != [] && list[0].dticks == 0 {
      var r := Remove(list, id);
      if list[0].id != id {
        RemoveZeros(list[1..], id);
        assert r[1..] == Remove(list[1..], id);
      } else if |list| > 1 {
        assert r == list[1..];
      }
    }
  }

  lemma {:induction false} DoAllZeros(q: Queue, cs: seq<Cmd>, clock: nat)
    ensures var r := DoAll(q, cs, clock);
            Zeros(r.list) <= Zeros(q.list) && r.tick == q.tick && r.remaining == q.remaining
    decreases |cs|
  {
    if cs != [] {
      match cs[0] {
        case Add(id, request) =>
          InsertZeros(q.list, id, Ticks(request, Now(q, clock)) + Elapsed(q, clock));
        case Abort(id) =>
          RemoveZeros(q.list, id);
      }
      DoAllZeros(Do(q, cs[0], clock), cs[1..], clock);
    }
  }

  predicate IsDue(q: Queue) {
    q.list != [] && q.list[0].dticks <= q.remaining
  }

  /** Time moves to the deadline of the first entry, which leaves the list. */
  function Pop(q: Queue): Queue
    requires IsDue(q)
  {
    var dt := q.list[0].dticks;
    Queue(q.tick + dt, q.remaining - dt, q.list[1..])
  }

  /** Nothing is due: time moves to the end of the announcement. */
  function Settle(q: Queue): (r: Queue)
    requires !IsDue(q)
  {
    Queue(q.tick + q.remaining, 0,
          if q.list == [] then [] else [q.list[0].(dticks := q.list[0].dticks - q.remaining)] + q.list[1..])
  }

  function Fire(q: Queue, log: seq<Fired>, h: Handler, clock: nat): (Queue, seq<Fired>)
    decreases q.remaining, Zeros(q.list)
  {
    if !IsDue(q) then (Settle(q), log)
    else
      var id, p := q.list[0].id, Pop(q);
      var cs := h(p, id, log);
      DoAllZeros(p, cs, clock);
      Fire(DoAll(p, cs, clock), log + [Fired(id, p.tick)], h, clock)
  }

  function Announce(q: Queue, ticks: nat, log: seq<Fired>, h: Handler, clock: nat): (Queue, seq<Fired>) {
    Fire(q.(remaining := ticks), log, h, clock)
  }

  lemma SettleDeadline(q: Queue, j: nat)
    requires !IsDue(q)
    ensures DeadlineIn(Settle(q), j) == DeadlineIn(q, j)
    ensures Distinct(q.list) ==> Distinct(Settle(q).list)
    ensures DeadlineIn(q, j).Some? ==> DeadlineIn(q, j).value > Settle(q).tick
  {
    if q.list != [] {
      assert Settle(q).list[1..] == q.list[1..];
      DeadlineAfter(q.tick + q.list[0].dticks, q.list[1..], j);
    }
  }

  lemma {:induction false} DeadlineAfter(base: nat, list: seq<Node>, j: nat)
    ensures Deadline(base, list, j).Some? ==> Deadline(base, list, j).value >= base
    decreases |list|
  {
    if list != [] {
      DeadlineAfter(base + list[0].dticks, list[1..], j);
    }
  }

  /** The loop pops the earliest deadline at exactly that tick, and no other moves. */
  lemma PopDeadline(q: Queue, j: nat)
    requires IsDue(q) && Distinct(q.list)
    ensures DeadlineIn(q, q.list[0].id) == Some(Pop(q).tick)
    ensures DeadlineIn(Pop(q), j) == if j == q.list[0].id then None else DeadlineIn(q, j)
    ensures Distinct(Pop(q).list)
    ensures DeadlineIn(q, j).Some? ==> Pop(q).tick <= DeadlineIn(q, j).value
  {
    Unlinked(q.tick + q.list[0].dticks, q.list[1..], q.list[0].id);
    DeadlineAfter(q.tick + q.list[0].dticks, q.list[1..], j);
  }

  /** The ticks at which one timeout fired. */
  function FiresOf(log: seq<Fired>, id: nat): seq<nat> {
    if log == [] then []
    else FiresOf(log[..|log| - 1], id) + (if log[|log| - 1].id == id then [log[|log| - 1].tick] else [])
  }

  lemma FiresOfSnoc(log: seq<Fired>, f: Fired, id: nat)
    ensures FiresOf(log + [f], id) == FiresOf(log, id) + (if f.id == id then [f.tick] else [])
  {
    assert (log + [f])[..|log|] == log;
  }

  /** An announcement ends with time moved by exactly the ticks announced and every
      deadline still in the queue in the future, whatever the handlers add or abort. */
  lemma {:induction false} FireEnds(q: Queue, log: seq<Fired>, h: Handler, clock: nat, j: nat)
    requires Distinct(q.list)
    ensures var (r, log2) := Fire(q, log, h, clock);
            Distinct(r.list) && r.tick == q.tick + q.remaining && r.remaining == 0 && log <= log2 &&
            (DeadlineIn(r, j).Some? ==> DeadlineIn(r, j).value > r.tick) &&
            (forall i :: |log| <= i < |log2| ==> q.tick <= log2[i].tick <= r.tick) &&
            (forall i, k :: |log| <= i < k < |log2| ==> log2[i].tick <= log2[k].tick)
    decreases q.remaining, Zeros(q.list)
  {
    if !IsDue(q) {
      SettleDeadline(q, j);
    } else {
      var id, p := q.list[0].id, Pop(q);
      var cs := h(p, id, log);
      PopDeadline(q, j);
      DoAllZeros(p, cs, clock);
      DoAllDeadline(p, cs, clock, j);
      FireEnds(DoAll(p, cs, clock), log + [Fired(id, p.tick)], h, clock, j);
    }
  }

  ghost predicate Ignores(h: Handler, id: nat) {
    forall q, j, log :: !Names(h(q, j, log), id)
  }

  /** A timeout that no handler names fires once, at its deadline, if that falls
      within the announcement, and otherwise keeps its deadline. */
  lemma {:induction false} FiresWhenDue(q: Queue, log: seq<Fired>, h: Handler, clock: nat, id: nat)
    requires Distinct(q.list) && Ignores(h, id)
    ensures var (r, log2) := Fire(q, log, h, clock);
            var d := DeadlineIn(q, id);
            if d.Some? && d.value <= q.tick + q.remaining then
              FiresOf(log2, id) == FiresOf(log, id) + [d.value] && DeadlineIn(r, id) == None
            else FiresOf(log2, id) == FiresOf(log, id) && DeadlineIn(r, id) == d
    decreases q.remaining, Zeros(q.list)
  {
    if !IsDue(q) {
      SettleDeadline(q, id);
    } else {
      var first, p := q.list[0].id, Pop(q);
      var cs := h(p, first, log);
      PopDeadline(q, id);
      DoAllZeros(p, cs, clock);
      DoAllDeadline(p, cs, clock, id);
      FiresOfSnoc(log, Fired(first, p.tick), id);
      FiresWhenDue(DoAll(p, cs, clock), log + [Fired(first, p.tick)], h, clock, id);
    }
  }

  /** What an announcement up to time h fires among the timeouts of a set, and what it leaves. */
  function Hits(ds: seq<Due>, ids: set<nat>, h: nat): seq<Fired> {
    if ds == [] then []
    else if ds[0].id in ids && ds[0].deadline <= h then [Fired(ds[0].id, ds[0].deadline)] + Hits(ds[1..], ids, h)
    else Hits(ds[1..], ids, h)
  }

  function Misses(ds: seq<Due>, ids: set<nat>, h: nat): seq<Due> {
    if ds == [] then []
    else if ds[0].id in ids && ds[0].deadline > h then [ds[0]] + Misses(ds[1..], ids, h)
    else Misses(ds[1..], ids, h)
  }

  function Only(log: seq<Fired>, ids: set<nat>): seq<Fired> {
    if log == [] then []
    else if log[0].id in ids then [log[0]] + Only(log[1..], ids)
    else Only(log[1..], ids)
  }

  function DuesOf(q: Queue): seq<Due> {
    Dues(q.tick, q.list)
  }

  lemma {:induction false} PlacedElsewhere(ds: seq<Due>, x: Due, ids: set<nat>, h: nat)
    requires x.id !in ids
    ensures Hits(Placed(ds, x), ids, h) == Hits(ds, ids, h)
    ensures Misses(Placed(ds, x), ids, h) == Misses(ds, ids, h)
  {
    var r := Placed(ds, x);
    if ds == [] || x.deadline < ds[0].deadline {
      assert r[1..] == ds;
    } else {
      PlacedElsewhere(ds[1..], x, ids, h);
      assert r[1..] == Placed(ds[1..], x);
    }
  }

  lemma {:induction false} RemovedElsewhere(ds: seq<Due>, id: nat, ids: set<nat>, h: nat)
    requires id !in ids
    ensures Hits(OtherDues(ds, id), ids, h) == Hits(ds, ids, h)
    ensures Misses(OtherDues(ds, id), ids, h) == Misses(ds, ids, h)
  {
    if ds != [] {
      RemovedElsewhere(ds[1..], id, ids, h);
      if ds[0].id != id {
        assert OtherDues(ds, id)[1..] == OtherDues(ds[1..], id);
      }
    }
  }

  predicate SameFor(ds: seq<Due>, es: seq<Due>, ids: set<nat>, h: nat) {
    Hits(ds, ids, h) == Hits(es, ids, h) && Misses(ds, ids, h) == Misses(es, ids, h)
  }

  lemma DoElsewhere(q: Queue, c: Cmd, clock: nat, ids: set<nat>, h: nat)
    requires Distinct(q.list) && c.id !in ids
    ensures SameFor(DuesOf(Do(q, c, clock)), DuesOf(q), ids, h)
  {
    match c
    case Add(id, request) =>
      var d := Ticks(request, Now(q, clock)) + Elapsed(q, clock);
      InsertMeaning(q.tick, q.list, id, d);
      PlacedElsewhere(DuesOf(q), Due(id, q.tick + d), ids, h);
    case Abort(id) =>
      RemoveMeaning(q.tick, q.list, id);
      RemovedElsewhere(DuesOf(q), id, ids, h);
  }

  lemma {:induction false} DoAllElsewhere(q: Queue, cs: seq<Cmd>, clock: nat, ids: set<nat>, h: nat)
    requires Distinct(q.list) && forall i :: 0 <= i < |cs| ==> cs[i].id !in ids
    ensures SameFor(DuesOf(DoAll(q, cs, clock)), DuesOf(q), ids, h)
    decreases |cs|
  {
    if cs != [] {
      DoElsewhere(q, cs[0], clock, ids, h);
      DoDeadline(q, cs[0], clock, 0);
      DoAllElsewhere(Do(q, cs[0], clock), cs[1..], clock, ids, h);
    }
  }

  lemma {:induction false} NoneDue(base: nat, list: seq<Node>, ids: set<nat>, h: nat)
    requires base > h
    ensures Hits(Dues(base, list), ids, h) == []
    decreases |list|
  {
    if list != [] {
      NoneDue(base + list[0].dticks, list[1..], ids, h);
    }
  }

  lemma SettleDues(q: Queue, ids: set<nat>)
    requires !IsDue(q)
    ensures Hits(DuesOf(q), ids, q.tick + q.remaining) == []
    ensures DuesOf(Settle(q)) == DuesOf(q)
  {
    if q.list != [] {
      assert Settle(q).list[1..] == q.list[1..];
      NoneDue(q.tick + q.list[0].dticks, q.list[1..], ids, q.tick + q.remaining);
    }
  }

  lemma PopDues(q: Queue, ids: set<nat>)
    requires IsDue(q)
    ensures var id, p, end := q.list[0].id, Pop(q), q.tick + q.remaining;
            Hits(DuesOf(q), ids, end) == (if id in ids then [Fired(id, p.tick)] else []) + Hits(DuesOf(p), ids, end) &&
            Misses(DuesOf(q), ids, end) == Misses(DuesOf(p), ids, end)
  {
    assert DuesOf(q)[1..] == DuesOf(Pop(q));
  }

  lemma OnlyNext(log: seq<Fired>, f: Fired, log2: seq<Fired>, ids: set<nat>)
    requires log + [f] <= log2
    ensures log <= log2
    ensures Only(log2[|log|..], ids) == (if f.id in ids then [f] else []) + Only(log2[|log + [f]|..], ids)
  {
    assert log2[|log|..][1..] == log2[|log + [f]|..] && log2[|log|] == (log + [f])[|log|];
    assert log == (log + [f])[..|log|] == log2[..|log|];
  }

  ghost predicate IgnoresAll(h: Handler, ids: set<nat>) {
    forall q, j, log, i :: 0 <= i < |h(q, j, log)| ==> h(q, j, log)[i].id !in ids
  }

  /** Among any set of timeouts that no handler names, an announcement fires exactly
      those that are due, each at its deadline, in order of deadline and then of
      insertion, and leaves the others as they are. */
  lemma {:induction false} FiresInOrder(q: Queue, log: seq<Fired>, h: Handler, clock: nat, ids: set<nat>)
    requires Distinct(q.list) && IgnoresAll(h, ids)
    ensures var (r, log2) := Fire(q, log, h, clock);
            log <= log2 && r.tick == q.tick + q.remaining &&
            Only(log2[|log|..], ids) == Hits(DuesOf(q), ids, r.tick) &&
            Misses(DuesOf(r), ids, r.tick) == Misses(DuesOf(q), ids, r.tick)
    decreases q.remaining, Zeros(q.list)
  {
    var end := q.tick + q.remaining;
    if !IsDue(q) {
      SettleDues(q, ids);
    } else {
      var id, p := q.list[0].id, Pop(q);
      var cs, f := h(p, id, log), Fired(id, p.tick);
      var q2 := DoAll(p, cs, clock);
      PopDeadline(q, id);
      DoAllZeros(p, cs, clock);
      DoAllDeadline(p, cs, clock, id);
      FiresInOrder(q2, log + [f], h, clock, ids);
      OnlyNext(log, f, Fire(q2, log + [f], h, clock).1, ids);
      DuesAfter(q, cs, clock, ids);
    }
  }

  /** What one turn of the loop leaves due, whatever its handler does elsewhere. */
  lemma DuesAfter(q: Queue, cs: seq<Cmd>, clock: nat, ids: set<nat>)
    requires Distinct(q.list) && IsDue(q) && forall i :: 0 <= i < |cs| ==> cs[i].id !in ids
    ensures var id, p, end := q.list[0].id, Pop(q), q.tick + q.remaining;
            var r := DuesOf(DoAll(p, cs, clock));
            Hits(DuesOf(q), ids, end) == (if id in ids then [Fired(id, p.tick)] else []) + Hits(r, ids, end) &&
            Misses(DuesOf(q), ids, end) == Misses(r, ids, end)
  {
    PopDeadline(q, 0);
    PopDues(q, ids);
    DoAllElsewhere(Pop(q), cs, clock, ids, q.tick + q.remaining);
  }

  // ------------------------------------------------------------------ batching

  /** The handler does not look at how much of the announcement is left. */
  ghost predicate Blind(h: Handler) {
    forall q: Queue, r: nat, id, log :: h(q.(remaining := r), id, log) == h(q, id, log)
  }

  lemma {:induction false} DoAllBlind(q: Queue, cs: seq<Cmd>, r: nat)
    ensures DoAll(q.(remaining := r), cs, 0) == DoAll(q, cs, 0).(remaining := r)
    ensures DoAll(q, cs, 0).remaining == q.remaining
    decreases |cs|
  {
    if cs != [] {
      DoAllBlind(Do(q, cs[0], 0), cs[1..], r);
    }
  }

  /** Announcing a+b ticks at once does what announcing a and then b does. */
  lemma {:induction false} Batching(q: Queue, log: seq<Fired>, h: Handler, b: nat)
    requires Blind(h)
    ensures var (r, log2) := Fire(q, log, h, 0);
            Fire(q.(remaining := q.remaining + b), log, h, 0) == Fire(r.(remaining := b), log2, h, 0)
    decreases q.remaining, Zeros(q.list)
  {
    var both := q.(remaining := q.remaining + b);
    if !IsDue(q) {
      SettleThen(q, b);
    } else {
      var id, p := q.list[0].id, Pop(q);
      var cs := h(p, id, log);
      DoAllZeros(p, cs, 0);
      assert Pop(both) == p.(remaining := p.remaining + b);
      assert h(Pop(both), id, log) == cs;
      DoAllBlind(p, cs, p.remaining + b);
      Batching(DoAll(p, cs, 0), log + [Fired(id, p.tick)], h, b);
    }
  }

  lemma SettleThen(q: Queue, b: nat)
    requires !IsDue(q)
    ensures var both, then_ := q.(remaining := q.remaining + b), Settle(q).(remaining := b);
            IsDue(both) == IsDue(then_) &&
            (if IsDue(both) then Pop(both) == Pop(then_) && both.list[0].id == then_.list[0].id
             else Settle(both) == Settle(then_))
  {
    if q.list != [] {
      assert Settle(q).list[1..] == q.list[1..];
    }
  }

  /** However a stretch of time is cut into announcements, the outcome is the same. */
  function AnnounceAll(q: Queue, batches: seq<nat>, log: seq<Fired>, h: Handler): (Queue, seq<Fired>)
    decreases |batches|
  {
    if batches == [] then (q, log)
    else
      var (r, log2) := Announce(q, batches[0], log, h, 0);
      AnnounceAll(r, batches[1..], log2, h)
  }

  lemma {:induction false} AnyBatching(q: Queue, batches: seq<nat>, log: seq<Fired>, h: Handler)
    requires Blind(h) && batches != []
    ensures AnnounceAll(q, batches, log, h) == Announce(q, Sum(batches), log, h, 0)
    decreases |batches|
  {
    var (r, log2) := Announce(q, batches[0], log, h, 0);
    if |batches| > 1 {
      AnyBatching(r, batches[1..], log2, h);
      Batching(q.(remaining := batches[0]), log, h, Sum(batches[1..]));
    } else {
      assert batches[1..] == [];
    }
  }

  // ------------------------------------------------------------------- queries

  const INT_MAX := 0x7fff_ffff

  /** Ticks to sleep before the next announcement is needed. */
  function NextTimeout(q: Queue, clock: nat): int {
    if q.list == [] then INT_MAX else Min(Max(q.list[0].dticks - Elapsed(q, clock), 0), INT_MAX)
  }

  /** Sleeping that long passes no deadline that is still ahead. */
  lemma SleepIsSafe(q: Queue, clock: nat, j: nat)
    requires DeadlineIn(q, j).Some?
    ensures var n := NextTimeout(q, clock);
            0 <= n <= INT_MAX && (n == 0 || Now(q, clock) + n <= DeadlineIn(q, j).value)
  {
    DeadlineAfter(q.tick + q.list[0].dticks, q.list[1..], j);
  }

  /** It is exactly the time to the earliest deadline, as far as an integer holds it,
      and nothing if that is past. */
  lemma SleepIsExact(q: Queue, clock: nat)
    ensures q.list == [] ==> NextTimeout(q, clock) == 0x7fff_ffff
    ensures q.list != [] ==>
            var d, n := DeadlineIn(q, q.list[0].id), NextTimeout(q, clock);
            && d.Some? && (forall j :: DeadlineIn(q, j).Some? ==> d.value <= DeadlineIn(q, j).value)
            && (d.value <= Now(q, clock) ==> n == 0)
            && (Now(q, clock) < d.value <= Now(q, clock) + 0x7fff_ffff ==> n == d.value - Now(q, clock))
            && (d.value > Now(q, clock) + 0x7fff_ffff ==> n == 0x7fff_ffff)
  {
    if q.list != [] {
      forall j | DeadlineIn(q, j).Some? ensures q.tick + q.list[0].dticks <= DeadlineIn(q, j).value {
        DeadlineAfter(q.tick + q.list[0].dticks, q.list[1..], j);
      }
    }
  }

  /** Ticks until a timeout expires; zero when it is not in the queue. */
  function Remaining(q: Queue, id: nat, clock: nat): int {
    match DeadlineIn(q, id)
    case None => 0
    case Some(d) => d - Now(q, clock)
  }

  /** The reported expiry time of an active timeout is its deadline exactly when
      no time has passed since the last announcement. */
  lemma ExpiresIsDeadline(q: Queue, id: nat, clock: nat)
    requires DeadlineIn(q, id).Some?
    ensures q.tick + Remaining(q, id, clock) == DeadlineIn(q, id).value <==> Elapsed(q, clock) == 0
  {
  }

  /** Two ticks after the last announcement, a deadline at tick 10 is reported as 8. */
  lemma ExpiresTooEarly()
    ensures var q := Queue(0, 0, [Node(7, 10)]);
            DeadlineIn(q, 7) == Some(10) && q.tick + Remaining(q, 7, 2) == 8
  {
  }

  // -------------------------------------------------------------------- timers

  predicate Periodic(period: int) {
    period != 0 && period != FOREVER
  }

  /** What starting a timer keeps as its period: adding a timeout rounds up by one
      tick, which a timer re-armed on a tick boundary does not want. */
  function StoredPeriod(period: int): int {
    if Periodic(period) && TickAbs(period) < 0 then Max(period - 1, 1) else period
  }

  function StoredDuration(duration: int): int {
    if TickAbs(duration) < 0 then Max(duration - 1, 0) else duration
  }

  /** A period of p ticks is honoured from two ticks up; one tick is served as two. */
  lemma Interval(p: nat, d: nat, now: nat)
    requires p >= 1
    ensures now + Ticks(StoredPeriod(p), now) == now + Max(p, 2)
    ensures now + Ticks(StoredPeriod(p), now) == now + p <==> p >= 2
    ensures now + Ticks(StoredDuration(d), now) == now + Max(d, 1)
  {
  }

  /** A timer re-armed by its handler keeps to its grid exactly when the handler is
      not late: the announcement has ticks left, or none have passed since. */
  lemma RearmDrift(q: Queue, id: nat, request: nat, clock: nat)
    requires Distinct(q.list) && DeadlineIn(q, id) == None
    ensures DeadlineIn(Do(q, Add(id, request), clock), id) == Some(q.tick + request + 1)
       <==> q.remaining > 0 || clock == 0
  {
    DoDeadline(q, Add(id, request), clock, id);
  }

  /** A timer due every 4 ticks whose handler runs 3 ticks late is next due after 7. */
  lemma RearmTooLate()
    ensures var q := Queue(100, 0, []);
            DeadlineIn(Do(q, Add(7, StoredPeriod(4)), 3), 7) == Some(107)
  {
    var q := Queue(100, 0, []);
    DoDeadline(q, Add(7, StoredPeriod(4)), 3, 7);
  }

  function Rearm(id: nat, period: int): seq<Cmd> {
    if Periodic(period) then [Add(id, period)] else []
  }

  /** The handler of every timer: re-arm, then run the expiry function. */
  function TimerHandler(periods: map<nat, int>, expiry: Handler): Handler {
    (q: Queue, id: nat, log: seq<Fired>) =>
      (if id in periods then Rearm(id, periods[id]) else []) + expiry(q, id, log)
  }

  /** The timer alone decides when it is next due. */
  ghost predicate Rearms(h: Handler, id: nat, request: int) {
    forall q, j, log ::
      if j == id then |h(q, j, log)| > 0 && h(q, j, log)[0] == Add(id, request) && !Names(h(q, j, log)[1..], id)
      else !Names(h(q, j, log), id)
  }

  lemma TimerRearms(periods: map<nat, int>, expiry: Handler, id: nat)
    requires id in periods && Periodic(periods[id]) && Ignores(expiry, id)
    ensures Rearms(TimerHandler(periods, expiry), id, periods[id])
  {
    var h := TimerHandler(periods, expiry);
    forall q, j, log
      ensures if j == id then |h(q, j, log)| > 0 && h(q, j, log)[0] == Add(id, periods[id]) && !Names(h(q, j, log)[1..], id)
              else !Names(h(q, j, log), id)
    {
      var cs, extra := h(q, j, log), expiry(q, j, log);
      assert !Names(extra, id);
      if j in periods && Periodic(periods[j]) {
        assert cs[1..] == extra;
        assert forall i :: 1 <= i < |cs| ==> cs[i] == extra[i - 1];
      } else {
        assert cs == extra;
      }
    }
  }

  /** The k-th point of the grid first, first + step, first + 2 * step, ... */
  function Point(first: nat, step: nat, k: nat): (r: nat)
    ensures r == first + k * step
  {
    if k == 0 then first else Point(first, step, k - 1) + step
  }

  function Grid(first: nat, step: nat, k: nat): (r: seq<nat>)
    ensures |r| == k && forall i :: 0 <= i < k ==> r[i] == Point(first, step, i)
  {
    if k == 0 then [] else Grid(first, step, k - 1) + [Point(first, step, k - 1)]
  }

  /** The timer has fired on the first k points of its grid and waits for the next. */
  ghost predicate OnGrid(q: Queue, log: seq<Fired>, id: nat, first: nat, step: nat, k: nat) {
    FiresOf(log, id) == Grid(first, step, k) && DeadlineIn(q, id) == Some(Point(first, step, k))
  }

  lemma RearmOnGrid(p: Queue, cs: seq<Cmd>, id: nat, request: int)
    requires Distinct(p.list) && DeadlineIn(p, id) == None && request != FOREVER && TickAbs(request + 1) < 0
    requires |cs| > 0 && cs[0] == Add(id, request) && !Names(cs[1..], id)
    ensures DeadlineIn(DoAll(p, cs, 0), id) == Some(p.tick + Max(1, request + 1))
  {
    DoDeadline(p, cs[0], 0, id);
    DoAllDeadline(Do(p, cs[0], 0), cs[1..], 0, id);
  }

  lemma {:induction false} TimerFires(q: Queue, log: seq<Fired>, h: Handler, id: nat, request: int,
                                      first: nat, k: nat) returns (n: nat)
    requires Distinct(q.list) && Rearms(h, id, request) && request >= 0
    requires OnGrid(q, log, id, first, request + 1, k)
    ensures var (r, log2) := Fire(q, log, h, 0);
            OnGrid(r, log2, id, first, request + 1, n) && n >= k && Point(first, request + 1, n) > r.tick &&
            (n > k ==> Point(first, request + 1, n - 1) <= r.tick)
    decreases q.remaining, Zeros(q.list)
  {
    if !IsDue(q) {
      SettleDeadline(q, id);
      n := k;
    } else {
      var head, p := q.list[0].id, Pop(q);
      var cs := h(p, head, log);
      var q2, log2 := DoAll(p, cs, 0), log + [Fired(head, p.tick)];
      PopDeadline(q, id);
      DoAllZeros(p, cs, 0);
      DoAllDeadline(p, cs, 0, id);
      FiresOfSnoc(log, Fired(head, p.tick), id);
      FireEnds(q2, log2, h, 0, id);
      if head == id {
        RearmOnGrid(p, cs, id, request);
        n := TimerFires(q2, log2, h, id, request, first, k + 1);
      } else {
        n := TimerFires(q2, log2, h, id, request, first, k);
      }
    }
  }

  lemma TickOnGrid(q: Queue, log: seq<Fired>, h: Handler, ticks: nat,
                   id: nat, p: nat, step: nat, first: nat, k: nat) returns (m: nat)
    requires p >= 1 && step == Max(p, 2) && Rearms(h, id, StoredPeriod(p))
    requires Distinct(q.list) && OnGrid(q, log, id, first, step, k) && (k > 0 ==> Point(first, step, k - 1) <= q.tick)
    ensures var (r, log2) := Announce(q, ticks, log, h, 0);
            Distinct(r.list) && r.remaining == 0 && OnGrid(r, log2, id, first, step, m) &&
            Point(first, step, m) > r.tick && (m > 0 ==> Point(first, step, m - 1) <= r.tick)
  {
    m := TimerFires(q.(remaining := ticks), log, h, id, StoredPeriod(p), first, k);
    FireEnds(q.(remaining := ticks), log, h, 0, id);
  }

  datatype Event = Tick(ticks: nat) | Call(cmd: Cmd, clock: nat)

  function Run(q: Queue, log: seq<Fired>, h: Handler, events: seq<Event>): (Queue, seq<Fired>)
    decreases |events|
  {
    if events == [] then (q, log)
    else match events[0]
      case Tick(n) =>
        var (r, log2) := Announce(q, n, log, h, 0);
        Run(r, log2, h, events[1..])
      case Call(c, clock) => Run(Do(q, c, clock), log, h, events[1..])
  }

  /** Over every run of announcements and of calls about other timeouts, a timer
      with period p has expired at first, first + step, first + 2 * step and so on,
      once for each of these that has passed and at no other time.  The step is p,
      except that a period of one tick is served as two. */
  lemma {:induction false} PeriodicRun(q: Queue, log: seq<Fired>, h: Handler, events: seq<Event>,
                                       id: nat, p: nat, step: nat, first: nat, k: nat) returns (n: nat)
    requires p >= 1 && step == Max(p, 2) && Rearms(h, id, StoredPeriod(p))
    requires forall i :: 0 <= i < |events| ==> events[i].Call? ==> events[i].cmd.id != id
    requires Distinct(q.list) && q.remaining == 0 && OnGrid(q, log, id, first, step, k)
    requires Point(first, step, k) > q.tick && (k > 0 ==> Point(first, step, k - 1) <= q.tick)
    ensures var (r, log2) := Run(q, log, h, events);
            FiresOf(log2, id) == Grid(first, step, n) && DeadlineIn(r, id) == Some(Point(first, step, n)) &&
            Point(first, step, n) > r.tick && (n > 0 ==> Point(first, step, n - 1) <= r.tick)
    decreases |events|
  {
    if events == [] {
      n := k;
    } else {
      match events[0]
      case Tick(ticks) =>
        var (r, log2) := Announce(q, ticks, log, h, 0);
        var m := TickOnGrid(q, log, h, ticks, id, p, step, first, k);
        n := PeriodicRun(r, log2, h, events[1..], id, p, step, first, m);
      case Call(c, clock) =>
        DoDeadline(q, c, clock, id);
        n := PeriodicRun(Do(q, c, clock), log, h, events[1..], id, p, step, first, k);
    }
  }

  // ----------------------------------------------------------- one-shot timers

  /** What starting a timer keeps as its period, case by case. */
  lemma StoredPeriods(period: int)
    ensures period == 0 || period == -1 ==> StoredPeriod(period) == period && forall id :: Rearm(id, StoredPeriod(period)) == []
    ensures period == 1 ==> StoredPeriod(period) == 1
    ensures period > 1 ==> StoredPeriod(period) == period - 1
    ensures period < -1 ==> StoredPeriod(period) == period
    ensures period != 0 && period != -1 ==> forall id :: Rearm(id, StoredPeriod(period)) == [Add(id, StoredPeriod(period))]
  {
  }

  /** The handler leaves a timer without a period alone. */
  lemma OneShotIgnored(periods: map<nat, int>, expiry: Handler, id: nat)
    requires Ignores(expiry, id) && (id in periods ==> periods[id] == 0 || periods[id] == -1)
    ensures Ignores(TimerHandler(periods, expiry), id)
  {
    var h := TimerHandler(periods, expiry);
    forall q, j, log ensures !Names(h(q, j, log), id) {
      var extra := expiry(q, j, log);
      var first := if j in periods then Rearm(j, periods[j]) else [];
      assert h(q, j, log) == first + extra && !Names(extra, id) && !Names(first, id);
      NamesConcat(first, extra, id);
    }
  }

  lemma NamesConcat(a: seq<Cmd>, b: seq<Cmd>, id: nat)
    requires !Names(a, id) && !Names(b, id)
    ensures !Names(a + b, id)
  {
    forall i | 0 <= i < |a + b| ensures (a + b)[i].id != id {
      assert (a + b)[i] == if i < |a| then a[i] else b[i - |a|];
    }
  }

  /** Over every run of announcements and of calls about other timeouts, a timer without
      a period expires once, at its deadline, as soon as that has passed, and never
      again; one that is not started never expires. */
  lemma {:induction false} OneShotRun(q: Queue, log: seq<Fired>, h: Handler, events: seq<Event>, id: nat)
    requires Ignores(h, id) && forall i :: 0 <= i < |events| ==> events[i].Call? ==> events[i].cmd.id != id
    requires Distinct(q.list) && q.remaining == 0
    requires DeadlineIn(q, id).Some? ==> DeadlineIn(q, id).value > q.tick
    ensures var (r, log2) := Run(q, log, h, events);
            var d := DeadlineIn(q, id);
            if d.Some? && d.value <= r.tick then FiresOf(log2, id) == FiresOf(log, id) + [d.value] && DeadlineIn(r, id) == None
            else FiresOf(log2, id) == FiresOf(log, id) && DeadlineIn(r, id) == d
    ensures Run(q, log, h, events).0.tick >= q.tick
    decreases |events|
  {
    if events != [] {
      match events[0]
      case Tick(ticks) =>
        var (r, log2) := Announce(q, ticks, log, h, 0);
        FiresWhenDue(q.(remaining := ticks), log, h, 0, id);
        FireEnds(q.(remaining := ticks), log, h, 0, id);
        OneShotRun(r, log2, h, events[1..], id);
      case Call(c, clock) =>
        DoDeadline(q, c, clock, id);
        OneShotRun(Do(q, c, clock), log, h, events[1..], id);
    }
  }
}
