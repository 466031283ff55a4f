/** Scheduler bookkeeping on one processor: the state bits of every thread, the run
    queue, the wait queues, and the cached choice of the thread to run next. */
module Scheduler {
  import opened Common
  import opened Errno
  import opened PriorityOrder

  /** Wait queues belong to kernel objects, or collect those who join a thread. */
  datatype QueueId = Object(id: nat) | Joining(thread: nat)

  datatype Thread = Thread(prio: int, locked: nat, queued: bool, pending: bool, prestart: bool, dead: bool,
                           suspended: bool, timeout: bool, pendedOn: Option<QueueId>)

  datatype State = State(threads: map<nat, Thread>, runq: seq<nat>, waitqs: map<QueueId, seq<nat>>,
                         current: nat, cache: nat, idle: nat)

  predicate Prevented(th: Thread) {
    th.pending || th.prestart || th.dead || th.suspended
  }

  predicate Ready(th: Thread) {
    !Prevented(th) && !th.timeout
  }

  /** Negative priorities are cooperative, and so is a thread that locked the scheduler. */
  predicate Preemptible(th: Thread) {
    th.locked == 0 && th.prio >= 0
  }

  function Waiters(s: State, q: QueueId): seq<nat> {
    if q in s.waitqs then s.waitqs[q] else []
  }

  function Prios(threads: map<nat, Thread>, list: seq<nat>): (r: seq<int>)
    ensures |r| == |list|
    ensures forall i :: 0 <= i < |list| ==> r[i] == if list[i] in threads then threads[list[i]].prio else 0
  {
    seq(|list|, i requires 0 <= i < |list| => if list[i] in threads then threads[list[i]].prio else 0)
  }

  /** Behind every thread of the same or a higher priority. */
  function Enlisted(threads: map<nat, Thread>, list: seq<nat>, t: nat): seq<nat>
    requires t in threads
  {
    InsertAt(list, Slot(Prios(threads, list), threads[t].prio), t)
  }

  function Best(s: State): nat {
    if s.runq == [] then s.idle else s.runq[0]
  }

  // ----------------------------------------------------------------- primitives

  function Mark(s: State, t: nat, th: Thread): State {
    s.(threads := s.threads[t := th])
  }

  function Enqueue(s: State, t: nat): State
    requires t in s.threads
  {
    s.(threads := s.threads[t := s.threads[t].(queued := true)], runq := Enlisted(s.threads, s.runq, t))
  }

  function Dequeue(s: State, t: nat): State
    requires t in s.threads
  {
    s.(threads := s.threads[t := s.threads[t].(queued := false)], runq := Without(s.runq, t))
  }

  function Block(s: State, t: nat, q: QueueId): State
    requires t in s.threads
  {
    s.(threads := s.threads[t := s.threads[t].(pending := true, pendedOn := Some(q))],
       waitqs := s.waitqs[q := Enlisted(s.threads, Waiters(s, q), t)])
  }

  function Unblock(s: State, t: nat): State
    requires t in s.threads && s.threads[t].pendedOn.Some?
  {
    var q := s.threads[t].pendedOn.value;
    s.(threads := s.threads[t := s.threads[t].(pending := false, pendedOn := None)],
       waitqs := s.waitqs[q := Without(Waiters(s, q), t)])
  }

  predicate MayPreempt(s: State, ok: bool)
    requires s.current in s.threads
  {
    ok || Prevented(s.threads[s.current]) || Preemptible(s.threads[s.current])
  }

  function UpdateCache(s: State, ok: bool): State
    requires s.current in s.threads
  {
    s.(cache := if MayPreempt(s, ok) then Best(s) else s.current)
  }

  // -------------------------------------------------------------- the invariant

  /** What the bits of one thread say about the queues it is in. */
  ghost predicate ThreadOk(s: State, t: nat)
    requires t in s.threads
  {
    var th := s.threads[t];
    && (th.queued <==> t in s.runq)
    && (th.queued ==> Ready(th) && t != s.idle)
    && (forall q :: th.pendedOn == Some(q) <==> t in Waiters(s, q))
    && (th.pendedOn.Some? ==> th.pending)
    && (th.dead ==> !th.timeout && th.pendedOn == None)
  }

  ghost predicate ListOk(s: State, list: seq<nat>) {
    NoDup(list) && forall i :: 0 <= i < |list| ==> list[i] in s.threads
  }

  ghost predicate Books(s: State) {
    && (forall t :: t in s.threads ==> ThreadOk(s, t))
    && ListOk(s, s.runq) && Ascending(Prios(s.threads, s.runq))
    && (forall q :: ListOk(s, Waiters(s, q)))
  }

  /** The running thread is in the run queue unless it may not run, and idle always can. */
  ghost predicate CurrentOk(s: State) {
    && s.current in s.threads && s.idle in s.threads && Ready(s.threads[s.idle])
    && !s.threads[s.current].pending && !s.threads[s.current].timeout
    && (s.current != s.idle && !Prevented(s.threads[s.current]) ==> s.threads[s.current].queued)
  }

  /** The cached choice is the best thread of the run queue, or a running thread that
      may go on and may not be preempted. */
  ghost predicate CacheOk(s: State) {
    s.current in s.threads &&
    (s.cache == Best(s) ||
     (s.cache == s.current && !Prevented(s.threads[s.current]) && !Preemptible(s.threads[s.current])))
  }

  ghost predicate Inv(s: State) {
    Books(s) && CurrentOk(s) && CacheOk(s)
  }

  /** A switch never selects a thread that may not run, and when it selects from the
      run queue it takes the highest priority there. */
  lemma SwapIsSafe(s: State)
    requires Inv(s)
    ensures s.cache in s.threads && !Prevented(s.threads[s.cache])
    ensures s.cache == s.current || s.cache == s.idle || s.threads[s.cache].queued
    ensures (s.cache == s.current && !Preemptible(s.threads[s.current])) || s.cache == Best(s)
    ensures forall i :: 0 <= i < |s.runq| ==> s.runq[i] in s.threads && s.threads[s.runq[0]].prio <= s.threads[s.runq[i]].prio
  {
    if s.runq != [] {
      assert s.runq[0] in s.runq && ThreadOk(s, s.runq[0]);
      forall i | 0 <= i < |s.runq| ensures s.threads[s.runq[0]].prio <= s.threads[s.runq[i]].prio {
        assert Prios(s.threads, s.runq)[0] <= Prios(s.threads, s.runq)[i];
      }
    }
  }

  // ------------------------------------------------------ primitives keep the books

  lemma InsertMember(list: seq<nat>, k: nat, t: nat)
    requires k <= |list|
    ensures forall x :: x in InsertAt(list, k, t) <==> x == t || x in list
  {
    assert list == list[..k] + list[k..];
  }

  lemma SamePrios(threads: map<nat, Thread>, more: map<nat, Thread>, list: seq<nat>)
    requires forall i :: 0 <= i < |list| ==> list[i] in threads && list[i] in more && more[list[i]].prio == threads[list[i]].prio
    ensures Prios(threads, list) == Prios(more, list)
  {
  }

  lemma EnlistedAscending(threads: map<nat, Thread>, list: seq<nat>, t: nat)
    requires t in threads && Ascending(Prios(threads, list))
    ensures Ascending(Prios(threads, Enlisted(threads, list, t)))
  {
    var k, p := Slot(Prios(threads, list), threads[t].prio), threads[t].prio;
    InsertKeepsAscending(Prios(threads, list), p);
    assert Prios(threads, InsertAt(list, k, t)) == InsertAt(Prios(threads, list), k, p);
  }

  lemma PriosGap(threads: map<nat, Thread>, list: seq<nat>, k: nat)
    requires k < |list|
    ensures Prios(threads, list[..k] + list[k + 1..]) == Prios(threads, list)[..k] + Prios(threads, list)[k + 1..]
  {
  }

  lemma WithoutAscending(threads: map<nat, Thread>, list: seq<nat>, t: nat)
    requires NoDup(list) && Ascending(Prios(threads, list))
    ensures Ascending(Prios(threads, Without(list, t)))
  {
    if t in list {
      var k :| 0 <= k < |list| && list[k] == t;
      WithoutAt(list, k);
      PriosGap(threads, list, k);
      GapAscending(Prios(threads, list), k);
    }
  }

  lemma WithoutList(s: State, list: seq<nat>, t: nat)
    requires ListOk(s, list)
    ensures ListOk(s, Without(list, t))
  {
    WithoutNoDup(list, t);
    forall i | 0 <= i < |Without(list, t)| ensures Without(list, t)[i] in s.threads {
      assert Without(list, t)[i] in list;
    }
  }

  lemma EnlistedList(s: State, list: seq<nat>, t: nat)
    requires ListOk(s, list) && t in s.threads && t !in list
    ensures ListOk(s, Enlisted(s.threads, list, t))
  {
    var k := Slot(Prios(s.threads, list), s.threads[t].prio);
    InsertKeepsNoDup(list, k, t);
    InsertMember(list, k, t);
    forall i | 0 <= i <= |list| ensures InsertAt(list, k, t)[i] in s.threads {
      assert InsertAt(list, k, t)[i] in InsertAt(list, k, t);
    }
  }

  lemma EnqueueBooks(s: State, t: nat)
    requires Books(s) && t in s.threads && t != s.idle && Ready(s.threads[t]) && !s.threads[t].queued
    ensures Books(Enqueue(s, t))
  {
    var r := Enqueue(s, t);
    var k := Slot(Prios(s.threads, s.runq), s.threads[t].prio);
    assert ThreadOk(s, t);
    InsertMember(s.runq, k, t);
    forall u | u in r.threads ensures ThreadOk(r, u) {
      assert ThreadOk(s, u);
      assert forall q :: Waiters(r, q) == Waiters(s, q);
    }
    EnlistedList(s, s.runq, t);
    EnlistedAscending(s.threads, s.runq, t);
    SamePrios(s.threads, r.threads, r.runq);
    forall q ensures ListOk(r, Waiters(r, q)) {
      assert ListOk(s, Waiters(s, q));
    }
  }

  lemma DequeueBooks(s: State, t: nat)
    requires Books(s) && t in s.threads
    ensures Books(Dequeue(s, t))
  {
    var r := Dequeue(s, t);
    forall u | u in r.threads ensures ThreadOk(r, u) {
      assert ThreadOk(s, u);
      assert forall q :: Waiters(r, q) == Waiters(s, q);
    }
    WithoutList(s, s.runq, t);
    WithoutAscending(s.threads, s.runq, t);
    SamePrios(s.threads, r.threads, r.runq);
    forall q ensures ListOk(r, Waiters(r, q)) {
      assert ListOk(s, Waiters(s, q));
    }
  }

  /** Bits that do not say where the thread is queued. */
  lemma MarkBooks(s: State, t: nat, th: Thread)
    requires Books(s) && t in s.threads
    requires th.queued == s.threads[t].queued && th.pendedOn == s.threads[t].pendedOn
    requires th.queued ==> Ready(th) && th.prio == s.threads[t].prio
    requires th.pendedOn.Some? ==> th.pending
    requires th.dead ==> !th.timeout && th.pendedOn == None
    ensures Books(Mark(s, t, th))
  {
    var r := Mark(s, t, th);
    forall u | u in r.threads ensures ThreadOk(r, u) {
      assert ThreadOk(s, u);
      assert forall q :: Waiters(r, q) == Waiters(s, q);
    }
    assert ListOk(r, r.runq);
    forall i | 0 <= i < |s.runq| ensures r.threads[s.runq[i]].prio == s.threads[s.runq[i]].prio {
      assert s.runq[i] in s.runq && ThreadOk(s, s.runq[i]);
    }
    SamePrios(s.threads, r.threads, r.runq);
    forall q ensures ListOk(r, Waiters(r, q)) {
      assert ListOk(s, Waiters(s, q));
    }
  }

  /** One thread joins one wait queue and nothing else moves. */
  lemma BlockThread(s: State, t: nat, q: QueueId, u: nat)
    requires Books(s) && t in s.threads && u in s.threads
    requires !s.threads[t].queued && s.threads[t].pendedOn == None && !s.threads[t].dead
    ensures ThreadOk(Block(s, t, q), u)
  {
    var r := Block(s, t, q);
    assert ThreadOk(s, t) && ThreadOk(s, u);
    InsertMember(Waiters(s, q), Slot(Prios(s.threads, Waiters(s, q)), s.threads[t].prio), t);
    forall p ensures r.threads[u].pendedOn == Some(p) <==> u in Waiters(r, p) {
      assert s.threads[u].pendedOn == Some(p) <==> u in Waiters(s, p);
    }
  }

  lemma BlockBooks(s: State, t: nat, q: QueueId)
    requires Books(s) && t in s.threads && !s.threads[t].queued && s.threads[t].pendedOn == None && !s.threads[t].dead
    ensures Books(Block(s, t, q))
  {
    var r := Block(s, t, q);
    forall u | u in r.threads ensures ThreadOk(r, u) {
      BlockThread(s, t, q, u);
    }
    SamePrios(s.threads, r.threads, r.runq);
    assert ThreadOk(s, t);
    EnlistedList(s, Waiters(s, q), t);
    forall p ensures ListOk(r, Waiters(r, p)) {
      assert ListOk(s, Waiters(s, p));
    }
  }

  lemma UnblockBooks(s: State, t: nat)
    requires Books(s) && t in s.threads && s.threads[t].pendedOn.Some?
    ensures Books(Unblock(s, t))
  {
    var r, q := Unblock(s, t), s.threads[t].pendedOn.value;
    assert ThreadOk(s, t);
    assert forall p :: Waiters(r, p) == if p == q then Without(Waiters(s, q), t) else Waiters(s, p);
    forall u | u in r.threads ensures ThreadOk(r, u) {
      assert ThreadOk(s, u);
      forall p ensures r.threads[u].pendedOn == Some(p) <==> u in Waiters(r, p) {
        assert s.threads[u].pendedOn == Some(p) <==> u in Waiters(s, p);
      }
    }
    SamePrios(s.threads, r.threads, r.runq);
    WithoutList(s, Waiters(s, q), t);
    forall p ensures ListOk(r, Waiters(r, p)) {
      assert ListOk(s, Waiters(s, p));
    }
  }

  // ----------------------------------------------------------------- operations

  function Swap(s: State): State {
    s.(current := s.cache)
  }

  /** Put a thread in the run queue if it is not there and nothing prevents it. */
  function MakeReady(s: State, t: nat): State
    requires t in s.threads && s.current in s.threads
  {
    if !s.threads[t].queued && Ready(s.threads[t]) then UpdateCache(Enqueue(s, t), false) else s
  }

  function Start(s: State, t: nat): State
    requires t in s.threads && s.current in s.threads
  {
    if !s.threads[t].prestart then s else MakeReady(Mark(s, t, s.threads[t].(prestart := false)), t)
  }

  function Unready(s: State, t: nat): State
    requires t in s.threads
  {
    if s.threads[t].queued then Dequeue(s, t) else s
  }

  function Suspend(s: State, t: nat): State
    requires t in s.threads && s.current in s.threads
  {
    var r := Unready(Mark(s, t, s.threads[t].(timeout := false)), t);
    UpdateCache(Mark(r, t, r.threads[t].(suspended := true)), t == s.current)
  }

  function Resume(s: State, t: nat): State
    requires t in s.threads && s.current in s.threads
  {
    if !s.threads[t].suspended then s else MakeReady(Mark(s, t, s.threads[t].(suspended := false)), t)
  }

  /** The running thread gives up the processor to wait, with or without a timeout;
      it may undo its scheduler lock on the way. */
  function Pend(s: State, q: Option<QueueId>, timed: bool, unlock: bool): State
    requires s.current in s.threads && (unlock ==> s.threads[s.current].locked > 0)
  {
    var t := s.current;
    var a := if unlock then Mark(s, t, s.threads[t].(locked := s.threads[t].locked - 1)) else s;
    Swap(Waiting(UpdateCache(Unready(a, t), true), t, q, timed))
  }

  function Waiting(s: State, t: nat, q: Option<QueueId>, timed: bool): State
    requires t in s.threads
  {
    var r := if q.Some? then Block(s, t, q.value) else Mark(s, t, s.threads[t].(pending := true));
    Mark(r, t, r.threads[t].(timeout := timed))
  }

  function Unpend(s: State, t: nat): State
    requires t in s.threads && s.threads[t].pendedOn.Some?
  {
    var r := Unblock(s, t);
    Mark(r, t, r.threads[t].(timeout := false))
  }

  function UnpendFirst(s: State, q: QueueId): State
    requires Waiters(s, q) != [] ==> Waiters(s, q)[0] in s.threads && s.threads[Waiters(s, q)[0]].pendedOn.Some?
  {
    if Waiters(s, q) == [] then s else Unpend(s, Waiters(s, q)[0])
  }

  function Wake(s: State, q: QueueId): State
    requires Waiters(s, q) != [] ==> Waiters(s, q)[0] in s.threads && s.threads[Waiters(s, q)[0]].pendedOn.Some?
    requires s.current in s.threads
  {
    if Waiters(s, q) == [] then s else MakeReady(Unpend(s, Waiters(s, q)[0]), Waiters(s, q)[0])
  }

  /** A thread's timeout fires. */
  function Expire(s: State, t: nat): State
    requires t in s.threads && s.current in s.threads
  {
    var a := Mark(s, t, s.threads[t].(timeout := false));
    if s.threads[t].dead then a
    else
      var b := if a.threads[t].pendedOn.Some? then Unblock(a, t) else a;
      MakeReady(Mark(b, t, b.threads[t].(prestart := false, suspended := false)), t)
  }

  function SetPrio(s: State, t: nat, prio: int): State
    requires t in s.threads && s.current in s.threads
  {
    if Ready(s.threads[t]) then
      var r := Dequeue(s, t);
      UpdateCache(Enqueue(Mark(r, t, r.threads[t].(prio := prio)), t), true)
    else Mark(s, t, s.threads[t].(prio := prio))
  }

  /** The change as it is made: a ready thread is taken off the run queue, which has no
      meaning for a thread that is not on it. */
  function ChangePrio(s: State, t: nat, prio: int): Option<State>
    requires t in s.threads && s.current in s.threads
  {
    if Ready(s.threads[t]) && t !in s.runq then None else Some(SetPrio(s, t, prio))
  }

  function Yield(s: State): State
    requires s.current in s.threads
  {
    if s.current == s.idle then Swap(s)
    else Swap(UpdateCache(Enqueue(Dequeue(s, s.current), s.current), true))
  }

  function Sleep(s: State): State
    requires s.current in s.threads
  {
    var r := UpdateCache(Unready(s, s.current), true);
    Swap(Mark(r, s.current, r.threads[s.current].(suspended := true, timeout := true)))
  }

  function Wakeup(s: State, t: nat): State
    requires t in s.threads && s.current in s.threads
  {
    var th := s.threads[t];
    if th.pending || (!th.timeout && !(th.suspended && !th.queued && !th.prestart && !th.dead)) then s
    else MakeReady(Mark(s, t, th.(timeout := false, suspended := false)), t)
  }

  function Lock(s: State): State
    requires s.current in s.threads
  {
    Mark(s, s.current, s.threads[s.current].(locked := s.threads[s.current].locked + 1))
  }

  function Unlock(s: State): State
    requires s.current in s.threads && s.threads[s.current].locked > 0
  {
    UpdateCache(Mark(s, s.current, s.threads[s.current].(locked := s.threads[s.current].locked - 1)), false)
  }

  // ------------------------------------------------------- operations keep the rest

  /** As `CurrentOk`, but thread t may be missing from the run queue. */
  ghost predicate CurrentBut(s: State, t: nat) {
    && s.current in s.threads && s.idle in s.threads && Ready(s.threads[s.idle])
    && !s.threads[s.current].pending && !s.threads[s.current].timeout
    && (s.current != t && s.current != s.idle && !Prevented(s.threads[s.current]) ==> s.threads[s.current].queued)
  }

  lemma UpdateCacheInv(s: State, ok: bool)
    requires Books(s) && CurrentOk(s)
    ensures Inv(UpdateCache(s, ok))
  {
    SameBooks(s, UpdateCache(s, ok));
  }

  /** The books do not depend on who runs now or next. */
  lemma SameBooks(s: State, r: State)
    requires Books(s)
    requires r.threads == s.threads && r.runq == s.runq && r.waitqs == s.waitqs && r.idle == s.idle
    ensures Books(r)
  {
    assert forall q :: Waiters(r, q) == Waiters(s, q);
    forall t | t in r.threads ensures ThreadOk(r, t) {
      assert ThreadOk(s, t);
    }
    assert ListOk(s, s.runq);
    forall q ensures ListOk(r, Waiters(r, q)) {
      assert ListOk(s, Waiters(s, q));
    }
  }

  lemma MakeReadyCore(s: State, t: nat)
    requires Books(s) && CurrentBut(s, t) && t in s.threads && t != s.idle
    ensures Books(MakeReady(s, t)) && CurrentOk(MakeReady(s, t))
    ensures CacheOk(s) ==> CacheOk(MakeReady(s, t))
  {
    if !s.threads[t].queued && Ready(s.threads[t]) {
      EnqueueBooks(s, t);
      UpdateCacheInv(Enqueue(s, t), false);
    }
  }

  lemma SwapInv(s: State)
    requires Books(s) && s.idle in s.threads && Ready(s.threads[s.idle]) && s.cache == Best(s)
    ensures Inv(Swap(s))
  {
    SameBooks(s, Swap(s));
    if s.runq != [] {
      assert s.runq[0] in s.runq && ListOk(s, s.runq) && ThreadOk(s, s.runq[0]);
    }
  }

  lemma StartInv(s: State, t: nat)
    requires Inv(s) && t in s.threads && t != s.idle
    ensures Inv(Start(s, t))
  {
    if s.threads[t].prestart {
      var th := s.threads[t].(prestart := false);
      assert ThreadOk(s, t);
      MarkBooks(s, t, th);
      MakeReadyCore(Mark(s, t, th), t);
    }
  }

  lemma UnreadyBooks(s: State, t: nat)
    requires Books(s) && t in s.threads
    ensures Books(Unready(s, t)) && !Unready(s, t).threads[t].queued
    ensures Unready(s, t).threads[t] == s.threads[t].(queued := false)
  {
    DequeueBooks(s, t);
  }

  lemma SuspendInv(s: State, t: nat)
    requires Inv(s) && t in s.threads && t != s.idle
    ensures Inv(Suspend(s, t))
  {
    assert ThreadOk(s, t);
    var a := Mark(s, t, s.threads[t].(timeout := false));
    MarkBooks(s, t, a.threads[t]);
    UnreadyBooks(a, t);
    var r := Unready(a, t);
    var th := r.threads[t].(suspended := true);
    MarkBooks(r, t, th);
    UpdateCacheInv(Mark(r, t, th), t == s.current);
  }

  lemma ResumeInv(s: State, t: nat)
    requires Inv(s) && t in s.threads && t != s.idle
    ensures Inv(Resume(s, t))
  {
    if s.threads[t].suspended {
      var th := s.threads[t].(suspended := false);
      assert ThreadOk(s, t);
      MarkBooks(s, t, th);
      MakeReadyCore(Mark(s, t, th), t);
    }
  }

  lemma WaitingBooks(s: State, t: nat, q: Option<QueueId>, timed: bool)
    requires Books(s) && t in s.threads && !s.threads[t].queued && s.threads[t].pendedOn == None && !s.threads[t].dead
    ensures Books(Waiting(s, t, q, timed))
  {
    var r := if q.Some? then Block(s, t, q.value) else Mark(s, t, s.threads[t].(pending := true));
    if q.Some? {
      BlockBooks(s, t, q.value);
    } else {
      MarkBooks(s, t, r.threads[t]);
    }
    MarkBooks(r, t, r.threads[t].(timeout := timed));
  }

  lemma PendInv(s: State, q: Option<QueueId>, timed: bool, unlock: bool)
    requires Inv(s) && s.current != s.idle && !Prevented(s.threads[s.current])
    requires unlock ==> s.threads[s.current].locked > 0
    ensures Inv(Pend(s, q, timed, unlock))
  {
    var t := s.current;
    assert ThreadOk(s, t);
    var a := if unlock then Mark(s, t, s.threads[t].(locked := s.threads[t].locked - 1)) else s;
    if unlock {
      MarkBooks(s, t, a.threads[t]);
    }
    UnreadyBooks(a, t);
    var b := UpdateCache(Unready(a, t), true);
    SameBooks(Unready(a, t), b);
    WaitingBooks(b, t, q, timed);
    SwapInv(Waiting(b, t, q, timed));
  }

  lemma UnpendBooks(s: State, t: nat)
    requires Books(s) && t in s.threads && s.threads[t].pendedOn.Some?
    ensures Books(Unpend(s, t))
  {
    assert ThreadOk(s, t);
    UnblockBooks(s, t);
    var r := Unblock(s, t);
    MarkBooks(r, t, r.threads[t].(timeout := false));
  }

  lemma UnpendInv(s: State, t: nat)
    requires Inv(s) && t in s.threads && s.threads[t].pendedOn.Some?
    ensures Inv(Unpend(s, t))
  {
    assert ThreadOk(s, t);
    UnpendBooks(s, t);
  }

  lemma HeadWaits(s: State, q: QueueId)
    requires Books(s) && Waiters(s, q) != []
    ensures Waiters(s, q)[0] in s.threads && s.threads[Waiters(s, q)[0]].pendedOn == Some(q)
  {
    assert ListOk(s, Waiters(s, q)) && Waiters(s, q)[0] in Waiters(s, q);
    assert ThreadOk(s, Waiters(s, q)[0]);
  }

  lemma WakeInv(s: State, q: QueueId)
    requires Inv(s)
    requires Waiters(s, q) != [] ==> Waiters(s, q)[0] in s.threads && s.threads[Waiters(s, q)[0]].pendedOn.Some?
    ensures Inv(Wake(s, q))
  {
    if Waiters(s, q) != [] {
      var t := Waiters(s, q)[0];
      assert ThreadOk(s, t);
      UnpendInv(s, t);
      MakeReadyCore(Unpend(s, t), t);
    }
  }

  lemma ExpireInv(s: State, t: nat)
    requires Inv(s) && t in s.threads && t != s.idle && s.threads[t].timeout
    ensures Inv(Expire(s, t))
  {
    assert ThreadOk(s, t);
    var a := Mark(s, t, s.threads[t].(timeout := false));
    MarkBooks(s, t, a.threads[t]);
    var b := if a.threads[t].pendedOn.Some? then Unblock(a, t) else a;
    if a.threads[t].pendedOn.Some? {
      UnblockBooks(a, t);
    }
    var th := b.threads[t].(prestart := false, suspended := false);
    MarkBooks(b, t, th);
    MakeReadyCore(Mark(b, t, th), t);
  }

  lemma SetPrioInv(s: State, t: nat, prio: int)
    requires Inv(s) && t in s.threads && (Ready(s.threads[t]) ==> s.threads[t].queued)
    ensures Inv(SetPrio(s, t, prio))
  {
    assert ThreadOk(s, t);
    if Ready(s.threads[t]) {
      DequeueBooks(s, t);
      var r := Dequeue(s, t);
      var th := r.threads[t].(prio := prio);
      MarkBooks(r, t, th);
      EnqueueBooks(Mark(r, t, th), t);
      UpdateCacheInv(Enqueue(Mark(r, t, th), t), true);
    } else {
      MarkBooks(s, t, s.threads[t].(prio := prio));
    }
  }

  /** A priority can be changed, and everything is kept, exactly when the thread is
      queued if it is ready. */
  lemma ChangePrioExact(s: State, t: nat, prio: int)
    requires Inv(s) && t in s.threads
    ensures var r := ChangePrio(s, t, prio);
            r.Some? && Inv(r.value) <==> (Ready(s.threads[t]) ==> s.threads[t].queued)
  {
    assert ThreadOk(s, t);
    if Ready(s.threads[t]) ==> s.threads[t].queued {
      SetPrioInv(s, t, prio);
    }
  }

  /** It cannot for a thread that was just unpended and has nothing else to wait for,
      until that is made ready. */
  lemma UnpendedHasNoPlace(s: State, t: nat, prio: int)
    requires Inv(s) && t in s.threads && s.threads[t].pendedOn.Some?
    ensures ChangePrio(Unpend(s, t), t, prio) == None <==> Ready(Unpend(s, t).threads[t])
  {
    assert ThreadOk(s, t);
    UnpendInv(s, t);
    assert ThreadOk(Unpend(s, t), t);
  }

  lemma YieldInv(s: State)
    requires Inv(s) && !Prevented(s.threads[s.current])
    ensures Inv(Yield(s))
  {
    if s.current == s.idle {
      SwapAnyInv(s);
    } else {
      var t := s.current;
      assert ThreadOk(s, t);
      DequeueBooks(s, t);
      EnqueueBooks(Dequeue(s, t), t);
      var r := Enqueue(Dequeue(s, t), t);
      SameBooks(r, UpdateCache(r, true));
      SwapInv(UpdateCache(r, true));
    }
  }

  lemma SwapAnyInv(s: State)
    requires Inv(s)
    ensures Inv(Swap(s))
  {
    if s.cache == Best(s) {
      SwapInv(s);
    } else {
      SameBooks(s, Swap(s));
    }
  }

  lemma SleepInv(s: State)
    requires Inv(s) && s.current != s.idle && !Prevented(s.threads[s.current])
    ensures Inv(Sleep(s))
  {
    var t := s.current;
    assert ThreadOk(s, t);
    UnreadyBooks(s, t);
    var r := UpdateCache(Unready(s, t), true);
    SameBooks(Unready(s, t), r);
    var th := r.threads[t].(suspended := true, timeout := true);
    MarkBooks(r, t, th);
    SwapInv(Mark(r, t, th));
  }

  lemma WakeupInv(s: State, t: nat)
    requires Inv(s) && t in s.threads && t != s.idle
    ensures Inv(Wakeup(s, t))
  {
    var th := s.threads[t].(timeout := false, suspended := false);
    assert ThreadOk(s, t);
    if Wakeup(s, t) != s {
      MarkBooks(s, t, th);
      MakeReadyCore(Mark(s, t, th), t);
    }
  }

  lemma LockInv(s: State)
    requires Inv(s)
    ensures Inv(Lock(s))
    ensures s.threads[s.current].locked > 0 ==> Inv(Unlock(s))
  {
    var th := s.threads[s.current];
    assert ThreadOk(s, s.current);
    MarkBooks(s, s.current, th.(locked := th.locked + 1));
    if th.locked > 0 {
      MarkBooks(s, s.current, th.(locked := th.locked - 1));
      UpdateCacheInv(Mark(s, s.current, th.(locked := th.locked - 1)), false);
    }
  }

  // ------------------------------------------------------------ ending a thread

  lemma UnpendWaiters(s: State, t: nat)
    requires Books(s) && t in s.threads && s.threads[t].pendedOn.Some? && s.current in s.threads
    ensures var q := s.threads[t].pendedOn.value;
            Waiters(MakeReady(Unpend(s, t), t), q) == Without(Waiters(s, q), t) &&
            |Without(Waiters(s, q), t)| < |Waiters(s, q)|
  {
    var q := s.threads[t].pendedOn.value;
    assert ThreadOk(s, t) && t in Waiters(s, q) && ListOk(s, Waiters(s, q));
    var k :| 0 <= k < |Waiters(s, q)| && Waiters(s, q)[k] == t;
    WithoutAt(Waiters(s, q), k);
  }

  /** The best waiter of a queue is taken off it and made ready. */
  ghost function ReleaseOne(s: State, q: QueueId): (r: State)
    requires Books(s) && CurrentOk(s) && Waiters(s, q) != []
    ensures Books(r) && CurrentOk(r) && r.current == s.current && r.idle == s.idle && r.threads.Keys == s.threads.Keys
    ensures |Waiters(r, q)| < |Waiters(s, q)|
  {
    HeadWaits(s, q);
    var t := Waiters(s, q)[0];
    ReleaseCore(s, t);
    UnpendWaiters(s, t);
    MakeReady(Unpend(s, t), t)
  }

  lemma ReleaseCore(s: State, t: nat)
    requires Books(s) && CurrentOk(s) && t in s.threads && s.threads[t].pendedOn.Some?
    ensures var r := MakeReady(Unpend(s, t), t);
            Books(r) && CurrentOk(r) && r.current == s.current && r.idle == s.idle && r.threads.Keys == s.threads.Keys
  {
    assert ThreadOk(s, t);
    UnpendBooks(s, t);
    UnpendCurrent(s, t);
    var a := Unpend(s, t);
    assert a.threads.Keys == s.threads.Keys && a.current == s.current && a.idle == s.idle && t in a.threads;
    MakeReadyCore(a, t);
    SameNames(a, t);
  }

  lemma SameNames(s: State, t: nat)
    requires t in s.threads && s.current in s.threads
    ensures var r := MakeReady(s, t); r.current == s.current && r.idle == s.idle && r.threads.Keys == s.threads.Keys
  {
  }

  lemma UnpendCurrent(s: State, t: nat)
    requires CurrentOk(s) && t in s.threads && s.threads[t].pendedOn.Some? && s.threads[t].pending && t != s.idle
    ensures CurrentOk(Unpend(s, t)) && Unpend(s, t).threads.Keys == s.threads.Keys
  {
  }

  lemma ReleaseDead(s: State, q: QueueId, u: nat)
    requires Books(s) && CurrentOk(s) && Waiters(s, q) != [] && u in s.threads && s.threads[u].dead
    ensures u in ReleaseOne(s, q).threads && ReleaseOne(s, q).threads[u].dead
  {
    HeadWaits(s, q);
    assert ThreadOk(s, u);
  }

  ghost function ReleaseAll(s: State, q: QueueId): (r: State)
    requires Books(s) && CurrentOk(s)
    ensures Books(r) && CurrentOk(r) && Waiters(r, q) == [] && r.current == s.current && r.idle == s.idle
    ensures r.threads.Keys == s.threads.Keys
    decreases |Waiters(s, q)|
  {
    if Waiters(s, q) == [] then s else ReleaseAll(ReleaseOne(s, q), q)
  }

  lemma {:induction false} ReleaseAllDead(s: State, q: QueueId, u: nat)
    requires Books(s) && CurrentOk(s) && u in s.threads && s.threads[u].dead
    ensures u in ReleaseAll(s, q).threads && ReleaseAll(s, q).threads[u].dead
    decreases |Waiters(s, q)|
  {
    if Waiters(s, q) != [] {
      ReleaseDead(s, q, u);
      ReleaseAllDead(ReleaseOne(s, q), q, u);
    }
  }

  /** What remains of a thread that ends: no queue holds it and no timeout runs. */
  function Buried(s: State, t: nat): State
    requires t in s.threads
  {
    var a := Unready(s, t);
    var b := if a.threads[t].pendedOn.Some? then Unblock(a, t) else a;
    Mark(b, t, b.threads[t].(dead := true, timeout := false))
  }

  lemma BuriedCore(s: State, t: nat)
    requires Inv(s) && t in s.threads && t != s.idle
    ensures Books(Buried(s, t)) && CurrentOk(Buried(s, t))
    ensures Buried(s, t).threads[t].dead && Buried(s, t).threads.Keys == s.threads.Keys
  {
    UnreadyBooks(s, t);
    BuriedBooks(Unready(s, t), t);
  }

  lemma BuriedBooks(a: State, t: nat)
    requires Books(a) && t in a.threads && !a.threads[t].queued
    ensures var b := if a.threads[t].pendedOn.Some? then Unblock(a, t) else a;
            Books(Mark(b, t, b.threads[t].(dead := true, timeout := false)))
  {
    assert ThreadOk(a, t);
    if a.threads[t].pendedOn.Some? {
      UnblockBooks(a, t);
    }
    var b := if a.threads[t].pendedOn.Some? then Unblock(a, t) else a;
    MarkBooks(b, t, b.threads[t].(dead := true, timeout := false));
  }

  ghost function End(s: State, t: nat): (r: State)
    requires Inv(s) && t in s.threads && t != s.idle
    ensures Inv(r) && r.threads.Keys == s.threads.Keys && r.threads[t].dead
  {
    if s.threads[t].dead then s
    else
      BuriedCore(s, t);
      ReleaseAllDead(Buried(s, t), Joining(t), t);
      var r := ReleaseAll(Buried(s, t), Joining(t));
      UpdateCacheInv(r, true);
      UpdateCache(r, true)
  }

  /** A dead thread is in no queue and has no timeout that could bring it back. */
  lemma DeadIsGone(s: State, t: nat, q: QueueId)
    requires Inv(s) && t in s.threads && s.threads[t].dead
    ensures t !in s.runq && t !in Waiters(s, q) && !s.threads[t].timeout && s.cache != t
  {
    assert ThreadOk(s, t);
    SwapIsSafe(s);
  }

  // ----------------------------------------------------------------------- runs

  datatype Op =
    | StartOp(t: nat) | SuspendOp(t: nat) | ResumeOp(t: nat) | ReadyOp(t: nat)
    | PendOp(q: Option<QueueId>, timed: bool, unlock: bool)
    | UnpendOp(t: nat) | UnpendFirstOp(on: QueueId) | WakeOp(on: QueueId) | WakeAllOp(on: QueueId)
    | ExpireOp(t: nat) | SetPrioOp(t: nat, prio: int) | YieldOp | SleepOp | WakeupOp(t: nat)
    | EndOp(t: nat) | JoinOp(t: nat, wait: bool, timed: bool)
    | LockOp | UnlockOp | SwapOp

  predicate Named(s: State, t: nat) {
    t in s.threads && t != s.idle
  }

  /** The running thread is a proper thread that nothing prevents from running. */
  predicate AtThreadLevel(s: State) {
    s.current in s.threads && s.current != s.idle && !Prevented(s.threads[s.current])
  }

  /** What the kernel demands of its callers.  Only the running thread blocks itself,
      and a thread between being unpended and made ready has its priority left alone. */
  predicate Allowed(s: State, op: Op) {
    s.current in s.threads &&
    match op
    case StartOp(t) => Named(s, t)
    case SuspendOp(t) => Named(s, t)
    case ResumeOp(t) => Named(s, t)
    case ReadyOp(t) => Named(s, t)
    case PendOp(q, timed, unlock) => AtThreadLevel(s) && (unlock ==> s.threads[s.current].locked > 0)
    case UnpendOp(t) => t in s.threads && s.threads[t].pendedOn.Some?
    case UnpendFirstOp(q) => true
    case WakeOp(q) => true
    case WakeAllOp(q) => true
    case ExpireOp(t) => Named(s, t) && s.threads[t].timeout
    case SetPrioOp(t, prio) => Named(s, t) && (Ready(s.threads[t]) ==> s.threads[t].queued)
    case YieldOp => !Prevented(s.threads[s.current])
    case SleepOp => AtThreadLevel(s)
    case WakeupOp(t) => Named(s, t)
    case EndOp(t) => Named(s, t)
    case JoinOp(t, wait, timed) => AtThreadLevel(s) && t in s.threads
    case LockOp => AtThreadLevel(s) && s.threads[s.current].locked < 255
    case UnlockOp => AtThreadLevel(s) && s.threads[s.current].locked > 0
    case SwapOp => true
  }

  /** A thread waits for another to end, unless that is over, waiting is not wanted,
      or the two would wait for each other. */
  function Join(s: State, t: nat, wait: bool, timed: bool): (State, Option<int>)
    requires t in s.threads && s.current in s.threads
  {
    var code := JoinCode(s, t, wait);
    (if code == None then Pend(s, Some(Joining(t)), timed, false) else s, code)
  }

  function JoinCode(s: State, t: nat, wait: bool): Option<int>
    requires t in s.threads
  {
    if s.threads[t].dead then Some(0)
    else if !wait then Some(EBUSY)
    else if t == s.current || s.threads[t].pendedOn == Some(Joining(s.current)) then Some(EDEADLK)
    else None
  }

  ghost function WakeAll(s: State, q: QueueId): (r: State)
    requires Inv(s)
    ensures Inv(r)
    decreases |Waiters(s, q)|
  {
    if Waiters(s, q) == [] then s
    else
      HeadWaits(s, q);
      UnpendWaiters(s, Waiters(s, q)[0]);
      WakeInv(s, q);
      WakeAll(Wake(s, q), q)
  }

  lemma JoinInv(s: State, t: nat, wait: bool, timed: bool)
    requires Inv(s) && AtThreadLevel(s) && t in s.threads
    ensures Inv(Join(s, t, wait, timed).0)
  {
    PendInv(s, Some(Joining(t)), timed, false);
  }

  /** The running thread goes to wait. */
  ghost function WaitStep(s: State, op: Op): (r: State)
    requires Inv(s) && Allowed(s, op) && (op.PendOp? || op.JoinOp?)
    ensures Inv(r)
  {
    if op.PendOp? then PendInv(s, op.q, op.timed, op.unlock); Pend(s, op.q, op.timed, op.unlock)
    else JoinInv(s, op.t, op.wait, op.timed); Join(s, op.t, op.wait, op.timed).0
  }

  predicate ByRunner(op: Op) {
    op.YieldOp? || op.SleepOp? || op.LockOp? || op.UnlockOp? || op.SwapOp?
  }

  /** What else the running thread does. */
  ghost function RunnerStep(s: State, op: Op): (r: State)
    requires Inv(s) && Allowed(s, op) && ByRunner(op)
    ensures Inv(r)
  {
    if op.YieldOp? then YieldInv(s); Yield(s)
    else if op.SleepOp? then SleepInv(s); Sleep(s)
    else if op.LockOp? then LockInv(s); Lock(s)
    else if op.UnlockOp? then LockInv(s); Unlock(s)
    else SwapAnyInv(s); Swap(s)
  }

  predicate OnWaiters(op: Op) {
    op.UnpendOp? || op.UnpendFirstOp? || op.WakeOp? || op.WakeAllOp? || op.EndOp?
  }

  /** What is done to those who wait. */
  ghost function WaiterStep(s: State, op: Op): (r: State)
    requires Inv(s) && Allowed(s, op) && OnWaiters(op)
    ensures Inv(r)
  {
    if op.UnpendOp? then UnpendInv(s, op.t); Unpend(s, op.t)
    else if op.UnpendFirstOp? then UnpendFirstInv(s, op.on); UnpendFirst(s, op.on)
    else if op.WakeOp? then HeadOrNone(s, op.on); WakeInv(s, op.on); Wake(s, op.on)
    else if op.WakeAllOp? then WakeAll(s, op.on)
    else End(s, op.t)
  }

  predicate ByName(op: Op) {
    op.StartOp? || op.SuspendOp? || op.ResumeOp? || op.ReadyOp? || op.ExpireOp? || op.SetPrioOp? || op.WakeupOp?
  }

  /** What is done to a thread by name. */
  ghost function NamedStep(s: State, op: Op): (r: State)
    requires Inv(s) && Allowed(s, op) && ByName(op)
    ensures Inv(r)
  {
    if op.StartOp? then StartInv(s, op.t); Start(s, op.t)
    else if op.SuspendOp? then SuspendInv(s, op.t); Suspend(s, op.t)
    else if op.ResumeOp? then ResumeInv(s, op.t); Resume(s, op.t)
    else if op.ReadyOp? then MakeReadyCore(s, op.t); MakeReady(s, op.t)
    else if op.ExpireOp? then ExpireInv(s, op.t); Expire(s, op.t)
    else if op.SetPrioOp? then SetPrioInv(s, op.t, op.prio); SetPrio(s, op.t, op.prio)
    else WakeupInv(s, op.t); Wakeup(s, op.t)
  }

  /** Every operation keeps the invariant. */
  ghost function Step(s: State, op: Op): (r: State)
    requires Inv(s) && Allowed(s, op)
    ensures Inv(r)
  {
    if ByName(op) then NamedStep(s, op)
    else if OnWaiters(op) then WaiterStep(s, op)
    else if ByRunner(op) then RunnerStep(s, op)
    else WaitStep(s, op)
  }

  lemma HeadOrNone(s: State, q: QueueId)
    requires Books(s)
    ensures Waiters(s, q) != [] ==> Waiters(s, q)[0] in s.threads && s.threads[Waiters(s, q)[0]].pendedOn.Some?
  {
    if Waiters(s, q) != [] {
      HeadWaits(s, q);
    }
  }

  lemma UnpendFirstInv(s: State, q: QueueId)
    requires Inv(s)
    ensures Waiters(s, q) != [] ==> Waiters(s, q)[0] in s.threads && s.threads[Waiters(s, q)[0]].pendedOn.Some?
    ensures Inv(UnpendFirst(s, q))
  {
    HeadOrNone(s, q);
    if Waiters(s, q) != [] {
      UnpendInv(s, Waiters(s, q)[0]);
    }
  }

  /** At boot the main thread runs, ready and alone in the run queue. */
  predicate Initial(s: State) {
    && s.current in s.threads && s.idle in s.threads && s.current != s.idle
    && (forall t :: t in s.threads ==>
          var th := s.threads[t];
          th.queued == (t == s.current) && !th.pending && !th.dead && !th.suspended && !th.timeout &&
          th.pendedOn == None && th.prestart == (t != s.current && t != s.idle))
    && s.runq == [s.current] && s.waitqs == map[] && s.cache == s.current
  }

  lemma InitialInv(s: State)
    requires Initial(s)
    ensures Inv(s)
  {
    forall t | t in s.threads ensures ThreadOk(s, t) {
    }
  }

  /** The invariant holds after every run of operations; calls that the kernel's
      rules forbid are not made. */
  ghost function Run(s: State, ops: seq<Op>): (r: State)
    requires Inv(s)
    ensures Inv(r)
    decreases |ops|
  {
    if ops == [] then s
    else Run(if Allowed(s, ops[0]) then Step(s, ops[0]) else s, ops[1..])
  }

  lemma {:induction false} WakeAllDead(s: State, q: QueueId, u: nat)
    requires Inv(s) && u in s.threads && s.threads[u].dead
    ensures u in WakeAll(s, q).threads && WakeAll(s, q).threads[u].dead
    decreases |Waiters(s, q)|
  {
    if Waiters(s, q) != [] {
      HeadWaits(s, q);
      UnpendWaiters(s, Waiters(s, q)[0]);
      WakeInv(s, q);
      WakeAllDead(Wake(s, q), q, u);
    }
  }

  lemma EndDead(s: State, t: nat, u: nat)
    requires Inv(s) && Named(s, t) && u in s.threads && s.threads[u].dead
    ensures u in End(s, t).threads && End(s, t).threads[u].dead
  {
    if !s.threads[t].dead {
      BuriedCore(s, t);
      ReleaseAllDead(Buried(s, t), Joining(t), u);
    }
  }

  lemma ReadyDead(s: State, t: nat, th: Thread, u: nat)
    requires t in s.threads && s.current in s.threads && u in s.threads && s.threads[u].dead
    requires th.dead == s.threads[t].dead
    ensures u in Mark(s, t, th).threads && Mark(s, t, th).threads[u].dead
    ensures var r := MakeReady(Mark(s, t, th), t); u in r.threads && r.threads[u].dead
  {
  }

  lemma DeadStays(s: State, op: Op, u: nat)
    requires Inv(s) && Allowed(s, op) && u in s.threads && s.threads[u].dead
    ensures u in Step(s, op).threads && Step(s, op).threads[u].dead
  {
    if ByName(op) {
      DeadStaysNamed(s, op, u);
    } else if OnWaiters(op) {
      DeadStaysWaking(s, op, u);
    } else if ByRunner(op) {
      DeadStaysRunning(s, op, u);
    } else {
      DeadStaysWaiting(s, op, u);
    }
  }

  lemma DeadStaysRunning(s: State, op: Op, u: nat)
    requires Inv(s) && Allowed(s, op) && u in s.threads && s.threads[u].dead && ByRunner(op)
    ensures u in RunnerStep(s, op).threads && RunnerStep(s, op).threads[u].dead
  {
    if op.YieldOp? || op.SleepOp? {
      YieldDead(s, u);
    } else if op.LockOp? || op.UnlockOp? {
      LockDead(s, u);
    }
  }

  lemma DeadStaysWaiting(s: State, op: Op, u: nat)
    requires Inv(s) && Allowed(s, op) && u in s.threads && s.threads[u].dead && (op.PendOp? || op.JoinOp?)
    ensures u in WaitStep(s, op).threads && WaitStep(s, op).threads[u].dead
  {
    if op.PendOp? {
      PendDead(s, op.q, op.timed, op.unlock, u);
    } else {
      JoinDead(s, op.t, op.wait, op.timed, u);
    }
  }

  lemma JoinDead(s: State, t: nat, wait: bool, timed: bool, u: nat)
    requires s.current in s.threads && t in s.threads && u in s.threads && s.threads[u].dead
    ensures var r := Join(s, t, wait, timed).0; u in r.threads && r.threads[u].dead
  {
    PendDead(s, Some(Joining(t)), timed, false, u);
  }

  lemma YieldDead(s: State, u: nat)
    requires s.current in s.threads && u in s.threads && s.threads[u].dead
    ensures u in Yield(s).threads && Yield(s).threads[u].dead
    ensures u in Sleep(s).threads && Sleep(s).threads[u].dead
  {
  }

  lemma LockDead(s: State, u: nat)
    requires s.current in s.threads && u in s.threads && s.threads[u].dead
    ensures u in Lock(s).threads && Lock(s).threads[u].dead
    ensures s.threads[s.current].locked > 0 ==> u in Unlock(s).threads && Unlock(s).threads[u].dead
  {
  }

  lemma DeadStaysWaking(s: State, op: Op, u: nat)
    requires Inv(s) && Allowed(s, op) && u in s.threads && s.threads[u].dead && OnWaiters(op)
    ensures u in WaiterStep(s, op).threads && WaiterStep(s, op).threads[u].dead
  {
    if op.UnpendOp? {
      WakeDead(s, op.t, u);
    } else if op.EndOp? {
      EndDead(s, op.t, u);
    } else if op.WakeAllOp? {
      WakeAllDead(s, op.on, u);
    } else {
      HeadOrNone(s, op.on);
      if Waiters(s, op.on) != [] {
        WakeDead(s, Waiters(s, op.on)[0], u);
      }
    }
  }

  lemma DeadStaysNamed(s: State, op: Op, u: nat)
    requires Inv(s) && Allowed(s, op) && u in s.threads && s.threads[u].dead && ByName(op)
    ensures u in NamedStep(s, op).threads && NamedStep(s, op).threads[u].dead
  {
    var th := s.threads[op.t];
    if op.StartOp? {
      ReadyDead(s, op.t, th.(prestart := false), u);
    } else if op.SuspendOp? {
      BlockedDead(s, op.t, u);
    } else if op.ResumeOp? {
      ReadyDead(s, op.t, th.(suspended := false), u);
    } else if op.ReadyOp? {
      ReadyDead(s, op.t, th, u);
    } else if op.ExpireOp? {
      ExpireDead(s, op.t, u);
    } else if op.WakeupOp? {
      ReadyDead(s, op.t, th.(timeout := false, suspended := false), u);
    }
  }

  lemma BlockedDead(s: State, t: nat, u: nat)
    requires t in s.threads && s.current in s.threads && u in s.threads && s.threads[u].dead
    ensures var r := Suspend(s, t); u in r.threads && r.threads[u].dead
  {
  }

  lemma PendDead(s: State, q: Option<QueueId>, timed: bool, unlock: bool, u: nat)
    requires s.current in s.threads && (unlock ==> s.threads[s.current].locked > 0) && u in s.threads && s.threads[u].dead
    ensures var r := Pend(s, q, timed, unlock); u in r.threads && r.threads[u].dead
  {
  }

  lemma ExpireDead(s: State, t: nat, u: nat)
    requires t in s.threads && s.current in s.threads && u in s.threads && s.threads[u].dead
    ensures var r := Expire(s, t); u in r.threads && r.threads[u].dead
  {
  }

  lemma WakeDead(s: State, t: nat, u: nat)
    requires t in s.threads && s.threads[t].pendedOn.Some? && s.current in s.threads && u in s.threads && s.threads[u].dead
    ensures u in Unpend(s, t).threads && Unpend(s, t).threads[u].dead
    ensures var r := MakeReady(Unpend(s, t), t); u in r.threads && r.threads[u].dead
  {
  }

  /** Once a thread has ended, no later run of any operations queues it anywhere,
      arms a timeout for it or selects it to run. */
  lemma {:induction false} NeverBack(s: State, ops: seq<Op>, u: nat, q: QueueId)
    requires Inv(s) && u in s.threads && s.threads[u].dead
    ensures var r := Run(s, ops);
            u in r.threads && r.threads[u].dead && u !in r.runq && u !in Waiters(r, q) && r.cache != u
    decreases |ops|
  {
    if ops == [] {
      DeadIsGone(s, u, q);
    } else if Allowed(s, ops[0]) {
      DeadStays(s, ops[0], u);
      NeverBack(Step(s, ops[0]), ops[1..], u, q);
    } else {
      NeverBack(s, ops[1..], u, q);
    }
  }

  // ---------------------------------------------------- wait queues and priorities

  /** Joining and leaving a wait queue keep its threads in priority order. */
  lemma WaitersInOrder(s: State, t: nat, q: QueueId)
    requires Books(s) && t in s.threads && Ascending(Prios(s.threads, Waiters(s, q)))
    ensures Ascending(Prios(Block(s, t, q).threads, Waiters(Block(s, t, q), q)))
    ensures s.threads[t].pendedOn == Some(q) ==>
      Ascending(Prios(Unblock(s, t).threads, Waiters(Unblock(s, t), q)))
  {
    assert ListOk(s, Waiters(s, q));
    EnlistedAscending(s.threads, Waiters(s, q), t);
    var r := Block(s, t, q);
    assert Prios(s.threads, Waiters(r, q)) == Prios(r.threads, Waiters(r, q));
    if s.threads[t].pendedOn == Some(q) {
      WithoutAscending(s.threads, Waiters(s, q), t);
      var v := Unblock(s, t);
      assert Prios(s.threads, Waiters(v, q)) == Prios(v.threads, Waiters(v, q));
    }
  }

  /** Changing the priority of a waiting thread does not move it, so its queue stays
      in order exactly when the new priority still fits between its neighbours. */
  lemma SetPrioWaiting(s: State, q: QueueId, k: nat, prio: int)
    requires Inv(s) && k < |Waiters(s, q)| && Ascending(Prios(s.threads, Waiters(s, q)))
    ensures Waiters(s, q)[k] in s.threads
    ensures var ps, r := Prios(s.threads, Waiters(s, q)), SetPrio(s, Waiters(s, q)[k], prio);
            Waiters(r, q) == Waiters(s, q) &&
            (Ascending(Prios(r.threads, Waiters(r, q))) <==>
             (k == 0 || ps[k - 1] <= prio) && (k + 1 == |ps| || prio <= ps[k + 1]))
  {
    var list := Waiters(s, q);
    assert ListOk(s, list) && list[k] in list && ThreadOk(s, list[k]);
    var ps, r := Prios(s.threads, list), SetPrio(s, list[k], prio);
    assert Prios(r.threads, list) == ps[k := prio];
    Replaced(ps, k, prio);
  }

  /** A waiting thread of priority 5 that is set to 1 stays behind one of priority 3. */
  lemma SetPrioLosesOrder()
    ensures var waiting := Thread(3, 0, false, true, false, false, false, false, Some(Object(0)));
            var running := Thread(0, 0, true, false, false, false, false, false, None);
            var s := State(map[0 := running, 1 := waiting, 2 := waiting.(prio := 5)], [0], map[Object(0) := [1, 2]], 0, 0, 9);
            var r := SetPrio(s, 2, 1);
            Waiters(r, Object(0)) == [1, 2] && Prios(s.threads, [1, 2]) == [3, 5] && Prios(r.threads, [1, 2]) == [3, 1]
  {
  }

  lemma Replaced(ps: seq<int>, k: nat, prio: int)
    requires Ascending(ps) && k < |ps|
    ensures Ascending(ps[k := prio]) <==> (k == 0 || ps[k - 1] <= prio) && (k + 1 == |ps| || prio <= ps[k + 1])
  {
    var r := ps[k := prio];
    if (k == 0 || ps[k - 1] <= prio) && (k + 1 == |ps| || prio <= ps[k + 1]) {
      forall i, j | 0 <= i < j < |r| ensures r[i] <= r[j] {
        if j == k && i < k - 1 {
          assert ps[i] <= ps[k - 1];
        } else if i == k && j > k + 1 {
          assert ps[k + 1] <= ps[j];
        }
      }
    } else if k > 0 && prio < ps[k - 1] {
      assert r[k - 1] > r[k];
    } else {
      assert r[k] > r[k + 1];
    }
  }

  // --------------------------------------------------- what the operations are for

  lemma SuspendedState(s: State, t: nat)
    requires Inv(s) && Named(s, t) && s.threads[t].queued
    ensures var r := Suspend(s, t);
            r.threads.Keys == s.threads.Keys && r.threads[t] == s.threads[t].(queued := false, suspended := true) &&
            (forall u :: u in s.threads && u != t ==> r.threads[u] == s.threads[u]) &&
            r.runq == Without(s.runq, t) && r.waitqs == s.waitqs && r.current == s.current
  {
    assert ThreadOk(s, t);
  }

  /** Resuming a thread undoes suspending it: the same threads are in the run queue
      again and every bit of every thread is as before. */
  lemma SuspendResume(s: State, t: nat)
    requires Inv(s) && Named(s, t) && s.threads[t].queued
    ensures var r := Resume(Suspend(s, t), t);
            r.threads == s.threads && multiset(r.runq) == multiset(s.runq) && r.waitqs == s.waitqs
  {
    SuspendedState(s, t);
    var a := Suspend(s, t);
    var b := Mark(a, t, a.threads[t].(suspended := false));
    assert ThreadOk(s, t) && b.threads[t] == s.threads[t].(queued := false);
    assert Resume(a, t) == UpdateCache(Enqueue(b, t), false);
    assert Enqueue(b, t).threads == s.threads;
    InsertMembers(a.runq, Slot(Prios(b.threads, a.runq), b.threads[t].prio), t);
    assert ListOk(s, s.runq);
    WithoutMembers(s.runq, t);
  }

  /** Waking a queue takes off it a thread that no other waiter beats, leaves the
      others in place, and makes it runnable unless it is also suspended. */
  lemma WakeTakesBest(s: State, q: QueueId)
    requires Inv(s) && Waiters(s, q) != [] && Ascending(Prios(s.threads, Waiters(s, q)))
    ensures var t := Waiters(s, q)[0];
            t in s.threads && s.threads[t].pendedOn.Some? &&
            var r := Wake(s, q);
            Waiters(r, q) == Waiters(s, q)[1..] && r.threads[t].pendedOn == None && !r.threads[t].timeout &&
            (r.threads[t].queued <==> !s.threads[t].suspended && !s.threads[t].prestart) &&
            forall i :: 0 <= i < |Waiters(s, q)| ==>
              Waiters(s, q)[i] in s.threads && s.threads[t].prio <= s.threads[Waiters(s, q)[i]].prio
  {
    HeadWaits(s, q);
    var list := Waiters(s, q);
    var t := list[0];
    assert ThreadOk(s, t) && ListOk(s, list);
    WithoutAt(list, 0);
    assert list[..0] + list[1..] == list[1..];
    forall i | 0 <= i < |list| ensures list[i] in s.threads && s.threads[t].prio <= s.threads[list[i]].prio {
      assert Prios(s.threads, list)[0] <= Prios(s.threads, list)[i];
    }
  }

  /** A thread whose timeout fires leaves its wait queue and can run, whether it was
      waiting, asleep or not yet started. */
  lemma ExpireFrees(s: State, t: nat, q: QueueId)
    requires Inv(s) && Named(s, t) && s.threads[t].timeout && (s.threads[t].pending ==> s.threads[t].pendedOn.Some?)
    ensures var r := Expire(s, t); t in r.threads && r.threads[t].queued && t in r.runq && t !in Waiters(r, q)
  {
    assert ThreadOk(s, t);
    ExpireInv(s, t);
    assert ThreadOk(Expire(s, t), t);
  }

  /** Everyone behind a thread that was just queued has a lower priority. */
  lemma EnlistedLast(threads: map<nat, Thread>, list: seq<nat>, t: nat, i: nat, j: nat)
    requires t in threads && t !in list && Ascending(Prios(threads, list))
    requires i < j <= |list| && Enlisted(threads, list, t)[i] == t && Enlisted(threads, list, t)[j] in threads
    ensures threads[Enlisted(threads, list, t)[j]].prio > threads[t].prio
  {
    var k := Slot(Prios(threads, list), threads[t].prio);
    assert i == k;
    BehindSlot(Prios(threads, list), threads[t].prio, j - 1);
  }

  lemma YieldState(s: State)
    requires Inv(s) && AtThreadLevel(s)
    ensures var r, d := Yield(s), Dequeue(s, s.current);
            Books(d) && s.current !in d.runq && r.runq == Enlisted(d.threads, d.runq, s.current) && r.current == r.runq[0] &&
            r.threads == d.threads[s.current := d.threads[s.current].(queued := true)]
  {
    DequeueBooks(s, s.current);
  }

  /** After a yield the best thread runs, and every other thread of the yielder's
      priority comes before it. */
  lemma YieldPasses(s: State, i: nat, j: nat)
    requires Inv(s) && AtThreadLevel(s)
    requires i < j < |Yield(s).runq| && Yield(s).runq[i] == s.current
    ensures var r := Yield(s);
            r.current == r.runq[0] && s.current in r.threads && r.runq[j] in r.threads &&
            r.threads[r.runq[j]].prio > r.threads[s.current].prio
  {
    YieldState(s);
    YieldInv(s);
    var r, d := Yield(s), Dequeue(s, s.current);
    assert ListOk(r, r.runq);
    EnlistedLast(d.threads, d.runq, s.current, i, j);
  }
}
