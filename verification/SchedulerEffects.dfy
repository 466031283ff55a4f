/** What each scheduler operation does: which bits of which threads it changes, who is
    then in the run queue and in which place, and what is chosen to run next. */
module SchedulerEffects {
  import opened Common
  import opened Errno
  import opened PriorityOrder
  import opened Scheduler

  // -------------------------------------------------------------- bits of a thread

  predicate MayRun(th: Thread) {
    !th.pending && !th.prestart && !th.dead && !th.suspended && !th.timeout
  }

  /** The thread could run and no queue holds it. */
  predicate Stranded(th: Thread) {
    MayRun(th) && !th.queued
  }

  /** Others may take the processor from such a thread. */
  predicate GivesWay(th: Thread) {
    th.pending || th.prestart || th.dead || th.suspended || (th.locked == 0 && th.prio >= 0)
  }

  /** A sleeper can be woken: it waits for nothing but its timeout or a resume. */
  predicate Sleeps(th: Thread) {
    !th.pending && (th.timeout || (th.suspended && !th.queued && !th.prestart && !th.dead))
  }

  /** A join is neither over, unwanted nor a deadlock. */
  predicate JoinWaits(s: State, t: nat, wait: bool)
    requires t in s.threads
  {
    !s.threads[t].dead && wait && t != s.current && s.threads[t].pendedOn != Some(Joining(s.current))
  }

  /** The running thread goes to wait. */
  predicate Waits(s: State, op: Op)
    requires Allowed(s, op)
  {
    op.PendOp? || (op.JoinOp? && JoinWaits(s, op.t, op.wait))
  }

  /** The operation takes the thread off a wait queue. */
  predicate Frees(s: State, op: Op, u: nat)
    requires Allowed(s, op) && u in s.threads
  {
    match op
    case UnpendOp(t) => u == t
    case UnpendFirstOp(q) => Waiters(s, q) != [] && u == Waiters(s, q)[0]
    case WakeOp(q) => Waiters(s, q) != [] && u == Waiters(s, q)[0]
    case WakeAllOp(q) => u in Waiters(s, q)
    case ExpireOp(t) => u == t && !s.threads[t].dead && s.threads[t].pendedOn.Some?
    case EndOp(t) => !s.threads[t].dead && (u in Waiters(s, Joining(t)) || (u == t && s.threads[t].pendedOn.Some?))
    case _ => false
  }

  /** A thread after an operation, apart from whether it is in the run queue. */
  function After(s: State, op: Op, u: nat): Thread
    requires Allowed(s, op) && u in s.threads
  {
    var th, mine := s.threads[u], u == s.current;
    var frees, waits, fires := Frees(s, op, u), Waits(s, op) && mine, op == ExpireOp(u) && !th.dead;
    var wakes := op == WakeupOp(u) && Sleeps(th);
    th.(prio := if op.SetPrioOp? && op.t == u then op.prio else th.prio,
        locked := if mine && op.LockOp? then th.locked + 1
                  else if mine && (op.UnlockOp? || (op.PendOp? && op.unlock)) then th.locked - 1
                  else th.locked,
        dead := th.dead || op == EndOp(u),
        prestart := th.prestart && op != StartOp(u) && !fires,
        suspended := op == SuspendOp(u) || (op.SleepOp? && mine) || (th.suspended && op != ResumeOp(u) && !fires && !wakes),
        timeout := if waits then op.timed
                   else (op.SleepOp? && mine) ||
                        (th.timeout && !frees && !wakes && op != ExpireOp(u) && op != SuspendOp(u) && op != EndOp(u)),
        pending := waits || (th.pending && !frees),
        pendedOn := if waits then (if op.PendOp? then op.q else Some(Joining(op.t)))
                    else if frees then None else th.pendedOn)
  }

  /** Nothing but thread t changed, and that to th, apart from the run queue bit. */
  ghost predicate Touched(s: State, r: State, t: nat, th: Thread) {
    && r.threads.Keys == s.threads.Keys && t in s.threads
    && (forall u :: u in s.threads && u != t ==> r.threads[u] == s.threads[u])
    && r.threads[t] == th.(queued := r.threads[t].queued)
  }

  // ---------------------------------------------------------------- one by one

  lemma ReadyEffect(s: State, t: nat, th: Thread)
    requires Books(s) && t in s.threads && s.current in s.threads && !th.queued
    ensures var r := MakeReady(Mark(s, t, th), t);
            && Touched(s, r, t, th) && (r.threads[t].queued <==> MayRun(th))
            && r.waitqs == s.waitqs && r.current == s.current && r.idle == s.idle
  {
  }

  lemma StartEffect(s: State, t: nat)
    requires Inv(s) && Named(s, t)
    ensures var r := Start(s, t);
            Touched(s, r, t, After(s, StartOp(t), t)) && (Stranded(r.threads[t]) ==> Stranded(s.threads[t]))
  {
    assert ThreadOk(s, t);
    if s.threads[t].prestart {
      ReadyEffect(s, t, s.threads[t].(prestart := false));
    }
  }

  lemma ResumeEffect(s: State, t: nat)
    requires Inv(s) && Named(s, t)
    ensures var r := Resume(s, t);
            Touched(s, r, t, After(s, ResumeOp(t), t)) && (Stranded(r.threads[t]) ==> Stranded(s.threads[t]))
  {
    assert ThreadOk(s, t);
    if s.threads[t].suspended {
      ReadyEffect(s, t, s.threads[t].(suspended := false));
    }
  }

  lemma ReadyOpEffect(s: State, t: nat)
    requires Inv(s) && Named(s, t)
    ensures var r := MakeReady(s, t);
            Touched(s, r, t, After(s, ReadyOp(t), t)) && !Stranded(r.threads[t])
  {
  }

  lemma WakeupEffect(s: State, t: nat)
    requires Inv(s) && Named(s, t)
    ensures var r := Wakeup(s, t);
            Touched(s, r, t, After(s, WakeupOp(t), t)) && (Stranded(r.threads[t]) ==> Stranded(s.threads[t]))
  {
    assert ThreadOk(s, t);
    if Sleeps(s.threads[t]) {
      ReadyEffect(s, t, s.threads[t].(timeout := false, suspended := false));
    }
  }

  lemma SuspendEffect(s: State, t: nat)
    requires Inv(s) && Named(s, t)
    ensures var r := Suspend(s, t);
            && Touched(s, r, t, After(s, SuspendOp(t), t)) && r.runq == Without(s.runq, t) && r.waitqs == s.waitqs
            && r.current == s.current
            && r.cache == (if t == s.current || GivesWay(r.threads[s.current]) then Best(r) else s.current)
  {
    assert ThreadOk(s, t);
  }

  lemma ExpireEffect(s: State, t: nat)
    requires Inv(s) && Named(s, t) && s.threads[t].timeout
    ensures var r := Expire(s, t);
            Touched(s, r, t, After(s, ExpireOp(t), t)) && !Stranded(r.threads[t])
  {
    assert ThreadOk(s, t);
  }

  lemma SetPrioEffect(s: State, t: nat, prio: int)
    requires Inv(s) && Named(s, t) && (Ready(s.threads[t]) ==> s.threads[t].queued)
    ensures Touched(s, SetPrio(s, t, prio), t, After(s, SetPrioOp(t, prio), t))
    ensures SetPrio(s, t, prio).threads[t].queued == s.threads[t].queued
  {
    assert ThreadOk(s, t);
  }

  /** The operation is done to thread t by name. */
  ghost predicate About(s: State, op: Op, t: nat) {
    ByName(op) && op.t == t && t in s.threads
  }

  lemma OnlyTheNamed(s: State, op: Op, t: nat, u: nat)
    requires Allowed(s, op) && About(s, op, t) && u in s.threads && u != t
    ensures After(s, op, u) == s.threads[u]
  {
  }

  lemma NamedTouches(s: State, op: Op, t: nat)
    requires Inv(s) && Allowed(s, op) && About(s, op, t)
    ensures Touched(s, NamedStep(s, op), t, After(s, op, t))
  {
    match op
    case StartOp(_) => StartEffect(s, t);
    case ResumeOp(_) => ResumeEffect(s, t);
    case ReadyOp(_) => ReadyOpEffect(s, t);
    case WakeupOp(_) => WakeupEffect(s, t);
    case SuspendOp(_) => SuspendEffect(s, t);
    case ExpireOp(_) => ExpireEffect(s, t);
    case SetPrioOp(_, prio) => SetPrioEffect(s, t, prio);
  }

  lemma NamedBits(s: State, op: Op, t: nat, u: nat)
    requires Inv(s) && Allowed(s, op) && About(s, op, t) && u in s.threads
    ensures var r := NamedStep(s, op); u in r.threads && r.threads[u] == After(s, op, u).(queued := r.threads[u].queued)
  {
    NamedTouches(s, op, t);
    if u != t {
      OnlyTheNamed(s, op, t, u);
    }
  }

  /** Before the running thread waits, it gives up its lock and its place. */
  function Leaving(s: State, unlock: bool): State
    requires s.current in s.threads && (unlock ==> s.threads[s.current].locked > 0)
  {
    var t := s.current;
    var a := if unlock then Mark(s, t, s.threads[t].(locked := s.threads[t].locked - 1)) else s;
    UpdateCache(Unready(a, t), true)
  }

  lemma LeavingEffect(s: State, unlock: bool)
    requires Inv(s) && AtThreadLevel(s) && (unlock ==> s.threads[s.current].locked > 0)
    ensures var r, th := Leaving(s, unlock), s.threads[s.current];
            && r.threads == s.threads[s.current := th.(queued := false, locked := if unlock then th.locked - 1 else th.locked)]
            && r.runq == Without(s.runq, s.current) && r.waitqs == s.waitqs && r.current == s.current && r.idle == s.idle
            && r.cache == Best(r)
  {
    assert ThreadOk(s, s.current);
  }

  lemma WaitingEffect(s: State, t: nat, q: Option<QueueId>, timed: bool)
    requires t in s.threads
    ensures var r, th := Waiting(s, t, q, timed), s.threads[t];
            && r.threads == s.threads[t := th.(pending := true, timeout := timed, pendedOn := if q.Some? then q else th.pendedOn)]
            && r.runq == s.runq && r.cache == s.cache && r.current == s.current && r.idle == s.idle
            && (forall p :: Waiters(r, p) == if q == Some(p) then Enlisted(s.threads, Waiters(s, p), t) else Waiters(s, p))
  {
  }

  lemma PendIs(s: State, q: Option<QueueId>, timed: bool, unlock: bool)
    requires s.current in s.threads && (unlock ==> s.threads[s.current].locked > 0)
    ensures Pend(s, q, timed, unlock) == Swap(Waiting(Leaving(s, unlock), s.current, q, timed))
  {
  }

  lemma PendEffect(s: State, q: Option<QueueId>, timed: bool, unlock: bool)
    requires Inv(s) && Allowed(s, PendOp(q, timed, unlock))
    ensures var r, th := Pend(s, q, timed, unlock), s.threads[s.current];
            && Touched(s, r, s.current, th.(locked := if unlock then th.locked - 1 else th.locked,
                                            pending := true, timeout := timed, pendedOn := q))
            && !r.threads[s.current].queued
            && r.runq == Without(s.runq, s.current) && r.current == r.cache == Best(r)
            && (forall p :: q != Some(p) ==> Waiters(r, p) == Waiters(s, p))
  {
    assert ThreadOk(s, s.current);
    PendIs(s, q, timed, unlock);
    LeavingEffect(s, unlock);
    var b := Leaving(s, unlock);
    WaitingEffect(b, s.current, q, timed);
    SwapAfter(s, b, Waiting(b, s.current, q, timed), q, timed, unlock);
  }

  lemma SwapAfter(s: State, b: State, c: State, q: Option<QueueId>, timed: bool, unlock: bool)
    requires s.current in s.threads && s.threads[s.current].pendedOn == None
    requires var th := s.threads[s.current];
             b.threads == s.threads[s.current := th.(queued := false, locked := if unlock && th.locked > 0 then th.locked - 1 else th.locked)]
    requires c.threads == b.threads[s.current := b.threads[s.current].(pending := true, timeout := timed, pendedOn := q)]
    requires b.runq == Without(s.runq, s.current) && b.waitqs == s.waitqs && b.cache == Best(b) && b.idle == s.idle
    requires c.runq == b.runq && c.cache == b.cache && c.idle == b.idle && forall p :: q != Some(p) ==> Waiters(c, p) == Waiters(b, p)
    ensures var r, th := Swap(c), s.threads[s.current];
            && Touched(s, r, s.current, th.(locked := if unlock && th.locked > 0 then th.locked - 1 else th.locked,
                                            pending := true, timeout := timed, pendedOn := q))
            && !r.threads[s.current].queued
            && r.runq == Without(s.runq, s.current) && r.current == r.cache == Best(r)
            && (forall p :: q != Some(p) ==> Waiters(r, p) == Waiters(s, p))
  {
  }

  /** A thread that joins a wait queue stands behind everyone it does not beat. */
  lemma PendPlace(s: State, q: QueueId, timed: bool, unlock: bool)
    requires Inv(s) && Allowed(s, PendOp(Some(q), timed, unlock)) && Ascending(Prios(s.threads, Waiters(s, q)))
    ensures Joins(Waiters(s, q), Prios(s.threads, Waiters(s, q)), s.current, s.threads[s.current].prio,
                  Waiters(Pend(s, Some(q), timed, unlock), q))
  {
    var t, list, b := s.current, Waiters(s, q), Leaving(s, unlock);
    PendIs(s, Some(q), timed, unlock);
    LeavingEffect(s, unlock);
    WaitingEffect(b, t, Some(q), timed);
    LeavingPrios(s, b, t, list);
    SlotJoins(list, Prios(s.threads, list), t, s.threads[t].prio);
  }

  lemma LeavingPrios(s: State, b: State, t: nat, list: seq<nat>)
    requires t in s.threads && b.threads.Keys == s.threads.Keys && forall u :: u in s.threads ==> b.threads[u].prio == s.threads[u].prio
    ensures Enlisted(b.threads, list, t) == InsertAt(list, Slot(Prios(s.threads, list), s.threads[t].prio), t)
  {
    assert Prios(b.threads, list) == Prios(s.threads, list);
  }

  /** Which join answers what: 0 for a thread that has ended, -EBUSY without waiting,
      -EDEADLK for itself or one that waits for the caller; every other waits. */
  lemma JoinAnswers(s: State, t: nat, wait: bool, timed: bool)
    requires Inv(s) && AtThreadLevel(s) && t in s.threads
    ensures var (r, code) := Join(s, t, wait, timed);
            && (code == Some(0) <==> s.threads[t].dead)
            && (code == Some(-16) <==> !s.threads[t].dead && !wait)
            && (code == Some(-33) <==> !s.threads[t].dead && wait && (t == s.current || t in Waiters(s, Joining(s.current))))
            && (code == None <==> JoinWaits(s, t, wait)) && (code != None ==> r == s)
            && (code == None ==> r == Pend(s, Some(Joining(t)), timed, false))
  {
    assert ThreadOk(s, t);
  }

  lemma PendSame(s: State, t: nat, wait: bool, timed: bool)
    requires Allowed(s, JoinOp(t, wait, timed)) && JoinWaits(s, t, wait)
    ensures Allowed(s, PendOp(Some(Joining(t)), timed, false))
    ensures After(s, JoinOp(t, wait, timed), s.current) == After(s, PendOp(Some(Joining(t)), timed, false), s.current)
  {
  }

  lemma WaitTouches(s: State, op: Op)
    requires Inv(s) && Allowed(s, op) && (op.PendOp? || op.JoinOp?)
    ensures Touched(s, WaitStep(s, op), s.current, After(s, op, s.current))
    ensures Waits(s, op) ==> !WaitStep(s, op).threads[s.current].queued
    ensures !Waits(s, op) ==> WaitStep(s, op) == s
  {
    if op.PendOp? {
      PendTouches(s, op.q, op.timed, op.unlock);
    } else {
      JoinAnswers(s, op.t, op.wait, op.timed);
      if JoinWaits(s, op.t, op.wait) {
        PendSame(s, op.t, op.wait, op.timed);
        PendTouches(s, Some(Joining(op.t)), op.timed, false);
      }
    }
  }

  lemma PendTouches(s: State, q: Option<QueueId>, timed: bool, unlock: bool)
    requires Inv(s) && Allowed(s, PendOp(q, timed, unlock))
    ensures Touched(s, Pend(s, q, timed, unlock), s.current, After(s, PendOp(q, timed, unlock), s.current))
    ensures !Pend(s, q, timed, unlock).threads[s.current].queued
  {
    PendEffect(s, q, timed, unlock);
    AfterPending(s, q, timed, unlock);
  }

  lemma AfterPending(s: State, q: Option<QueueId>, timed: bool, unlock: bool)
    requires Inv(s) && Allowed(s, PendOp(q, timed, unlock))
    ensures var th := s.threads[s.current];
            After(s, PendOp(q, timed, unlock), s.current) ==
            th.(locked := if unlock then th.locked - 1 else th.locked, pending := true, timeout := timed, pendedOn := q)
  {
  }

  lemma OnlyTheRunner(s: State, op: Op, u: nat)
    requires Allowed(s, op) && (ByRunner(op) || op.PendOp? || op.JoinOp?) && u in s.threads && u != s.current
    ensures After(s, op, u) == s.threads[u]
  {
  }

  lemma YieldEffect(s: State)
    requires Inv(s) && !Prevented(s.threads[s.current])
    ensures Touched(s, Yield(s), s.current, s.threads[s.current])
    ensures Yield(s).threads[s.current].queued == s.threads[s.current].queued
    ensures var r := Yield(s); r.current == r.cache && (s.current != s.idle ==> r.cache == Best(r))
  {
    assert ThreadOk(s, s.current);
  }

  lemma SleepEffect(s: State)
    requires Inv(s) && AtThreadLevel(s)
    ensures var r := Sleep(s);
            && Touched(s, r, s.current, s.threads[s.current].(suspended := true, timeout := true)) && !r.threads[s.current].queued
            && r.runq == Without(s.runq, s.current) && r.waitqs == s.waitqs && r.current == r.cache == Best(r)
  {
    assert ThreadOk(s, s.current);
  }

  lemma LockEffect(s: State)
    requires Inv(s) && AtThreadLevel(s)
    ensures var th := s.threads[s.current];
            && Lock(s) == s.(threads := s.threads[s.current := th.(locked := th.locked + 1)])
            && (th.locked > 0 ==>
                  var r := Unlock(s);
                  && r.threads == s.threads[s.current := th.(locked := th.locked - 1)] && r.runq == s.runq && r.waitqs == s.waitqs
                  && r.current == s.current && r.cache == (if GivesWay(r.threads[s.current]) then Best(r) else s.current))
  {
  }

  lemma RunnerTouches(s: State, op: Op)
    requires Inv(s) && Allowed(s, op) && ByRunner(op)
    ensures Touched(s, RunnerStep(s, op), s.current, After(s, op, s.current))
    ensures var a, b := s.threads[s.current], RunnerStep(s, op).threads[s.current];
            if op.SleepOp? then !b.queued && !MayRun(b) else b.queued == a.queued
  {
    match op
    case YieldOp => YieldEffect(s);
    case SleepOp => SleepEffect(s);
    case LockOp => LockEffect(s);
    case UnlockOp => LockEffect(s);
    case SwapOp =>
  }

  // ---------------------------------------------------------------- those who wait

  function Freed(th: Thread): Thread {
    th.(pending := false, pendedOn := None, timeout := false)
  }

  lemma UnpendEffect(s: State, t: nat)
    requires Books(s) && t in s.threads && s.threads[t].pendedOn.Some?
    ensures var r := Unpend(s, t);
            && Touched(s, r, t, Freed(s.threads[t])) && r.threads[t].queued == s.threads[t].queued == false
            && r.runq == s.runq && r.current == s.current && r.cache == s.cache && r.idle == s.idle
            && t !in Waiters(r, s.threads[t].pendedOn.value)
            && (forall q :: s.threads[t].pendedOn != Some(q) ==> Waiters(r, q) == Waiters(s, q))
  {
    assert ThreadOk(s, t);
  }

  lemma ReleaseEffect(s: State, q: QueueId)
    requires Books(s) && CurrentOk(s) && Waiters(s, q) != []
    ensures var t, r := Waiters(s, q)[0], ReleaseOne(s, q);
            && t in s.threads && Touched(s, r, t, Freed(s.threads[t])) && (r.threads[t].queued <==> MayRun(r.threads[t]))
            && Waiters(r, q) == Waiters(s, q)[1..]
  {
    HeadWaits(s, q);
    var t := Waiters(s, q)[0];
    UnpendEffect(s, t);
    UnpendsHead(s, q);
  }

  lemma UnpendsHead(s: State, q: QueueId)
    requires Books(s) && Waiters(s, q) != [] && Waiters(s, q)[0] in s.threads && s.threads[Waiters(s, q)[0]].pendedOn == Some(q)
    ensures Waiters(Unpend(s, Waiters(s, q)[0]), q) == Waiters(s, q)[1..]
  {
    var list := Waiters(s, q);
    assert ListOk(s, list);
    WithoutAt(list, 0);
    assert list[..0] + list[1..] == list[1..];
  }

  lemma {:induction false} ReleaseAllEffect(s: State, q: QueueId, u: nat)
    requires Books(s) && CurrentOk(s) && u in s.threads
    ensures var r := ReleaseAll(s, q);
            if u in Waiters(s, q) then
              r.threads[u] == Freed(s.threads[u]).(queued := MayRun(Freed(s.threads[u])))
            else r.threads[u] == s.threads[u]
    decreases |Waiters(s, q)|
  {
    var list := Waiters(s, q);
    if list != [] {
      ReleaseEffect(s, q);
      assert ListOk(s, list);
      ReleaseAllEffect(ReleaseOne(s, q), q, u);
      assert u in list <==> u == list[0] || u in list[1..];
      assert list[0] !in list[1..];
    }
  }

  lemma {:induction false} WakeAllReleases(s: State, q: QueueId)
    requires Inv(s)
    ensures WakeAll(s, q) == ReleaseAll(s, q)
    decreases |Waiters(s, q)|
  {
    if Waiters(s, q) != [] {
      HeadWaits(s, q);
      UnpendWaiters(s, Waiters(s, q)[0]);
      WakeInv(s, q);
      WakeAllReleases(Wake(s, q), q);
    }
  }

  lemma UnreadyEffect(s: State, t: nat)
    requires Books(s) && t in s.threads
    ensures var r := Unready(s, t);
            r.threads == s.threads[t := s.threads[t].(queued := false)] && r.runq == Without(s.runq, t) && r.waitqs == s.waitqs
  {
    assert ThreadOk(s, t);
  }

  lemma BuriedEffect(s: State, t: nat)
    requires Inv(s) && Named(s, t) && !s.threads[t].dead
    ensures var b, th := Buried(s, t), s.threads[t];
            && Touched(s, b, t, th.(dead := true, timeout := false, pending := th.pending && th.pendedOn == None, pendedOn := None))
            && !b.threads[t].queued
  {
    UnreadyEffect(s, t);
    var a := Unready(s, t);
    if s.threads[t].pendedOn.Some? {
      UnblockEffect(a, t);
    }
    var b := if a.threads[t].pendedOn.Some? then Unblock(a, t) else a;
    BuryMarks(s, b, t);
  }

  lemma BuriedWaiters(s: State, t: nat, q: QueueId)
    requires Inv(s) && Named(s, t)
    ensures Waiters(Buried(s, t), q) == if s.threads[t].pendedOn == Some(q) then Without(Waiters(s, q), t) else Waiters(s, q)
  {
    UnreadyEffect(s, t);
    if s.threads[t].pendedOn.Some? {
      UnblockEffect(Unready(s, t), t);
    }
  }

  lemma UnblockEffect(s: State, t: nat)
    requires t in s.threads && s.threads[t].pendedOn.Some?
    ensures var r := Unblock(s, t);
            && r.threads == s.threads[t := s.threads[t].(pending := false, pendedOn := None)] && r.runq == s.runq
            && (forall q :: Waiters(r, q) == if s.threads[t].pendedOn == Some(q) then Without(Waiters(s, q), t) else Waiters(s, q))
  {
  }

  lemma BuryMarks(s: State, b: State, t: nat)
    requires t in s.threads && b.threads.Keys == s.threads.Keys && (forall u :: u in s.threads && u != t ==> b.threads[u] == s.threads[u])
    requires var th := s.threads[t];
             b.threads[t] == th.(queued := false, pending := th.pending && th.pendedOn == None, pendedOn := None)
    ensures var r, th := Mark(b, t, b.threads[t].(dead := true, timeout := false)), s.threads[t];
            && Touched(s, r, t, th.(dead := true, timeout := false, pending := th.pending && th.pendedOn == None, pendedOn := None))
            && !r.threads[t].queued && r.waitqs == b.waitqs
  {
  }

  lemma EndEffect(s: State, t: nat, u: nat)
    requires Inv(s) && Named(s, t) && u in s.threads && !s.threads[t].dead
    ensures var r, th := End(s, t), s.threads[u];
            && r.cache == Best(r) && r.current == s.current
            && r.threads[u] ==
               if u == t then th.(queued := false, dead := true, timeout := false, pending := th.pending && th.pendedOn == None, pendedOn := None)
               else if u in Waiters(s, Joining(t)) then Freed(th).(queued := MayRun(Freed(th)))
               else th
  {
    BuriedCore(s, t);
    BuriedEffect(s, t);
    BuriedWaiters(s, t, Joining(t));
    assert ThreadOk(s, t);
    ReleaseAllEffect(Buried(s, t), Joining(t), u);
  }

  lemma WaitersKnown(s: State, q: QueueId, u: nat)
    requires Books(s) && u in Waiters(s, q)
    ensures u in s.threads && s.threads[u].pendedOn == Some(q) && s.threads[u].pending && !s.threads[u].queued
  {
    assert ListOk(s, Waiters(s, q));
    assert ThreadOk(s, u);
  }

  lemma EndBits(s: State, t: nat, u: nat)
    requires Inv(s) && Named(s, t) && u in s.threads && Allowed(s, EndOp(t))
    ensures var r := End(s, t);
            && r.threads[u] == After(s, EndOp(t), u).(queued := r.threads[u].queued)
            && (MayRun(r.threads[u]) && !r.threads[u].queued ==> MayRun(s.threads[u]) && !s.threads[u].queued)
  {
    AfterEnding(s, t, u);
    if !s.threads[t].dead {
      EndEffect(s, t, u);
    }
  }

  lemma AfterEnding(s: State, t: nat, u: nat)
    requires Inv(s) && Named(s, t) && u in s.threads && Allowed(s, EndOp(t))
    ensures var th := s.threads[u];
            After(s, EndOp(t), u) ==
            if s.threads[t].dead then th
            else if u == t then th.(dead := true, timeout := false, pending := th.pending && th.pendedOn == None, pendedOn := None)
            else if u in Waiters(s, Joining(t)) then Freed(th)
            else th
  {
    assert ThreadOk(s, t) && ThreadOk(s, u);
  }

  lemma AfterWaking(s: State, op: Op, u: nat)
    requires Allowed(s, op) && (op.WakeOp? || op.WakeAllOp?) && u in s.threads
    ensures After(s, op, u) == if Frees(s, op, u) then Freed(s.threads[u]) else s.threads[u]
  {
  }

  lemma WakeAllEffect(s: State, q: QueueId, u: nat)
    requires Inv(s) && u in s.threads
    ensures var r := WakeAll(s, q);
            u in r.threads && Woken(s.threads[u], u in Waiters(s, q), r.threads[u])
  {
    WakeAllReleases(s, q);
    ReleaseAllEffect(s, q, u);
  }

  predicate Woken(before: Thread, waited: bool, after: Thread) {
    after == if waited then Freed(before).(queued := MayRun(Freed(before))) else before
  }

  lemma WokenBits(before: Thread, waited: bool, after: Thread)
    requires Woken(before, waited, after)
    ensures after == (if waited then Freed(before) else before).(queued := after.queued)
    ensures MayRun(after) && !after.queued ==> MayRun(before) && !before.queued
  {
  }

  lemma WakeAllBits(s: State, q: QueueId, u: nat)
    requires Inv(s) && u in s.threads
    ensures var r := WakeAll(s, q);
            && u in r.threads && r.threads[u] == After(s, WakeAllOp(q), u).(queued := r.threads[u].queued)
            && (MayRun(r.threads[u]) && !r.threads[u].queued ==> MayRun(s.threads[u]) && !s.threads[u].queued)
  {
    AfterWaking(s, WakeAllOp(q), u);
    WakeAllEffect(s, q, u);
    WokenBits(s.threads[u], u in Waiters(s, q), WakeAll(s, q).threads[u]);
  }

  lemma WakeIs(s: State, q: QueueId)
    requires Inv(s) && Waiters(s, q) != []
    requires Waiters(s, q)[0] in s.threads && s.threads[Waiters(s, q)[0]].pendedOn.Some?
    ensures Wake(s, q) == ReleaseOne(s, q)
  {
  }

  lemma WakeBits(s: State, q: QueueId, u: nat)
    requires Inv(s) && u in s.threads
    requires Waiters(s, q) != [] ==> Waiters(s, q)[0] in s.threads && s.threads[Waiters(s, q)[0]].pendedOn.Some?
    ensures var r := Wake(s, q);
            && u in r.threads && r.threads[u] == After(s, WakeOp(q), u).(queued := r.threads[u].queued)
            && (MayRun(r.threads[u]) && !r.threads[u].queued ==> MayRun(s.threads[u]) && !s.threads[u].queued)
  {
    AfterWaking(s, WakeOp(q), u);
    if Waiters(s, q) != [] {
      WakeIs(s, q);
      ReleaseEffect(s, q);
    }
  }

  lemma AfterUnpending(s: State, op: Op, u: nat)
    requires Allowed(s, op) && (op.UnpendOp? || op.UnpendFirstOp?) && u in s.threads
    ensures After(s, op, u) == if Frees(s, op, u) then Freed(s.threads[u]) else s.threads[u]
  {
  }

  lemma UnpendBits(s: State, op: Op, u: nat)
    requires Inv(s) && Allowed(s, op) && (op.UnpendOp? || op.UnpendFirstOp?) && u in s.threads
    ensures var r := WaiterStep(s, op);
            && u in r.threads && r.threads[u] == After(s, op, u).(queued := r.threads[u].queued)
            && r.threads[u].queued == s.threads[u].queued
  {
    AfterUnpending(s, op, u);
    if op.UnpendOp? {
      UnpendEffect(s, op.t);
    } else if Waiters(s, op.on) != [] {
      HeadWaits(s, op.on);
      UnpendEffect(s, Waiters(s, op.on)[0]);
    }
  }

  lemma WaiterBits(s: State, op: Op, u: nat)
    requires Inv(s) && Allowed(s, op) && OnWaiters(op) && u in s.threads
    ensures var r := WaiterStep(s, op);
            && u in r.threads && r.threads[u] == After(s, op, u).(queued := r.threads[u].queued)
            && (MayRun(r.threads[u]) && !r.threads[u].queued ==>
                  (MayRun(s.threads[u]) && !s.threads[u].queued) || ((op.UnpendOp? || op.UnpendFirstOp?) && Frees(s, op, u)))
  {
    match op
    case UnpendOp(_) => UnpendBits(s, op, u);
    case UnpendFirstOp(_) => UnpendBits(s, op, u);
    case WakeOp(q) =>
      HeadOrNone(s, q);
      WakeBits(s, q, u);
    case WakeAllOp(q) => WakeAllBits(s, q, u);
    case EndOp(t) => EndBits(s, t, u);
  }

  // -------------------------------------------------------------- every operation

  /** Every operation changes exactly these bits of exactly these threads. */
  lemma StepBits(s: State, op: Op, u: nat)
    requires Inv(s) && Allowed(s, op) && u in s.threads
    ensures var r := Step(s, op); u in r.threads && r.threads[u] == After(s, op, u).(queued := r.threads[u].queued)
  {
    if ByName(op) {
      NamedBits(s, op, op.t, u);
    } else if OnWaiters(op) {
      WaiterBits(s, op, u);
    } else if u != s.current {
      OnlyTheRunner(s, op, u);
      if ByRunner(op) {
        RunnerTouches(s, op);
      } else {
        WaitTouches(s, op);
      }
    } else if ByRunner(op) {
      RunnerTouches(s, op);
    } else {
      WaitTouches(s, op);
    }
  }

  lemma NamedStrands(s: State, op: Op, t: nat, u: nat)
    requires Inv(s) && Allowed(s, op) && About(s, op, t) && u in s.threads
    ensures var r := NamedStep(s, op);
            u in r.threads && (Stranded(r.threads[u]) ==> Stranded(s.threads[u]) && op != ReadyOp(u))
  {
    NamedTouches(s, op, t);
    NamedLands(s, op, t);
  }

  lemma NamedLands(s: State, op: Op, t: nat)
    requires Inv(s) && Allowed(s, op) && About(s, op, t)
    ensures var r := NamedStep(s, op);
            t in r.threads && (Stranded(r.threads[t]) ==> Stranded(s.threads[t]) && !op.ReadyOp?)
  {
    match op
    case StartOp(_) => StartEffect(s, t);
    case ResumeOp(_) => ResumeEffect(s, t);
    case ReadyOp(_) => ReadyOpEffect(s, t);
    case WakeupOp(_) => WakeupEffect(s, t);
    case SuspendOp(_) => SuspendEffect(s, t);
    case ExpireOp(_) => ExpireEffect(s, t);
    case SetPrioOp(_, prio) => SetPrioEffect(s, t, prio);
  }

  lemma RunnerStrands(s: State, op: Op, u: nat)
    requires Inv(s) && Allowed(s, op) && ByRunner(op) && u in s.threads
    ensures var r := RunnerStep(s, op); u in r.threads && (Stranded(r.threads[u]) ==> Stranded(s.threads[u]))
  {
    RunnerTouches(s, op);
    if !op.SleepOp? {
      RunnerReady(s, op);
    }
  }

  lemma RunnerReady(s: State, op: Op)
    requires Inv(s) && Allowed(s, op) && ByRunner(op) && !op.SleepOp?
    ensures MayRun(After(s, op, s.current)) == MayRun(s.threads[s.current])
  {
  }

  lemma WaitStrands(s: State, op: Op, u: nat)
    requires Inv(s) && Allowed(s, op) && (op.PendOp? || op.JoinOp?) && u in s.threads
    ensures var r := WaitStep(s, op); u in r.threads && (Stranded(r.threads[u]) ==> Stranded(s.threads[u]))
  {
    WaitTouches(s, op);
    if Waits(s, op) {
      WaiterNotReady(s, op);
    }
  }

  lemma WaiterNotReady(s: State, op: Op)
    requires Allowed(s, op) && Waits(s, op)
    ensures !MayRun(After(s, op, s.current))
  {
  }

  /** No operation strands a thread but taking it off a wait queue without making it
      ready, and making it ready puts that right. */
  lemma StepStrands(s: State, op: Op, u: nat)
    requires Inv(s) && Allowed(s, op) && u in s.threads
    ensures var r := Step(s, op);
            u in r.threads &&
            (Stranded(r.threads[u]) ==>
               op != ReadyOp(u) && (Stranded(s.threads[u]) || ((op.UnpendOp? || op.UnpendFirstOp?) && Frees(s, op, u))))
  {
    if ByName(op) {
      NamedStrands(s, op, op.t, u);
    } else if OnWaiters(op) {
      WaiterBits(s, op, u);
    } else if ByRunner(op) {
      RunnerStrands(s, op, u);
    } else {
      WaitStrands(s, op, u);
    }
  }

  /** The run queue holds exactly the threads that could run. */
  ghost predicate AllQueued(s: State) {
    forall u :: u in s.threads && u != s.idle ==> (u in s.runq <==> MayRun(s.threads[u]))
  }

  lemma QueuedOrStranded(s: State)
    requires Inv(s)
    ensures AllQueued(s) <==> forall u :: u in s.threads && u != s.idle ==> !Stranded(s.threads[u])
  {
    forall u | u in s.threads && u != s.idle ensures (u in s.runq <==> MayRun(s.threads[u])) <==> !Stranded(s.threads[u]) {
      assert ThreadOk(s, u);
    }
  }

  predicate TwoSteps(op: Op) {
    op.UnpendOp? || op.UnpendFirstOp?
  }

  lemma NamedIdle(s: State, op: Op)
    requires Inv(s) && Allowed(s, op) && ByName(op)
    ensures NamedStep(s, op).idle == s.idle
  {
  }

  lemma WaiterIdle(s: State, op: Op)
    requires Inv(s) && Allowed(s, op) && OnWaiters(op)
    ensures WaiterStep(s, op).idle == s.idle && WaiterStep(s, op).threads.Keys == s.threads.Keys
  {
    match op
    case WakeAllOp(q) => WakeAllReleases(s, q);
    case EndOp(t) => BuriedCore(s, t);
    case WakeOp(q) =>
      HeadOrNone(s, q);
      if Waiters(s, q) != [] {
        WakeIs(s, q);
      }
    case UnpendOp(t) => UnpendEffect(s, t);
    case UnpendFirstOp(q) =>
      if Waiters(s, q) != [] {
        HeadWaits(s, q);
        UnpendEffect(s, Waiters(s, q)[0]);
      }
  }

  lemma RunnerIdle(s: State, op: Op)
    requires Inv(s) && Allowed(s, op) && ByRunner(op)
    ensures RunnerStep(s, op).idle == s.idle
  {
  }

  lemma WaitIdle(s: State, op: Op)
    requires Inv(s) && Allowed(s, op) && (op.PendOp? || op.JoinOp?)
    ensures WaitStep(s, op).idle == s.idle
  {
  }

  lemma StepIdle(s: State, op: Op)
    requires Inv(s) && Allowed(s, op)
    ensures Step(s, op).idle == s.idle && Step(s, op).threads.Keys == s.threads.Keys
  {
    if ByName(op) {
      NamedTouches(s, op, op.t);
      NamedIdle(s, op);
    } else if OnWaiters(op) {
      WaiterIdle(s, op);
    } else if ByRunner(op) {
      RunnerTouches(s, op);
      RunnerIdle(s, op);
    } else {
      WaitTouches(s, op);
      WaitIdle(s, op);
    }
  }

  /** Over every run in which threads are woken and not just unpended, the run queue
      holds exactly the threads that could run: none is forgotten. */
  lemma {:induction false} RunForgetsNobody(s: State, ops: seq<Op>)
    requires Inv(s) && AllQueued(s) && forall i :: 0 <= i < |ops| ==> !TwoSteps(ops[i])
    ensures AllQueued(Run(s, ops))
    decreases |ops|
  {
    if ops != [] {
      if Allowed(s, ops[0]) {
        StepAllQueued(s, ops[0]);
        RunForgetsNobody(Step(s, ops[0]), ops[1..]);
      } else {
        RunForgetsNobody(s, ops[1..]);
      }
    }
  }

  lemma StepAllQueued(s: State, op: Op)
    requires Inv(s) && AllQueued(s) && Allowed(s, op) && !TwoSteps(op)
    ensures AllQueued(Step(s, op))
  {
    var r := Step(s, op);
    StepIdle(s, op);
    QueuedOrStranded(s);
    forall u | u in r.threads && u != r.idle ensures !Stranded(r.threads[u]) {
      StepStrands(s, op, u);
    }
    QueuedOrStranded(r);
  }

  lemma InitialAllQueued(s: State)
    requires Initial(s)
    ensures AllQueued(s)
  {
  }

  // ------------------------------------------------ places and the choice to run

  /** A running thread that must not be preempted goes on; otherwise the best one runs. */
  function Choice(s: State): nat
    requires s.current in s.threads
  {
    if GivesWay(s.threads[s.current]) then Best(s) else s.current
  }

  /** Thread t is queued behind everyone it does not beat and the choice is made anew, or
      neither queue nor choice changes. */
  ghost predicate Placed(s: State, r: State, t: nat) {
    && t in r.threads && r.current == s.current && r.current in r.threads
    && if r.threads[t].queued && t !in s.runq then
         Joins(s.runq, Prios(s.threads, s.runq), t, r.threads[t].prio, r.runq) && r.cache == Choice(r)
       else r.runq == s.runq && r.cache == s.cache
  }

  lemma ReadyPlace(s: State, t: nat, th: Thread)
    requires Books(s) && t in s.threads && s.current in s.threads && !th.queued && !s.threads[t].queued
    ensures Placed(s, MakeReady(Mark(s, t, th), t), t)
  {
    assert ThreadOk(s, t);
    var a := Mark(s, t, th);
    assert Prios(a.threads, s.runq) == Prios(s.threads, s.runq);
    SlotJoins(s.runq, Prios(s.threads, s.runq), t, th.prio);
  }

  lemma SameReady(s: State, t: nat)
    requires t in s.threads
    ensures Mark(s, t, s.threads[t]) == s
  {
  }

  /** Whoever is started, resumed, woken or made ready takes such a place. */
  lemma NamedPlace(s: State, op: Op)
    requires Inv(s) && Allowed(s, op) && (op.StartOp? || op.ResumeOp? || op.ReadyOp? || op.WakeupOp?)
    ensures Placed(s, NamedStep(s, op), op.t)
  {
    var t, th := op.t, s.threads[op.t];
    assert ThreadOk(s, t);
    if !th.queued {
      match op
      case StartOp(_) => ReadyPlace(s, t, th.(prestart := false));
      case ResumeOp(_) => ReadyPlace(s, t, th.(suspended := false));
      case ReadyOp(_) =>
        ReadyPlace(s, t, th);
        SameReady(s, t);
      case WakeupOp(_) => ReadyPlace(s, t, th.(timeout := false, suspended := false));
    }
  }

  lemma PlacedFrom(s: State, a: State, r: State, t: nat)
    requires Placed(a, r, t) && a.runq == s.runq && a.cache == s.cache && a.current == s.current
    requires Prios(a.threads, s.runq) == Prios(s.threads, s.runq)
    ensures Placed(s, r, t)
  {
  }

  lemma UnpendedPlace(s: State, t: nat)
    requires Books(s) && t in s.threads && s.current in s.threads && s.threads[t].pendedOn.Some?
    ensures Placed(s, MakeReady(Unpend(s, t), t), t)
  {
    assert ThreadOk(s, t);
    UnpendBooks(s, t);
    UnpendEffect(s, t);
    var a := Unpend(s, t);
    assert ListOk(s, s.runq) && Prios(a.threads, s.runq) == Prios(s.threads, s.runq);
    ReadyPlace(a, t, a.threads[t]);
    SameReady(a, t);
    PlacedFrom(s, a, MakeReady(a, t), t);
  }

  lemma WokenPlace(s: State, q: QueueId)
    requires Inv(s) && Waiters(s, q) != [] && Waiters(s, q)[0] in s.threads && s.threads[Waiters(s, q)[0]].pendedOn.Some?
    ensures Placed(s, Wake(s, q), Waiters(s, q)[0])
  {
    UnpendedPlace(s, Waiters(s, q)[0]);
  }

  /** A change of priority gives the thread that priority and nothing else.  A ready one
      moves behind everyone of the same or a higher priority and before the others, who
      keep their order, and the best thread of the run queue is chosen. */
  lemma SetPrioPlaces(s: State, t: nat, prio: int)
    requires Inv(s) && t in s.threads && (Ready(s.threads[t]) ==> s.threads[t].queued)
    ensures var r, rest := SetPrio(s, t, prio), Without(s.runq, t);
            && r.threads == s.threads[t := s.threads[t].(prio := prio)]
            && r.waitqs == s.waitqs && r.current == s.current && r.idle == s.idle
            && multiset(r.runq) == multiset(s.runq)
            && (MayRun(s.threads[t]) ==>
                  Joins(rest, Prios(s.threads, rest), t, prio, r.runq) && r.cache == r.runq[0])
            && (!MayRun(s.threads[t]) ==> r.runq == s.runq && r.cache == s.cache)
  {
    assert ThreadOk(s, t);
    if MayRun(s.threads[t]) {
      RequeuedState(s, t, prio);
      var rest := Without(s.runq, t);
      DequeueBooks(s, t);
      assert Prios(Dequeue(s, t).threads, rest) == Prios(s.threads, rest);
      SlotJoins(rest, Prios(s.threads, rest), t, prio);
      RequeuedMembers(s, t, Slot(Prios(s.threads, rest), prio));
    }
  }

  lemma RequeuedMembers(s: State, t: nat, k: nat)
    requires Books(s) && t in s.runq && k <= |Without(s.runq, t)|
    ensures multiset(InsertAt(Without(s.runq, t), k, t)) == multiset(s.runq)
  {
    assert ListOk(s, s.runq);
    WithoutMembers(s.runq, t);
    InsertMembers(Without(s.runq, t), k, t);
  }

  lemma RequeuedState(s: State, t: nat, prio: int)
    requires t in s.threads && s.current in s.threads && MayRun(s.threads[t]) && s.threads[t].queued
    ensures var r, rest := SetPrio(s, t, prio), Without(s.runq, t);
            && r.threads == s.threads[t := s.threads[t].(prio := prio)]
            && r.waitqs == s.waitqs && r.current == s.current && r.idle == s.idle
            && r.runq == InsertAt(rest, Slot(Prios(s.threads, rest), prio), t) && r.cache == r.runq[0]
  {
    var rest, d := Without(s.runq, t), Dequeue(s, t);
    var m := Mark(d, t, d.threads[t].(prio := prio));
    assert Prios(m.threads, rest) == Prios(s.threads, rest);
    assert m.threads[t := m.threads[t].(queued := true)] == s.threads[t := s.threads[t].(prio := prio)];
  }

  lemma ExpirePlace(s: State, t: nat)
    requires Inv(s) && Named(s, t) && s.threads[t].timeout
    ensures Placed(s, Expire(s, t), t)
  {
    assert ThreadOk(s, t);
    var a := Mark(s, t, s.threads[t].(timeout := false));
    MarkBooks(s, t, a.threads[t]);
    if !s.threads[t].dead {
      var b := if a.threads[t].pendedOn.Some? then Unblock(a, t) else a;
      if a.threads[t].pendedOn.Some? {
        UnblockBooks(a, t);
      }
      assert ListOk(s, s.runq) && Prios(b.threads, s.runq) == Prios(s.threads, s.runq);
      var th := b.threads[t].(prestart := false, suspended := false);
      ReadyPlace(b, t, th);
      PlacedFrom(s, b, MakeReady(Mark(b, t, th), t), t);
    }
  }

  ghost predicate Ahead(list: seq<nat>, u: nat, v: nat) {
    exists i, j :: 0 <= i < j < |list| && list[i] == u && list[j] == v
  }

  lemma JoinKeepsAhead(s: State, r: State, t: nat, u: nat, v: nat)
    requires Placed(s, r, t) && Ahead(s.runq, u, v)
    ensures Ahead(r.runq, u, v)
  {
    var i, j :| 0 <= i < j < |s.runq| && s.runq[i] == u && s.runq[j] == v;
    if r.runq != s.runq {
      var k: nat :| k <= |s.runq| && r.runq == s.runq[..k] + [t] + s.runq[k..];
      InsertKeepsAhead(s.runq, k, t, i, j);
    }
  }

  lemma InsertKeepsAhead(q: seq<nat>, k: nat, t: nat, i: nat, j: nat)
    requires i < j < |q| && k <= |q|
    ensures Ahead(q[..k] + [t] + q[k..], q[i], q[j])
  {
    var r, a, b := q[..k] + [t] + q[k..], if i < k then i else i + 1, if j < k then j else j + 1;
    assert a < b < |r| && r[a] == q[i] && r[b] == q[j];
  }

  lemma JoinsBehindEquals(s: State, r: State, u: nat, v: nat)
    requires Placed(s, r, v) && v !in s.runq && r.threads[v].queued && u in s.runq && u in s.threads
    requires s.threads[u].prio <= r.threads[v].prio
    ensures Ahead(r.runq, u, v)
  {
    var i :| 0 <= i < |s.runq| && s.runq[i] == u;
    var ps := Prios(s.threads, s.runq);
    var k: nat :| k <= |s.runq| && r.runq == s.runq[..k] + [v] + s.runq[k..] && Divides(ps, r.threads[v].prio, k);
    assert ps[i] == s.threads[u].prio;
    assert i < k && r.runq[i] == u && r.runq[k] == v;
  }

  lemma ReleasePlace(s: State, q: QueueId)
    requires Books(s) && CurrentOk(s) && Waiters(s, q) != []
    ensures Waiters(s, q)[0] in s.threads && Placed(s, ReleaseOne(s, q), Waiters(s, q)[0])
  {
    HeadWaits(s, q);
    UnpendedPlace(s, Waiters(s, q)[0]);
  }

  lemma {:induction false} ReleaseKeepsAhead(s: State, q: QueueId, u: nat, v: nat)
    requires Books(s) && CurrentOk(s) && Ahead(s.runq, u, v)
    ensures Ahead(ReleaseAll(s, q).runq, u, v)
    decreases |Waiters(s, q)|
  {
    if Waiters(s, q) != [] {
      ReleasePlace(s, q);
      JoinKeepsAhead(s, ReleaseOne(s, q), Waiters(s, q)[0], u, v);
      ReleaseKeepsAhead(ReleaseOne(s, q), q, u, v);
    }
  }

  /** A waiter that is released with others comes behind everyone who was in the run
      queue before it and whom it does not beat. */
  lemma {:induction false} ReleasedBehind(s: State, q: QueueId, u: nat, v: nat)
    requires Books(s) && CurrentOk(s) && u in s.runq && u in s.threads && v in Waiters(s, q) && v in s.threads
    requires MayRun(Freed(s.threads[v])) && s.threads[u].prio <= s.threads[v].prio
    ensures Ahead(ReleaseAll(s, q).runq, u, v)
    decreases |Waiters(s, q)|
  {
    var list, r := Waiters(s, q), ReleaseOne(s, q);
    assert ThreadOk(s, v) && ThreadOk(s, u) && ListOk(s, list);
    ReleasePlace(s, q);
    ReleaseEffect(s, q);
    if v == list[0] {
      JoinsBehindEquals(s, r, u, v);
      ReleaseKeepsAhead(r, q, u, v);
    } else {
      assert v in list[1..];
      StaysQueued(s, r, list[0], u);
      ReleasedBehind(r, q, u, v);
    }
  }

  lemma StaysQueued(s: State, r: State, t: nat, u: nat)
    requires Placed(s, r, t) && u in s.runq
    ensures u in r.runq
  {
    var i :| 0 <= i < |s.runq| && s.runq[i] == u;
    if r.runq != s.runq {
      var k: nat :| k <= |s.runq| && r.runq == s.runq[..k] + [t] + s.runq[k..];
      assert r.runq[if i < k then i else i + 1] == u;
    }
  }

  lemma TailAhead(list: seq<nat>, u: nat, v: nat)
    requires Ahead(list, u, v)
    ensures list != [] && v in list[1..] && (u != list[0] ==> Ahead(list[1..], u, v))
  {
    var i, j :| 0 <= i < j < |list| && list[i] == u && list[j] == v;
    assert list[1..][j - 1] == v;
    if u != list[0] {
      assert list[1..][i - 1] == u;
    }
  }

  /** Waiters that are released together enter the run queue in the order in which they
      waited, unless a later one has the higher priority. */
  lemma {:induction false} ReleasedInOrder(s: State, q: QueueId, u: nat, v: nat)
    requires Books(s) && CurrentOk(s) && Ahead(Waiters(s, q), u, v) && u in s.threads && v in s.threads
    requires s.threads[u].prio <= s.threads[v].prio && MayRun(Freed(s.threads[u])) && MayRun(Freed(s.threads[v]))
    ensures Ahead(ReleaseAll(s, q).runq, u, v)
    decreases |Waiters(s, q)|
  {
    TailAhead(Waiters(s, q), u, v);
    ReleaseEffect(s, q);
    WaitersDiffer(s, q, v);
    if u == Waiters(s, q)[0] {
      FirstReleased(s, q, v);
    } else {
      ReleasedInOrder(ReleaseOne(s, q), q, u, v);
    }
  }

  lemma WaitersDiffer(s: State, q: QueueId, v: nat)
    requires Books(s) && Waiters(s, q) != [] && v in Waiters(s, q)[1..]
    ensures v != Waiters(s, q)[0] && v in Waiters(s, q)
  {
    assert ListOk(s, Waiters(s, q));
    var j :| 0 <= j < |Waiters(s, q)[1..]| && Waiters(s, q)[1..][j] == v;
    assert Waiters(s, q)[j + 1] == v;
  }

  lemma FirstReleased(s: State, q: QueueId, v: nat)
    requires Books(s) && CurrentOk(s) && Waiters(s, q) != [] && v in Waiters(s, q)[1..]
    requires var u := Waiters(s, q)[0];
             && u in s.threads && v in s.threads && s.threads[u].prio <= s.threads[v].prio
             && MayRun(Freed(s.threads[u])) && MayRun(Freed(s.threads[v]))
    ensures Ahead(ReleaseAll(s, q).runq, Waiters(s, q)[0], v)
  {
    var u, r := Waiters(s, q)[0], ReleaseOne(s, q);
    ReleaseEffect(s, q);
    WaitersDiffer(s, q, v);
    assert ThreadOk(r, u);
    ReleasedBehind(r, q, u, v);
  }
}
