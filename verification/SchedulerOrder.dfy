/** Wait queues in priority order, over whole runs of the scheduler. */
module SchedulerOrder {
  import opened Common
  import opened PriorityOrder
  import opened Scheduler

  ghost predicate WaitsOrdered(s: State) {
    forall q :: Ascending(Prios(s.threads, Waiters(s, q)))
  }

  /** No thread changes its priority or its wait queue. */
  ghost predicate Calm(s: State, r: State) {
    r.waitqs == s.waitqs && forall t :: t in s.threads ==> t in r.threads && r.threads[t].prio == s.threads[t].prio
  }

  lemma CalmOrdered(s: State, r: State)
    requires Books(s) && WaitsOrdered(s) && Calm(s, r)
    ensures WaitsOrdered(r)
  {
    forall q ensures Ascending(Prios(r.threads, Waiters(r, q))) {
      assert ListOk(s, Waiters(s, q)) && Waiters(r, q) == Waiters(s, q);
      SamePrios(s.threads, r.threads, Waiters(s, q));
      assert Ascending(Prios(s.threads, Waiters(s, q)));
    }
  }

  lemma BlockOrdered(s: State, t: nat, q: QueueId)
    requires Books(s) && WaitsOrdered(s) && t in s.threads
    ensures WaitsOrdered(Block(s, t, q))
  {
    var r := Block(s, t, q);
    assert Ascending(Prios(s.threads, Waiters(s, q)));
    WaitersInOrder(s, t, q);
    forall p ensures Ascending(Prios(r.threads, Waiters(r, p))) {
      if p != q {
        assert ListOk(s, Waiters(s, p)) && Waiters(r, p) == Waiters(s, p);
        SamePrios(s.threads, r.threads, Waiters(s, p));
        assert Ascending(Prios(s.threads, Waiters(s, p)));
      }
    }
  }

  lemma UnblockOrdered(s: State, t: nat)
    requires Books(s) && WaitsOrdered(s) && t in s.threads && s.threads[t].pendedOn.Some?
    ensures WaitsOrdered(Unblock(s, t))
  {
    var r, q := Unblock(s, t), s.threads[t].pendedOn.value;
    assert Ascending(Prios(s.threads, Waiters(s, q)));
    WaitersInOrder(s, t, q);
    forall p ensures Ascending(Prios(r.threads, Waiters(r, p))) {
      if p != q {
        assert ListOk(s, Waiters(s, p)) && Waiters(r, p) == Waiters(s, p);
        SamePrios(s.threads, r.threads, Waiters(s, p));
        assert Ascending(Prios(s.threads, Waiters(s, p)));
      }
    }
  }

  lemma UnpendOrdered(s: State, t: nat)
    requires Books(s) && WaitsOrdered(s) && t in s.threads && s.threads[t].pendedOn.Some?
    ensures WaitsOrdered(Unpend(s, t))
  {
    UnblockBooks(s, t);
    UnblockOrdered(s, t);
    CalmOrdered(Unblock(s, t), Unpend(s, t));
  }

  // -------------------------------------------------------- what moves nobody

  lemma ReadyCalm(s: State, t: nat, th: Thread)
    requires t in s.threads && s.current in s.threads && th.prio == s.threads[t].prio
    ensures Calm(s, Mark(s, t, th)) && Calm(s, MakeReady(Mark(s, t, th), t))
  {
  }

  lemma MakeReadyCalm(s: State, t: nat)
    requires t in s.threads && s.current in s.threads
    ensures Calm(s, MakeReady(s, t))
  {
  }

  lemma SuspendCalm(s: State, t: nat)
    requires t in s.threads && s.current in s.threads
    ensures Calm(s, Suspend(s, t))
  {
  }

  lemma RunningCalm(s: State)
    requires s.current in s.threads
    ensures Calm(s, Yield(s)) && Calm(s, Sleep(s)) && Calm(s, Lock(s)) && Calm(s, Swap(s))
    ensures s.threads[s.current].locked > 0 ==> Calm(s, Unlock(s))
  {
  }

  lemma WokenOrdered(s: State, t: nat)
    requires Books(s) && WaitsOrdered(s) && t in s.threads && s.threads[t].pendedOn.Some? && s.current in s.threads
    ensures WaitsOrdered(MakeReady(Unpend(s, t), t))
  {
    UnpendBooks(s, t);
    UnpendOrdered(s, t);
    MakeReadyCalm(Unpend(s, t), t);
    CalmOrdered(Unpend(s, t), MakeReady(Unpend(s, t), t));
  }

  // ------------------------------------------------------------- the other steps

  lemma WaitingOrdered(b: State, t: nat, q: Option<QueueId>, timed: bool)
    requires Books(b) && WaitsOrdered(b) && t in b.threads && !b.threads[t].queued && b.threads[t].pendedOn == None && !b.threads[t].dead
    ensures WaitsOrdered(Waiting(b, t, q, timed))
  {
    if q.Some? {
      BlockOrdered(b, t, q.value);
      BlockBooks(b, t, q.value);
      CalmOrdered(Block(b, t, q.value), Waiting(b, t, q, timed));
    } else {
      CalmOrdered(b, Waiting(b, t, q, timed));
    }
  }

  lemma PendOrdered(s: State, q: Option<QueueId>, timed: bool, unlock: bool)
    requires Inv(s) && WaitsOrdered(s) && AtThreadLevel(s) && (unlock ==> s.threads[s.current].locked > 0)
    ensures WaitsOrdered(Pend(s, q, timed, unlock))
  {
    var t := s.current;
    assert ThreadOk(s, t);
    var a := if unlock then Mark(s, t, s.threads[t].(locked := s.threads[t].locked - 1)) else s;
    if unlock {
      MarkBooks(s, t, a.threads[t]);
    }
    UnreadyBooks(a, t);
    var b := UpdateCache(Unready(a, t), true);
    SameBooks(Unready(a, t), b);
    CalmOrdered(s, b);
    WaitingOrdered(b, t, q, timed);
    WaitingBooks(b, t, q, timed);
    CalmOrdered(Waiting(b, t, q, timed), Swap(Waiting(b, t, q, timed)));
  }

  lemma ExpireOrdered(s: State, t: nat)
    requires Inv(s) && WaitsOrdered(s) && t in s.threads
    ensures WaitsOrdered(Expire(s, t))
  {
    assert ThreadOk(s, t);
    var a := Mark(s, t, s.threads[t].(timeout := false));
    MarkBooks(s, t, a.threads[t]);
    CalmOrdered(s, a);
    if !s.threads[t].dead {
      var b := if a.threads[t].pendedOn.Some? then Unblock(a, t) else a;
      if a.threads[t].pendedOn.Some? {
        UnblockBooks(a, t);
        UnblockOrdered(a, t);
      }
      ReadyCalm(b, t, b.threads[t].(prestart := false, suspended := false));
      CalmOrdered(b, Expire(s, t));
    }
  }

  /** The new priority of a waiting thread lies between those of its neighbours. */
  ghost predicate Fits(s: State, t: nat, prio: int) {
    forall q, k :: 0 <= k < |Waiters(s, q)| && Waiters(s, q)[k] == t ==>
      var ps := Prios(s.threads, Waiters(s, q));
      (k == 0 || ps[k - 1] <= prio) && (k + 1 == |ps| || prio <= ps[k + 1])
  }

  lemma SetPrioOrdered(s: State, t: nat, prio: int)
    requires Inv(s) && WaitsOrdered(s) && t in s.threads && Fits(s, t, prio)
    ensures WaitsOrdered(SetPrio(s, t, prio))
  {
    var r := SetPrio(s, t, prio);
    forall q ensures Ascending(Prios(r.threads, Waiters(r, q))) {
      var list := Waiters(s, q);
      assert ListOk(s, list) && Waiters(r, q) == list && Ascending(Prios(s.threads, list));
      if t in list {
        var k :| 0 <= k < |list| && list[k] == t;
        SetPrioWaiting(s, q, k, prio);
      } else {
        assert forall i :: 0 <= i < |list| ==> list[i] in list;
        SamePrios(s.threads, r.threads, list);
      }
    }
  }

  lemma ReleaseOneOrdered(s: State, q: QueueId)
    requires Books(s) && CurrentOk(s) && WaitsOrdered(s) && Waiters(s, q) != []
    ensures WaitsOrdered(ReleaseOne(s, q))
  {
    HeadWaits(s, q);
    WokenOrdered(s, Waiters(s, q)[0]);
  }

  lemma {:induction false} ReleaseAllOrdered(s: State, q: QueueId)
    requires Books(s) && CurrentOk(s) && WaitsOrdered(s)
    ensures WaitsOrdered(ReleaseAll(s, q))
    decreases |Waiters(s, q)|
  {
    if Waiters(s, q) != [] {
      ReleaseOneOrdered(s, q);
      ReleaseAllOrdered(ReleaseOne(s, q), q);
    }
  }

  lemma {:induction false} WakeAllOrdered(s: State, q: QueueId)
    requires Inv(s) && WaitsOrdered(s)
    ensures WaitsOrdered(WakeAll(s, q))
    decreases |Waiters(s, q)|
  {
    if Waiters(s, q) != [] {
      HeadWaits(s, q);
      UnpendWaiters(s, Waiters(s, q)[0]);
      WakeInv(s, q);
      WokenOrdered(s, Waiters(s, q)[0]);
      WakeAllOrdered(Wake(s, q), q);
    }
  }

  lemma BuriedOrdered(s: State, t: nat)
    requires Inv(s) && WaitsOrdered(s) && t in s.threads
    ensures WaitsOrdered(Buried(s, t))
  {
    var a := Unready(s, t);
    UnreadyBooks(s, t);
    CalmOrdered(s, a);
    if a.threads[t].pendedOn.Some? {
      UnblockBooks(a, t);
      UnblockOrdered(a, t);
      CalmOrdered(Unblock(a, t), Buried(s, t));
    } else {
      CalmOrdered(a, Buried(s, t));
    }
  }

  lemma EndOrdered(s: State, t: nat)
    requires Inv(s) && WaitsOrdered(s) && Named(s, t)
    ensures WaitsOrdered(End(s, t))
  {
    if !s.threads[t].dead {
      BuriedCore(s, t);
      BuriedOrdered(s, t);
      ReleaseAllOrdered(Buried(s, t), Joining(t));
      CalmOrdered(ReleaseAll(Buried(s, t), Joining(t)), End(s, t));
    }
  }

  // ----------------------------------------------------------------------- runs

  lemma RunningOrdered(s: State, op: Op)
    requires Inv(s) && Allowed(s, op) && WaitsOrdered(s) && ByRunner(op)
    ensures WaitsOrdered(RunnerStep(s, op))
  {
    RunningCalm(s);
    CalmOrdered(s, RunnerStep(s, op));
  }

  lemma JoinOrdered(s: State, t: nat, wait: bool, timed: bool)
    requires Inv(s) && WaitsOrdered(s) && AtThreadLevel(s) && t in s.threads
    ensures WaitsOrdered(Join(s, t, wait, timed).0)
  {
    if JoinCode(s, t, wait) == None {
      PendOrdered(s, Some(Joining(t)), timed, false);
      assert Join(s, t, wait, timed).0 == Pend(s, Some(Joining(t)), timed, false);
    }
  }

  lemma WaitStepOrdered(s: State, op: Op)
    requires Inv(s) && Allowed(s, op) && WaitsOrdered(s) && (op.PendOp? || op.JoinOp?)
    ensures WaitsOrdered(WaitStep(s, op))
  {
    if op.PendOp? {
      PendOrdered(s, op.q, op.timed, op.unlock);
      assert WaitStep(s, op) == Pend(s, op.q, op.timed, op.unlock);
    } else {
      JoinOrdered(s, op.t, op.wait, op.timed);
      assert WaitStep(s, op) == Join(s, op.t, op.wait, op.timed).0;
    }
  }

  lemma WakingOrdered(s: State, op: Op)
    requires Inv(s) && Allowed(s, op) && WaitsOrdered(s) && OnWaiters(op)
    ensures WaitsOrdered(WaiterStep(s, op))
  {
    if op.UnpendOp? {
      UnpendOrdered(s, op.t);
    } else if op.EndOp? {
      EndOrdered(s, op.t);
    } else if op.WakeAllOp? {
      WakeAllOrdered(s, op.on);
    } else {
      HeadOrNone(s, op.on);
      if Waiters(s, op.on) != [] {
        UnpendOrdered(s, Waiters(s, op.on)[0]);
        WokenOrdered(s, Waiters(s, op.on)[0]);
      }
    }
  }

  lemma StartedCalm(s: State, t: nat)
    requires t in s.threads && s.current in s.threads
    ensures Calm(s, Start(s, t)) && Calm(s, Resume(s, t)) && Calm(s, Wakeup(s, t))
  {
    var th := s.threads[t];
    ReadyCalm(s, t, th.(prestart := false));
    ReadyCalm(s, t, th.(suspended := false));
    ReadyCalm(s, t, th.(timeout := false, suspended := false));
  }

  lemma NamedOrdered(s: State, op: Op)
    requires Inv(s) && Allowed(s, op) && WaitsOrdered(s) && (op.SetPrioOp? ==> Fits(s, op.t, op.prio))
    requires ByName(op)
    ensures WaitsOrdered(NamedStep(s, op))
  {
    if op.ExpireOp? {
      ExpireOrdered(s, op.t);
    } else if op.SetPrioOp? {
      SetPrioOrdered(s, op.t, op.prio);
    } else {
      StartedCalm(s, op.t);
      MakeReadyCalm(s, op.t);
      SuspendCalm(s, op.t);
      CalmOrdered(s, NamedStep(s, op));
    }
  }

  lemma StepOrdered(s: State, op: Op)
    requires Inv(s) && Allowed(s, op) && WaitsOrdered(s) && (op.SetPrioOp? ==> Fits(s, op.t, op.prio))
    ensures WaitsOrdered(Step(s, op))
  {
    if ByName(op) {
      NamedOrdered(s, op);
    } else if OnWaiters(op) {
      WakingOrdered(s, op);
    } else if ByRunner(op) {
      RunningOrdered(s, op);
    } else {
      WaitStepOrdered(s, op);
    }
  }

  /** Every priority change of a waiting thread in a run fits its place. */
  ghost predicate AllFit(s: State, ops: seq<Op>)
    requires Inv(s)
    decreases |ops|
  {
    if ops == [] then true
    else if !Allowed(s, ops[0]) then AllFit(s, ops[1..])
    else (ops[0].SetPrioOp? ==> Fits(s, ops[0].t, ops[0].prio)) && AllFit(Step(s, ops[0]), ops[1..])
  }

  /** In every such run all wait queues are in priority order, so that waking one
      always takes a thread that no other waiter beats. */
  lemma {:induction false} RunOrdered(s: State, ops: seq<Op>)
    requires Inv(s) && WaitsOrdered(s) && AllFit(s, ops)
    ensures WaitsOrdered(Run(s, ops))
    decreases |ops|
  {
    if ops != [] {
      if Allowed(s, ops[0]) {
        StepOrdered(s, ops[0]);
        RunOrdered(Step(s, ops[0]), ops[1..]);
      } else {
        RunOrdered(s, ops[1..]);
      }
    }
  }
}
