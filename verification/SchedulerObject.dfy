/** The scheduler as the kernel keeps it: state bits, queues and the cached choice,
    changed in place one after another. */
module SchedulerObject {
  import opened Common
  import opened Errno
  import opened PriorityOrder
  import opened Scheduler
  import SchedulerEffects

  class Kernel {
    var threads: map<nat, Thread>
    var runq: seq<nat>
    var waitqs: map<QueueId, seq<nat>>
    var current: nat
    var cache: nat
    const idle: nat

    function Now(): State
      reads this
    {
      State(threads, runq, waitqs, current, cache, idle)
    }

    constructor (threads: map<nat, Thread>, main: nat, idle: nat)
      requires Initial(State(threads, [main], map[], main, main, idle))
      ensures Now() == State(threads, [main], map[], main, main, idle) && Inv(Now())
    {
      this.threads, this.idle := threads, idle;
      runq, waitqs, current, cache := [main], map[], main, main;
      new;
      InitialInv(Now());
    }

    method PriqAdd(list: seq<nat>, t: nat) returns (r: seq<nat>)
      requires t in threads
      ensures r == Enlisted(threads, list, t)
    {
      var k := FindSlot(Prios(threads, list), threads[t].prio);
      r := list[..k] + [t] + list[k..];
    }

    method QueueThread(t: nat)
      requires t in threads && forall i :: 0 <= i < |runq| ==> runq[i] in threads
      modifies this`threads, this`runq
      ensures Now() == Enqueue(old(Now()), t)
    {
      runq := PriqAdd(runq, t);
      threads := threads[t := threads[t].(queued := true)];
    }

    method DequeueThread(t: nat)
      requires t in threads && NoDup(runq)
      modifies this`threads, this`runq
      ensures Now() == Dequeue(old(Now()), t)
    {
      threads := threads[t := threads[t].(queued := false)];
      runq := Unlinked(runq, t);
    }

    method RefreshCache(preemptOk: bool)
      requires current in threads
      modifies this`cache
      ensures Now() == UpdateCache(old(Now()), preemptOk) && CacheOk(Now())
    {
      var next := if runq == [] then idle else runq[0];
      var th := threads[current];
      if preemptOk || th.pending || th.prestart || th.dead || th.suspended || (th.locked == 0 && th.prio >= 0) {
        cache := next;
      } else {
        cache := current;
      }
    }

    method ReadyThread(t: nat)
      requires t in threads && current in threads && forall i :: 0 <= i < |runq| ==> runq[i] in threads
      modifies this`threads, this`runq, this`cache
      ensures Now() == MakeReady(old(Now()), t)
    {
      if !threads[t].queued && Ready(threads[t]) {
        QueueThread(t);
        RefreshCache(false);
      }
    }

    method SchedStart(t: nat)
      requires Inv(Now()) && Named(Now(), t)
      modifies this
      ensures Now() == Start(old(Now()), t) && Inv(Now())
    {
      StartInv(Now(), t);
      RunqKnown();
      if !threads[t].prestart {
        return;
      }
      threads := threads[t := threads[t].(prestart := false)];
      ReadyThread(t);
    }

    lemma RunqKnown()
      requires Books(Now())
      ensures NoDup(runq) && forall i :: 0 <= i < |runq| ==> runq[i] in threads
    {
      assert ListOk(Now(), Now().runq);
    }

    lemma WaitersKnown(q: QueueId)
      requires Books(Now())
      ensures var list := Waiters(Now(), q); NoDup(list) && forall i :: 0 <= i < |list| ==> list[i] in threads
    {
      assert ListOk(Now(), Waiters(Now(), q));
    }

    method ThreadSuspend(t: nat)
      requires Inv(Now()) && Named(Now(), t)
      modifies this
      ensures Now() == Suspend(old(Now()), t) && Inv(Now())
    {
      SuspendInv(Now(), t);
      RunqKnown();
      threads := threads[t := threads[t].(timeout := false)];
      if threads[t].queued {
        DequeueThread(t);
      }
      threads := threads[t := threads[t].(suspended := true)];
      RefreshCache(t == current);
    }

    method ThreadResume(t: nat)
      requires Inv(Now()) && Named(Now(), t)
      modifies this
      ensures Now() == Resume(old(Now()), t) && Inv(Now())
    {
      ResumeInv(Now(), t);
      RunqKnown();
      if !threads[t].suspended {
        return;
      }
      threads := threads[t := threads[t].(suspended := false)];
      ReadyThread(t);
    }

    method UnreadyThread(t: nat)
      requires t in threads && NoDup(runq) && current in threads
      modifies this`threads, this`runq, this`cache
      ensures Now() == UpdateCache(Unready(old(Now()), t), t == current)
    {
      if threads[t].queued {
        DequeueThread(t);
      }
      RefreshCache(t == current);
    }

    method AddToWaitq(t: nat, q: QueueId)
      requires t in threads && var list := Waiters(Now(), q); forall i :: 0 <= i < |list| ==> list[i] in threads
      modifies this`threads, this`waitqs
      ensures Now() == Block(old(Now()), t, q)
    {
      var before := if q in waitqs then waitqs[q] else [];
      assert before == Waiters(Now(), q);
      var list := PriqAdd(before, t);
      threads := threads[t := threads[t].(pending := true, pendedOn := Some(q))];
      waitqs := waitqs[q := list];
    }

    method PendCurrent(q: Option<QueueId>, timed: bool, unlock: bool)
      requires Inv(Now()) && AtThreadLevel(Now()) && (unlock ==> threads[current].locked > 0)
      modifies this
      ensures Now() == Pend(old(Now()), q, timed, unlock) && Inv(Now())
    {
      PendInv(Now(), q, timed, unlock);
      RunqKnown();
      if q.Some? {
        WaitersKnown(q.value);
      }
      PendBody(q, timed, unlock);
    }

    method PendBody(q: Option<QueueId>, timed: bool, unlock: bool)
      requires current in threads && NoDup(runq) && (unlock ==> threads[current].locked > 0)
      requires q.Some? && q.value in waitqs ==> forall i :: 0 <= i < |waitqs[q.value]| ==> waitqs[q.value][i] in threads.Keys
      modifies this
      ensures Now() == Pend(old(Now()), q, timed, unlock)
    {
      var t := current;
      DropLock(unlock);
      UnreadyThread(t);
      assert waitqs == old(waitqs) && threads.Keys == old(threads).Keys;
      StartWaiting(t, q, timed);
      current := cache;
    }

    method DropLock(unlock: bool)
      requires current in threads && (unlock ==> threads[current].locked > 0)
      modifies this`threads
      ensures Now() == if unlock then old(Mark(Now(), current, threads[current].(locked := threads[current].locked - 1))) else old(Now())
    {
      if unlock {
        threads := threads[current := threads[current].(locked := threads[current].locked - 1)];
      }
    }

    method StartWaiting(t: nat, q: Option<QueueId>, timed: bool)
      requires t in threads
      requires q.Some? && q.value in waitqs ==> forall i :: 0 <= i < |waitqs[q.value]| ==> waitqs[q.value][i] in threads.Keys
      modifies this`threads, this`waitqs
      ensures Now() == Waiting(old(Now()), t, q, timed)
    {
      if q.Some? {
        AddToWaitq(t, q.value);
      } else {
        threads := threads[t := threads[t].(pending := true)];
      }
      threads := threads[t := threads[t].(timeout := timed)];
    }

    method UnpendNoTimeout(t: nat)
      requires t in threads && threads[t].pendedOn.Some? && NoDup(Waiters(Now(), threads[t].pendedOn.value))
      modifies this`threads, this`waitqs
      ensures Now() == Unblock(old(Now()), t)
    {
      var q := threads[t].pendedOn.value;
      var list := Unlinked(if q in waitqs then waitqs[q] else [], t);
      waitqs := waitqs[q := list];
      threads := threads[t := threads[t].(pending := false, pendedOn := None)];
    }

    method ThreadTimeout(t: nat)
      requires Inv(Now()) && Named(Now(), t) && threads[t].timeout
      modifies this
      ensures Now() == Expire(old(Now()), t) && Inv(Now())
    {
      ExpireInv(Now(), t);
      RunqKnown();
      if threads[t].pendedOn.Some? {
        WaitersKnown(threads[t].pendedOn.value);
      }
      threads := threads[t := threads[t].(timeout := false)];
      if !threads[t].dead {
        if threads[t].pendedOn.Some? {
          UnpendNoTimeout(t);
        }
        threads := threads[t := threads[t].(prestart := false, suspended := false)];
        ReadyThread(t);
      }
    }

    /** Tells whether the thread was ready, unless it was ready and in no queue. */
    method SetPriority(t: nat, prio: int) returns (needSched: Option<bool>)
      requires Inv(Now()) && t in threads
      modifies this
      ensures needSched.Some? <==> (Ready(old(threads)[t]) ==> old(threads)[t].queued)
      ensures needSched.Some? ==> Some(Now()) == ChangePrio(old(Now()), t, prio) && Inv(Now())
      ensures needSched.Some? ==> needSched.value == Ready(old(threads)[t])
      ensures needSched.Some? ==> threads == old(threads)[t := old(threads)[t].(prio := prio)]
    {
      assert ThreadOk(Now(), t);
      if Ready(threads[t]) && !threads[t].queued {
        return None;
      }
      SetPrioInv(Now(), t, prio);
      SchedulerEffects.SetPrioPlaces(Now(), t, prio);
      needSched := Some(Ready(threads[t]));
      if needSched.value {
        Requeue(t, prio);
      } else {
        threads := threads[t := threads[t].(prio := prio)];
      }
    }

    method Requeue(t: nat, prio: int)
      requires Inv(Now()) && t in threads && threads[t].queued && Ready(threads[t])
      modifies this`threads, this`runq, this`cache
      ensures Now() == SetPrio(old(Now()), t, prio)
    {
      RunqKnown();
      DequeueBooks(Now(), t);
      DequeueThread(t);
      RunqKnown();
      threads := threads[t := threads[t].(prio := prio)];
      QueueThread(t);
      RefreshCache(true);
    }

    method YieldCurrent()
      requires Inv(Now()) && !Prevented(threads[current])
      modifies this
      ensures Now() == Yield(old(Now())) && Inv(Now())
    {
      YieldInv(Now());
      RunqKnown();
      if current != idle {
        DequeueBooks(Now(), current);
        DequeueThread(current);
        RunqKnown();
        QueueThread(current);
        RefreshCache(true);
      }
      current := cache;
    }

    method TickSleep(ticks: nat)
      requires Inv(Now()) && AtThreadLevel(Now())
      modifies this
      ensures Now() == (if ticks == 0 then Yield(old(Now())) else Sleep(old(Now()))) && Inv(Now())
    {
      if ticks == 0 {
        YieldCurrent();
        return;
      }
      SleepInv(Now());
      RunqKnown();
      var t := current;
      UnreadyThread(t);
      threads := threads[t := threads[t].(timeout := true, suspended := true)];
      current := cache;
    }

    method WakeupThread(t: nat)
      requires Inv(Now()) && Named(Now(), t)
      modifies this
      ensures Now() == Wakeup(old(Now()), t) && Inv(Now())
    {
      WakeupInv(Now(), t);
      RunqKnown();
      var th := threads[t];
      if th.pending {
        return;
      }
      if !th.timeout && !(th.suspended && !th.queued && !th.prestart && !th.dead) {
        return;
      }
      threads := threads[t := th.(timeout := false, suspended := false)];
      ReadyThread(t);
    }

    /** Release everyone who waits on a queue, best first. */
    method UnpendAll(q: QueueId)
      requires Books(Now()) && CurrentOk(Now())
      modifies this
      ensures Now() == ReleaseAll(old(Now()), q)
    {
      while q in waitqs && waitqs[q] != []
        invariant Books(Now()) && CurrentOk(Now()) && ReleaseAll(Now(), q) == ReleaseAll(old(Now()), q)
        decreases |Waiters(Now(), q)|
      {
        ReleaseFirst(q);
      }
    }

    method ReleaseFirst(q: QueueId)
      requires Books(Now()) && CurrentOk(Now()) && Waiters(Now(), q) != []
      modifies this
      ensures Now() == ReleaseOne(old(Now()), q)
    {
      HeadWaits(Now(), q);
      WaitersKnown(q);
      RunqKnown();
      var t := waitqs[q][0];
      UnpendNoTimeout(t);
      threads := threads[t := threads[t].(timeout := false)];
      ReadyThread(t);
    }

    method EndThread(t: nat)
      requires Inv(Now()) && Named(Now(), t)
      modifies this
      ensures Now() == End(old(Now()), t) && Inv(Now())
    {
      if threads[t].dead {
        return;
      }
      BuriedCore(Now(), t);
      Bury(t);
      UnpendAll(Joining(t));
      RefreshCache(true);
    }

    method Bury(t: nat)
      requires Inv(Now()) && Named(Now(), t)
      modifies this`threads, this`runq, this`waitqs
      ensures Now() == Buried(old(Now()), t)
    {
      RunqKnown();
      if threads[t].pendedOn.Some? {
        WaitersKnown(threads[t].pendedOn.value);
      }
      if threads[t].queued {
        DequeueThread(t);
      }
      if threads[t].pendedOn.Some? {
        UnpendNoTimeout(t);
      }
      threads := threads[t := threads[t].(dead := true, timeout := false)];
    }

    /** Nothing is returned yet when the caller waits. */
    method JoinThread(t: nat, wait: bool, timed: bool) returns (code: Option<int>)
      requires Inv(Now()) && AtThreadLevel(Now()) && t in threads
      modifies this
      ensures (Now(), code) == Join(old(Now()), t, wait, timed) && Inv(Now())
    {
      if threads[t].dead {
        return Some(0);
      }
      if !wait {
        return Some(EBUSY);
      }
      if t == current || threads[t].pendedOn == Some(Joining(current)) {
        return Some(EDEADLK);
      }
      PendCurrent(Some(Joining(t)), timed, false);
      code := None;
    }

    /** Wake the best waiter of a queue, if there is one. */
    method SchedWake(q: QueueId) returns (woken: bool)
      requires Inv(Now())
      modifies this
      ensures Inv(Now()) && (woken <==> old(Waiters(Now(), q)) != [])
      ensures Now() == if woken then ReleaseOne(old(Now()), q) else old(Now())
    {
      HeadOrNone(Now(), q);
      WakeInv(Now(), q);
      woken := q in waitqs && waitqs[q] != [];
      if woken {
        ReleaseFirst(q);
      }
    }

    method SchedLock()
      requires Inv(Now()) && Allowed(Now(), LockOp)
      modifies this`threads
      ensures Now() == Lock(old(Now())) && Inv(Now())
    {
      LockInv(Now());
      threads := threads[current := threads[current].(locked := threads[current].locked + 1)];
    }

    method SchedUnlock()
      requires Inv(Now()) && Allowed(Now(), UnlockOp)
      modifies this`threads, this`cache
      ensures Now() == Unlock(old(Now())) && Inv(Now())
    {
      LockInv(Now());
      threads := threads[current := threads[current].(locked := threads[current].locked - 1)];
      RefreshCache(false);
    }
  }
}
