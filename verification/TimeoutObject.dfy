/** The timeout list as the kernel keeps it, changed entry by entry, and the timer
    object built on it. */
module TimeoutObject {
  import opened Common
  import opened Timeouts

  /** Ticks up to entry i. */
  function Upto(list: seq<Node>, i: nat): nat
    requires i <= |list|
    decreases i
  {
    if i == 0 then 0 else list[0].dticks + Upto(list[1..], i - 1)
  }

  lemma {:induction false} UptoNext(list: seq<Node>, i: nat)
    requires i < |list|
    ensures Upto(list, i + 1) == Upto(list, i) + list[i].dticks
  {
    if i > 0 {
      UptoNext(list[1..], i - 1);
    }
  }

  /** The list with a new entry in front of entry i, whose distance shrinks by as much. */
  function Spliced(list: seq<Node>, i: nat, id: nat, d: nat): seq<Node>
    requires i <= |list| && (i < |list| ==> list[i].dticks > d)
  {
    if i == |list| then list + [Node(id, d)]
    else list[..i] + [Node(id, d)] + [list[i].(dticks := list[i].dticks - d)] + list[i + 1..]
  }

  lemma {:induction false} InsertAtEntry(list: seq<Node>, id: nat, delay: nat, i: nat)
    requires i <= |list| && Upto(list, i) <= delay && (i < |list| ==> list[i].dticks > delay - Upto(list, i))
    ensures Insert(list, id, delay) == Spliced(list, i, id, delay - Upto(list, i))
    decreases i
  {
    if i > 0 {
      var rest, d := list[1..], delay - list[0].dticks;
      InsertAtEntry(rest, id, d, i - 1);
      SplicedTail(list, i, id, d - Upto(rest, i - 1));
    } else if list != [] {
      assert list[..0] == [];
    }
  }

  lemma SplicedTail(list: seq<Node>, i: nat, id: nat, d: nat)
    requires 0 < i <= |list| && (i < |list| ==> list[i].dticks > d)
    ensures Spliced(list, i, id, d) == [list[0]] + Spliced(list[1..], i - 1, id, d)
  {
  }

  lemma {:induction false} RemoveStep(list: seq<Node>, id: nat, k: nat)
    requires k < |list| && list[k].id == id && forall i :: 0 <= i < k ==> list[i].id != id
    ensures Remove(list, id) == list[..k] + Remove(list[k..], id)
  {
    if k > 0 {
      RemoveStep(list[1..], id, k - 1);
      assert list[1..][..k - 1] == list[1..k] && list[1..][k - 1..] == list[k..];
      assert list[..k] == [list[0]] + list[1..k];
    }
  }

  lemma {:induction false} NotLinked(list: seq<Node>, id: nat)
    ensures Linked(list, id) <==> exists i :: 0 <= i < |list| && list[i].id == id
  {
    if list != [] {
      NotLinked(list[1..], id);
      assert forall i :: 0 <= i < |list[1..]| ==> list[1..][i] == list[i + 1];
      assert forall i :: 0 < i < |list| ==> list[i] == list[1..][i - 1];
    }
  }

  class TimeoutQueue {
    var tick: nat
    var remaining: nat
    var list: seq<Node>
    var fired: seq<Fired>

    function State(): Queue
      reads this
    {
      Queue(tick, remaining, list)
    }

    constructor ()
      ensures State() == Queue(0, 0, []) && fired == []
    {
      tick, remaining, list, fired := 0, 0, [], [];
    }

    function ElapsedTicks(clock: nat): nat
      reads this
    {
      if remaining == 0 then clock else 0
    }

    /** Put a timeout so many ticks after the last announcement. */
    method Link(id: nat, delay: nat)
      modifies this`list
      ensures list == Insert(old(list), id, delay)
    {
      var i := 0;
      var d: nat := delay;
      while i < |list| && list[i].dticks <= d
        invariant i <= |list| && list == old(list) && d + Upto(list, i) == delay
      {
        UptoNext(list, i);
        d := d - list[i].dticks;
        i := i + 1;
      }
      InsertAtEntry(list, id, delay, i);
      if i < |list| {
        list := list[..i] + [Node(id, d)] + [list[i].(dticks := list[i].dticks - d)] + list[i + 1..];
      } else {
        list := list + [Node(id, d)];
      }
    }

    method AddTimeout(id: nat, request: int, clock: nat)
      requires request == FOREVER || !Linked(list, id)
      modifies this`list
      ensures State() == Do(old(State()), Add(id, request), clock)
    {
      if request == FOREVER {
        return;
      }
      var ticks := request + 1;
      if TickAbs(ticks) >= 0 {
        ticks := TickAbs(request) - (tick + ElapsedTicks(clock));
      }
      ticks := Max(1, ticks);
      Link(id, ticks + ElapsedTicks(clock));
    }

    method RemoveEntry(k: nat)
      requires k < |list|
      requires forall i :: 0 <= i < k ==> list[i].id != list[k].id
      modifies this`list
      ensures list == Remove(old(list), old(list)[k].id)
    {
      RemoveStep(list, list[k].id, k);
      if k + 1 < |list| {
        list := list[k + 1 := list[k + 1].(dticks := list[k + 1].dticks + list[k].dticks)];
      }
      list := list[..k] + list[k + 1..];
    }

    method AbortTimeout(id: nat) returns (ok: bool)
      modifies this`list
      ensures State() == Do(old(State()), Abort(id), 0)
      ensures ok <==> old(DeadlineIn(State(), id)).Some?
    {
      Unlinked(tick, list, id);
      NotLinked(list, id);
      var k := 0;
      while k < |list| && list[k].id != id
        invariant k <= |list| && list == old(list)
        invariant forall i :: 0 <= i < k ==> list[i].id != id
      {
        k := k + 1;
      }
      ok := k < |list|;
      if ok {
        RemoveEntry(k);
      }
    }

    method RemainingTicks(id: nat, clock: nat) returns (r: int)
      ensures r == Remaining(State(), id, clock)
      ensures DeadlineIn(State(), id).Some? ==> r == DeadlineIn(State(), id).value - Now(State(), clock)
    {
      var i, ticks := 0, 0;
      while i < |list| && list[i].id != id
        invariant i <= |list| && ticks >= 0
        invariant Deadline(tick, list, id) == Deadline(tick + ticks, list[i..], id)
      {
        ticks := ticks + list[i].dticks;
        i := i + 1;
      }
      if i == |list| {
        return 0;
      }
      return ticks + list[i].dticks - ElapsedTicks(clock);
    }

    /** The calls a handler makes; one that would add a linked timeout is not made. */
    method Perform(cs: seq<Cmd>, clock: nat)
      modifies this`list
      ensures State() == DoAll(old(State()), cs, clock)
    {
      var i := 0;
      while i < |cs|
        invariant i <= |cs| && tick == old(tick) && remaining == old(remaining)
        invariant DoAll(old(State()), cs, clock) == DoAll(State(), cs[i..], clock)
      {
        match cs[i] {
          case Add(id, request) =>
            if request == FOREVER || !Linked(list, id) {
              AddTimeout(id, request, clock);
            }
          case Abort(id) =>
            var _ := AbortTimeout(id);
        }
        i := i + 1;
      }
    }

    /** One turn of the announcement loop: the first entry fires at its deadline. */
    method FireFirst(h: Handler, clock: nat)
      requires IsDue(State())
      modifies this
      ensures Fire(old(State()), old(fired), h, clock) == Fire(State(), fired, h, clock)
      ensures remaining < old(remaining) || (remaining == old(remaining) && Zeros(list) < Zeros(old(list)))
    {
      ghost var popped := Pop(State());
      var id, dt := list[0].id, list[0].dticks;
      tick, remaining := tick + dt, remaining - dt;
      list := [list[0].(dticks := 0)] + list[1..];
      RemoveEntry(0);
      assert State() == popped;
      var cs := h(State(), id, fired);
      fired := fired + [Fired(id, tick)];
      DoAllZeros(State(), cs, clock);
      Perform(cs, clock);
    }

    method AnnounceTicks(ticks: nat, h: Handler, clock: nat)
      modifies this
      ensures (State(), fired) == Announce(old(State()), ticks, old(fired), h, clock)
    {
      remaining := ticks;
      while list != [] && list[0].dticks <= remaining
        invariant Fire(State(), fired, h, clock) == Announce(old(State()), ticks, old(fired), h, clock)
        decreases remaining, Zeros(list)
      {
        FireFirst(h, clock);
      }
      if list != [] {
        list := [list[0].(dticks := list[0].dticks - remaining)] + list[1..];
      }
      tick, remaining := tick + remaining, 0;
    }
  }

  class Timer {
    const queue: TimeoutQueue
    const id: nat
    var period: int
    var status: nat

    constructor (queue: TimeoutQueue, id: nat)
      ensures this.queue == queue && this.id == id && status == 0
    {
      this.queue, this.id, status := queue, id, 0;
    }

    /** A running timer starts afresh.  The first expiry of a relative duration d is d
        ticks from now, or one if d is zero; that of an absolute one is at its time, or
        on the next tick if that is past. */
    method Start(duration: int, newPeriod: int, clock: nat)
      requires Distinct(queue.list)
      modifies this, queue`list
      ensures duration == FOREVER ==> status == old(status) && period == old(period) && queue.list == old(queue.list)
      ensures duration != FOREVER ==>
        status == 0 && period == StoredPeriod(newPeriod) && Distinct(queue.list) &&
        (forall j :: j != id ==> DeadlineIn(queue.State(), j) == old(DeadlineIn(queue.State(), j))) &&
        (duration >= 0 ==> DeadlineIn(queue.State(), id) == Some(Now(queue.State(), clock) + Max(duration, 1))) &&
        (duration < FOREVER ==> DeadlineIn(queue.State(), id) == Some(Max(TickAbs(duration), Now(queue.State(), clock) + 1)))
      ensures duration != FOREVER ==>
        (newPeriod == 0 || newPeriod == -1 ==> period == newPeriod) &&
        (newPeriod >= 1 ==> period == Max(newPeriod - 1, 1)) && (newPeriod < -1 ==> period == newPeriod)
    {
      if duration == FOREVER {
        return;
      }
      var p, d := newPeriod, duration;
      if p != FOREVER && p != 0 && TickAbs(p) < 0 {
        p := Max(p - 1, 1);
      }
      if TickAbs(d) < 0 {
        d := Max(d - 1, 0);
      }
      ghost var before := queue.State();
      var _ := queue.AbortTimeout(id);
      ghost var idle := queue.State();
      DoDeadline(before, Abort(id), 0, id);
      Unlinked(queue.tick, queue.list, id);
      period, status := p, 0;
      queue.AddTimeout(id, d, clock);
      forall j ensures Distinct(queue.list) && (j != id ==> DeadlineIn(queue.State(), j) == DeadlineIn(before, j)) {
        DoDeadline(before, Abort(id), 0, j);
        DoDeadline(idle, Add(id, d), clock, j);
      }
      DoDeadline(idle, Add(id, d), clock, id);
    }

    method Stop() returns (wasRunning: bool)
      requires Distinct(queue.list)
      modifies queue`list
      ensures wasRunning <==> old(DeadlineIn(queue.State(), id)).Some?
      ensures Distinct(queue.list)
      ensures forall j :: DeadlineIn(queue.State(), j) == if j == id then None else old(DeadlineIn(queue.State(), j))
    {
      ghost var before := queue.State();
      wasRunning := queue.AbortTimeout(id);
      forall j ensures Distinct(queue.list) && DeadlineIn(queue.State(), j) == if j == id then None else DeadlineIn(before, j) {
        DoDeadline(before, Abort(id), 0, j);
      }
    }

    /** What the queue runs when the timer expires, before its expiry function. */
    method Expire(clock: nat)
      requires Distinct(queue.list) && DeadlineIn(queue.State(), id) == None
      modifies this`status, queue`list
      ensures status == old(status) + 1
      ensures queue.State() == DoAll(old(queue.State()), Rearm(id, period), clock)
      ensures period == 0 || period == -1 ==> queue.State() == old(queue.State())
      ensures period > 0 ==> DeadlineIn(queue.State(), id) == Some(Now(queue.State(), clock) + period + 1)
    {
      ghost var before := queue.State();
      Unlinked(queue.tick, queue.list, id);
      if period != 0 && period != FOREVER {
        DoDeadline(before, Add(id, period), clock, id);
        queue.AddTimeout(id, period, clock);
      }
      status := status + 1;
    }
  }
}
