/** The message queue over its byte buffer, with a read and a write pointer that
    advance by one message and wrap at the end. */
module MessageQueueObject {
  import opened Common
  import opened Errno
  import opened PriorityOrder
  import opened MessageQueue

  /** Byte offset of a slot: i times the message size. */
  function Offset(i: nat, size: nat): (r: nat)
    ensures r == i * size
  {
    if i == 0 then 0 else Offset(i - 1, size) + size
  }

  lemma {:induction false} OffsetBelow(i: nat, j: nat, size: nat)
    requires i < j
    ensures Offset(i, size) + size <= Offset(j, size)
  {
    if i + 1 < j {
      OffsetBelow(i, j - 1, size);
    }
  }

  function Ahead(i: nat, k: nat, max: nat): nat
    requires i < max && k <= max
  {
    if i + k < max then i + k else i + k - max
  }

  /** The k messages that start at slot i, going round at the end of the buffer. */
  ghost function Slots(buf: seq<Byte>, i: nat, k: nat, max: nat, size: nat): (r: seq<Message>)
    requires |buf| == Offset(max, size) && (k == 0 || i < max)
    ensures |r| == k
    decreases k
  {
    if k == 0 then []
    else
      OffsetBelow(i, max, size);
      [buf[Offset(i, size)..Offset(i, size) + size]] + Slots(buf, Next(i, max), k - 1, max, size)
  }

  ghost predicate OnlyAt(buf: seq<Byte>, more: seq<Byte>, off: nat, size: nat) {
    |more| == |buf| && forall j :: 0 <= j < |buf| && !(off <= j < off + size) ==> more[j] == buf[j]
  }

  lemma SlotKept(buf: seq<Byte>, more: seq<Byte>, i: nat, w: nat, max: nat, size: nat)
    requires |buf| == Offset(max, size) && i < max && w < max && i != w && OnlyAt(buf, more, Offset(w, size), size)
    ensures Offset(i, size) + size <= |buf|
    ensures more[Offset(i, size)..Offset(i, size) + size] == buf[Offset(i, size)..Offset(i, size) + size]
  {
    OffsetBelow(i, max, size);
    if i < w {
      OffsetBelow(i, w, size);
    } else {
      OffsetBelow(w, i, size);
    }
  }

  function Next(i: nat, max: nat): nat
    requires i < max
  {
    if i + 1 == max then 0 else i + 1
  }

  /** Writing the slot behind the last message adds that message at the end. */
  lemma {:induction false} SlotsPut(buf: seq<Byte>, more: seq<Byte>, i: nat, k: nat, w: nat, max: nat, size: nat)
    requires |buf| == Offset(max, size) && i < max && k < max && w == Ahead(i, k, max)
    requires OnlyAt(buf, more, Offset(w, size), size)
    ensures Offset(w, size) + size <= |more|
    ensures Slots(more, i, k + 1, max, size) ==
      Slots(buf, i, k, max, size) + [more[Offset(w, size)..Offset(w, size) + size]]
    decreases k
  {
    OffsetBelow(w, max, size);
    var message := more[Offset(w, size)..Offset(w, size) + size];
    if k == 0 {
      assert Slots(more, Next(i, max), 0, max, size) == [];
    } else {
      SlotKept(buf, more, i, w, max, size);
      SlotsPut(buf, more, Next(i, max), k - 1, w, max, size);
      Prepend([more[Offset(i, size)..Offset(i, size) + size]], Slots(buf, Next(i, max), k - 1, max, size), message);
    }
  }

  lemma Prepend(a: seq<Message>, b: seq<Message>, m: Message)
    ensures a + (b + [m]) == a + b + [m]
  {
  }

  class MsgQueue {
    const size: nat
    const max: nat
    const buffer: array<Byte>
    var readPtr: nat
    var writePtr: nat
    var used: nat
    var waiters: seq<Waiter>
    ghost var first: nat
    ghost var accepted: seq<Message>
    ghost var received: seq<Message>
    ghost var done: seq<Done>

    ghost predicate Shape()
      reads this
    {
      && buffer.Length == Offset(max, size) && used <= max
      && (max > 0 ==> first < max && readPtr == Offset(first, size) && writePtr == Offset(Ahead(first, used, max), size))
      && (max == 0 ==> readPtr == 0 && writePtr == 0)
      && (forall i :: 0 <= i < |waiters| ==> waiters[i].Writer? ==> |waiters[i].data| == size)
    }

    ghost function Abs(): State
      requires Shape()
      reads this, buffer
    {
      State(max, Slots(buffer[..], first, used, max, size), waiters, accepted, received, done)
    }

    ghost predicate Valid()
      reads this, buffer
    {
      Shape() && Inv(Abs())
    }

    constructor (size: nat, max: nat)
      ensures Valid() && this.size == size && this.max == max && Abs() == Fresh(max) && fresh(buffer)
    {
      this.size, this.max, buffer := size, max, new Byte[Offset(max, size)];
      readPtr, writePtr, used, waiters, first := 0, 0, 0, [], 0;
      accepted, received, done := [], [], [];
    }

    method CopyIn(off: nat, data: Message)
      requires off + |data| <= buffer.Length
      modifies buffer
      ensures buffer[off..off + |data|] == data
      ensures OnlyAt(old(buffer[..]), buffer[..], off, |data|)
    {
      var i := 0;
      while i < |data|
        invariant i <= |data| && buffer[off..off + i] == data[..i]
        invariant forall j :: 0 <= j < buffer.Length && !(off <= j < off + i) ==> buffer[j] == old(buffer[j])
      {
        buffer[off + i] := data[i];
        i := i + 1;
      }
    }

    /** The message at the write pointer is stored and the pointer moves on. */
    method Store(data: Message)
      requires Shape() && used < max && |data| == size
      modifies this`writePtr, this`used, buffer
      ensures Shape()
      ensures Slots(buffer[..], first, used, max, size) == old(Slots(buffer[..], first, used, max, size)) + [data]
    {
      ghost var before := buffer[..];
      OffsetBelow(Ahead(first, used, max), max, size);
      CopyIn(writePtr, data);
      SlotsPut(before, buffer[..], first, used, Ahead(first, used, max), max, size);
      Advance(Ahead(first, used, max), max, size);
      writePtr := writePtr + size;
      if writePtr == buffer.Length {
        writePtr := 0;
      }
      used := used + 1;
    }

    /** The message at the read pointer is taken out and the pointer moves on. */
    method Fetch() returns (data: Message)
      requires Shape() && used > 0
      modifies this`readPtr, this`used, this`first
      ensures Shape() && used == old(used) - 1
      ensures [data] + Slots(buffer[..], first, used, max, size) == old(Slots(buffer[..], first, used, max, size))
    {
      OffsetBelow(first, max, size);
      data := Current();
      StepRead();
      first := Next(first, max);
      used := used - 1;
    }

    method StepRead()
      requires buffer.Length == Offset(max, size) && first < max && readPtr == Offset(first, size)
      modifies this`readPtr
      ensures readPtr == Offset(Next(first, max), size)
    {
      Advance(first, max, size);
      readPtr := readPtr + size;
      if readPtr == buffer.Length {
        readPtr := 0;
      }
    }

    method Current() returns (data: Message)
      requires readPtr + size <= buffer.Length
      ensures data == buffer[..][readPtr..readPtr + size]
    {
      data := buffer[readPtr..readPtr + size];
    }

    /** A pointer that has reached the end of the buffer goes back to the start. */
    static lemma Advance(i: nat, max: nat, size: nat)
      requires i < max
      ensures Offset(i, size) + size == Offset(max, size) ==> Offset(Next(i, max), size) == 0
      ensures Offset(i, size) + size != Offset(max, size) ==> i + 1 < max && Offset(i + 1, size) == Offset(i, size) + size
    {
      if i + 1 < max && Offset(i, size) + size == Offset(max, size) {
        OffsetBelow(i + 1, max, size);
        assert size == 0;
      }
    }

    method PutBody(id: nat, prio: int, data: Message, wait: bool) returns (code: Option<int>)
      requires Shape() && |data| == size
      modifies this, buffer
      ensures Shape() && (Abs(), code) == Put(old(Abs()), id, prio, data, wait)
    {
      if used < max {
        if waiters != [] {
          done := done + [Done(waiters[0].id, 0, Some(data))];
          received := received + [data];
          waiters := waiters[1..];
        } else {
          Store(data);
        }
        accepted := accepted + [data];
        return Some(0);
      }
      if !wait {
        return Some(ENOMSG);
      }
      Pend(Writer(id, prio, data));
      code := None;
    }

    /** Join the wait queue behind every thread that is not beaten. */
    method Pend(w: Waiter)
      requires w.Writer? ==> |w.data| == size
      requires forall i :: 0 <= i < |waiters| ==> waiters[i].Writer? ==> |waiters[i].data| == size
      modifies this`waiters
      ensures waiters == Enlisted(old(waiters), w)
      ensures forall i :: 0 <= i < |waiters| ==> waiters[i].Writer? ==> |waiters[i].data| == size
    {
      var k := FindSlot(Prios(waiters), w.prio);
      waiters := waiters[..k] + [w] + waiters[k..];
    }

    method PutCall(id: nat, prio: int, data: Message, wait: bool) returns (code: Option<int>)
      requires Valid() && |data| == size
      modifies this, buffer
      ensures Valid() && (Abs(), code) == Put(old(Abs()), id, prio, data, wait)
    {
      PutKeepsInv(Abs(), id, prio, data, wait);
      code := PutBody(id, prio, data, wait);
    }

    method GetCall(id: nat, prio: int, wait: bool) returns (code: Option<int>, data: Option<Message>)
      requires Valid()
      modifies this, buffer
      ensures Valid() && (Abs(), code, data) == Get(old(Abs()), id, prio, wait)
    {
      GetKeepsInv(Abs(), id, prio, wait);
      code, data := GetBody(id, prio, wait);
    }

    method GetBody(id: nat, prio: int, wait: bool) returns (code: Option<int>, data: Option<Message>)
      requires Valid()
      modifies this, buffer
      ensures Shape() && (Abs(), code, data) == Get(old(Abs()), id, prio, wait)
    {
      if used > 0 {
        ghost var before := Abs();
        var m := Fetch();
        received := received + [m];
        assert Abs() == before.(contents := before.contents[1..], received := before.received + [before.contents[0]]);
        if waiters != [] {
          assert before.waiters[0].Writer?;
          Refill();
        }
        return Some(0), Some(m);
      }
      if !wait {
        return Some(ENOMSG), None;
      }
      Pend(Reader(id, prio));
      code, data := None, None;
    }

    method Refill()
      requires Shape() && used < max && waiters != [] && waiters[0].Writer?
      modifies this, buffer
      ensures Shape() && Abs() == Refilled(old(Abs()))
    {
      Store(waiters[0].data);
      accepted := accepted + [waiters[0].data];
      done := done + [Done(waiters[0].id, 0, None)];
      waiters := waiters[1..];
    }

    method Peek() returns (data: Option<Message>)
      requires Valid()
      ensures data == if Abs().contents == [] then None else Some(Abs().contents[0])
    {
      if used == 0 {
        return None;
      }
      OffsetBelow(first, max, size);
      var m := Current();
      data := Some(m);
    }

    /** Everyone who waits is sent away and the queue is empty. */
    method PurgeAll()
      requires Valid()
      modifies this
      ensures Valid() && Abs() == Purge(old(Abs()))
    {
      while waiters != []
        invariant Shape() && done + Dismissed(waiters) == old(done) + Dismissed(old(waiters))
        invariant used == old(used) && first == old(first) && writePtr == old(writePtr)
        decreases |waiters|
      {
        done := done + [Done(waiters[0].id, ENOMSG, None)];
        waiters := waiters[1..];
      }
      first := if max == 0 then 0 else Ahead(first, used, max);
      used := 0;
      readPtr := writePtr;
      accepted, received := [], [];
    }
  }
}
