/** Pipes as a value: a bounded byte buffer and the requests waiting on either
    side of it.  `Put` and `Get` are the simple form of the two pipe calls, in
    which every request is served from one stream; the object in PipeObject.dfy
    reaches the same states by the code's own loops. */
module Pipes {
  import opened Common
  import opened PriorityOrder

  /** A pended read: what it has so far and how much it still wants. */
  datatype Reader = Reader(call: nat, prio: int, min: nat, got: seq<Byte>, want: nat)

  /** A pended write: what was taken from it and what it still offers. */
  datatype Writer = Writer(call: nat, prio: int, min: nat, sent: seq<Byte>, rest: seq<Byte>)

  datatype Pipe = Pipe(size: nat, buffer: seq<Byte>, readers: seq<Reader>, writers: seq<Writer>)

  /** Bytes that one call moved, in order. */
  datatype Chunk = Chunk(call: nat, bytes: seq<Byte>)

  function Bytes(log: seq<Chunk>): seq<Byte> {
    if log == [] then [] else log[0].bytes + Bytes(log[1..])
  }

  /** The part of a log that belongs to one call. */
  function BytesOf(log: seq<Chunk>, call: nat): seq<Byte> {
    if log == [] then []
    else (if log[0].call == call then log[0].bytes else []) + BytesOf(log[1..], call)
  }

  lemma {:induction false} BytesConcat(a: seq<Chunk>, b: seq<Chunk>)
    ensures Bytes(a + b) == Bytes(a) + Bytes(b)
  {
    if a == [] {
      assert a + b == b;
    } else {
      calc {
        Bytes(a + b);
        { assert (a + b)[1..] == a[1..] + b; }
        a[0].bytes + Bytes(a[1..] + b);
        { BytesConcat(a[1..], b); }
        a[0].bytes + (Bytes(a[1..]) + Bytes(b));
        Bytes(a) + Bytes(b);
      }
    }
  }

  lemma {:induction false} BytesOfConcat(a: seq<Chunk>, b: seq<Chunk>, call: nat)
    ensures BytesOf(a + b, call) == BytesOf(a, call) + BytesOf(b, call)
  {
    if a == [] {
      assert a + b == b;
    } else {
      var head := if a[0].call == call then a[0].bytes else [];
      calc {
        BytesOf(a + b, call);
        { assert (a + b)[1..] == a[1..] + b; }
        head + BytesOf(a[1..] + b, call);
        { BytesOfConcat(a[1..], b, call); }
        head + (BytesOf(a[1..], call) + BytesOf(b, call));
        BytesOf(a, call) + BytesOf(b, call);
      }
    }
  }

  // ------------------------------------------------------------------- serving

  datatype Served = Served(done: seq<Reader>, left: seq<Reader>, rest: seq<Byte>, log: seq<Chunk>)

  /** Hand data to waiting readers, head first, each until it is full. */
  function Serve(readers: seq<Reader>, data: seq<Byte>): (s: Served)
    ensures |s.rest| <= |data| && |s.done| + |s.left| == |readers|
  {
    if readers == [] then Served([], [], data, [])
    else
      var r := readers[0];
      if r.want <= |data| then
        var s := Serve(readers[1..], data[r.want..]);
        Served([r.(got := r.got + data[..r.want], want := 0)] + s.done, s.left, s.rest,
               [Chunk(r.call, data[..r.want])] + s.log)
      else
        Served([], [r.(got := r.got + data, want := r.want - |data|)] + readers[1..], [], [Chunk(r.call, data)])
  }

  datatype Drained = Drained(done: seq<Writer>, left: seq<Writer>, log: seq<Chunk>)

  /** Take up to `room` bytes from waiting writers, head first. */
  function Drain(writers: seq<Writer>, room: nat): (d: Drained)
    ensures |d.done| + |d.left| == |writers|
  {
    if writers == [] then Drained([], [], [])
    else
      var w := writers[0];
      if |w.rest| <= room then
        var d := Drain(writers[1..], room - |w.rest|);
        Drained([w.(sent := w.sent + w.rest, rest := [])] + d.done, d.left, [Chunk(w.call, w.rest)] + d.log)
      else
        Drained([], [w.(sent := w.sent + w.rest[..room], rest := w.rest[room..])] + writers[1..],
                [Chunk(w.call, w.rest[..room])])
  }

  function Wants(readers: seq<Reader>): nat {
    if readers == [] then 0 else readers[0].want + Wants(readers[1..])
  }

  function Offers(writers: seq<Writer>): nat {
    if writers == [] then 0 else |writers[0].rest| + Offers(writers[1..])
  }

  ghost predicate Hungry(readers: seq<Reader>) {
    forall r :: r in readers ==> r.want > 0
  }

  ghost predicate Laden(writers: seq<Writer>) {
    forall w :: w in writers ==> w.rest != []
  }

  /** Nothing is lost or reordered: what the readers got and what is left over
      make up the data. */
  lemma {:induction false} ServeStream(readers: seq<Reader>, data: seq<Byte>)
    ensures Bytes(Serve(readers, data).log) + Serve(readers, data).rest == data
  {
    if readers != [] {
      var r := readers[0];
      if r.want <= |data| {
        var s := Serve(readers[1..], data[r.want..]);
        calc {
          Bytes([Chunk(r.call, data[..r.want])] + s.log) + s.rest;
          { assert ([Chunk(r.call, data[..r.want])] + s.log)[1..] == s.log; }
          data[..r.want] + Bytes(s.log) + s.rest;
          data[..r.want] + (Bytes(s.log) + s.rest);
          { ServeStream(readers[1..], data[r.want..]); }
          data[..r.want] + data[r.want..];
          data;
        }
      } else {
        assert Bytes([Chunk(r.call, data)]) == data + Bytes([]);
      }
    }
  }

  lemma {:induction false} ServeLaws(readers: seq<Reader>, data: seq<Byte>)
    requires Hungry(readers)
    ensures var s := Serve(readers, data);
            && |s.rest| == (if |data| > Wants(readers) then |data| - Wants(readers) else 0)
            && (s.left != [] ==> s.rest == [])
            && Hungry(s.left)
            && (forall r :: r in s.done ==> r.want == 0)
  {
    if readers != [] && readers[0].want <= |data| {
      assert Hungry(readers[1..]);
      ServeLaws(readers[1..], data[readers[0].want..]);
    }
  }

  lemma {:induction false} DrainLaws(writers: seq<Writer>, room: nat)
    requires Laden(writers)
    ensures var d := Drain(writers, room);
            && |Bytes(d.log)| == (if Offers(writers) <= room then Offers(writers) else room)
            && (d.left != [] <==> Offers(writers) > room)
            && Laden(d.left)
            && (forall w :: w in d.done ==> w.rest == [])
  {
    if writers != [] {
      var w := writers[0];
      if |w.rest| <= room {
        assert Laden(writers[1..]);
        DrainLaws(writers[1..], room - |w.rest|);
        var d := Drain(writers[1..], room - |w.rest|);
        assert Drain(writers, room).log[1..] == d.log;
      } else {
        assert Bytes([Chunk(w.call, w.rest[..room])]) == w.rest[..room] + Bytes([]);
      }
    }
  }

  // ---------------------------------------------------------------- the calls

  datatype Code = Ok | EIO | EAGAIN | EINVAL

  /** What a call returns, unless it pends. */
  datatype Outcome = Returned(code: Code, count: nat) | Pends

  function ReturnCode(min: nat, remaining: nat, requested: nat): Code
    requires remaining <= requested
  {
    if requested - remaining >= min then Ok else EAGAIN
  }

  /** What a call that has moved so many of its bytes answers, or that it waits. */
  function Verdict(count: nat, total: nat, min: nat, wait: bool): Outcome
    requires count <= total
  {
    if count == total || (wait && count >= min > 0) then Returned(Ok, count)
    else if wait then Pends
    else Returned(ReturnCode(min, total - count, total), count)
  }

  function ReaderPrios(q: seq<Reader>): (r: seq<int>)
    ensures |r| == |q| && forall i :: 0 <= i < |q| ==> r[i] == q[i].prio
  {
    seq(|q|, i requires 0 <= i < |q| => q[i].prio)
  }

  function WriterPrios(q: seq<Writer>): (r: seq<int>)
    ensures |r| == |q| && forall i :: 0 <= i < |q| ==> r[i] == q[i].prio
  {
    seq(|q|, i requires 0 <= i < |q| => q[i].prio)
  }

  function AddReader(q: seq<Reader>, r: Reader): (r': seq<Reader>)
    ensures r' != [] && forall x :: x in r' ==> x == r || x in q
  {
    InsertAt(q, Slot(ReaderPrios(q), r.prio), r)
  }

  function AddWriter(q: seq<Writer>, w: Writer): (r': seq<Writer>)
    ensures r' != [] && forall x :: x in r' ==> x == w || x in q
  {
    InsertAt(q, Slot(WriterPrios(q), w.prio), w)
  }

  datatype Sent = Sent(pipe: Pipe, count: nat, woken: seq<Reader>, log: seq<Chunk>)

  /** Readers first, then the buffer. */
  function Send(p: Pipe, data: seq<Byte>): (r: Sent)
    requires |p.buffer| <= p.size
    ensures r.count <= |data|
  {
    var s := Serve(p.readers, data);
    var n := Min(|s.rest|, p.size - |p.buffer|);
    Sent(p.(buffer := p.buffer + s.rest[..n], readers := s.left), |data| - |s.rest| + n, s.done, s.log)
  }

  datatype PutResult = PutResult(pipe: Pipe, outcome: Outcome, taken: seq<Byte>, woken: seq<Reader>, log: seq<Chunk>)

  /** Send what can be sent; what is left over pends or is not sent. */
  function Put(p: Pipe, call: nat, prio: int, data: seq<Byte>, min: nat, wait: bool): PutResult
    requires |p.buffer| <= p.size
  {
    if min > |data| then PutResult(p, Returned(EINVAL, 0), [], [], [])
    else if !wait && Wants(p.readers) + (p.size - |p.buffer|) < min then PutResult(p, Returned(EIO, 0), [], [], [])
    else
      var s := Send(p, data);
      var taken, rest, outcome := data[..s.count], data[s.count..], Verdict(s.count, |data|, min, wait);
      PutResult(if outcome.Pends? then s.pipe.(writers := AddWriter(p.writers, Writer(call, prio, min, taken, rest)))
                else s.pipe,
                outcome, taken, s.woken, s.log)
  }

  datatype GetResult = GetResult(pipe: Pipe, outcome: Outcome, got: seq<Byte>, woken: seq<Writer>, log: seq<Chunk>)

  datatype Collected = Collected(pipe: Pipe, got: seq<Byte>, woken: seq<Writer>, log: seq<Chunk>)

  /** The buffer followed by the waiting writers' data is one stream: its front
      goes to the caller and what else was drained refills the buffer. */
  function Collect(p: Pipe, total: nat): (r: Collected)
    ensures |r.got| <= total
  {
    var d := Drain(p.writers, total);
    var stream := p.buffer + Bytes(d.log);
    var count := Min(total, |stream|);
    Collected(p.(buffer := stream[count..], writers := d.left), stream[..count], d.done, d.log)
  }

  function Get(p: Pipe, call: nat, prio: int, total: nat, min: nat, wait: bool): GetResult {
    if min > total then GetResult(p, Returned(EINVAL, 0), [], [], [])
    else if !wait && Offers(p.writers) + |p.buffer| < min then GetResult(p, Returned(EIO, 0), [], [], [])
    else
      var c := Collect(p, total);
      var outcome := Verdict(|c.got|, total, min, wait);
      GetResult(if outcome.Pends? then c.pipe.(readers := AddReader(p.readers, Reader(call, prio, min, c.got, total - |c.got|)))
                else c.pipe,
                outcome, c.got, c.woken, c.log)
  }

  // ------------------------------------------------- what waiting says of a pipe

  /** Readers wait only on an empty pipe, writers only on a full one, and every
      waiter has bytes to go. */
  ghost predicate WaitRules(p: Pipe) {
    && |p.buffer| <= p.size
    && Hungry(p.readers) && Laden(p.writers)
    && (p.readers != [] ==> p.buffer == [] && p.writers == [])
    && (p.writers != [] ==> |p.buffer| == p.size)
  }

  lemma PutKeepsWaitRules(p: Pipe, call: nat, prio: int, data: seq<Byte>, min: nat, wait: bool)
    requires WaitRules(p)
    ensures var r := Put(p, call, prio, data, min, wait);
            && WaitRules(r.pipe)
            && r.pipe.size == p.size
            && (forall t :: t in r.woken ==> t.want == 0)
  {
    SendLaws(p, data);
  }

  /** What sending leaves: readers only at an empty pipe, and something unsent only when
      the buffer is full. */
  lemma SendLaws(p: Pipe, data: seq<Byte>)
    requires WaitRules(p)
    ensures var s := Send(p, data);
            && |s.pipe.buffer| <= p.size && s.pipe.size == p.size && s.pipe.writers == p.writers
            && Hungry(s.pipe.readers)
            && (s.pipe.readers != [] ==> s.pipe.buffer == [] && p.writers == [] && s.count == |data|)
            && (p.writers != [] || s.count < |data| ==> |s.pipe.buffer| == p.size)
            && (forall t :: t in s.woken ==> t.want == 0)
  {
    ServeLaws(p.readers, data);
  }

  lemma PastEmpty<T>(a: seq<T>, b: seq<T>, x: seq<T>)
    requires a == [] || b == []
    ensures b + (a + x) == a + (b + x)
  {
  }

  lemma TakeBeyond<T>(a: seq<T>, b: seq<T>, n: nat)
    requires n <= |b|
    ensures (a + b)[..|a| + n] == a + b[..n]
  {
  }

  /** Sending moves bytes but keeps the stream: what readers got, then the new
      buffer, is the old buffer, then what was taken from the caller. */
  lemma SendConserves(p: Pipe, data: seq<Byte>)
    requires WaitRules(p)
    ensures Bytes(Send(p, data).log) + Send(p, data).pipe.buffer == p.buffer + data[..Send(p, data).count]
  {
    ServeStream(p.readers, data);
    ServedFromEmpty(p, data);
    var s := Serve(p.readers, data);
    SentConserves(p, data, s, Min(|s.rest|, p.size - |p.buffer|), Send(p, data));
  }

  lemma SentConserves(p: Pipe, data: seq<Byte>, s: Served, n: nat, r: Sent)
    requires Bytes(s.log) + s.rest == data && n <= |s.rest| && (p.buffer == [] || Bytes(s.log) == [])
    requires r.log == s.log && r.pipe.buffer == p.buffer + s.rest[..n] && r.count == |data| - |s.rest| + n
    ensures Bytes(r.log) + r.pipe.buffer == p.buffer + data[..r.count]
  {
    SendSplits(p.buffer, Bytes(s.log), s.rest, data, n);
  }

  lemma ServedFromEmpty(p: Pipe, data: seq<Byte>)
    requires WaitRules(p)
    ensures p.buffer == [] || Bytes(Serve(p.readers, data).log) == []
  {
    if p.readers == [] {
      assert Serve(p.readers, data).log == [];
    }
  }

  lemma SendSplits(buffer: seq<Byte>, served: seq<Byte>, rest: seq<Byte>, data: seq<Byte>, n: nat)
    requires served + rest == data && n <= |rest| && (buffer == [] || served == [])
    ensures served + (buffer + rest[..n]) == buffer + data[..|data| - |rest| + n]
  {
    calc {
      served + (buffer + rest[..n]);
      { PastEmpty(buffer, served, rest[..n]); }
      buffer + (served + rest[..n]);
      { TakeBeyond(served, rest, n); }
      buffer + data[..|data| - |rest| + n];
    }
  }

  lemma PutConserves(p: Pipe, call: nat, prio: int, data: seq<Byte>, min: nat, wait: bool)
    requires WaitRules(p)
    ensures var r := Put(p, call, prio, data, min, wait);
            && Bytes(r.log) + r.pipe.buffer == p.buffer + r.taken
            && r.taken <= data
            && (r.outcome.Returned? ==> r.outcome.count == |r.taken|)
  {
    SendConserves(p, data);
    PastEmpty(p.buffer, [], []);
  }

  /** What collecting leaves: writers only behind a full buffer, and a short caller
      only when everything is taken. */
  lemma CollectLaws(p: Pipe, total: nat)
    requires WaitRules(p)
    ensures var c := Collect(p, total);
            && |c.pipe.buffer| <= p.size && c.pipe.readers == p.readers && c.pipe.size == p.size
            && Laden(c.pipe.writers) && (c.pipe.writers != [] ==> |c.pipe.buffer| == p.size)
            && (|c.got| < total ==> c.pipe.buffer == [] && c.pipe.writers == [])
            && (p.readers != [] ==> c.pipe.buffer == [] && c.pipe.writers == [])
            && (forall t :: t in c.woken ==> t.rest == [])
  {
    DrainLaws(p.writers, total);
    assert p.writers == [] ==> Bytes(Drain(p.writers, total).log) == [];
  }

  lemma GetKeepsWaitRules(p: Pipe, call: nat, prio: int, total: nat, min: nat, wait: bool)
    requires WaitRules(p)
    ensures var r := Get(p, call, prio, total, min, wait);
            && WaitRules(r.pipe)
            && r.pipe.size == p.size
            && (forall t :: t in r.woken ==> t.rest == [])
  {
    CollectLaws(p, total);
  }

  lemma GetConserves(p: Pipe, call: nat, prio: int, total: nat, min: nat, wait: bool)
    ensures var r := Get(p, call, prio, total, min, wait);
            && r.got + r.pipe.buffer == p.buffer + Bytes(r.log)
            && |r.got| <= total
            && (r.outcome.Returned? ==> r.outcome.count == |r.got|)
  {
    assert Bytes([]) == [];
  }

  /** A call that may not wait either refuses and changes nothing, or moves at
      least the minimum and reports success: the estimate made before the
      transfer is never wrong. */
  lemma PutNoWait(p: Pipe, call: nat, prio: int, data: seq<Byte>, min: nat)
    requires WaitRules(p) && min <= |data|
    ensures var r := Put(p, call, prio, data, min, false);
            if Wants(p.readers) + p.size - |p.buffer| < min
            then r == PutResult(p, Returned(EIO, 0), [], [], [])
            else r.outcome.Returned? && r.outcome.code == Ok && r.outcome.count == |r.taken| >= min
  {
    ServeLaws(p.readers, data);
    assert Wants([]) == 0;
  }

  lemma GetNoWait(p: Pipe, call: nat, prio: int, total: nat, min: nat)
    requires WaitRules(p) && min <= total
    ensures var r := Get(p, call, prio, total, min, false);
            if Offers(p.writers) + |p.buffer| < min
            then r == GetResult(p, Returned(EIO, 0), [], [], [])
            else r.outcome.Returned? && r.outcome.code == Ok && r.outcome.count == |r.got| >= min
  {
    DrainLaws(p.writers, total);
  }

  // ------------------------------------------------------- what a call answers

  /** A put moves as much as readers want and the buffer has room for. */
  lemma PutTakes(p: Pipe, call: nat, prio: int, data: seq<Byte>, min: nat, wait: bool)
    requires WaitRules(p)
    ensures var r, most := Put(p, call, prio, data, min, wait), Wants(p.readers) + p.size - |p.buffer|;
            && (min > |data| ==> r == PutResult(p, Returned(EINVAL, 0), [], [], []))
            && (min <= |data| && (wait || most >= min) ==> |r.taken| == if |data| <= most then |data| else most)
  {
    ServeLaws(p.readers, data);
  }

  /** A get moves as much as the buffer and the waiting writers hold. */
  lemma GetTakes(p: Pipe, call: nat, prio: int, total: nat, min: nat, wait: bool)
    requires WaitRules(p)
    ensures var r, most := Get(p, call, prio, total, min, wait), |p.buffer| + Offers(p.writers);
            && (min > total ==> r == GetResult(p, Returned(EINVAL, 0), [], [], []))
            && (min <= total && (wait || most >= min) ==> |r.got| == if total <= most then total else most)
  {
    DrainLaws(p.writers, total);
  }

  /** A put that may wait does so exactly when bytes are left over and it has not
      reached its minimum or has none; otherwise it returns at once with success. */
  lemma PutWaits(p: Pipe, call: nat, prio: int, data: seq<Byte>, min: nat)
    requires WaitRules(p) && min <= |data|
    ensures var r := Put(p, call, prio, data, min, true);
            && (r.outcome.Pends? <==> |r.taken| < |data| && (min == 0 || |r.taken| < min))
            && (r.outcome.Returned? ==> r.outcome == Returned(Ok, |r.taken|) && r.pipe.writers == p.writers)
            && (r.outcome.Pends? ==> Writer(call, prio, min, r.taken, data[|r.taken|..]) in r.pipe.writers)
  {
    SendLaws(p, data);
  }

  lemma GetWaits(p: Pipe, call: nat, prio: int, total: nat, min: nat)
    requires WaitRules(p) && min <= total
    ensures var r := Get(p, call, prio, total, min, true);
            && (r.outcome.Pends? <==> |r.got| < total && (min == 0 || |r.got| < min))
            && (r.outcome.Returned? ==> r.outcome == Returned(Ok, |r.got|) && r.pipe.readers == p.readers)
            && (r.outcome.Pends? ==> Reader(call, prio, min, r.got, total - |r.got|) in r.pipe.readers)
  {
  }
}
