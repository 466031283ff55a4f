/** The pipe object as the kernel keeps it: a ring of bytes with two indices and
    a count, and the two wait queues.  Its calls copy bytes in loops and in the
    code's order, and are proved to reach the states of the simple form. */
module PipeObject {
  import opened Common
  import opened PriorityOrder
  import opened Pipes

  /** How many leading requests a call of `bytes` can satisfy in full. */
  function Fits(wants: seq<nat>, bytes: nat): (k: nat)
    ensures k <= |wants|
  {
    if wants == [] || wants[0] > bytes then 0 else 1 + Fits(wants[1..], bytes - wants[0])
  }

  lemma {:induction false} SumSnoc(ns: seq<nat>, n: nat)
    ensures Sum(ns + [n]) == Sum(ns) + n
  {
    if ns == [] {
      assert [] + [n] == [n] && [n][1..] == [];
    } else {
      SumSnoc(ns[1..], n);
      assert (ns + [n])[1..] == ns[1..] + [n];
    }
  }

  lemma {:induction false} SumPrefix(ns: seq<nat>, k: nat)
    requires k <= |ns|
    ensures Sum(ns[..k]) <= Sum(ns)
  {
    if k > 0 {
      SumPrefix(ns[1..], k - 1);
      assert ns[..k][1..] == ns[1..][..k - 1];
    }
  }

  lemma {:induction false} FitsAt(wants: seq<nat>, bytes: nat, k: nat)
    requires k <= |wants| && Sum(wants[..k]) <= bytes
    requires k < |wants| ==> Sum(wants[..k]) + wants[k] > bytes
    ensures Fits(wants, bytes) == k
  {
    if k > 0 {
      assert wants[..k][1..] == wants[1..][..k - 1];
      FitsAt(wants[1..], bytes - wants[0], k - 1);
    }
  }

  /** Choose the waiters a call will satisfy in full, from what each still
      wants.  A call that may not wait is first checked against the total. */
  method Prepare(wants: seq<nat>, space: nat, bytes: nat, min: nat, wait: bool) returns (ok: bool, k: nat)
    requires min <= bytes
    ensures ok <==> wait || Sum(wants) + space >= min
    ensures ok ==> k == Fits(wants, bytes)
  {
    k := 0;
    if !wait {
      var num, i := 0, 0;
      while i < |wants|
        invariant 0 <= i <= |wants| && num == Sum(wants[..i])
      {
        SumSnoc(wants[..i], wants[i]);
        assert wants[..i + 1] == wants[..i] + [wants[i]];
        num, i := num + wants[i], i + 1;
        if num >= bytes {
          break;
        }
      }
      SumPrefix(wants, i);
      assert i == |wants| ==> wants[..i] == wants;
      if num + space < min {
        return false, 0;
      }
    }
    ok := true;
    var num := 0;
    while k < |wants|
      invariant 0 <= k <= |wants| && num == Sum(wants[..k]) <= bytes
    {
      if num + wants[k] > bytes {
        break;
      }
      SumSnoc(wants[..k], wants[k]);
      assert wants[..k + 1] == wants[..k] + [wants[k]];
      num, k := num + wants[k], k + 1;
    }
    FitsAt(wants, bytes, k);
  }

  lemma WriteNext<T>(s: seq<T>, at: nat, src: seq<T>, n: nat)
    requires n < |src| && at + n < |s|
    ensures (s[..at] + src[..n] + s[at + n..])[at + n := src[n]] == s[..at] + src[..n + 1] + s[at + n + 1..]
  {
  }

  lemma SliceTwice<T>(s: seq<T>, n: nat, m: nat)
    requires n + m <= |s|
    ensures s[..n] + s[n..][..m] == s[..n + m]
    ensures s[n..][m..] == s[n + m..]
  {
  }

  function ReaderWants(rs: seq<Reader>): (r: seq<nat>)
    ensures |r| == |rs| && forall i :: 0 <= i < |rs| ==> r[i] == rs[i].want
  {
    seq(|rs|, i requires 0 <= i < |rs| => rs[i].want)
  }

  function WriterWants(ws: seq<Writer>): (r: seq<nat>)
    ensures |r| == |ws| && forall i :: 0 <= i < |ws| ==> r[i] == |ws[i].rest|
  {
    seq(|ws|, i requires 0 <= i < |ws| => |ws[i].rest|)
  }

  lemma {:induction false} SumWants(rs: seq<Reader>)
    ensures Sum(ReaderWants(rs)) == Wants(rs)
  {
    if rs != [] {
      SumWants(rs[1..]);
      assert ReaderWants(rs)[1..] == ReaderWants(rs[1..]);
    }
  }

  lemma {:induction false} SumOffers(ws: seq<Writer>)
    ensures Sum(WriterWants(ws)) == Offers(ws)
  {
    if ws != [] {
      SumOffers(ws[1..]);
      assert WriterWants(ws)[1..] == WriterWants(ws[1..]);
    }
  }

  /** Readers whose requests all fit, each with its part of the data. */
  function Filled(rs: seq<Reader>, data: seq<Byte>): seq<Reader>
    requires Wants(rs) <= |data|
  {
    if rs == [] then []
    else
      var n := rs[0].want;
      [rs[0].(got := rs[0].got + data[..n], want := 0)] + Filled(rs[1..], data[n..])
  }

  lemma {:induction false} FitsRest(rs: seq<Reader>, bytes: nat)
    ensures var k := Fits(ReaderWants(rs), bytes);
            Wants(rs[..k]) <= bytes && Fits(ReaderWants(rs[k..]), bytes - Wants(rs[..k])) == 0
  {
    var k := Fits(ReaderWants(rs), bytes);
    if k == 0 {
      assert rs[..0] == [] && rs[0..] == rs;
    } else {
      assert ReaderWants(rs)[1..] == ReaderWants(rs[1..]);
      FitsRest(rs[1..], bytes - rs[0].want);
      TailSlices(rs, k);
      TailDrop(rs, k);
    }
  }

  /** Serving fills the first readers and then goes on with what is left. */
  lemma {:induction false} ServeSplit(rs: seq<Reader>, data: seq<Byte>, k: nat)
    requires k <= |rs| && Wants(rs[..k]) <= |data|
    ensures var n := Wants(rs[..k]);
            var s, t := Serve(rs, data), Serve(rs[k..], data[n..]);
            s.done == Filled(rs[..k], data) + t.done && s.left == t.left && s.rest == t.rest
    decreases k
  {
    if k == 0 {
      assert rs[..0] == [] && rs[0..] == rs && data[0..] == data;
    } else {
      TailSlices(rs, k);
      TailDrop(rs, k);
      var w, tail := rs[0].want, rs[1..];
      var n := Wants(tail[..k - 1]);
      SliceTwice(data, w, n);
      ServeSplit(tail, data[w..], k - 1);
      var first, t := FilledReader(rs[0], data), Serve(tail[k - 1..], data[w..][n..]);
      assert Serve(rs[k..], data[w + n..]) == t;
      ServeFirst(rs, data);
      FilledFirst(rs[..k], data);
      Assoc([first], Filled(tail[..k - 1], data[w..]), t.done);
    }
  }

  function FilledReader(r: Reader, data: seq<Byte>): Reader
    requires r.want <= |data|
  {
    r.(got := r.got + data[..r.want], want := 0)
  }

  lemma ServeFirst(rs: seq<Reader>, data: seq<Byte>)
    requires rs != [] && rs[0].want <= |data|
    ensures var s, t := Serve(rs, data), Serve(rs[1..], data[rs[0].want..]);
            s.done == [FilledReader(rs[0], data)] + t.done && s.left == t.left && s.rest == t.rest
  {
  }

  lemma FilledFirst(rs: seq<Reader>, data: seq<Byte>)
    requires rs != [] && Wants(rs) <= |data|
    ensures Filled(rs, data) == [FilledReader(rs[0], data)] + Filled(rs[1..], data[rs[0].want..])
  {
  }

  /** No further reader can be satisfied: the next one gets what is left. */
  lemma ServeEnd(rs: seq<Reader>, data: seq<Byte>)
    requires Fits(ReaderWants(rs), |data|) == 0
    ensures Serve(rs, data).done == []
    ensures rs == [] ==> Serve(rs, data).left == [] && Serve(rs, data).rest == data
    ensures rs != [] ==> rs[0].want > |data| && Serve(rs, data).rest == []
    ensures rs != [] ==> Serve(rs, data).left == [rs[0].(got := rs[0].got + data, want := rs[0].want - |data|)] + rs[1..]
  {
  }

  /** Sending puts n bytes in the buffer if n fit and no more do. */
  lemma SendIs(p: Pipe, data: seq<Byte>, n: nat)
    requires |p.buffer| <= p.size && n <= |Serve(p.readers, data).rest| && |p.buffer| + n <= p.size
    requires n == |Serve(p.readers, data).rest| || |p.buffer| + n == p.size
    ensures var s := Serve(p.readers, data);
            Send(p, data) == Sent(p.(buffer := p.buffer + s.rest[..n], readers := s.left), |data| - |s.rest| + n, s.done, s.log)
  {
    assert n == Min(|Serve(p.readers, data).rest|, p.size - |p.buffer|);
  }

  function Rests(ws: seq<Writer>): seq<Byte> {
    if ws == [] then [] else ws[0].rest + Rests(ws[1..])
  }

  function Spent(w: Writer): Writer {
    w.(sent := w.sent + w.rest, rest := [])
  }

  function AllSpent(ws: seq<Writer>): (r: seq<Writer>)
    ensures |r| == |ws|
  {
    if ws == [] then [] else [Spent(ws[0])] + AllSpent(ws[1..])
  }

  /** A writer after its next n bytes were taken. */
  function Advance(w: Writer, n: nat): Writer
    requires n <= |w.rest|
  {
    w.(sent := w.sent + w.rest[..n], rest := w.rest[n..])
  }

  lemma AdvanceTwice(w: Writer, n: nat, m: nat)
    requires n + m <= |w.rest|
    ensures Advance(w, 0) == w
    ensures Advance(Advance(w, n), m) == Advance(w, n + m)
  {
    assert w.sent + w.rest[..0] == w.sent;
    SliceTwice(w.rest, n, m);
    Assoc(w.sent, w.rest[..n], w.rest[n..][..m]);
  }

  lemma FitsStep(ws: seq<Writer>, room: nat)
    requires ws != [] && |ws[0].rest| <= room
    ensures Fits(WriterWants(ws), room) == 1 + Fits(WriterWants(ws[1..]), room - |ws[0].rest|)
  {
    assert WriterWants(ws)[1..] == WriterWants(ws[1..]);
  }

  /** The simple form's drain, for the split that the preparation chooses: the
      writers that are satisfied in full ... */
  lemma {:induction false} DrainDone(ws: seq<Writer>, room: nat)
    ensures var k := Fits(WriterWants(ws), room);
            Drain(ws, room).done == AllSpent(ws[..k]) && |Rests(ws[..k])| <= room
  {
    if ws != [] && |ws[0].rest| <= room {
      FitsStep(ws, room);
      DrainDone(ws[1..], room - |ws[0].rest|);
      var k := Fits(WriterWants(ws), room);
      assert ws[..k][1..] == ws[1..][..k - 1] && ws[..k][0] == ws[0];
    }
  }

  /** ... the one that is left at the head of the queue ... */
  lemma {:induction false} DrainLeft(ws: seq<Writer>, room: nat)
    ensures var d, k := Drain(ws, room), Fits(WriterWants(ws), room);
            var m := room - |Rests(ws[..k])|;
            && (k == |ws| ==> d.left == [])
            && (k < |ws| ==> 0 <= m < |ws[k].rest| && d.left == [Advance(ws[k], m)] + ws[k + 1..])
  {
    if ws != [] && |ws[0].rest| <= room {
      FitsStep(ws, room);
      DrainLeft(ws[1..], room - |ws[0].rest|);
      var k := Fits(WriterWants(ws), room);
      TailSlices(ws, k);
    } else if ws != [] {
      assert ws[..0] == [];
    }
  }

  lemma TailDrop<T>(s: seq<T>, k: nat)
    requires 0 < k <= |s|
    ensures s[k..] == s[1..][k - 1..]
  {
  }

  lemma TailSlices<T>(s: seq<T>, k: nat)
    requires 0 < k <= |s|
    ensures s[..k][1..] == s[1..][..k - 1] && s[..k][0] == s[0]
    ensures k < |s| ==> s[k] == s[1..][k - 1] && s[k + 1..] == s[1..][k..]
  {
  }

  lemma Rejoin<T>(s: seq<T>, n: nat)
    requires n <= |s|
    ensures s == s[..n] + s[n..]
  {
  }

  lemma SplitBack<T>(a: seq<T>, b: seq<T>)
    ensures (a + b)[..|a|] == a && (a + b)[|a|..] == b
  {
  }

  lemma Assoc<T>(a: seq<T>, b: seq<T>, c: seq<T>)
    ensures (a + b) + c == a + (b + c)
  {
  }

  lemma RestsNext(ws: seq<Writer>, k: nat)
    requires 0 < k <= |ws|
    ensures Rests(ws[..k]) == ws[0].rest + Rests(ws[1..][..k - 1])
  {
    TailSlices(ws, k);
  }

  lemma BytesNext(c: Chunk, log: seq<Chunk>)
    ensures Bytes([c] + log) == c.bytes + Bytes(log)
  {
    assert ([c] + log)[1..] == log;
  }

  /** ... and the bytes taken from all of them. */
  lemma {:induction false} DrainBytes(ws: seq<Writer>, room: nat)
    ensures var d, k := Drain(ws, room), Fits(WriterWants(ws), room);
            var m := room - |Rests(ws[..k])|;
            && (k < |ws| ==> 0 <= m < |ws[k].rest|)
            && Bytes(d.log) == Rests(ws[..k]) + (if k < |ws| then ws[k].rest[..m] else [])
  {
    DrainLeft(ws, room);
    if ws == [] {
    } else if |ws[0].rest| <= room {
      FitsStep(ws, room);
      var tail, less := ws[1..], room - |ws[0].rest|;
      var k := Fits(WriterWants(ws), room);
      RestsNext(ws, k);
      var m := room - |Rests(ws[..k])|;
      var last := if k < |ws| then ws[k].rest[..m] else [];
      DrainBytes(tail, less);
      assert Bytes(Drain(tail, less).log) == Rests(tail[..k - 1]) + last;
      BytesNext(Chunk(ws[0].call, ws[0].rest), Drain(tail, less).log);
      Assoc(ws[0].rest, Rests(tail[..k - 1]), last);
    } else {
      assert ws[..0] == [];
      BytesNext(Chunk(ws[0].call, ws[0].rest[..room]), []);
    }
  }

  /** A position counted from the start of the ring, brought back into it. */
  function Wrap(k: nat, size: nat): nat {
    if k < size then k else k - size
  }

  /** An index that has just been advanced goes back to 0 at the end. */
  function NextIndex(k: nat, size: nat): nat {
    if k == size then 0 else k
  }

  /** The `used` bytes of a ring from `start` on. */
  ghost function Window(ring: seq<Byte>, start: nat, used: nat): (r: seq<Byte>)
    requires used <= |ring| && (start < |ring| || used == 0)
    ensures |r| == used
    decreases used
  {
    if used == 0 then [] else [ring[start]] + Window(ring, NextIndex(start + 1, |ring|), used - 1)
  }

  lemma {:induction false} WindowAt(ring: seq<Byte>, start: nat, used: nat, i: nat)
    requires i < used <= |ring| && start < |ring|
    ensures Window(ring, start, used)[i] == ring[Wrap(start + i, |ring|)]
    decreases used
  {
    if i > 0 {
      WindowAt(ring, NextIndex(start + 1, |ring|), used - 1, i - 1);
    }
  }

  /** Writing just after the window, in one run, appends to it. */
  lemma WriteWraps(start: nat, used: nat, w: nat, n: nat, size: nat)
    requires used + n <= size && (start < size || start == 0) && w == Wrap(start + used, size) && w + n <= size
    ensures NextIndex(w + n, size) == Wrap(start + used + n, size)
  {
  }

  lemma WindowPut(ring: seq<Byte>, after: seq<Byte>, start: nat, used: nat, w: nat, src: seq<Byte>)
    requires used + |src| <= |ring| && (start < |ring| || start == 0)
    requires w == Wrap(start + used, |ring|) && w + |src| <= |ring|
    requires after == ring[..w] + src + ring[w + |src|..]
    ensures Window(after, start, used + |src|) == Window(ring, start, used) + src
  {
    forall i | 0 <= i < used + |src|
      ensures Window(after, start, used + |src|)[i] == (Window(ring, start, used) + src)[i]
    {
      WindowAt(after, start, used + |src|, i);
      if i < used {
        WindowAt(ring, start, used, i);
      } else {
        assert Wrap(start + i, |ring|) == w + (i - used);
      }
    }
  }

  /** Reading one run off the front of the window leaves the rest of it. */
  lemma {:induction false} WindowGet(ring: seq<Byte>, start: nat, used: nat, n: nat)
    requires n <= used <= |ring| && (start < |ring| || |ring| == 0) && start + n <= |ring|
    ensures ring[start..start + n] == Window(ring, start, used)[..n]
    ensures Window(ring, NextIndex(start + n, |ring|), used - n) == Window(ring, start, used)[n..]
  {
    forall i | 0 <= i < n ensures Window(ring, start, used)[i] == ring[start + i] {
      WindowAt(ring, start, used, i);
    }
    var later, now := Window(ring, NextIndex(start + n, |ring|), used - n), Window(ring, start, used);
    forall i | 0 <= i < used - n ensures later[i] == now[n + i] {
      WindowAt(ring, start, used, n + i);
      WindowAt(ring, NextIndex(start + n, |ring|), used - n, i);
    }
  }

  /** Take from writers directly into the caller's buffer, until one of the two
      runs out; the writers not finished come back in `left`. */
  method TakeDirect(list: seq<Writer>, room: nat) returns (bytes: seq<Byte>, woken: seq<Writer>, left: seq<Writer>)
    ensures bytes + Rests(left) == Rests(list)
    ensures |bytes| == Min(room, |Rests(list)|)
    ensures woken + AllSpent(left) == AllSpent(list)
  {
    bytes, woken, left := [], [], list;
    while |left| > 0 && |bytes| < room
      invariant |bytes| <= room
      invariant bytes + Rests(left) == Rests(list)
      invariant woken + AllSpent(left) == AllSpent(list)
      decreases |left|
    {
      var writer := left[0];
      var n := Min(room - |bytes|, |writer.rest|);
      var next := Advance(writer, n);
      ghost var tail := left[1..];
      assert writer.rest == writer.rest[..n] + next.rest;
      Assoc(writer.rest[..n], next.rest, Rests(tail));
      Assoc(bytes, writer.rest[..n], next.rest + Rests(tail));
      Assoc(writer.sent, writer.rest[..n], next.rest);
      bytes := bytes + writer.rest[..n];
      assert Spent(next) == Spent(writer);
      if |bytes| == room {
        left := [next] + left[1..];
        assert left[1..] == tail;
        break;
      }
      assert next.rest == [] && [] + Rests(tail) == Rests(tail) && next.sent + [] == next.sent;
      Assoc(woken, [next], AllSpent(tail));
      woken, left := woken + [next], left[1..];
    }
  }

  function PartialRest(ws: seq<Writer>, k: nat): seq<Byte> {
    if k < |ws| then ws[k].rest else []
  }

  /** The queue of writers after m bytes of the first one that did not fit. */
  function LeftOf(ws: seq<Writer>, k: nat, m: nat): seq<Writer>
    requires m <= |PartialRest(ws, k)|
  {
    if k < |ws| then [Advance(ws[k], m)] + ws[k + 1..] else []
  }

  /** The bytes that draining takes, and what it leaves, from the amount m that it
      takes of the first writer that does not fit. */
  lemma DrainAmount(ws: seq<Writer>, room: nat, m: nat)
    requires var k := Fits(WriterWants(ws), room);
             m <= |PartialRest(ws, k)| && (k < |ws| ==> m == room - |Rests(ws[..k])|)
    ensures var d, k := Drain(ws, room), Fits(WriterWants(ws), room);
            d.left == LeftOf(ws, k, m) && Bytes(d.log) == Rests(ws[..k]) + PartialRest(ws, k)[..m]
  {
    DrainLeft(ws, room);
    DrainBytes(ws, room);
  }

  /** The amounts add up: a writer is left over only if the caller's buffer and the
      ring are both full. */
  lemma Amount(ring: nat, direct: nat, partial: nat, total: nat, size: nat, got: nat, refill: nat, m: nat)
    requires ring == size && total - direct < partial && m <= partial && direct <= total
    requires got + refill == ring + direct + m && got <= total && refill <= size
    requires got == total || m == partial
    requires m == partial || refill == size
    ensures m == total - direct
  {
  }

  class PipeObject {
    const buffer: array<Byte>
    var bytesUsed: nat
    var readIndex: nat
    var writeIndex: nat
    var readers: seq<Reader>
    var writers: seq<Writer>

    ghost predicate RingOk()
      reads this
    {
      && bytesUsed <= buffer.Length
      && (readIndex < buffer.Length || readIndex == 0)
      && writeIndex == Wrap(readIndex + bytesUsed, buffer.Length)
    }

    ghost function Contents(): (r: seq<Byte>)
      requires RingOk()
      reads this, buffer
    {
      Window(buffer[..], readIndex, bytesUsed)
    }

    ghost function Abs(): Pipe
      requires RingOk()
      reads this, buffer
    {
      Pipe(buffer.Length, Contents(), readers, writers)
    }

    ghost predicate Valid()
      reads this, buffer
    {
      RingOk() && WaitRules(Abs())
    }

    constructor (buffer: array<Byte>)
      ensures Valid() && this.buffer == buffer && Abs() == Pipe(buffer.Length, [], [], [])
    {
      this.buffer := buffer;
      bytesUsed, readIndex, writeIndex := 0, 0, 0;
      readers, writers := [], [];
    }

    /** Copy into the ring from `at`, as much as there is room and data for. */
    method CopyIn(at: nat, room: nat, src: seq<Byte>) returns (n: nat)
      requires at + room <= buffer.Length
      modifies buffer
      ensures n == Min(room, |src|)
      ensures buffer[..] == old(buffer[..])[..at] + src[..n] + old(buffer[..])[at + n..]
    {
      n := 0;
      while n < Min(room, |src|)
        invariant 0 <= n <= Min(room, |src|)
        invariant buffer[..] == old(buffer[..])[..at] + src[..n] + old(buffer[..])[at + n..]
      {
        ghost var before := buffer[..];
        buffer[at + n] := src[n];
        assert buffer[..] == before[at + n := src[n]];
        WriteNext(old(buffer[..]), at, src, n);
        n := n + 1;
      }
    }

    method CopyOut(at: nat, len: nat, room: nat) returns (dest: seq<Byte>)
      requires at + len <= buffer.Length
      ensures dest == buffer[at..at + Min(len, room)]
    {
      dest := [];
      while |dest| < Min(len, room)
        invariant |dest| <= Min(len, room) && dest == buffer[at..at + |dest|]
      {
        dest := dest + [buffer[at + |dest|]];
      }
    }

    /** Fill one unbroken run of the ring. */
    method PutRun(src: seq<Byte>) returns (n: nat)
      requires bytesUsed <= buffer.Length && writeIndex <= buffer.Length
      modifies this`bytesUsed, this`writeIndex, buffer
      ensures n <= |src| && n <= buffer.Length - old(bytesUsed) && n <= buffer.Length - old(writeIndex)
      ensures n == |src| || bytesUsed == buffer.Length || (writeIndex == 0 && old(writeIndex) != 0)
      ensures buffer[..] == old(buffer[..])[..old(writeIndex)] + src[..n] + old(buffer[..])[old(writeIndex) + n..]
      ensures bytesUsed == old(bytesUsed) + n
      ensures writeIndex == NextIndex(old(writeIndex) + n, buffer.Length)
    {
      var run := Min(buffer.Length - bytesUsed, buffer.Length - writeIndex);
      n := CopyIn(writeIndex, run, src);
      bytesUsed := bytesUsed + n;
      writeIndex := writeIndex + n;
      if writeIndex == buffer.Length {
        writeIndex := 0;
      }
    }

    /** Filling a run appends it to the contents. */
    method AppendRun(src: seq<Byte>) returns (n: nat)
      requires RingOk()
      modifies this`bytesUsed, this`writeIndex, buffer
      ensures RingOk() && n <= |src|
      ensures Contents() == old(Contents()) + src[..n]
      ensures n == |src| || bytesUsed == buffer.Length || (writeIndex == 0 && old(writeIndex) != 0)
    {
      ghost var ring, used, w := buffer[..], bytesUsed, writeIndex;
      n := PutRun(src);
      WriteWraps(readIndex, used, w, n, buffer.Length);
      Appended(ring, used, w, src[..n]);
    }

    lemma Appended(ring: seq<Byte>, used: nat, w: nat, src: seq<Byte>)
      requires RingOk() && |ring| == buffer.Length && bytesUsed == used + |src|
      requires w == Wrap(readIndex + used, |ring|) && w + |src| <= |ring|
      requires buffer[..] == ring[..w] + src + ring[w + |src|..]
      ensures Contents() == Window(ring, readIndex, used) + src
    {
      WindowPut(ring, buffer[..], readIndex, used, w, src);
    }

    /** Two passes fill the ring as far as the data and the room allow. */
    method BufferPut(src: seq<Byte>) returns (n: nat)
      requires RingOk()
      modifies this`bytesUsed, this`writeIndex, buffer
      ensures RingOk()
      ensures n <= |src| && Contents() == old(Contents()) + src[..n]
      ensures n == |src| || |Contents()| == buffer.Length
    {
      ghost var before := Contents();
      n := 0;
      for i := 0 to 2
        invariant RingOk() && n <= |src|
        invariant Contents() == before + src[..n]
        invariant i > 0 ==> n == |src| || bytesUsed == buffer.Length || (writeIndex == 0 && i == 1)
      {
        var m := AppendRun(src[n..]);
        SliceTwice(src, n, m);
        Assoc(before, src[..n], src[n..][..m]);
        n := n + m;
      }
    }

    /** Empty one unbroken run of the ring. */
    method GetRun(room: nat) returns (dest: seq<Byte>)
      requires RingOk()
      modifies this`bytesUsed, this`readIndex
      ensures RingOk() && |dest| <= room && old(Contents()) == dest + Contents()
      ensures |dest| == room || bytesUsed == 0 || (readIndex == 0 && old(readIndex) != 0)
    {
      var run := Min(bytesUsed, buffer.Length - readIndex);
      dest := CopyOut(readIndex, run, room);
      TakeRun(dest);
    }

    /** Bytes copied from the read index leave the ring. */
    method TakeRun(dest: seq<Byte>)
      requires RingOk() && |dest| <= bytesUsed && readIndex + |dest| <= buffer.Length
      requires dest == buffer[readIndex..readIndex + |dest|]
      modifies this`bytesUsed, this`readIndex
      ensures RingOk() && old(Contents()) == dest + Contents() && bytesUsed == old(bytesUsed) - |dest|
      ensures readIndex == NextIndex(old(readIndex) + |dest|, buffer.Length)
    {
      WindowGet(buffer[..], readIndex, bytesUsed, |dest|);
      Rejoin(Contents(), |dest|);
      bytesUsed := bytesUsed - |dest|;
      readIndex := readIndex + |dest|;
      if readIndex == buffer.Length {
        readIndex := 0;
      }
    }

    /** Two passes empty the ring as far as the caller has room. */
    method BufferGet(room: nat) returns (dest: seq<Byte>)
      requires RingOk()
      modifies this`bytesUsed, this`readIndex
      ensures RingOk() && |dest| <= room && old(Contents()) == dest + Contents()
      ensures |dest| == room || Contents() == []
    {
      ghost var all := Contents();
      dest := [];
      for i := 0 to 2
        invariant RingOk() && |dest| <= room && all == dest + Contents()
        invariant i > 0 ==> |dest| == room || bytesUsed == 0 || (readIndex == 0 && i == 1)
      {
        var more := GetRun(room - |dest|);
        Assoc(dest, more, Contents());
        dest := dest + more;
      }
    }

    /** The two size queries work from the indices alone, except when they are
        equal. */
    method ReadAvail() returns (n: nat)
      requires RingOk()
      ensures n == |Contents()|
    {
      if buffer.Length == 0 {
        n := 0;
      } else if readIndex == writeIndex {
        n := bytesUsed;
      } else if readIndex < writeIndex {
        n := writeIndex - readIndex;
      } else {
        n := buffer.Length - (readIndex - writeIndex);
      }
    }

    method WriteAvail() returns (n: nat)
      requires RingOk()
      ensures n == buffer.Length - |Contents()|
    {
      if buffer.Length == 0 {
        n := 0;
      } else if writeIndex == readIndex {
        n := buffer.Length - bytesUsed;
      } else if writeIndex < readIndex {
        n := readIndex - writeIndex;
      } else {
        n := buffer.Length - (writeIndex - readIndex);
      }
    }

    /** Copy to the readers that can be satisfied in full, waking each. */
    static method Fill(list: seq<Reader>, data: seq<Byte>) returns (woken: seq<Reader>, written: nat)
      requires Wants(list) <= |data|
      ensures written == Wants(list) && woken == Filled(list, data)
    {
      woken, written := [], 0;
      var rest := list;
      assert data[0..] == data && [] + Filled(list, data) == Filled(list, data);
      while rest != []
        invariant written <= |data| && written + Wants(rest) == Wants(list)
        invariant woken + Filled(rest, data[written..]) == Filled(list, data)
        decreases |rest|
      {
        var reader := rest[0];
        var n := Min(reader.want, |data| - written);
        SliceTwice(data, written, n);
        assert data[written..][..n] == data[written..written + n];
        reader := reader.(got := reader.got + data[written..written + n], want := reader.want - n);
        Assoc(woken, [reader], Filled(rest[1..], data[written + n..]));
        woken, written, rest := woken + [reader], written + n, rest[1..];
      }
    }

    method ServeFull(k: nat, data: seq<Byte>) returns (woken: seq<Reader>, written: nat)
      requires k == Fits(ReaderWants(readers), |data|)
      modifies this`readers
      ensures written <= |data| && readers == old(readers)[k..]
      ensures Fits(ReaderWants(readers), |data| - written) == 0
      ensures var s, t := Serve(old(readers), data), Serve(readers, data[written..]);
              s.done == woken + t.done && s.left == t.left && s.rest == t.rest
    {
      FitsRest(readers, |data|);
      ServeSplit(readers, data, k);
      woken, written := Fill(readers[..k], data);
      readers := readers[k..];
    }

    /** Then copy what is left to the reader at the head of the queue. */
    method ServeReaders(k: nat, data: seq<Byte>) returns (woken: seq<Reader>, written: nat)
      requires k == Fits(ReaderWants(readers), |data|)
      modifies this`readers
      ensures written <= |data|
      ensures var s := Serve(old(readers), data);
              woken == s.done && readers == s.left && data[written..] == s.rest
    {
      woken, written := ServeFull(k, data);
      ServeEnd(readers, data[written..]);
      assert woken + [] == woken;
      if |readers| > 0 {
        var reader := readers[0];
        var n := Min(reader.want, |data| - written);
        assert data[written..written + n] == data[written..];
        reader := reader.(got := reader.got + data[written..written + n], want := reader.want - n);
        readers := [reader] + readers[1..];
        written := written + n;
      }
    }

    /** Readers first, then the ring. */
    method Transfer(k: nat, data: seq<Byte>) returns (woken: seq<Reader>, written: nat)
      requires RingOk() && k == Fits(ReaderWants(readers), |data|)
      modifies this`readers, this`bytesUsed, this`writeIndex, buffer
      ensures RingOk()
      ensures var s := Send(old(Abs()), data);
              Abs() == s.pipe && written == s.count && woken == s.woken
    {
      woken, written := ServeReaders(k, data);
      ghost var held := Contents();
      var n := BufferPut(data[written..]);
      SendIs(old(Abs()), data, n);
      assert Contents() == held + data[written..][..n];
      written := written + n;
    }

    method PutBody(call: nat, prio: int, data: seq<Byte>, min: nat, wait: bool) returns (outcome: Outcome, woken: seq<Reader>)
      requires RingOk()
      modifies this, buffer
      ensures RingOk()
      ensures var r := Put(old(Abs()), call, prio, data, min, wait);
              Abs() == r.pipe && outcome == r.outcome && woken == r.woken
    {
      if min > |data| {
        return Returned(EINVAL, 0), [];
      }
      SumWants(readers);
      var ok, k := Prepare(ReaderWants(readers), buffer.Length - bytesUsed, |data|, min, wait);
      if !ok {
        return Returned(EIO, 0), [];
      }
      var written;
      woken, written := Transfer(k, data);
      outcome := Conclude(written, |data|, min, wait);
      if outcome.Pends? {
        writers := AddWriter(writers, Writer(call, prio, min, data[..written], data[written..]));
      }
    }

    static method Conclude(count: nat, total: nat, min: nat, wait: bool) returns (outcome: Outcome)
      requires count <= total
      ensures outcome == Verdict(count, total, min, wait)
    {
      if count == total {
        return Returned(Ok, count);
      }
      if wait && count >= min && min > 0 {
        return Returned(Ok, count);
      }
      outcome := if wait then Pends else Returned(ReturnCode(min, total - count, total), count);
    }

    /** Send data to the pipe. */
    method PutCall(call: nat, prio: int, data: seq<Byte>, min: nat, wait: bool) returns (outcome: Outcome, woken: seq<Reader>)
      requires Valid()
      modifies this, buffer
      ensures Valid()
      ensures var r := Put(old(Abs()), call, prio, data, min, wait);
              Abs() == r.pipe && outcome == r.outcome && woken == r.woken
    {
      PutKeepsWaitRules(Abs(), call, prio, data, min, wait);
      outcome, woken := PutBody(call, prio, data, min, wait);
    }

    /** The writers chosen to be satisfied in full go to the ring as far as the
        caller had no room for them. */
    method TakeToRing(left: seq<Writer>) returns (woken: seq<Writer>)
      requires RingOk() && |Contents()| + |Rests(left)| <= buffer.Length
      modifies this`bytesUsed, this`writeIndex, buffer
      ensures RingOk() && Contents() == old(Contents()) + Rests(left)
      ensures woken == AllSpent(left)
    {
      woken := [];
      var list := left;
      while |list| > 0
        invariant RingOk() && |Contents()| + |Rests(list)| <= buffer.Length
        invariant Contents() + Rests(list) == old(Contents()) + Rests(left)
        invariant woken + AllSpent(list) == AllSpent(left)
        decreases |list|
      {
        var writer := list[0];
        ghost var before, tail := Contents(), list[1..];
        var n := BufferPut(writer.rest);
        assert n == |writer.rest| && writer.rest[..n] == writer.rest;
        Assoc(before, writer.rest, Rests(tail));
        Assoc(woken, [Spent(writer)], AllSpent(tail));
        assert Advance(writer, n) == Spent(writer);
        woken, list := woken + [Advance(writer, n)], list[1..];
      }
    }

    /** Take from the ring, then from the given writers. */
    method TakeFirst(list: seq<Writer>, total: nat) returns (got: seq<Byte>, woken: seq<Writer>, left: seq<Writer>)
      requires RingOk()
      modifies this`bytesUsed, this`readIndex
      ensures RingOk() && woken + AllSpent(left) == AllSpent(list) && |got| <= total
      ensures got + (Contents() + Rests(left)) == old(Contents()) + Rests(list)
      ensures |got| == total || Contents() + Rests(left) == []
    {
      ghost var ring := Contents();
      got := BufferGet(total);
      ghost var front := got;
      var bytes;
      bytes, woken, left := TakeDirect(list, total - |got|);
      got := got + bytes;
      StreamOrder(ring, front, Contents(), bytes, Rests(left));
    }

    /** Later bytes are taken only when nothing comes before them. */
    static lemma StreamOrder(all: seq<Byte>, a: seq<Byte>, kept: seq<Byte>, b: seq<Byte>, rest: seq<Byte>)
      requires all == a + kept && (kept == [] || b == [])
      ensures (a + b) + (kept + rest) == all + (b + rest)
    {
      if kept == [] {
        assert a + kept == a && kept + rest == rest;
        Assoc(a, b, rest);
      } else {
        assert a + b == a && b + rest == rest;
        Assoc(a, kept, rest);
      }
    }

    /** The writer left at the head of the queue gives the caller what room is left. */
    method PartialDirect(room: nat) returns (bytes: seq<Byte>)
      modifies this`writers
      ensures |bytes| <= room && |bytes| <= |PartialRest(old(writers), 0)|
      ensures bytes == PartialRest(old(writers), 0)[..|bytes|] && writers == LeftOf(old(writers), 0, |bytes|)
      ensures |bytes| == room || |bytes| == |PartialRest(old(writers), 0)|
    {
      bytes := [];
      if |writers| > 0 {
        AdvanceTwice(writers[0], 0, 0);
      }
      if |writers| > 0 && 0 < room {
        var n := Min(room, |writers[0].rest|);
        bytes := writers[0].rest[..n];
        writers := [Advance(writers[0], n)] + writers[1..];
      }
    }

    /** What the caller has no room for refills the ring. */
    method TakeFull(list: seq<Writer>, total: nat) returns (got: seq<Byte>, woken: seq<Writer>, ghost p: nat)
      requires RingOk() && |Rests(list)| <= total
      modifies this`writers, this`bytesUsed, this`readIndex, this`writeIndex, buffer
      ensures RingOk() && woken == AllSpent(list) && |got| <= total
      ensures p <= |PartialRest(old(writers), 0)| && writers == LeftOf(old(writers), 0, p)
      ensures got + Contents() == old(Contents()) + Rests(list) + PartialRest(old(writers), 0)[..p]
      ensures |got| == total || (Contents() == [] && p == |PartialRest(old(writers), 0)|)
    {
      ghost var stream := Contents() + Rests(list);
      var left;
      got, woken, left := TakeFirst(list, total);
      ghost var front := got;
      var more := PartialDirect(total - |got|);
      got := got + more;
      p := |more|;
      StreamOrder(stream, front, Contents() + Rests(left), more, []);
      var late := TakeToRing(left);
      woken := woken + late;
      assert Contents() + [] == Contents() && more + [] == more;
    }

    /** ... and the writer left at the head of the queue refills the ring. */
    method PartialToRing() returns (ghost n: nat)
      requires RingOk()
      modifies this`bytesUsed, this`writeIndex, this`writers, buffer
      ensures RingOk() && n <= |PartialRest(old(writers), 0)|
      ensures Contents() == old(Contents()) + PartialRest(old(writers), 0)[..n]
      ensures writers == LeftOf(old(writers), 0, n)
      ensures n == |PartialRest(old(writers), 0)| || |Contents()| == buffer.Length
    {
      n := 0;
      if |writers| > 0 {
        var m := BufferPut(writers[0].rest);
        writers := [Advance(writers[0], m)] + writers[1..];
        n := m;
      }
    }

    method TakeAll(list: seq<Writer>, total: nat) returns (got: seq<Byte>, woken: seq<Writer>, ghost m: nat)
      requires RingOk() && |Rests(list)| <= total
      modifies this`writers, this`bytesUsed, this`readIndex, this`writeIndex, buffer
      ensures RingOk() && woken == AllSpent(list) && |got| <= total
      ensures m <= |PartialRest(old(writers), 0)| && writers == LeftOf(old(writers), 0, m)
      ensures got + Contents() == old(Contents()) + Rests(list) + PartialRest(old(writers), 0)[..m]
      ensures |got| == total || (Contents() == [] && m == |PartialRest(old(writers), 0)|)
      ensures m == |PartialRest(old(writers), 0)| || |Contents()| == buffer.Length
    {
      ghost var stream, all := Contents() + Rests(list), writers;
      ghost var p, n;
      got, woken, p := TakeFull(list, total);
      ghost var ring := Contents();
      n := PartialToRing();
      m := p + n;
      LeftTwice(all, p, n);
      Assoc(got, ring, PartialRest(all, 0)[p..][..n]);
      Assoc(stream, PartialRest(all, 0)[..p], PartialRest(all, 0)[p..][..n]);
    }

    static lemma LeftTwice(ws: seq<Writer>, p: nat, n: nat)
      requires p <= |PartialRest(ws, 0)| && n <= |PartialRest(LeftOf(ws, 0, p), 0)|
      ensures PartialRest(LeftOf(ws, 0, p), 0) == PartialRest(ws, 0)[p..] && p + n <= |PartialRest(ws, 0)|
      ensures LeftOf(LeftOf(ws, 0, p), 0, n) == LeftOf(ws, 0, p + n)
      ensures PartialRest(ws, 0)[..p] + PartialRest(ws, 0)[p..][..n] == PartialRest(ws, 0)[..p + n]
    {
      SliceTwice(PartialRest(ws, 0), p, n);
      if |ws| > 0 {
        AdvanceTwice(ws[0], p, n);
      }
    }

    /** Receive from the ring and the writers, and refill the ring. */
    method Receive(k: nat, total: nat) returns (got: seq<Byte>, woken: seq<Writer>)
      requires RingOk() && (writers != [] ==> bytesUsed == buffer.Length) && k == Fits(WriterWants(writers), total)
      modifies this`writers, this`bytesUsed, this`readIndex, this`writeIndex, buffer
      ensures RingOk()
      ensures var d := Drain(old(writers), total);
              var stream := old(Contents()) + Bytes(d.log);
              && writers == d.left && woken == d.done
              && |got| == Min(total, |stream|)
              && got == stream[..|got|] && Contents() == stream[|got|..]
    {
      ghost var ring, all := Contents(), writers;
      DrainDone(all, total);
      DrainLeft(all, total);
      var list := writers[..k];
      writers := writers[k..];
      ghost var m;
      got, woken, m := TakeAll(list, total);
      assert PartialRest(all[k..], 0) == PartialRest(all, k) && LeftOf(all[k..], 0, m) == LeftOf(all, k, m);
      if k < |all| {
        Amount(|ring|, |Rests(list)|, |all[k].rest|, total, buffer.Length, |got|, |Contents()|, m);
      }
      DrainAmount(all, total, m);
      Assoc(ring, Rests(list), PartialRest(all, k)[..m]);
      SplitBack(got, Contents());
    }

    method CollectAll(k: nat, total: nat) returns (got: seq<Byte>, woken: seq<Writer>)
      requires RingOk() && (writers != [] ==> bytesUsed == buffer.Length) && k == Fits(WriterWants(writers), total)
      modifies this`writers, this`bytesUsed, this`readIndex, this`writeIndex, buffer
      ensures RingOk()
      ensures var c := Collect(old(Abs()), total);
              Abs() == c.pipe && got == c.got && woken == c.woken
    {
      got, woken := Receive(k, total);
    }

    method GetBody(call: nat, prio: int, total: nat, min: nat, wait: bool) returns (outcome: Outcome, got: seq<Byte>, woken: seq<Writer>)
      requires RingOk() && (writers != [] ==> bytesUsed == buffer.Length)
      modifies this, buffer
      ensures RingOk()
      ensures var r := Get(old(Abs()), call, prio, total, min, wait);
              Abs() == r.pipe && outcome == r.outcome && got == r.got && woken == r.woken
    {
      if min > total {
        return Returned(EINVAL, 0), [], [];
      }
      SumOffers(writers);
      var ok, k := Prepare(WriterWants(writers), bytesUsed, total, min, wait);
      if !ok {
        return Returned(EIO, 0), [], [];
      }
      outcome, got, woken := CollectOrWait(k, call, prio, total, min, wait);
    }

    method CollectOrWait(k: nat, call: nat, prio: int, total: nat, min: nat, wait: bool)
        returns (outcome: Outcome, got: seq<Byte>, woken: seq<Writer>)
      requires RingOk() && (writers != [] ==> bytesUsed == buffer.Length) && k == Fits(WriterWants(writers), total)
      modifies this, buffer
      ensures RingOk()
      ensures var c := Collect(old(Abs()), total);
              && got == c.got && woken == c.woken && outcome == Verdict(|got|, total, min, wait)
              && Abs() == if outcome.Pends? then c.pipe.(readers := AddReader(old(readers), Reader(call, prio, min, got, total - |got|)))
                          else c.pipe
    {
      got, woken := CollectAll(k, total);
      outcome := ReturnOrWait(call, prio, total, min, wait, got);
    }

    method ReturnOrWait(call: nat, prio: int, total: nat, min: nat, wait: bool, got: seq<Byte>) returns (outcome: Outcome)
      requires |got| <= total
      modifies this`readers
      ensures outcome == Verdict(|got|, total, min, wait)
      ensures readers ==
        if outcome.Pends? then AddReader(old(readers), Reader(call, prio, min, got, total - |got|)) else old(readers)
    {
      outcome := Conclude(|got|, total, min, wait);
      if outcome.Pends? {
        readers := AddReader(readers, Reader(call, prio, min, got, total - |got|));
      }
    }

    /** Receive data from the pipe. */
    method GetCall(call: nat, prio: int, total: nat, min: nat, wait: bool) returns (outcome: Outcome, got: seq<Byte>, woken: seq<Writer>)
      requires Valid()
      modifies this, buffer
      ensures Valid()
      ensures var r := Get(old(Abs()), call, prio, total, min, wait);
              Abs() == r.pipe && outcome == r.outcome && got == r.got && woken == r.woken
    {
      GetKeepsWaitRules(Abs(), call, prio, total, min, wait);
      outcome, got, woken := GetBody(call, prio, total, min, wait);
    }
  }
}
