/** The order in which a pipe's waiters are served: the higher priority first, and
    among equals whoever called first. */
module PipeTurns {
  import opened Common
  import opened PriorityOrder
  import opened Pipes
  import opened PipeRuns

  datatype Turn = Turn(prio: int, call: nat)

  function ReaderTurns(rs: seq<Reader>): (r: seq<Turn>)
    ensures |r| == |rs| && forall i :: 0 <= i < |rs| ==> r[i] == Turn(rs[i].prio, rs[i].call)
  {
    seq(|rs|, i requires 0 <= i < |rs| => Turn(rs[i].prio, rs[i].call))
  }

  function WriterTurns(ws: seq<Writer>): (r: seq<Turn>)
    ensures |r| == |ws| && forall i :: 0 <= i < |ws| ==> r[i] == Turn(ws[i].prio, ws[i].call)
  {
    seq(|ws|, i requires 0 <= i < |ws| => Turn(ws[i].prio, ws[i].call))
  }

  predicate Before(a: Turn, b: Turn) {
    a.prio < b.prio || (a.prio == b.prio && a.call < b.call)
  }

  ghost predicate InTurn(ts: seq<Turn>) {
    forall i, j :: 0 <= i < j < |ts| ==> Before(ts[i], ts[j])
  }

  /** A newcomer, who called last, takes its place. */
  lemma InsertInTurn(ts: seq<Turn>, k: nat, t: Turn)
    requires InTurn(ts) && k <= |ts| && (forall i :: 0 <= i < |ts| ==> ts[i].call < t.call)
    requires (forall i :: 0 <= i < k ==> ts[i].prio <= t.prio) && (k < |ts| ==> t.prio < ts[k].prio)
    ensures InTurn(InsertAt(ts, k, t))
  {
    forall i | k <= i < |ts| ensures Before(t, ts[i]) {
      assert i == k || Before(ts[k], ts[i]);
    }
  }

  lemma GapInTurn(ts: seq<Turn>, k: nat)
    requires InTurn(ts) && k < |ts|
    ensures InTurn(ts[..k] + ts[k + 1..])
  {
  }

  lemma RestInTurn(done: seq<Turn>, left: seq<Turn>)
    requires InTurn(done + left)
    ensures InTurn(left)
  {
    forall i, j | 0 <= i < j < |left| ensures Before(left[i], left[j]) {
      assert (done + left)[|done| + i] == left[i] && (done + left)[|done| + j] == left[j];
    }
  }

  /** Readers are taken off the queue from its head: those woken come first, and those
      that go on waiting keep their turns. */
  lemma {:induction false} ServedInTurn(rs: seq<Reader>, data: seq<Byte>)
    ensures var s := Serve(rs, data); ReaderTurns(s.done) + ReaderTurns(s.left) == ReaderTurns(rs)
  {
    if rs != [] && rs[0].want <= |data| {
      ServedInTurn(rs[1..], data[rs[0].want..]);
      var s, t := Serve(rs, data), Serve(rs[1..], data[rs[0].want..]);
      HeadTurn(ReaderTurns(rs), ReaderTurns(t.done), ReaderTurns(t.left), ReaderTurns(rs[1..]));
      assert ReaderTurns(s.done) == [ReaderTurns(rs)[0]] + ReaderTurns(t.done);
    } else if rs != [] {
      assert ReaderTurns(Serve(rs, data).left) == ReaderTurns(rs);
    }
  }

  lemma HeadTurn(all: seq<Turn>, done: seq<Turn>, left: seq<Turn>, tail: seq<Turn>)
    requires all != [] && tail == all[1..] && done + left == tail
    ensures ([all[0]] + done) + left == all
  {
  }

  lemma {:induction false} DrainedInTurn(ws: seq<Writer>, room: nat)
    ensures var d := Drain(ws, room); WriterTurns(d.done) + WriterTurns(d.left) == WriterTurns(ws)
  {
    if ws != [] && |ws[0].rest| <= room {
      DrainedInTurn(ws[1..], room - |ws[0].rest|);
      var d, t := Drain(ws, room), Drain(ws[1..], room - |ws[0].rest|);
      HeadTurn(WriterTurns(ws), WriterTurns(t.done), WriterTurns(t.left), WriterTurns(ws[1..]));
      assert WriterTurns(d.done) == [WriterTurns(ws)[0]] + WriterTurns(t.done);
    } else if ws != [] {
      assert WriterTurns(Drain(ws, room).left) == WriterTurns(ws);
    }
  }

  lemma AddReaderInTurn(rs: seq<Reader>, r: Reader)
    requires InTurn(ReaderTurns(rs)) && forall i :: 0 <= i < |rs| ==> rs[i].call < r.call
    ensures InTurn(ReaderTurns(AddReader(rs, r)))
  {
    var k := Slot(ReaderPrios(rs), r.prio);
    assert forall i :: 0 <= i < k ==> ReaderTurns(rs)[i].prio == ReaderPrios(rs)[i];
    InsertInTurn(ReaderTurns(rs), k, Turn(r.prio, r.call));
    assert ReaderTurns(AddReader(rs, r)) == InsertAt(ReaderTurns(rs), k, Turn(r.prio, r.call));
  }

  lemma AddWriterInTurn(ws: seq<Writer>, w: Writer)
    requires InTurn(WriterTurns(ws)) && forall i :: 0 <= i < |ws| ==> ws[i].call < w.call
    ensures InTurn(WriterTurns(AddWriter(ws, w)))
  {
    var k := Slot(WriterPrios(ws), w.prio);
    assert forall i :: 0 <= i < k ==> WriterTurns(ws)[i].prio == WriterPrios(ws)[i];
    InsertInTurn(WriterTurns(ws), k, Turn(w.prio, w.call));
    assert WriterTurns(AddWriter(ws, w)) == InsertAt(WriterTurns(ws), k, Turn(w.prio, w.call));
  }

  ghost predicate Turns(p: Pipe) {
    InTurn(ReaderTurns(p.readers)) && InTurn(WriterTurns(p.writers))
  }

  lemma ReadersCalledBefore(w: World)
    requires ReaderBooks(w)
    ensures forall i :: 0 <= i < |w.pipe.readers| ==> w.pipe.readers[i].call < w.next
  {
    assert forall i :: 0 <= i < |w.pipe.readers| ==> ReaderAccounts(w.pipe.readers)[i].call == w.pipe.readers[i].call;
  }

  lemma WritersCalledBefore(w: World)
    requires WriterBooks(w)
    ensures forall i :: 0 <= i < |w.pipe.writers| ==> w.pipe.writers[i].call < w.next
  {
    assert forall i :: 0 <= i < |w.pipe.writers| ==> WriterAccounts(w.pipe.writers)[i].call == w.pipe.writers[i].call;
  }

  lemma PutKeepsTurns(w: World, prio: int, data: seq<Byte>, min: nat, wait: bool)
    requires Inv(w) && Turns(w.pipe)
    ensures Turns(Put(w.pipe, w.next, prio, data, min, wait).pipe)
  {
    var r := Put(w.pipe, w.next, prio, data, min, wait);
    PutDoesFit(w.pipe, w.next, prio, data, min, wait);
    ServingKeepsTurns(w.pipe.readers, data);
    if r.outcome.Pends? {
      WritersCalledBefore(w);
      AddWriterInTurn(w.pipe.writers, Writer(w.next, prio, min, r.taken, data[|r.taken|..]));
    }
  }

  lemma ServingKeepsTurns(rs: seq<Reader>, data: seq<Byte>)
    requires InTurn(ReaderTurns(rs))
    ensures InTurn(ReaderTurns(Serve(rs, data).left))
  {
    ServedInTurn(rs, data);
    RestInTurn(ReaderTurns(Serve(rs, data).done), ReaderTurns(Serve(rs, data).left));
  }

  lemma DrainingKeepsTurns(ws: seq<Writer>, room: nat)
    requires InTurn(WriterTurns(ws))
    ensures InTurn(WriterTurns(Drain(ws, room).left))
  {
    DrainedInTurn(ws, room);
    RestInTurn(WriterTurns(Drain(ws, room).done), WriterTurns(Drain(ws, room).left));
  }

  lemma GetKeepsTurns(w: World, prio: int, total: nat, min: nat, wait: bool)
    requires Inv(w) && Turns(w.pipe)
    ensures Turns(Get(w.pipe, w.next, prio, total, min, wait).pipe)
  {
    var r := Get(w.pipe, w.next, prio, total, min, wait);
    GetDoesFit(w.pipe, w.next, prio, total, min, wait);
    ReadersCalledBefore(w);
    GetReaders(w.pipe, r, w.next, prio, total, min);
    DrainingKeepsTurns(w.pipe.writers, total);
  }

  lemma GetReaders(p: Pipe, r: GetResult, call: nat, prio: int, total: nat, min: nat)
    requires GetFits(p, r, call, prio, total, min) && InTurn(ReaderTurns(p.readers))
    requires forall i :: 0 <= i < |p.readers| ==> p.readers[i].call < call
    ensures InTurn(ReaderTurns(r.pipe.readers))
  {
    if r.outcome.Pends? {
      AddReaderInTurn(p.readers, Reader(call, prio, min, r.got, total - |r.got|));
    }
  }

  lemma ExpireKeepsTurns(w: World, call: nat)
    requires Turns(w.pipe)
    ensures Turns(StepExpire(w, call).pipe)
  {
    var rs, ws := w.pipe.readers, w.pipe.writers;
    var k, l := Find(Calls(ReaderAccounts(rs)), call), Find(Calls(WriterAccounts(ws)), call);
    if k < |rs| {
      GapInTurn(ReaderTurns(rs), k);
      assert ReaderTurns(rs[..k] + rs[k + 1..]) == ReaderTurns(rs)[..k] + ReaderTurns(rs)[k + 1..];
    } else if l < |ws| {
      GapInTurn(WriterTurns(ws), l);
      assert WriterTurns(ws[..l] + ws[l + 1..]) == WriterTurns(ws)[..l] + WriterTurns(ws)[l + 1..];
    }
  }

  lemma StepKeepsTurns(w: World, op: Op)
    requires Inv(w) && Turns(w.pipe)
    ensures Turns(Step(w, op).pipe)
  {
    match op
    case PutOp(prio, data, min, wait) => PutKeepsTurns(w, prio, data, min, wait);
    case GetOp(prio, total, min, wait) => GetKeepsTurns(w, prio, total, min, wait);
    case Expire(call) => ExpireKeepsTurns(w, call);
  }

  /** Over every run the readers, and the writers, wait in order of priority and then
      of their calls. */
  lemma {:induction false} WaitInTurn(size: nat, ops: seq<Op>)
    ensures Turns(Run(size, ops).pipe)
  {
    if ops != [] {
      WaitInTurn(size, ops[..|ops| - 1]);
      StepKeepsTurns(Run(size, ops[..|ops| - 1]), ops[|ops| - 1]);
    }
  }
}
