/** The message queue: a ring of fixed-size slots and one wait queue that readers and
    writers share. */
module MessageQueue {
  import opened Common
  import opened Errno
  import opened PriorityOrder

  type Message = seq<Byte>

  datatype Waiter = Reader(id: nat, prio: int) | Writer(id: nat, prio: int, data: Message)

  /** How a wait ended. */
  datatype Done = Done(id: nat, code: int, data: Option<Message>)

  /** `accepted` and `received` list the messages taken from writers and handed to
      readers since the last purge, `done` the waits that are over. */
  datatype State = State(max: nat, contents: seq<Message>, waiters: seq<Waiter>,
                         accepted: seq<Message>, received: seq<Message>, done: seq<Done>)

  function Prios(ws: seq<Waiter>): (r: seq<int>)
    ensures |r| == |ws| && forall i :: 0 <= i < |ws| ==> r[i] == ws[i].prio
  {
    seq(|ws|, i requires 0 <= i < |ws| => ws[i].prio)
  }

  function Enlisted(ws: seq<Waiter>, w: Waiter): seq<Waiter> {
    InsertAt(ws, Slot(Prios(ws), w.prio), w)
  }

  // ---------------------------------------------------------------------- calls

  /** `None` means that the caller now waits. */
  function Put(s: State, id: nat, prio: int, data: Message, wait: bool): (State, Option<int>) {
    if |s.contents| < s.max then
      if s.waiters != [] then
        (s.(waiters := s.waiters[1..], accepted := s.accepted + [data], received := s.received + [data],
            done := s.done + [Done(s.waiters[0].id, 0, Some(data))]), Some(0))
      else (s.(contents := s.contents + [data], accepted := s.accepted + [data]), Some(0))
    else if !wait then (s, Some(ENOMSG))
    else (s.(waiters := Enlisted(s.waiters, Writer(id, prio, data))), None)
  }

  function Get(s: State, id: nat, prio: int, wait: bool): (State, Option<int>, Option<Message>) {
    if s.contents != [] then
      var r := s.(contents := s.contents[1..], received := s.received + [s.contents[0]]);
      (if s.waiters == [] then r else Refilled(r), Some(0), Some(s.contents[0]))
    else if !wait then (s, Some(ENOMSG), None)
    else (s.(waiters := Enlisted(s.waiters, Reader(id, prio))), None, None)
  }

  /** The best waiting writer's message moves into the queue. */
  function Refilled(s: State): State
    requires s.waiters != []
  {
    var w := s.waiters[0];
    var data := if w.Writer? then w.data else [];
    s.(contents := s.contents + [data], accepted := s.accepted + [data], waiters := s.waiters[1..],
       done := s.done + [Done(w.id, 0, None)])
  }

  function TimeOut(s: State, k: nat): State
    requires k < |s.waiters|
  {
    s.(waiters := s.waiters[..k] + s.waiters[k + 1..], done := s.done + [Done(s.waiters[k].id, EAGAIN, None)])
  }

  function Dismissed(ws: seq<Waiter>): seq<Done> {
    if ws == [] then [] else [Done(ws[0].id, ENOMSG, None)] + Dismissed(ws[1..])
  }

  function Purge(s: State): State {
    s.(contents := [], waiters := [], accepted := [], received := [], done := s.done + Dismissed(s.waiters))
  }

  // ------------------------------------------------------------------ invariant

  /** First in, first out, and nobody waits without need. */
  predicate Inv(s: State) {
    && |s.contents| <= s.max
    && s.received + s.contents == s.accepted
    && WaitOk(s)
    && Ascending(Prios(s.waiters))
  }

  predicate WaitOk(s: State) {
    forall i :: 0 <= i < |s.waiters| ==>
      if s.waiters[i].Reader? then s.contents == [] else |s.contents| == s.max
  }

  lemma EnlistedOk(s: State, w: Waiter)
    requires Inv(s) && (if w.Reader? then s.contents == [] else |s.contents| == s.max)
    ensures Inv(s.(waiters := Enlisted(s.waiters, w)))
  {
    InsertKeepsAscending(Prios(s.waiters), w.prio);
    PriosInsert(s.waiters, Slot(Prios(s.waiters), w.prio), w);
  }

  lemma PriosInsert(ws: seq<Waiter>, k: nat, w: Waiter)
    requires k <= |ws|
    ensures Prios(InsertAt(ws, k, w)) == InsertAt(Prios(ws), k, w.prio)
  {
  }

  lemma GapOk(s: State, k: nat)
    requires Ascending(Prios(s.waiters)) && k < |s.waiters|
    ensures Ascending(Prios(s.waiters[..k] + s.waiters[k + 1..]))
  {
    GapAscending(Prios(s.waiters), k);
    assert Prios(s.waiters[..k] + s.waiters[k + 1..]) == Prios(s.waiters)[..k] + Prios(s.waiters)[k + 1..];
  }

  lemma TailOk(s: State)
    requires Ascending(Prios(s.waiters)) && s.waiters != []
    ensures Ascending(Prios(s.waiters[1..]))
  {
    var ps, r := Prios(s.waiters), Prios(s.waiters[1..]);
    forall i, j | 0 <= i < j < |r| ensures r[i] <= r[j] {
      assert ps[i + 1] <= ps[j + 1];
    }
  }

  /** A message goes to a waiting reader only when nothing is queued before it. */
  lemma PutKeepsInv(s: State, id: nat, prio: int, data: Message, wait: bool)
    requires Inv(s)
    ensures Inv(Put(s, id, prio, data, wait).0)
  {
    if |s.contents| < s.max {
      if s.waiters != [] {
        TailOk(s);
        assert s.waiters[0].Reader? && s.contents == [];
        assert s.received + [data] + s.contents == s.accepted + [data];
      } else {
        assert s.received + (s.contents + [data]) == s.accepted + [data];
      }
    } else {
      EnlistedOk(s, Writer(id, prio, data));
    }
  }

  lemma GetKeepsInv(s: State, id: nat, prio: int, wait: bool)
    requires Inv(s)
    ensures Inv(Get(s, id, prio, wait).0)
  {
    if s.contents != [] {
      var r := s.(contents := s.contents[1..], received := s.received + [s.contents[0]]);
      assert r.received + r.contents == s.accepted;
      if s.waiters != [] {
        TailOk(s);
        var data := s.waiters[0].data;
        assert r.received + (r.contents + [data]) == s.accepted + [data];
      }
    } else {
      EnlistedOk(s, Reader(id, prio));
    }
  }

  lemma TimeOutKeepsInv(s: State, k: nat)
    requires Inv(s) && k < |s.waiters|
    ensures Inv(TimeOut(s, k))
  {
    GapOk(s, k);
    assert forall i :: 0 <= i < |s.waiters| - 1 ==>
      TimeOut(s, k).waiters[i] == s.waiters[if i < k then i else i + 1];
  }

  datatype Op =
    | PutOp(id: nat, prio: int, data: Message, wait: bool)
    | GetOp(id: nat, prio: int, wait: bool)
    | TimeOutOp(k: nat)
    | PurgeOp

  function Step(s: State, op: Op): State {
    match op
    case PutOp(id, prio, data, wait) => Put(s, id, prio, data, wait).0
    case GetOp(id, prio, wait) => Get(s, id, prio, wait).0
    case TimeOutOp(k) => if k < |s.waiters| then TimeOut(s, k) else s
    case PurgeOp => Purge(s)
  }

  function Run(s: State, ops: seq<Op>): State
    decreases |ops|
  {
    if ops == [] then s else Run(Step(s, ops[0]), ops[1..])
  }

  /** Over every run: what readers got, followed by what is queued, is what writers
      gave, in order; and only readers wait at an empty queue, only writers at a full one. */
  lemma {:induction false} RunKeepsInv(s: State, ops: seq<Op>)
    requires Inv(s)
    ensures Inv(Run(s, ops)) && Run(s, ops).max == s.max
    decreases |ops|
  {
    if ops != [] {
      StepKeeps(s, ops[0]);
      RunKeepsInv(Step(s, ops[0]), ops[1..]);
    }
  }

  function Fresh(max: nat): State {
    State(max, [], [], [], [], [])
  }

  predicate OneKind(s: State) {
    (forall i :: 0 <= i < |s.waiters| ==> s.waiters[i].Reader?) ||
    (forall i :: 0 <= i < |s.waiters| ==> s.waiters[i].Writer?)
  }

  /** A put that waits and then a get that waits. */
  function PutThenGet(): seq<Op> {
    [PutOp(0, 0, [], true), GetOp(1, 0, true)]
  }

  lemma NoRoomAtAll()
    ensures Run(Fresh(0), PutThenGet()).waiters == [Writer(0, 0, []), Reader(1, 0)]
  {
    var ops := PutThenGet();
    var one := Step(Fresh(0), ops[0]);
    assert Prios([]) == [] && one.waiters == [Writer(0, 0, [])];
    assert Prios(one.waiters) == [0] && Slot([0], 0) == 1;
    var two := Step(one, ops[1]);
    assert ops[1..] == [ops[1]] && ops[1..][1..] == [];
    assert Run(two, []) == two && Run(one, ops[1..]) == two;
  }

  /** Readers and writers never wait at the same time, in any run, exactly when the
      queue has room for at least one message. */
  lemma CapacityMatters(max: nat)
    ensures (forall ops :: OneKind(Run(Fresh(max), ops))) <==> max >= 1
  {
    if max == 0 {
      NoRoomAtAll();
      var s := Run(Fresh(max), PutThenGet());
      assert s.waiters[0].Writer? && s.waiters[1].Reader?;
      assert !OneKind(s);
    } else {
      forall ops ensures OneKind(Run(Fresh(max), ops)) {
        RunKeepsInv(Fresh(max), ops);
      }
    }
  }

  // ------------------------------------------------------- what the callers see

  /** A put answers 0 exactly when its message was taken, -ENOMSG exactly at a full queue
      without waiting, and otherwise waits.  The message goes to the best waiting reader
      or to the back of the queue. */
  lemma PutAnswers(s: State, id: nat, prio: int, data: Message, wait: bool)
    requires Inv(s)
    ensures var (t, code) := Put(s, id, prio, data, wait);
            && (code == Some(0) <==> |s.contents| < s.max)
            && (code == Some(-80) <==> |s.contents| == s.max && !wait)
            && (code == None <==> |s.contents| == s.max && wait)
            && t.accepted == s.accepted + (if code == Some(0) then [data] else [])
            && t.received == s.received + Handed(s, t) && Handed(s, t) <= [data]
            && (Handed(s, t) == [data] <==> code == Some(0) && s.waiters != [])
            && (code == Some(0) && s.waiters != [] ==>
                  t.done == s.done + [Done(s.waiters[0].id, 0, Some(data))] && t.waiters == s.waiters[1..])
            && (code == Some(0) && s.waiters == [] ==> t.contents == s.contents + [data])
            && (code == None ==> Joins(s.waiters, Prios(s.waiters), Writer(id, prio, data), prio, t.waiters) && t == s.(waiters := t.waiters))
            && (code == Some(-80) ==> t == s)
  {
    if |s.contents| == s.max {
      EnlistedJoins(s.waiters, Writer(id, prio, data));
    } else if s.waiters != [] {
      HandedOne(s, Put(s, id, prio, data, wait).0, Done(s.waiters[0].id, 0, Some(data)));
    }
  }

  /** What waiting readers were handed in a step, as the ends of their waits tell it. */
  function Handed(s: State, t: State): seq<Message> {
    if |t.done| <= |s.done| then [] else Data(t.done[|s.done|..])
  }

  lemma HandedOne(s: State, t: State, d: Done)
    requires t.done == s.done + [d]
    ensures Handed(s, t) == if d.data.Some? then [d.data.value] else []
  {
    assert t.done[|s.done|..] == [d] && [d][1..] == [] && Data([]) == [];
  }

  function Data(done: seq<Done>): seq<Message> {
    if done == [] then []
    else (if done[0].data.Some? then [done[0].data.value] else []) + Data(done[1..])
  }

  lemma EnlistedJoins(ws: seq<Waiter>, w: Waiter)
    requires Ascending(Prios(ws))
    ensures Joins(ws, Prios(ws), w, w.prio, Enlisted(ws, w))
  {
    SlotJoins(ws, Prios(ws), w, w.prio);
  }

  /** A get answers 0 with the oldest message exactly when there is one, -ENOMSG exactly
      at an empty queue without waiting, and otherwise waits.  The best waiting writer's
      message then takes the free place. */
  lemma GetAnswers(s: State, id: nat, prio: int, wait: bool)
    requires Inv(s)
    ensures var (t, code, m) := Get(s, id, prio, wait);
            && (code == Some(0) <==> s.contents != []) && (m.Some? <==> code == Some(0))
            && (code == Some(-80) <==> s.contents == [] && !wait)
            && (code == None <==> s.contents == [] && wait)
            && (m.Some? ==> [m.value] + s.contents[1..] == s.contents)
            && t.received == s.received + (if m.Some? then [m.value] else [])
            && Handed(s, t) == []
            && (m.Some? && s.waiters == [] ==> t.contents == s.contents[1..] && t.done == s.done && t.accepted == s.accepted)
            && (m.Some? && s.waiters != [] ==>
                  && s.waiters[0].Writer? && t.waiters == s.waiters[1..]
                  && t.contents == s.contents[1..] + [s.waiters[0].data]
                  && t.accepted == s.accepted + [s.waiters[0].data]
                  && t.done == s.done + [Done(s.waiters[0].id, 0, None)])
            && (code == None ==> Joins(s.waiters, Prios(s.waiters), Reader(id, prio), prio, t.waiters) && t == s.(waiters := t.waiters))
            && (code == Some(-80) ==> t == s)
  {
    if s.contents == [] {
      EnlistedJoins(s.waiters, Reader(id, prio));
    } else if s.waiters != [] {
      HandedOne(s, Get(s, id, prio, wait).0, Done(s.waiters[0].id, 0, None));
    }
  }

  /** Purging ends every wait with -ENOMSG, in order, and a wait that times out ends with
      -EAGAIN; neither hands over a message. */
  lemma EndsOfWaits(s: State, k: nat)
    ensures var t := Purge(s);
            && t.contents == [] && t.waiters == [] && |t.done| == |s.done| + |s.waiters| && t.done[..|s.done|] == s.done
            && forall i :: 0 <= i < |s.waiters| ==> t.done[|s.done| + i] == Done(s.waiters[i].id, -80, None)
    ensures k < |s.waiters| ==>
            var t := TimeOut(s, k);
            && t.done == s.done + [Done(s.waiters[k].id, -11, None)] && t.contents == s.contents
            && t.waiters == s.waiters[..k] + s.waiters[k + 1..] && Handed(s, t) == []
  {
    DismissedAll(s.waiters);
    if k < |s.waiters| {
      HandedOne(s, TimeOut(s, k), Done(s.waiters[k].id, EAGAIN, None));
    }
  }

  lemma {:induction false} DismissedAll(ws: seq<Waiter>)
    ensures |Dismissed(ws)| == |ws| && forall i :: 0 <= i < |ws| ==> Dismissed(ws)[i] == Done(ws[i].id, -80, None)
  {
    if ws != [] {
      DismissedAll(ws[1..]);
    }
  }

  /** The messages that callers were given, by their own calls or at the end of a wait,
      since the last purge. */
  function Given(s: State, ops: seq<Op>, given: seq<Message>): seq<Message>
    decreases |ops|
  {
    if ops == [] then given
    else
      var t := Step(s, ops[0]);
      Given(t, ops[1..],
            if ops[0].PurgeOp? then []
            else given + ((if ops[0].GetOp? then Returned(s, ops[0]) else []) + Handed(s, t)))
  }

  function Returned(s: State, op: Op): seq<Message>
    requires op.GetOp?
  {
    var m := Get(s, op.id, op.prio, op.wait).2;
    if m.Some? then [m.value] else []
  }

  /** The messages that were taken from callers, by their own calls or from those that
      waited, since the last purge. */
  function Taken(s: State, ops: seq<Op>, taken: seq<Message>): seq<Message>
    decreases |ops|
  {
    if ops == [] then taken
    else
      var t := Step(s, ops[0]);
      Taken(t, ops[1..], if ops[0].PurgeOp? then [] else taken + Accepted(s, ops[0]))
  }

  function Accepted(s: State, op: Op): seq<Message> {
    if op.PutOp? && Put(s, op.id, op.prio, op.data, op.wait).1 == Some(0) then [op.data]
    else if op.GetOp? && Get(s, op.id, op.prio, op.wait).1 == Some(0) && s.waiters != [] && s.waiters[0].Writer? then
      [s.waiters[0].data]
    else []
  }

  /** What a step gives to callers and takes from them is what the logs record. */
  predicate Recorded(s: State, t: State, given: seq<Message>, taken: seq<Message>) {
    t.received == s.received + given && t.accepted == s.accepted + taken
  }

  lemma PutRecorded(s: State, op: Op)
    requires Inv(s) && op.PutOp?
    ensures Recorded(s, Step(s, op), Handed(s, Step(s, op)), Accepted(s, op))
  {
    PutAnswers(s, op.id, op.prio, op.data, op.wait);
  }

  lemma GetRecorded(s: State, op: Op)
    requires Inv(s) && op.GetOp?
    ensures Recorded(s, Step(s, op), Returned(s, op), Accepted(s, op)) && Handed(s, Step(s, op)) == []
  {
    GetAnswers(s, op.id, op.prio, op.wait);
  }

  lemma TimeOutRecorded(s: State, op: Op)
    requires op.TimeOutOp?
    ensures Recorded(s, Step(s, op), [], []) && Handed(s, Step(s, op)) == []
  {
    EndsOfWaits(s, op.k);
  }

  lemma StepGives(s: State, op: Op)
    requires Inv(s)
    ensures var t := Step(s, op);
            if op.PurgeOp? then t.received == [] && t.accepted == []
            else Recorded(s, t, (if op.GetOp? then Returned(s, op) else []) + Handed(s, t), Accepted(s, op))
  {
    match op
    case PutOp(_, _, _, _) => PutRecorded(s, op);
    case GetOp(_, _, _) => GetRecorded(s, op);
    case TimeOutOp(_) => TimeOutRecorded(s, op);
    case PurgeOp =>
  }

  lemma StepKeeps(s: State, op: Op)
    requires Inv(s)
    ensures Inv(Step(s, op))
  {
    match op
    case PutOp(id, prio, data, wait) => PutKeepsInv(s, id, prio, data, wait);
    case GetOp(id, prio, wait) => GetKeepsInv(s, id, prio, wait);
    case TimeOutOp(k) =>
      if k < |s.waiters| {
        TimeOutKeepsInv(s, k);
      }
    case PurgeOp =>
  }

  /** Over every run what callers were given, followed by what is queued, is what was
      taken from callers, in order. */
  lemma {:induction false} FirstInFirstOut(s: State, ops: seq<Op>)
    requires Inv(s)
    ensures Given(s, ops, s.received) == Run(s, ops).received && Taken(s, ops, s.accepted) == Run(s, ops).accepted
    ensures Given(s, ops, s.received) + Run(s, ops).contents == Taken(s, ops, s.accepted)
    decreases |ops|
  {
    if ops != [] {
      StepKeeps(s, ops[0]);
      StepGives(s, ops[0]);
      FirstInFirstOut(Step(s, ops[0]), ops[1..]);
    }
  }
}
