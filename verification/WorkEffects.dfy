/** What each operation on work queues does and leaves alone, and that nobody who waits
    for a cancellation or a flush is forgotten. */
module WorkEffects {
  import opened Common
  import opened Work

  // ----------------------------------------------------------------- queue flags

  /** A queue starts draining exactly when that is asked for and there is something to
      do, or it is to be plugged; draining ends exactly when its thread finds nothing
      to do.  Only the two calls for it plug and unplug, and nothing else changes a
      queue's flags. */
  lemma FlagsChange(s: State, op: Op, q: nat)
    requires Allowed(s, op) && q in s.queues
    ensures var t := Step(s, op);
            q in t.queues &&
            var w, v := s.queues[q], t.queues[q];
            && v.started == w.started
            && (v.draining <==>
                  if op.DrainOp? && op.queue == q && (w.pc != Idle || op.plug || w.pending != []) then true
                  else if op.PullOp? && op.queue == q && w.pc == Idle && w.pending == [] then false
                  else w.draining)
            && (v.plugged <==>
                  if op.DrainOp? && op.queue == q && op.plug then true
                  else if op.UnplugOp? && op.queue == q then false
                  else w.plugged)
  {
    if !(op.DrainOp? || op.UnplugOp? || op.PullOp?) {
      FlagsStay(s, op, q);
    }
  }

  lemma FlagsStay(s: State, op: Op, q: nat)
    requires Allowed(s, op) && q in s.queues && !op.DrainOp? && !op.UnplugOp? && !op.PullOp?
    ensures var t := Step(s, op); q in t.queues && SameFlags(s.queues[q], t.queues[q])
  {
    match op
    case SetRunningOp(p) => FlagsStayRunning(s, p, q);
    case ClearRunningOp(p) => FlagsStayRunning(s, p, q);
    case _ =>
  }

  lemma FlagsStayRunning(s: State, p: nat, q: nat)
    requires p in s.queues && q in s.queues
    ensures q in SetRunning(s, p).queues && SameFlags(s.queues[q], SetRunning(s, p).queues[q])
    ensures q in ClearRunning(s, p).queues && SameFlags(s.queues[q], ClearRunning(s, p).queues[q])
  {
  }

  predicate SameFlags(w: Queue, v: Queue) {
    v.started == w.started && v.draining == w.draining && v.plugged == w.plugged
  }

  // ------------------------------------------------------------ the queue's thread

  /** The thread of a queue takes the first node, marks it running and is done with it,
      one after another, and no other operation moves it. */
  lemma ThreadMoves(s: State, op: Op, q: nat)
    requires Inv(s) && Allowed(s, op) && q in s.queues
    ensures var t := Step(s, op);
            q in t.queues &&
            var w, v := s.queues[q], t.queues[q];
            && (op == PullOp(q) && w.pc == Idle && w.pending != [] ==> v.pc == Pulled(w.pending[0]) && v.pending == w.pending[1..])
            && (op == SetRunningOp(q) && w.pc.Pulled? ==> v.pc == Running(w.pc.node) && v.pending == w.pending)
            && (op == ClearRunningOp(q) && w.pc.Running? ==> v.pc == Idle && v.pending == w.pending)
            && (v.pc == w.pc || (op == PullOp(q) && w.pc == Idle && w.pending != []) ||
                (op == SetRunningOp(q) && w.pc.Pulled?) || (op == ClearRunningOp(q) && w.pc.Running?))
  {
    match op
    case SetRunningOp(p) => StartMoves(s, p, q);
    case ClearRunningOp(p) => ReturnState(s, p);
    case _ => OthersMove(s, op, q);
  }

  lemma StartMoves(s: State, p: nat, q: nat)
    requires Inv(s) && p in s.queues && q in s.queues
    ensures var t := SetRunning(s, p);
            q in t.queues && t.queues[q] == if p == q && s.queues[q].pc.Pulled? then s.queues[q].(pc := Running(s.queues[q].pc.node)) else s.queues[q]
  {
    if s.queues[p].pc.Pulled? && s.queues[p].pc.node.Work? {
      PulledIsQueued(s, p);
    }
  }

  lemma OthersMove(s: State, op: Op, q: nat)
    requires Allowed(s, op) && !op.SetRunningOp? && !op.ClearRunningOp? && q in s.queues
    ensures var t := Step(s, op);
            q in t.queues &&
            var w, v := s.queues[q], t.queues[q];
            if op == PullOp(q) && w.pc == Idle && w.pending != [] then v.pc == Pulled(w.pending[0]) && v.pending == w.pending[1..]
            else v.pc == w.pc
  {
  }

  /** An item's flags change exactly so. */
  lemma ItemChanges(s: State, op: Op, i: nat)
    requires Inv(s) && Allowed(s, op) && i in s.items
    ensures var t := Step(s, op);
            i in t.items &&
            var a, b := s.items[i], t.items[i];
            var starts := op.SetRunningOp? && s.queues[op.queue].pc.Pulled? && IsItem(s.queues[op.queue].pc.node, i);
            var ends := op.ClearRunningOp? && s.queues[op.queue].pc.Running? && IsItem(s.queues[op.queue].pc.node, i);
            var cancels := (op.CancelOp? || op.CancelSyncOp?) && op.item == i;
            && (b.running <==> if starts then true else if ends then false else a.running)
            && (b.canceling <==> if cancels && a.running then true else if ends then false else a.canceling)
            && (!(op.SubmitOp? && op.item == i) ==> (b.queued <==> a.queued && !starts && !cancels))
            && (!(op.SubmitOp? && op.item == i) ==> b.submits == a.submits && b.queue == a.queue)
  {
    match op
    case SetRunningOp(q) => StartMarks(s, q, i);
    case ClearRunningOp(q) => ReturnMarks(s, q, i);
    case CancelOp(j) => CancelMarks(s, j, i);
    case CancelSyncOp(j, c) => CancelMarks(s, j, i);
    case _ => OthersMark(s, op, i);
  }

  lemma OthersMark(s: State, op: Op, i: nat)
    requires Allowed(s, op) && i in s.items
    requires op.SubmitOp? || op.FlushOp? || op.PullOp? || op.DrainOp? || op.UnplugOp?
    ensures var t := Step(s, op);
            i in t.items &&
            t.items[i].running == s.items[i].running && t.items[i].canceling == s.items[i].canceling &&
            (!(op.SubmitOp? && op.item == i) ==> t.items[i] == s.items[i])
  {
  }

  lemma StartMarks(s: State, q: nat, i: nat)
    requires Inv(s) && q in s.queues && i in s.items
    ensures var t, starts := SetRunning(s, q), s.queues[q].pc.Pulled? && IsItem(s.queues[q].pc.node, i);
            i in t.items && t.items[i] == if starts then s.items[i].(queued := false, running := true) else s.items[i]
  {
    if s.queues[q].pc.Pulled? && s.queues[q].pc.node.Work? {
      PulledIsQueued(s, q);
    }
  }

  lemma ReturnMarks(s: State, q: nat, i: nat)
    requires Inv(s) && q in s.queues && i in s.items
    ensures var t, ends := ClearRunning(s, q), s.queues[q].pc.Running? && IsItem(s.queues[q].pc.node, i);
            i in t.items && t.items[i] == if ends then s.items[i].(running := false, canceling := false) else s.items[i]
  {
    if s.queues[q].pc.Running? {
      RunningIsMarked(s, q);
    }
  }

  lemma CancelMarks(s: State, j: nat, i: nat)
    requires Inv(s) && j in s.items && i in s.items
    requires !InWindow(s, j)
    ensures var t := Cancel(s, j);
            i in t.items &&
            t.items[i] == if i == j then s.items[i].(queued := false, canceling := s.items[i].canceling || s.items[i].running) else s.items[i]
  {
    assert ItemInv(s, j);
  }

  // ------------------------------------------------------------------------ lists

  /** A cancelled item leaves its place, and the others keep theirs. */
  lemma CancelTakesOut(s: State, i: nat) returns (k: nat)
    requires Inv(s) && i in s.items && s.items[i].queued && !InWindow(s, i)
    ensures var q := s.items[i].queue;
            && q.Some? && q.value in s.queues
            && var w, v := s.queues[q.value].pending, Cancel(s, i).queues[q.value].pending;
               k < |w| && IsItem(w[k], i) && v == w[..k] + w[k + 1..]
  {
    assert ItemInv(s, i);
    var q := s.items[i].queue.value;
    assert QueueInv(s, q);
    assert OnQueue(s, i, q);
    var w := s.queues[q];
    assert Has(Held(w), i);
    if w.pc.Pulled? {
      assert !IsItem(w.pc.node, i);
      assert Held(w)[1..] == w.pending;
    }
    k := TakenAt(w.pending, i);
  }

  lemma {:induction false} TakenAt(nodes: seq<Node>, i: nat) returns (k: nat)
    requires Has(nodes, i)
    ensures k < |nodes| && IsItem(nodes[k], i) && Dropped(nodes, i) == nodes[..k] + nodes[k + 1..]
  {
    if IsItem(nodes[0], i) {
      k := 0;
    } else {
      var j := TakenAt(nodes[1..], i);
      k := j + 1;
      SliceOn(nodes, j);
    }
  }

  lemma SliceOn(nodes: seq<Node>, j: nat)
    requires j + 1 < |nodes|
    ensures [nodes[0]] + (nodes[1..][..j] + nodes[1..][j + 1..]) == nodes[..j + 1] + nodes[j + 2..]
    ensures nodes[1..][j] == nodes[j + 1]
  {
  }

  /** A flusher goes right behind the item, or first if the item has already been
      taken. */
  lemma FlushPlace(s: State, i: nat, f: nat)
    requires Inv(s) && i in s.items && (s.items[i].queued || s.items[i].running)
    ensures var q, t := s.items[i].queue, Flush(s, i, f);
            && q.Some? && q.value in s.queues && t.items == s.items
            && var w, v := s.queues[q.value].pending, t.queues[q.value].pending;
               (if Has(w, i) then exists k :: 0 <= k < |w| && IsItem(w[k], i) && v == w[..k + 1] + [Flusher(f)] + w[k + 1..]
                else v == [Flusher(f)] + w)
  {
    assert ItemInv(s, i);
    var w := s.queues[s.items[i].queue.value].pending;
    if Has(w, i) {
      var k := PlacedAfter(w, i, Flusher(f));
    }
  }

  lemma {:induction false} PlacedAfter(nodes: seq<Node>, i: nat, f: Node) returns (k: nat)
    requires Has(nodes, i)
    ensures k < |nodes| && IsItem(nodes[k], i) && InsertAfter(nodes, i, f) == nodes[..k + 1] + [f] + nodes[k + 1..]
  {
    if IsItem(nodes[0], i) {
      k := 0;
    } else {
      var j := PlacedAfter(nodes[1..], i, f);
      k := j + 1;
      InsertOn(nodes, j, f);
    }
  }

  lemma InsertOn(nodes: seq<Node>, j: nat, f: Node)
    requires j + 1 < |nodes|
    ensures [nodes[0]] + (nodes[1..][..j + 1] + [f] + nodes[1..][j + 1..]) == nodes[..j + 2] + [f] + nodes[j + 2..]
    ensures nodes[1..][j] == nodes[j + 1]
  {
  }

  // ------------------------------------------------------------------- cancellers

  /** The cancellers that a step tells to wait. */
  function Asked(s: State, op: Op): seq<nat>
    requires Allowed(s, op)
  {
    if op.CancelSyncOp? && s.items[op.item].running then [op.canceller] else []
  }

  lemma TicketsAppend(cancels: seq<Canceller>, c: Canceller)
    ensures multiset(Tickets(cancels + [c])) == multiset(Tickets(cancels)) + multiset{c.id}
  {
    if cancels == [] {
      assert cancels + [c] == [c] && [c][1..] == [];
    } else {
      TicketsAppend(cancels[1..], c);
      assert (cancels + [c])[1..] == cancels[1..] + [c];
    }
  }

  /** Who waits and who was released is who was before and who was now told to wait. */
  ghost predicate Accounted(s: State, t: State, asked: seq<nat>) {
    multiset(Tickets(t.cancels)) + multiset(t.given) == multiset(Tickets(s.cancels)) + multiset(s.given) + multiset(asked)
  }

  lemma StepAccounts(s: State, op: Op)
    requires Inv(s) && Allowed(s, op)
    ensures Accounted(s, Step(s, op), Asked(s, op))
  {
    match op
    case CancelSyncOp(i, c) => AskAccounts(s, i, c);
    case SetRunningOp(q) => StartAccounts(s, q);
    case ClearRunningOp(q) => ReturnAccounts(s, q);
    case _ => AccountsOnlyThen(s, op);
  }

  lemma AccountsOnlyThen(s: State, op: Op)
    requires Allowed(s, op) && !op.CancelSyncOp? && !op.SetRunningOp? && !op.ClearRunningOp?
    ensures Accounted(s, Step(s, op), []) && Asked(s, op) == []
  {
    CancelsOnlyThen(s, op);
  }

  lemma CancelsOnlyThen(s: State, op: Op)
    requires Allowed(s, op) && !op.CancelSyncOp? && !op.SetRunningOp? && !op.ClearRunningOp?
    ensures Step(s, op).cancels == s.cancels && Step(s, op).given == s.given
  {
  }

  lemma AskAccounts(s: State, i: nat, c: nat)
    requires Inv(s) && i in s.items && !InWindow(s, i)
    ensures Accounted(s, CancelSync(s, i, c), if s.items[i].running then [c] else [])
  {
    CancelStops(s, i, None, false);
    TicketsAppend(s.cancels, Canceller(c, i));
  }

  lemma StartAccounts(s: State, q: nat)
    requires Inv(s) && q in s.queues
    ensures Accounted(s, SetRunning(s, q), [])
  {
    if s.queues[q].pc.Pulled? && s.queues[q].pc.node.Work? {
      PulledIsQueued(s, q);
    }
  }

  lemma ReturnAccounts(s: State, q: nat)
    requires Inv(s) && q in s.queues
    ensures Accounted(s, ClearRunning(s, q), [])
  {
    var w := s.queues[q];
    if w.pc.Running? && w.pc.node.Work? && w.pc.node.item in s.items {
      FinalizeSplits(s.cancels, w.pc.node.item);
    }
  }

  ghost function AllAsked(s: State, ops: seq<Op>): seq<nat>
    decreases |ops|
  {
    if ops == [] || !Allowed(s, ops[0]) then [] else Asked(s, ops[0]) + AllAsked(Step(s, ops[0]), ops[1..])
  }

  /** Over every run, whoever was told to wait for a cancellation still waits or was
      released, and nobody was released twice or without having asked. */
  lemma {:induction false} CancellersAccounted(s: State, ops: seq<Op>, t: State)
    requires Inv(s) && Run(s, ops, t)
    ensures Accounted(s, t, AllAsked(s, ops))
    decreases |ops|
  {
    if ops != [] {
      StepKeepsInv(s, ops[0]);
      StepAccounts(s, ops[0]);
      CancellersAccounted(Step(s, ops[0]), ops[1..], t);
    }
  }

  // --------------------------------------------------------------------- flushes

  /** How often a flusher is in a queue's list or in its thread's hands. */
  function InQueue(w: Queue, f: nat): nat {
    multiset(w.pending)[Flusher(f)] + (if w.pc != Idle && w.pc.node == Flusher(f) then 1 else 0)
  }

  ghost predicate Nowhere(s: State, f: nat) {
    forall q :: q in s.queues ==> InQueue(s.queues[q], f) == 0
  }

  /** The flush is under way in one place, or was signalled, and only one of these, once. */
  ghost predicate InOnePlace(s: State, f: nat) {
    (Nowhere(s, f) && multiset(s.signalled)[f] == 1) ||
    (multiset(s.signalled)[f] == 0 && exists q :: At(s, f, q))
  }

  ghost predicate At(s: State, f: nat, q: nat) {
    q in s.queues && InQueue(s.queues[q], f) == 1 && forall p :: p in s.queues && p != q ==> InQueue(s.queues[p], f) == 0
  }

  lemma {:induction false} DropKeepsFlushers(nodes: seq<Node>, i: nat, f: nat)
    ensures multiset(Dropped(nodes, i))[Flusher(f)] == multiset(nodes)[Flusher(f)]
  {
    if nodes != [] {
      assert nodes == [nodes[0]] + nodes[1..];
      if !IsItem(nodes[0], i) {
        DropKeepsFlushers(nodes[1..], i, f);
      }
    }
  }

  lemma {:induction false} InsertAddsFlusher(nodes: seq<Node>, i: nat, f: nat)
    ensures multiset(WithFlusher(nodes, i, f)) == multiset(nodes) + multiset{Flusher(f)}
  {
    if Has(nodes, i) {
      var k := PlacedAfter(nodes, i, Flusher(f));
      assert nodes == nodes[..k + 1] + nodes[k + 1..];
    }
  }

  lemma CancelKeeps(s: State, i: nat, c: nat, f: nat, q: nat)
    requires i in s.items && q in s.queues
    ensures q in Cancel(s, i).queues && InQueue(Cancel(s, i).queues[q], f) == InQueue(s.queues[q], f)
    ensures CancelSync(s, i, c).queues == Cancel(s, i).queues
  {
    DropKeepsFlushers(s.queues[q].pending, i, f);
  }

  lemma FlushKeeps(s: State, i: nat, g: nat, f: nat, q: nat)
    requires i in s.items && q in s.queues && g != f
    ensures q in Flush(s, i, g).queues && InQueue(Flush(s, i, g).queues[q], f) == InQueue(s.queues[q], f)
  {
    InsertAddsFlusher(s.queues[q].pending, i, g);
  }

  lemma PullKeeps(s: State, p: nat, f: nat, q: nat)
    requires p in s.queues && q in s.queues
    ensures q in Pull(s, p).queues && InQueue(Pull(s, p).queues[q], f) == InQueue(s.queues[q], f)
  {
    var w := s.queues[q];
    if w.pending != [] {
      assert w.pending == [w.pending[0]] + w.pending[1..];
    }
  }

  lemma StartKeeps(s: State, p: nat, f: nat, q: nat)
    requires Inv(s) && p in s.queues && q in s.queues
    ensures q in SetRunning(s, p).queues && InQueue(SetRunning(s, p).queues[q], f) == InQueue(s.queues[q], f)
  {
    ThreadMoves(s, SetRunningOp(p), q);
  }

  lemma OthersKeep(s: State, op: Op, f: nat, q: nat)
    requires Allowed(s, op) && q in s.queues && (op.SubmitOp? || op.DrainOp? || op.UnplugOp?)
    ensures q in Step(s, op).queues && InQueue(Step(s, op).queues[q], f) == InQueue(s.queues[q], f)
  {
  }

  /** Only the queue's thread takes a flusher out of a queue, and only a flush puts one
      in. */
  lemma QueueKeeps(s: State, op: Op, f: nat, q: nat)
    requires Inv(s) && Allowed(s, op) && q in s.queues && !op.ClearRunningOp? && !(op.FlushOp? && op.flush == f)
    ensures q in Step(s, op).queues && InQueue(Step(s, op).queues[q], f) == InQueue(s.queues[q], f)
  {
    match op
    case CancelOp(i) => CancelKeeps(s, i, 0, f, q);
    case CancelSyncOp(i, c) => CancelKeeps(s, i, c, f, q);
    case FlushOp(i, g) => FlushKeeps(s, i, g, f, q);
    case PullOp(p) => PullKeeps(s, p, f, q);
    case SetRunningOp(p) => StartKeeps(s, p, f, q);
    case _ => OthersKeep(s, op, f, q);
  }

  lemma ReturnState(s: State, q: nat)
    requires Inv(s) && q in s.queues
    ensures var t, w := ClearRunning(s, q), s.queues[q];
            && t.queues == (if w.pc.Running? then s.queues[q := w.(pc := Idle)] else s.queues)
            && t.signalled == s.signalled + (if w.pc.Running? && w.pc.node.Flusher? then [w.pc.node.flush] else [])
  {
    if s.queues[q].pc.Running? {
      RunningIsMarked(s, q);
    }
  }

  lemma ReturnSignals(s: State, q: nat, f: nat)
    requires Inv(s) && q in s.queues
    ensures var t := ClearRunning(s, q);
            && (forall p :: p in s.queues && p != q ==> p in t.queues && t.queues[p] == s.queues[p])
            && t.queues.Keys == s.queues.Keys
            && InQueue(t.queues[q], f) + multiset(t.signalled)[f] == InQueue(s.queues[q], f) + multiset(s.signalled)[f]
            && multiset(t.signalled)[f] >= multiset(s.signalled)[f]
  {
    ReturnState(s, q);
  }

  lemma SignalsOnlyThen(s: State, op: Op)
    requires Allowed(s, op) && !op.ClearRunningOp?
    ensures Step(s, op).signalled == s.signalled && Step(s, op).queues.Keys == s.queues.Keys
  {
  }

  lemma SameOnce(s: State, t: State, f: nat)
    requires InOnePlace(s, f) && t.queues.Keys == s.queues.Keys && t.signalled == s.signalled
    requires forall q :: q in s.queues ==> InQueue(t.queues[q], f) == InQueue(s.queues[q], f)
    ensures InOnePlace(t, f)
  {
    if q :| At(s, f, q) {
      assert At(t, f, q);
    }
  }

  lemma MovesOnce(s: State, t: State, q: nat, f: nat)
    requires InOnePlace(s, f) && q in s.queues && t.queues.Keys == s.queues.Keys
    requires forall p :: p in s.queues && p != q ==> InQueue(t.queues[p], f) == InQueue(s.queues[p], f)
    requires InQueue(t.queues[q], f) + multiset(t.signalled)[f] == InQueue(s.queues[q], f) + multiset(s.signalled)[f]
    requires multiset(t.signalled)[f] >= multiset(s.signalled)[f]
    ensures InOnePlace(t, f)
  {
    if p :| At(s, f, p) {
      if InQueue(t.queues[p], f) == 1 {
        assert At(t, f, p);
      }
    }
  }

  lemma ReturnKeepsOnce(s: State, q: nat, f: nat)
    requires Inv(s) && q in s.queues && InOnePlace(s, f)
    ensures InOnePlace(ClearRunning(s, q), f)
  {
    ReturnSignals(s, q, f);
    MovesOnce(s, ClearRunning(s, q), q, f);
  }

  lemma StepKeepsOnce(s: State, op: Op, f: nat)
    requires Inv(s) && Allowed(s, op) && InOnePlace(s, f) && f in s.flushes
    ensures InOnePlace(Step(s, op), f)
  {
    if op.ClearRunningOp? {
      ReturnKeepsOnce(s, op.queue, f);
    } else {
      SignalsOnlyThen(s, op);
      forall q | q in s.queues ensures InQueue(Step(s, op).queues[q], f) == InQueue(s.queues[q], f) {
        QueueKeeps(s, op, f, q);
      }
      SameOnce(s, Step(s, op), f);
    }
  }

  lemma {:induction false} FlushersKnown(nodes: seq<Node>, safe: set<Node>, flushes: map<nat, set<Node>>, f: nat)
    requires InOrder(nodes, safe, flushes) && f !in flushes
    ensures multiset(nodes)[Flusher(f)] == 0
    decreases |nodes|
  {
    if nodes != [] {
      assert nodes == [nodes[0]] + nodes[1..];
      match nodes[0]
      case Work(_, _) => FlushersKnown(nodes[1..], safe + {nodes[0]}, flushes, f);
      case Flusher(_) => FlushersKnown(nodes[1..], safe, flushes, f);
    }
  }

  lemma NewIsNowhere(s: State, f: nat)
    requires Inv(s) && f !in s.flushes
    ensures Nowhere(s, f) && multiset(s.signalled)[f] == 0
  {
    forall q | q in s.queues ensures InQueue(s.queues[q], f) == 0 {
      assert FlushInv(s, q);
      FlushersKnown(s.queues[q].pending, s.finished + Ahead(s.queues[q]), s.flushes, f);
    }
    assert forall k :: 0 <= k < |s.signalled| ==> s.signalled[k] in s.flushes;
  }

  lemma FlushBegins(s: State, i: nat, f: nat)
    requires Inv(s) && i in s.items && (s.items[i].queued || s.items[i].running) && f !in s.flushes
    ensures InOnePlace(Flush(s, i, f), f) && f in Flush(s, i, f).flushes
  {
    assert ItemInv(s, i);
    NewIsNowhere(s, f);
    var q := s.items[i].queue.value;
    InsertAddsFlusher(s.queues[q].pending, i, f);
    assert At(Flush(s, i, f), f, q);
  }

  lemma {:induction false} RunKeepsOnce(s: State, ops: seq<Op>, t: State, f: nat)
    requires Inv(s) && Run(s, ops, t) && InOnePlace(s, f) && f in s.flushes
    ensures InOnePlace(t, f)
    decreases |ops|
  {
    if ops != [] {
      StepKeepsInv(s, ops[0]);
      StepKeepsOnce(s, ops[0], f);
      StepKeepsFlushes(s, ops[0], f);
      RunKeepsOnce(Step(s, ops[0]), ops[1..], t, f);
    }
  }

  /** Over every run after a flush of an active item, the flusher is in one queue, once,
      or was signalled, once: no flush is lost and none is signalled twice. */
  lemma FlushNotLost(s: State, i: nat, f: nat, ops: seq<Op>, t: State)
    requires Inv(s) && i in s.items && (s.items[i].queued || s.items[i].running) && f !in s.flushes
    requires Run(Flush(s, i, f), ops, t)
    ensures InOnePlace(t, f)
  {
    FlushInvariant(s, i, f);
    FlushBegins(s, i, f);
    RunKeepsOnce(Flush(s, i, f), ops, t, f);
  }

  /** A flush of an idle item changes nothing. */
  lemma FlushOfIdle(s: State, i: nat, f: nat)
    requires i in s.items && !s.items[i].queued && !s.items[i].running
    ensures Flush(s, i, f) == s
  {
  }
}
