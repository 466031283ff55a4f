/** Work items and work queues: submission, cancellation and flushing, interleaved
    at every lock release with the threads that run the items. */
module Work {
  import opened Common
  import opened Errno

  /** An entry of a pending list: the turn-th submission of an item, or a flush. */
  datatype Node = Work(item: nat, turn: nat) | Flusher(flush: nat)

  /** Where a queue's thread is: looking for work, between pulling a node and
      marking it running, or in its handler. */
  datatype Pc = Idle | Pulled(node: Node) | Running(node: Node)

  /** `submits` counts the submissions that were accepted. */
  datatype Item = Item(queued: bool, running: bool, canceling: bool, queue: Option<nat>, submits: nat)

  datatype Queue = Queue(started: bool, draining: bool, plugged: bool, pending: seq<Node>, pc: Pc)

  datatype Canceller = Canceller(id: nat, item: nat)

  /** `given` lists the cancellers whose semaphore was given, `signalled` the flushes;
      `finished` holds the turns whose handler returned or that were cancelled, and
      `flushes` the turns each flush waits for. */
  datatype State = State(items: map<nat, Item>, queues: map<nat, Queue>, cancels: seq<Canceller>,
                         given: seq<nat>, signalled: seq<nat>, finished: set<Node>, flushes: map<nat, set<Node>>)

  // -------------------------------------------------------------- pending lists

  predicate Has(nodes: seq<Node>, i: nat) {
    nodes != [] && (IsItem(nodes[0], i) || Has(nodes[1..], i))
  }

  predicate IsItem(n: Node, i: nat) {
    n.Work? && n.item == i
  }

  predicate Once(nodes: seq<Node>) {
    nodes == [] || ((nodes[0].Work? ==> !Has(nodes[1..], nodes[0].item)) && Once(nodes[1..]))
  }

  function Turns(nodes: seq<Node>, i: nat): set<Node> {
    if nodes == [] then {}
    else (if IsItem(nodes[0], i) then {nodes[0]} else {}) + Turns(nodes[1..], i)
  }

  /** The list without the item: it occurs at most once. */
  function Dropped(nodes: seq<Node>, i: nat): seq<Node> {
    if nodes == [] then []
    else if IsItem(nodes[0], i) then nodes[1..]
    else [nodes[0]] + Dropped(nodes[1..], i)
  }

  function InsertAfter(nodes: seq<Node>, i: nat, f: Node): seq<Node> {
    if nodes == [] then []
    else if IsItem(nodes[0], i) then [nodes[0]] + [f] + nodes[1..]
    else [nodes[0]] + InsertAfter(nodes[1..], i, f)
  }

  /** A flusher goes right behind the item if that is in the list, and otherwise first. */
  function WithFlusher(nodes: seq<Node>, i: nat, f: nat): seq<Node> {
    if Has(nodes, i) then InsertAfter(nodes, i, Flusher(f)) else [Flusher(f)] + nodes
  }

  lemma {:induction false} AppendHas(nodes: seq<Node>, n: Node, j: nat)
    ensures Has(nodes + [n], j) <==> Has(nodes, j) || IsItem(n, j)
    ensures Turns(nodes + [n], j) == Turns(nodes, j) + (if IsItem(n, j) then {n} else {})
  {
    if nodes != [] {
      AppendHas(nodes[1..], n, j);
      assert (nodes + [n])[1..] == nodes[1..] + [n];
    }
  }

  lemma {:induction false} AppendOnce(nodes: seq<Node>, n: Node)
    requires Once(nodes) && (n.Work? ==> !Has(nodes, n.item))
    ensures Once(nodes + [n])
  {
    if nodes != [] {
      AppendOnce(nodes[1..], n);
      assert (nodes + [n])[1..] == nodes[1..] + [n];
      if nodes[0].Work? {
        AppendHas(nodes[1..], n, nodes[0].item);
      }
    }
  }

  lemma {:induction false} DroppedHas(nodes: seq<Node>, i: nat, j: nat)
    requires Once(nodes)
    ensures Has(Dropped(nodes, i), j) <==> j != i && Has(nodes, j)
    ensures !Has(nodes, i) ==> Dropped(nodes, i) == nodes
    ensures Turns(Dropped(nodes, i), j) == if j == i then {} else Turns(nodes, j)
  {
    NoTurns(nodes, i);
    NoTurns(Dropped(nodes, i), i);
    if nodes != [] && !IsItem(nodes[0], i) {
      DroppedHas(nodes[1..], i, j);
      assert Dropped(nodes, i)[1..] == Dropped(nodes[1..], i);
    }
  }

  lemma {:induction false} DroppedOnce(nodes: seq<Node>, i: nat)
    requires Once(nodes)
    ensures Once(Dropped(nodes, i))
  {
    if nodes != [] && !IsItem(nodes[0], i) {
      DroppedOnce(nodes[1..], i);
      assert Dropped(nodes, i)[1..] == Dropped(nodes[1..], i);
      if nodes[0].Work? {
        DroppedHas(nodes[1..], i, nodes[0].item);
      }
    }
  }

  lemma {:induction false} InsertHas(nodes: seq<Node>, i: nat, f: nat, j: nat)
    ensures Has(InsertAfter(nodes, i, Flusher(f)), j) <==> Has(nodes, j)
    ensures Turns(InsertAfter(nodes, i, Flusher(f)), j) == Turns(nodes, j)
  {
    var r := InsertAfter(nodes, i, Flusher(f));
    if nodes == [] {
    } else if IsItem(nodes[0], i) {
      assert r[1..][1..] == nodes[1..];
    } else {
      InsertHas(nodes[1..], i, f, j);
      assert r[1..] == InsertAfter(nodes[1..], i, Flusher(f));
    }
  }

  lemma {:induction false} InsertOnce(nodes: seq<Node>, i: nat, f: nat)
    requires Once(nodes)
    ensures Once(InsertAfter(nodes, i, Flusher(f)))
  {
    var r := InsertAfter(nodes, i, Flusher(f));
    if nodes == [] {
    } else if IsItem(nodes[0], i) {
      assert r[1..][1..] == nodes[1..];
    } else {
      InsertOnce(nodes[1..], i, f);
      assert r[1..] == InsertAfter(nodes[1..], i, Flusher(f));
      if nodes[0].Work? {
        InsertHas(nodes[1..], i, f, nodes[0].item);
      }
    }
  }

  // ------------------------------------------------------- flushes wait in order

  /** `safe` holds the instances that are finished or ahead in the list: each
      flusher waits only for those. */
  ghost predicate InOrder(nodes: seq<Node>, safe: set<Node>, flushes: map<nat, set<Node>>) {
    nodes == [] ||
    match nodes[0]
    case Work(_, _) => InOrder(nodes[1..], safe + {nodes[0]}, flushes)
    case Flusher(f) => f in flushes && flushes[f] <= safe && InOrder(nodes[1..], safe, flushes)
  }

  lemma {:induction false} MoreSafe(nodes: seq<Node>, safe: set<Node>, more: set<Node>, flushes: map<nat, set<Node>>)
    requires InOrder(nodes, safe, flushes) && safe <= more
    ensures InOrder(nodes, more, flushes)
    decreases |nodes|
  {
    if nodes != [] {
      match nodes[0]
      case Work(_, _) => MoreSafe(nodes[1..], safe + {nodes[0]}, more + {nodes[0]}, flushes);
      case Flusher(f) => MoreSafe(nodes[1..], safe, more, flushes);
    }
  }

  lemma {:induction false} NewFlush(nodes: seq<Node>, safe: set<Node>, flushes: map<nat, set<Node>>, f: nat, t: set<Node>)
    requires InOrder(nodes, safe, flushes) && f !in flushes
    ensures InOrder(nodes, safe, flushes[f := t])
    decreases |nodes|
  {
    if nodes != [] {
      match nodes[0]
      case Work(_, _) => NewFlush(nodes[1..], safe + {nodes[0]}, flushes, f, t);
      case Flusher(_) => NewFlush(nodes[1..], safe, flushes, f, t);
    }
  }

  lemma {:induction false} AppendInOrder(nodes: seq<Node>, safe: set<Node>, flushes: map<nat, set<Node>>, i: nat, n: nat)
    requires InOrder(nodes, safe, flushes)
    ensures InOrder(nodes + [Work(i, n)], safe, flushes)
    decreases |nodes|
  {
    var r := nodes + [Work(i, n)];
    if nodes == [] {
      assert r[1..] == [];
    } else {
      assert r[1..] == nodes[1..] + [Work(i, n)];
      match nodes[0]
      case Work(_, _) => AppendInOrder(nodes[1..], safe + {nodes[0]}, flushes, i, n);
      case Flusher(_) => AppendInOrder(nodes[1..], safe, flushes, i, n);
    }
  }

  /** A cancelled instance counts as finished, so its leaving keeps the order. */
  lemma {:induction false} DroppedInOrder(nodes: seq<Node>, safe: set<Node>, flushes: map<nat, set<Node>>, i: nat)
    requires InOrder(nodes, safe, flushes)
    ensures InOrder(Dropped(nodes, i), safe + Turns(nodes, i), flushes)
    decreases |nodes|
  {
    var r, all := Dropped(nodes, i), safe + Turns(nodes, i);
    if nodes == [] {
    } else if IsItem(nodes[0], i) {
      MoreSafe(r, safe + {nodes[0]}, all, flushes);
    } else {
      assert r[1..] == Dropped(nodes[1..], i);
      match nodes[0]
      case Work(_, _) =>
        DroppedInOrder(nodes[1..], safe + {nodes[0]}, flushes, i);
        assert safe + {nodes[0]} + Turns(nodes[1..], i) == all + {nodes[0]};
      case Flusher(_) =>
        DroppedInOrder(nodes[1..], safe, flushes, i);
        assert safe + Turns(nodes[1..], i) == all;
    }
  }

  lemma {:induction false} NoTurns(nodes: seq<Node>, i: nat)
    ensures Turns(nodes, i) == {} <==> !Has(nodes, i)
  {
    if nodes != [] {
      NoTurns(nodes[1..], i);
    }
  }

  /** A flusher placed behind the item has all its targets ahead of it. */
  lemma {:induction false} FlusherInOrder(nodes: seq<Node>, safe: set<Node>, flushes: map<nat, set<Node>>, i: nat, f: nat)
    requires InOrder(nodes, safe, flushes) && Once(nodes)
    requires f in flushes && flushes[f] <= safe + Turns(nodes, i)
    requires Has(nodes, i)
    ensures InOrder(InsertAfter(nodes, i, Flusher(f)), safe, flushes)
    decreases |nodes|
  {
    var r := InsertAfter(nodes, i, Flusher(f));
    if IsItem(nodes[0], i) {
      NoTurns(nodes[1..], i);
      assert r[1..][1..] == nodes[1..] && r[1..][0] == Flusher(f);
    } else {
      assert r[1..] == InsertAfter(nodes[1..], i, Flusher(f));
      match nodes[0]
      case Work(_, _) => FlusherInOrder(nodes[1..], safe + {nodes[0]}, flushes, i, f);
      case Flusher(_) => FlusherInOrder(nodes[1..], safe, flushes, i, f);
    }
  }

  // ------------------------------------------------------------------ the steps

  /** What a queue still has to run: the node its thread holds, then its list. */
  function Held(w: Queue): seq<Node> {
    if w.pc.Pulled? then [w.pc.node] + w.pending else w.pending
  }

  predicate Runs(w: Queue, i: nat) {
    w.pc.Running? && IsItem(w.pc.node, i)
  }

  function ActiveOn(w: Queue, i: nat): set<Node> {
    Turns(Held(w), i) + (if Runs(w, i) then {w.pc.node} else {})
  }

  /** The turns of an item that are queued or running. */
  function Active(s: State, i: nat): set<Node>
    requires i in s.items
  {
    var q := s.items[i].queue;
    if q.Some? && q.value in s.queues then ActiveOn(s.queues[q.value], i) else {}
  }

  predicate Accepts(w: Queue, chained: bool) {
    w.started && (w.draining ==> chained) && (w.plugged ==> w.draining)
  }

  /** Submission, to the queue given or else to the item's last one; an item that
      is running goes to the queue that runs it. */
  function Submit(s: State, i: nat, target: Option<nat>, chained: bool): (State, int)
    requires i in s.items
  {
    var it := s.items[i];
    if it.canceling then (s, EBUSY)
    else if it.queued then (s, 0)
    else
      var to := if it.running || target == None then it.queue else target;
      if to == None || to.value !in s.queues then (s, EINVAL)
      else
        var w := s.queues[to.value];
        if !w.started then (s, ENODEV)
        else if !Accepts(w, chained) then (s, EBUSY)
        else (Enqueue(s, i, to.value), if it.running then 2 else 1)
  }

  function Enqueue(s: State, i: nat, q: nat): State
    requires i in s.items && q in s.queues
  {
    var it, w := s.items[i], s.queues[q];
    s.(items := s.items[i := it.(queued := true, queue := Some(q), submits := it.submits + 1)],
       queues := s.queues[q := w.(pending := w.pending + [Work(i, it.submits)])])
  }

  /** Cancellation: take the item off its list, and if it is still busy mark it. */
  function Cancel(s: State, i: nat): State
    requires i in s.items
  {
    var it := s.items[i];
    if !it.canceling && it.queued && it.queue.Some? && it.queue.value in s.queues then
      var w := s.queues[it.queue.value];
      s.(items := s.items[i := it.(queued := false, canceling := it.running)],
         queues := s.queues[it.queue.value := w.(pending := Dropped(w.pending, i))],
         finished := s.finished + Turns(w.pending, i))
    else s.(items := s.items[i := it.(canceling := it.canceling || it.queued || it.running)])
  }

  /** A synchronous cancel waits if the item is then being cancelled. */
  function CancelSync(s: State, i: nat, c: nat): State
    requires i in s.items
  {
    var r := Cancel(s, i);
    if r.items[i].canceling then r.(cancels := r.cancels + [Canceller(c, i)]) else r
  }

  function Flush(s: State, i: nat, f: nat): State
    requires i in s.items
  {
    var it := s.items[i];
    if (it.queued || it.running) && it.queue.Some? && it.queue.value in s.queues then
      var w := s.queues[it.queue.value];
      s.(queues := s.queues[it.queue.value := w.(pending := WithFlusher(w.pending, i, f))],
         flushes := s.flushes[f := Active(s, i)])
    else s
  }

  function Waiting(cancels: seq<Canceller>, i: nat): seq<nat> {
    if cancels == [] then []
    else if cancels[0].item == i then [cancels[0].id] + Waiting(cancels[1..], i)
    else Waiting(cancels[1..], i)
  }

  function Others(cancels: seq<Canceller>, i: nat): seq<Canceller> {
    if cancels == [] then []
    else if cancels[0].item == i then Others(cancels[1..], i)
    else [cancels[0]] + Others(cancels[1..], i)
  }

  /** The cancellation of an item is complete: release everyone who waits for it. */
  function Finalize(s: State, i: nat): State
    requires i in s.items
  {
    s.(items := s.items[i := s.items[i].(canceling := false)],
       cancels := Others(s.cancels, i), given := s.given + Waiting(s.cancels, i))
  }

  function Pull(s: State, q: nat): State
    requires q in s.queues
  {
    var w := s.queues[q];
    if w.pc != Idle then s
    else if w.pending == [] then s.(queues := s.queues[q := w.(draining := false)])
    else s.(queues := s.queues[q := w.(pc := Pulled(w.pending[0]), pending := w.pending[1..])])
  }

  function SetRunning(s: State, q: nat): State
    requires q in s.queues
  {
    var w := s.queues[q];
    if !w.pc.Pulled? then s
    else if w.pc.node.Flusher? || w.pc.node.item !in s.items then
      s.(queues := s.queues[q := w.(pc := Running(w.pc.node))])
    else
      var i := w.pc.node.item;
      var it := s.items[i];
      if !it.canceling then
        s.(items := s.items[i := it.(queued := false, running := true)],
           queues := s.queues[q := w.(pc := Running(w.pc.node))])
      else
        Finalize(s.(items := s.items[i := it.(queued := false)], queues := s.queues[q := w.(pc := Idle)],
                    finished := s.finished + {w.pc.node}), i)
  }

  function ClearRunning(s: State, q: nat): State
    requires q in s.queues
  {
    var w := s.queues[q];
    if !w.pc.Running? then s
    else
      var idle := s.(queues := s.queues[q := w.(pc := Idle)]);
      if w.pc.node.Flusher? then idle.(signalled := s.signalled + [w.pc.node.flush])
      else if w.pc.node.item !in s.items then idle
      else if s.items[w.pc.node.item].canceling then Finalize(Returned(s, q), w.pc.node.item)
      else Returned(s, q)
  }

  /** The handler has returned. */
  function Returned(s: State, q: nat): State
    requires q in s.queues && s.queues[q].pc.Running? && s.queues[q].pc.node.Work? && s.queues[q].pc.node.item in s.items
  {
    var w := s.queues[q];
    var i := w.pc.node.item;
    s.(queues := s.queues[q := w.(pc := Idle)], items := s.items[i := s.items[i].(running := false)],
       finished := s.finished + {w.pc.node})
  }

  function Drained(w: Queue, plug: bool): Queue {
    if w.pc != Idle || w.draining || plug || w.pending != [] then
      w.(draining := true, plugged := w.plugged || plug)
    else w
  }

  function Drain(s: State, q: nat, plug: bool): State
    requires q in s.queues
  {
    s.(queues := s.queues[q := Drained(s.queues[q], plug)])
  }

  function Unplug(s: State, q: nat): State
    requires q in s.queues
  {
    s.(queues := s.queues[q := s.queues[q].(plugged := false)])
  }

  // -------------------------------------------------------------- the invariant

  predicate OnQueue(s: State, i: nat, q: nat) {
    i in s.items && s.items[i].queued && s.items[i].queue == Some(q)
  }

  predicate RunsOn(s: State, i: nat, q: nat) {
    i in s.items && s.items[i].running && s.items[i].queue == Some(q)
  }

  /** QUEUED says exactly that the item is once in its own queue's list or hand, and
      RUNNING exactly that its own queue's thread is in its handler. */
  ghost predicate QueueInv(s: State, q: nat)
    requires q in s.queues
  {
    var w := s.queues[q];
    && Once(Held(w))
    && (forall i :: Has(Held(w), i) <==> OnQueue(s, i, q))
    && (forall i :: Runs(w, i) <==> RunsOn(s, i, q))
  }

  /** Every accepted submission is queued, running or finished, and only one of these. */
  ghost predicate TurnsOk(s: State, i: nat)
    requires i in s.items
  {
    && (forall n: nat :: Work(i, n) in s.finished || Work(i, n) in Active(s, i) <==> n < s.items[i].submits)
    && (forall n: nat :: !(Work(i, n) in s.finished && Work(i, n) in Active(s, i)))
  }

  ghost predicate ItemInv(s: State, i: nat)
    requires i in s.items
  {
    var it := s.items[i];
    && (it.queue.Some? ==> it.queue.value in s.queues)
    && (it.queued || it.running ==> it.queue.Some?)
    && (it.canceling ==> it.running && !it.queued)
    && TurnsOk(s, i)
    && (it.running && Runs(s.queues[it.queue.value], i) ==>
          s.queues[it.queue.value].pc.node !in Turns(Held(s.queues[it.queue.value]), i))
  }

  ghost predicate Bookkeeping(s: State) {
    && (forall q :: q in s.queues ==> QueueInv(s, q))
    && (forall i :: i in s.items ==> ItemInv(s, i))
  }

  function Ahead(w: Queue): set<Node> {
    if w.pc != Idle && w.pc.node.Work? then {w.pc.node} else {}
  }

  ghost predicate FlushInv(s: State, q: nat)
    requires q in s.queues
  {
    var w := s.queues[q];
    && InOrder(w.pending, s.finished + Ahead(w), s.flushes)
    && (w.pc != Idle && w.pc.node.Flusher? ==>
          w.pc.node.flush in s.flushes && s.flushes[w.pc.node.flush] <= s.finished)
  }

  ghost predicate Flushes(s: State) {
    && (forall q :: q in s.queues ==> FlushInv(s, q))
    && (forall k :: 0 <= k < |s.signalled| ==>
          s.signalled[k] in s.flushes && s.flushes[s.signalled[k]] <= s.finished)
  }

  // ------------------------------------------------- one item and its queue move

  ghost predicate SameFor(w: Queue, v: Queue, j: nat) {
    && (Has(Held(w), j) <==> Has(Held(v), j))
    && (Runs(w, j) <==> Runs(v, j))
    && ActiveOn(w, j) == ActiveOn(v, j)
    && Turns(Held(w), j) == Turns(Held(v), j)
    && (Runs(w, j) ==> w.pc.node == v.pc.node)
  }

  /** A step that changes item i and the queue it is on, and nothing else. */
  ghost predicate Touches(s: State, t: State, i: nat, q: nat) {
    && i in s.items && q in s.queues && t.items.Keys == s.items.Keys && t.queues.Keys == s.queues.Keys
    && (forall j :: j in s.items && j != i ==> t.items[j] == s.items[j])
    && (forall p :: p in s.queues && p != q ==> t.queues[p] == s.queues[p])
    && (forall j :: j != i ==> SameFor(t.queues[q], s.queues[q], j))
    && (s.items[i].queued || s.items[i].running ==> s.items[i].queue == Some(q))
    && (t.items[i].queued || t.items[i].running ==> t.items[i].queue == Some(q))
  }

  lemma MovesQueue(s: State, t: State, i: nat, q: nat, p: nat)
    requires Touches(s, t, i, q) && p in s.queues && QueueInv(s, p)
    requires Has(Held(t.queues[q]), i) <==> t.items[i].queued
    requires Runs(t.queues[q], i) <==> t.items[i].running
    requires Once(Held(t.queues[q]))
    ensures QueueInv(t, p)
  {
    forall j ensures Has(Held(t.queues[p]), j) <==> OnQueue(t, j, p) {
      assert Has(Held(s.queues[p]), j) <==> OnQueue(s, j, p);
      assert j != i ==> SameFor(t.queues[q], s.queues[q], j);
    }
    forall j ensures Runs(t.queues[p], j) <==> RunsOn(t, j, p) {
      assert Runs(s.queues[p], j) <==> RunsOn(s, j, p);
      assert j != i ==> SameFor(t.queues[q], s.queues[q], j);
    }
  }

  lemma MovesItem(s: State, t: State, i: nat, q: nat, j: nat)
    requires Touches(s, t, i, q) && j in s.items && j != i && ItemInv(s, j)
    requires forall n :: Work(j, n) in t.finished <==> Work(j, n) in s.finished
    ensures ItemInv(t, j)
  {
    assert SameFor(t.queues[q], s.queues[q], j);
    assert Active(t, j) == Active(s, j);
  }

  lemma Moves(s: State, t: State, i: nat, q: nat)
    requires Bookkeeping(s) && Touches(s, t, i, q)
    requires forall j, n :: j != i ==> (Work(j, n) in t.finished <==> Work(j, n) in s.finished)
    requires Has(Held(t.queues[q]), i) <==> t.items[i].queued
    requires Runs(t.queues[q], i) <==> t.items[i].running
    requires Once(Held(t.queues[q])) && ItemInv(t, i)
    ensures Bookkeeping(t)
  {
    forall p | p in t.queues ensures QueueInv(t, p) {
      MovesQueue(s, t, i, q, p);
    }
    forall j | j in t.items ensures ItemInv(t, j) {
      if j != i {
        MovesItem(s, t, i, q, j);
      }
    }
  }

  /** An item that is neither queued nor running has nothing active anywhere. */
  lemma ActiveAt(s: State, i: nat, q: nat)
    requires Bookkeeping(s) && i in s.items && q in s.queues
    requires s.items[i].queued || s.items[i].running ==> s.items[i].queue == Some(q)
    ensures Active(s, i) == ActiveOn(s.queues[q], i)
    ensures (Has(Held(s.queues[q]), i) <==> s.items[i].queued) && (Runs(s.queues[q], i) <==> s.items[i].running)
  {
    assert ItemInv(s, i) && QueueInv(s, q);
    assert Has(Held(s.queues[q]), i) <==> OnQueue(s, i, q);
    assert Runs(s.queues[q], i) <==> RunsOn(s, i, q);
    NoTurns(Held(s.queues[q]), i);
    var last := s.items[i].queue;
    if last.Some? {
      assert QueueInv(s, last.value);
      assert Has(Held(s.queues[last.value]), i) <==> OnQueue(s, i, last.value);
      NoTurns(Held(s.queues[last.value]), i);
    }
  }

  lemma EnqueueTouches(s: State, i: nat, q: nat)
    requires i in s.items && q in s.queues && (s.items[i].queued || s.items[i].running ==> s.items[i].queue == Some(q))
    ensures Touches(s, Enqueue(s, i, q), i, q)
    ensures Held(Enqueue(s, i, q).queues[q]) == Held(s.queues[q]) + [Work(i, s.items[i].submits)]
  {
    var t, w, n := Enqueue(s, i, q), s.queues[q], Work(i, s.items[i].submits);
    assert Held(t.queues[q]) == Held(w) + [n];
    forall j ensures j != i ==> SameFor(t.queues[q], w, j) {
      AppendHas(Held(w), n, j);
    }
  }

  lemma EnqueueBooks(s: State, i: nat, q: nat)
    requires Bookkeeping(s) && i in s.items && q in s.queues
    requires !s.items[i].queued && !s.items[i].canceling && (s.items[i].running ==> s.items[i].queue == Some(q))
    ensures Bookkeeping(Enqueue(s, i, q))
  {
    assert ItemInv(s, i);
    EnqueueTouches(s, i, q);
    EnqueueHeld(s, i, q);
    EnqueueActive(s, i, q);
    Moves(s, Enqueue(s, i, q), i, q);
  }

  lemma EnqueueHeld(s: State, i: nat, q: nat)
    requires Bookkeeping(s) && i in s.items && q in s.queues
    requires !s.items[i].queued && (s.items[i].running ==> s.items[i].queue == Some(q))
    ensures var w, n := Enqueue(s, i, q).queues[q], Work(i, s.items[i].submits);
            && Once(Held(w)) && Has(Held(w), i) && (Runs(w, i) <==> s.items[i].running)
            && Turns(Held(w), i) == Turns(Held(s.queues[q]), i) + {n}
  {
    var w, n := s.queues[q], Work(i, s.items[i].submits);
    assert QueueInv(s, q);
    ActiveAt(s, i, q);
    assert Held(Enqueue(s, i, q).queues[q]) == Held(w) + [n];
    AppendHas(Held(w), n, i);
    AppendOnce(Held(w), n);
  }

  lemma EnqueueActive(s: State, i: nat, q: nat)
    requires Bookkeeping(s) && i in s.items && q in s.queues
    requires !s.items[i].queued && (s.items[i].running ==> s.items[i].queue == Some(q))
    ensures Active(Enqueue(s, i, q), i) == Active(s, i) + {Work(i, s.items[i].submits)}
  {
    ActiveAt(s, i, q);
    EnqueueHeld(s, i, q);
  }

  lemma SubmitBooks(s: State, i: nat, target: Option<nat>, chained: bool)
    requires Bookkeeping(s) && i in s.items
    ensures Bookkeeping(Submit(s, i, target, chained).0)
  {
    var (t, code) := Submit(s, i, target, chained);
    if code > 0 {
      assert ItemInv(s, i);
      EnqueueBooks(s, i, t.items[i].queue.value);
    }
  }

  lemma UnqueueTouches(s: State, i: nat, q: nat)
    requires i in s.items && q in s.queues && s.items[i].queue == Some(q) && s.items[i].queued && !s.items[i].canceling
    requires QueueInv(s, q) && Dropped(Held(s.queues[q]), i) == Held(Cancel(s, i).queues[q])
    ensures Touches(s, Cancel(s, i), i, q)
  {
    var w := s.queues[q];
    forall j ensures j != i ==> SameFor(Cancel(s, i).queues[q], w, j) {
      DroppedHas(Held(w), i, j);
    }
  }

  lemma CancelQueued(s: State, i: nat)
    requires Bookkeeping(s) && i in s.items && !InWindow(s, i) && s.items[i].queued && !s.items[i].canceling
    ensures Bookkeeping(Cancel(s, i))
  {
    assert ItemInv(s, i);
    var t, q := Cancel(s, i), s.items[i].queue.value;
    var w := s.queues[q];
    assert QueueInv(s, q);
    assert Dropped(Held(w), i) == Held(t.queues[q]) && Turns(Held(w), i) == Turns(w.pending, i);
    UnqueueTouches(s, i, q);
    DroppedOnce(Held(w), i);
    DroppedHas(Held(w), i, i);
    OnlyTurns(w.pending, i);
    assert Active(t, i) == Active(s, i) - Turns(w.pending, i);
    Moves(s, t, i, q);
  }

  lemma CancelBooks(s: State, i: nat)
    requires Bookkeeping(s) && i in s.items && !InWindow(s, i)
    ensures Bookkeeping(Cancel(s, i))
  {
    var t, it := Cancel(s, i), s.items[i];
    assert ItemInv(s, i);
    if !it.canceling && it.queued {
      CancelQueued(s, i);
    } else if it.running {
      assert QueueInv(s, it.queue.value);
      assert Active(t, i) == Active(s, i);
      Moves(s, t, i, it.queue.value);
    } else {
      assert t.items == s.items;
      assert t == s;
    }
  }

  /** The thread of the item's queue has pulled it and not yet marked it running. */
  predicate InWindow(s: State, i: nat) {
    exists q :: q in s.queues && s.queues[q].pc.Pulled? && IsItem(s.queues[q].pc.node, i)
  }

  lemma {:induction false} OnlyTurns(nodes: seq<Node>, i: nat)
    ensures forall n :: n in Turns(nodes, i) ==> IsItem(n, i)
  {
    if nodes != [] {
      OnlyTurns(nodes[1..], i);
    }
  }

  lemma PullBooks(s: State, q: nat)
    requires Bookkeeping(s) && q in s.queues
    ensures Bookkeeping(Pull(s, q))
  {
    var t := Pull(s, q);
    var w, v := s.queues[q], t.queues[q];
    assert QueueInv(s, q);
    assert Held(v) == Held(w);
    Stays(s, t, q);
  }

  /** A step that changes no item, and a queue only in ways the items do not see. */
  lemma Stays(s: State, t: State, q: nat)
    requires Bookkeeping(s) && q in s.queues
    requires t.items == s.items && t.queues.Keys == s.queues.Keys && t.finished == s.finished
    requires forall p :: p in s.queues && p != q ==> t.queues[p] == s.queues[p]
    requires Once(Held(t.queues[q])) && forall j :: SameFor(t.queues[q], s.queues[q], j)
    ensures Bookkeeping(t)
  {
    forall p | p in t.queues ensures QueueInv(t, p) {
      assert QueueInv(s, p);
      forall j ensures Has(Held(t.queues[p]), j) <==> OnQueue(t, j, p) {
        assert Has(Held(s.queues[p]), j) <==> OnQueue(s, j, p);
        assert SameFor(t.queues[q], s.queues[q], j);
      }
      forall j ensures Runs(t.queues[p], j) <==> RunsOn(t, j, p) {
        assert Runs(s.queues[p], j) <==> RunsOn(s, j, p);
        assert SameFor(t.queues[q], s.queues[q], j);
      }
    }
    forall j | j in t.items ensures ItemInv(t, j) {
      assert ItemInv(s, j) && SameFor(t.queues[q], s.queues[q], j);
      assert Active(t, j) == Active(s, j);
    }
  }

  lemma FlushBooks(s: State, i: nat, f: nat)
    requires Bookkeeping(s) && i in s.items
    ensures Bookkeeping(Flush(s, i, f))
  {
    var t, it := Flush(s, i, f), s.items[i];
    assert ItemInv(s, i);
    if it.queued || it.running {
      var q := it.queue.value;
      var w, v := s.queues[q], t.queues[q];
      assert QueueInv(s, q);
      forall j ensures SameFor(v, w, j) {
        WithFlusherHas(w.pending, i, f, j);
        if w.pc.Pulled? {
          assert Held(w)[1..] == w.pending && Held(v)[1..] == v.pending;
        }
      }
      assert Once(Held(v)) by {
        if w.pc.Pulled? {
          assert Held(w)[1..] == w.pending && Held(v)[1..] == v.pending;
          if w.pc.node.Work? {
            WithFlusherHas(w.pending, i, f, w.pc.node.item);
          }
        }
        WithFlusherOnce(w.pending, i, f);
      }
      Stays(s, t, q);
    }
  }

  lemma WithFlusherHas(nodes: seq<Node>, i: nat, f: nat, j: nat)
    ensures Has(WithFlusher(nodes, i, f), j) <==> Has(nodes, j)
    ensures Turns(WithFlusher(nodes, i, f), j) == Turns(nodes, j)
  {
    InsertHas(nodes, i, f, j);
    assert ([Flusher(f)] + nodes)[1..] == nodes;
  }

  lemma WithFlusherOnce(nodes: seq<Node>, i: nat, f: nat)
    requires Once(nodes)
    ensures Once(WithFlusher(nodes, i, f))
  {
    InsertOnce(nodes, i, f);
    assert ([Flusher(f)] + nodes)[1..] == nodes;
  }

  lemma StartsRunning(s: State, q: nat, i: nat)
    requires Bookkeeping(s) && q in s.queues && s.queues[q].pc.Pulled? && IsItem(s.queues[q].pc.node, i) && i in s.items
    ensures var w := s.queues[q];
            Bookkeeping(s.(items := s.items[i := s.items[i].(queued := false, running := true)],
                           queues := s.queues[q := w.(pc := Running(w.pc.node))]))
  {
    var w := s.queues[q];
    var t := s.(items := s.items[i := s.items[i].(queued := false, running := true)],
                queues := s.queues[q := w.(pc := Running(w.pc.node))]);
    assert QueueInv(s, q) && ItemInv(s, i);
    assert Held(w)[1..] == w.pending;
    PulledIsQueued(s, q);
    NoTurns(w.pending, i);
    assert Active(t, i) == Active(s, i);
    Moves(s, t, i, q);
  }

  lemma SetRunningBooks(s: State, q: nat)
    requires Bookkeeping(s) && q in s.queues
    ensures Bookkeeping(SetRunning(s, q))
  {
    var w := s.queues[q];
    if w.pc.Pulled? {
      if w.pc.node.Flusher? {
        assert QueueInv(s, q);
        assert Held(w)[1..] == w.pending;
        Stays(s, SetRunning(s, q), q);
      } else {
        PulledIsQueued(s, q);
        StartsRunning(s, q, w.pc.node.item);
      }
    }
  }

  /** The thread never finds a pulled item being cancelled: only a cancel inside the
      window could lead there. */
  lemma PulledIsQueued(s: State, q: nat)
    requires Bookkeeping(s) && q in s.queues && s.queues[q].pc.Pulled? && s.queues[q].pc.node.Work?
    ensures var i := s.queues[q].pc.node.item;
            i in s.items && s.items[i].queued && !s.items[i].running && !s.items[i].canceling &&
            s.items[i].queue == Some(q)
  {
    var i := s.queues[q].pc.node.item;
    assert QueueInv(s, q);
    assert Has(Held(s.queues[q]), i);
    assert OnQueue(s, i, q);
    assert ItemInv(s, i);
    assert Runs(s.queues[q], i) <==> RunsOn(s, i, q);
  }

  /** The books do not depend on who waits or was told what. */
  lemma SameBooks(s: State, t: State)
    requires Bookkeeping(s) && t.items == s.items && t.queues == s.queues && t.finished == s.finished
    ensures Bookkeeping(t)
  {
    forall q | q in t.queues ensures QueueInv(t, q) {
      assert QueueInv(s, q);
      assert forall i :: OnQueue(t, i, q) == OnQueue(s, i, q) && RunsOn(t, i, q) == RunsOn(s, i, q);
    }
    forall i | i in t.items ensures ItemInv(t, i) {
      assert ItemInv(s, i) && Active(t, i) == Active(s, i);
    }
  }

  lemma StopsRunning(s: State, q: nat, i: nat)
    requires Bookkeeping(s) && q in s.queues && Runs(s.queues[q], i) && i in s.items
    ensures var w := s.queues[q];
            Bookkeeping(s.(items := s.items[i := s.items[i].(running := false, canceling := false)],
                           queues := s.queues[q := w.(pc := Idle)], finished := s.finished + {w.pc.node}))
  {
    var w := s.queues[q];
    var t := s.(items := s.items[i := s.items[i].(running := false, canceling := false)],
                queues := s.queues[q := w.(pc := Idle)], finished := s.finished + {w.pc.node});
    assert QueueInv(s, q) && ItemInv(s, i);
    assert Runs(w, i) <==> RunsOn(s, i, q);
    assert Has(Held(w), i) <==> OnQueue(s, i, q);
    assert Active(t, i) == Active(s, i) - {w.pc.node};
    Moves(s, t, i, q);
  }

  lemma ClearRunningBooks(s: State, q: nat)
    requires Bookkeeping(s) && q in s.queues
    ensures Bookkeeping(ClearRunning(s, q))
  {
    var t, w := ClearRunning(s, q), s.queues[q];
    if w.pc.Running? {
      if w.pc.node.Flusher? {
        assert QueueInv(s, q);
        Stays(s, t, q);
      } else {
        WorkReturnsBooks(s, q);
      }
    }
  }

  lemma WorkReturnsBooks(s: State, q: nat)
    requires Bookkeeping(s) && q in s.queues && s.queues[q].pc.Running? && s.queues[q].pc.node.Work?
    ensures Bookkeeping(ClearRunning(s, q))
  {
    var t, w := ClearRunning(s, q), s.queues[q];
    var i := w.pc.node.item;
    assert QueueInv(s, q);
    assert Runs(w, i) && RunsOn(s, i, q);
    assert ItemInv(s, i);
    StopsRunning(s, q, i);
    assert t.items == s.items[i := s.items[i].(running := false, canceling := false)];
    SameBooks(s.(items := t.items, queues := t.queues, finished := t.finished), t);
  }

  /** A cancel keeps the books exactly when the item is not in that window. */
  lemma CancelWindow(s: State, i: nat)
    requires Bookkeeping(s) && i in s.items
    ensures Bookkeeping(Cancel(s, i)) <==> !InWindow(s, i)
  {
    if InWindow(s, i) {
      var q :| q in s.queues && s.queues[q].pc.Pulled? && IsItem(s.queues[q].pc.node, i);
      PulledIsQueued(s, q);
      var t := Cancel(s, i);
      assert Has(Held(t.queues[q]), i) && !OnQueue(t, i, q);
      assert !QueueInv(t, q);
    } else {
      CancelBooks(s, i);
    }
  }

  /** One item, two queues: submit, pull, cancel inside the window, submit elsewhere. */
  lemma WindowRunsTwice()
    ensures var w := Queue(true, false, false, [], Idle);
            var s0 := State(map[0 := Item(false, false, false, None, 0)], map[0 := w, 1 := w], [], [], [], {}, map[]);
            var s1 := Pull(Submit(s0, 0, Some(0), false).0, 0);
            var s2 := Pull(Submit(Cancel(s1, 0), 0, Some(1), false).0, 1);
            var s3 := SetRunning(SetRunning(s2, 0), 1);
            Runs(s3.queues[0], 0) && Runs(s3.queues[1], 0)
  {
    var w := Queue(true, false, false, [], Idle);
    var s0 := State(map[0 := Item(false, false, false, None, 0)], map[0 := w, 1 := w], [], [], [], {}, map[]);
    var s1 := Pull(Submit(s0, 0, Some(0), false).0, 0);
    assert s1.queues[0] == w.(pc := Pulled(Work(0, 0)));
    assert s1.items[0] == Item(true, false, false, Some(0), 1);
    var c := Cancel(s1, 0);
    assert c.items[0] == Item(false, false, false, Some(0), 1);
    assert c.queues[0] == w.(pc := Pulled(Work(0, 0))) && c.queues[1] == w;
    var s2 := Pull(Submit(c, 0, Some(1), false).0, 1);
    assert s2.queues[1] == w.(pc := Pulled(Work(0, 1))) && s2.queues[0] == c.queues[0];
  }

  // -------------------------------------------------------------------- flushes

  lemma MoreFinished(s: State, finished: set<Node>, q: nat)
    requires q in s.queues && FlushInv(s, q) && s.finished <= finished
    ensures FlushInv(s.(finished := finished), q)
  {
    var w := s.queues[q];
    MoreSafe(w.pending, s.finished + Ahead(w), finished + Ahead(w), s.flushes);
  }

  /** A step that changes one queue and may finish turns keeps the order of flushes
      if it keeps that queue's. */
  lemma FlushMoves(s: State, t: State, q: nat)
    requires Flushes(s) && q in s.queues && t.queues.Keys == s.queues.Keys && t.flushes == s.flushes
    requires forall p :: p in s.queues && p != q ==> t.queues[p] == s.queues[p]
    requires s.finished <= t.finished && FlushInv(t, q)
    requires forall k :: 0 <= k < |t.signalled| ==>
      t.signalled[k] in s.signalled || (t.signalled[k] in t.flushes && t.flushes[t.signalled[k]] <= t.finished)
    ensures Flushes(t)
  {
    forall p | p in t.queues ensures FlushInv(t, p) {
      if p != q {
        MoreFinished(s, t.finished, p);
      }
    }
  }

  lemma SubmitFlushes(s: State, i: nat, target: Option<nat>, chained: bool)
    requires Flushes(s) && i in s.items
    ensures Flushes(Submit(s, i, target, chained).0)
  {
    var (t, code) := Submit(s, i, target, chained);
    if code > 0 {
      var q := t.items[i].queue.value;
      var w := s.queues[q];
      assert FlushInv(s, q);
      AppendInOrder(w.pending, s.finished + Ahead(w), s.flushes, i, s.items[i].submits);
      FlushMoves(s, t, q);
    }
  }

  lemma CancelFlushes(s: State, i: nat)
    requires Flushes(s) && i in s.items
    ensures Flushes(Cancel(s, i))
  {
    var t, it := Cancel(s, i), s.items[i];
    if !it.canceling && it.queued && it.queue.Some? && it.queue.value in s.queues {
      var q := it.queue.value;
      var w := s.queues[q];
      assert FlushInv(s, q);
      DroppedInOrder(w.pending, s.finished + Ahead(w), s.flushes, i);
      assert s.finished + Ahead(w) + Turns(w.pending, i) == t.finished + Ahead(w);
      FlushMoves(s, t, q);
    } else {
      forall p | p in t.queues ensures FlushInv(t, p) {
        assert FlushInv(s, p);
      }
    }
  }

  lemma FlushFlushes(s: State, i: nat, f: nat)
    requires Flushes(s) && Bookkeeping(s) && i in s.items && f !in s.flushes
    ensures Flushes(Flush(s, i, f))
  {
    var t, it := Flush(s, i, f), s.items[i];
    assert ItemInv(s, i);
    if it.queued || it.running {
      var q, targets := it.queue.value, Active(s, i);
      forall p | p in s.queues ensures FlushInv(s.(flushes := t.flushes), p) {
        var w := s.queues[p];
        assert FlushInv(s, p);
        NewFlush(w.pending, s.finished + Ahead(w), s.flushes, f, targets);
      }
      FlushPlaced(s, i, f, q);
      forall p | p in t.queues ensures FlushInv(t, p) {
        assert FlushInv(s.(flushes := t.flushes), p);
      }
    }
  }

  lemma FlushPlaced(s: State, i: nat, f: nat, q: nat)
    requires Bookkeeping(s) && i in s.items && s.items[i].queue == Some(q) && q in s.queues
    requires FlushInv(s.(flushes := s.flushes[f := Active(s, i)]), q)
    ensures var w := s.queues[q];
            InOrder(WithFlusher(w.pending, i, f), s.finished + Ahead(w), s.flushes[f := Active(s, i)])
  {
    var w, flushes := s.queues[q], s.flushes[f := Active(s, i)];
    var safe := s.finished + Ahead(w);
    assert QueueInv(s, q);
    if w.pc.Pulled? {
      assert Held(w)[1..] == w.pending;
    }
    assert Active(s, i) <= safe + Turns(w.pending, i);
    if Has(w.pending, i) {
      FlusherInOrder(w.pending, safe, flushes, i, f);
    } else {
      NoTurns(w.pending, i);
      assert ([Flusher(f)] + w.pending)[1..] == w.pending;
    }
  }

  lemma PullFlushes(s: State, q: nat)
    requires Flushes(s) && q in s.queues
    ensures Flushes(Pull(s, q))
  {
    var w, t := s.queues[q], Pull(s, q);
    assert FlushInv(s, q);
    if w.pc == Idle {
      assert s.finished + Ahead(w) == s.finished;
      if w.pending != [] && w.pending[0].Flusher? {
        assert t.finished + Ahead(t.queues[q]) == s.finished;
      }
      FlushMoves(s, t, q);
    }
  }

  lemma SetRunningFlushes(s: State, q: nat)
    requires Flushes(s) && Bookkeeping(s) && q in s.queues
    ensures Flushes(SetRunning(s, q))
  {
    var w, t := s.queues[q], SetRunning(s, q);
    assert FlushInv(s, q);
    if w.pc.Pulled? {
      if w.pc.node.Work? {
        PulledIsQueued(s, q);
      }
      assert Ahead(t.queues[q]) == Ahead(w);
      FlushMoves(s, t, q);
    }
  }

  lemma WorkReturns(s: State, t: State, q: nat)
    requires Flushes(s) && q in s.queues && s.queues[q].pc.Running? && s.queues[q].pc.node.Work?
    requires t.queues == s.queues[q := s.queues[q].(pc := Idle)] && t.flushes == s.flushes
    requires t.signalled == s.signalled && t.finished == s.finished + {s.queues[q].pc.node}
    ensures Flushes(t)
  {
    assert FlushInv(s, q);
    assert t.finished + Ahead(t.queues[q]) == s.finished + Ahead(s.queues[q]);
    FlushMoves(s, t, q);
  }

  lemma FlusherReturns(s: State, t: State, q: nat)
    requires Flushes(s) && q in s.queues && s.queues[q].pc.Running? && s.queues[q].pc.node.Flusher?
    requires t.queues == s.queues[q := s.queues[q].(pc := Idle)] && t.flushes == s.flushes
    requires t.signalled == s.signalled + [s.queues[q].pc.node.flush] && t.finished == s.finished
    ensures Flushes(t)
  {
    assert FlushInv(s, q);
    FlushMoves(s, t, q);
  }

  lemma ClearRunningFlushes(s: State, q: nat)
    requires Flushes(s) && Bookkeeping(s) && q in s.queues
    ensures Flushes(ClearRunning(s, q))
  {
    if s.queues[q].pc.Running? {
      RunningIsMarked(s, q);
      if s.queues[q].pc.node.Work? {
        WorkReturns(s, ClearRunning(s, q), q);
      } else {
        FlusherReturns(s, ClearRunning(s, q), q);
      }
    }
  }

  lemma RunningIsMarked(s: State, q: nat)
    requires Bookkeeping(s) && q in s.queues && s.queues[q].pc.Running?
    ensures s.queues[q].pc.node.Work? ==>
      s.queues[q].pc.node.item in s.items && RunsOn(s, s.queues[q].pc.node.item, q)
  {
    var w := s.queues[q];
    assert QueueInv(s, q);
    if w.pc.node.Work? {
      assert Runs(w, w.pc.node.item) && RunsOn(s, w.pc.node.item, q);
    }
  }

  // -------------------------------------------------------------------- cancels

  function Tickets(cancels: seq<Canceller>): seq<nat> {
    if cancels == [] then [] else [cancels[0].id] + Tickets(cancels[1..])
  }

  /** Finalizing an item releases all of its cancellers and none of the others. */
  lemma {:induction false} FinalizeSplits(cancels: seq<Canceller>, i: nat)
    ensures multiset(Tickets(cancels)) == multiset(Waiting(cancels, i)) + multiset(Tickets(Others(cancels, i)))
  {
    if cancels != [] {
      var tail := cancels[1..];
      FinalizeSplits(tail, i);
      assert multiset(Tickets(cancels)) == multiset{cancels[0].id} + multiset(Tickets(tail));
      if cancels[0].item != i {
        assert Others(cancels, i)[1..] == Others(tail, i);
      }
    }
  }

  lemma {:induction false} FinalizeKeeps(cancels: seq<Canceller>, i: nat)
    ensures forall k :: 0 <= k < |Others(cancels, i)| ==> Others(cancels, i)[k].item != i && Others(cancels, i)[k] in cancels
    ensures Waiting(Others(cancels, i), i) == []
  {
    if cancels != [] {
      FinalizeKeeps(cancels[1..], i);
      if cancels[0].item != i {
        assert Others(cancels, i)[1..] == Others(cancels[1..], i);
      }
    }
  }

  lemma {:induction false} TicketsSnoc(cancels: seq<Canceller>, c: Canceller)
    ensures Tickets(cancels + [c]) == Tickets(cancels) + [c.id]
  {
    if cancels != [] {
      TicketsSnoc(cancels[1..], c);
      assert (cancels + [c])[1..] == cancels[1..] + [c];
    }
  }

  /** Every canceller is given its semaphore at most once, and not while waiting. */
  ghost predicate TicketsOk(cancels: seq<Canceller>, given: seq<nat>) {
    forall c :: multiset(Tickets(cancels) + given)[c] <= 1
  }

  lemma ReleaseTickets(cancels: seq<Canceller>, given: seq<nat>, i: nat)
    requires TicketsOk(cancels, given)
    ensures TicketsOk(Others(cancels, i), given + Waiting(cancels, i))
  {
    FinalizeSplits(cancels, i);
    assert multiset(Tickets(Others(cancels, i)) + (given + Waiting(cancels, i))) == multiset(Tickets(cancels) + given);
  }

  lemma NewTicket(cancels: seq<Canceller>, given: seq<nat>, c: Canceller)
    requires TicketsOk(cancels, given) && c.id !in Tickets(cancels) && c.id !in given
    ensures TicketsOk(cancels + [c], given)
  {
    TicketsSnoc(cancels, c);
    assert multiset(Tickets(cancels + [c]) + given) == multiset(Tickets(cancels) + given) + multiset{c.id};
  }

  /** No canceller waits for an item that is not being cancelled. */
  ghost predicate Cancels(s: State) {
    && TicketsOk(s.cancels, s.given)
    && forall k :: 0 <= k < |s.cancels| ==> Canceling(s, s.cancels[k].item)
  }

  predicate Canceling(s: State, i: nat) {
    i in s.items && s.items[i].canceling
  }

  lemma CancelsStay(s: State, t: State)
    requires Cancels(s) && t.cancels == s.cancels && t.given == s.given
    requires forall i :: Canceling(s, i) ==> Canceling(t, i)
    ensures Cancels(t)
  {
  }

  lemma FinalizeCancels(s: State, i: nat)
    requires i in s.items && Cancels(s)
    ensures Cancels(Finalize(s, i))
  {
    FinalizeKeeps(s.cancels, i);
    ReleaseTickets(s.cancels, s.given, i);
  }

  // ----------------------------------------------------------------------- runs

  datatype Op =
    | SubmitOp(item: nat, target: Option<nat>, chained: bool)
    | CancelOp(item: nat)
    | CancelSyncOp(item: nat, canceller: nat)
    | FlushOp(item: nat, flush: nat)
    | PullOp(queue: nat)
    | SetRunningOp(queue: nat)
    | ClearRunningOp(queue: nat)
    | DrainOp(queue: nat, plug: bool)
    | UnplugOp(queue: nat)

  /** Calls name existing items and queues and bring their own flusher and canceller,
      and no cancel falls inside the window. */
  ghost predicate Allowed(s: State, op: Op) {
    match op
    case SubmitOp(i, _, _) => i in s.items
    case CancelOp(i) => i in s.items && !InWindow(s, i)
    case CancelSyncOp(i, c) => i in s.items && !InWindow(s, i) && c !in Tickets(s.cancels) && c !in s.given
    case FlushOp(i, f) => i in s.items && f !in s.flushes
    case PullOp(q) => q in s.queues
    case SetRunningOp(q) => q in s.queues
    case ClearRunningOp(q) => q in s.queues
    case DrainOp(q, _) => q in s.queues
    case UnplugOp(q) => q in s.queues
  }

  function Step(s: State, op: Op): State
    requires Allowed(s, op)
  {
    match op
    case SubmitOp(i, target, chained) => Submit(s, i, target, chained).0
    case CancelOp(i) => Cancel(s, i)
    case CancelSyncOp(i, c) => CancelSync(s, i, c)
    case FlushOp(i, f) => Flush(s, i, f)
    case PullOp(q) => Pull(s, q)
    case SetRunningOp(q) => SetRunning(s, q)
    case ClearRunningOp(q) => ClearRunning(s, q)
    case DrainOp(q, plug) => Drain(s, q, plug)
    case UnplugOp(q) => Unplug(s, q)
  }

  ghost predicate Inv(s: State) {
    Bookkeeping(s) && Flushes(s) && Cancels(s)
  }

  lemma SubmitInv(s: State, i: nat, target: Option<nat>, chained: bool)
    requires Inv(s) && i in s.items
    ensures Inv(Submit(s, i, target, chained).0)
  {
    SubmitBooks(s, i, target, chained);
    SubmitFlushes(s, i, target, chained);
    SubmitCancels(s, i, target, chained);
  }

  lemma SubmitCancels(s: State, i: nat, target: Option<nat>, chained: bool)
    requires Cancels(s) && i in s.items
    ensures Cancels(Submit(s, i, target, chained).0)
  {
    CancelsStay(s, Submit(s, i, target, chained).0);
  }

  lemma CancelInv(s: State, i: nat)
    requires Inv(s) && i in s.items && !InWindow(s, i)
    ensures Inv(Cancel(s, i))
  {
    CancelBooks(s, i);
    CancelFlushes(s, i);
    CancelsStay(s, Cancel(s, i));
  }

  lemma WaitInv(s: State, i: nat, c: nat)
    requires Inv(s) && Canceling(s, i) && c !in Tickets(s.cancels) && c !in s.given
    ensures Inv(s.(cancels := s.cancels + [Canceller(c, i)]))
  {
    var t := s.(cancels := s.cancels + [Canceller(c, i)]);
    NewTicket(s.cancels, s.given, Canceller(c, i));
    Unrelated(s, t);
    assert forall j :: Canceling(s, j) == Canceling(t, j);
  }

  lemma CancelSyncInv(s: State, i: nat, c: nat)
    requires Inv(s) && i in s.items && !InWindow(s, i) && c !in Tickets(s.cancels) && c !in s.given
    ensures Inv(CancelSync(s, i, c))
  {
    CancelInv(s, i);
    if Canceling(Cancel(s, i), i) {
      WaitInv(Cancel(s, i), i, c);
    }
  }

  lemma FlushInvariant(s: State, i: nat, f: nat)
    requires Inv(s) && i in s.items && f !in s.flushes
    ensures Inv(Flush(s, i, f))
  {
    FlushBooks(s, i, f);
    FlushFlushes(s, i, f);
    CancelsStay(s, Flush(s, i, f));
  }

  lemma PullInv(s: State, q: nat)
    requires Inv(s) && q in s.queues
    ensures Inv(Pull(s, q))
  {
    PullBooks(s, q);
    PullFlushes(s, q);
    CancelsStay(s, Pull(s, q));
  }

  lemma SetRunningInv(s: State, q: nat)
    requires Inv(s) && q in s.queues
    ensures Inv(SetRunning(s, q))
  {
    SetRunningBooks(s, q);
    SetRunningFlushes(s, q);
    if s.queues[q].pc.Pulled? && s.queues[q].pc.node.Work? {
      PulledIsQueued(s, q);
    }
    CancelsStay(s, SetRunning(s, q));
  }

  lemma ClearRunningInv(s: State, q: nat)
    requires Inv(s) && q in s.queues
    ensures Inv(ClearRunning(s, q))
  {
    ClearRunningBooks(s, q);
    ClearRunningFlushes(s, q);
    ClearRunningCancels(s, q);
  }

  lemma ClearRunningCancels(s: State, q: nat)
    requires Bookkeeping(s) && Cancels(s) && q in s.queues
    ensures Cancels(ClearRunning(s, q))
  {
    var w := s.queues[q];
    if w.pc.Running? && w.pc.node.Work? {
      RunningIsMarked(s, q);
      CancelsStay(s, Returned(s, q));
      if s.items[w.pc.node.item].canceling {
        FinalizeCancels(Returned(s, q), w.pc.node.item);
      }
    } else {
      CancelsStay(s, ClearRunning(s, q));
    }
  }

  lemma FlagsInv(s: State, q: nat, w: Queue)
    requires Inv(s) && q in s.queues
    requires w.pending == s.queues[q].pending && w.pc == s.queues[q].pc
    ensures Inv(s.(queues := s.queues[q := w]))
  {
    var t := s.(queues := s.queues[q := w]);
    assert QueueInv(s, q) && FlushInv(s, q);
    Stays(s, t, q);
    FlushMoves(s, t, q);
    CancelsStay(s, t);
  }

  /** Every step of every run keeps the invariant. */
  lemma StepKeepsInv(s: State, op: Op)
    requires Inv(s) && Allowed(s, op)
    ensures Inv(Step(s, op))
  {
    match op
    case SubmitOp(i, target, chained) => SubmitInv(s, i, target, chained);
    case CancelOp(i) => CancelInv(s, i);
    case CancelSyncOp(i, c) => CancelSyncInv(s, i, c);
    case FlushOp(i, f) => FlushInvariant(s, i, f);
    case PullOp(q) => PullInv(s, q);
    case SetRunningOp(q) => SetRunningInv(s, q);
    case ClearRunningOp(q) => ClearRunningInv(s, q);
    case DrainOp(q, plug) => FlagsInv(s, q, Drained(s.queues[q], plug));
    case UnplugOp(q) => FlagsInv(s, q, s.queues[q].(plugged := false));
  }

  /** The list of cancellers plays no part in the books of items and queues. */
  lemma Unrelated(s: State, t: State)
    requires Bookkeeping(s) && Flushes(s)
    requires t.items == s.items && t.queues == s.queues && t.finished == s.finished
    requires t.flushes == s.flushes && t.signalled == s.signalled
    ensures Bookkeeping(t) && Flushes(t)
  {
    SameBooks(s, t);
    forall q | q in t.queues ensures FlushInv(t, q) {
      assert FlushInv(s, q);
    }
  }

  /** Items idle and never submitted, queues empty and idle. */
  predicate Initial(s: State) {
    && (forall i :: i in s.items ==> s.items[i] == Item(false, false, false, None, 0))
    && (forall q :: q in s.queues ==> s.queues[q].pending == [] && s.queues[q].pc == Idle)
    && s.cancels == [] && s.given == [] && s.signalled == [] && s.finished == {} && s.flushes == map[]
  }

  ghost predicate Run(s: State, ops: seq<Op>, t: State)
    decreases |ops|
  {
    if ops == [] then t == s
    else Allowed(s, ops[0]) && Run(Step(s, ops[0]), ops[1..], t)
  }

  lemma InitialInv(s: State)
    requires Initial(s)
    ensures Inv(s)
  {
    forall i | i in s.items ensures ItemInv(s, i) {
    }
  }

  lemma {:induction false} RunKeepsInv(s: State, ops: seq<Op>, t: State)
    requires Inv(s) && Run(s, ops, t)
    ensures Inv(t)
    decreases |ops|
  {
    if ops != [] {
      StepKeepsInv(s, ops[0]);
      RunKeepsInv(Step(s, ops[0]), ops[1..], t);
    }
  }

  // ------------------------------------------------------- what submission answers

  /** Where a submission goes: to the queue that runs the item, else to the one given,
      else to the last one. */
  function Destination(it: Item, target: Option<nat>): Option<nat> {
    if it.running then it.queue else if target.Some? then target else it.queue
  }

  /** A submission is accepted exactly when the item is neither queued nor being
      cancelled and its queue is started and takes it, and every refusal has its own
      answer and changes nothing. */
  lemma SubmitAnswers(s: State, i: nat, target: Option<nat>, chained: bool)
    requires i in s.items
    ensures var (t, code) := Submit(s, i, target, chained);
            var it := s.items[i];
            var to := Destination(it, target);
            var known := to.Some? && to.value in s.queues;
            && (code == 0 <==> it.queued && !it.canceling)
            && (code == -22 <==> !it.canceling && !it.queued && !known)
            && (code == -19 <==> !it.canceling && !it.queued && known && !s.queues[to.value].started)
            && (code == -16 <==> (it.canceling || (!it.queued && known && s.queues[to.value].started &&
                                                   Refuses(s.queues[to.value], chained))))
            && (code == 2 <==> code > 0 && it.running) && (code == 1 <==> code > 0 && !it.running)
            && (code <= 0 ==> t == s)
  {
  }

  /** Of an accepted one exactly one new turn goes to the back of that queue. */
  lemma SubmitQueues(s: State, i: nat, target: Option<nat>, chained: bool)
    requires i in s.items && Submit(s, i, target, chained).1 > 0
    ensures var t, it := Submit(s, i, target, chained).0, s.items[i];
            var to := Destination(it, target);
            && to.Some? && to.value in s.queues
            && t.items == s.items[i := it.(queued := true, queue := to, submits := it.submits + 1)]
            && t.queues == s.queues[to.value := s.queues[to.value].(pending := s.queues[to.value].pending + [Work(i, it.submits)])]
            && t == s.(items := t.items, queues := t.queues)
  {
  }

  /** A draining queue takes only what its own thread submits, and a plugged one nothing
      unless it is draining. */
  predicate Refuses(w: Queue, chained: bool) {
    (w.draining && !chained) || (w.plugged && !w.draining)
  }

  // --------------------------------------------------------- what the runs promise

  /** No two queues run the handler of one item at once. */
  lemma HandlerRunsOnce(s: State, i: nat, p: nat, q: nat)
    requires Inv(s) && p in s.queues && q in s.queues && Runs(s.queues[p], i) && Runs(s.queues[q], i)
    ensures p == q
  {
    assert QueueInv(s, p) && QueueInv(s, q);
    assert RunsOn(s, i, p) && RunsOn(s, i, q);
  }

  /** Whoever waits for a cancellation waits for a handler that is running. */
  lemma WaitersHaveARunner(s: State, k: nat)
    requires Inv(s) && k < |s.cancels|
    ensures var i := s.cancels[k].item;
            i in s.items && s.items[i].queue.Some? && s.items[i].queue.value in s.queues &&
            Runs(s.queues[s.items[i].queue.value], i) && !s.items[i].queued
  {
    var i := s.cancels[k].item;
    assert Canceling(s, i) && ItemInv(s, i);
    var q := s.items[i].queue.value;
    assert QueueInv(s, q);
    assert RunsOn(s, i, q) <==> Runs(s.queues[q], i);
  }

  /** Cancellers are released only by the return of the item's handler, all of them
      together, and the item is then neither queued nor running. */
  lemma ReleasedWhenIdle(s: State, op: Op)
    requires Inv(s) && Allowed(s, op)
    ensures var t := Step(s, op);
            t.given == s.given ||
            (op.ClearRunningOp? && s.queues[op.queue].pc.Running? && s.queues[op.queue].pc.node.Work? &&
             var i := s.queues[op.queue].pc.node.item;
             i in t.items && !t.items[i].queued && !t.items[i].running && !t.items[i].canceling &&
             t.given == s.given + Waiting(s.cancels, i) && t.cancels == Others(s.cancels, i))
  {
    match op
    case SetRunningOp(q) => StartReleasesNone(s, q);
    case ClearRunningOp(q) => ReturnReleases(s, q);
    case _ =>
  }

  lemma StartReleasesNone(s: State, q: nat)
    requires Inv(s) && q in s.queues
    ensures SetRunning(s, q).given == s.given
  {
    if s.queues[q].pc.Pulled? && s.queues[q].pc.node.Work? {
      PulledIsQueued(s, q);
    }
  }

  lemma ReturnReleases(s: State, q: nat)
    requires Inv(s) && q in s.queues
    ensures var t := ClearRunning(s, q);
            t.given == s.given ||
            (s.queues[q].pc.Running? && s.queues[q].pc.node.Work? &&
             var i := s.queues[q].pc.node.item;
             i in t.items && !t.items[i].queued && !t.items[i].running && !t.items[i].canceling &&
             t.given == s.given + Waiting(s.cancels, i) && t.cancels == Others(s.cancels, i))
  {
    if s.queues[q].pc.Running? {
      RunningIsMarked(s, q);
      if s.queues[q].pc.node.Work? {
        assert ItemInv(s, s.queues[q].pc.node.item);
      }
    }
  }

  lemma StepKeepsFlushes(s: State, op: Op, f: nat)
    requires Allowed(s, op) && f in s.flushes
    ensures var t := Step(s, op); f in t.flushes && t.flushes[f] == s.flushes[f] && t.items.Keys == s.items.Keys
  {
  }

  lemma {:induction false} RunKeepsFlushes(s: State, ops: seq<Op>, t: State, f: nat)
    requires Run(s, ops, t) && f in s.flushes
    ensures f in t.flushes && t.flushes[f] == s.flushes[f] && t.items.Keys == s.items.Keys
    decreases |ops|
  {
    if ops != [] {
      StepKeepsFlushes(s, ops[0], f);
      RunKeepsFlushes(Step(s, ops[0]), ops[1..], t, f);
    }
  }

  /** The flush's semaphore was given, or its handler, which gives it, is running. */
  predicate Signals(s: State, f: nat) {
    f in s.signalled || exists q :: q in s.queues && s.queues[q].pc == Running(Flusher(f))
  }

  lemma SignalsLate(s: State, f: nat)
    requires Inv(s) && f in s.flushes && Signals(s, f)
    ensures s.flushes[f] <= s.finished
  {
    if q :| q in s.queues && s.queues[q].pc == Running(Flusher(f)) {
      assert FlushInv(s, q);
    } else {
      var k :| 0 <= k < |s.signalled| && s.signalled[k] == f;
    }
  }

  /** A flush is signalled only after every turn of the item that was queued or
      running when it was asked for has left both, whatever happens in between. */
  lemma FlushWaits(s: State, i: nat, f: nat, ops: seq<Op>, t: State)
    requires Inv(s) && i in s.items && (s.items[i].queued || s.items[i].running) && f !in s.flushes
    requires Run(Flush(s, i, f), ops, t)
    ensures i in t.items
    ensures Signals(t, f) ==> Active(s, i) !! Active(t, i) && Active(s, i) <= t.finished
  {
    assert ItemInv(s, i);
    FlushInvariant(s, i, f);
    RunKeepsInv(Flush(s, i, f), ops, t);
    RunKeepsFlushes(Flush(s, i, f), ops, t, f);
    if Signals(t, f) {
      SignalsLate(t, f);
      assert ItemInv(t, i);
      OnlyActive(s, i);
    }
  }

  lemma OnlyActive(s: State, i: nat)
    requires i in s.items
    ensures forall n :: n in Active(s, i) ==> IsItem(n, i)
  {
    var q := s.items[i].queue;
    if q.Some? && q.value in s.queues {
      OnlyTurns(Held(s.queues[q.value]), i);
    }
  }

  /** A cancel outside the window leaves the item queued nowhere; what may remain is
      the handler that is running, and then the item is marked so that it cannot be
      submitted again before the handler returns. */
  lemma CancelStops(s: State, i: nat, target: Option<nat>, chained: bool)
    requires Inv(s) && i in s.items && !InWindow(s, i)
    ensures var t := Cancel(s, i);
            !t.items[i].queued && t.items[i].canceling == s.items[i].running == t.items[i].running &&
            (!s.items[i].running ==> Active(t, i) == {}) &&
            (s.items[i].running ==> Submit(t, i, target, chained) == (t, EBUSY))
  {
    assert ItemInv(s, i);
    CancelInv(s, i);
    var t := Cancel(s, i);
    assert ItemInv(t, i);
    if !s.items[i].running && t.items[i].queue.Some? {
      ActiveAt(t, i, t.items[i].queue.value);
      NoTurns(Held(t.queues[t.items[i].queue.value]), i);
    }
  }
}
