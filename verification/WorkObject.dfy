/** The work subsystem as the kernel keeps it: flag words, pending lists and the one
    list of cancellers, changed in place under the work lock. */
module WorkObject {
  import opened Common
  import opened Errno
  import opened Work

  lemma {:induction false} HasAt(nodes: seq<Node>, i: nat)
    ensures Has(nodes, i) <==> exists k :: 0 <= k < |nodes| && IsItem(nodes[k], i)
  {
    if nodes != [] {
      HasAt(nodes[1..], i);
      assert forall k :: 0 <= k < |nodes[1..]| ==> nodes[1..][k] == nodes[k + 1];
      assert forall k :: 0 < k < |nodes| ==> nodes[k] == nodes[1..][k - 1];
    }
  }

  lemma {:induction false} DroppedAt(nodes: seq<Node>, i: nat, k: nat)
    requires k < |nodes| && IsItem(nodes[k], i) && forall j :: 0 <= j < k ==> !IsItem(nodes[j], i)
    ensures Dropped(nodes, i) == nodes[..k] + nodes[k + 1..]
  {
    if k > 0 {
      DroppedAt(nodes[1..], i, k - 1);
      assert nodes[..k] == [nodes[0]] + nodes[1..][..k - 1] && nodes[1..][k..] == nodes[k + 1..];
    }
  }

  lemma {:induction false} InsertAt(nodes: seq<Node>, i: nat, f: Node, k: nat)
    requires k < |nodes| && IsItem(nodes[k], i) && forall j :: 0 <= j < k ==> !IsItem(nodes[j], i)
    ensures InsertAfter(nodes, i, f) == nodes[..k + 1] + [f] + nodes[k + 1..]
  {
    if k > 0 {
      InsertAt(nodes[1..], i, f, k - 1);
      assert nodes[..k + 1] == [nodes[0]] + nodes[1..][..k] && nodes[1..][k..] == nodes[k + 1..];
    }
  }

  lemma {:induction false} NotDropped(nodes: seq<Node>, i: nat)
    requires !Has(nodes, i)
    ensures Dropped(nodes, i) == nodes
  {
    if nodes != [] {
      NotDropped(nodes[1..], i);
    }
  }

  /** Where the item is in a list, or the length of the list. */
  method Search(nodes: seq<Node>, i: nat) returns (k: nat)
    ensures k <= |nodes| && (k < |nodes| <==> Has(nodes, i))
    ensures k < |nodes| ==> IsItem(nodes[k], i)
    ensures forall j :: 0 <= j < k ==> !IsItem(nodes[j], i)
  {
    k := 0;
    while k < |nodes| && !IsItem(nodes[k], i)
      invariant k <= |nodes|
      invariant forall j :: 0 <= j < k ==> !IsItem(nodes[j], i)
    {
      k := k + 1;
    }
    HasAt(nodes, i);
  }

  lemma CancelsNext(front: seq<Canceller>, rest: seq<Canceller>, i: nat)
    requires rest != []
    ensures front + Others(rest, i) ==
      (if rest[0].item == i then front else front + [rest[0]]) + Others(rest[1..], i)
  {
  }

  lemma GivenNext(given: seq<nat>, rest: seq<Canceller>, i: nat)
    requires rest != []
    ensures given + Waiting(rest, i) ==
      (if rest[0].item == i then given + [rest[0].id] else given) + Waiting(rest[1..], i)
  {
  }

  class WorkSystem {
    var items: map<nat, Item>
    var queues: map<nat, Queue>
    var cancels: seq<Canceller>
    var given: seq<nat>
    var signalled: seq<nat>
    ghost var finished: set<Node>
    ghost var flushes: map<nat, set<Node>>

    ghost function Now(): State
      reads this
    {
      State(items, queues, cancels, given, signalled, finished, flushes)
    }

    constructor (items: map<nat, Item>, queues: map<nat, Queue>)
      requires forall i :: i in items ==> items[i] == Item(false, false, false, None, 0)
      requires forall q :: q in queues ==> queues[q].pending == [] && queues[q].pc == Idle
      ensures this.items == items && this.queues == queues && Initial(Now()) && Inv(Now())
    {
      this.items, this.queues, cancels, given, signalled := items, queues, [], [], [];
      finished, flushes := {}, map[];
      new;
      InitialInv(Now());
    }

    method SubmitTo(i: nat, target: Option<nat>, chained: bool) returns (code: int)
      requires i in items
      modifies this
      ensures (Now(), code) == Submit(old(Now()), i, target, chained)
      ensures old(Inv(Now()) && Allowed(Now(), SubmitOp(i, target, chained))) ==> Inv(Now())
    {
      if Inv(Now()) && Allowed(Now(), SubmitOp(i, target, chained)) {
        SubmitInv(Now(), i, target, chained);
      }
      var it := items[i];
      code := 0;
      if it.canceling {
        code := EBUSY;
      } else if !it.queued {
        code := 1;
        var to := target;
        if to == None {
          to := it.queue;
        }
        if it.running {
          to := it.queue;
          code := 2;
        }
        if to == None || to.value !in queues {
          return EINVAL;
        }
        var w := queues[to.value];
        if !w.started {
          return ENODEV;
        }
        if (w.draining && !chained) || (w.plugged && !w.draining) {
          return EBUSY;
        }
        queues := queues[to.value := w.(pending := w.pending + [Work(i, it.submits)])];
        items := items[i := it.(queued := true, queue := to, submits := it.submits + 1)];
      }
    }

    /** Take the item off its list, if it is queued. */
    method QueueRemove(i: nat)
      requires i in items && items[i].queue.Some? && items[i].queue.value in queues
      modifies this
      ensures unchanged(`cancels, `given, `signalled, `flushes)
      ensures items == old(items)[i := old(items)[i].(queued := false)]
      ensures var q, w := old(items)[i].queue.value, old(queues)[old(items)[i].queue.value];
              if old(items)[i].queued then
                queues == old(queues)[q := w.(pending := Dropped(w.pending, i))] &&
                finished == old(finished) + Turns(w.pending, i)
              else queues == old(queues) && finished == old(finished)
    {
      var it, q := items[i], items[i].queue.value;
      items := items[i := it.(queued := false)];
      if it.queued {
        var w := queues[q];
        finished := finished + Turns(w.pending, i);
        var k := Search(w.pending, i);
        if k < |w.pending| {
          DroppedAt(w.pending, i, k);
          queues := queues[q := w.(pending := w.pending[..k] + w.pending[k + 1..])];
        } else {
          NotDropped(w.pending, i);
          queues := queues[q := w];
        }
      }
    }

    method CancelAsync(i: nat) returns (busy: bool)
      requires i in items && (items[i].queued ==> items[i].queue.Some? && items[i].queue.value in queues)
      modifies this
      ensures Now() == Cancel(old(Now()), i)
      ensures old(Inv(Now()) && Allowed(Now(), CancelOp(i))) ==> Inv(Now())
      ensures busy <==> items[i].queued || items[i].running || items[i].canceling
    {
      if Inv(Now()) && Allowed(Now(), CancelOp(i)) {
        CancelInv(Now(), i);
      }
      if !items[i].canceling && items[i].queued {
        QueueRemove(i);
      }
      busy := items[i].queued || items[i].running || items[i].canceling;
      items := items[i := items[i].(canceling := busy)];
    }

    method CancelAndWait(i: nat, c: nat) returns (wait: bool)
      requires i in items && (items[i].queued ==> items[i].queue.Some? && items[i].queue.value in queues)
      modifies this
      ensures Now() == CancelSync(old(Now()), i, c)
      ensures old(Inv(Now()) && Allowed(Now(), CancelSyncOp(i, c))) ==> Inv(Now())
      ensures wait <==> items[i].canceling
    {
      if Inv(Now()) && Allowed(Now(), CancelSyncOp(i, c)) {
        CancelSyncInv(Now(), i, c);
      }
      var _ := CancelAsync(i);
      wait := items[i].canceling;
      if wait {
        cancels := cancels + [Canceller(c, i)];
      }
    }

    method FlushItem(i: nat, f: nat) returns (wait: bool)
      requires i in items && (items[i].queued || items[i].running ==> items[i].queue.Some? && items[i].queue.value in queues)
      modifies this
      ensures Now() == Flush(old(Now()), i, f)
      ensures old(Inv(Now()) && Allowed(Now(), FlushOp(i, f))) ==> Inv(Now())
      ensures wait <==> old(items[i]).queued || old(items[i]).running
    {
      if Inv(Now()) && Allowed(Now(), FlushOp(i, f)) {
        FlushInvariant(Now(), i, f);
      }
      var it := items[i];
      wait := it.queued || it.running;
      if wait {
        var w := queues[it.queue.value];
        flushes := flushes[f := Active(Now(), i)];
        var k := Search(w.pending, i);
        if k < |w.pending| {
          InsertAt(w.pending, i, Flusher(f), k);
          queues := queues[it.queue.value := w.(pending := w.pending[..k + 1] + [Flusher(f)] + w.pending[k + 1..])];
        } else {
          queues := queues[it.queue.value := w.(pending := [Flusher(f)] + w.pending)];
        }
      }
    }

    /** Unlink every canceller of the item, one after another, and release it. */
    method FinalizeCancel(i: nat)
      requires i in items
      modifies this`items, this`cancels, this`given
      ensures Now() == Finalize(old(Now()), i)
    {
      items := items[i := items[i].(canceling := false)];
      var k := 0;
      assert cancels[..0] + Others(cancels[0..], i) == Others(cancels, i);
      while k < |cancels|
        invariant k <= |cancels| && items == old(items)[i := old(items)[i].(canceling := false)]
        invariant cancels[..k] + Others(cancels[k..], i) == Others(old(cancels), i)
        invariant given + Waiting(cancels[k..], i) == old(given) + Waiting(old(cancels), i)
        decreases |cancels| - k
      {
        CancelsNext(cancels[..k], cancels[k..], i);
        GivenNext(given, cancels[k..], i);
        assert cancels[k..][1..] == cancels[k + 1..] && cancels[..k] + [cancels[k]] == cancels[..k + 1];
        if cancels[k].item == i {
          given := given + [cancels[k].id];
          Unlink(k);
        } else {
          k := k + 1;
        }
      }
    }

    method Unlink(k: nat)
      requires k < |cancels|
      modifies this`cancels
      ensures |cancels| == |old(cancels)| - 1 && cancels[..k] == old(cancels)[..k] && cancels[k..] == old(cancels)[k + 1..]
    {
      cancels := cancels[..k] + cancels[k + 1..];
    }

    /** The head of the worker loop. */
    method PullNext(q: nat) returns (found: bool)
      requires q in queues && queues[q].pc == Idle
      modifies this`queues
      ensures Now() == Pull(old(Now()), q) && (found <==> old(queues)[q].pending != [])
      ensures Held(queues[q]) == Held(old(queues)[q])
      ensures old(Inv(Now()) && Allowed(Now(), PullOp(q))) ==> Inv(Now())
    {
      if Inv(Now()) && Allowed(Now(), PullOp(q)) {
        PullInv(Now(), q);
      }
      var w := queues[q];
      found := w.pending != [];
      if found {
        w := w.(pc := Pulled(w.pending[0]), pending := w.pending[1..]);
      } else if w.draining {
        w := w.(draining := false);
      }
      queues := queues[q := w];
    }

    method StartRunning(q: nat) returns (run: bool)
      requires q in queues && queues[q].pc.Pulled?
      requires queues[q].pc.node.Work? ==> queues[q].pc.node.item in items
      modifies this
      ensures Now() == SetRunning(old(Now()), q) && (run <==> queues[q].pc.Running?)
      ensures old(Inv(Now()) && Allowed(Now(), SetRunningOp(q))) ==> Inv(Now())
    {
      if Inv(Now()) && Allowed(Now(), SetRunningOp(q)) {
        SetRunningInv(Now(), q);
      }
      var w := queues[q];
      run := true;
      if w.pc.node.Work? {
        var i := w.pc.node.item;
        items := items[i := items[i].(queued := false)];
        run := !items[i].canceling;
        if run {
          items := items[i := items[i].(running := true)];
        } else {
          finished := finished + {w.pc.node};
          FinalizeCancel(i);
        }
      }
      queues := queues[q := w.(pc := if run then Running(w.pc.node) else Idle)];
    }

    method StopRunning(q: nat)
      requires q in queues && queues[q].pc.Running?
      requires queues[q].pc.node.Work? ==> queues[q].pc.node.item in items
      modifies this
      ensures Now() == ClearRunning(old(Now()), q)
      ensures old(Inv(Now()) && Allowed(Now(), ClearRunningOp(q))) ==> Inv(Now())
    {
      if Inv(Now()) && Allowed(Now(), ClearRunningOp(q)) {
        ClearRunningInv(Now(), q);
      }
      var w := queues[q];
      queues := queues[q := w.(pc := Idle)];
      if w.pc.node.Flusher? {
        signalled := signalled + [w.pc.node.flush];
      } else {
        var i := w.pc.node.item;
        items := items[i := items[i].(running := false)];
        finished := finished + {w.pc.node};
        if items[i].canceling {
          FinalizeCancel(i);
        }
      }
    }

    method DrainQueue(q: nat, plug: bool) returns (wait: bool)
      requires q in queues
      modifies this`queues
      ensures Now() == Drain(old(Now()), q, plug)
      ensures old(Inv(Now()) && Allowed(Now(), DrainOp(q, plug))) ==> Inv(Now())
      ensures wait <==> queues[q].draining
    {
      if Inv(Now()) && Allowed(Now(), DrainOp(q, plug)) {
        StepKeepsInv(Now(), DrainOp(q, plug));
      }
      var w := queues[q];
      wait := w.pc != Idle || w.draining || plug || w.pending != [];
      if wait {
        w := w.(draining := true);
        if plug {
          w := w.(plugged := true);
        }
      }
      queues := queues[q := w];
    }

    method UnplugQueue(q: nat) returns (wasPlugged: bool)
      requires q in queues
      modifies this`queues
      ensures Now() == Unplug(old(Now()), q) && (wasPlugged <==> old(queues)[q].plugged)
      ensures queues[q].started && !queues[q].draining ==> Accepts(queues[q], false)
      ensures old(Inv(Now()) && Allowed(Now(), UnplugOp(q))) ==> Inv(Now())
    {
      if Inv(Now()) && Allowed(Now(), UnplugOp(q)) {
        StepKeepsInv(Now(), UnplugOp(q));
      }
      wasPlugged := queues[q].plugged;
      queues := queues[q := queues[q].(plugged := false)];
    }
  }
}
