/** The dependency graph between the devices of an application, induced from the
    devicetree's graph by forwarding dependencies through nodes without a device. */
module DeviceHandles {

  /** Nodes are numbered so that each depends only on lower numbers; 0 is the root. */
  predicate Ordered(g: map<nat, set<nat>>) {
    forall n :: n in g ==> forall d :: d in g[n] ==> d in g && d < n
  }

  const ROOT: nat := 0

  /** A chain of dependencies from the first node to the last. */
  predicate Chain(g: map<nat, set<nat>>, p: seq<nat>) {
    && |p| >= 1 && (forall i :: 0 <= i < |p| ==> p[i] in g)
    && (forall i :: 0 <= i < |p| - 1 ==> p[i + 1] in g[p[i]])
  }

  /** ... that only its last node, which is used, brings to a device. */
  predicate Leads(g: map<nat, set<nat>>, used: set<nat>, p: seq<nat>) {
    && Chain(g, p) && p[|p| - 1] in used
    && (forall i :: 0 <= i < |p| - 1 ==> p[i] !in used && p[i] != ROOT)
  }

  ghost predicate Reaches(g: map<nat, set<nat>>, used: set<nat>, x: nat, n: nat) {
    exists p :: Leads(g, used, p) && p[0] == x && p[|p| - 1] == n
  }

  /** The used nodes that x stands for. */
  ghost function Targets(g: map<nat, set<nat>>, used: set<nat>, x: nat): set<nat>
    requires Ordered(g) && x in g
    decreases x
  {
    if x in used then {x}
    else if x == ROOT then {}
    else set d, n | d in g[x] && n in Targets(g, used, d) :: n
  }

  lemma {:induction false} TargetsReached(g: map<nat, set<nat>>, used: set<nat>, x: nat, n: nat)
    requires Ordered(g) && x in g && n in Targets(g, used, x)
    ensures Reaches(g, used, x, n)
    decreases x
  {
    if x in used {
      assert Leads(g, used, [x]) && [x][0] == x;
    } else {
      var d :| d in g[x] && n in Targets(g, used, d);
      TargetsReached(g, used, d, n);
      var p :| Leads(g, used, p) && p[0] == d && p[|p| - 1] == n;
      var q := [x] + p;
      assert forall i :: 0 < i < |q| ==> q[i] == p[i - 1];
      assert Leads(g, used, q) && q[0] == x && q[|q| - 1] == n;
    }
  }

  lemma {:induction false} ReachedTargets(g: map<nat, set<nat>>, used: set<nat>, p: seq<nat>)
    requires Ordered(g) && Leads(g, used, p)
    ensures p[|p| - 1] in Targets(g, used, p[0])
    decreases |p|
  {
    if |p| > 1 {
      var q := p[1..];
      assert forall i :: 0 <= i < |q| ==> q[i] == p[i + 1];
      ReachedTargets(g, used, q);
      assert p[1] in g[p[0]] && p[|p| - 1] in Targets(g, used, p[1]);
    }
  }

  ghost function AllTargets(g: map<nat, set<nat>>, used: set<nat>, work: set<nat>): set<nat>
    requires Ordered(g) && work <= g.Keys
  {
    set x, n | x in work && n in Targets(g, used, x) :: n
  }

  // ---------------------------------------------------------------- termination

  function Power(n: nat): nat {
    if n == 0 then 1 else 2 * Power(n - 1)
  }

  /** The set read as a binary number. */
  ghost function Weight(work: set<nat>, bound: nat): (w: nat)
    ensures w < Power(bound)
  {
    if bound == 0 then 0 else Weight(work, bound - 1) + (if bound - 1 in work then Power(bound - 1) else 0)
  }

  /** Replacing a node by any lower ones makes the number smaller. */
  lemma {:induction false} Lighter(work: set<nat>, more: set<nat>, n: nat, bound: nat)
    requires n in work && n < bound && forall d :: d in more ==> d < n
    ensures Weight(work - {n} + more, bound) < Weight(work, bound)
  {
    if n + 1 < bound {
      Lighter(work, more, n, bound - 1);
    }
  }

  ghost function Bound(g: map<nat, set<nat>>): (b: nat)
    ensures forall n :: n in g ==> n < b
  {
    Largest(g.Keys) + 1
  }

  ghost function Largest(s: set<nat>): (m: nat)
    ensures forall n :: n in s ==> n <= m
  {
    if s == {} then 0
    else
      var x :| x in s;
      var rest := Largest(s - {x});
      assert forall n :: n in s ==> n == x || n in s - {x};
      if x > rest then x else rest
  }

  // ------------------------------------------------------------------- worklist

  /** Whatever the order in which nodes are popped, the worklist ends, with exactly
      the used nodes that the start depends on through nodes without a device. */
  method Induce(g: map<nat, set<nat>>, used: set<nat>, start: nat) returns (depends: set<nat>)
    requires Ordered(g) && ROOT !in used && start in g
    ensures forall n :: n in depends <==> exists d :: d in g[start] && Reaches(g, used, d, n)
  {
    depends := {};
    var work := g[start];
    ghost var b := Bound(g);
    while work != {}
      invariant work <= g.Keys && g[start] <= g.Keys
      invariant depends + AllTargets(g, used, work) == AllTargets(g, used, g[start])
      decreases Weight(work, b)
    {
      ghost var before := work;
      var dn :| dn in work;
      work := work - {dn};
      Lighter(before, {}, dn, b);
      assert work + {} == work;
      if dn in used {
        depends := depends + {dn};
        TakeUsed(g, used, before, dn);
      } else if dn != ROOT {
        Lighter(before, g[dn], dn, b);
        Forward(g, used, before, dn);
        work := work + g[dn];
      } else {
        TakeRoot(g, used, before);
      }
    }
    assert depends == AllTargets(g, used, g[start]);
    forall n ensures n in depends <==> exists d :: d in g[start] && Reaches(g, used, d, n) {
      Equivalent(g, used, start, n);
    }
  }

  lemma Equivalent(g: map<nat, set<nat>>, used: set<nat>, start: nat, n: nat)
    requires Ordered(g) && start in g
    ensures g[start] <= g.Keys
    ensures n in AllTargets(g, used, g[start]) <==> exists d :: d in g[start] && Reaches(g, used, d, n)
  {
    assert g[start] <= g.Keys;
    if n in AllTargets(g, used, g[start]) {
      var d :| d in g[start] && n in Targets(g, used, d);
      TargetsReached(g, used, d, n);
    }
    if d :| d in g[start] && Reaches(g, used, d, n) {
      var p :| Leads(g, used, p) && p[0] == d && p[|p| - 1] == n;
      ReachedTargets(g, used, p);
    }
  }

  lemma TakeUsed(g: map<nat, set<nat>>, used: set<nat>, work: set<nat>, dn: nat)
    requires Ordered(g) && work <= g.Keys && dn in work && dn in used
    ensures AllTargets(g, used, work) == AllTargets(g, used, work - {dn}) + {dn}
  {
    assert Targets(g, used, dn) == {dn};
    assert work == (work - {dn}) + {dn};
  }

  lemma TakeRoot(g: map<nat, set<nat>>, used: set<nat>, work: set<nat>)
    requires Ordered(g) && work <= g.Keys && ROOT in work && ROOT !in used
    ensures AllTargets(g, used, work) == AllTargets(g, used, work - {ROOT})
  {
    assert Targets(g, used, ROOT) == {};
  }

  lemma Forward(g: map<nat, set<nat>>, used: set<nat>, work: set<nat>, dn: nat)
    requires Ordered(g) && work <= g.Keys && dn in work && dn !in used && dn != ROOT
    ensures g[dn] <= g.Keys && work - {dn} + g[dn] <= g.Keys
    ensures AllTargets(g, used, work) == AllTargets(g, used, work - {dn} + g[dn])
  {
    assert g[dn] <= g.Keys;
    assert Targets(g, used, dn) == AllTargets(g, used, g[dn]);
    var rest := work - {dn};
    assert AllTargets(g, used, work) == AllTargets(g, used, rest) + Targets(g, used, dn);
    assert AllTargets(g, used, rest + g[dn]) == AllTargets(g, used, rest) + AllTargets(g, used, g[dn]);
  }

  /** The whole induced graph: one worklist for each used node. */
  method InduceAll(g: map<nat, set<nat>>, used: set<nat>) returns (induced: map<nat, set<nat>>)
    requires Ordered(g) && ROOT !in used && used <= g.Keys
    ensures induced.Keys == used
    ensures forall s, n :: s in used ==> (n in induced[s] <==> exists d :: d in g[s] && Reaches(g, used, d, n))
  {
    induced := map[];
    var todo := used;
    while todo != {}
      invariant todo <= used && induced.Keys == used - todo
      invariant forall s, n :: s in induced ==> (n in induced[s] <==> exists d :: d in g[s] && Reaches(g, used, d, n))
      decreases |todo|
    {
      var sn :| sn in todo;
      var depends := Induce(g, used, sn);
      induced := induced[sn := depends];
      todo := todo - {sn};
    }
  }
}
