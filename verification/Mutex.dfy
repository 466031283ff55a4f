/** A mutex with priority inheritance, over all interleavings of locking, unlocking,
    waits that time out and the return of the threads whose wait did. */
module Mutex {
  import opened Common
  import opened Errno
  import opened PriorityOrder

  /** `prio` is what each thread runs at now.  `late` holds the threads whose wait has
      timed out and that have not run since. */
  datatype State = State(owner: Option<nat>, count: nat, orig: int, prio: map<nat, int>,
                         waiters: seq<nat>, late: set<nat>)

  function Capped(prio: int, ceiling: int): int {
    if prio >= ceiling then prio else ceiling
  }

  /** The better of two priorities, but no better than the ceiling. */
  function Inherit(target: int, limit: int, ceiling: int): int {
    Capped(Min(target, limit), ceiling)
  }

  function Prios(prio: map<nat, int>, list: seq<nat>): (r: seq<int>)
    ensures |r| == |list| && forall i :: 0 <= i < |list| ==> r[i] == if list[i] in prio then prio[list[i]] else 0
  {
    seq(|list|, i requires 0 <= i < |list| => if list[i] in prio then prio[list[i]] else 0)
  }

  predicate Known(s: State) {
    && (s.owner.Some? ==> s.owner.value in s.prio)
    && (forall i :: 0 <= i < |s.waiters| ==> s.waiters[i] in s.prio)
  }

  // ---------------------------------------------------------------------- steps

  /** Code zero means the caller has the mutex; `None` that it now waits. */
  function Lock(s: State, t: nat, wait: bool, ceiling: int): (State, Option<int>)
    requires t in s.prio && Known(s)
  {
    if s.count == 0 || s.owner == Some(t) || s.owner == None then
      (s.(owner := Some(t), count := s.count + 1, orig := if s.count == 0 then s.prio[t] else s.orig), Some(0))
    else if !wait then (s, Some(EBUSY))
    else (Joined(s, t, ceiling), None)
  }

  /** The caller waits, and lends the owner its priority. */
  function Joined(s: State, t: nat, ceiling: int): State
    requires t in s.prio && Known(s) && s.owner.Some?
  {
    var o := s.owner.value;
    var boost := Inherit(s.prio[t], s.prio[o], ceiling);
    s.(prio := if boost < s.prio[o] then s.prio[o := boost] else s.prio,
       waiters := InsertAt(s.waiters, Slot(Prios(s.prio, s.waiters), s.prio[t]), t))
  }

  function TimeOut(s: State, t: nat): State {
    s.(waiters := Without(s.waiters, t), late := s.late + {t})
  }

  /** A thread whose wait timed out runs again and takes back what it lent the owner.
      It looks at the owner without asking whether there is one: `None` stands for
      what follows when there is not. */
  function Resume(s: State, t: nat, ceiling: int): Option<State>
    requires Known(s)
  {
    if s.owner == None then None
    else
      var back := if s.waiters == [] then s.orig else Inherit(s.prio[s.waiters[0]], s.orig, ceiling);
      Some(s.(prio := s.prio[s.owner.value := back], late := s.late - {t}))
  }

  function Unlock(s: State, t: nat): (State, int)
    requires Known(s)
  {
    if s.owner == None then (s, EINVAL)
    else if s.owner != Some(t) then (s, EPERM)
    else if s.count != 1 then (s.(count := if s.count == 0 then 0 else s.count - 1), 0)
    else
      var prio := s.prio[t := s.orig];
      if s.waiters == [] then (s.(owner := None, count := 0, prio := prio), 0)
      else (s.(owner := Some(s.waiters[0]), orig := prio[s.waiters[0]], prio := prio, waiters := s.waiters[1..]), 0)
  }

  // ----------------------------------------------------------- what always holds

  /** Locked exactly when owned; every thread but the owner runs at its own priority;
      the waiters are distinct, in priority order, and neither own nor are late. */
  ghost predicate Shape(s: State, own: map<nat, int>) {
    && s.prio.Keys == own.Keys && Known(s)
    && (s.count == 0 <==> s.owner == None)
    && (s.owner == None ==> s.waiters == [])
    && (s.owner.Some? ==> s.orig == own[s.owner.value] && s.owner.value !in s.late)
    && OwnPrios(s, own) && Queue(s.waiters, own) && Apart(s)
  }

  ghost predicate OwnPrios(s: State, own: map<nat, int>) {
    forall t :: t in own && t in s.prio && s.owner != Some(t) ==> s.prio[t] == own[t]
  }

  ghost predicate Queue(list: seq<nat>, own: map<nat, int>) {
    NoDup(list) && Ascending(Prios(own, list)) && forall i :: 0 <= i < |list| ==> list[i] in own
  }

  ghost predicate Apart(s: State) {
    forall i :: 0 <= i < |s.waiters| ==> s.owner != Some(s.waiters[i]) && s.waiters[i] !in s.late
  }

  lemma JoinPrios(own: map<nat, int>, list: seq<nat>, k: nat, t: nat)
    requires t in own && k <= |list|
    ensures Prios(own, InsertAt(list, k, t)) == InsertAt(Prios(own, list), k, own[t])
  {
  }

  lemma JoinMembers(list: seq<nat>, k: nat, t: nat)
    requires k <= |list|
    ensures forall i :: 0 <= i <= |list| ==> InsertAt(list, k, t)[i] == t || InsertAt(list, k, t)[i] in list
  {
  }

  /** A newcomer takes its place, and the head is the better of it and the old head. */
  lemma JoinQueue(own: map<nat, int>, list: seq<nat>, t: nat)
    requires t in own && t !in list && Queue(list, own)
    ensures var r := InsertAt(list, Slot(Prios(own, list), own[t]), t);
            Queue(r, own) && own[r[0]] == if list == [] then own[t] else Min(own[t], own[list[0]])
  {
    var k := Slot(Prios(own, list), own[t]);
    InsertKeepsNoDup(list, k, t);
    InsertKeepsAscending(Prios(own, list), own[t]);
    JoinPrios(own, list, k, t);
    JoinMembers(list, k, t);
    if list != [] {
      assert Prios(own, list)[0] == own[list[0]];
    }
  }

  lemma PriosGap(own: map<nat, int>, list: seq<nat>, k: nat)
    requires k < |list|
    ensures Prios(own, list[..k] + list[k + 1..]) == Prios(own, list)[..k] + Prios(own, list)[k + 1..]
  {
  }

  /** Whoever leaves, the order stays and the best of the rest is no better. */
  lemma LeaveAt(own: map<nat, int>, list: seq<nat>, k: nat)
    requires k < |list| && Queue(list, own)
    ensures var r := list[..k] + list[k + 1..];
            Queue(r, own) && (r != [] ==> own[list[0]] <= own[r[0]])
  {
    GapNoDup(list, k);
    PriosGap(own, list, k);
    GapAscending(Prios(own, list), k);
    if |list| > 1 {
      assert Prios(own, list)[0] <= Prios(own, list)[1];
    }
  }

  lemma LeaveQueue(own: map<nat, int>, list: seq<nat>, t: nat)
    requires t in list && Queue(list, own)
    ensures var r := Without(list, t);
            Queue(r, own) && (r != [] ==> own[list[0]] <= own[r[0]])
  {
    var k :| 0 <= k < |list| && list[k] == t;
    WithoutAt(list, k);
    LeaveAt(own, list, k);
  }

  lemma TailQueue(own: map<nat, int>, list: seq<nat>)
    requires list != [] && Queue(list, own)
    ensures Queue(list[1..], own) && (|list| > 1 ==> own[list[0]] <= own[list[1]])
    ensures forall i :: 0 <= i < |list[1..]| ==> list[1..][i] != list[0] && list[1..][i] == list[i + 1]
  {
    LeaveAt(own, list, 0);
    assert list[..0] + list[1..] == list[1..];
  }

  lemma HeadIsBest(own: map<nat, int>, list: seq<nat>)
    requires Queue(list, own)
    ensures forall i :: 0 <= i < |list| ==> own[list[0]] <= own[list[i]]
  {
    forall i | 0 <= i < |list| ensures own[list[0]] <= own[list[i]] {
      assert Prios(own, list)[0] <= Prios(own, list)[i];
    }
  }

  lemma WaiterPrios(s: State, own: map<nat, int>)
    requires Shape(s, own)
    ensures Prios(s.prio, s.waiters) == Prios(own, s.waiters)
  {
  }

  lemma JoinApart(s: State, k: nat, t: nat)
    requires Apart(s) && k <= |s.waiters| && s.owner != Some(t) && t !in s.late
    ensures forall u :: u in InsertAt(s.waiters, k, t) ==> s.owner != Some(u) && u !in s.late
  {
    forall u | u in InsertAt(s.waiters, k, t) ensures s.owner != Some(u) && u !in s.late {
      assert u == t || u in s.waiters;
    }
  }

  lemma JoinKeepsShape(s: State, own: map<nat, int>, t: nat, ceiling: int)
    requires Shape(s, own) && t in own && t !in s.waiters && t !in s.late && s.owner.Some? && s.owner != Some(t)
    ensures Shape(Joined(s, t, ceiling), own)
  {
    var r, k := Joined(s, t, ceiling), Slot(Prios(own, s.waiters), own[t]);
    assert r.prio.Keys == own.Keys && OwnPrios(r, own);
    assert r.waiters == InsertAt(s.waiters, k, t) by {
      WaiterPrios(s, own);
    }
    assert Queue(r.waiters, own) by {
      JoinQueue(own, s.waiters, t);
    }
    assert Apart(r) by {
      JoinApart(s, k, t);
    }
  }

  lemma LockKeepsShape(s: State, own: map<nat, int>, t: nat, wait: bool, ceiling: int)
    requires Shape(s, own) && t in own && t !in s.waiters && t !in s.late
    ensures Shape(Lock(s, t, wait, ceiling).0, own)
  {
    if s.count != 0 && s.owner != Some(t) && wait {
      JoinKeepsShape(s, own, t, ceiling);
    }
  }

  lemma TimeOutKeepsShape(s: State, own: map<nat, int>, t: nat)
    requires Shape(s, own) && t in s.waiters
    ensures Shape(TimeOut(s, t), own)
  {
    var r := TimeOut(s, t);
    LeaveQueue(own, s.waiters, t);
    forall i | 0 <= i < |r.waiters| ensures r.waiters[i] in s.waiters && r.waiters[i] != t {
      assert r.waiters[i] in r.waiters;
    }
  }

  lemma ResumeKeepsShape(s: State, own: map<nat, int>, t: nat, ceiling: int)
    requires Shape(s, own)
    ensures Resume(s, t, ceiling).Some? <==> s.owner.Some?
    ensures s.owner.Some? ==> Shape(Resume(s, t, ceiling).value, own)
  {
  }

  lemma PassOn(s: State, own: map<nat, int>, t: nat)
    requires Shape(s, own) && s.owner == Some(t) && s.count == 1 && s.waiters != []
    ensures Shape(Unlock(s, t).0, own)
  {
    TailQueue(own, s.waiters);
    var prio := s.prio[t := s.orig];
    assert prio.Keys == own.Keys;
    assert forall u :: u in own ==> prio[u] == own[u];
    var r := State(Some(s.waiters[0]), 1, own[s.waiters[0]], prio, s.waiters[1..], s.late);
    assert Unlock(s, t).0 == r;
    assert Apart(r) && OwnPrios(r, own);
  }

  lemma UnlockKeepsShape(s: State, own: map<nat, int>, t: nat)
    requires Shape(s, own)
    ensures Shape(Unlock(s, t).0, own)
  {
    if s.owner == Some(t) && s.count == 1 && s.waiters != [] {
      PassOn(s, own, t);
    }
  }

  // --------------------------------------------------------- the owner's priority

  /** The better of the owner's own priority and what the best waiter can lend. */
  function Fair(s: State, own: map<nat, int>, ceiling: int): int
    requires s.owner.Some? && s.owner.value in own
  {
    if s.waiters != [] && s.waiters[0] in own then Min(own[s.owner.value], Capped(own[s.waiters[0]], ceiling))
    else own[s.owner.value]
  }

  /** The owner runs no lower than is fair, and exactly there when no timed-out thread
      is still to run. */
  ghost predicate Boosted(s: State, own: map<nat, int>, ceiling: int) {
    s.owner.Some? && s.owner.value in own && s.owner.value in s.prio ==>
      s.prio[s.owner.value] <= Fair(s, own, ceiling) &&
      (s.late == {} ==> s.prio[s.owner.value] == Fair(s, own, ceiling))
  }

  ghost predicate Inv(s: State, own: map<nat, int>, ceiling: int) {
    Shape(s, own) && Boosted(s, own, ceiling)
  }

  /** Hence it runs at least as high as every waiter can make it. */
  lemma OwnerKeepsUp(s: State, own: map<nat, int>, ceiling: int)
    requires Inv(s, own, ceiling) && s.owner.Some?
    ensures forall i :: 0 <= i < |s.waiters| ==> s.prio[s.owner.value] <= Capped(own[s.waiters[i]], ceiling)
  {
    HeadIsBest(own, s.waiters);
  }

  lemma LockKeepsInv(s: State, own: map<nat, int>, t: nat, wait: bool, ceiling: int)
    requires Inv(s, own, ceiling) && t in own && t !in s.waiters && t !in s.late
    ensures Inv(Lock(s, t, wait, ceiling).0, own, ceiling)
  {
    LockKeepsShape(s, own, t, wait, ceiling);
    var (r, code) := Lock(s, t, wait, ceiling);
    if code == None {
      WaiterPrios(s, own);
      JoinQueue(own, s.waiters, t);
    }
  }

  lemma TimeOutKeepsInv(s: State, own: map<nat, int>, t: nat, ceiling: int)
    requires Inv(s, own, ceiling) && t in s.waiters
    ensures Inv(TimeOut(s, t), own, ceiling)
  {
    TimeOutKeepsShape(s, own, t);
    LeaveQueue(own, s.waiters, t);
  }

  /** A returning thread leaves the owner at the fair priority exactly when nobody else
      waits or the owner's own priority is not above the ceiling; otherwise the owner
      ends up below its own priority. */
  lemma ResumeIsFair(s: State, own: map<nat, int>, t: nat, ceiling: int)
    requires Shape(s, own) && s.owner.Some?
    ensures var r := Resume(s, t, ceiling).value;
            (Inv(r, own, ceiling) <==> s.waiters == [] || s.orig >= ceiling) &&
            (Inv(r, own, ceiling) ==> r.prio[s.owner.value] == Fair(r, own, ceiling)) &&
            (!Inv(r, own, ceiling) ==> r.prio[s.owner.value] > own[s.owner.value])
  {
    ResumeKeepsShape(s, own, t, ceiling);
  }

  lemma UnlockKeepsInv(s: State, own: map<nat, int>, t: nat, ceiling: int)
    requires Inv(s, own, ceiling)
    ensures Inv(Unlock(s, t).0, own, ceiling)
  {
    UnlockKeepsShape(s, own, t);
    if s.owner == Some(t) && s.count == 1 && s.waiters != [] {
      TailQueue(own, s.waiters);
    }
  }

  /** The last unlock gives the owner its own priority back and hands the mutex to a
      waiter that no other waiter beats, at that waiter's own priority. */
  lemma HandOver(s: State, own: map<nat, int>, t: nat)
    requires Shape(s, own) && s.owner == Some(t) && s.count == 1
    ensures var (r, code) := Unlock(s, t);
            code == 0 && r.prio[t] == own[t] &&
            (s.waiters == [] ==> r.owner == None && r.count == 0) &&
            (s.waiters != [] ==>
               r.owner == Some(s.waiters[0]) && r.count == 1 && r.waiters == s.waiters[1..] &&
               r.prio[s.waiters[0]] == own[s.waiters[0]] &&
               forall i :: 0 <= i < |s.waiters| ==> own[s.waiters[0]] <= own[s.waiters[i]])
  {
    HeadIsBest(own, s.waiters);
  }

  // ----------------------------------------------------------------------- runs

  datatype Op = LockOp(t: nat, wait: bool) | TimeOutOp(t: nat) | ResumeOp(t: nat) | UnlockOp(t: nat)

  /** Threads that wait or have not run since make no calls; only they time out and
      resume. */
  predicate Allowed(s: State, op: Op) {
    Known(s) &&
    match op
    case LockOp(t, _) => t in s.prio && t !in s.waiters && t !in s.late
    case TimeOutOp(t) => t in s.waiters
    case ResumeOp(t) => t in s.late
    case UnlockOp(t) => t in s.prio && t !in s.waiters && t !in s.late
  }

  function Step(s: State, op: Op, ceiling: int): Option<State>
    requires Allowed(s, op)
  {
    match op
    case LockOp(t, wait) => Some(Lock(s, t, wait, ceiling).0)
    case TimeOutOp(t) => Some(TimeOut(s, t))
    case ResumeOp(t) => Resume(s, t, ceiling)
    case UnlockOp(t) => Some(Unlock(s, t).0)
  }

  /** The state after a run, if every resuming thread found an owner; calls that the
      rules forbid are not made. */
  function Run(s: State, ops: seq<Op>, ceiling: int): Option<State>
    decreases |ops|
  {
    if ops == [] then Some(s)
    else if !Allowed(s, ops[0]) then Run(s, ops[1..], ceiling)
    else
      match Step(s, ops[0], ceiling)
      case None => None
      case Some(r) => Run(r, ops[1..], ceiling)
  }

  lemma StepKeepsShape(s: State, op: Op, ceiling: int, own: map<nat, int>)
    requires Shape(s, own) && Allowed(s, op)
    ensures Step(s, op, ceiling).Some? ==> Shape(Step(s, op, ceiling).value, own)
  {
    match op
    case LockOp(t, wait) => LockKeepsShape(s, own, t, wait, ceiling);
    case TimeOutOp(t) => TimeOutKeepsShape(s, own, t);
    case ResumeOp(t) => ResumeKeepsShape(s, own, t, ceiling);
    case UnlockOp(t) => UnlockKeepsShape(s, own, t);
  }

  /** Over every run, without any condition. */
  lemma {:induction false} RunKeepsShape(s: State, ops: seq<Op>, ceiling: int, own: map<nat, int>)
    requires Shape(s, own)
    ensures Run(s, ops, ceiling).Some? ==> Shape(Run(s, ops, ceiling).value, own)
    decreases |ops|
  {
    if ops != [] {
      if !Allowed(s, ops[0]) {
        RunKeepsShape(s, ops[1..], ceiling, own);
      } else {
        StepKeepsShape(s, ops[0], ceiling, own);
        var r := Step(s, ops[0], ceiling);
        if r.Some? {
          RunKeepsShape(r.value, ops[1..], ceiling, own);
        }
      }
    }
  }

  /** A thread that resumes leaves nobody waiting, or finds an owner whose own priority
      is not above the ceiling. */
  predicate Lendable(s: State, op: Op, ceiling: int) {
    op.ResumeOp? ==> s.waiters == [] || s.orig >= ceiling
  }

  predicate AllLendable(s: State, ops: seq<Op>, ceiling: int)
    decreases |ops|
  {
    if ops == [] then true
    else if !Allowed(s, ops[0]) then AllLendable(s, ops[1..], ceiling)
    else
      Lendable(s, ops[0], ceiling) &&
      match Step(s, ops[0], ceiling)
      case None => true
      case Some(r) => AllLendable(r, ops[1..], ceiling)
  }

  lemma StepKeepsInv(s: State, op: Op, ceiling: int, own: map<nat, int>)
    requires Inv(s, own, ceiling) && Allowed(s, op) && Lendable(s, op, ceiling)
    ensures Step(s, op, ceiling).Some? ==> Inv(Step(s, op, ceiling).value, own, ceiling)
  {
    match op
    case LockOp(t, wait) => LockKeepsInv(s, own, t, wait, ceiling);
    case TimeOutOp(t) => TimeOutKeepsInv(s, own, t, ceiling);
    case ResumeOp(t) => if s.owner.Some? { ResumeIsFair(s, own, t, ceiling); }
    case UnlockOp(t) => UnlockKeepsInv(s, own, t, ceiling);
  }

  /** Over every run in which what is lent can be taken back: the owner runs as high as
      its waiters can make it, and exactly at the better of its own and the best lent
      priority when no timed-out thread is still to run. */
  lemma {:induction false} RunKeepsInv(s: State, ops: seq<Op>, ceiling: int, own: map<nat, int>)
    requires Inv(s, own, ceiling) && AllLendable(s, ops, ceiling)
    ensures Run(s, ops, ceiling).Some? ==> Inv(Run(s, ops, ceiling).value, own, ceiling)
    decreases |ops|
  {
    if ops != [] {
      if !Allowed(s, ops[0]) {
        RunKeepsInv(s, ops[1..], ceiling, own);
      } else {
        StepKeepsInv(s, ops[0], ceiling, own);
        var r := Step(s, ops[0], ceiling);
        if r.Some? {
          RunKeepsInv(r.value, ops[1..], ceiling, own);
        }
      }
    }
  }

  /** Nobody has locked the mutex yet. */
  function Free(own: map<nat, int>, orig: int): State {
    State(None, 0, orig, own, [], {})
  }

  lemma FreeInv(own: map<nat, int>, orig: int, ceiling: int)
    ensures Inv(Free(own, orig), own, ceiling)
  {
  }

  // ------------------------------------------------------ when the owner is missing

  /** A timed-out thread that runs now finds no owner. */
  predicate Hazard(s: State) {
    s.late != {} && s.owner == None
  }

  /** The last unlock, with nobody waiting to take over, while a thread whose wait
      timed out has not run. */
  predicate LeavesLate(s: State, op: Op) {
    op.UnlockOp? && s.owner == Some(op.t) && s.count == 1 && s.waiters == [] && s.late != {}
  }

  /** One kind of step leads there, and no other. */
  lemma HazardArises(s: State, op: Op, ceiling: int, own: map<nat, int>)
    requires Shape(s, own) && Allowed(s, op) && !Hazard(s)
    ensures Step(s, op, ceiling).Some?
    ensures Hazard(Step(s, op, ceiling).value) <==> LeavesLate(s, op)
  {
  }

  predicate NoneLeavesLate(s: State, ops: seq<Op>, ceiling: int)
    decreases |ops|
  {
    if ops == [] then true
    else if !Allowed(s, ops[0]) then NoneLeavesLate(s, ops[1..], ceiling)
    else
      !LeavesLate(s, ops[0]) &&
      match Step(s, ops[0], ceiling)
      case None => true
      case Some(r) => NoneLeavesLate(r, ops[1..], ceiling)
  }

  /** In every run without such an unlock, every thread that resumes finds an owner. */
  lemma {:induction false} OwnerIsThere(s: State, ops: seq<Op>, ceiling: int, own: map<nat, int>)
    requires Shape(s, own) && !Hazard(s) && NoneLeavesLate(s, ops, ceiling)
    ensures Run(s, ops, ceiling).Some? && !Hazard(Run(s, ops, ceiling).value)
    decreases |ops|
  {
    if ops != [] {
      if !Allowed(s, ops[0]) {
        OwnerIsThere(s, ops[1..], ceiling, own);
      } else {
        HazardArises(s, ops[0], ceiling, own);
        StepKeepsShape(s, ops[0], ceiling, own);
        OwnerIsThere(Step(s, ops[0], ceiling).value, ops[1..], ceiling, own);
      }
    }
  }

  /** All of this for a mutex that nobody has locked yet. */
  lemma FreeRuns(own: map<nat, int>, orig: int, ops: seq<Op>, ceiling: int)
    ensures var s := Free(own, orig);
            var r := Run(s, ops, ceiling);
            && (r.Some? ==> Shape(r.value, own))
            && (r.Some? && AllLendable(s, ops, ceiling) ==> Inv(r.value, own, ceiling))
            && (NoneLeavesLate(s, ops, ceiling) ==> r.Some? && !Hazard(r.value))
  {
    var s := Free(own, orig);
    FreeInv(own, orig, ceiling);
    RunKeepsShape(s, ops, ceiling, own);
    if AllLendable(s, ops, ceiling) {
      RunKeepsInv(s, ops, ceiling, own);
    }
    if NoneLeavesLate(s, ops, ceiling) {
      OwnerIsThere(s, ops, ceiling, own);
    }
  }

  /** Such an unlock, and no other step, can be followed at once by a thread that finds
      no owner. */
  lemma OwnerMissing(s: State, op: Op, ceiling: int, own: map<nat, int>)
    requires Shape(s, own) && Allowed(s, op) && !Hazard(s)
    ensures LeavesLate(s, op) <==> exists u :: Allowed(Step(s, op, ceiling).value, ResumeOp(u)) &&
                                     Run(s, [op, ResumeOp(u)], ceiling) == None
  {
    HazardArises(s, op, ceiling, own);
    StepKeepsShape(s, op, ceiling, own);
    var r := Step(s, op, ceiling).value;
    forall u ensures Allowed(r, ResumeOp(u)) ==>
      Run(s, [op, ResumeOp(u)], ceiling) == (match Resume(r, u, ceiling) case None => None case Some(x) => Some(x))
    {
      assert [op, ResumeOp(u)][1..] == [ResumeOp(u)] && [ResumeOp(u)][1..] == [];
      assert Run(s, [op, ResumeOp(u)], ceiling) == Run(r, [ResumeOp(u)], ceiling);
    }
    if LeavesLate(s, op) {
      var u :| u in s.late;
      assert Allowed(r, ResumeOp(u)) && Run(s, [op, ResumeOp(u)], ceiling) == None;
    }
  }

  /** One such run: a thread waits and times out, the owner unlocks, the thread runs. */
  lemma OwnerGone()
    ensures var s := State(None, 0, 0, map[0 := 5, 1 := 3], [], {});
            Run(s, [LockOp(0, true), LockOp(1, true), TimeOutOp(1), UnlockOp(0), ResumeOp(1)], 0) == None
  {
    var s := State(None, 0, 0, map[0 := 5, 1 := 3], [], {});
    var ops := [LockOp(0, true), LockOp(1, true), TimeOutOp(1), UnlockOp(0), ResumeOp(1)];
    var a := Lock(s, 0, true, 0).0;
    var b := Joined(a, 1, 0);
    assert Prios(a.prio, []) == [] && b.waiters == [1] && b.owner == Some(0) && b.count == 1;
    var c := TimeOut(b, 1);
    assert c.waiters == [] && c.late == {1};
    var d := Unlock(c, 0).0;
    assert d.owner == None && d.late == {1};
    RunNext(d, ops, 4);
    RunNext(c, ops, 3);
    RunNext(b, ops, 2);
    RunNext(a, ops, 1);
    RunNext(s, ops, 0);
    assert ops[0..] == ops;
  }

  lemma RunNext(s: State, ops: seq<Op>, k: nat)
    requires k < |ops| && Allowed(s, ops[k])
    ensures Run(s, ops[k..], 0) ==
      (match Step(s, ops[k], 0) case None => None case Some(r) => Run(r, ops[k + 1..], 0))
  {
    assert ops[k..][1..] == ops[k + 1..];
  }

  // -------------------------------------------------------- what the callers see

  /** Locking is granted exactly to a free mutex's caller and to its owner, refused with
      -EBUSY exactly when another owns it and waiting is not wanted, and otherwise makes
      the caller a waiter. */
  lemma LockAnswers(s: State, own: map<nat, int>, t: nat, wait: bool, ceiling: int)
    requires Shape(s, own) && t in own && t !in s.waiters && t !in s.late
    ensures var (r, code) := Lock(s, t, wait, ceiling);
            && (code == Some(0) <==> s.owner == None || s.owner == Some(t))
            && (code == Some(-16) <==> s.owner.Some? && s.owner != Some(t) && !wait)
            && (code == None <==> s.owner.Some? && s.owner != Some(t) && wait)
            && (code == Some(0) <==> r.owner == Some(t)) && (code == None <==> t in r.waiters)
            && (code == Some(0) ==> r.count == s.count + 1 && r.waiters == s.waiters && r.prio == s.prio && r.late == s.late)
            && (code == Some(-16) ==> r == s)
            && (code == None ==> r.owner == s.owner && r.count == s.count && r.orig == s.orig && r.late == s.late &&
                                 Joins(s.waiters, Prios(own, s.waiters), t, own[t], r.waiters))
  {
    if s.owner.Some? && s.owner != Some(t) && wait {
      WaiterPrios(s, own);
      SlotJoins(s.waiters, Prios(own, s.waiters), t, own[t]);
    }
  }

  /** Unlocking succeeds exactly for the owner, who then has one lock fewer; nobody else
      changes anything. */
  lemma UnlockAnswers(s: State, own: map<nat, int>, t: nat)
    requires Shape(s, own)
    ensures var (r, code) := Unlock(s, t);
            && (code == 0 <==> s.owner == Some(t))
            && (code == -22 <==> s.owner == None)
            && (code == -1 <==> s.owner.Some? && s.owner != Some(t))
            && (code != 0 ==> r == s)
            && (code == 0 && s.count > 1 ==> r == s.(count := s.count - 1))
            && (code == 0 && s.count == 1 ==> r.owner != Some(t) && r.late == s.late)
  {
  }

  /** A wait that times out takes the thread off the queue; running again it changes
      nobody's priority but the owner's, and then is late no more. */
  lemma LateAnswers(s: State, own: map<nat, int>, t: nat, ceiling: int)
    requires Shape(s, own)
    ensures t in s.waiters ==>
            var r := TimeOut(s, t);
            t !in r.waiters && t in r.late && r == s.(waiters := Without(s.waiters, t), late := s.late + {t})
    ensures s.owner.Some? ==>
            var r := Resume(s, t, ceiling).value;
            && r.owner == s.owner && r.count == s.count && r.orig == s.orig && r.waiters == s.waiters
            && t !in r.late && (forall u :: u != t ==> (u in r.late <==> u in s.late))
            && (forall u :: u in s.prio && s.owner != Some(u) ==> u in r.prio && r.prio[u] == s.prio[u])
  {
  }

  /** What a step adds to the locks that a thread was told it holds: its own granted
      locks and unlocks, and the lock that ends its wait. */
  function Granted(s: State, op: Op, ceiling: int, t: nat): int
    requires Allowed(s, op)
  {
    match op
    case LockOp(u, wait) => if u == t && Lock(s, u, wait, ceiling).1 == Some(0) then 1 else 0
    case UnlockOp(u) =>
      var (r, code) := Unlock(s, u);
      (if u == t && code == 0 then -1 else 0) + (if t in s.waiters && t !in r.waiters then 1 else 0)
    case _ => 0
  }

  function Balance(s: State, ops: seq<Op>, ceiling: int, t: nat, held: int): int
    decreases |ops|
  {
    if ops == [] then held
    else if !Allowed(s, ops[0]) then Balance(s, ops[1..], ceiling, t, held)
    else
      match Step(s, ops[0], ceiling)
      case None => held
      case Some(r) => Balance(r, ops[1..], ceiling, t, held + Granted(s, ops[0], ceiling, t))
  }

  /** The locks that a thread holds. */
  function HeldBy(s: State, t: nat): nat {
    if s.owner == Some(t) then s.count else 0
  }

  lemma StepBalances(s: State, op: Op, ceiling: int, own: map<nat, int>, t: nat)
    requires Shape(s, own) && Allowed(s, op) && Step(s, op, ceiling).Some?
    ensures HeldBy(Step(s, op, ceiling).value, t) == HeldBy(s, t) + Granted(s, op, ceiling, t)
  {
    match op
    case LockOp(u, wait) => LockAnswers(s, own, u, wait, ceiling);
    case UnlockOp(u) =>
      if s.owner == Some(u) && s.count == 1 && s.waiters != [] {
        TailQueue(own, s.waiters);
        HandsTo(s, own, t);
      }
    case TimeOutOp(u) =>
    case ResumeOp(u) =>
  }

  lemma HandsTo(s: State, own: map<nat, int>, t: nat)
    requires Shape(s, own) && s.waiters != []
    ensures t in s.waiters && t !in s.waiters[1..] <==> t == s.waiters[0]
  {
    TailQueue(own, s.waiters);
    if t in s.waiters && t != s.waiters[0] {
      var i :| 0 <= i < |s.waiters| && s.waiters[i] == t;
      assert s.waiters[1..][i - 1] == t;
    }
  }

  /** Over every run a thread owns the mutex exactly while it was granted more locks, the
      one that ended its wait included, than it has unlocked. */
  lemma {:induction false} OwnsWhatItHolds(s: State, ops: seq<Op>, ceiling: int, own: map<nat, int>, t: nat)
    requires Shape(s, own)
    ensures var r, n := Run(s, ops, ceiling), Balance(s, ops, ceiling, t, HeldBy(s, t));
            r.Some? ==> n == HeldBy(r.value, t) && (r.value.owner == Some(t) <==> n > 0)
    decreases |ops|
  {
    if ops != [] {
      if !Allowed(s, ops[0]) {
        OwnsWhatItHolds(s, ops[1..], ceiling, own, t);
      } else {
        StepKeepsShape(s, ops[0], ceiling, own);
        var r := Step(s, ops[0], ceiling);
        if r.Some? {
          StepBalances(s, ops[0], ceiling, own, t);
          OwnsWhatItHolds(r.value, ops[1..], ceiling, own, t);
        }
      }
    }
  }

  // ------------------------------------------------------------------ the object

  class MutexObject {
    var owner: Option<nat>
    var count: nat
    var orig: int
    var prio: map<nat, int>
    var waiters: seq<nat>
    ghost var late: set<nat>
    ghost const own: map<nat, int>
    const ceiling: int

    ghost function Now(): State
      reads this
    {
      State(owner, count, orig, prio, waiters, late)
    }

    ghost predicate Valid()
      reads this
    {
      Shape(Now(), own)
    }

    constructor (prio: map<nat, int>, ceiling: int)
      ensures own == prio && this.ceiling == ceiling && Now() == State(None, 0, 0, prio, [], {})
      ensures Valid() && Boosted(Now(), own, ceiling)
    {
      owner, count, orig, waiters, late := None, 0, 0, [], {};
      this.prio, this.own, this.ceiling := prio, prio, ceiling;
    }

    method LockBy(t: nat, wait: bool) returns (code: Option<int>)
      requires Valid() && Allowed(Now(), LockOp(t, wait))
      modifies this
      ensures Valid() && (Now(), code) == Lock(old(Now()), t, wait, ceiling)
      ensures old(Boosted(Now(), own, ceiling)) ==> Boosted(Now(), own, ceiling)
    {
      LockKeepsShape(Now(), own, t, wait, ceiling);
      if Boosted(Now(), own, ceiling) {
        LockKeepsInv(Now(), own, t, wait, ceiling);
      }
      if count == 0 || owner == Some(t) {
        orig := if count == 0 then prio[t] else orig;
        count := count + 1;
        owner := Some(t);
        return Some(0);
      }
      if !wait {
        return Some(EBUSY);
      }
      Join(t);
      code := None;
    }

    method Join(t: nat)
      requires t in prio && Known(Now()) && owner.Some?
      modifies this`prio, this`waiters
      ensures Now() == Joined(old(Now()), t, ceiling)
    {
      var k := FindSlot(Prios(prio, waiters), prio[t]);
      var o := owner.value;
      var boost := Inherit(prio[t], prio[o], ceiling);
      if boost < prio[o] {
        prio := prio[o := boost];
      }
      waiters := waiters[..k] + [t] + waiters[k..];
    }

    method WaitTimesOut(t: nat)
      requires Valid() && Allowed(Now(), TimeOutOp(t))
      modifies this`waiters, this`late
      ensures Valid() && Now() == TimeOut(old(Now()), t)
      ensures old(Boosted(Now(), own, ceiling)) ==> Boosted(Now(), own, ceiling)
    {
      TimeOutKeepsShape(Now(), own, t);
      if Boosted(Now(), own, ceiling) {
        TimeOutKeepsInv(Now(), own, t, ceiling);
      }
      waiters := Unlinked(waiters, t);
      late := late + {t};
    }

    /** The priority is set only if there is an owner to set it for; after that it is
        the fair one, unless the owner's own is above the ceiling. */
    method ResumeLate(t: nat) returns (found: bool)
      requires Valid() && Allowed(Now(), ResumeOp(t))
      modifies this`prio, this`late
      ensures found <==> Resume(old(Now()), t, ceiling).Some?
      ensures found ==> Valid() && Some(Now()) == Resume(old(Now()), t, ceiling)
      ensures found ==> (Boosted(Now(), own, ceiling) <==> waiters == [] || orig >= ceiling)
    {
      found := owner.Some?;
      if found {
        ResumeKeepsShape(Now(), own, t, ceiling);
        ResumeIsFair(Now(), own, t, ceiling);
        var back := orig;
        if waiters != [] {
          back := Inherit(prio[waiters[0]], orig, ceiling);
        }
        Adjust(back);
        late := late - {t};
      }
    }

    method Adjust(p: int)
      requires owner.Some? && owner.value in prio
      modifies this`prio
      ensures prio == old(prio)[owner.value := p]
    {
      if prio[owner.value] != p {
        prio := prio[owner.value := p];
      }
    }

    method UnlockBy(t: nat) returns (code: int)
      requires Valid() && Allowed(Now(), UnlockOp(t))
      modifies this
      ensures Valid() && (Now(), code) == Unlock(old(Now()), t)
      ensures old(Boosted(Now(), own, ceiling)) ==> Boosted(Now(), own, ceiling)
      ensures !old(Hazard(Now())) ==> (Hazard(Now()) <==> LeavesLate(old(Now()), UnlockOp(t)))
    {
      UnlockKeepsShape(Now(), own, t);
      if Boosted(Now(), own, ceiling) {
        UnlockKeepsInv(Now(), own, t, ceiling);
      }
      if owner == None {
        return EINVAL;
      }
      if owner != Some(t) {
        return EPERM;
      }
      if count - 1 != 0 {
        count := count - 1;
        return 0;
      }
      Adjust(orig);
      if waiters != [] {
        owner := Some(waiters[0]);
        waiters := waiters[1..];
        orig := prio[owner.value];
      } else {
        owner := None;
        count := 0;
      }
      code := 0;
    }
  }
}
