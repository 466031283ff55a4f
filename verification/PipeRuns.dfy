/** Whole runs of a pipe: any interleaving of puts, gets and expiring waits,
    with a log of the bytes taken from writers and of those handed to readers. */
module PipeRuns {
  import opened Common
  import opened PriorityOrder
  import opened Pipes

  // ------------------------------------------------------------ whose bytes

  /** What a request has moved so far, out of how much. */
  datatype Account = Account(call: nat, min: nat, moved: seq<Byte>, total: nat) {
    function Credit(log: seq<Chunk>): Account {
      this.(moved := moved + BytesOf(log, call))
    }
  }

  function ReaderAccounts(rs: seq<Reader>): (r: seq<Account>)
    ensures |r| == |rs|
    ensures forall i :: 0 <= i < |rs| ==> r[i] == Account(rs[i].call, rs[i].min, rs[i].got, |rs[i].got| + rs[i].want)
  {
    seq(|rs|, i requires 0 <= i < |rs| => Account(rs[i].call, rs[i].min, rs[i].got, |rs[i].got| + rs[i].want))
  }

  function WriterAccounts(ws: seq<Writer>): (r: seq<Account>)
    ensures |r| == |ws|
    ensures forall i :: 0 <= i < |ws| ==> r[i] == Account(ws[i].call, ws[i].min, ws[i].sent, |ws[i].sent| + |ws[i].rest|)
  {
    seq(|ws|, i requires 0 <= i < |ws| => Account(ws[i].call, ws[i].min, ws[i].sent, |ws[i].sent| + |ws[i].rest|))
  }

  lemma WriterAccountsConcat(a: seq<Writer>, b: seq<Writer>)
    ensures WriterAccounts(a + b) == WriterAccounts(a) + WriterAccounts(b)
  {
  }

  lemma ReaderAccountsConcat(a: seq<Reader>, b: seq<Reader>)
    ensures ReaderAccounts(a + b) == ReaderAccounts(a) + ReaderAccounts(b)
  {
  }

  lemma ReaderAccountsInsert(rs: seq<Reader>, k: nat, r: Reader)
    requires k <= |rs|
    ensures ReaderAccounts(InsertAt(rs, k, r))
         == InsertAt(ReaderAccounts(rs), k, Account(r.call, r.min, r.got, |r.got| + r.want))
  {
  }

  lemma WriterAccountsInsert(ws: seq<Writer>, k: nat, w: Writer)
    requires k <= |ws|
    ensures WriterAccounts(InsertAt(ws, k, w))
         == InsertAt(WriterAccounts(ws), k, Account(w.call, w.min, w.sent, |w.sent| + |w.rest|))
  {
  }

  function Calls(accounts: seq<Account>): (r: seq<nat>)
    ensures |r| == |accounts| && forall i :: 0 <= i < |accounts| ==> r[i] == accounts[i].call
  {
    seq(|accounts|, i requires 0 <= i < |accounts| => accounts[i].call)
  }

  /** A log settles a list of accounts: each is credited with its own part, and
      no part is anyone else's. */
  ghost predicate Settles(log: seq<Chunk>, before: seq<Account>, after: seq<Account>) {
    && |after| == |before|
    && (forall i :: 0 <= i < |before| ==> after[i] == before[i].Credit(log) && |after[i].moved| <= after[i].total)
    && (forall c :: c !in Calls(before) ==> BytesOf(log, c) == [])
  }

  lemma {:induction false} ServeUntouched(rs: seq<Reader>, data: seq<Byte>, c: nat)
    requires forall r :: r in rs ==> r.call != c
    ensures BytesOf(Serve(rs, data).log, c) == []
  {
    if rs != [] {
      assert rs[0] in rs;
      if rs[0].want <= |data| {
        ServeUntouched(rs[1..], data[rs[0].want..], c);
      } else {
        assert BytesOf([], c) == [];
      }
    }
  }

  lemma ServeFirst(rs: seq<Reader>, data: seq<Byte>)
    requires rs != [] && forall i :: 1 <= i < |rs| ==> rs[i].call != rs[0].call
    ensures BytesOf(Serve(rs, data).log, rs[0].call) == data[..Min(rs[0].want, |data|)]
  {
    var r, log := rs[0], Serve(rs, data).log;
    if r.want <= |data| {
      assert log[1..] == Serve(rs[1..], data[r.want..]).log;
      assert forall j :: 0 <= j < |rs[1..]| ==> rs[1..][j] == rs[j + 1];
      ServeUntouched(rs[1..], data[r.want..], r.call);
    } else {
      assert log[1..] == [] && BytesOf([], r.call) == [];
    }
  }

  /** Each waiting reader gets exactly its own part of the log. */
  lemma {:induction false} ServeCredits(rs: seq<Reader>, data: seq<Byte>, i: nat)
    requires i < |rs| && forall j, k :: 0 <= j < k < |rs| ==> rs[j].call != rs[k].call
    ensures var s := Serve(rs, data);
            var b, r := BytesOf(s.log, rs[i].call), (s.done + s.left)[i];
            r.call == rs[i].call && r.min == rs[i].min && r.got == rs[i].got + b && r.want + |b| == rs[i].want
  {
    var r, s := rs[0], Serve(rs, data);
    if i == 0 {
      ServeFirst(rs, data);
    } else if r.want <= |data| {
      var t := Serve(rs[1..], data[r.want..]);
      ServeCredits(rs[1..], data[r.want..], i - 1);
      assert s.log[1..] == t.log && (s.done + s.left)[i] == (t.done + t.left)[i - 1];
      assert BytesOf(s.log, rs[i].call) == [] + BytesOf(t.log, rs[i].call);
    } else {
      assert s.log[1..] == [] && BytesOf(s.log, rs[i].call) == [];
      assert (s.done + s.left)[i] == rs[i];
    }
  }

  lemma ServeSettles(rs: seq<Reader>, data: seq<Byte>)
    requires NoDup(Calls(ReaderAccounts(rs)))
    ensures var s := Serve(rs, data);
            Settles(s.log, ReaderAccounts(rs), ReaderAccounts(s.done + s.left))
  {
    var s, calls := Serve(rs, data), Calls(ReaderAccounts(rs));
    assert forall j, k :: 0 <= j < k < |rs| ==> calls[j] != calls[k];
    forall i | 0 <= i < |rs|
      ensures var after := ReaderAccounts(s.done + s.left)[i];
              after == ReaderAccounts(rs)[i].Credit(s.log) && |after.moved| <= after.total
    {
      ServeCredits(rs, data, i);
    }
    forall c | c !in calls ensures BytesOf(s.log, c) == [] {
      assert forall i :: 0 <= i < |rs| ==> calls[i] == rs[i].call;
      ServeUntouched(rs, data, c);
    }
  }

  lemma {:induction false} DrainUntouched(ws: seq<Writer>, room: nat, c: nat)
    requires forall w :: w in ws ==> w.call != c
    ensures BytesOf(Drain(ws, room).log, c) == []
  {
    if ws != [] {
      assert ws[0] in ws;
      if |ws[0].rest| <= room {
        DrainUntouched(ws[1..], room - |ws[0].rest|, c);
      } else {
        assert BytesOf([], c) == [];
      }
    }
  }

  lemma DrainFirst(ws: seq<Writer>, room: nat)
    requires ws != [] && forall i :: 1 <= i < |ws| ==> ws[i].call != ws[0].call
    ensures BytesOf(Drain(ws, room).log, ws[0].call) == ws[0].rest[..Min(|ws[0].rest|, room)]
  {
    var w, log := ws[0], Drain(ws, room).log;
    if |w.rest| <= room {
      assert log[1..] == Drain(ws[1..], room - |w.rest|).log;
      assert forall j :: 0 <= j < |ws[1..]| ==> ws[1..][j] == ws[j + 1];
      DrainUntouched(ws[1..], room - |w.rest|, w.call);
    } else {
      assert log[1..] == [] && BytesOf([], w.call) == [];
    }
  }

  lemma DrainHead(ws: seq<Writer>, room: nat)
    requires ws != []
    ensures var d, n := Drain(ws, room), Min(|ws[0].rest|, room);
            var w := (d.done + d.left)[0];
            w == ws[0].(sent := ws[0].sent + ws[0].rest[..n], rest := ws[0].rest[n..]) &&
            ws[0].rest == ws[0].rest[..n] + ws[0].rest[n..]
  {
    var w := ws[0];
    assert |w.rest| <= room ==> w.rest[..|w.rest|] == w.rest && w.rest[|w.rest|..] == [];
  }

  /** Each waiting writer gives up exactly its own part of the log. */
  lemma {:induction false} DrainDebits(ws: seq<Writer>, room: nat, i: nat)
    requires i < |ws| && forall j, k :: 0 <= j < k < |ws| ==> ws[j].call != ws[k].call
    ensures var d := Drain(ws, room);
            var b, w := BytesOf(d.log, ws[i].call), (d.done + d.left)[i];
            w.call == ws[i].call && w.min == ws[i].min && w.sent == ws[i].sent + b && b + w.rest == ws[i].rest
  {
    var w, d := ws[0], Drain(ws, room);
    if i == 0 {
      DrainFirst(ws, room);
      DrainHead(ws, room);
    } else if |w.rest| <= room {
      var t := Drain(ws[1..], room - |w.rest|);
      DrainDebits(ws[1..], room - |w.rest|, i - 1);
      assert d.log[1..] == t.log && (d.done + d.left)[i] == (t.done + t.left)[i - 1];
      assert BytesOf(d.log, ws[i].call) == [] + BytesOf(t.log, ws[i].call);
    } else {
      assert d.log[1..] == [] && BytesOf(d.log, ws[i].call) == [];
      assert (d.done + d.left)[i] == ws[i];
    }
  }

  lemma DrainSettles(ws: seq<Writer>, room: nat)
    requires NoDup(Calls(WriterAccounts(ws)))
    ensures var d := Drain(ws, room);
            Settles(d.log, WriterAccounts(ws), WriterAccounts(d.done + d.left))
  {
    var d, calls := Drain(ws, room), Calls(WriterAccounts(ws));
    assert forall j, k :: 0 <= j < k < |ws| ==> calls[j] != calls[k];
    forall i | 0 <= i < |ws|
      ensures var after := WriterAccounts(d.done + d.left)[i];
              after == WriterAccounts(ws)[i].Credit(d.log) && |after.moved| <= after.total
    {
      DrainDebits(ws, room, i);
    }
    forall c | c !in calls ensures BytesOf(d.log, c) == [] {
      assert forall i :: 0 <= i < |ws| ==> calls[i] == ws[i].call;
      DrainUntouched(ws, room, c);
    }
  }

  // ------------------------------------------------------- one side's books

  datatype Finished = Finished(account: Account, code: Code)

  /** The code says how much of a finished request was moved. */
  predicate CodeOk(code: Code, a: Account) {
    match code
    case Ok => a.min <= |a.moved|
    case EAGAIN => |a.moved| < a.min
    case EIO => |a.moved| == 0 < a.min
    case EINVAL => |a.moved| == 0 && a.total < a.min
  }

  /** An account agrees with the log and with what its call was given. */
  ghost predicate AccountOk(a: Account, log: seq<Chunk>, totals: map<nat, nat>) {
    && a.call in totals && a.total == totals[a.call]
    && BytesOf(log, a.call) == a.moved && |a.moved| <= a.total
  }

  /** The books of the calls on one side of the pipe: those waiting, those that
      have returned, and nothing yet for calls not made. */
  ghost predicate BooksOk(waiting: seq<Account>, finished: seq<Finished>, log: seq<Chunk>, totals: map<nat, nat>, next: nat) {
    && NoDup(Calls(waiting))
    && (forall i :: 0 <= i < |waiting| ==> waiting[i].call < next && AccountOk(waiting[i], log, totals))
    && (forall i :: 0 <= i < |finished| ==>
         && finished[i].account.call < next && finished[i].account.call !in Calls(waiting)
         && AccountOk(finished[i].account, log, totals) && CodeOk(finished[i].code, finished[i].account))
    && (forall c :: c >= next ==> BytesOf(log, c) == [])
  }

  /** A waiter that is woken or whose wait expires returns by its minimum. */
  function Return(a: Account): Finished {
    Finished(a, if |a.moved| >= a.min then Ok else EAGAIN)
  }

  function Returns(accounts: seq<Account>): (r: seq<Finished>)
    ensures |r| == |accounts| && forall i :: 0 <= i < |accounts| ==> r[i] == Return(accounts[i])
  {
    seq(|accounts|, i requires 0 <= i < |accounts| => Return(accounts[i]))
  }

  /** Settling the waiters and letting the first of them return. */
  lemma SettledBooks(waiting: seq<Account>, done: seq<Account>, left: seq<Account>, finished: seq<Finished>,
                     log: seq<Chunk>, more: seq<Chunk>, totals: map<nat, nat>, next: nat)
    requires BooksOk(waiting, finished, log, totals, next) && Settles(more, waiting, done + left)
    ensures BooksOk(left, finished + Returns(done), log + more, totals, next + 1)
  {
    var after := done + left;
    assert Calls(after) == Calls(waiting);
    assert Calls(left) == Calls(after)[|done|..];
    forall i | 0 <= i < |after| ensures after[i].call < next && AccountOk(after[i], log + more, totals) {
      BytesOfConcat(log, more, waiting[i].call);
    }
    forall i | 0 <= i < |left| ensures left[i].call < next && AccountOk(left[i], log + more, totals) {
      assert left[i] == after[|done| + i];
    }
    var all := finished + Returns(done);
    forall j | 0 <= j < |all|
      ensures all[j].account.call < next && all[j].account.call !in Calls(left)
      ensures AccountOk(all[j].account, log + more, totals) && CodeOk(all[j].code, all[j].account)
    {
      if j < |finished| {
        BytesOfConcat(log, more, finished[j].account.call);
      } else {
        var i := j - |finished|;
        assert all[j] == Return(done[i]) && done[i] == after[i] && Calls(after)[i] == after[i].call;
      }
    }
    forall c | c >= next ensures BytesOf(log + more, c) == [] {
      BytesOfConcat(log, more, c);
    }
  }

  /** A new call leaves the others' books alone. */
  lemma NewCall(waiting: seq<Account>, finished: seq<Finished>, log: seq<Chunk>, totals: map<nat, nat>, a: Account)
    requires BooksOk(waiting, finished, log, totals, a.call) && |a.moved| <= a.total
    ensures BooksOk(waiting, finished, log + [Chunk(a.call, a.moved)], totals[a.call := a.total], a.call + 1)
    ensures AccountOk(a, log + [Chunk(a.call, a.moved)], totals[a.call := a.total]) && a.call !in Calls(waiting)
  {
    var mine := [Chunk(a.call, a.moved)];
    forall c ensures BytesOf(log + mine, c) == BytesOf(log, c) + (if c == a.call then a.moved else []) {
      BytesOfConcat(log, mine, c);
      assert mine[1..] == [] && BytesOf([], c) == [];
    }
  }

  lemma CallPends(waiting: seq<Account>, finished: seq<Finished>, log: seq<Chunk>, totals: map<nat, nat>, a: Account, k: nat)
    requires BooksOk(waiting, finished, log, totals, a.call) && |a.moved| <= a.total && k <= |waiting|
    ensures BooksOk(InsertAt(waiting, k, a), finished, log + [Chunk(a.call, a.moved)], totals[a.call := a.total], a.call + 1)
  {
    NewCall(waiting, finished, log, totals, a);
    InsertKeepsNoDup(Calls(waiting), k, a.call);
    assert Calls(InsertAt(waiting, k, a)) == InsertAt(Calls(waiting), k, a.call);
    forall i | 0 <= i < |finished| ensures finished[i].account.call !in InsertAt(Calls(waiting), k, a.call) {
      assert finished[i].account.call < a.call;
    }
  }

  lemma CallReturns(waiting: seq<Account>, finished: seq<Finished>, log: seq<Chunk>, totals: map<nat, nat>, a: Account, code: Code)
    requires BooksOk(waiting, finished, log, totals, a.call) && |a.moved| <= a.total && CodeOk(code, a)
    ensures BooksOk(waiting, finished + [Finished(a, code)], log + [Chunk(a.call, a.moved)], totals[a.call := a.total], a.call + 1)
  {
    NewCall(waiting, finished, log, totals, a);
  }

  /** A wait that expires returns with what it has moved. */
  lemma WaitExpires(waiting: seq<Account>, finished: seq<Finished>, log: seq<Chunk>, totals: map<nat, nat>, next: nat, k: nat)
    requires BooksOk(waiting, finished, log, totals, next) && k < |waiting|
    ensures BooksOk(waiting[..k] + waiting[k + 1..], finished + [Return(waiting[k])], log, totals, next)
  {
    var calls := Calls(waiting);
    GapNoDup(calls, k);
    assert Calls(waiting[..k] + waiting[k + 1..]) == calls[..k] + calls[k + 1..];
    assert calls[k] !in calls[..k] + calls[k + 1..];
  }

  // ------------------------------------------------------------------- runs

  datatype Op =
    | PutOp(prio: int, data: seq<Byte>, min: nat, wait: bool)
    | GetOp(prio: int, total: nat, min: nat, wait: bool)
    | Expire(call: nat)

  /** Calls are numbered in the order they are made; `offered` and `asked` keep
      what each of them was given, `taken` and `delivered` what it moved. */
  datatype World = World(
    pipe: Pipe, next: nat,
    taken: seq<Chunk>, delivered: seq<Chunk>,
    offered: map<nat, seq<Byte>>, asked: map<nat, nat>,
    puts: seq<Finished>, gets: seq<Finished>)

  function Init(size: nat): World {
    World(Pipe(size, [], [], []), 0, [], [], map[], map[], [], [])
  }

  function AfterPut(w: World, r: PutResult, data: seq<Byte>, min: nat): World {
    var c := w.next;
    w.(pipe := r.pipe, next := c + 1, offered := w.offered[c := data],
       taken := w.taken + [Chunk(c, r.taken)], delivered := w.delivered + r.log,
       gets := w.gets + Returns(ReaderAccounts(r.woken)),
       puts := if r.outcome.Pends? then w.puts else w.puts + [Finished(Account(c, min, r.taken, |data|), r.outcome.code)])
  }

  function AfterGet(w: World, r: GetResult, total: nat, min: nat): World {
    var c := w.next;
    w.(pipe := r.pipe, next := c + 1, asked := w.asked[c := total],
       taken := w.taken + r.log, delivered := w.delivered + [Chunk(c, r.got)],
       puts := w.puts + Returns(WriterAccounts(r.woken)),
       gets := if r.outcome.Pends? then w.gets else w.gets + [Finished(Account(c, min, r.got, total), r.outcome.code)])
  }

  /** The place of a call among the waiters, or their number if it is not there. */
  function Find(calls: seq<nat>, call: nat): (k: nat)
    ensures k <= |calls| && (k < |calls| ==> calls[k] == call) && (k == |calls| ==> call !in calls)
  {
    if calls == [] || calls[0] == call then 0 else 1 + Find(calls[1..], call)
  }

  function ExpireReader(w: World, k: nat): World
    requires k < |w.pipe.readers|
  {
    var rs := w.pipe.readers;
    w.(pipe := w.pipe.(readers := rs[..k] + rs[k + 1..]), gets := w.gets + [Return(ReaderAccounts(rs)[k])])
  }

  function ExpireWriter(w: World, k: nat): World
    requires k < |w.pipe.writers|
  {
    var ws := w.pipe.writers;
    w.(pipe := w.pipe.(writers := ws[..k] + ws[k + 1..]), puts := w.puts + [Return(WriterAccounts(ws)[k])])
  }

  function StepExpire(w: World, call: nat): World {
    var k := Find(Calls(ReaderAccounts(w.pipe.readers)), call);
    var l := Find(Calls(WriterAccounts(w.pipe.writers)), call);
    if k < |w.pipe.readers| then ExpireReader(w, k)
    else if l < |w.pipe.writers| then ExpireWriter(w, l)
    else w
  }

  function Lengths(offered: map<nat, seq<Byte>>): map<nat, nat> {
    map c | c in offered :: |offered[c]|
  }

  ghost predicate ReaderBooks(w: World) {
    BooksOk(ReaderAccounts(w.pipe.readers), w.gets, w.delivered, w.asked, w.next)
  }

  ghost predicate WriterBooks(w: World) {
    BooksOk(WriterAccounts(w.pipe.writers), w.puts, w.taken, Lengths(w.offered), w.next)
  }

  /** A waiting writer's parts make up its data, and every put has contributed
      a prefix of its data. */
  ghost predicate Prefixes(ws: seq<Writer>, taken: seq<Chunk>, offered: map<nat, seq<Byte>>) {
    && (forall x :: x in ws ==> x.call in offered && x.sent + x.rest == offered[x.call])
    && (forall c :: c in offered ==> BytesOf(taken, c) <= offered[c])
  }

  /** The whole claim: the wait rules, one unbroken stream from the writers
      through the buffer to the readers, and every call's books in order. */
  ghost predicate Inv(w: World) {
    && WaitRules(w.pipe)
    && Bytes(w.delivered) + w.pipe.buffer == Bytes(w.taken)
    && ReaderBooks(w) && WriterBooks(w)
    && Prefixes(w.pipe.writers, w.taken, w.offered)
  }

  function Step(w: World, op: Op): World
    requires |w.pipe.buffer| <= w.pipe.size
  {
    match op
    case PutOp(prio, data, min, wait) => AfterPut(w, Put(w.pipe, w.next, prio, data, min, wait), data, min)
    case GetOp(prio, total, min, wait) => AfterGet(w, Get(w.pipe, w.next, prio, total, min, wait), total, min)
    case Expire(call) => StepExpire(w, call)
  }

  lemma BooksNext(waiting: seq<Account>, finished: seq<Finished>, log: seq<Chunk>, totals: map<nat, nat>, next: nat)
    requires BooksOk(waiting, finished, log, totals, next)
    ensures BooksOk(waiting, finished + Returns([]), log + [], totals, next + 1)
  {
    assert log + [] == log && finished + [] == finished;
  }

  lemma SameChain<T>(a: seq<T>, b: seq<T>, c: seq<T>, a': seq<T>, b': seq<T>, c': seq<T>)
    requires b + c == b' + c' && a + b' == a'
    ensures (a + b) + c == a' + c'
  {
    assert (a + b) + c == a + (b + c);
    assert a + (b' + c') == (a + b') + c';
  }

  // ---- a get

  /** All that the books need to know of what a get did. */
  ghost predicate GetFits(p: Pipe, r: GetResult, call: nat, prio: int, total: nat, min: nat) {
    && r.got + r.pipe.buffer == p.buffer + Bytes(r.log)
    && |r.got| <= total
    && r.pipe.readers == (if r.outcome.Pends? then AddReader(p.readers, Reader(call, prio, min, r.got, total - |r.got|)) else p.readers)
    && (r.outcome.Returned? ==> CodeOk(r.outcome.code, Account(call, min, r.got, total)))
    && (var d := Drain(p.writers, total);
        || (r.pipe.writers == p.writers && r.woken == [] && r.log == [])
        || (r.pipe.writers == d.left && r.woken == d.done && r.log == d.log))
  }

  lemma GetDoesFit(p: Pipe, call: nat, prio: int, total: nat, min: nat, wait: bool)
    ensures GetFits(p, Get(p, call, prio, total, min, wait), call, prio, total, min)
  {
    GetConserves(p, call, prio, total, min, wait);
  }

  lemma GetStream(w: World, r: GetResult, total: nat, min: nat)
    requires Bytes(w.delivered) + w.pipe.buffer == Bytes(w.taken)
    requires r.got + r.pipe.buffer == w.pipe.buffer + Bytes(r.log)
    ensures var w' := AfterGet(w, r, total, min);
            Bytes(w'.delivered) + w'.pipe.buffer == Bytes(w'.taken)
  {
    var mine := [Chunk(w.next, r.got)];
    BytesConcat(w.delivered, mine);
    BytesConcat(w.taken, r.log);
    assert mine[1..] == [] && Bytes(mine) == r.got;
    SameChain(Bytes(w.delivered), r.got, r.pipe.buffer, Bytes(w.taken), w.pipe.buffer, Bytes(r.log));
  }

  lemma DrainBooks(ws: seq<Writer>, room: nat, puts: seq<Finished>, taken: seq<Chunk>, totals: map<nat, nat>, next: nat)
    requires BooksOk(WriterAccounts(ws), puts, taken, totals, next)
    ensures var d := Drain(ws, room);
            BooksOk(WriterAccounts(d.left), puts + Returns(WriterAccounts(d.done)), taken + d.log, totals, next + 1)
  {
    var d := Drain(ws, room);
    DrainSettles(ws, room);
    WriterAccountsConcat(d.done, d.left);
    SettledBooks(WriterAccounts(ws), WriterAccounts(d.done), WriterAccounts(d.left), puts, taken, d.log, totals, next);
  }

  lemma GetWriterBooks(w: World, r: GetResult, prio: int, total: nat, min: nat)
    requires WriterBooks(w) && GetFits(w.pipe, r, w.next, prio, total, min)
    ensures WriterBooks(AfterGet(w, r, total, min))
  {
    BooksNext(WriterAccounts(w.pipe.writers), w.puts, w.taken, Lengths(w.offered), w.next);
    DrainBooks(w.pipe.writers, total, w.puts, w.taken, Lengths(w.offered), w.next);
    assert WriterAccounts([]) == [];
  }

  lemma ReadPends(rs: seq<Reader>, req: Reader, gets: seq<Finished>, delivered: seq<Chunk>, asked: map<nat, nat>)
    requires BooksOk(ReaderAccounts(rs), gets, delivered, asked, req.call)
    ensures BooksOk(ReaderAccounts(AddReader(rs, req)), gets, delivered + [Chunk(req.call, req.got)],
                    asked[req.call := |req.got| + req.want], req.call + 1)
  {
    var k := Slot(ReaderPrios(rs), req.prio);
    CallPends(ReaderAccounts(rs), gets, delivered, asked, Account(req.call, req.min, req.got, |req.got| + req.want), k);
    ReaderAccountsInsert(rs, k, req);
  }

  lemma GetReaderBooks(w: World, r: GetResult, prio: int, total: nat, min: nat)
    requires ReaderBooks(w) && GetFits(w.pipe, r, w.next, prio, total, min)
    ensures ReaderBooks(AfterGet(w, r, total, min))
  {
    var a := Account(w.next, min, r.got, total);
    if r.outcome.Pends? {
      ReadPends(w.pipe.readers, Reader(w.next, prio, min, r.got, total - |r.got|), w.gets, w.delivered, w.asked);
    } else {
      CallReturns(ReaderAccounts(w.pipe.readers), w.gets, w.delivered, w.asked, a, r.outcome.code);
    }
  }

  ghost predicate DistinctWriters(ws: seq<Writer>) {
    forall j, k :: 0 <= j < k < |ws| ==> ws[j].call != ws[k].call
  }

  lemma DrainPrefix(ws: seq<Writer>, room: nat, taken: seq<Chunk>, data: seq<Byte>, i: nat)
    requires i < |ws| && DistinctWriters(ws)
    requires ws[i].sent + ws[i].rest == data && BytesOf(taken, ws[i].call) == ws[i].sent
    ensures var d := Drain(ws, room);
            var x := (d.done + d.left)[i];
            x.call == ws[i].call && x.sent + x.rest == data && BytesOf(taken + d.log, x.call) == x.sent
  {
    var d := Drain(ws, room);
    var x, b := (d.done + d.left)[i], BytesOf(d.log, ws[i].call);
    DrainDebits(ws, room, i);
    BytesOfConcat(taken, d.log, ws[i].call);
    assert (ws[i].sent + b) + x.rest == ws[i].sent + (b + x.rest);
  }

  lemma DrainTakesPrefix(ws: seq<Writer>, room: nat, taken: seq<Chunk>, offered: map<nat, seq<Byte>>, c: nat)
    requires Prefixes(ws, taken, offered) && c in offered && DistinctWriters(ws)
    requires forall i :: 0 <= i < |ws| ==> BytesOf(taken, ws[i].call) == ws[i].sent
    ensures BytesOf(taken + Drain(ws, room).log, c) <= offered[c]
  {
    if i :| 0 <= i < |ws| && ws[i].call == c {
      assert ws[i] in ws;
      DrainPrefix(ws, room, taken, offered[c], i);
    } else {
      DrainUntouched(ws, room, c);
      BytesOfConcat(taken, Drain(ws, room).log, c);
    }
  }

  /** Draining keeps every put's contribution a prefix of its data. */
  lemma DrainPrefixes(ws: seq<Writer>, room: nat, taken: seq<Chunk>, offered: map<nat, seq<Byte>>)
    requires Prefixes(ws, taken, offered) && DistinctWriters(ws)
    requires forall i :: 0 <= i < |ws| ==> BytesOf(taken, ws[i].call) == ws[i].sent
    ensures Prefixes(Drain(ws, room).left, taken + Drain(ws, room).log, offered)
  {
    var d := Drain(ws, room);
    forall i | 0 <= i < |d.left|
      ensures d.left[i].call in offered && d.left[i].sent + d.left[i].rest == offered[d.left[i].call]
    {
      var j := |d.done| + i;
      assert (d.done + d.left)[j] == d.left[i] && ws[j] in ws;
      DrainPrefix(ws, room, taken, offered[ws[j].call], j);
    }
    forall c | c in offered ensures BytesOf(taken + d.log, c) <= offered[c] {
      DrainTakesPrefix(ws, room, taken, offered, c);
    }
  }

  lemma GetPrefixes(w: World, r: GetResult, prio: int, total: nat, min: nat)
    requires WriterBooks(w) && Prefixes(w.pipe.writers, w.taken, w.offered)
    requires GetFits(w.pipe, r, w.next, prio, total, min)
    ensures var w' := AfterGet(w, r, total, min);
            Prefixes(w'.pipe.writers, w'.taken, w'.offered)
  {
    var ws, accounts := w.pipe.writers, WriterAccounts(w.pipe.writers);
    assert forall i :: 0 <= i < |ws| ==> accounts[i].call == ws[i].call == Calls(accounts)[i];
    DrainPrefixes(ws, total, w.taken, w.offered);
    assert w.taken + [] == w.taken;
  }

  lemma GetKeepsInv(w: World, prio: int, total: nat, min: nat, wait: bool)
    requires Inv(w)
    ensures var w' := AfterGet(w, Get(w.pipe, w.next, prio, total, min, wait), total, min);
            Inv(w') && w'.pipe.size == w.pipe.size
  {
    var r := Get(w.pipe, w.next, prio, total, min, wait);
    GetKeepsWaitRules(w.pipe, w.next, prio, total, min, wait);
    GetDoesFit(w.pipe, w.next, prio, total, min, wait);
    GetStream(w, r, total, min);
    GetReaderBooks(w, r, prio, total, min);
    GetWriterBooks(w, r, prio, total, min);
    GetPrefixes(w, r, prio, total, min);
  }

  // ---- a put

  /** All that the books need to know of what a put did. */
  ghost predicate PutFits(p: Pipe, r: PutResult, call: nat, prio: int, data: seq<Byte>, min: nat) {
    && Bytes(r.log) + r.pipe.buffer == p.buffer + r.taken
    && r.taken <= data
    && r.pipe.writers == (if r.outcome.Pends? then AddWriter(p.writers, Writer(call, prio, min, r.taken, data[|r.taken|..])) else p.writers)
    && (r.outcome.Returned? ==> CodeOk(r.outcome.code, Account(call, min, r.taken, |data|)))
    && (var s := Serve(p.readers, data);
        || (r.pipe.readers == p.readers && r.woken == [] && r.log == [])
        || (r.pipe.readers == s.left && r.woken == s.done && r.log == s.log))
  }

  lemma PutDoesFit(p: Pipe, call: nat, prio: int, data: seq<Byte>, min: nat, wait: bool)
    requires WaitRules(p)
    ensures PutFits(p, Put(p, call, prio, data, min, wait), call, prio, data, min)
  {
    PutConserves(p, call, prio, data, min, wait);
  }

  lemma PutStream(w: World, r: PutResult, data: seq<Byte>, min: nat)
    requires Bytes(w.delivered) + w.pipe.buffer == Bytes(w.taken)
    requires Bytes(r.log) + r.pipe.buffer == w.pipe.buffer + r.taken
    ensures var w' := AfterPut(w, r, data, min);
            Bytes(w'.delivered) + w'.pipe.buffer == Bytes(w'.taken)
  {
    var mine := [Chunk(w.next, r.taken)];
    BytesConcat(w.delivered, r.log);
    BytesConcat(w.taken, mine);
    assert mine[1..] == [] && Bytes(mine) == r.taken;
    SameChain(Bytes(w.delivered), Bytes(r.log), r.pipe.buffer, Bytes(w.taken), w.pipe.buffer, r.taken);
  }

  lemma ServeBooks(rs: seq<Reader>, data: seq<Byte>, gets: seq<Finished>, delivered: seq<Chunk>, asked: map<nat, nat>, next: nat)
    requires BooksOk(ReaderAccounts(rs), gets, delivered, asked, next)
    ensures var s := Serve(rs, data);
            BooksOk(ReaderAccounts(s.left), gets + Returns(ReaderAccounts(s.done)), delivered + s.log, asked, next + 1)
  {
    var s := Serve(rs, data);
    ServeSettles(rs, data);
    ReaderAccountsConcat(s.done, s.left);
    SettledBooks(ReaderAccounts(rs), ReaderAccounts(s.done), ReaderAccounts(s.left), gets, delivered, s.log, asked, next);
  }

  lemma PutReaderBooks(w: World, r: PutResult, prio: int, data: seq<Byte>, min: nat)
    requires ReaderBooks(w) && PutFits(w.pipe, r, w.next, prio, data, min)
    ensures ReaderBooks(AfterPut(w, r, data, min))
  {
    BooksNext(ReaderAccounts(w.pipe.readers), w.gets, w.delivered, w.asked, w.next);
    ServeBooks(w.pipe.readers, data, w.gets, w.delivered, w.asked, w.next);
    assert ReaderAccounts([]) == [];
  }

  lemma WritePends(ws: seq<Writer>, req: Writer, puts: seq<Finished>, taken: seq<Chunk>, totals: map<nat, nat>)
    requires BooksOk(WriterAccounts(ws), puts, taken, totals, req.call)
    ensures BooksOk(WriterAccounts(AddWriter(ws, req)), puts, taken + [Chunk(req.call, req.sent)],
                    totals[req.call := |req.sent| + |req.rest|], req.call + 1)
  {
    var k := Slot(WriterPrios(ws), req.prio);
    CallPends(WriterAccounts(ws), puts, taken, totals, Account(req.call, req.min, req.sent, |req.sent| + |req.rest|), k);
    WriterAccountsInsert(ws, k, req);
  }

  lemma LengthsAdd(offered: map<nat, seq<Byte>>, c: nat, data: seq<Byte>)
    ensures Lengths(offered[c := data]) == Lengths(offered)[c := |data|]
  {
  }

  lemma PutPends(w: World, r: PutResult, prio: int, data: seq<Byte>, min: nat)
    requires WriterBooks(w) && PutFits(w.pipe, r, w.next, prio, data, min) && r.outcome.Pends?
    ensures BooksOk(WriterAccounts(r.pipe.writers), w.puts, w.taken + [Chunk(w.next, r.taken)],
                    Lengths(w.offered)[w.next := |data|], w.next + 1)
  {
    var req := Writer(w.next, prio, min, r.taken, data[|r.taken|..]);
    assert |req.sent| + |req.rest| == |data|;
    WritePends(w.pipe.writers, req, w.puts, w.taken, Lengths(w.offered));
  }

  lemma PutWriterBooks(w: World, r: PutResult, prio: int, data: seq<Byte>, min: nat)
    requires WriterBooks(w) && PutFits(w.pipe, r, w.next, prio, data, min)
    ensures WriterBooks(AfterPut(w, r, data, min))
  {
    LengthsAdd(w.offered, w.next, data);
    if r.outcome.Pends? {
      PutPends(w, r, prio, data, min);
    } else {
      CallReturns(WriterAccounts(w.pipe.writers), w.puts, w.taken, Lengths(w.offered), Account(w.next, min, r.taken, |data|), r.outcome.code);
    }
  }

  lemma BytesOfOne(taken: seq<Chunk>, c: nat, bytes: seq<Byte>, d: nat)
    ensures BytesOf(taken + [Chunk(c, bytes)], d) == BytesOf(taken, d) + (if d == c then bytes else [])
  {
    var mine := [Chunk(c, bytes)];
    BytesOfConcat(taken, mine, d);
    assert mine[1..] == [] && BytesOf([], d) == [];
  }

  /** A new put adds its own prefix and leaves the other puts' alone. */
  lemma NewPrefix(ws: seq<Writer>, taken: seq<Chunk>, offered: map<nat, seq<Byte>>, c: nat, bytes: seq<Byte>, data: seq<Byte>)
    requires Prefixes(ws, taken, offered) && BytesOf(taken, c) == [] && bytes <= data
    requires forall x :: x in ws ==> x.call != c
    ensures Prefixes(ws, taken + [Chunk(c, bytes)], offered[c := data])
  {
    forall d | d in offered[c := data] ensures BytesOf(taken + [Chunk(c, bytes)], d) <= offered[c := data][d] {
      BytesOfOne(taken, c, bytes, d);
      if d == c {
        assert [] + bytes == bytes;
      } else {
        assert BytesOf(taken, d) + [] == BytesOf(taken, d);
      }
    }
  }

  lemma NoneIsNew(w: World, x: Writer)
    requires WriterBooks(w) && x in w.pipe.writers
    ensures x.call != w.next
  {
    var ws := w.pipe.writers;
    var i :| 0 <= i < |ws| && ws[i] == x;
    assert WriterAccounts(ws)[i].call == ws[i].call;
  }

  lemma OneMorePrefix(ws: seq<Writer>, req: Writer, taken: seq<Chunk>, offered: map<nat, seq<Byte>>)
    requires Prefixes(ws, taken, offered) && req.call in offered && req.sent + req.rest == offered[req.call]
    ensures Prefixes(AddWriter(ws, req), taken, offered)
  {
    var k := Slot(WriterPrios(ws), req.prio);
    assert forall x :: x in AddWriter(ws, req) ==> x == req || x in ws;
  }

  /** The writers after a put: one more if it waits. */
  lemma PrefixesNext(ws: seq<Writer>, req: Writer, waits: bool, taken: seq<Chunk>, offered: map<nat, seq<Byte>>)
    requires Prefixes(ws, taken, offered) && BytesOf(taken, req.call) == []
    requires forall x :: x in ws ==> x.call != req.call
    ensures Prefixes(if waits then AddWriter(ws, req) else ws, taken + [Chunk(req.call, req.sent)],
                     offered[req.call := req.sent + req.rest])
  {
    var data := req.sent + req.rest;
    NewPrefix(ws, taken, offered, req.call, req.sent, data);
    OneMorePrefix(ws, req, taken + [Chunk(req.call, req.sent)], offered[req.call := data]);
  }

  lemma PutPrefixes(w: World, r: PutResult, prio: int, data: seq<Byte>, min: nat)
    requires WriterBooks(w) && Prefixes(w.pipe.writers, w.taken, w.offered)
    requires PutFits(w.pipe, r, w.next, prio, data, min)
    ensures var w' := AfterPut(w, r, data, min);
            Prefixes(w'.pipe.writers, w'.taken, w'.offered)
  {
    forall x | x in w.pipe.writers ensures x.call != w.next {
      NoneIsNew(w, x);
    }
    var req := Writer(w.next, prio, min, r.taken, data[|r.taken|..]);
    assert req.sent + req.rest == data;
    PrefixesNext(w.pipe.writers, req, r.outcome.Pends?, w.taken, w.offered);
  }

  lemma PutKeepsInv(w: World, prio: int, data: seq<Byte>, min: nat, wait: bool)
    requires Inv(w)
    ensures var w' := AfterPut(w, Put(w.pipe, w.next, prio, data, min, wait), data, min);
            Inv(w') && w'.pipe.size == w.pipe.size
  {
    var r := Put(w.pipe, w.next, prio, data, min, wait);
    PutKeepsWaitRules(w.pipe, w.next, prio, data, min, wait);
    PutDoesFit(w.pipe, w.next, prio, data, min, wait);
    PutStream(w, r, data, min);
    PutReaderBooks(w, r, prio, data, min);
    PutWriterBooks(w, r, prio, data, min);
    PutPrefixes(w, r, prio, data, min);
  }

  // ---- an expiring wait

  lemma ReaderAccountsGap(rs: seq<Reader>, k: nat)
    requires k < |rs|
    ensures ReaderAccounts(rs[..k] + rs[k + 1..]) == ReaderAccounts(rs)[..k] + ReaderAccounts(rs)[k + 1..]
  {
  }

  lemma WriterAccountsGap(ws: seq<Writer>, k: nat)
    requires k < |ws|
    ensures WriterAccounts(ws[..k] + ws[k + 1..]) == WriterAccounts(ws)[..k] + WriterAccounts(ws)[k + 1..]
  {
  }

  lemma FewerReaders(p: Pipe, k: nat)
    requires WaitRules(p) && k < |p.readers|
    ensures WaitRules(p.(readers := p.readers[..k] + p.readers[k + 1..]))
  {
  }

  lemma FewerWriters(p: Pipe, k: nat)
    requires WaitRules(p) && k < |p.writers|
    ensures WaitRules(p.(writers := p.writers[..k] + p.writers[k + 1..]))
  {
  }

  lemma ReaderExpires(w: World, k: nat)
    requires Inv(w) && k < |w.pipe.readers|
    ensures Inv(ExpireReader(w, k))
  {
    FewerReaders(w.pipe, k);
    WaitExpires(ReaderAccounts(w.pipe.readers), w.gets, w.delivered, w.asked, w.next, k);
    ReaderAccountsGap(w.pipe.readers, k);
  }

  lemma WriterExpires(w: World, k: nat)
    requires Inv(w) && k < |w.pipe.writers|
    ensures Inv(ExpireWriter(w, k))
  {
    FewerWriters(w.pipe, k);
    WaitExpires(WriterAccounts(w.pipe.writers), w.puts, w.taken, Lengths(w.offered), w.next, k);
    WriterAccountsGap(w.pipe.writers, k);
  }

  lemma ExpireKeepsInv(w: World, call: nat)
    requires Inv(w)
    ensures Inv(StepExpire(w, call)) && StepExpire(w, call).pipe.size == w.pipe.size
  {
    var k := Find(Calls(ReaderAccounts(w.pipe.readers)), call);
    var l := Find(Calls(WriterAccounts(w.pipe.writers)), call);
    if k < |w.pipe.readers| {
      ReaderExpires(w, k);
    } else if l < |w.pipe.writers| {
      WriterExpires(w, l);
    }
  }

  // ---- all runs

  /** The state after a run, for which every claim of `Inv` holds. */
  ghost function Run(size: nat, ops: seq<Op>): (w: World)
    ensures Inv(w) && w.pipe.size == size
  {
    if ops == [] then
      InitInv(size); Init(size)
    else
      var w, op := Run(size, ops[..|ops| - 1]), ops[|ops| - 1];
      StepKeepsInv(w, op); Step(w, op)
  }

  lemma InitInv(size: nat)
    ensures Inv(Init(size))
  {
  }

  lemma StepKeepsInv(w: World, op: Op)
    requires Inv(w)
    ensures Inv(Step(w, op)) && Step(w, op).pipe.size == w.pipe.size
  {
    match op
    case PutOp(prio, data, min, wait) => PutKeepsInv(w, prio, data, min, wait);
    case GetOp(prio, total, min, wait) => GetKeepsInv(w, prio, total, min, wait);
    case Expire(call) => ExpireKeepsInv(w, call);
  }

  // ---- every call once

  function Ids(finished: seq<Finished>): (r: seq<nat>)
    ensures |r| == |finished| && forall i :: 0 <= i < |finished| ==> r[i] == finished[i].account.call
  {
    seq(|finished|, i requires 0 <= i < |finished| => finished[i].account.call)
  }

  /** The calls of one side that wait or have returned. */
  ghost function Roll(waiting: seq<Account>, finished: seq<Finished>): multiset<nat> {
    multiset(Calls(waiting)) + multiset(Ids(finished))
  }

  lemma RollSettles(waiting: seq<Account>, done: seq<Account>, left: seq<Account>, finished: seq<Finished>)
    requires Calls(done + left) == Calls(waiting)
    ensures Roll(left, finished + Returns(done)) == Roll(waiting, finished)
  {
    assert Calls(done + left) == Calls(done) + Calls(left);
    assert Ids(finished + Returns(done)) == Ids(finished) + Calls(done);
  }

  lemma RollInsert(waiting: seq<Account>, k: nat, a: Account, finished: seq<Finished>)
    requires k <= |waiting|
    ensures Roll(InsertAt(waiting, k, a), finished) == Roll(waiting, finished) + multiset{a.call}
  {
    assert Calls(InsertAt(waiting, k, a)) == InsertAt(Calls(waiting), k, a.call);
    InsertMembers(Calls(waiting), k, a.call);
  }

  lemma RollReturn(waiting: seq<Account>, finished: seq<Finished>, f: Finished)
    ensures Roll(waiting, finished + [f]) == Roll(waiting, finished) + multiset{f.account.call}
  {
    assert Ids(finished + [f]) == Ids(finished) + [f.account.call];
  }

  lemma RollExpires(waiting: seq<Account>, k: nat, finished: seq<Finished>)
    requires k < |waiting|
    ensures Roll(waiting[..k] + waiting[k + 1..], finished + [Return(waiting[k])]) == Roll(waiting, finished)
  {
    var calls := Calls(waiting);
    assert Calls(waiting[..k] + waiting[k + 1..]) == calls[..k] + calls[k + 1..];
    assert calls == calls[..k] + [calls[k]] + calls[k + 1..];
    RollReturn(waiting[..k] + waiting[k + 1..], finished, Return(waiting[k]));
  }

  lemma KeysAdd<T>(m: map<nat, T>, c: nat, v: T)
    requires c !in m
    ensures multiset(m[c := v].Keys) == multiset(m.Keys) + multiset{c}
  {
    assert m[c := v].Keys == m.Keys + {c};
  }

  /** Every call made is on exactly one side, and there it waits or has returned,
      once. */
  ghost predicate Counted(w: World) {
    && Roll(ReaderAccounts(w.pipe.readers), w.gets) == multiset(w.asked.Keys)
    && Roll(WriterAccounts(w.pipe.writers), w.puts) == multiset(w.offered.Keys)
    && Shared(w.asked.Keys, w.offered.Keys, w.next)
  }

  /** Two sets share out the numbers below n between them. */
  ghost predicate Shared(a: set<nat>, b: set<nat>, n: nat) {
    a !! b && forall c: nat :: c in a || c in b <==> c < n
  }

  lemma NextCall(a: set<nat>, b: set<nat>, n: nat)
    requires Shared(a, b, n) || Shared(b, a, n)
    ensures n !in a && Shared(a + {n}, b, n + 1) && Shared(b, a + {n}, n + 1)
  {
    assert n !in a && n !in b;
  }

  lemma SameCalls(log: seq<Chunk>, before: seq<Account>, after: seq<Account>)
    requires Settles(log, before, after)
    ensures Calls(after) == Calls(before)
  {
  }

  lemma PutCountsReaders(w: World, r: PutResult, prio: int, data: seq<Byte>, min: nat)
    requires ReaderBooks(w) && PutFits(w.pipe, r, w.next, prio, data, min)
    ensures Roll(ReaderAccounts(r.pipe.readers), w.gets + Returns(ReaderAccounts(r.woken))) ==
            Roll(ReaderAccounts(w.pipe.readers), w.gets)
  {
    var rs, s := w.pipe.readers, Serve(w.pipe.readers, data);
    ServeSettles(rs, data);
    SameCalls(s.log, ReaderAccounts(rs), ReaderAccounts(s.done + s.left));
    ReaderAccountsConcat(s.done, s.left);
    RollSettles(ReaderAccounts(rs), ReaderAccounts(s.done), ReaderAccounts(s.left), w.gets);
    assert ReaderAccounts([]) == [] && w.gets + Returns([]) == w.gets;
  }

  lemma RollAddsWriter(ws: seq<Writer>, req: Writer, puts: seq<Finished>)
    ensures Roll(WriterAccounts(AddWriter(ws, req)), puts) == Roll(WriterAccounts(ws), puts) + multiset{req.call}
  {
    var k := Slot(WriterPrios(ws), req.prio);
    WriterAccountsInsert(ws, k, req);
    RollInsert(WriterAccounts(ws), k, Account(req.call, req.min, req.sent, |req.sent| + |req.rest|), puts);
  }

  lemma PutCountsWriters(w: World, r: PutResult, prio: int, data: seq<Byte>, min: nat)
    requires PutFits(w.pipe, r, w.next, prio, data, min)
    ensures Roll(WriterAccounts(r.pipe.writers), AfterPut(w, r, data, min).puts) ==
            Roll(WriterAccounts(w.pipe.writers), w.puts) + multiset{w.next}
  {
    if r.outcome.Pends? {
      RollAddsWriter(w.pipe.writers, Writer(w.next, prio, min, r.taken, data[|r.taken|..]), w.puts);
    } else {
      RollReturn(WriterAccounts(w.pipe.writers), w.puts, Finished(Account(w.next, min, r.taken, |data|), r.outcome.code));
    }
  }

  lemma PutCounts(w: World, prio: int, data: seq<Byte>, min: nat, wait: bool)
    requires Inv(w) && Counted(w)
    ensures Counted(AfterPut(w, Put(w.pipe, w.next, prio, data, min, wait), data, min))
  {
    var r := Put(w.pipe, w.next, prio, data, min, wait);
    PutDoesFit(w.pipe, w.next, prio, data, min, wait);
    PutCountsReaders(w, r, prio, data, min);
    PutCountsWriters(w, r, prio, data, min);
    CountedPut(w, r, data, min);
  }

  lemma CountedPut(w: World, r: PutResult, data: seq<Byte>, min: nat)
    requires Counted(w)
    requires Roll(ReaderAccounts(r.pipe.readers), w.gets + Returns(ReaderAccounts(r.woken))) ==
             Roll(ReaderAccounts(w.pipe.readers), w.gets)
    requires Roll(WriterAccounts(r.pipe.writers), AfterPut(w, r, data, min).puts) ==
             Roll(WriterAccounts(w.pipe.writers), w.puts) + multiset{w.next}
    ensures Counted(AfterPut(w, r, data, min))
  {
    KeysAdd(w.offered, w.next, data);
    NextCall(w.offered.Keys, w.asked.Keys, w.next);
    assert w.offered[w.next := data].Keys == w.offered.Keys + {w.next};
  }

  lemma GetCountsWriters(w: World, r: GetResult, prio: int, total: nat, min: nat)
    requires WriterBooks(w) && GetFits(w.pipe, r, w.next, prio, total, min)
    ensures Roll(WriterAccounts(r.pipe.writers), w.puts + Returns(WriterAccounts(r.woken))) ==
            Roll(WriterAccounts(w.pipe.writers), w.puts)
  {
    var ws, d := w.pipe.writers, Drain(w.pipe.writers, total);
    DrainSettles(ws, total);
    SameCalls(d.log, WriterAccounts(ws), WriterAccounts(d.done + d.left));
    WriterAccountsConcat(d.done, d.left);
    RollSettles(WriterAccounts(ws), WriterAccounts(d.done), WriterAccounts(d.left), w.puts);
    assert WriterAccounts([]) == [] && w.puts + Returns([]) == w.puts;
  }

  lemma RollAddsReader(rs: seq<Reader>, req: Reader, gets: seq<Finished>)
    ensures Roll(ReaderAccounts(AddReader(rs, req)), gets) == Roll(ReaderAccounts(rs), gets) + multiset{req.call}
  {
    var k := Slot(ReaderPrios(rs), req.prio);
    ReaderAccountsInsert(rs, k, req);
    RollInsert(ReaderAccounts(rs), k, Account(req.call, req.min, req.got, |req.got| + req.want), gets);
  }

  lemma GetCountsReaders(w: World, r: GetResult, prio: int, total: nat, min: nat)
    requires GetFits(w.pipe, r, w.next, prio, total, min)
    ensures Roll(ReaderAccounts(r.pipe.readers), AfterGet(w, r, total, min).gets) ==
            Roll(ReaderAccounts(w.pipe.readers), w.gets) + multiset{w.next}
  {
    if r.outcome.Pends? {
      RollAddsReader(w.pipe.readers, Reader(w.next, prio, min, r.got, total - |r.got|), w.gets);
    } else {
      RollReturn(ReaderAccounts(w.pipe.readers), w.gets, Finished(Account(w.next, min, r.got, total), r.outcome.code));
    }
  }

  lemma GetCounts(w: World, prio: int, total: nat, min: nat, wait: bool)
    requires Inv(w) && Counted(w)
    ensures Counted(AfterGet(w, Get(w.pipe, w.next, prio, total, min, wait), total, min))
  {
    var r := Get(w.pipe, w.next, prio, total, min, wait);
    GetDoesFit(w.pipe, w.next, prio, total, min, wait);
    GetCountsWriters(w, r, prio, total, min);
    GetCountsReaders(w, r, prio, total, min);
    CountedGet(w, r, total, min);
  }

  lemma CountedGet(w: World, r: GetResult, total: nat, min: nat)
    requires Counted(w)
    requires Roll(WriterAccounts(r.pipe.writers), w.puts + Returns(WriterAccounts(r.woken))) ==
             Roll(WriterAccounts(w.pipe.writers), w.puts)
    requires Roll(ReaderAccounts(r.pipe.readers), AfterGet(w, r, total, min).gets) ==
             Roll(ReaderAccounts(w.pipe.readers), w.gets) + multiset{w.next}
    ensures Counted(AfterGet(w, r, total, min))
  {
    KeysAdd(w.asked, w.next, total);
    NextCall(w.asked.Keys, w.offered.Keys, w.next);
    assert w.asked[w.next := total].Keys == w.asked.Keys + {w.next};
  }

  lemma ExpireReaderCounts(w: World, k: nat)
    requires Counted(w) && k < |w.pipe.readers|
    ensures Counted(ExpireReader(w, k))
  {
    RollExpires(ReaderAccounts(w.pipe.readers), k, w.gets);
    ReaderAccountsGap(w.pipe.readers, k);
  }

  lemma ExpireWriterCounts(w: World, k: nat)
    requires Counted(w) && k < |w.pipe.writers|
    ensures Counted(ExpireWriter(w, k))
  {
    RollExpires(WriterAccounts(w.pipe.writers), k, w.puts);
    WriterAccountsGap(w.pipe.writers, k);
  }

  lemma ExpireCounts(w: World, call: nat)
    requires Counted(w)
    ensures Counted(StepExpire(w, call))
  {
    var k := Find(Calls(ReaderAccounts(w.pipe.readers)), call);
    var l := Find(Calls(WriterAccounts(w.pipe.writers)), call);
    if k < |w.pipe.readers| {
      ExpireReaderCounts(w, k);
    } else if l < |w.pipe.writers| {
      ExpireWriterCounts(w, l);
    }
  }

  lemma {:induction false} EveryCallOnce(size: nat, ops: seq<Op>)
    ensures Counted(Run(size, ops))
  {
    if ops != [] {
      var front, op := ops[..|ops| - 1], ops[|ops| - 1];
      EveryCallOnce(size, front);
      match op
      case PutOp(prio, data, min, wait) => PutCounts(Run(size, front), prio, data, min, wait);
      case GetOp(prio, total, min, wait) => GetCounts(Run(size, front), prio, total, min, wait);
      case Expire(call) => ExpireCounts(Run(size, front), call);
    }
  }

  // ----------------------------------------------------- who waits, and who ends

  lemma PutEnters(w: World, r: PutResult, prio: int, data: seq<Byte>, min: nat)
    requires WriterBooks(w) && PutFits(w.pipe, r, w.next, prio, data, min)
    ensures w.next in Calls(WriterAccounts(r.pipe.writers)) <==> r.outcome.Pends?
  {
    if r.outcome.Pends? {
      WriterCalls(r.pipe.writers, Writer(w.next, prio, min, r.taken, data[|r.taken|..]));
    }
  }

  /** A put pends exactly when it may wait, is not refused, has bytes left over, and
      has not reached its minimum or has none. */
  lemma PutPendsExactly(p: Pipe, call: nat, prio: int, data: seq<Byte>, min: nat, wait: bool)
    requires WaitRules(p)
    ensures var r := Put(p, call, prio, data, min, wait);
            r.outcome.Pends? <==> wait && min <= |data| && |r.taken| < |data| && (min == 0 || |r.taken| < min)
  {
    if min <= |data| {
      if wait {
        PutWaits(p, call, prio, data, min);
      } else {
        PutNoWait(p, call, prio, data, min);
      }
    }
  }

  lemma GetPendsExactly(p: Pipe, call: nat, prio: int, total: nat, min: nat, wait: bool)
    requires WaitRules(p)
    ensures var r := Get(p, call, prio, total, min, wait);
            r.outcome.Pends? <==> wait && min <= total && |r.got| < total && (min == 0 || |r.got| < min)
  {
    if min <= total {
      if wait {
        GetWaits(p, call, prio, total, min);
      } else {
        GetNoWait(p, call, prio, total, min);
      }
    }
  }

  /** In any run exactly such a put joins the waiters. */
  lemma PutJoins(w: World, prio: int, data: seq<Byte>, min: nat, wait: bool)
    requires Inv(w)
    ensures var v := Step(w, PutOp(prio, data, min, wait));
            var moved := |BytesOf(v.taken, w.next)|;
            w.next in Calls(WriterAccounts(v.pipe.writers)) <==>
              wait && min <= |data| && moved < |data| && (min == 0 || moved < min)
  {
    var r := Put(w.pipe, w.next, prio, data, min, wait);
    PutAccount(w, r, data, min);
    PutDoesFit(w.pipe, w.next, prio, data, min, wait);
    PutEnters(w, r, prio, data, min);
    PutPendsExactly(w.pipe, w.next, prio, data, min, wait);
  }

  lemma PutAccount(w: World, r: PutResult, data: seq<Byte>, min: nat)
    requires WriterBooks(w)
    ensures BytesOf(AfterPut(w, r, data, min).taken, w.next) == r.taken
  {
    BytesOfOne(w.taken, w.next, r.taken, w.next);
  }

  lemma WriterCalls(ws: seq<Writer>, x: Writer)
    requires x in ws
    ensures x.call in Calls(WriterAccounts(ws))
  {
    var i :| 0 <= i < |ws| && ws[i] == x;
    assert Calls(WriterAccounts(ws))[i] == x.call;
  }

  lemma ReaderCalls(rs: seq<Reader>, x: Reader)
    requires x in rs
    ensures x.call in Calls(ReaderAccounts(rs))
  {
    var i :| 0 <= i < |rs| && rs[i] == x;
    assert Calls(ReaderAccounts(rs))[i] == x.call;
  }

  lemma GetEnters(w: World, r: GetResult, prio: int, total: nat, min: nat)
    requires ReaderBooks(w) && GetFits(w.pipe, r, w.next, prio, total, min)
    ensures w.next in Calls(ReaderAccounts(r.pipe.readers)) <==> r.outcome.Pends?
  {
    if r.outcome.Pends? {
      ReaderCalls(r.pipe.readers, Reader(w.next, prio, min, r.got, total - |r.got|));
    }
  }

  lemma GetJoins(w: World, prio: int, total: nat, min: nat, wait: bool)
    requires Inv(w)
    ensures var v := Step(w, GetOp(prio, total, min, wait));
            var moved := |BytesOf(v.delivered, w.next)|;
            w.next in Calls(ReaderAccounts(v.pipe.readers)) <==>
              wait && min <= total && moved < total && (min == 0 || moved < min)
  {
    var r := Get(w.pipe, w.next, prio, total, min, wait);
    GetAccount(w, r, total, min);
    GetDoesFit(w.pipe, w.next, prio, total, min, wait);
    GetEnters(w, r, prio, total, min);
    GetPendsExactly(w.pipe, w.next, prio, total, min, wait);
  }

  lemma GetAccount(w: World, r: GetResult, total: nat, min: nat)
    requires ReaderBooks(w)
    ensures BytesOf(AfterGet(w, r, total, min).delivered, w.next) == r.got
  {
    BytesOfOne(w.delivered, w.next, r.got, w.next);
  }

  /** A wait that expires is over: the call is no longer among the waiters, the others
      wait on in their order, and it returns what it has moved so far, with success
      exactly when that reaches its minimum. */
  lemma ReaderWaitEnds(w: World, call: nat)
    requires Inv(w) && call in Calls(ReaderAccounts(w.pipe.readers))
    ensures var v := StepExpire(w, call);
            && call !in Calls(ReaderAccounts(v.pipe.readers))
            && |v.pipe.readers| + 1 == |w.pipe.readers| && v.pipe.writers == w.pipe.writers && v.pipe.buffer == w.pipe.buffer
            && |v.gets| == |w.gets| + 1 && v.gets[..|w.gets|] == w.gets && v.puts == w.puts
            && var f := v.gets[|w.gets|];
               f.account.call == call && f.account.moved == BytesOf(w.delivered, call) &&
               f.code == (if |f.account.moved| >= f.account.min then Ok else EAGAIN)
  {
    var k, calls := Find(Calls(ReaderAccounts(w.pipe.readers)), call), Calls(ReaderAccounts(w.pipe.readers));
    ReaderAccountsGap(w.pipe.readers, k);
    CallsGap(ReaderAccounts(w.pipe.readers), k);
  }

  lemma WriterWaitEnds(w: World, call: nat)
    requires Inv(w) && call !in Calls(ReaderAccounts(w.pipe.readers)) && call in Calls(WriterAccounts(w.pipe.writers))
    ensures var v := StepExpire(w, call);
            && call !in Calls(WriterAccounts(v.pipe.writers))
            && |v.pipe.writers| + 1 == |w.pipe.writers| && v.pipe.readers == w.pipe.readers && v.pipe.buffer == w.pipe.buffer
            && |v.puts| == |w.puts| + 1 && v.puts[..|w.puts|] == w.puts && v.gets == w.gets
            && var f := v.puts[|w.puts|];
               f.account.call == call && f.account.moved == BytesOf(w.taken, call) &&
               f.code == (if |f.account.moved| >= f.account.min then Ok else EAGAIN)
  {
    var l := Find(Calls(WriterAccounts(w.pipe.writers)), call);
    WriterAccountsGap(w.pipe.writers, l);
    CallsGap(WriterAccounts(w.pipe.writers), l);
  }

  lemma CallsGap(accounts: seq<Account>, k: nat)
    requires NoDup(Calls(accounts)) && k < |accounts|
    ensures accounts[k].call !in Calls(accounts[..k] + accounts[k + 1..])
  {
    var rest := accounts[..k] + accounts[k + 1..];
    forall i | 0 <= i < |rest| ensures Calls(rest)[i] != accounts[k].call {
      var j := if i < k then i else i + 1;
      assert rest[i] == accounts[j] && Calls(accounts)[j] != Calls(accounts)[k];
    }
  }
}
