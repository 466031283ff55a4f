/** The code that the system call generator emits on both sides of the trap: the
    wrapper that lays the arguments out in words, and the marshaller that picks them
    up again.  What one writes, the other reads. */
module SyscallMarshalling {
  import opened Common

  datatype Arg = Arg(typ: string, name: string)

  /** How the generator is invoked: whether registers hold 64 bits, and the types that
      are that wide, which are two built-in ones and those named on the command line. */
  datatype Config = Config(longRegisters: bool, types64: set<string>)

  /** An argument is split in two words when it is wider than a register. */
  predicate NeedSplit(typ: string, cfg: Config) {
    !cfg.longRegisters && typ in cfg.types64
  }

  // ------------------------------------------------------------ the emitted code

  /** What the wrapper writes in a word: half of a split parameter, a whole argument,
      or the address of the 64-bit result or of the array of further words. */
  datatype Rvalue = Low(parm: nat) | High(parm: nat) | Whole(name: string) | ResultAddress | MoreAddress

  /** Where the marshaller reads a word: an argument register, or the array. */
  datatype Slot = Register(n: nat) | More(n: nat)

  datatype Wrapper = Wrapper(parms: seq<Arg>, invoke: seq<Rvalue>, more: seq<Rvalue>)

  /** The split parameters with their two words, the arguments passed on, and the word
      that holds the address of a 64-bit result. */
  datatype Marshaller = Marshaller(splits: seq<(Slot, Slot)>, outs: seq<Out>, result: Option<Slot>)

  datatype Out = Cast(slot: Slot) | Parm(n: nat)

  // -------------------------------------------------------------- specification

  function Splits(args: seq<Arg>, cfg: Config): seq<Arg> {
    if args == [] then []
    else
      var last := args[|args| - 1];
      Splits(args[..|args| - 1], cfg) + (if NeedSplit(last.typ, cfg) then [last] else [])
  }

  /** The words of the arguments, in order. */
  function Words(args: seq<Arg>, cfg: Config): seq<Rvalue> {
    if args == [] then []
    else
      var front, last := args[..|args| - 1], args[|args| - 1];
      var n := |Splits(front, cfg)|;
      Words(front, cfg) + (if NeedSplit(last.typ, cfg) then [Low(n), High(n)] else [Whole(last.name)])
  }

  function AllWords(typ: string, args: seq<Arg>, cfg: Config): seq<Rvalue> {
    Words(args, cfg) + (if NeedSplit(typ, cfg) then [ResultAddress] else [])
  }

  function Spilled(parms: seq<Arg>, words: seq<Rvalue>): Wrapper {
    if |words| > 6 then Wrapper(parms, words[..5] + [MoreAddress], words[5..]) else Wrapper(parms, words, [])
  }

  /** The word numbers at which the split parameters start. */
  function Starts(args: seq<Arg>, cfg: Config): seq<nat> {
    if args == [] then []
    else
      var front, last := args[..|args| - 1], args[|args| - 1];
      Starts(front, cfg) + (if NeedSplit(last.typ, cfg) then [Width(front, cfg)] else [])
  }

  function Width(args: seq<Arg>, cfg: Config): nat {
    if args == [] then 0
    else Width(args[..|args| - 1], cfg) + (if NeedSplit(args[|args| - 1].typ, cfg) then 2 else 1)
  }

  /** For each argument the split parameter or the word that holds it. */
  datatype Place = Place(n: nat, split: bool)

  function Places(args: seq<Arg>, cfg: Config): seq<Place> {
    if args == [] then []
    else
      var front, last := args[..|args| - 1], args[|args| - 1];
      Places(front, cfg) +
      [if NeedSplit(last.typ, cfg) then Place(|Starts(front, cfg)|, true) else Place(Width(front, cfg), false)]
  }

  function ReadWord(n: nat, total: nat): Slot {
    if n < 5 || total <= 6 then Register(n) else More(n - 5)
  }

  function ReadPairs(starts: seq<nat>, total: nat): (r: seq<(Slot, Slot)>)
    ensures |r| == |starts| && forall i :: 0 <= i < |starts| ==> r[i] == (ReadWord(starts[i], total), ReadWord(starts[i] + 1, total))
  {
    seq(|starts|, i requires 0 <= i < |starts| => (ReadWord(starts[i], total), ReadWord(starts[i] + 1, total)))
  }

  function ReadOuts(places: seq<Place>, total: nat): (r: seq<Out>)
    ensures |r| == |places| && forall i :: 0 <= i < |places| ==>
      r[i] == if places[i].split then Parm(places[i].n) else Cast(ReadWord(places[i].n, total))
  {
    seq(|places|, i requires 0 <= i < |places| =>
      if places[i].split then Parm(places[i].n) else Cast(ReadWord(places[i].n, total)))
  }

  // ------------------------------------------------------------- the generator

  method WrapperDefs(typ: string, args: seq<Arg>, cfg: Config) returns (w: Wrapper)
    ensures w == Spilled(Splits(args, cfg), AllWords(typ, args, cfg))
    ensures |w.invoke| <= 6
  {
    var mrshArgs: seq<Rvalue>, splitArgs: seq<Arg>, nsplit := [], [], 0;
    for i := 0 to |args|
      invariant nsplit == |splitArgs| && splitArgs == Splits(args[..i], cfg) && mrshArgs == Words(args[..i], cfg)
    {
      assert args[..i + 1][..i] == args[..i] && args[..i + 1][i] == args[i];
      if NeedSplit(args[i].typ, cfg) {
        splitArgs := splitArgs + [args[i]];
        mrshArgs := mrshArgs + [Low(nsplit), High(nsplit)];
        nsplit := nsplit + 1;
      } else {
        mrshArgs := mrshArgs + [Whole(args[i].name)];
      }
    }
    assert args[..|args|] == args;
    if NeedSplit(typ, cfg) {
      mrshArgs := mrshArgs + [ResultAddress];
    }
    var more: seq<Rvalue> := [];
    if |mrshArgs| > 6 {
      more := mrshArgs[5..];
      mrshArgs := mrshArgs[..5] + [MoreAddress];
    }
    w := Wrapper(splitArgs, mrshArgs, more);
  }

  method MarshallDefs(typ: string, args: seq<Arg>, cfg: Config) returns (m: Marshaller)
    ensures var total := Width(args, cfg) + (if NeedSplit(typ, cfg) then 1 else 0);
            m == Marshaller(ReadPairs(Starts(args, cfg), total), ReadOuts(Places(args, cfg), total),
                            if NeedSplit(typ, cfg) then Some(ReadWord(total - 1, total)) else None)
  {
    var nmrsh, vrfy: seq<Place>, splits: seq<nat> := 0, [], [];
    for i := 0 to |args|
      invariant nmrsh == Width(args[..i], cfg) && splits == Starts(args[..i], cfg) && vrfy == Places(args[..i], cfg)
    {
      assert args[..i + 1][..i] == args[..i] && args[..i + 1][i] == args[i];
      if NeedSplit(args[i].typ, cfg) {
        vrfy := vrfy + [Place(|splits|, true)];
        splits := splits + [nmrsh];
        nmrsh := nmrsh + 2;
      } else {
        vrfy := vrfy + [Place(nmrsh, false)];
        nmrsh := nmrsh + 1;
      }
    }
    assert args[..|args|] == args;
    if NeedSplit(typ, cfg) {
      nmrsh := nmrsh + 1;
    }
    var pairs: seq<(Slot, Slot)> := [];
    for i := 0 to |splits|
      invariant pairs == ReadPairs(splits, nmrsh)[..i]
    {
      pairs := pairs + [(ReadWord(splits[i], nmrsh), ReadWord(splits[i] + 1, nmrsh))];
    }
    var outs: seq<Out> := [];
    for i := 0 to |vrfy|
      invariant outs == ReadOuts(vrfy, nmrsh)[..i]
    {
      outs := outs + [if vrfy[i].split then Parm(vrfy[i].n) else Cast(ReadWord(vrfy[i].n, nmrsh))];
    }
    m := Marshaller(pairs, outs, if NeedSplit(typ, cfg) then Some(ReadWord(nmrsh - 1, nmrsh)) else None);
  }

  // --------------------------------------------------------- what the code means

  datatype Value = Word(w: int) | Wide(lo: int, hi: int)

  /** Values fit the arguments they are passed for. */
  predicate Typed(args: seq<Arg>, env: map<string, Value>, cfg: Config) {
    forall i :: 0 <= i < |args| ==>
      args[i].name in env && (env[args[i].name].Wide? <==> NeedSplit(args[i].typ, cfg))
  }

  /** The value of a word, where each parameter holds the argument of its name. */
  function Eval(r: Rvalue, parms: seq<Arg>, env: map<string, Value>, result: int, more: int): Option<int> {
    match r
    case Low(n) =>
      if n < |parms| && parms[n].name in env && env[parms[n].name].Wide? then Some(env[parms[n].name].lo) else None
    case High(n) =>
      if n < |parms| && parms[n].name in env && env[parms[n].name].Wide? then Some(env[parms[n].name].hi) else None
    case Whole(name) => if name in env && env[name].Word? then Some(env[name].w) else None
    case ResultAddress => Some(result)
    case MoreAddress => Some(more)
  }

  /** The word that the marshaller finds in a slot. */
  function Found(w: Wrapper, slot: Slot): Option<Rvalue> {
    match slot
    case Register(n) => if n < |w.invoke| then Some(w.invoke[n]) else None
    case More(n) => if n < |w.more| then Some(w.more[n]) else None
  }

  function Read(w: Wrapper, slot: Slot, env: map<string, Value>, result: int, more: int): Option<int> {
    match Found(w, slot)
    case None => None
    case Some(r) => Eval(r, w.parms, env, result, more)
  }

  /** The argument that the marshaller passes on. */
  function Passed(w: Wrapper, m: Marshaller, i: nat, env: map<string, Value>, result: int, more: int): Option<Value>
    requires i < |m.outs|
  {
    match m.outs[i]
    case Cast(slot) =>
      (match Read(w, slot, env, result, more)
       case Some(x) => Some(Word(x))
       case None => None)
    case Parm(n) =>
      if n < |m.splits| then
        (match (Read(w, m.splits[n].0, env, result, more), Read(w, m.splits[n].1, env, result, more))
         case (Some(lo), Some(hi)) => Some(Wide(lo, hi))
         case _ => None)
      else None
  }

  // ------------------------------------------------------------------ round trip

  lemma {:induction false} Layout(args: seq<Arg>, cfg: Config)
    ensures |Words(args, cfg)| == Width(args, cfg) && |Places(args, cfg)| == |args|
    ensures |Starts(args, cfg)| == |Splits(args, cfg)|
  {
    if args != [] {
      Layout(args[..|args| - 1], cfg);
    }
  }

  /** Each argument's place holds what the wrapper wrote for it. */
  ghost predicate Placed(args: seq<Arg>, cfg: Config, i: nat)
    requires i < |args|
  {
    var ps, words, starts, splits := Places(args, cfg), Words(args, cfg), Starts(args, cfg), Splits(args, cfg);
    && i < |ps| && (ps[i].split <==> NeedSplit(args[i].typ, cfg))
    && (ps[i].split ==>
          var n := ps[i].n;
          n < |starts| && n < |splits| && splits[n] == args[i] &&
          starts[n] + 1 < |words| && words[starts[n]] == Low(n) && words[starts[n] + 1] == High(n))
    && (!ps[i].split ==> ps[i].n < |words| && words[ps[i].n] == Whole(args[i].name))
  }

  lemma {:induction false} PlacedAll(args: seq<Arg>, cfg: Config, i: nat)
    requires i < |args|
    ensures Placed(args, cfg, i)
  {
    var front := args[..|args| - 1];
    Layout(front, cfg);
    if i < |front| {
      PlacedAll(front, cfg, i);
      assert front[i] == args[i];
    }
  }

  /** Spilling moves words to the array and the marshaller looks for them there. */
  lemma SpillRead(parms: seq<Arg>, words: seq<Rvalue>, n: nat)
    requires n < |words|
    ensures Found(Spilled(parms, words), ReadWord(n, |words|)) == Some(words[n])
  {
  }

  /** For every list of arguments, word-sized or split, with or without a 64-bit
      result, the marshaller passes on the values the wrapper was called with and
      finds the address of the result where the wrapper put it. */
  lemma RoundTrip(typ: string, args: seq<Arg>, cfg: Config, w: Wrapper, m: Marshaller,
                  env: map<string, Value>, result: int, more: int)
    requires w == Spilled(Splits(args, cfg), AllWords(typ, args, cfg))
    requires var total := Width(args, cfg) + (if NeedSplit(typ, cfg) then 1 else 0);
             m == Marshaller(ReadPairs(Starts(args, cfg), total), ReadOuts(Places(args, cfg), total),
                             if NeedSplit(typ, cfg) then Some(ReadWord(total - 1, total)) else None)
    requires Typed(args, env, cfg)
    ensures |m.outs| == |args| && |w.invoke| <= 6
    ensures forall i :: 0 <= i < |args| ==> Passed(w, m, i, env, result, more) == Some(env[args[i].name])
    ensures NeedSplit(typ, cfg) ==> m.result.Some? && Read(w, m.result.value, env, result, more) == Some(result)
  {
    Layout(args, cfg);
    forall i | 0 <= i < |args| ensures Passed(w, m, i, env, result, more) == Some(env[args[i].name]) {
      PassedOn(typ, args, cfg, w, m, env, result, more, i);
    }
    if NeedSplit(typ, cfg) {
      ResultFound(typ, args, cfg, env, result, more);
    }
  }

  lemma ResultFound(typ: string, args: seq<Arg>, cfg: Config, env: map<string, Value>, result: int, more: int)
    requires NeedSplit(typ, cfg)
    ensures var words := AllWords(typ, args, cfg);
            Read(Spilled(Splits(args, cfg), words), ReadWord(|words| - 1, |words|), env, result, more) == Some(result)
  {
    var words := AllWords(typ, args, cfg);
    SpillRead(Splits(args, cfg), words, |words| - 1);
  }

  lemma PassedOn(typ: string, args: seq<Arg>, cfg: Config, w: Wrapper, m: Marshaller,
                 env: map<string, Value>, result: int, more: int, i: nat)
    requires w == Spilled(Splits(args, cfg), AllWords(typ, args, cfg)) && i < |args| == |m.outs|
    requires var total := |AllWords(typ, args, cfg)|;
             m.splits == ReadPairs(Starts(args, cfg), total) && m.outs == ReadOuts(Places(args, cfg), total)
    requires Typed(args, env, cfg)
    ensures Passed(w, m, i, env, result, more) == Some(env[args[i].name])
  {
    Layout(args, cfg);
    PlacedAll(args, cfg, i);
    var words, p := AllWords(typ, args, cfg), Places(args, cfg)[i];
    if p.split {
      var n := Starts(args, cfg)[p.n];
      HalvesFound(w.parms, words, n, args[i], p.n, env, result, more);
    } else {
      WordFound(w.parms, words, p.n, args[i].name, env, result, more);
    }
  }

  lemma WordFound(parms: seq<Arg>, words: seq<Rvalue>, n: nat, name: string,
                  env: map<string, Value>, result: int, more: int)
    requires n < |words| && words[n] == Whole(name) && name in env && env[name].Word?
    ensures Read(Spilled(parms, words), ReadWord(n, |words|), env, result, more) == Some(env[name].w)
  {
    SpillRead(parms, words, n);
  }

  lemma HalvesFound(parms: seq<Arg>, words: seq<Rvalue>, n: nat, arg: Arg, k: nat,
                    env: map<string, Value>, result: int, more: int)
    requires n + 1 < |words| && words[n] == Low(k) && words[n + 1] == High(k)
    requires k < |parms| && parms[k] == arg && arg.name in env && env[arg.name].Wide?
    ensures var w, v := Spilled(parms, words), env[arg.name];
            && Read(w, ReadWord(n, |words|), env, result, more) == Some(v.lo)
            && Read(w, ReadWord(n + 1, |words|), env, result, more) == Some(v.hi)
  {
    SpillRead(parms, words, n);
    SpillRead(parms, words, n + 1);
  }

  // ---------------------------------------------------- the words that are checked

  /** How many words of the array the marshaller checks before it reads any. */
  function Checked(total: nat): nat {
    if total > 6 then total - 6 else 0
  }

  predicate Covered(slot: Slot, total: nat) {
    slot.More? ==> slot.n < Checked(total)
  }

  /** All slots that a marshaller reads lie in the registers or in the checked words. */
  predicate AllCovered(m: Marshaller, total: nat) {
    && (forall i :: 0 <= i < |m.splits| ==> Covered(m.splits[i].0, total) && Covered(m.splits[i].1, total))
    && (forall i :: 0 <= i < |m.outs| && m.outs[i].Cast? ==> Covered(m.outs[i].slot, total))
    && (m.result.Some? ==> Covered(m.result.value, total))
  }

  /** The check covers every word but the last, so it is complete exactly when no
      array is used. */
  lemma CheckIsComplete(typ: string, args: seq<Arg>, cfg: Config, m: Marshaller, total: nat)
    requires total == |AllWords(typ, args, cfg)|
    requires m == Marshaller(ReadPairs(Starts(args, cfg), total), ReadOuts(Places(args, cfg), total),
                             if NeedSplit(typ, cfg) then Some(ReadWord(total - 1, total)) else None)
    ensures AllCovered(m, total) <==> total <= 6
  {
    Layout(args, cfg);
    if total > 6 && !NeedSplit(typ, cfg) {
      var front, last := args[..|args| - 1], args[|args| - 1];
      Layout(front, cfg);
      if NeedSplit(last.typ, cfg) {
        var k := |Starts(front, cfg)|;
        assert m.splits[k].1 == ReadWord(total - 1, total);
      } else {
        assert m.outs[|front|] == Cast(ReadWord(total - 1, total));
      }
    }
  }

  // ------------------------------------------------------------ how many words

  function WideOnes(args: seq<Arg>, types64: set<string>): nat {
    if args == [] then 0
    else WideOnes(args[..|args| - 1], types64) + (if args[|args| - 1].typ in types64 then 1 else 0)
  }

  /** Every argument takes one word, and one more exactly if its type is a wide one and
      registers are not; so does a wide result. */
  lemma {:induction false} WordsCounted(typ: string, args: seq<Arg>, cfg: Config)
    ensures cfg.longRegisters ==> |AllWords(typ, args, cfg)| == |args| && Splits(args, cfg) == []
    ensures !cfg.longRegisters ==>
            && |AllWords(typ, args, cfg)| == |args| + WideOnes(args, cfg.types64) + (if typ in cfg.types64 then 1 else 0)
            && |Splits(args, cfg)| == WideOnes(args, cfg.types64)
  {
    if args != [] {
      WordsCounted(typ, args[..|args| - 1], cfg);
    }
  }
}
