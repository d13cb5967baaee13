/** What a harness does when it runs.

    Memory is a sequence of disjoint regions; a pointer is the index of the region it points to
    the start of.  A machine step executes one whole block.  Anything the C library or LLVM
    leaves undefined (an access outside a region or to a dead one, a read of a result that was
    never computed, a block without a terminator) is the configuration `Faulted`.
  */
module Semantics {
  import opened IR

  type byte = b: int | 0 <= b < 256
  type Bytes = seq<byte>

  datatype Value = VInt(bits: uint64) | VBool(b: bool) | VPtr(region: nat) | VBytes(bytes: Bytes)

  datatype Region = Region(bytes: Bytes, heap: bool, live: bool)

  datatype Event = Malloced(region: nat) | Called(iteration: uint64) | Freed(region: nat)

  /** The iterations the encapsulated function was called for, in order. */
  function CallsMade(log: seq<Event>): seq<uint64>
    decreases |log|
  {
    if log == [] then []
    else CallsMade(log[..|log| - 1]) + if log[|log| - 1].Called? then [log[|log| - 1].iteration] else []
  }

  lemma {:induction false} CallsMadeAdd(a: seq<Event>, b: seq<Event>)
    ensures CallsMade(a + b) == CallsMade(a) + CallsMade(b)
    decreases |b|
  {
    if b == [] {
      assert a + b == a;
    } else {
      CallsMadeAdd(a, b[..|b| - 1]);
      assert (a + b)[..|a + b| - 1] == a + b[..|b| - 1];
    }
  }

  /** The regions that were allocated by `malloc`, and those that were freed, in order. */
  function Mallocs(log: seq<Event>): seq<nat>
    decreases |log|
  {
    if log == [] then []
    else Mallocs(log[..|log| - 1]) + if log[|log| - 1].Malloced? then [log[|log| - 1].region] else []
  }

  function Frees(log: seq<Event>): seq<nat>
    decreases |log|
  {
    if log == [] then []
    else Frees(log[..|log| - 1]) + if log[|log| - 1].Freed? then [log[|log| - 1].region] else []
  }

  lemma {:induction false} MallocsAdd(a: seq<Event>, b: seq<Event>)
    ensures Mallocs(a + b) == Mallocs(a) + Mallocs(b)
    decreases |b|
  {
    if b == [] {
      assert a + b == a;
    } else {
      MallocsAdd(a, b[..|b| - 1]);
      assert (a + b)[..|a + b| - 1] == a + b[..|b| - 1];
    }
  }

  lemma {:induction false} FreesAdd(a: seq<Event>, b: seq<Event>)
    ensures Frees(a + b) == Frees(a) + Frees(b)
    decreases |b|
  {
    if b == [] {
      assert a + b == a;
    } else {
      FreesAdd(a, b[..|b| - 1]);
      assert (a + b)[..|a + b| - 1] == a + b[..|b| - 1];
    }
  }

  function Calls(log: seq<Event>): nat {
    |CallsMade(log)|
  }

  /** An argument as the encapsulated function receives it. */
  datatype Actual = IntArg(bits: uint64) | ScalarArg(bytes: Bytes) | BufferArg(bytes: Bytes)

  /** What the harness cannot control: the bytes of fresh memory, the bytes made symbolic (each
      by region and offset), and the encapsulated function, given as the byte it leaves at an
      offset of a buffer argument.  The function thus writes only to buffers passed to it.
    */
  datatype World = World(junk: (nat, nat) -> byte, sym: (nat, nat) -> byte, f: (seq<Actual>, nat, nat) -> byte)

  type Env = map<Operand, Value>

  datatype State = State(env: Env, mem: seq<Region>, log: seq<Event>)

  const ENTRY_STATE := State(map[], [], [])

  datatype Outcome = Ok(st: State) | Undefined | AssertFailed

  datatype Config =
    | At(block: Label, prev: Label, st: State)
    | Returned(value: Value, st: State)
    | Failed(block: Label, st: State)
    | Faulted

  /** Control is about to enter block `l`. */
  predicate In(c: Config, l: Label) {
    c.At? && c.block == l
  }

  // ----- values -----

  function ToSigned(u: uint64): int {
    if u < TWO_63 then u else u - TWO_64
  }

  /** The 64 bits that represent a mathematical integer. */
  function Bits(x: int): uint64 {
    x % TWO_64
  }

  predicate Defined(o: Operand, env: Env) {
    o.Const? || o in env
  }

  function Eval(o: Operand, env: Env): Value
    requires Defined(o, env)
  {
    match o
    case Const(bits) => VInt(bits)
    case Inst(_, _) => env[o]
  }

  predicate IsInt(o: Operand, env: Env) {
    Defined(o, env) && Eval(o, env).VInt?
  }

  /** `o` is a pointer to a live region of at least `n` bytes. */
  predicate Points(o: Operand, st: State, n: nat) {
    Defined(o, st.env) && Eval(o, st.env).VPtr? &&
    var r := Eval(o, st.env).region;
    r < |st.mem| && st.mem[r].live && n <= |st.mem[r].bytes|
  }

  function Target(o: Operand, st: State): nat
    requires Points(o, st, 0)
  {
    Eval(o, st.env).region
  }

  /** `memcmp`: zero, or the difference of the first two bytes that differ, as 32 bits. */
  function MemCmp(a: Bytes, b: Bytes): (r: uint64)
    requires |a| == |b|
    ensures r == 0 <==> a == b
  {
    if a == [] then 0
    else if a[0] != b[0] then (a[0] - b[0]) % TWO_32
    else
      assert a == [a[0]] + a[1..] && b == [b[0]] + b[1..];
      MemCmp(a[1..], b[1..])
  }

  function Compare(p: Pred, a: uint64, b: uint64): bool {
    match p
    case Slt => ToSigned(a) < ToSigned(b)
    case Sge => ToSigned(a) >= ToSigned(b)
    case Eq => a == b
  }

  /** `n` bytes of region `r` taken from the oracle `g`. */
  function Fill(n: nat, g: (nat, nat) -> byte, r: nat): (bytes: Bytes)
    ensures |bytes| == n
  {
    seq<byte>(n, (q: nat) => g(r, q))
  }

  /** Signed values are the 64-bit two's complement: each bit pattern stands for the one number in
      range that it is the low 64 bits of. */
  lemma {:induction false} SignedExact(u: uint64)
    ensures -0x8000_0000_0000_0000 <= ToSigned(u) < 0x8000_0000_0000_0000 && Bits(ToSigned(u)) == u
  {
    if u >= TWO_63 {
      assert ToSigned(u) == u - TWO_64 && (u - TWO_64) % TWO_64 == u;
    }
  }

  // ----- calls of the encapsulated function -----

  predicate Passable(v: Value, mem: seq<Region>) {
    match v
    case VInt(_) => true
    case VBool(_) => false
    case VPtr(r) => r < |mem| && mem[r].live
    case VBytes(_) => true
  }

  function Pass(v: Value, mem: seq<Region>): Actual
    requires Passable(v, mem)
  {
    match v
    case VInt(bits) => IntArg(bits)
    case VPtr(r) => BufferArg(mem[r].bytes)
    case VBytes(bytes) => ScalarArg(bytes)
  }

  /** The `n` bytes the encapsulated function leaves in its argument number `i`. */
  function Written(n: nat, actuals: seq<Actual>, i: nat, w: World): (bytes: Bytes)
    ensures |bytes| == n
  {
    seq<byte>(n, (q: nat) => w.f(actuals, i, q))
  }

  /** Memory once arguments `i` and up have been written back, in order. */
  function WriteBack(mem: seq<Region>, vals: seq<Value>, i: nat, actuals: seq<Actual>, w: World): (r: seq<Region>)
    requires i <= |vals|
    ensures |r| == |mem|
    decreases |vals| - i
  {
    if i == |vals| then mem
    else
      var mem' :=
        if vals[i].VPtr? && vals[i].region < |mem| then
          var r := vals[i].region;
          mem[r := mem[r].(bytes := Written(|mem[r].bytes|, actuals, i, w))]
        else mem;
      WriteBack(mem', vals, i + 1, actuals, w)
  }

  function CallF(args: seq<Operand>, st: State, w: World): Outcome
  {
    if forall i | 0 <= i < |args| :: Defined(args[i], st.env) && Passable(Eval(args[i], st.env), st.mem) then
      var vals := seq(|args|, i requires 0 <= i < |args| => Eval(args[i], st.env));
      var actuals := seq(|args|, i requires 0 <= i < |args| => Pass(vals[i], st.mem));
      var iteration := if |vals| > 0 && vals[0].VInt? then vals[0].bits else 0;
      Ok(st.(mem := WriteBack(st.mem, vals, 0, actuals, w), log := st.log + [Called(iteration)]))
    else Undefined
  }

  // ----- instructions -----

  function Define(st: State, here: Operand, v: Value): State {
    st.(env := st.env[here := v])
  }

  function PhiValue(incoming: seq<Incoming>, prev: Label): (r: seq<Operand>)
    ensures |r| <= 1
  {
    if incoming == [] then []
    else if incoming[0].from == prev then [incoming[0].value]
    else PhiValue(incoming[1..], prev)
  }

  /** A fresh region and a pointer to it. */
  function Allocate(st: State, here: Operand, n: nat, heap: bool, w: World): State {
    var r := |st.mem|;
    var region := Region(Fill(n, w.junk, r), heap, true);
    State(st.env[here := VPtr(r)], st.mem + [region], if heap then st.log + [Malloced(r)] else st.log)
  }

  function SetBytes(st: State, r: nat, bytes: Bytes): State
    requires r < |st.mem|
  {
    st.(mem := st.mem[r := st.mem[r].(bytes := bytes)])
  }

  /** One instruction that is not a terminator, whose result is named `here`. */
  function Execute(i: Instr, here: Operand, prev: Label, st: State, w: World): Outcome
    requires !IsTerminator(i)
  {
    match i
    case Phi(incoming) =>
      var v := PhiValue(incoming, prev);
      if v != [] && Defined(v[0], st.env) then Ok(Define(st, here, Eval(v[0], st.env))) else Undefined
    case Add(a, b) =>
      if IsInt(a, st.env) && IsInt(b, st.env) then
        Ok(Define(st, here, VInt(Bits(Eval(a, st.env).bits + Eval(b, st.env).bits))))
      else Undefined
    case Sub(a, b) =>
      if IsInt(a, st.env) && IsInt(b, st.env) then
        Ok(Define(st, here, VInt(Bits(Eval(a, st.env).bits - Eval(b, st.env).bits))))
      else Undefined
    case ICmp(p, a, b) =>
      if IsInt(a, st.env) && IsInt(b, st.env) then
        Ok(Define(st, here, VBool(Compare(p, Eval(a, st.env).bits, Eval(b, st.env).bits))))
      else Undefined
    case Alloca(size) =>
      Ok(Allocate(st, here, size, false, w))
    case Load(ptr, size) =>
      if Points(ptr, st, size) then Ok(Define(st, here, VBytes(st.mem[Target(ptr, st)].bytes[..size]))) else Undefined
    case BitCast(v) =>
      if Defined(v, st.env) then Ok(Define(st, here, Eval(v, st.env))) else Undefined
    case CallMalloc(n) =>
      if IsInt(n, st.env) then Ok(Allocate(st, here, Eval(n, st.env).bits, true, w)) else Undefined
    case CallFree(ptr) =>
      if Points(ptr, st, 0) && st.mem[Target(ptr, st)].heap then
        var r := Target(ptr, st);
        Ok(State(st.env, st.mem[r := st.mem[r].(live := false)], st.log + [Freed(r)]))
      else Undefined
    case CallMakeSymbolic(ptr, n) =>
      if IsInt(n, st.env) && Points(ptr, st, Eval(n, st.env).bits) then
        var r, size := Target(ptr, st), Eval(n, st.env).bits;
        Ok(SetBytes(st, r, Fill(size, w.sym, r) + st.mem[r].bytes[size..]))
      else Undefined
    case CallMemcpy(dest, src, n) =>
      if IsInt(n, st.env) && Points(dest, st, Eval(n, st.env).bits) && Points(src, st, Eval(n, st.env).bits) &&
         Target(dest, st) != Target(src, st) then
        var r, size := Target(dest, st), Eval(n, st.env).bits;
        Ok(SetBytes(st, r, st.mem[Target(src, st)].bytes[..size] + st.mem[r].bytes[size..]))
      else Undefined
    case CallMemcmp(a, b, n) =>
      if IsInt(n, st.env) && Points(a, st, Eval(n, st.env).bits) && Points(b, st, Eval(n, st.env).bits) then
        var size := Eval(n, st.env).bits;
        Ok(Define(st, here, VInt(MemCmp(st.mem[Target(a, st)].bytes[..size], st.mem[Target(b, st)].bytes[..size]))))
      else Undefined
    case CallEncapsulated(args) => CallF(args, st, w)
    case CallAssertFail => AssertFailed
  }

  /** Block `l` from instruction `pos` on. */
  function Exec(b: Block, l: Label, pos: nat, prev: Label, st: State, w: World): Config
    decreases |b| - pos
  {
    if pos >= |b| then Faulted
    else if IsTerminator(b[pos]) then Branch(b[pos], l, st)
    else
      match Execute(b[pos], Inst(l, pos), prev, st, w)
      case Ok(st') => Exec(b, l, pos + 1, prev, st', w)
      case Undefined => Faulted
      case AssertFailed => Failed(l, st)
  }

  function Branch(t: Instr, l: Label, st: State): Config
    requires IsTerminator(t)
  {
    match t
    case Br(target) => At(target, l, st)
    case CondBr(c, ifTrue, ifFalse) =>
      if Defined(c, st.env) && Eval(c, st.env).VBool? then
        At(if Eval(c, st.env).b then ifTrue else ifFalse, l, st)
      else Faulted
    case Unreachable => Faulted
    case Ret(v) => if Defined(v, st.env) then Returned(Eval(v, st.env), st) else Faulted
  }

  /** One machine step: the whole of the block control is at. */
  function Step(cfg: Cfg, w: World, c: Config): Config {
    match c
    case At(l, prev, st) => if l < |cfg| then Exec(cfg[l], l, 0, prev, st, w) else Faulted
    case _ => c
  }

  /** The configuration after `n` block visits, or the final one if the run ends before that. */
  function Steps(cfg: Cfg, w: World, c: Config, n: nat): Config
    decreases n
  {
    if n == 0 then c else Step(cfg, w, Steps(cfg, w, c, n - 1))
  }

  /** The run from `c` visits exactly `n` blocks and ends in `d`. */
  ghost predicate EndsAfter(cfg: Cfg, w: World, c: Config, n: nat, d: Config) {
    n > 0 && Steps(cfg, w, c, n - 1).At? && Steps(cfg, w, c, n) == d && !d.At?
  }

  lemma {:induction false} StepsAdd(cfg: Cfg, w: World, c: Config, m: nat, n: nat)
    ensures Steps(cfg, w, c, m + n) == Steps(cfg, w, Steps(cfg, w, c, m), n)
    decreases n
  {
    hide Step;
    if n > 0 {
      StepsAdd(cfg, w, c, m, n - 1);
    }
  }

  /** A run that has ended stays where it ended. */
  lemma {:induction false} EndedStays(cfg: Cfg, w: World, c: Config, n: nat)
    requires !c.At?
    ensures Steps(cfg, w, c, n) == c
    decreases n
  {
    if n > 0 {
      EndedStays(cfg, w, c, n - 1);
    }
  }

  lemma {:induction false} StillRunning(cfg: Cfg, w: World, c: Config, m: nat, n: nat)
    requires m <= n && Steps(cfg, w, c, n).At?
    ensures Steps(cfg, w, c, m).At?
  {
    StepsAdd(cfg, w, c, m, n - m);
    if !Steps(cfg, w, c, m).At? {
      EndedStays(cfg, w, Steps(cfg, w, c, m), n - m);
    }
  }

  /** A run has at most one end, reached after one number of visits. */
  lemma {:induction false} EndIsUnique(cfg: Cfg, w: World, c: Config, m: nat, d: Config, n: nat, e: Config)
    requires EndsAfter(cfg, w, c, m, d) && EndsAfter(cfg, w, c, n, e)
    ensures m == n && d == e
  {
    hide Step, Steps;
    if m < n {
      StepsAdd(cfg, w, c, m, n - 1 - m);
      EndedStays(cfg, w, d, n - 1 - m);
    } else if n < m {
      StepsAdd(cfg, w, c, n, m - 1 - n);
      EndedStays(cfg, w, e, m - 1 - n);
    }
  }
}
