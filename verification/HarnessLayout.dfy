/** The harness, block by block: what the generator has to produce for a parameter list, a list of
    argument specifications and a number of iterations.  Nothing here is built step by step; the
    generator is proved to arrive at exactly these blocks. */
module HarnessLayout {
  import opened ArgSpecs
  import opened IR
  import opened LoopBuilding

  /** A value kept for an argument: the result of a `malloc` call (an i8 pointer), a stack slot of
      a known size, or an integer. */
  datatype ArgValue = HeapValue(op: Operand) | SlotValue(op: Operand, size: nat) | IntValue(op: Operand)
  {
    /** Size of the type the value points to, as its own type tells it. */
    function PointeeSize(): nat
      requires !IntValue?
    {
      if HeapValue? then 1 else size
    }
  }

  /** How many elements an argument has. */
  function Multiplier(spec: ArgSpec, iters: nat): nat {
    if spec.iteratorDependent then iters else 1
  }

  /** A parameter with its specification. */
  datatype Arg = Arg(ty: ParamType, spec: ArgSpec)
  {
    predicate Out() {
      IsOutbound(spec.direction)
    }

    predicate OnlyOut() {
      IsOnlyOutbound(spec.direction)
    }

    /** Bytes made symbolic and copied; for a pointer also the bytes allocated. */
    function Size(iters: nat): uint64 {
      FoldMul(if ty.Pointer? then Multiplier(spec, iters) else 1, ty.TypeSize())
    }

    /** Bytes compared at the end. */
    function CmpSize(iters: nat): uint64 {
      FoldMul(Multiplier(spec, iters), if ty.Pointer? then 1 else ty.TypeSize())
    }

    function AllocInstr(iters: nat): Instr {
      if ty.Pointer? then CallMalloc(Const(Size(iters))) else Alloca(ty.TypeSize())
    }

    /** How many regions the argument gets. */
    function Copies(): nat {
      if Out() then 2 else 1
    }
  }

  function Zip(params: seq<ParamType>, specs: seq<ArgSpec>): (r: seq<Arg>)
    ensures |r| == |params|
  {
    seq(|params|, i requires 0 <= i < |params| => Arg(params[i], SpecAt(specs, i)))
  }

  /** One less, as 32 unsigned bits. */
  function Decrement(n: uint32): uint32 {
    if n == 0 then TWO_32 - 1 else n - 1
  }

  // ----- calls -----

  /** The instructions that fetch the first `m` arguments of a call: a load from a stack slot, a
      cast of a heap pointer, nothing for an integer. */
  function FetchInstrs(vals: seq<ArgValue>, m: nat): seq<Instr>
    requires m <= |vals|
  {
    if m == 0 then [] else FetchInstrs(vals, m - 1) + FetchInstr(vals[m - 1])
  }

  function FetchInstr(v: ArgValue): seq<Instr> {
    match v
    case HeapValue(op) => [BitCast(op)]
    case SlotValue(op, size) => [Load(op, size)]
    case IntValue(_) => []
  }

  /** The operand argument `i` is passed as, when fetching starts at position `p` of block `l`. */
  function FetchedOperand(vals: seq<ArgValue>, l: Label, p: nat, i: nat): Operand
    requires i < |vals|
  {
    if vals[i].IntValue? then vals[i].op else Inst(l, p + |FetchInstrs(vals, i)|)
  }

  function FetchedOperands(vals: seq<ArgValue>, l: Label, p: nat, m: nat): (r: seq<Operand>)
    requires m <= |vals|
    ensures |r| == m
    ensures forall i | 0 <= i < m :: r[i] == FetchedOperand(vals, l, p, i)
    decreases m
  {
    if m == 0 then [] else FetchedOperands(vals, l, p, m - 1) + [FetchedOperand(vals, l, p, m - 1)]
  }

  /** A call with arguments `vals`, when it starts at position `p` of block `l`. */
  function CallInstrs(vals: seq<ArgValue>, l: Label, p: nat): seq<Instr> {
    FetchInstrs(vals, |vals|) + [CallEncapsulated(FetchedOperands(vals, l, p, |vals|))]
  }

  // ----- assertions -----

  /** The arguments below `m` that are outbound, in order. */
  function Selected(specs: seq<ArgSpec>, m: nat): seq<nat>
    requires m <= |specs|
  {
    if m == 0 then []
    else Selected(specs, m - 1) + if IsOutbound(specs[m - 1].direction) then [m - 1] else []
  }

  lemma {:induction false} SelectedInRange(specs: seq<ArgSpec>, m: nat)
    requires m <= |specs|
    ensures |Selected(specs, m)| <= m
    ensures forall c | 0 <= c < |Selected(specs, m)| :: Selected(specs, m)[c] < m
    decreases m
  {
    if m > 0 {
      SelectedInRange(specs, m - 1);
    }
  }

  /** They are in ascending order, each once. */
  lemma {:induction false} SelectedAscending(specs: seq<ArgSpec>, m: nat)
    requires m <= |specs|
    ensures forall c, d | 0 <= c < d < |Selected(specs, m)| :: Selected(specs, m)[c] < Selected(specs, m)[d]
    decreases m
  {
    if m > 0 {
      SelectedInRange(specs, m - 1);
      SelectedAscending(specs, m - 1);
    }
  }

  /** They are all outbound, and outbound argument `i` stands behind those below it. */
  lemma {:induction false} SelectedExactly(specs: seq<ArgSpec>, m: nat)
    requires m <= |specs|
    ensures forall c | 0 <= c < |Selected(specs, m)| ::
              Selected(specs, m)[c] < m && IsOutbound(specs[Selected(specs, m)[c]].direction)
    ensures forall i | 0 <= i < m && IsOutbound(specs[i].direction) ::
              |Selected(specs, i)| < |Selected(specs, m)| && Selected(specs, m)[|Selected(specs, i)|] == i
    decreases m
  {
    if m > 0 {
      SelectedExactly(specs, m - 1);
    }
  }

  /** The comparison in condition block `l`, without the branch. */
  function TestInstrs(v1: ArgValue, v2: ArgValue, mult: nat, l: Label): seq<Instr> {
    if v1.IntValue? then [ICmp(Eq, v1.op, v2.op)]
    else [CallMemcmp(v1.op, v2.op, Const(FoldMul(mult, v1.PointeeSize()))), ICmp(Eq, Inst(l, 0), Const(0))]
  }

  /** The result of that comparison. */
  function TestResult(v1: ArgValue, l: Label): Operand {
    Inst(l, if v1.IntValue? then 0 else 1)
  }

  // ----- the harness -----

  const SETUP := 0
  const SE_SETUP := 1
  const CALL1_SETUP := 2
  const CALL2_SETUP := 3
  const CALL1 := 4
  const CALL2 := 5
  const CALL1_TEARDOWN := 6
  const CALL2_TEARDOWN := 7
  const SE_START := 8
  const SE_END := 9
  const TEARDOWN := 10
  const EXIT := 11
  const CONDS := 12

  /** One encapsulation: the arguments, the number of iterations, and the label the first block
      of the harness gets. */
  datatype Job = Job(args: seq<Arg>, iters: uint32, base: Label)
  {
    /** What the source asserts or takes for granted about its input. */
    predicate Valid() {
      && |args| > 0 && args[0].ty.I64?
      && iters >= 2
      && forall i | 0 <= i < |args| :: 0 < args[i].ty.TypeSize() < TWO_64
    }

    // --- regions: each argument gets one, an outbound argument two, in argument order ---

    function R1(i: nat): (r: nat)
      requires i <= |args|
      ensures i <= r
      decreases i
    {
      if i == 0 then 0 else R1(i - 1) + args[i - 1].Copies()
    }

    function R2(i: nat): nat
      requires i < |args|
    {
      R1(i) + args[i].Copies() - 1
    }

    /** The pointer to region `r`, as the setup block computed it. */
    function Ptr(r: nat): Operand {
      Inst(base + SETUP, r)
    }

    function ValueOf(i: nat, r: nat): ArgValue
      requires i < |args|
    {
      if args[i].ty.Pointer? then HeapValue(Ptr(r)) else SlotValue(Ptr(r), args[i].ty.TypeSize())
    }

    function Values1(m: nat): (r: seq<ArgValue>)
      requires m <= |args|
      ensures |r| == m
      ensures forall i | 0 <= i < m :: r[i] == ValueOf(i, R1(i))
      decreases m
    {
      if m == 0 then [] else Values1(m - 1) + [ValueOf(m - 1, R1(m - 1))]
    }

    function Values2(m: nat): (r: seq<ArgValue>)
      requires m <= |args|
      ensures |r| == m
      ensures forall i | 0 <= i < m :: r[i] == ValueOf(i, R2(i))
      decreases m
    {
      if m == 0 then [] else Values2(m - 1) + [ValueOf(m - 1, R2(m - 1))]
    }

    // --- setup and teardown ---

    function SetupInstrs(m: nat): seq<Instr>
      requires m <= |args|
      decreases m
    {
      if m == 0 then []
      else
        var alloc := args[m - 1].AllocInstr(iters);
        SetupInstrs(m - 1) + if args[m - 1].Out() then [alloc, alloc] else [alloc]
    }

    /** The heap regions of the first `m` arguments, in allocation order. */
    function HeapRegions(m: nat): seq<nat>
      requires m <= |args|
      decreases m
    {
      if m == 0 then []
      else
        HeapRegions(m - 1) +
        if !args[m - 1].ty.Pointer? then []
        else if args[m - 1].Out() then [R1(m - 1), R2(m - 1)]
        else [R1(m - 1)]
    }

    function FreeInstrs(): seq<Instr> {
      var hs := HeapRegions(|args|);
      seq(|hs|, x requires 0 <= x < |hs| => CallFree(Ptr(hs[|hs| - 1 - x])))
    }

    // --- symbolic declarations ---

    function Declare(i: nat): seq<Instr>
      requires i < |args|
    {
      var size := Const(args[i].Size(iters));
      if args[i].OnlyOut() then []
      else if args[i].Out() then
        [ CallMakeSymbolic(Ptr(R1(i)), size), CallMakeSymbolic(Ptr(R2(i)), size),
          CallMemcpy(Ptr(R2(i)), Ptr(R1(i)), size) ]
      else
        [ CallMakeSymbolic(Ptr(R1(i)), size) ]
    }

    function DeclareInstrs(m: nat): seq<Instr>
      requires m <= |args|
      decreases m
    {
      if m == 0 then [] else DeclareInstrs(m - 1) + Declare(m - 1)
    }

    // --- assertions ---

    function Specs(): (r: seq<ArgSpec>)
      ensures |r| == |args|
    {
      seq(|args|, i requires 0 <= i < |args| => args[i].spec)
    }

    /** The outbound arguments, in order. */
    function Outs(): seq<nat> {
      Selected(Specs(), |args|)
    }

    function Conds(): nat {
      |Outs()|
    }

    /** How many outbound arguments stand before argument `i`: the number of its check. */
    function CheckOf(i: nat): nat
      requires i <= |args|
    {
      |Selected(Specs(), i)|
    }

    function CondLabel(c: nat): Label { base + CONDS + 2 * c }

    function FailLabel(c: nat): Label { base + CONDS + 2 * c + 1 }

    /** Where the check of outbound argument number `c` starts; behind the last one, the end block. */
    function CheckLabel(c: nat): Label {
      if c < Conds() then CondLabel(c) else base + SE_END
    }

    ghost function Outbound(): set<nat> {
      set i | 0 <= i < |args| && args[i].Out()
    }

    function CondBlock(c: nat): Block
      requires c < Conds()
    {
      SelectedInRange(Specs(), |args|);
      var i := Outs()[c];
      TestInstrs(ValueOf(i, R1(i)), ValueOf(i, R2(i)), Multiplier(args[i].spec, iters), CondLabel(c))
      + [CondBr(TestResult(ValueOf(i, R1(i)), CondLabel(c)), CheckLabel(c + 1), FailLabel(c))]
    }

    // --- loops and calls ---

    function Loop1(): Loop {
      var h := base + CONDS + 2 * Conds();
      Loop(h, h + 1, h + 2, base + CALL1, base + CALL1_SETUP, base + CALL1_TEARDOWN, 0, iters, 1)
    }

    function Loop2(): Loop {
      var h := base + CONDS + 2 * Conds() + 3;
      Loop(h, h + 1, h + 2, base + CALL2, base + CALL2_SETUP, base + CALL2_TEARDOWN, Decrement(iters), 0, 1)
    }

    function CallArgs1(): seq<ArgValue>
      requires |args| > 0
    {
      Values1(|args|)[0 := IntValue(Loop1().Ind())]
    }

    function CallArgs2(): seq<ArgValue>
      requires |args| > 0
    {
      Values2(|args|)[0 := IntValue(Loop2().Ind())]
    }

    // --- all blocks ---

    function Size(): nat { CONDS + 2 * Conds() + 6 }

    /** Block number `x` of the harness. */
    function BlockAt(x: nat): Block
      requires |args| > 0 && x < Size()
    {
      var after := CONDS + 2 * Conds();
      if x == SETUP then SetupInstrs(|args|) + [Br(base + SE_SETUP)]
      else if x == SE_SETUP then DeclareInstrs(|args|) + [Br(base + CALL1_SETUP)]
      else if x == CALL1_SETUP then [Br(Loop1().hdr)]
      else if x == CALL2_SETUP then [Br(Loop2().hdr)]
      else if x == CALL1 then CallInstrs(CallArgs1(), base + CALL1, 0) + [Br(Loop1().latch)]
      else if x == CALL2 then CallInstrs(CallArgs2(), base + CALL2, 0) + [Br(Loop2().latch)]
      else if x == CALL1_TEARDOWN then [Br(base + CALL2_SETUP)]
      else if x == CALL2_TEARDOWN then [Br(base + SE_START)]
      else if x == SE_START then [Br(CheckLabel(0))]
      else if x == SE_END then [Br(base + TEARDOWN)]
      else if x == TEARDOWN then FreeInstrs() + [Br(base + EXIT)]
      else if x == EXIT then [Ret(Const(0))]
      else if x < after then
        if x % 2 == 0 then CondBlock((x - CONDS) / 2) else [CallAssertFail, Unreachable]
      else if x == after then Loop1().HeaderBlock()
      else if x == after + 1 then Loop1().LatchBlock()
      else if x == after + 2 then Loop1().ExitBlock()
      else if x == after + 3 then Loop2().HeaderBlock()
      else if x == after + 4 then Loop2().LatchBlock()
      else Loop2().ExitBlock()
    }

    function Blocks(): Cfg
      requires |args| > 0
    {
      seq(Size(), x requires 0 <= x < Size() => BlockAt(x))
    }
  }

  /** There is one check for each outbound argument. */
  lemma {:induction false} OneCheckEach(j: Job)
    ensures j.Conds() == |j.Outbound()|
  {
    CountSelected(j.Specs(), |j.args|);
    assert j.Outbound() == OutboundBelow(j.Specs(), |j.args|);
  }

  ghost function OutboundBelow(specs: seq<ArgSpec>, m: nat): set<nat>
    requires m <= |specs|
  {
    set i | 0 <= i < m && IsOutbound(specs[i].direction)
  }

  lemma {:induction false} CountSelected(specs: seq<ArgSpec>, m: nat)
    requires m <= |specs|
    ensures |Selected(specs, m)| == |OutboundBelow(specs, m)|
    decreases m
  {
    if m > 0 {
      CountSelected(specs, m - 1);
      var now, before := OutboundBelow(specs, m), OutboundBelow(specs, m - 1);
      assert now == if IsOutbound(specs[m - 1].direction) then before + {m - 1} else before;
    }
  }
}
