/** The harness in SSA form: phi inputs match predecessors, and every use is dominated by its
    definition. */
module SsaForm {
  import opened IR
  import opened LoopBuilding
  import opened HarnessLayout
  import opened HarnessMemory
  import opened RunSetup
  import RunChecks
  import opened RunTeardown
  import opened LoopRuns
  import opened RunCall
  import opened RunLoops
  import opened WellFormed

  /** The operands of an instruction, phi inputs aside. */
  function Uses(i: Instr): seq<Operand> {
    match i
    case Phi(_) => []
    case Add(a, b) => [a, b]
    case Sub(a, b) => [a, b]
    case ICmp(_, a, b) => [a, b]
    case Alloca(_) => []
    case Load(p, _) => [p]
    case BitCast(v) => [v]
    case CallMalloc(n) => [n]
    case CallFree(p) => [p]
    case CallMakeSymbolic(p, n) => [p, n]
    case CallMemcpy(d, s, n) => [d, s, n]
    case CallMemcmp(a, b, n) => [a, b, n]
    case CallEncapsulated(args) => args
    case CallAssertFail => []
    case Br(_) => []
    case CondBr(c, _, _) => [c]
    case Unreachable => []
    case Ret(v) => [v]
  }

  predicate HasResult(i: Instr) {
    i.Phi? || i.Add? || i.Sub? || i.ICmp? || i.Alloca? || i.Load? || i.BitCast? || i.CallMalloc? || i.CallMemcmp?
  }

  /** `o` is a constant, or computed on every way to position `pos` of block `x`. */
  ghost predicate DefinedAt(cfg: Cfg, x: Label, pos: nat, o: Operand) {
    o.Const? ||
    (&& o.block < |cfg| && o.pos < |cfg[o.block]| && HasResult(cfg[o.block][o.pos])
     && if o.block == x then o.pos < pos else Dominates(cfg, o.block, x))
  }

  /** A phi has one input for each predecessor, computed on every way to that predecessor's end. */
  ghost predicate PhiMatches(cfg: Cfg, x: Label, incoming: seq<Incoming>) {
    && (forall a, b | 0 <= a < b < |incoming| :: incoming[a].from != incoming[b].from)
    && (forall p :: Edge(cfg, p, x) <==> exists a :: 0 <= a < |incoming| && incoming[a].from == p)
    && (forall a | 0 <= a < |incoming| && incoming[a].from < |cfg| ::
          DefinedAt(cfg, incoming[a].from, |cfg[incoming[a].from]|, incoming[a].value))
  }

  ghost predicate InSsaForm(cfg: Cfg) {
    forall x, pos | 0 <= x < |cfg| && 0 <= pos < |cfg[x]| :: InstrInSsaForm(cfg, x, pos)
  }

  ghost predicate InstrInSsaForm(cfg: Cfg, x: Label, pos: nat)
    requires x < |cfg| && pos < |cfg[x]|
  {
    match cfg[x][pos]
    case Phi(incoming) => PhiMatches(cfg, x, incoming)
    case i => forall k | 0 <= k < |Uses(i)| :: DefinedAt(cfg, x, pos, Uses(i)[k])
  }

  ghost predicate Fresh(j: Job) {
    j.Valid() && j.base == 0
  }

  lemma {:induction false} FreshEmbeds(j: Job)
    requires Fresh(j)
    ensures Embedded(j.Blocks(), j)
  {
  }

  // ----- pointers to regions -----

  /** A constant or a pointer to a region of the job. */
  ghost predicate DataOperand(j: Job, o: Operand) {
    o.Const? || exists r :: 0 <= r < j.R1(|j.args|) && o == j.Ptr(r)
  }

  ghost predicate DataUses(j: Job, instrs: seq<Instr>) {
    forall p | 0 <= p < |instrs| :: DataUsesAt(j, instrs[p])
  }

  ghost predicate DataUsesAt(j: Job, i: Instr) {
    !i.Phi? && forall k | 0 <= k < |Uses(i)| :: DataOperand(j, Uses(i)[k])
  }

  lemma {:induction false} PointerDefined(j: Job, r: nat, x: Label, pos: nat)
    requires Fresh(j) && r < j.R1(|j.args|) && x != SETUP
    ensures DefinedAt(j.Blocks(), x, pos, j.Ptr(r))
  {
    var i := OwnerOf(j, |j.args|, r);
    SetupAt(j, |j.args|, i);
    assert j.Blocks()[SETUP] == j.BlockAt(SETUP);
    EntryDominates(j.Blocks(), x);
  }

  /** Data uses are fine in every block but the setup block. */
  lemma {:induction false} DataUsesDefined(j: Job, x: Label, pos: nat)
    requires Fresh(j) && SETUP < x < j.Size() && pos < |j.BlockAt(x)| && DataUsesAt(j, j.BlockAt(x)[pos])
    ensures InstrInSsaForm(j.Blocks(), x, pos)
  {
    hide Job.BlockAt, DefinedAt;
    var cfg, i := j.Blocks(), j.BlockAt(x)[pos];
    assert cfg[x] == j.BlockAt(x);
    forall k | 0 <= k < |Uses(i)|
      ensures DefinedAt(cfg, x, pos, Uses(i)[k])
    {
      var o := Uses(i)[k];
      assert DataOperand(j, o);
      if o.Inst? {
        var r :| 0 <= r < j.R1(|j.args|) && o == j.Ptr(r);
        PointerDefined(j, r, x, pos);
      } else {
        ConstDefined(cfg, x, pos, o);
      }
    }
  }

  lemma {:induction false} ConstDefined(cfg: Cfg, x: Label, pos: nat, o: Operand)
    requires o.Const?
    ensures DefinedAt(cfg, x, pos, o)
  {
  }

  lemma {:induction false} DeclareDataUses(j: Job, m: nat)
    requires m <= |j.args|
    ensures DataUses(j, j.DeclareInstrs(m))
    decreases m
  {
    if m > 0 {
      DeclareDataUses(j, m - 1);
      RegionInRange(j, m - 1);
      var d := j.Declare(m - 1);
      forall p | 0 <= p < |d|
        ensures DataUsesAt(j, d[p])
      {
        assert DataOperand(j, j.Ptr(j.R1(m - 1))) && DataOperand(j, j.Ptr(j.R2(m - 1)));
      }
    }
  }

  lemma {:induction false} FetchDataUses(j: Job, s: Side, m: nat)
    requires 0 < m <= |j.args|
    ensures DataUses(j, FetchInstrs(s.Args(j), m))
    decreases m
  {
    if m > 1 {
      FetchDataUses(j, s, m - 1);
      RegionInRange(j, m - 1);
      assert DataOperand(j, j.Ptr(s.Reg(j, m - 1)));
    } else {
      assert FetchInstrs(s.Args(j), 0) == [];
    }
  }

  lemma {:induction false} FreeDataUses(j: Job)
    ensures DataUses(j, j.FreeInstrs())
  {
    HeapRegionsSorted(j, |j.args|);
    var hs := j.HeapRegions(|j.args|);
    forall p | 0 <= p < |j.FreeInstrs()|
      ensures DataUsesAt(j, j.FreeInstrs()[p])
    {
      assert DataOperand(j, j.Ptr(hs[|hs| - 1 - p]));
    }
  }

  lemma {:induction false} SetupUsesConstants(j: Job, m: nat)
    requires m <= |j.args|
    ensures forall p | 0 <= p < |j.SetupInstrs(m)| ::
              var i := j.SetupInstrs(m)[p]; !i.Phi? && forall k | 0 <= k < |Uses(i)| :: Uses(i)[k].Const?
    decreases m
  {
    if m > 0 {
      SetupUsesConstants(j, m - 1);
    }
  }

  // ----- the blocks -----

  ghost predicate BlockInSsaForm(cfg: Cfg, x: Label)
    requires x < |cfg|
  {
    forall pos | 0 <= pos < |cfg[x]| :: InstrInSsaForm(cfg, x, pos)
  }

  /** A block other than setup that uses nothing but pointers and constants. */
  lemma {:induction false} DataBlock(j: Job, x: Label)
    requires Fresh(j) && SETUP < x < j.Size() && DataUses(j, j.BlockAt(x))
    ensures BlockInSsaForm(j.Blocks(), x)
  {
    hide Job.BlockAt, InstrInSsaForm;
    forall pos | 0 <= pos < |j.Blocks()[x]|
      ensures InstrInSsaForm(j.Blocks(), x, pos)
    {
      DataUsesDefined(j, x, pos);
    }
  }

  lemma {:induction false} SetupBlock(j: Job)
    requires Fresh(j)
    ensures BlockInSsaForm(j.Blocks(), SETUP)
  {
    SetupUsesConstants(j, |j.args|);
  }

  lemma {:induction false} JumpsAreData(j: Job, x: Label)
    requires Fresh(j) && SETUP < x < j.Size()
    requires x !in {SE_SETUP, CALL1, CALL2, TEARDOWN} && (x < CONDS || x >= CONDS + 2 * j.Conds() || x % 2 == 1)
    requires x != j.Loop1().hdr && x != j.Loop1().latch && x != j.Loop2().hdr && x != j.Loop2().latch
    ensures DataUses(j, j.BlockAt(x))
  {
    hide CallInstrs, Job.Outs, Job.CondBlock, Job.SetupInstrs;
  }

  /** A condition block of a graph: a comparison of two defined pointers, a test, a branch. */
  lemma {:induction false} CheckShape(cfg: Cfg, l: Label, a: Operand, b: Operand, n: Operand, t: Label, f: Label)
    requires l < |cfg| && n.Const? && DefinedAt(cfg, l, 0, a) && DefinedAt(cfg, l, 0, b)
    requires cfg[l] == [CallMemcmp(a, b, n), ICmp(Eq, Inst(l, 0), Const(0)), CondBr(Inst(l, 1), t, f)]
    ensures BlockInSsaForm(cfg, l)
  {
    hide Dominates;
    assert InstrInSsaForm(cfg, l, 0) && InstrInSsaForm(cfg, l, 1) && InstrInSsaForm(cfg, l, 2);
  }

  /** The condition block of check `c`. */
  lemma {:induction false} CheckBlockInSsaForm(j: Job, c: nat)
    requires Fresh(j) && c < j.Conds()
    ensures BlockInSsaForm(j.Blocks(), j.CondLabel(c))
  {
    hide Job.BlockAt, DefinedAt;
    var cfg, l := j.Blocks(), j.CondLabel(c);
    var i := RunChecks.CheckedArg(j, c);
    FreshEmbeds(j);
    RunChecks.CondBlockAt(cfg, j, c);
    RegionInRange(j, i);
    PointerDefined(j, j.R1(i), l, 0);
    PointerDefined(j, j.R2(i), l, 0);
    CheckShape(cfg, l, j.Ptr(j.R1(i)), j.Ptr(j.R2(i)), Const(j.args[i].CmpSize(j.iters)),
               j.CheckLabel(c + 1), j.FailLabel(c));
  }

  /** The header of a call loop dominates its body and its latch. */
  lemma {:induction false} HeaderDominates(j: Job, s: Side)
    requires Fresh(j)
    ensures Dominates(j.Blocks(), s.LoopOf(j).hdr, s.Body())
    ensures Dominates(j.Blocks(), s.LoopOf(j).hdr, s.LoopOf(j).latch)
  {
    hide Dominates, Job.BlockAt;
    var cfg, loop := j.Blocks(), s.LoopOf(j);
    forall a | Edge(cfg, a, s.Body())
      ensures a == loop.hdr
    {
      EdgesInside(j, a, s.Body());
      OnlyParents(j, a, s.Body());
    }
    OnlyPredDominates(cfg, loop.hdr, loop.hdr, s.Body());
    forall a | Edge(cfg, a, loop.latch)
      ensures a == s.Body()
    {
      EdgesInside(j, a, loop.latch);
      OnlyParents(j, a, loop.latch);
    }
    OnlyPredDominates(cfg, loop.hdr, s.Body(), loop.latch);
  }

  /** A loop of a graph whose header dominates its latch, and is entered from the preheader and the
      latch only. */
  lemma {:induction false} LoopShape(cfg: Cfg, loop: Loop)
    requires HasLoop(cfg, loop) && Dominates(cfg, loop.hdr, loop.latch)
    requires forall p :: Edge(cfg, p, loop.hdr) <==> p == loop.preheader || p == loop.latch
    ensures BlockInSsaForm(cfg, loop.hdr) && BlockInSsaForm(cfg, loop.latch)
  {
    hide Dominates, Edge, PhiMatches;
    PhiShape(cfg, loop);
    assert DefinedAt(cfg, loop.hdr, 1, Inst(loop.hdr, 0)) && DefinedAt(cfg, loop.hdr, 2, Inst(loop.hdr, 1));
    assert DefinedAt(cfg, loop.latch, 0, loop.Ind());
  }

  lemma {:induction false} PhiShape(cfg: Cfg, loop: Loop)
    requires HasLoop(cfg, loop)
    requires forall p :: Edge(cfg, p, loop.hdr) <==> p == loop.preheader || p == loop.latch
    ensures PhiMatches(cfg, loop.hdr, loop.HeaderBlock()[0].incoming)
  {
    hide Dominates, Edge;
    var incoming := loop.HeaderBlock()[0].incoming;
    assert incoming[0].from == loop.preheader && incoming[1].from == loop.latch;
    assert DefinedAt(cfg, loop.latch, |cfg[loop.latch]|, Inst(loop.latch, 0));
  }

  lemma {:induction false} LoopInSsaForm(j: Job, s: Side)
    requires Fresh(j)
    ensures BlockInSsaForm(j.Blocks(), s.LoopOf(j).hdr) && BlockInSsaForm(j.Blocks(), s.LoopOf(j).latch)
  {
    hide Job.BlockAt, Dominates, Edge;
    FreshEmbeds(j);
    HarnessHasLoop(j.Blocks(), j, s);
    HeaderDominates(j, s);
    forall p
      ensures Edge(j.Blocks(), p, s.LoopOf(j).hdr) <==> p == s.LoopOf(j).preheader || p == s.LoopOf(j).latch
    {
      HeaderPredecessors(j, s, p);
    }
    LoopShape(j.Blocks(), s.LoopOf(j));
  }

  /** The predecessors of a loop header: preheader and latch. */
  lemma {:induction false} HeaderPredecessors(j: Job, s: Side, p: Label)
    requires Fresh(j)
    ensures Edge(j.Blocks(), p, s.LoopOf(j).hdr) <==> p == s.LoopOf(j).preheader || p == s.LoopOf(j).latch
  {
    hide Job.BlockAt;
    var loop := s.LoopOf(j);
    if Edge(j.Blocks(), p, loop.hdr) {
      EdgesInside(j, p, loop.hdr);
      OnlyParents(j, p, loop.hdr);
    }
    if p < j.Size() {
      NextIsSuccessors(j, p);
    }
  }

  lemma {:induction false} BodyInSsaForm(j: Job, s: Side)
    requires Fresh(j)
    ensures BlockInSsaForm(j.Blocks(), s.Body())
  {
    assert |j.args| > 0;
    hide Job.BlockAt, InstrInSsaForm, Fresh;
    forall pos | 0 <= pos < |j.Blocks()[s.Body()]|
      ensures InstrInSsaForm(j.Blocks(), s.Body(), pos)
    {
      BodyInstrInSsaForm(j, s, pos);
    }
  }

  lemma {:induction false} BodyInstrInSsaForm(j: Job, s: Side, pos: nat)
    requires Fresh(j) && pos < |j.Blocks()[s.Body()]|
    ensures InstrInSsaForm(j.Blocks(), s.Body(), pos)
  {
    hide InstrInSsaForm, DataUsesAt;
    var n := |j.args|;
    BodyLength(j, s);
    if pos < n - 1 {
      FetchIsData(j, s, pos);
      DataUsesDefined(j, s.Body(), pos);
    } else if pos == n - 1 {
      CallInSsaForm(j, s);
    } else {
      BranchInSsaForm(j.Blocks(), s.Body(), n, s.LoopOf(j).latch);
    }
  }

  lemma {:induction false} BodyLength(j: Job, s: Side)
    requires Fresh(j)
    ensures |j.Blocks()[s.Body()]| == |j.args| + 1
    ensures j.Blocks()[s.Body()][|j.args|] == Br(s.LoopOf(j).latch)
  {
    hide Job.BlockAt;
    BodyBlockAt(j, s);
    assert j.Blocks()[s.Body()] == j.BlockAt(s.Body());
  }

  lemma {:induction false} BranchInSsaForm(cfg: Cfg, l: Label, pos: nat, target: Label)
    requires l < |cfg| && pos < |cfg[l]| && cfg[l][pos] == Br(target)
    ensures InstrInSsaForm(cfg, l, pos)
  {
  }

  lemma {:induction false} FetchIsData(j: Job, s: Side, pos: nat)
    requires Fresh(j) && pos < |j.args| - 1
    ensures pos < |j.BlockAt(s.Body())| && DataUsesAt(j, j.BlockAt(s.Body())[pos])
    ensures HasResult(j.BlockAt(s.Body())[pos])
  {
    hide Job.BlockAt, CallOperands, Job.CallArgs1, Job.CallArgs2, Side.LoopOf;
    BodyBlockAt(j, s);
    var b, v := j.BlockAt(s.Body()), s.Args(j)[pos + 1];
    assert [b[pos + 1 - 1]] == FetchInstr(v);
    assert [b[pos]][0] == FetchInstr(v)[0];
    RegionInRange(j, pos + 1);
    assert DataOperand(j, j.Ptr(s.Reg(j, pos + 1)));
  }

  lemma {:induction false} CallInSsaForm(j: Job, s: Side)
    requires Fresh(j)
    ensures |j.Blocks()[s.Body()]| > |j.args| - 1 && InstrInSsaForm(j.Blocks(), s.Body(), |j.args| - 1)
  {
    hide Job.BlockAt, DefinedAt;
    var cfg, l, n := j.Blocks(), s.Body(), |j.args|;
    assert cfg[l] == j.BlockAt(l);
    BodyBlockAt(j, s);
    var ops := CallOperands(j, s, j.base + l);
    forall k | 0 <= k < |ops|
      ensures DefinedAt(cfg, l, n - 1, ops[k])
    {
      CallOperandDefined(j, s, k);
    }
  }

  lemma {:induction false} CallOperandDefined(j: Job, s: Side, k: nat)
    requires Fresh(j) && k < |j.args|
    ensures DefinedAt(j.Blocks(), s.Body(), |j.args| - 1, CallOperands(j, s, j.base + s.Body())[k])
  {
    hide Job.BlockAt, Dominates, CallOperands;
    OperandAt(j, s, j.base + s.Body(), k);
    if k > 0 {
      FetchIsData(j, s, k - 1);
      assert j.Blocks()[s.Body()] == j.BlockAt(s.Body());
    } else {
      HeaderDominates(j, s);
      FreshEmbeds(j);
      HarnessHasLoop(j.Blocks(), j, s);
    }
  }

  /** A fresh harness is in SSA form: the inputs of each phi are exactly the predecessors of its
      block, and every use is dominated by its definition. */
  lemma {:induction false} HarnessInSsaForm(j: Job)
    requires Fresh(j)
    ensures InSsaForm(j.Blocks())
  {
    hide InstrInSsaForm, Job.BlockAt;
    var cfg := j.Blocks();
    forall x | 0 <= x < |cfg|
      ensures BlockInSsaForm(cfg, x)
    {
      BlockByBlock(j, x);
    }
    forall x, pos | 0 <= x < |cfg| && 0 <= pos < |cfg[x]|
      ensures InstrInSsaForm(cfg, x, pos)
    {
      assert BlockInSsaForm(cfg, x);
    }
  }

  lemma {:induction false} BlockByBlock(j: Job, x: Label)
    requires Fresh(j) && x < j.Size()
    ensures BlockInSsaForm(j.Blocks(), x)
  {
    hide BlockInSsaForm, Job.BlockAt;
    if x == SETUP {
      SetupBlock(j);
    } else if x == CALL1 {
      BodyInSsaForm(j, FirstSide);
    } else if x == CALL2 {
      BodyInSsaForm(j, SecondSide);
    } else if x == j.Loop1().hdr {
      LoopInSsaForm(j, FirstSide);
    } else if x == j.Loop2().hdr {
      LoopInSsaForm(j, SecondSide);
    } else if x == j.Loop1().latch {
      LoopInSsaForm(j, FirstSide);
    } else if x == j.Loop2().latch {
      LoopInSsaForm(j, SecondSide);
    } else if CONDS <= x < CONDS + 2 * j.Conds() && x % 2 == 0 {
      CheckBlockInSsaForm(j, (x - CONDS) / 2);
    } else {
      if x == SE_SETUP || x == TEARDOWN {
        DeclareAndFreeAreData(j);
      } else {
        JumpsAreData(j, x);
      }
      DataBlock(j, x);
    }
  }

  lemma {:induction false} DeclareAndFreeAreData(j: Job)
    requires Fresh(j)
    ensures DataUses(j, j.BlockAt(SE_SETUP)) && DataUses(j, j.BlockAt(TEARDOWN))
  {
    hide Job.DeclareInstrs, Job.FreeInstrs;
    DeclareDataUses(j, |j.args|);
    FreeDataUses(j);
  }
}
