/** The harness generator. */
module Encapsulation {
  import opened ArgSpecs
  import opened IR
  import opened LoopBuilding
  import opened HarnessLayout
  import opened BuildSteps
  import opened HarnessAssembly

  class SymbolicEncapsulation {
    const harnessNamePrefix: string

    constructor (prefix: string)
      ensures harnessNamePrefix == prefix
    {
      harnessNamePrefix := prefix;
    }

    method SetupHarnessArgs(h: Function, params: seq<ParamType>, specs: seq<ArgSpec>,
                            setup: Label, teardown: Label, iters: uint32, ghost j: Job)
      returns (callArgs1: seq<ArgValue>, callArgs2: seq<ArgValue>)
      requires |specs| >= |params| && j == Job(Zip(params, specs), iters, setup)
      requires setup < |h.blocks| && teardown < |h.blocks|
      requires h.blocks[setup] == []
      modifies h
      ensures h.blocks == Append(Append(old(h.blocks), setup, j.SetupInstrs(|params|)), teardown, j.FreeInstrs())
      ensures callArgs1 == j.Values1(|params|) && callArgs2 == j.Values2(|params|)
    {
      callArgs1, callArgs2 := [], [];
      ghost var bs := h.blocks;
      AppendNothing(bs, setup);
      if |params| == 0 {
        assert j.FreeInstrs() == [];
        AppendNothing(bs, teardown);
        return;
      }
      var builder := new IRBuilder(h, setup);
      var heapAllocs: seq<Operand> := [];
      for argIdx := 0 to |params|
        invariant builder.func == h && builder.block == setup && builder.after == 0
        invariant SetUp(h.blocks, bs, j, argIdx, callArgs1, callArgs2, heapAllocs)
      {
        callArgs1, callArgs2, heapAllocs :=
          SetupArg(h, builder, params, specs, argIdx, iters, callArgs1, callArgs2, heapAllocs, bs, j);
      }
      builder.SetInsertPoint(teardown);
      FreeAll(h, builder, heapAllocs);
      assert FreesOf(heapAllocs) == j.FreeInstrs();
    }

    /** The body of the loop over the parameters. */
    method SetupArg(h: Function, builder: IRBuilder, params: seq<ParamType>, specs: seq<ArgSpec>, argIdx: nat,
                    iters: uint32, args1: seq<ArgValue>, args2: seq<ArgValue>, heap: seq<Operand>, ghost bs: Cfg,
                    ghost j: Job)
      returns (callArgs1: seq<ArgValue>, callArgs2: seq<ArgValue>, heapAllocs: seq<Operand>)
      requires argIdx < |params| <= |specs| && j == Job(Zip(params, specs), iters, builder.block)
      requires builder.func == h && builder.after == 0 && builder.block < |bs| && bs[builder.block] == []
      requires SetUp(h.blocks, bs, j, argIdx, args1, args2, heap)
      modifies h
      ensures SetUp(h.blocks, bs, j, argIdx + 1, callArgs1, callArgs2, heapAllocs)
    {
      ghost var instrs := NextAllocs(j, argIdx);
      NextHeapRegions(j, argIdx);
      AppendTwice(bs, j.base, j.SetupInstrs(argIdx), instrs);
      assert j.args[argIdx] == Arg(params[argIdx], specs[argIdx]);
      hide FoldMul, Multiplier, IsOutbound, Zip, SpecAt;
      var arg1, arg2, allocs := AllocateArg(h, builder, params[argIdx], specs[argIdx], iters);
      heapAllocs := heap + allocs;
      callArgs1 := args1 + [arg1];
      callArgs2 := args2 + [arg2];
    }

    /** Allocates the one or two copies of an argument. */
    method AllocateArg(h: Function, builder: IRBuilder, ty: ParamType, spec: ArgSpec, iters: uint32)
      returns (arg1: ArgValue, arg2: ArgValue, allocs: seq<Operand>)
      requires builder.func == h && builder.block < |h.blocks| && builder.after == 0
      modifies h
      ensures var alloc := match ty
                           case I64 => Alloca(8)
                           case Scalar(size) => Alloca(size)
                           case Pointer(elemSize) =>
                             CallMalloc(Const(((if spec.iteratorDependent then iters else 1) * elemSize) % TWO_64));
              h.blocks == Append(old(h.blocks), builder.block,
                                 if IsOutbound(spec.direction) then [alloc, alloc] else [alloc])
      ensures var op1 := Inst(builder.block, |old(h.blocks[builder.block])|);
              var op2 := if IsOutbound(spec.direction) then Inst(op1.block, op1.pos + 1) else op1;
              && arg1 == (if ty.Pointer? then HeapValue(op1) else SlotValue(op1, ty.TypeSize()))
              && arg2 == (if ty.Pointer? then HeapValue(op2) else SlotValue(op2, ty.TypeSize()))
              && allocs == if !ty.Pointer? then [] else if IsOutbound(spec.direction) then [op1, op2] else [op1]
    {
      ghost var bs := h.blocks;
      ghost var alloc := Arg(ty, spec).AllocInstr(iters);
      assert [alloc] + [alloc] == [alloc, alloc];
      AppendTwice(bs, builder.block, [alloc], [alloc]);
      allocs := [];
      if !ty.Pointer? {
        var slot := builder.Create(Alloca(ty.TypeSize()));
        arg1 := SlotValue(slot, ty.TypeSize());
        arg2 := arg1;
        if IsOutbound(spec.direction) {
          slot := builder.Create(Alloca(ty.TypeSize()));
          arg2 := SlotValue(slot, ty.TypeSize());
        }
      } else {
        var multiplier := Multiplier(spec, iters);
        var allocSize := FoldMul(multiplier, ty.elemSize);
        var call := builder.Create(CallMalloc(Const(allocSize)));
        allocs := allocs + [call];
        arg1 := HeapValue(call);
        arg2 := arg1;
        if IsOutbound(spec.direction) {
          call := builder.Create(CallMalloc(Const(allocSize)));
          allocs := allocs + [call];
          arg2 := HeapValue(call);
        }
      }
    }

    /** Frees in reverse order of allocation. */
    method FreeAll(h: Function, builder: IRBuilder, heapAllocs: seq<Operand>)
      requires builder.func == h && builder.block < |h.blocks| && builder.after == 0
      modifies h
      ensures h.blocks == Append(old(h.blocks), builder.block, FreesOf(heapAllocs))
    {
      var reversed := seq(|heapAllocs|, x requires 0 <= x < |heapAllocs| => heapAllocs[|heapAllocs| - 1 - x]);
      ghost var bs := h.blocks;
      AppendNothing(bs, builder.block);
      for n := 0 to |reversed|
        invariant builder.func == h && builder.after == 0
        invariant h.blocks == Append(bs, builder.block, FreesOf(heapAllocs)[..n])
      {
        var _ := builder.Create(CallFree(reversed[n]));
        AppendTwice(bs, builder.block, FreesOf(heapAllocs)[..n], [CallFree(reversed[n])]);
        assert FreesOf(heapAllocs)[..n + 1] == FreesOf(heapAllocs)[..n] + [CallFree(reversed[n])];
      }
      assert FreesOf(heapAllocs)[..|reversed|] == FreesOf(heapAllocs);
    }

    method CreateSymbolicDeclarations(h: Function, block: Label, params: seq<ParamType>,
                                      values1: seq<ArgValue>, values2: seq<ArgValue>,
                                      iters: uint32, specs: seq<ArgSpec>, ghost j: Job)
      requires |specs| >= |params| > 0 && j.args == Zip(params, specs) && j.iters == iters
      requires values1 == j.Values1(|params|) && values2 == j.Values2(|params|)
      requires block < |h.blocks|
      modifies h
      ensures h.blocks == Append(old(h.blocks), block, j.DeclareInstrs(|params|))
    {
      ghost var bs := h.blocks;
      AppendNothing(bs, block);
      var builder := new IRBuilder(h, block);
      for argIdx := 0 to |params|
        invariant builder.func == h && builder.block == block && builder.after == 0
        invariant h.blocks == Append(bs, block, j.DeclareInstrs(argIdx))
      {
        AppendTwice(bs, block, j.DeclareInstrs(argIdx), j.Declare(argIdx));
        AppendNothing(h.blocks, block);
        if IsOnlyOutbound(specs[argIdx].direction) {
          continue;
        }
        var multiplier := if params[argIdx].Pointer? && specs[argIdx].iteratorDependent then iters else 1;
        var allocSize := Const(FoldMul(multiplier, params[argIdx].TypeSize()));
        DeclareArg(h, builder, values1[argIdx].op, values2[argIdx].op, allocSize, specs[argIdx].direction);
      }
    }

    /** Makes the copies of one argument symbolic and then equal. */
    method DeclareArg(h: Function, builder: IRBuilder, value1: Operand, value2: Operand, allocSize: Operand,
                      dir: ArgDirection)
      requires builder.func == h && builder.block < |h.blocks| && builder.after == 0
      modifies h
      ensures h.blocks == Append(old(h.blocks), builder.block,
                                 if IsOutbound(dir) then
                                   [ CallMakeSymbolic(value1, allocSize), CallMakeSymbolic(value2, allocSize),
                                     CallMemcpy(value2, value1, allocSize) ]
                                 else [CallMakeSymbolic(value1, allocSize)])
    {
      ghost var bs := h.blocks;
      var first, second := CallMakeSymbolic(value1, allocSize), CallMakeSymbolic(value2, allocSize);
      var copy := CallMemcpy(value2, value1, allocSize);
      var _ := builder.Create(first);
      if IsOutbound(dir) {
        var _ := builder.Create(second);
        var _ := builder.Create(copy);
        AppendTwice(bs, builder.block, [first], [second]);
        AppendTwice(bs, builder.block, [first] + [second], [copy]);
        assert [first] + [second] + [copy] == [first, second, copy];
      }
    }

    method CreateSymbolicAssertions(h: Function, start: Label, end: Label,
                                    values1: seq<ArgValue>, values2: seq<ArgValue>,
                                    iters: uint32, specs: seq<ArgSpec>)
      requires 0 < |values1| == |values2| <= |specs|
      requires forall i | 0 <= i < |values1| :: values1[i].IntValue? <==> values2[i].IntValue?
      requires start < |h.blocks| && end < |h.blocks|
      modifies h
      ensures h.blocks ==
              Assertions(values1, values2, specs, iters, |old(h.blocks)|, end).Complete(old(h.blocks), start)
    {
      ghost var bs := h.blocks;
      ghost var a := Assertions(values1, values2, specs, iters, |bs|, end);
      var conditions: seq<Operand>, condBlocks: seq<Label>, failBlocks: seq<Label> := [], [], [];
      for i := 0 to |values1|
        invariant h.blocks == bs + a.Blocks(i, 0, 0, 0)
        invariant |conditions| == |condBlocks| == |failBlocks| == |a.Sel(i)|
        invariant forall c | 0 <= c < |a.Sel(i)| :: condBlocks[c] == |bs| + 2 * c && failBlocks[c] == |bs| + 2 * c + 1
        invariant forall c | 0 <= c < |a.Sel(i)| :: conditions[c] == TestResult(values1[a.Sel(i)[c]], |bs| + 2 * c)
      {
        if !IsOutbound(specs[i].direction) {
          assert a.Sel(i + 1) == a.Sel(i);
          continue;
        }
        assert a.Sel(i + 1) == a.Sel(i) + [i];
        var cond := h.CreateBlock();
        condBlocks := condBlocks + [cond];
        var fail := h.CreateBlock();
        failBlocks := failBlocks + [fail];
        var result := CreateTest(h, cond, fail, values1[i], values2[i], iters, specs[i]);
        conditions := conditions + [result];
        a.NextPair(bs, i);
      }
      LinkAssertions(h, start, end, a, bs, conditions, condBlocks, failBlocks);
    }

    /** The linking passes over the three parallel vectors, and the branch into the conditions. */
    method LinkAssertions(h: Function, start: Label, end: Label, ghost a: Assertions, ghost bs: Cfg,
                          conditions: seq<Operand>, condBlocks: seq<Label>, failBlocks: seq<Label>)
      requires a.Fits() && a.first == |bs| && a.end == end && start < |bs| && end < |bs|
      requires h.blocks == bs + a.Blocks(|a.v1s|, 0, 0, 0)
      requires |conditions| == |condBlocks| == |failBlocks| == |a.Sel(|a.v1s|)|
      requires forall c | 0 <= c < |condBlocks| :: condBlocks[c] == |bs| + 2 * c && failBlocks[c] == |bs| + 2 * c + 1
      requires forall c | 0 <= c < |conditions| :: conditions[c] == TestResult(a.v1s[a.Sel(|a.v1s|)[c]], |bs| + 2 * c)
      modifies h
      ensures h.blocks == a.Complete(bs, start)
    {
      ghost var n, k := |a.v1s|, |condBlocks|;
      var builder := new IRBuilder(h, start);

      CloseFailBlocks(h, builder, a, bs, failBlocks);
      CloseCondBlocks(h, builder, end, a, bs, conditions, condBlocks, failBlocks);

      // condition blocks on truth to the next condition block
      if |condBlocks| > 0 {
        for c := 1 to |condBlocks|
          invariant builder.func == h
          invariant h.blocks == bs + a.Blocks(n, k, k, c - 1)
        {
          a.NextLink(bs, n, k, c - 1);
          h.SetTrueSuccessor(condBlocks[c - 1], condBlocks[c]);
        }
      }
      HookUp(h, builder, start, end, a, bs, condBlocks);
    }

    /** Unreachable terminator of fail blocks. */
    method CloseFailBlocks(h: Function, builder: IRBuilder, ghost a: Assertions, ghost bs: Cfg, failBlocks: seq<Label>)
      requires builder.func == h && a.Fits() && a.first == |bs| && |failBlocks| == |a.Sel(|a.v1s|)|
      requires h.blocks == bs + a.Blocks(|a.v1s|, 0, 0, 0)
      requires forall c | 0 <= c < |failBlocks| :: failBlocks[c] == |bs| + 2 * c + 1
      modifies h, builder
      ensures builder.func == h && h.blocks == bs + a.Blocks(|a.v1s|, |failBlocks|, 0, 0)
    {
      for c := 0 to |failBlocks|
        invariant builder.func == h
        invariant h.blocks == bs + a.Blocks(|a.v1s|, c, 0, 0)
      {
        builder.SetInsertPoint(failBlocks[c]);
        var _ := builder.Create(Unreachable);
        a.NextFail(bs, |a.v1s|, c);
      }
    }

    /** Condition blocks to their fail blocks; on truth to the end block for now. */
    method CloseCondBlocks(h: Function, builder: IRBuilder, end: Label, ghost a: Assertions, ghost bs: Cfg,
                           conditions: seq<Operand>, condBlocks: seq<Label>, failBlocks: seq<Label>)
      requires builder.func == h && a.Fits() && a.first == |bs| && a.end == end
      requires |conditions| == |condBlocks| == |failBlocks| == |a.Sel(|a.v1s|)|
      requires h.blocks == bs + a.Blocks(|a.v1s|, |failBlocks|, 0, 0)
      requires forall c | 0 <= c < |condBlocks| :: condBlocks[c] == |bs| + 2 * c && failBlocks[c] == |bs| + 2 * c + 1
      requires forall c | 0 <= c < |conditions| :: conditions[c] == TestResult(a.v1s[a.Sel(|a.v1s|)[c]], |bs| + 2 * c)
      modifies h, builder
      ensures builder.func == h && h.blocks == bs + a.Blocks(|a.v1s|, |failBlocks|, |condBlocks|, 0)
    {
      for c := 0 to |condBlocks|
        invariant builder.func == h
        invariant h.blocks == bs + a.Blocks(|a.v1s|, |failBlocks|, c, 0)
      {
        a.NextBranch(bs, |a.v1s|, |failBlocks|, c);
        builder.SetInsertPoint(condBlocks[c]);
        var _ := builder.Create(CondBr(conditions[c], end, failBlocks[c]));
      }
    }

    /** Start and end blocks. */
    method HookUp(h: Function, builder: IRBuilder, start: Label, end: Label, ghost a: Assertions, ghost bs: Cfg,
                  condBlocks: seq<Label>)
      requires builder.func == h && a.Fits() && a.first == |bs| && a.end == end && start < |bs|
      requires |condBlocks| == |a.Sel(|a.v1s|)|
      requires forall c | 0 <= c < |condBlocks| :: condBlocks[c] == |bs| + 2 * c
      requires var k := |condBlocks|; h.blocks == bs + a.Blocks(|a.v1s|, k, k, if k > 0 then k - 1 else 0)
      modifies h, builder
      ensures h.blocks == a.Complete(bs, start)
    {
      hide Assertions.Blocks, Assertions.BlockAt, Assertions.Sel;
      ghost var n, k := |a.v1s|, |condBlocks|;
      builder.SetInsertPoint(start);
      if |condBlocks| > 0 {
        a.LastLink(Append(bs, start, [Br(|bs|)]), n, k);
        var _ := builder.Create(Br(condBlocks[0]));
        ghost var done := Append(bs, start, [Br(|bs|)]) + a.Blocks(n, k, k, k - 1);
        assert h.blocks == done;
        h.SetTrueSuccessor(condBlocks[|condBlocks| - 1], end);
        assert h.blocks == done;
      } else {
        var _ := builder.Create(Br(end));
        assert h.blocks == Append(bs, start, [Br(end)]) + a.Blocks(n, k, k, 0);
      }
    }

    method CreateTest(h: Function, cond: Label, fail: Label, value1: ArgValue, value2: ArgValue, iters: uint32,
                      spec: ArgSpec)
      returns (result: Operand)
      requires cond < fail < |h.blocks| && h.blocks[cond] == [] && h.blocks[fail] == []
      modifies h
      ensures var elements := if spec.iteratorDependent then iters else 1;
              h.blocks == old(h.blocks)[cond := TestInstrs(value1, value2, elements, cond)]
                                       [fail := [CallAssertFail]]
      ensures result == TestResult(value1, cond)
    {
      var builder := new IRBuilder(h, cond);
      if value1.IntValue? {
        result := builder.Create(ICmp(Eq, value1.op, value2.op));
      } else {
        var multiplier := Multiplier(spec, iters);
        var allocSize := FoldMul(multiplier, value1.PointeeSize());
        var call := builder.Create(CallMemcmp(value1.op, value2.op, Const(allocSize)));
        result := builder.Create(ICmp(Eq, call, Const(0)));
      }
      assert h.blocks[cond] == TestInstrs(value1, value2, Multiplier(spec, iters), cond);
      builder.SetInsertPoint(fail);
      var _ := builder.Create(CallAssertFail);
      assert h.blocks[fail] == [CallAssertFail];
    }

    /** Loads from a stack slot, casts a heap pointer, takes an integer as it is. */
    method FetchArg(h: Function, builder: IRBuilder, v: ArgValue, ghost bs: Cfg, ghost before: seq<Instr>)
      returns (arg: Operand)
      requires builder.func == h && builder.block < |bs| && builder.after <= |bs[builder.block]|
      requires h.blocks == InsertAll(bs, builder.block, builder.after, before)
      modifies h
      ensures h.blocks == InsertAll(bs, builder.block, builder.after, before + FetchInstr(v))
      ensures arg == if v.IntValue? then v.op else Inst(builder.block, |bs[builder.block]| - builder.after + |before|)
    {
      match v {
        case SlotValue(op, size) =>
          InsertOneMore(bs, builder.block, builder.after, before, Load(op, size));
          arg := builder.Create(Load(op, size));
        case HeapValue(op) =>
          InsertOneMore(bs, builder.block, builder.after, before, BitCast(op));
          arg := builder.Create(BitCast(op));
        case IntValue(op) =>
          assert before + [] == before;
          arg := op;
      }
    }

    /** In front of the terminator of the block if it has one, at its end otherwise. */
    method BuilderForCall(h: Function, block: Label) returns (builder: IRBuilder)
      requires block < |h.blocks|
      ensures fresh(builder) && builder.func == h && builder.block == block
      ensures builder.after == if Terminated(h.blocks[block]) then 1 else 0
    {
      builder := new IRBuilder(h, block);
      if Terminated(h.blocks[block]) {
        builder.SetInsertPointAtTerminator(block);
      } else {
        builder.SetInsertPoint(block);
      }
    }

    /** Fetches the arguments of a call in order. */
    method FetchArgs(h: Function, builder: IRBuilder, args: seq<ArgValue>) returns (actualArgs: seq<Operand>)
      requires builder.func == h && builder.block < |h.blocks| && builder.after <= |h.blocks[builder.block]|
      modifies h
      ensures h.blocks == InsertAll(old(h.blocks), builder.block, builder.after, FetchInstrs(args, |args|))
      ensures actualArgs ==
              FetchedOperands(args, builder.block, |old(h.blocks[builder.block])| - builder.after, |args|)
    {
      ghost var bs, l, after := h.blocks, builder.block, builder.after;
      InsertNothing(bs, l, after);
      actualArgs := [];
      for i := 0 to |args|
        invariant builder.func == h
        invariant h.blocks == InsertAll(bs, l, after, FetchInstrs(args, i))
        invariant actualArgs == FetchedOperands(args, l, |bs[l]| - after, i)
      {
        var arg := FetchArg(h, builder, args[i], bs, FetchInstrs(args, i));
        actualArgs := actualArgs + [arg];
      }
    }

    method CreateCall(h: Function, block: Label, params: seq<ParamType>, args: seq<ArgValue>)
      requires block < |h.blocks| && |args| == |params|
      requires forall i | 0 <= i < |args| :: args[i].IntValue? ==> params[i].I64?
      modifies h
      ensures h.blocks == WithCall(old(h.blocks), block, args)
    {
      var builder := BuilderForCall(h, block);
      ghost var bs := h.blocks;
      var actualArgs := FetchArgs(h, builder, args);
      InsertOneMore(bs, block, builder.after, FetchInstrs(args, |args|), CallEncapsulated(actualArgs));
      var _ := builder.Create(CallEncapsulated(actualArgs));
    }

    /** Appends the harness for a function of parameters `params` to `h`. */
    method BuildHarness(h: Function, params: seq<ParamType>, specs: seq<ArgSpec>, iters: uint32, ghost j: Job)
      requires |specs| >= |params| && j == Job(Zip(params, specs), iters, |h.blocks|) && j.Valid()
      modifies h
      ensures h.blocks == old(h.blocks) + j.Blocks()
    {
      ghost var bs := h.blocks;
      var b := CreateFixedBlocks(h);
      var callArgs1, callArgs2 := BuildData(h, params, specs, iters, b, bs, j);
      BuildCalls(h, params, iters, b, callArgs1, callArgs2, j);
      BuildFlow(h, b);
      HarnessIsLaidOut(bs, j);
    }

    method CreateFixedBlocks(h: Function) returns (setupBlock: Label)
      modifies h
      ensures setupBlock == |old(h.blocks)| && h.blocks == old(h.blocks) + TWELVE
    {
      ghost var bs := h.blocks;
      setupBlock := h.CreateBlock();
      for n := 1 to EXIT + 1
        invariant h.blocks == bs + TWELVE[..n]
      {
        var _ := h.CreateBlock();
      }
      assert TWELVE[..EXIT + 1] == TWELVE;
    }

    method BuildData(h: Function, params: seq<ParamType>, specs: seq<ArgSpec>, iters: uint32, b: Label,
                     ghost bs: Cfg, ghost j: Job)
      returns (callArgs1: seq<ArgValue>, callArgs2: seq<ArgValue>)
      requires |specs| >= |params| && j == Job(Zip(params, specs), iters, b) && j.Valid()
      requires b == |bs| && h.blocks == bs + TWELVE
      modifies h
      ensures h.blocks == WithData(bs, j)
      ensures callArgs1 == j.Values1(|params|) && callArgs2 == j.Values2(|params|)
    {
      callArgs1, callArgs2 := SetupHarnessArgs(h, params, specs, b + SETUP, b + TEARDOWN, iters, j);
      CreateSymbolicDeclarations(h, b + SE_SETUP, params, callArgs1, callArgs2, iters, specs, j);
      ghost var before := h.blocks;
      CreateSymbolicAssertions(h, b + SE_START, b + SE_END, callArgs1, callArgs2, iters, specs);
      SameAssertions(j, specs, before, b + SE_START);
    }

    method BuildCalls(h: Function, params: seq<ParamType>, iters: uint32, b: Label,
                      args1: seq<ArgValue>, args2: seq<ArgValue>, ghost j: Job)
      requires |h.blocks| == b + 12 + 2 * j.Conds() && j.base == b && j.iters == iters && j.Valid()
      requires |params| == |j.args| && params[0].I64?
      requires args1 == j.Values1(|params|) && args2 == j.Values2(|params|)
      modifies h
      ensures h.blocks == WithCalls(old(h.blocks), j)
    {
      hide WithLoops, WithCall;
      var indVar1, indVar2 := BuildLoops(h, iters, b, j);

      // pass the iterator as the first argument
      var callArgs1 := args1[0 := IntValue(indVar1)];
      var callArgs2 := args2[0 := IntValue(indVar2)];
      assert callArgs1 == j.CallArgs1() && callArgs2 == j.CallArgs2();

      CreateCall(h, b + CALL1, params, callArgs1);
      CreateCall(h, b + CALL2, params, callArgs2);
    }

    method BuildLoops(h: Function, iters: uint32, b: Label, ghost j: Job)
      returns (indVar1: Operand, indVar2: Operand)
      requires |h.blocks| == b + 12 + 2 * j.Conds() && j.base == b && j.iters == iters && j.Valid()
      modifies h
      ensures h.blocks == WithLoops(old(h.blocks), j)
      ensures indVar1 == j.Loop1().Ind() && indVar2 == j.Loop2().Ind()
    {
      hide WithLoop;
      var loopBuilder := new LoopIRBuilder();
      indVar1 := loopBuilder.CreateLoop(h, [b + CALL1], b + CALL1_SETUP, b + CALL1_TEARDOWN, 0, iters, 1);
      indVar2 := loopBuilder.CreateLoop(h, [b + CALL2], b + CALL2_SETUP, b + CALL2_TEARDOWN, Decrement(iters), 0, 1);
    }

    method BuildFlow(h: Function, b: Label)
      requires b + 12 <= |h.blocks|
      modifies h
      ensures h.blocks == WithFlow(old(h.blocks), b)
    {
      var builder := new IRBuilder(h, b + SETUP);
      var _ := builder.Create(Br(b + SE_SETUP));
      builder.SetInsertPoint(b + SE_SETUP);
      var _ := builder.Create(Br(b + CALL1_SETUP));
      builder.SetInsertPoint(b + CALL1_TEARDOWN);
      var _ := builder.Create(Br(b + CALL2_SETUP));
      builder.SetInsertPoint(b + CALL2_TEARDOWN);
      var _ := builder.Create(Br(b + SE_START));
      builder.SetInsertPoint(b + SE_END);
      var _ := builder.Create(Br(b + TEARDOWN));
      builder.SetInsertPoint(b + TEARDOWN);
      var _ := builder.Create(Br(b + EXIT));
      builder.SetInsertPoint(b + EXIT);
      var _ := builder.Create(Ret(Const(0)));
    }

    /** Pads the specification list with inbound entries up to one for each parameter. */
    method PadSpecs(specs: seq<ArgSpec>, n: nat) returns (argSpecs: seq<ArgSpec>)
      ensures |argSpecs| >= n && specs <= argSpecs
      ensures argSpecs[..n] == Normalise(specs, n)
      ensures |argSpecs| > n ==> argSpecs == specs
      ensures forall i | |specs| <= i < |argSpecs| ::
                IsOnlyInbound(argSpecs[i].direction) && !argSpecs[i].iteratorDependent
    {
      argSpecs := specs;
      while |argSpecs| < n
        invariant specs <= argSpecs && (|argSpecs| > n ==> argSpecs == specs)
        invariant forall i | |specs| <= i < |argSpecs| :: argSpecs[i] == DEFAULT_SPEC
        decreases n - |argSpecs|
      {
        argSpecs := argSpecs + [DEFAULT_SPEC];
      }
    }

    /** Builds the harness of `f` in the function named after it, which is declared first if the
        module has none of that name. */
    method Encapsulate(m: Module, f: Function, iters: uint32, specs: seq<ArgSpec>)
      returns (changed: bool, ghost h: Function?)
      requires m.Valid() && f in m.funcs
      requires f.blocks != [] ==>
                 && |f.params| > 0 && f.params[0].I64? && iters >= 2
                 && forall i | 0 <= i < |f.params| :: 0 < f.params[i].TypeSize() < TWO_64
      modifies m, set g | g in m.funcs && g.name == harnessNamePrefix + f.name
      ensures m.Valid() && (changed <==> old(f.blocks) != []) && (changed <==> h != null)
      ensures !changed ==> m.funcs == old(m.funcs) && forall g | g in m.funcs :: g.blocks == old(g.blocks)
      ensures changed ==> h in m.funcs && h.name == harnessNamePrefix + f.name
      ensures changed && h in old(m.funcs) ==>
                && m.funcs == old(m.funcs)
                && h.blocks == old(h.blocks) + JobFor(f.params, specs, iters, |old(h.blocks)|).Blocks()
      ensures changed && h !in old(m.funcs) ==>
                && fresh(h) && m.funcs == old(m.funcs) + [h]
                && (forall g | g in old(m.funcs) :: g.name != h.name)
                && h.blocks == JobFor(f.params, specs, iters, 0).Blocks()
      ensures changed ==>
                |h.blocks| == (if h in old(m.funcs) then old(|h.blocks|) else 0) + 18
                  + 2 * |set i | 0 <= i < |f.params| && i < |specs| && IsOutbound(specs[i].direction)|
    {
      if f.IsDeclaration() {
        return false, null;
      }
      var argSpecs := PadSpecs(specs, |f.params|);
      var harness := m.DeclareFunc(harnessNamePrefix + f.name);
      ghost var j := JobFor(f.params, specs, iters, |harness.blocks|);
      assert Zip(f.params, argSpecs) == Zip(f.params, specs) by { PaddingIsNeutral(f.params, specs, argSpecs); }
      BuildHarness(harness, f.params, argSpecs, iters, j);
      BlocksAsked(f.params, specs, iters, j.base);
      changed, h := true, harness;
    }
  }
}
