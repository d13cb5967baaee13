/** The part of LLVM IR a harness is made of, and the mutable function a harness is built in.

    A block is named by its position in its function; blocks are only ever appended, so the
    name is stable.  An instruction's result is named by the block and the position it was
    inserted at; instructions are only ever inserted at the end of a block or in front of its
    terminator (which has no result), so that name is stable as well.
  */
module IR {

  const TWO_32: int := 0x1_0000_0000
  const TWO_63: int := 0x8000_0000_0000_0000
  const TWO_64: int := 0x1_0000_0000_0000_0000

  type uint32 = x: int | 0 <= x < TWO_32
  type uint64 = x: int | 0 <= x < TWO_64

  type Label = nat

  datatype Operand = Const(bits: uint64) | Inst(block: Label, pos: nat)

  datatype Pred = Slt | Sge | Eq

  datatype Incoming = Incoming(value: Operand, from: Label)

  datatype Instr =
    | Phi(incoming: seq<Incoming>)
    | Add(a: Operand, b: Operand)
    | Sub(a: Operand, b: Operand)
    | ICmp(pred: Pred, a: Operand, b: Operand)
    | Alloca(size: nat)
    | Load(ptr: Operand, size: nat)
    | BitCast(value: Operand)
    | CallMalloc(bytes: Operand)
    | CallFree(ptr: Operand)
    | CallMakeSymbolic(ptr: Operand, bytes: Operand)
    | CallMemcpy(dest: Operand, src: Operand, bytes: Operand)
    | CallMemcmp(a: Operand, b: Operand, bytes: Operand)
    | CallEncapsulated(args: seq<Operand>)
    | CallAssertFail
    | Br(target: Label)
    | CondBr(cond: Operand, ifTrue: Label, ifFalse: Label)
    | Unreachable
    | Ret(value: Operand)

  type Block = seq<Instr>
  type Cfg = seq<Block>

  predicate IsTerminator(i: Instr) {
    i.Br? || i.CondBr? || i.Unreachable? || i.Ret?
  }

  predicate Terminated(b: Block) {
    |b| > 0 && IsTerminator(b[|b| - 1])
  }

  /** Multiplication of two 64-bit constants, which the builder folds at once. */
  function FoldMul(a: int, b: int): (r: uint64) {
    (a * b) % TWO_64
  }

  /** `i` inserted in block `l` with `after` instructions of the block left behind it. */
  function Insert(bs: Cfg, l: Label, after: nat, i: Instr): Cfg
    requires l < |bs| && after <= |bs[l]|
  {
    var b := bs[l];
    bs[l := b[..|b| - after] + [i] + b[|b| - after..]]
  }

  /** `is` appended to block `l`. */
  function Append(bs: Cfg, l: Label, instrs: seq<Instr>): (r: Cfg)
    requires l < |bs|
    ensures |r| == |bs|
  {
    bs[l := bs[l] + instrs]
  }

  /** `instrs` inserted in block `l` with `after` instructions of the block left behind them. */
  function InsertAll(bs: Cfg, l: Label, after: nat, instrs: seq<Instr>): Cfg
    requires l < |bs| && after <= |bs[l]|
  {
    var b := bs[l];
    bs[l := b[..|b| - after] + instrs + b[|b| - after..]]
  }

  lemma {:induction false} InsertNothing(bs: Cfg, l: Label, after: nat)
    requires l < |bs| && after <= |bs[l]|
    ensures InsertAll(bs, l, after, []) == bs
  {
    var b := bs[l];
    assert b[..|b| - after] + [] + b[|b| - after..] == b;
  }

  lemma {:induction false} InsertOneMore(bs: Cfg, l: Label, after: nat, instrs: seq<Instr>, i: Instr)
    requires l < |bs| && after <= |bs[l]|
    ensures var mid := InsertAll(bs, l, after, instrs);
            InsertAll(bs, l, after, instrs + [i]) ==
            if after == 0 then Append(mid, l, [i]) else Insert(mid, l, after, i)
  {
    var b := bs[l];
    var mid := InsertAll(bs, l, after, instrs)[l];
    assert mid[..|mid| - after] == b[..|b| - after] + instrs;
    assert mid[|mid| - after..] == b[|b| - after..];
    assert b[..|b| - after] + instrs + [i] + b[|b| - after..] == b[..|b| - after] + (instrs + [i]) + b[|b| - after..];
    if after == 0 {
      assert mid + [i] == b[..|b| - after] + (instrs + [i]) + b[|b| - after..];
    }
  }

  lemma {:induction false} AppendTwice(bs: Cfg, l: Label, a: seq<Instr>, b: seq<Instr>)
    requires l < |bs|
    ensures Append(Append(bs, l, a), l, b) == Append(bs, l, a + b)
  {
    assert bs[l] + a + b == bs[l] + (a + b);
  }

  lemma {:induction false} AppendNothing(bs: Cfg, l: Label)
    requires l < |bs|
    ensures Append(bs, l, []) == bs
  {
    assert bs[l] + [] == bs[l];
  }

  datatype ParamType = I64 | Scalar(size: nat) | Pointer(elemSize: nat)
  {
    /** Size of the pointed-to type of a pointer, of the type itself otherwise. */
    function TypeSize(): nat {
      match this
      case I64 => 8
      case Scalar(size) => size
      case Pointer(elemSize) => elemSize
    }
  }

  class Function {
    const name: string
    const params: seq<ParamType>
    var blocks: Cfg

    constructor (name: string, params: seq<ParamType>)
      ensures this.name == name && this.params == params && blocks == []
    {
      this.name := name;
      this.params := params;
      blocks := [];
    }

    predicate IsDeclaration()
      reads this
    {
      blocks == []
    }

    method CreateBlock() returns (l: Label)
      modifies this
      ensures l == |old(blocks)| && blocks == old(blocks) + [[]]
    {
      l := |blocks|;
      blocks := blocks + [[]];
    }

    method AddIncoming(phi: Operand, value: Operand, from: Label)
      requires phi.Inst? && phi.block < |blocks| && phi.pos < |blocks[phi.block]|
      requires blocks[phi.block][phi.pos].Phi?
      modifies this
      ensures blocks == var b := old(blocks[phi.block]);
                        old(blocks)[phi.block := b[phi.pos := Phi(b[phi.pos].incoming + [Incoming(value, from)])]]
    {
      var b := blocks[phi.block];
      blocks := blocks[phi.block := b[phi.pos := Phi(b[phi.pos].incoming + [Incoming(value, from)])]];
    }

    /** Redirects the first successor of the conditional branch that ends block `l`. */
    method SetTrueSuccessor(l: Label, target: Label)
      requires l < |blocks| && |blocks[l]| > 0 && blocks[l][|blocks[l]| - 1].CondBr?
      modifies this
      ensures blocks == var b := old(blocks[l]);
                        old(blocks)[l := b[|b| - 1 := b[|b| - 1].(ifTrue := target)]]
    {
      var b := blocks[l];
      blocks := blocks[l := b[|b| - 1 := b[|b| - 1].(ifTrue := target)]];
    }
  }

  /** A module: its functions, in order, with no two of one name. */
  class Module {
    var funcs: seq<Function>

    constructor ()
      ensures funcs == []
    {
      funcs := [];
    }

    ghost predicate Valid()
      reads this
    {
      forall a, b | 0 <= a < b < |funcs| :: funcs[a].name != funcs[b].name
    }

    method GetFunction(name: string) returns (f: Function?)
      ensures f != null ==> f in funcs && f.name == name
      ensures f == null ==> forall g | g in funcs :: g.name != name
    {
      for n := 0 to |funcs|
        invariant forall g | g in funcs[..n] :: g.name != name
      {
        if funcs[n].name == name {
          return funcs[n];
        }
      }
      assert funcs[..|funcs|] == funcs;
      return null;
    }

    /** The function of that name, declared first if there is none. */
    method DeclareFunc(name: string) returns (f: Function)
      requires Valid()
      modifies this
      ensures Valid() && f.name == name && f in funcs
      ensures f in old(funcs) ==> funcs == old(funcs)
      ensures f !in old(funcs) ==> fresh(f) && funcs == old(funcs) + [f] && f.blocks == []
                                   && forall g | g in old(funcs) :: g.name != name
    {
      var g := GetFunction(name);
      if g != null {
        return g;
      }
      f := new Function(name, []);
      funcs := funcs + [f];
    }
  }

  /** An insertion point: a block of a function, and how many of the block's instructions
      stay behind whatever is inserted (none at the end of a block, one before a terminator).
    */
  class IRBuilder {
    var func: Function
    var block: Label
    var after: nat

    constructor (f: Function, l: Label)
      ensures func == f && block == l && after == 0
    {
      func, block, after := f, l, 0;
    }

    method SetInsertPoint(l: Label)
      modifies this
      ensures func == old(func) && block == l && after == 0
    {
      block, after := l, 0;
    }

    method SetInsertPointAtTerminator(l: Label)
      modifies this
      ensures func == old(func) && block == l && after == 1
    {
      block, after := l, 1;
    }

    method Create(i: Instr) returns (v: Operand)
      requires block < |func.blocks| && after <= |func.blocks[block]|
      modifies func
      ensures v == Inst(block, |old(func.blocks[block])| - after)
      ensures func.blocks == if after == 0 then Append(old(func.blocks), block, [i])
                             else Insert(old(func.blocks), block, after, i)
    {
      v := Inst(block, |func.blocks[block]| - after);
      ghost var b := func.blocks[block];
      assert after == 0 ==> b[..|b| - after] + [i] + b[|b| - after..] == b + [i];
      func.blocks := Insert(func.blocks, block, after, i);
    }
  }
}
