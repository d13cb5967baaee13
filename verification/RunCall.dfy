/** The run of a body block: one call of the encapsulated function on one of the two sets. */
module RunCall {
  import opened IR
  import opened LoopBuilding
  import opened HarnessLayout
  import opened Semantics
  import opened HarnessSpec
  import opened HarnessMemory
  import opened RunDeclare

  /** Which of the two sets, and with it which loop. */
  datatype Side = FirstSide | SecondSide
  {
    function Reg(j: Job, i: nat): nat
      requires i < |j.args|
    {
      if FirstSide? then j.R1(i) else j.R2(i)
    }

    function LoopOf(j: Job): Loop {
      if FirstSide? then j.Loop1() else j.Loop2()
    }

    function Body(): nat {
      if FirstSide? then CALL1 else CALL2
    }

    function Args(j: Job): (r: seq<ArgValue>)
      requires |j.args| > 0
      ensures |r| == |j.args|
      ensures r[0] == IntValue(LoopOf(j).Ind())
      ensures forall i | 0 < i < |r| :: r[i] == j.ValueOf(i, Reg(j, i))
    {
      if FirstSide? then j.CallArgs1() else j.CallArgs2()
    }

    /** Memory and pointers, `mine` being this side's set. */
    ghost predicate Sees(j: Job, st: State, mine: Data, theirs: Data) {
      if FirstSide? then InSets(j, st, mine, theirs) else InSets(j, st, theirs, mine)
    }

    ghost predicate SeesMem(j: Job, mem: seq<Region>, mine: Data, theirs: Data) {
      if FirstSide? then Holds(j, mem, mine, theirs) else Holds(j, mem, theirs, mine)
    }

    lemma {:induction false} MineAt(j: Job, mem: seq<Region>, mine: Data, theirs: Data, i: nat)
      requires SeesMem(j, mem, mine, theirs) && i < |j.args|
      ensures |mine| == |theirs| == |j.args|
      ensures Reg(j, i) < |mem| == j.R1(|j.args|) && mem[Reg(j, i)] == RegionOf(j, i, mine[i])
      ensures !j.args[i].Out() ==> theirs[i] == mine[i]
    {
      RegionInRange(j, i);
      if FirstSide? {
        assert HoldsAt(j, mem, mine, theirs, i);
      } else {
        assert HoldsAt(j, mem, theirs, mine, i);
      }
    }

    lemma {:induction false} WriteMine(j: Job, mem: seq<Region>, mine: Data, theirs: Data, i: nat, bytes: Bytes)
      requires SeesMem(j, mem, mine, theirs) && i < |j.args| && Reg(j, i) < |mem| && |mine| == |theirs| == |j.args|
      ensures SeesMem(j, mem[Reg(j, i) := RegionOf(j, i, bytes)], mine[i := bytes],
                      if j.args[i].Out() then theirs else theirs[i := bytes])
    {
      RegionInRange(j, i);
      if FirstSide? {
        WriteFirst(j, mem, mine, theirs, i, bytes);
      } else {
        WriteSecond(j, mem, theirs, mine, i, bytes);
      }
    }
  }

  /** Every argument has its full size. */
  ghost predicate Sized(j: Job, d: Data) {
    |d| == |j.args| && forall i | 0 <= i < |d| :: |d[i]| == j.args[i].Size(j.iters)
  }

  // ----- fetching -----

  /** The value argument `i > 0` is passed as. */
  function Fetched(j: Job, s: Side, mine: Data, i: nat): Value
    requires i < |j.args| == |mine|
  {
    if j.args[i].ty.Pointer? then VPtr(s.Reg(j, i)) else VBytes(mine[i])
  }

  lemma {:induction false} FetchPositions(vals: seq<ArgValue>, m: nat)
    requires 0 < m <= |vals| && vals[0].IntValue? && forall i | 0 < i < |vals| :: !vals[i].IntValue?
    ensures |FetchInstrs(vals, m)| == m - 1
    decreases m
  {
    if m > 1 {
      FetchPositions(vals, m - 1);
    } else {
      assert FetchInstrs(vals, 0) == [];
    }
  }

  lemma {:induction false} FetchAt(vals: seq<ArgValue>, m: nat, i: nat)
    requires 0 < i < m <= |vals| && vals[0].IntValue? && forall k | 0 < k < |vals| :: !vals[k].IntValue?
    ensures |FetchInstrs(vals, m)| == m - 1 && [FetchInstrs(vals, m)[i - 1]] == FetchInstr(vals[i])
    decreases m
  {
    FetchPositions(vals, m);
    FetchPositions(vals, m - 1);
    if i < m - 1 {
      FetchAt(vals, m - 1, i);
    }
  }

  /** The arguments below `m` are fetched into block `l`. */
  ghost predicate FetchedUpTo(j: Job, s: Side, l: Label, m: nat, env: Env, mine: Data)
    requires m <= |mine| == |j.args|
  {
    forall p | 0 <= p < m - 1 :: Inst(l, p) in env && env[Inst(l, p)] == Fetched(j, s, mine, p + 1)
  }

  /** Nothing but results of block `l` differs. */
  ghost predicate SameOutside(l: Label, a: State, b: State) {
    && a.mem == b.mem && a.log == b.log
    && forall o: Operand :: o.Inst? && o.block != l ==>
                              (o in a.env <==> o in b.env) && (o in a.env ==> a.env[o] == b.env[o])
  }

  lemma {:induction false} FetchStep(j: Job, w: World, s: Side, l: Label, b: Block, prev: Label, st: State, i: nat,
                                     mine: Data, theirs: Data)
    requires j.Valid() && 0 < i < |j.args| && s.Sees(j, st, mine, theirs) && Sized(j, mine)
    requires i - 1 < |b| && [b[i - 1]] == FetchInstr(s.Args(j)[i])
    ensures Exec(b, l, i - 1, prev, st, w) == Exec(b, l, i, prev, Define(st, Inst(l, i - 1), Fetched(j, s, mine, i)), w)
  {
    s.MineAt(j, st.mem, mine, theirs, i);
    var r := s.Reg(j, i);
    assert [b[i - 1]][0] == FetchInstr(s.Args(j)[i])[0];
    assert j.Ptr(r) in st.env && st.env[j.Ptr(r)] == VPtr(r);
    if !j.args[i].ty.Pointer? {
      SlotSize(j, i);
      assert mine[i][..|mine[i]|] == mine[i];
    }
  }

  lemma {:induction false} FetchRuns(j: Job, w: World, s: Side, l: Label, b: Block, prev: Label, st: State, m: nat,
                                     mine: Data, theirs: Data)
    returns (st': State)
    requires j.Valid() && 0 < m <= |j.args| && s.Sees(j, st, mine, theirs) && Sized(j, mine) && l != j.base + SETUP
    requires |b| >= |j.args| - 1 && forall i | 0 < i < |j.args| :: [b[i - 1]] == FetchInstr(s.Args(j)[i])
    requires FetchedUpTo(j, s, l, m, st.env, mine)
    ensures Exec(b, l, m - 1, prev, st, w) == Exec(b, l, |j.args| - 1, prev, st', w)
    ensures FetchedUpTo(j, s, l, |j.args|, st'.env, mine) && SameOutside(l, st, st')
    decreases |j.args| - m
  {
    hide Exec, FetchInstr, Job.R1, Fetched;
    if m == |j.args| {
      st' := st;
    } else {
      FetchStep(j, w, s, l, b, prev, st, m, mine, theirs);
      var mid := Define(st, Inst(l, m - 1), Fetched(j, s, mine, m));
      KeepsSight(j, s, l, st, mid, mine, theirs);
      st' := FetchRuns(j, w, s, l, b, prev, mid, m + 1, mine, theirs);
    }
  }

  /** Results of blocks other than setup do not matter to the pointers. */
  lemma {:induction false} KeepsSight(j: Job, s: Side, l: Label, st: State, st': State, mine: Data, theirs: Data)
    requires s.Sees(j, st, mine, theirs) && SameOutside(l, st, st') && l != j.base + SETUP
    ensures s.Sees(j, st', mine, theirs)
  {
    hide Holds;
    forall r | 0 <= r < j.R1(|j.args|)
      ensures j.Ptr(r) in st'.env && st'.env[j.Ptr(r)] == VPtr(r)
    {
      assert j.Ptr(r) in st.env && st.env[j.Ptr(r)] == VPtr(r);
    }
  }

  // ----- the call -----

  /** The set after a call, written back up to argument `m`. */
  function Written1(j: Job, w: World, it: uint64, mine: Data, m: nat): (r: Data)
    requires |mine| == |j.args|
    ensures |r| == |mine|
    ensures forall i | 0 <= i < |r| :: r[i] == if i < m then Apply(j, w, it, mine)[i] else mine[i]
  {
    seq(|mine|, i requires 0 <= i < |mine| => if i < m then Apply(j, w, it, mine)[i] else mine[i])
  }

  /** The values a call is made with. */
  ghost predicate CallValues(j: Job, s: Side, it: uint64, mine: Data, vals: seq<Value>) {
    && |vals| == |mine| == |j.args| && |vals| > 0 && vals[0] == VInt(it)
    && forall i | 0 < i < |vals| :: vals[i] == Fetched(j, s, mine, i)
  }

  lemma {:induction false} WriteBackRuns(j: Job, w: World, s: Side, it: uint64, mem: seq<Region>, vals: seq<Value>,
                                         m: nat, mine: Data, theirs: Data)
    requires j.Valid() && m <= |j.args| && |mine| == |theirs| == |j.args| && CallValues(j, s, it, mine, vals)
    requires s.SeesMem(j, mem, Written1(j, w, it, mine, m), Share(j, Written1(j, w, it, mine, m), theirs))
    ensures var mem' := WriteBack(mem, vals, m, Actuals(j, it, mine), w);
            s.SeesMem(j, mem', Apply(j, w, it, mine), Share(j, Apply(j, w, it, mine), theirs))
    decreases |j.args| - m
  {
    var x, y := Written1(j, w, it, mine, m), Share(j, Written1(j, w, it, mine, m), theirs);
    if m == |j.args| {
      assert x == Apply(j, w, it, mine);
    } else {
      var x' := Written1(j, w, it, mine, m + 1);
      var bytes := Apply(j, w, it, mine)[m];
      assert x' == x[m := bytes];
      assert Share(j, x', theirs) == if j.args[m].Out() then y else y[m := bytes];
      s.MineAt(j, mem, x, y, m);
      if j.args[m].ty.Pointer? {
        var r := s.Reg(j, m);
        s.WriteMine(j, mem, x, y, m, bytes);
        assert mem[r].(bytes := Written(|mem[r].bytes|, Actuals(j, it, mine), m, w)) == RegionOf(j, m, bytes);
        WriteBackRuns(j, w, s, it, mem[r := RegionOf(j, m, bytes)], vals, m + 1, mine, theirs);
      } else {
        assert bytes == mine[m] == x[m];
        assert x' == x && Share(j, x', theirs) == y;
        WriteBackRuns(j, w, s, it, mem, vals, m + 1, mine, theirs);
      }
    }
  }

  /** In a set that is seen, what is not outbound is shared already. */
  lemma {:induction false} AlreadyShared(j: Job, s: Side, mem: seq<Region>, mine: Data, theirs: Data)
    requires s.SeesMem(j, mem, mine, theirs)
    ensures |mine| == |theirs| == |j.args| && Share(j, mine, theirs) == theirs
  {
    assert |mine| == |theirs| == |j.args|;
    forall i | 0 <= i < |j.args|
      ensures Share(j, mine, theirs)[i] == theirs[i]
    {
      s.MineAt(j, mem, mine, theirs, i);
    }
  }

  /** The operands of the call in block `l`. */
  function CallOperands(j: Job, s: Side, l: Label): (r: seq<Operand>)
    requires |j.args| > 0
    ensures |r| == |j.args|
  {
    FetchedOperands(s.Args(j), l, 0, |j.args|)
  }

  lemma {:induction false} OperandAt(j: Job, s: Side, l: Label, i: nat)
    requires i < |j.args|
    ensures CallOperands(j, s, l)[i] == if i == 0 then s.LoopOf(j).Ind() else Inst(l, i - 1)
  {
    if i > 0 {
      FetchPositions(s.Args(j), i);
    }
  }

  /** All arguments are fetched, and the induction variable is there. */
  ghost predicate ReadyToCall(j: Job, s: Side, l: Label, st: State, it: uint64, mine: Data, theirs: Data) {
    && |j.args| > 0 && s.Sees(j, st, mine, theirs) && |mine| == |j.args|
    && s.LoopOf(j).Ind() in st.env && st.env[s.LoopOf(j).Ind()] == VInt(it)
    && FetchedUpTo(j, s, l, |j.args|, st.env, mine)
  }

  lemma {:induction false} OperandValue(j: Job, s: Side, l: Label, st: State, it: uint64, mine: Data, theirs: Data,
                                        i: nat)
    requires j.Valid() && ReadyToCall(j, s, l, st, it, mine, theirs) && i < |j.args|
    ensures var op := CallOperands(j, s, l)[i];
            && Defined(op, st.env)
            && Eval(op, st.env) == (if i == 0 then VInt(it) else Fetched(j, s, mine, i))
            && Passable(Eval(op, st.env), st.mem)
            && Pass(Eval(op, st.env), st.mem) == ActualAt(j, it, mine, i)
  {
    OperandAt(j, s, l, i);
    s.MineAt(j, st.mem, mine, theirs, i);
  }

  lemma {:induction false} CallStep(j: Job, w: World, s: Side, l: Label, st: State, it: uint64, mine: Data,
                                    theirs: Data)
    returns (st': State)
    requires j.Valid() && ReadyToCall(j, s, l, st, it, mine, theirs)
    ensures CallF(CallOperands(j, s, l), st, w) == Ok(st')
    ensures st'.env == st.env && st'.log == st.log + [Called(it)]
    ensures |mine| == |theirs| == |j.args|
    ensures s.SeesMem(j, st'.mem, Apply(j, w, it, mine), Share(j, Apply(j, w, it, mine), theirs))
  {
    hide Holds, WriteBack, Apply, CallOperands;
    var ops := CallOperands(j, s, l);
    forall i | 0 <= i < |ops|
      ensures Defined(ops[i], st.env) && Eval(ops[i], st.env) == (if i == 0 then VInt(it) else Fetched(j, s, mine, i))
      ensures Passable(Eval(ops[i], st.env), st.mem)
      ensures Pass(Eval(ops[i], st.env), st.mem) == ActualAt(j, it, mine, i)
    {
      OperandValue(j, s, l, st, it, mine, theirs, i);
    }
    var vals := seq(|ops|, i requires 0 <= i < |ops| => Eval(ops[i], st.env));
    assert CallValues(j, s, it, mine, vals);
    var actuals := seq(|ops|, i requires 0 <= i < |ops| => Pass(vals[i], st.mem));
    assert actuals == Actuals(j, it, mine);
    assert Written1(j, w, it, mine, 0) == mine;
    AlreadyShared(j, s, st.mem, mine, theirs);
    WriteBackRuns(j, w, s, it, st.mem, vals, 0, mine, theirs);
    st' := CallF(ops, st, w).st;
  }
}
