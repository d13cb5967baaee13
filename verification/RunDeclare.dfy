/** The run of the symbolic declarations: inputs become arbitrary, copies become equal. */
module RunDeclare {
  import opened IR
  import opened HarnessLayout
  import opened Semantics
  import opened HarnessSpec
  import opened HarnessMemory
  import opened RunSetup

  /** The two sets when the first `m` arguments are declared. */
  function Mixed1(j: Job, w: World, m: nat): (r: Data)
    ensures |r| == |j.args|
    ensures forall i | 0 <= i < |j.args| :: r[i] == if i < m then FirstAt(j, w, i) else Raw1(j, w, i)
  {
    seq(|j.args|, i requires 0 <= i < |j.args| => if i < m then FirstAt(j, w, i) else Raw1(j, w, i))
  }

  function Mixed2(j: Job, w: World, m: nat): (r: Data)
    ensures |r| == |j.args|
    ensures forall i | 0 <= i < |j.args| :: r[i] == if i < m then SecondAt(j, w, i) else Raw2(j, w, i)
  {
    seq(|j.args|, i requires 0 <= i < |j.args| => if i < m then SecondAt(j, w, i) else Raw2(j, w, i))
  }

  /** The state of the data part of a run: memory holds two sets, and the pointers are there. */
  ghost predicate InSets(j: Job, st: State, a: Data, b: Data) {
    Holds(j, st.mem, a, b) && Pointers(j, st.env)
  }

  lemma {:induction false} AllocatedHolds(j: Job, w: World, st: State)
    requires Allocated(j, w, |j.args|, st)
    ensures InSets(j, st, Mixed1(j, w, 0), Mixed2(j, w, 0))
  {
    var a, b := Mixed1(j, w, 0), Mixed2(j, w, 0);
    forall i | 0 <= i < |j.args|
      ensures HoldsAt(j, st.mem, a, b, i)
    {
      assert AllocatedAt(j, w, st.mem, i);
    }
  }

  function WithBytes(j: Job, st: State, r: nat, i: nat, bytes: Bytes): State
    requires r < |st.mem| && i < |j.args|
  {
    st.(mem := st.mem[r := RegionOf(j, i, bytes)])
  }

  /** One whole region made symbolic. */
  lemma {:induction false} SymbolicStep(j: Job, w: World, i: nat, r: nat, l: Label, b: Block, pos: nat, prev: Label,
                                        st: State)
    requires i < |j.args| && r < |st.mem| && j.Ptr(r) in st.env && st.env[j.Ptr(r)] == VPtr(r)
    requires st.mem[r] == RegionOf(j, i, st.mem[r].bytes) && |st.mem[r].bytes| == j.args[i].Size(j.iters)
    requires pos < |b| && b[pos] == CallMakeSymbolic(j.Ptr(r), Const(j.args[i].Size(j.iters)))
    ensures Exec(b, l, pos, prev, st, w) ==
            Exec(b, l, pos + 1, prev, WithBytes(j, st, r, i, Fill(j.args[i].Size(j.iters), w.sym, r)), w)
  {
    var n := j.args[i].Size(j.iters);
    assert Fill(n, w.sym, r) + st.mem[r].bytes[n..] == Fill(n, w.sym, r);
    assert Execute(b[pos], Inst(l, pos), prev, st, w) == Ok(WithBytes(j, st, r, i, Fill(n, w.sym, r)));
  }

  /** One whole region copied to another. */
  lemma {:induction false} CopyStep(j: Job, w: World, i: nat, to: nat, from: nat, l: Label, b: Block, pos: nat,
                                    prev: Label, st: State)
    requires i < |j.args| && to < |st.mem| && from < |st.mem| && to != from
    requires j.Ptr(to) in st.env && st.env[j.Ptr(to)] == VPtr(to)
    requires j.Ptr(from) in st.env && st.env[j.Ptr(from)] == VPtr(from)
    requires st.mem[to] == RegionOf(j, i, st.mem[to].bytes) && |st.mem[to].bytes| == j.args[i].Size(j.iters)
    requires st.mem[from].live && |st.mem[from].bytes| == j.args[i].Size(j.iters)
    requires pos < |b| && b[pos] == CallMemcpy(j.Ptr(to), j.Ptr(from), Const(j.args[i].Size(j.iters)))
    ensures Exec(b, l, pos, prev, st, w) ==
            Exec(b, l, pos + 1, prev, WithBytes(j, st, to, i, st.mem[from].bytes), w)
  {
    var n := j.args[i].Size(j.iters);
    assert st.mem[from].bytes[..n] + st.mem[to].bytes[n..] == st.mem[from].bytes;
    assert Execute(b[pos], Inst(l, pos), prev, st, w) == Ok(WithBytes(j, st, to, i, st.mem[from].bytes));
  }

  /** Where the declaration of an argument stands in its block. */
  lemma {:induction false} DeclareAt(j: Job, m: nat, i: nat)
    requires i < m <= |j.args|
    ensures |j.DeclareInstrs(i)| + |j.Declare(i)| == |j.DeclareInstrs(i + 1)| <= |j.DeclareInstrs(m)|
    ensures forall k | 0 <= k < |j.Declare(i)| ::
              j.DeclareInstrs(m)[|j.DeclareInstrs(i)| + k] == j.Declare(i)[k]
    decreases m
  {
    hide Job.Declare;
    if i < m - 1 {
      DeclareAt(j, m - 1, i);
    }
  }

  /** `b` holds the declaration of argument `i` from position `pos` on. */
  ghost predicate DeclaredFrom(j: Job, b: Block, pos: nat, i: nat)
    requires i < |j.args|
  {
    pos + |j.Declare(i)| < |b| && forall k | 0 <= k < |j.Declare(i)| :: b[pos + k] == j.Declare(i)[k]
  }

  /** An argument that is not outbound: its one region becomes symbolic. */
  lemma {:induction false} DeclareShared(j: Job, w: World, i: nat, l: Label, b: Block, pos: nat, prev: Label, st: State,
                                         x: Data, y: Data)
    returns (st': State)
    requires i < |j.args| && !j.args[i].Out() && DeclaredFrom(j, b, pos, i)
    requires InSets(j, st, x, y) && |x[i]| == j.args[i].Size(j.iters)
    ensures Exec(b, l, pos, prev, st, w) == Exec(b, l, pos + 1, prev, st', w)
    ensures InSets(j, st', x[i := FirstAt(j, w, i)], y[i := FirstAt(j, w, i)]) && st'.log == st.log
  {
    RegionInRange(j, i);
    assert HoldsAt(j, st.mem, x, y, i);
    assert b[pos + 0] == j.Declare(i)[0];
    SymbolicStep(j, w, i, j.R1(i), l, b, pos, prev, st);
    st' := WithBytes(j, st, j.R1(i), i, FirstAt(j, w, i));
    WriteFirst(j, st.mem, x, y, i, FirstAt(j, w, i));
  }

  /** An argument that goes both ways: both regions become symbolic, and then the second a copy
      of the first. */
  lemma {:induction false} DeclareBoth(j: Job, w: World, i: nat, l: Label, b: Block, pos: nat, prev: Label, st: State,
                                       x: Data, y: Data)
    returns (st': State)
    requires i < |j.args| && j.args[i].Out() && !j.args[i].OnlyOut() && DeclaredFrom(j, b, pos, i)
    requires InSets(j, st, x, y) && |x[i]| == |y[i]| == j.args[i].Size(j.iters)
    ensures Exec(b, l, pos, prev, st, w) == Exec(b, l, pos + 3, prev, st', w)
    ensures InSets(j, st', x[i := FirstAt(j, w, i)], y[i := FirstAt(j, w, i)]) && st'.log == st.log
  {
    hide Exec, Execute;
    var r1, r2 := j.R1(i), j.R2(i);
    RegionInRange(j, i);
    assert HoldsAt(j, st.mem, x, y, i);
    assert b[pos + 0] == j.Declare(i)[0] && b[pos + 1] == j.Declare(i)[1] && b[pos + 2] == j.Declare(i)[2];
    var first, other := FirstAt(j, w, i), Fill(j.args[i].Size(j.iters), w.sym, r2);
    SymbolicStep(j, w, i, r1, l, b, pos, prev, st);
    var st1 := WithBytes(j, st, r1, i, first);
    WriteFirst(j, st.mem, x, y, i, first);
    SymbolicStep(j, w, i, r2, l, b, pos + 1, prev, st1);
    var st2 := WithBytes(j, st1, r2, i, other);
    WriteSecond(j, st1.mem, x[i := first], y, i, other);
    CopyStep(j, w, i, r2, r1, l, b, pos + 2, prev, st2);
    st' := WithBytes(j, st2, r2, i, first);
    WriteSecond(j, st2.mem, x[i := first], y[i := other], i, first);
    assert y[i := other][i := first] == y[i := first];
  }

  lemma {:induction false} DeclareArg(j: Job, w: World, m: nat, l: Label, b: Block, pos: nat, prev: Label, st: State)
    returns (st': State)
    requires m < |j.args| && DeclaredFrom(j, b, pos, m)
    requires InSets(j, st, Mixed1(j, w, m), Mixed2(j, w, m))
    ensures Exec(b, l, pos, prev, st, w) == Exec(b, l, pos + |j.Declare(m)|, prev, st', w)
    ensures InSets(j, st', Mixed1(j, w, m + 1), Mixed2(j, w, m + 1)) && st'.log == st.log
  {
    var x, y, f := Mixed1(j, w, m), Mixed2(j, w, m), FirstAt(j, w, m);
    if j.args[m].OnlyOut() {
      st' := st;
      assert Mixed1(j, w, m + 1) == x && Mixed2(j, w, m + 1) == y;
    } else {
      assert Mixed1(j, w, m + 1) == x[m := f] && Mixed2(j, w, m + 1) == y[m := f];
      if j.args[m].Out() {
        st' := DeclareBoth(j, w, m, l, b, pos, prev, st, x, y);
      } else {
        st' := DeclareShared(j, w, m, l, b, pos, prev, st, x, y);
      }
    }
  }

  lemma {:induction false} DeclaredInBlock(j: Job, m: nat, b: Block)
    requires m < |j.args| && b == j.DeclareInstrs(|j.args|) + [Br(j.base + CALL1_SETUP)]
    ensures DeclaredFrom(j, b, |j.DeclareInstrs(m)|, m)
    ensures |j.DeclareInstrs(m)| + |j.Declare(m)| == |j.DeclareInstrs(m + 1)|
  {
    hide Job.Declare, Job.DeclareInstrs;
    var n, pos := |j.args|, |j.DeclareInstrs(m)|;
    DeclareAt(j, n, m);
    forall k | 0 <= k < |j.Declare(m)|
      ensures b[pos + k] == j.Declare(m)[k]
    {
      assert j.DeclareInstrs(n)[pos + k] == j.Declare(m)[k];
    }
  }

  lemma {:induction false} DeclareRuns(j: Job, w: World, m: nat, b: Block, l: Label, prev: Label, st: State)
    returns (st': State)
    requires m <= |j.args| && b == j.DeclareInstrs(|j.args|) + [Br(j.base + CALL1_SETUP)]
    requires InSets(j, st, Mixed1(j, w, m), Mixed2(j, w, m))
    ensures Exec(b, l, |j.DeclareInstrs(m)|, prev, st, w) == Exec(b, l, |j.DeclareInstrs(|j.args|)|, prev, st', w)
    ensures InSets(j, st', Mixed1(j, w, |j.args|), Mixed2(j, w, |j.args|)) && st'.log == st.log
    decreases |j.args| - m
  {
    hide Exec, InSets, Job.Declare;
    if m == |j.args| {
      st' := st;
    } else {
      DeclaredInBlock(j, m, b);
      var pos := |j.DeclareInstrs(m)|;
      var mid := DeclareArg(j, w, m, l, b, pos, prev, st);
      st' := DeclareRuns(j, w, m + 1, b, l, prev, mid);
    }
  }

  /** The symbolic setup block as a whole: memory holds the two initial sets. */
  lemma {:induction false} DeclareBlockRuns(cfg: Cfg, j: Job, w: World, prev: Label, st: State) returns (st': State)
    requires Embedded(cfg, j) && Allocated(j, w, |j.args|, st)
    ensures Step(cfg, w, At(j.base + SE_SETUP, prev, st)) == At(j.base + CALL1_SETUP, j.base + SE_SETUP, st')
    ensures InSets(j, st', First(j, w), Second(j, w))
    ensures st'.log == MallocEvents(j.HeapRegions(|j.args|))
  {
    hide InSets, Holds;
    var b, n := j.BlockAt(SE_SETUP), |j.args|;
    assert cfg[j.base + SE_SETUP] == b;
    AllocatedHolds(j, w, st);
    st' := DeclareRuns(j, w, 0, b, j.base + SE_SETUP, prev, st);
    assert Mixed1(j, w, n) == First(j, w) && Mixed2(j, w, n) == Second(j, w);
    assert b[|j.DeclareInstrs(n)|] == Br(j.base + CALL1_SETUP);
  }
}
