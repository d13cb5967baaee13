/** The generator's parts, run in its order on a function, leave exactly the blocks of the layout. */
module HarnessAssembly {
  import opened ArgSpecs
  import opened IR
  import opened LoopBuilding
  import opened HarnessLayout
  import opened BuildSteps

  const TWELVE: Cfg := [[], [], [], [], [], [], [], [], [], [], [], []]

  /** The assertions of a job, when the condition blocks come right behind the twelve fixed ones. */
  function AssertionsOf(j: Job): Assertions {
    Assertions(j.Values1(|j.args|), j.Values2(|j.args|), j.Specs(), j.iters, j.base + CONDS, j.base + SE_END)
  }

  /** After the twelve empty blocks: allocation, symbolic declarations, assertions. */
  function WithData(bs: Cfg, j: Job): (r: Cfg)
    requires j.base == |bs|
    ensures |r| == |bs| + 12 + 2 * |AssertionsOf(j).Sel(|j.args|)|
  {
    var b, n := j.base, |j.args|;
    var s1 := Append(Append(bs + TWELVE, b + SETUP, j.SetupInstrs(n)), b + TEARDOWN, j.FreeInstrs());
    var s2 := Append(s1, b + SE_SETUP, j.DeclareInstrs(n));
    AssertionsOf(j).Complete(s2, b + SE_START)
  }

  /** Then the two loops ... */
  function WithLoops(bs: Cfg, j: Job): (r: Cfg)
    requires |bs| >= j.base + 12
    ensures |r| == |bs| + 6
  {
    var b := j.base;
    var s1 := WithLoop(bs, [b + CALL1], b + CALL1_SETUP, b + CALL1_TEARDOWN, 0, j.iters, 1);
    WithLoop(s1, [b + CALL2], b + CALL2_SETUP, b + CALL2_TEARDOWN, Decrement(j.iters), 0, 1)
  }

  /** ... and the two calls. */
  function WithCalls(bs: Cfg, j: Job): (r: Cfg)
    requires |bs| >= j.base + 12 && |j.args| > 0
    ensures |r| == |bs| + 6
  {
    WithCall(WithCall(WithLoops(bs, j), j.base + CALL1, j.CallArgs1()), j.base + CALL2, j.CallArgs2())
  }

  /** Then the branches between the parts and the return. */
  function WithFlow(bs: Cfg, b: Label): (r: Cfg)
    requires |bs| >= b + 12
    ensures |r| == |bs|
  {
    var s1 := Append(Append(bs, b + SETUP, [Br(b + SE_SETUP)]), b + SE_SETUP, [Br(b + CALL1_SETUP)]);
    var s2 := Append(Append(s1, b + CALL1_TEARDOWN, [Br(b + CALL2_SETUP)]), b + CALL2_TEARDOWN, [Br(b + SE_START)]);
    var s3 := Append(Append(s2, b + SE_END, [Br(b + TEARDOWN)]), b + TEARDOWN, [Br(b + EXIT)]);
    Append(s3, b + EXIT, [Ret(Const(0))])
  }

  /** Specifications behind the last argument are not consulted by the assertions. */
  lemma {:induction false} SameSelection(j: Job, specs: seq<ArgSpec>, m: nat)
    requires m <= |j.args| <= |specs| && forall i | 0 <= i < |j.args| :: j.args[i].spec == specs[i]
    ensures Selected(specs, m) == Selected(j.Specs(), m)
    decreases m
  {
    if m > 0 {
      SameSelection(j, specs, m - 1);
    }
  }

  lemma {:induction false} SameAssertions(j: Job, specs: seq<ArgSpec>, bs: Cfg, start: Label)
    requires |bs| == j.base + 12 && start < |bs|
    requires |j.args| <= |specs| && forall i | 0 <= i < |j.args| :: j.args[i].spec == specs[i]
    ensures AssertionsOf(j).(specs := specs).Complete(bs, start) == AssertionsOf(j).Complete(bs, start)
  {
    hide Append, Assertions.BlockAt;
    var a, n := AssertionsOf(j), |j.args|;
    var a' := a.(specs := specs);
    SameSelection(j, specs, n);
    var k := j.Conds();
    SameFirstBlocks(a, a', a.Sel(n), k, k, if k > 0 then k - 1 else 0, 2 * k);
  }

  lemma {:induction false} SameFirstBlocks(a: Assertions, a': Assertions, sel: seq<nat>, f: nat, t: nat, r: nat, n: nat)
    requires a.Fits() && a'.Fits() && a' == a.(specs := a'.specs)
    requires n <= 2 * |sel| && forall c | 0 <= c < |sel| :: sel[c] < |a.v1s|
    requires forall i | 0 <= i < |a.v1s| :: a.specs[i] == a'.specs[i]
    ensures a.FirstBlocks(sel, f, t, r, n) == a'.FirstBlocks(sel, f, t, r, n)
    decreases n
  {
    hide Assertions.BlockAt;
    if n > 0 {
      SameFirstBlocks(a, a', sel, f, t, r, n - 1);
      SameBlock(a, a', sel, f, t, r, n - 1);
    }
  }

  lemma {:induction false} SameBlock(a: Assertions, a': Assertions, sel: seq<nat>, f: nat, t: nat, r: nat, x: nat)
    requires a.Fits() && a'.Fits() && a' == a.(specs := a'.specs)
    requires x < 2 * |sel| && forall c | 0 <= c < |sel| :: sel[c] < |a.v1s|
    requires a.specs[sel[x / 2]] == a'.specs[sel[x / 2]]
    ensures a.BlockAt(sel, f, t, r, x) == a'.BlockAt(sel, f, t, r, x)
  {
    assert a.Branch(sel, r, x) == a'.Branch(sel, r, x);
  }

  lemma {:induction false} AppendInside(bs: Cfg, l: Cfg, x: nat, instrs: seq<Instr>)
    requires x < |l|
    ensures Append(bs + l, |bs| + x, instrs) == bs + Append(l, x, instrs)
  {
  }

  /** The twelve fixed blocks once the data is set up. */
  function DataBlocks(j: Job): (r: Cfg)
    ensures |r| == 12
  {
    var n := |j.args|;
    [ j.SetupInstrs(n), j.DeclareInstrs(n), [], [], [], [], [], [],
      [Br(j.CheckLabel(0))], [], j.FreeInstrs(), [] ]
  }

  /** The condition and fail blocks. */
  function CheckBlocks(j: Job): (r: Cfg)
    ensures |r| == 2 * j.Conds()
  {
    var a, n := AssertionsOf(j), |j.args|;
    var k := |a.Sel(n)|;
    a.Blocks(n, k, k, if k > 0 then k - 1 else 0)
  }

  lemma {:induction false} FillInside(bs: Cfg, l: Cfg, x: nat, instrs: seq<Instr>)
    requires x < |l| && l[x] == []
    ensures Append(bs + l, |bs| + x, instrs) == bs + l[x := instrs]
  {
    assert [] + instrs == instrs;
  }

  lemma {:induction false} FillData(bs: Cfg, setup: Block, decl: Block, start: Block, free: Block)
    ensures var b := |bs|;
            Append(Append(Append(Append(bs + TWELVE, b + SETUP, setup), b + TEARDOWN, free),
                          b + SE_SETUP, decl), b + SE_START, start) ==
            bs + [setup, decl, [], [], [], [], [], [], start, [], free, []]
  {
    FillInside(bs, TWELVE, SETUP, setup);
    var l1 := TWELVE[SETUP := setup];
    FillInside(bs, l1, TEARDOWN, free);
    var l2 := l1[TEARDOWN := free];
    FillInside(bs, l2, SE_SETUP, decl);
    var l3 := l2[SE_SETUP := decl];
    FillInside(bs, l3, SE_START, start);
  }

  lemma {:induction false} DataIsLaidOut(bs: Cfg, j: Job)
    requires j.base == |bs|
    ensures WithData(bs, j) == bs + DataBlocks(j) + CheckBlocks(j)
  {
    var n := |j.args|;
    var br := [Br(if j.Conds() > 0 then j.CondLabel(0) else j.base + SE_END)];
    FillData(bs, j.SetupInstrs(n), j.DeclareInstrs(n), br, j.FreeInstrs());
  }

  /** The twelve fixed blocks once loops and calls are built. */
  function CallBlocks(j: Job): (r: Cfg)
    requires |j.args| > 0
    ensures |r| == 12
  {
    var d := DataBlocks(j);
    var b := j.base;
    [ d[SETUP], d[SE_SETUP], [Br(j.Loop1().hdr)], [Br(j.Loop2().hdr)],
      CallInstrs(j.CallArgs1(), b + CALL1, 0) + [Br(j.Loop1().latch)],
      CallInstrs(j.CallArgs2(), b + CALL2, 0) + [Br(j.Loop2().latch)],
      [], [], d[SE_START], [], d[TEARDOWN], [] ]
  }

  function LoopBlocks(l: Loop): (r: Cfg)
    ensures |r| == 3
  {
    [l.HeaderBlock(), l.LatchBlock(), l.ExitBlock()]
  }

  /** A loop around one empty block, built in a function with `l` behind `bs`. */
  lemma {:induction false} LoopInside(bs: Cfg, l: Cfg, body: nat, pre: nat, post: nat, start: uint32, end: uint32)
    requires body < |l| && pre < |l| && body != pre && l[body] == [] && l[pre] == []
    ensures var loop := NewLoop(bs + l, [|bs| + body], |bs| + pre, |bs| + post, start, end, 1);
            WithLoop(bs + l, [|bs| + body], |bs| + pre, |bs| + post, start, end, 1) ==
            bs + l[body := [Br(loop.latch)]][pre := [Br(loop.hdr)]] + LoopBlocks(loop)
  {
    var loop := NewLoop(bs + l, [|bs| + body], |bs| + pre, |bs| + post, start, end, 1);
    hide Append, Wired, Loop.HeaderBlock, Loop.LatchBlock, Loop.ExitBlock;
    OneWired(bs, l, body, loop.latch);
    FillInside(bs, l[body := [Br(loop.latch)]], pre, [Br(loop.hdr)]);
  }

  lemma {:induction false} OneWired(bs: Cfg, l: Cfg, body: nat, latch: Label)
    requires body < |l| && l[body] == []
    ensures Wired(bs + l, [|bs| + body], latch) == bs + l[body := [Br(latch)]]
  {
    assert [] + [Br(latch)] == [Br(latch)];
  }

  /** A call put into a block that holds only its terminator. */
  lemma {:induction false} CallInside(bs: Cfg, l: Cfg, x: nat, t: Instr, vals: seq<ArgValue>)
    requires x < |l| && l[x] == [t] && IsTerminator(t)
    ensures WithCall(bs + l, |bs| + x, vals) == bs + l[x := CallInstrs(vals, |bs| + x, 0) + [t]]
  {
    var instrs := CallInstrs(vals, |bs| + x, 0);
    assert [t][..0] + instrs + [t][0..] == instrs + [t];
  }

  /** The first loop and then the second, each around an empty block of `d`. */
  lemma {:induction false} FirstLoop(bs: Cfg, d: Cfg, rest: Cfg, j: Job)
    requires j.base == |bs| && |d| == 12 && |rest| == 2 * j.Conds()
    requires d[CALL1] == d[CALL1_SETUP] == []
    ensures var b := j.base;
            WithLoop(bs + (d + rest), [b + CALL1], b + CALL1_SETUP, b + CALL1_TEARDOWN, 0, j.iters, 1) ==
            bs + (d[CALL1 := [Br(j.Loop1().latch)]][CALL1_SETUP := [Br(j.Loop1().hdr)]]
                  + (rest + LoopBlocks(j.Loop1())))
  {
    LoopInside(bs, d + rest, CALL1, CALL1_SETUP, CALL1_TEARDOWN, 0, j.iters);
    var d' := d[CALL1 := [Br(j.Loop1().latch)]][CALL1_SETUP := [Br(j.Loop1().hdr)]];
    assert (d + rest)[CALL1 := [Br(j.Loop1().latch)]][CALL1_SETUP := [Br(j.Loop1().hdr)]] == d' + rest;
    assert bs + (d' + rest) + LoopBlocks(j.Loop1()) == bs + (d' + (rest + LoopBlocks(j.Loop1())));
  }

  lemma {:induction false} SecondLoop(bs: Cfg, d: Cfg, rest: Cfg, j: Job)
    requires j.base == |bs| && |d| == 12 && |rest| == 2 * j.Conds() + 3
    requires d[CALL2] == d[CALL2_SETUP] == []
    ensures var b := j.base;
            WithLoop(bs + (d + rest), [b + CALL2], b + CALL2_SETUP, b + CALL2_TEARDOWN, Decrement(j.iters), 0, 1) ==
            bs + (d[CALL2 := [Br(j.Loop2().latch)]][CALL2_SETUP := [Br(j.Loop2().hdr)]]
                  + (rest + LoopBlocks(j.Loop2())))
  {
    LoopInside(bs, d + rest, CALL2, CALL2_SETUP, CALL2_TEARDOWN, Decrement(j.iters), 0);
    var d' := d[CALL2 := [Br(j.Loop2().latch)]][CALL2_SETUP := [Br(j.Loop2().hdr)]];
    assert (d + rest)[CALL2 := [Br(j.Loop2().latch)]][CALL2_SETUP := [Br(j.Loop2().hdr)]] == d' + rest;
    assert bs + (d' + rest) + LoopBlocks(j.Loop2()) == bs + (d' + (rest + LoopBlocks(j.Loop2())));
  }

  lemma {:induction false} UpdateFront(d: Cfg, rest: Cfg, x: nat, b: Block)
    requires x < |d|
    ensures (d + rest)[x := b] == d[x := b] + rest
  {
  }

  lemma {:induction false} CallIn(bs: Cfg, d: Cfg, rest: Cfg, x: nat, t: Instr, vals: seq<ArgValue>)
    requires x < |d| && d[x] == [t] && IsTerminator(t)
    ensures WithCall(bs + (d + rest), |bs| + x, vals) == bs + (d[x := CallInstrs(vals, |bs| + x, 0) + [t]] + rest)
  {
    CallInside(bs, d + rest, x, t, vals);
    UpdateFront(d, rest, x, CallInstrs(vals, |bs| + x, 0) + [t]);
  }

  lemma {:induction false} FixedAfterCalls(d: Cfg, c1s: Block, c2s: Block, l1: Block, l2: Block, c1: Block, c2: Block)
    requires |d| == 12
    ensures d[CALL1 := l1][CALL1_SETUP := c1s][CALL2 := l2][CALL2_SETUP := c2s][CALL1 := c1][CALL2 := c2] ==
            [d[0], d[1], c1s, c2s, c1, c2, d[6], d[7], d[8], d[9], d[10], d[11]]
  {
  }

  /** The fixed blocks once both loops are built. */
  function LoopedBlocks(j: Job): (r: Cfg)
    ensures |r| == 12
    ensures r[CALL1] == [Br(j.Loop1().latch)] && r[CALL2] == [Br(j.Loop2().latch)]
  {
    DataBlocks(j)[CALL1 := [Br(j.Loop1().latch)]][CALL1_SETUP := [Br(j.Loop1().hdr)]]
                 [CALL2 := [Br(j.Loop2().latch)]][CALL2_SETUP := [Br(j.Loop2().hdr)]]
  }

  function Behind(j: Job): Cfg
  {
    CheckBlocks(j) + LoopBlocks(j.Loop1()) + LoopBlocks(j.Loop2())
  }

  lemma {:induction false} LoopsAreLaidOut(bs: Cfg, j: Job)
    requires j.base == |bs|
    ensures WithLoops(bs + (DataBlocks(j) + CheckBlocks(j)), j) == bs + (LoopedBlocks(j) + Behind(j))
  {
    hide WithLoop;
    FirstLoop(bs, DataBlocks(j), CheckBlocks(j), j);
    var d1 := DataBlocks(j)[CALL1 := [Br(j.Loop1().latch)]][CALL1_SETUP := [Br(j.Loop1().hdr)]];
    SecondLoop(bs, d1, CheckBlocks(j) + LoopBlocks(j.Loop1()), j);
  }

  lemma {:induction false} CallsAreLaidOut(bs: Cfg, j: Job)
    requires j.base == |bs| && |j.args| > 0
    ensures WithCalls(bs + (DataBlocks(j) + CheckBlocks(j)), j) == bs + (CallBlocks(j) + Behind(j))
  {
    var l1, l2 := Br(j.Loop1().latch), Br(j.Loop2().latch);
    LoopsAreLaidOut(bs, j);
    var d := LoopedBlocks(j);
    var c1 := CallInstrs(j.CallArgs1(), j.base + CALL1, 0) + [l1];
    var c2 := CallInstrs(j.CallArgs2(), j.base + CALL2, 0) + [l2];
    CallIn(bs, d, Behind(j), CALL1, l1, j.CallArgs1());
    CallIn(bs, d[CALL1 := c1], Behind(j), CALL2, l2, j.CallArgs2());
    FixedAfterCalls(DataBlocks(j), [Br(j.Loop1().hdr)], [Br(j.Loop2().hdr)], [l1], [l2], c1, c2);
  }

  // ----- control flow -----

  lemma {:induction false} AppendFront(bs: Cfg, d: Cfg, rest: Cfg, x: nat, instrs: seq<Instr>)
    requires x < |d|
    ensures Append(bs + (d + rest), |bs| + x, instrs) == bs + (Append(d, x, instrs) + rest)
  {
    AppendInside(bs, d + rest, x, instrs);
    UpdateFront(d, rest, x, d[x] + instrs);
  }

  lemma {:induction false} FlowInside(bs: Cfg, d: Cfg, rest: Cfg)
    requires |d| == 12
    ensures WithFlow(bs + (d + rest), |bs|) == bs + (FlowFixed(d, |bs|) + rest)
  {
    var b := |bs|;
    AppendFront(bs, d, rest, SETUP, [Br(b + SE_SETUP)]);
    var d1 := Append(d, SETUP, [Br(b + SE_SETUP)]);
    AppendFront(bs, d1, rest, SE_SETUP, [Br(b + CALL1_SETUP)]);
    var d2 := Append(d1, SE_SETUP, [Br(b + CALL1_SETUP)]);
    AppendFront(bs, d2, rest, CALL1_TEARDOWN, [Br(b + CALL2_SETUP)]);
    var d3 := Append(d2, CALL1_TEARDOWN, [Br(b + CALL2_SETUP)]);
    AppendFront(bs, d3, rest, CALL2_TEARDOWN, [Br(b + SE_START)]);
    var d4 := Append(d3, CALL2_TEARDOWN, [Br(b + SE_START)]);
    AppendFront(bs, d4, rest, SE_END, [Br(b + TEARDOWN)]);
    var d5 := Append(d4, SE_END, [Br(b + TEARDOWN)]);
    AppendFront(bs, d5, rest, TEARDOWN, [Br(b + EXIT)]);
    var d6 := Append(d5, TEARDOWN, [Br(b + EXIT)]);
    AppendFront(bs, d6, rest, EXIT, [Ret(Const(0))]);
  }

  /** The same appends on the twelve fixed blocks alone. */
  function FlowFixed(d: Cfg, b: Label): (r: Cfg)
    requires |d| == 12
    ensures |r| == 12
  {
    var s1 := Append(Append(d, SETUP, [Br(b + SE_SETUP)]), SE_SETUP, [Br(b + CALL1_SETUP)]);
    var s2 := Append(Append(s1, CALL1_TEARDOWN, [Br(b + CALL2_SETUP)]), CALL2_TEARDOWN, [Br(b + SE_START)]);
    var s3 := Append(Append(s2, SE_END, [Br(b + TEARDOWN)]), TEARDOWN, [Br(b + EXIT)]);
    Append(s3, EXIT, [Ret(Const(0))])
  }

  lemma {:induction false} FlowList(d: Cfg, b: Label)
    requires |d| == 12
    ensures FlowFixed(d, b) ==
            [ d[0] + [Br(b + SE_SETUP)], d[1] + [Br(b + CALL1_SETUP)], d[2], d[3], d[4], d[5],
              d[6] + [Br(b + CALL2_SETUP)], d[7] + [Br(b + SE_START)], d[8], d[9] + [Br(b + TEARDOWN)],
              d[10] + [Br(b + EXIT)], d[11] + [Ret(Const(0))] ]
  {
  }

  lemma {:induction false} FixedBlocks(j: Job, x: nat)
    requires |j.args| > 0 && x < 12
    ensures FlowFixed(CallBlocks(j), j.base)[x] == j.BlockAt(x)
  {
    hide FlowFixed, CallInstrs, Job.SetupInstrs, Job.DeclareInstrs, Job.FreeInstrs, Job.Conds;
    FlowList(CallBlocks(j), j.base);
    var e: Block := [];
    assert e + [Br(j.base + CALL2_SETUP)] == [Br(j.base + CALL2_SETUP)];
    assert e + [Br(j.base + SE_START)] == [Br(j.base + SE_START)];
    assert e + [Br(j.base + TEARDOWN)] == [Br(j.base + TEARDOWN)];
    assert e + [Ret(Const(0))] == [Ret(Const(0))];
  }

  lemma {:induction false} CheckBlock(j: Job, x: nat)
    requires |j.args| > 0 && x < 2 * j.Conds()
    ensures CheckBlocks(j)[x] == j.BlockAt(CONDS + x)
  {
    BuiltCheck(j, x);
    LaidOutCheck(j, x);
    hide *;
    if x % 2 == 0 {
      assert x == 2 * (x / 2);
      CondBlockLaidOut(j, x / 2);
    }
  }

  /** Block number `x` of the assertions, as the linking passes leave it. */
  lemma {:induction false} BuiltCheck(j: Job, x: nat)
    requires x < 2 * j.Conds()
    ensures var a, k := AssertionsOf(j), j.Conds();
            && k == |a.Sel(|j.args|)| && CheckBlocks(j)[x] == a.BlockAt(a.Sel(|j.args|), k, k, k - 1, x)
            && (x % 2 == 1 ==> CheckBlocks(j)[x] == [CallAssertFail, Unreachable])
  {
    var a, k := AssertionsOf(j), j.Conds();
    a.BlocksAt(|j.args|, k, k, k - 1);
  }

  lemma {:induction false} LaidOutCheck(j: Job, x: nat)
    requires |j.args| > 0 && x < 2 * j.Conds()
    ensures j.BlockAt(CONDS + x) == if x % 2 == 0 then j.CondBlock(x / 2) else [CallAssertFail, Unreachable]
  {
    hide Job.CondBlock, Job.Outs;
    assert (CONDS + x) % 2 == x % 2 && (CONDS + x - CONDS) / 2 == x / 2;
  }

  /** The complete condition block of check `c`. */
  lemma {:induction false} CondBlockLaidOut(j: Job, c: nat)
    requires c < j.Conds()
    ensures var a, k := AssertionsOf(j), j.Conds();
            k == |a.Sel(|j.args|)| && a.BlockAt(a.Sel(|j.args|), k, k, k - 1, 2 * c) == j.CondBlock(c)
  {
    hide TestInstrs;
    var a, n, k := AssertionsOf(j), |j.args|, j.Conds();
    var i := j.Outs()[c];
    assert (2 * c) / 2 == c;
    assert i == a.Sel(n)[c] && a.specs[i] == j.args[i].spec;
    assert a.first + 2 * c == j.CondLabel(c);
    assert a.Branch(a.Sel(n), k - 1, 2 * c) ==
           CondBr(TestResult(j.ValueOf(i, j.R1(i)), j.CondLabel(c)), j.CheckLabel(c + 1), j.FailLabel(c));
  }

  lemma {:induction false} LastBlocks(j: Job, x: nat)
    requires |j.args| > 0 && x < 6
    ensures (LoopBlocks(j.Loop1()) + LoopBlocks(j.Loop2()))[x] == j.BlockAt(CONDS + 2 * j.Conds() + x)
  {
  }

  /** What the generator does to a function, as a whole. */
  function Assembled(bs: Cfg, j: Job): Cfg
    requires j.base == |bs| && |j.args| > 0
  {
    WithFlow(WithCalls(WithData(bs, j), j), j.base)
  }

  lemma {:induction false} BlocksAreLaidOut(j: Job)
    requires |j.args| > 0
    ensures FlowFixed(CallBlocks(j), j.base) + Behind(j) == j.Blocks()
  {
    hide FlowFixed, CallBlocks, CheckBlocks, LoopBlocks, Job.BlockAt;
    var f, c := FlowFixed(CallBlocks(j), j.base), CheckBlocks(j);
    var l := LoopBlocks(j.Loop1()) + LoopBlocks(j.Loop2());
    assert f + Behind(j) == f + (c + l);
    forall x | 0 <= x < j.Size()
      ensures (f + (c + l))[x] == j.BlockAt(x)
    {
      if x < 12 {
        FixedBlocks(j, x);
      } else if x < 12 + |c| {
        CheckBlock(j, x - 12);
      } else {
        LastBlocks(j, x - 12 - |c|);
      }
    }
  }

  /** The layout theorem: whatever the function held before, it is unchanged, and behind it stand
      exactly the blocks of the layout. */
  lemma {:induction false} HarnessIsLaidOut(bs: Cfg, j: Job)
    requires j.base == |bs| && |j.args| > 0
    ensures Assembled(bs, j) == bs + j.Blocks()
  {
    hide WithData, WithCalls, WithFlow, FlowFixed, DataBlocks, CallBlocks, CheckBlocks, Behind;
    DataIsLaidOut(bs, j);
    assert bs + DataBlocks(j) + CheckBlocks(j) == bs + (DataBlocks(j) + CheckBlocks(j));
    CallsAreLaidOut(bs, j);
    FlowInside(bs, CallBlocks(j), Behind(j));
    BlocksAreLaidOut(j);
  }

  // ----- specification lists -----

  /** The job of encapsulating a function with parameters `params`. */
  function JobFor(params: seq<ParamType>, specs: seq<ArgSpec>, iters: uint32, base: Label): Job {
    Job(Zip(params, specs), iters, base)
  }

  /** What a job's arguments are, in terms of the lists it is made from: a parameter behind the end
      of the specifications is only inbound and iterator independent. */
  lemma {:induction false} ArgAsked(params: seq<ParamType>, specs: seq<ArgSpec>, iters: uint32, base: Label, i: nat)
    requires i < |params|
    ensures var j := JobFor(params, specs, iters, base);
            && j.iters == iters && j.base == base && |j.args| == |params| && j.args[i].ty == params[i]
            && (j.args[i].Out() <==> i < |specs| && IsOutbound(specs[i].direction))
            && (j.args[i].OnlyOut() <==> i < |specs| && IsOnlyOutbound(specs[i].direction))
            && (j.args[i].spec.iteratorDependent <==> i < |specs| && specs[i].iteratorDependent)
  {
  }

  /** A harness has 18 blocks, and two more for each parameter that is specified outbound. */
  lemma {:induction false} BlocksAsked(params: seq<ParamType>, specs: seq<ArgSpec>, iters: uint32, base: Label)
    requires |params| > 0
    ensures |JobFor(params, specs, iters, base).Blocks()| ==
            18 + 2 * |set i | 0 <= i < |params| && i < |specs| && IsOutbound(specs[i].direction)|
  {
    hide Job.BlockAt;
    var j := JobFor(params, specs, iters, base);
    OneCheckEach(j);
    forall i | 0 <= i < |params|
      ensures j.args[i].Out() <==> i < |specs| && IsOutbound(specs[i].direction)
    {
      ArgAsked(params, specs, iters, base, i);
    }
    assert j.Outbound() == set i | 0 <= i < |params| && i < |specs| && IsOutbound(specs[i].direction);
  }

  /** A list that starts with the normalised specifications makes the same job. */
  lemma {:induction false} PaddingIsNeutral(params: seq<ParamType>, specs: seq<ArgSpec>, padded: seq<ArgSpec>)
    requires |padded| >= |params| && padded[..|params|] == Normalise(specs, |params|)
    ensures Zip(params, padded) == Zip(params, specs)
  {
    forall i | 0 <= i < |params|
      ensures Zip(params, padded)[i] == Zip(params, specs)[i]
    {
      assert padded[i] == padded[..|params|][i];
    }
  }

  /** Whatever list of specifications is given, the harness is the one for the list cut to the
      number of parameters and padded with inbound, iterator independent entries; two lists that
      agree up to there make the same harness. */
  lemma {:induction false} OnlyNormalisedSpecsMatter(params: seq<ParamType>, specs: seq<ArgSpec>, others: seq<ArgSpec>,
                                                     iters: uint32, bs: Cfg)
    requires |params| > 0
    ensures Assembled(bs, JobFor(params, specs, iters, |bs|)) ==
            Assembled(bs, JobFor(params, Normalise(specs, |params|), iters, |bs|))
    ensures Normalise(specs, |params|) == Normalise(others, |params|) ==>
            Assembled(bs, JobFor(params, specs, iters, |bs|)) == Assembled(bs, JobFor(params, others, iters, |bs|))
  {
    hide Assembled;
    var n := Normalise(specs, |params|);
    assert n[..|params|] == n;
    PaddingIsNeutral(params, specs, n);
    PaddingIsNeutral(params, others, Normalise(others, |params|)) by {
      assert Normalise(others, |params|)[..|params|] == Normalise(others, |params|);
    }
  }
}
