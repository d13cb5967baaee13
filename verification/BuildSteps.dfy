/** What the single parts of the generator do to a function, and the steps of their loops. */
module BuildSteps {
  import opened ArgSpecs
  import opened IR
  import opened HarnessLayout

  /** What the assertion builder works on: the two values of each argument, and the labels of the
      first condition block and of the block behind the last. */
  datatype Assertions = Assertions(v1s: seq<ArgValue>, v2s: seq<ArgValue>, specs: seq<ArgSpec>, iters: uint32,
                                   first: Label, end: Label)
  {
    predicate Fits() {
      |v1s| == |v2s| <= |specs|
    }

    /** Condition (`x` even) or fail (`x` odd) block number `x` while the blocks are being built:
        the first `f` fail blocks end in `unreachable`, the first `t` condition blocks have their
        branch, and the first `r` of those branches go on to the next condition block; the
        others go to `end`. */
    function BlockAt(sel: seq<nat>, f: nat, t: nat, r: nat, x: nat): Block
      requires Fits() && x < 2 * |sel| && forall c | 0 <= c < |sel| :: sel[c] < |v1s|
    {
      if x % 2 == 1 then if x / 2 < f then [CallAssertFail, Unreachable] else [CallAssertFail]
      else
        TestInstrs(v1s[sel[x / 2]], v2s[sel[x / 2]], Multiplier(specs[sel[x / 2]], iters), first + x)
        + if x / 2 < t then [Branch(sel, r, x)] else []
    }

    function Branch(sel: seq<nat>, r: nat, x: nat): Instr
      requires Fits() && x < 2 * |sel| && forall c | 0 <= c < |sel| :: sel[c] < |v1s|
    {
      CondBr(TestResult(v1s[sel[x / 2]], first + x), if x / 2 < r then first + x + 2 else end, first + x + 1)
    }

    /** The selected arguments below `m`. */
    function Sel(m: nat): (sel: seq<nat>)
      requires Fits() && m <= |v1s|
      ensures forall c | 0 <= c < |sel| :: sel[c] < m
    {
      SelectedInRange(specs, m);
      Selected(specs, m)
    }

    function Blocks(m: nat, f: nat, t: nat, r: nat): (bs: Cfg)
      requires Fits() && m <= |v1s|
      ensures |bs| == 2 * |Sel(m)|
    {
      FirstBlocks(Sel(m), f, t, r, 2 * |Sel(m)|)
    }

    function FirstBlocks(sel: seq<nat>, f: nat, t: nat, r: nat, n: nat): (bs: Cfg)
      requires Fits() && n <= 2 * |sel| && forall c | 0 <= c < |sel| :: sel[c] < |v1s|
      ensures |bs| == n
      decreases n
    {
      if n == 0 then [] else FirstBlocks(sel, f, t, r, n - 1) + [BlockAt(sel, f, t, r, n - 1)]
    }

    lemma {:induction false} FirstBlocksAt(sel: seq<nat>, f: nat, t: nat, r: nat, n: nat)
      requires Fits() && n <= 2 * |sel| && forall c | 0 <= c < |sel| :: sel[c] < |v1s|
      ensures forall x | 0 <= x < n :: FirstBlocks(sel, f, t, r, n)[x] == BlockAt(sel, f, t, r, x)
      decreases n
    {
      hide BlockAt;
      if n > 0 {
        FirstBlocksAt(sel, f, t, r, n - 1);
      }
    }

    lemma {:induction false} BlocksAt(m: nat, f: nat, t: nat, r: nat)
      requires Fits() && m <= |v1s|
      ensures forall x | 0 <= x < |Blocks(m, f, t, r)| :: Blocks(m, f, t, r)[x] == BlockAt(Sel(m), f, t, r, x)
    {
      FirstBlocksAt(Sel(m), f, t, r, 2 * |Sel(m)|);
    }

    /** One more selected argument. */
    lemma {:induction false} NextPair(bs: Cfg, i: nat)
      requires Fits() && i < |v1s| && first == |bs| && Sel(i + 1) == Sel(i) + [i]
      ensures var cond := |bs| + 2 * |Sel(i)|;
              bs + Blocks(i + 1, 0, 0, 0) ==
              (bs + Blocks(i, 0, 0, 0) + [[], []])
              [cond := TestInstrs(v1s[i], v2s[i], Multiplier(specs[i], iters), cond)][cond + 1 := [CallAssertFail]]
    {
      var n := |Sel(i)|;
      SelPrefix(Sel(i), i, 2 * n);
      var two := FirstBlocks(Sel(i + 1), 0, 0, 0, 2 * n);
      var cond := TestInstrs(v1s[i], v2s[i], Multiplier(specs[i], iters), |bs| + 2 * n);
      assert (2 * n) / 2 == n && (2 * n + 1) / 2 == n;
      assert BlockAt(Sel(i + 1), 0, 0, 0, 2 * n) == cond + [] == cond;
      assert FirstBlocks(Sel(i + 1), 0, 0, 0, 2 * n + 1) == two + [cond];
      assert Blocks(i + 1, 0, 0, 0) == two + [cond] + [[CallAssertFail]];
    }

    /** Selecting one more argument changes no block of those before it. */
    lemma {:induction false} SelPrefix(sel: seq<nat>, i: nat, n: nat)
      requires Fits() && i < |v1s| && n <= 2 * |sel| && forall c | 0 <= c < |sel| :: sel[c] < |v1s|
      ensures FirstBlocks(sel + [i], 0, 0, 0, n) == FirstBlocks(sel, 0, 0, 0, n)
      decreases n
    {
      if n > 0 {
        SelPrefix(sel, i, n - 1);
        assert (n - 1) / 2 < |sel|;
      }
    }

    lemma {:induction false} NextFail(bs: Cfg, m: nat, c: nat)
      requires Fits() && m <= |v1s| && first == |bs| && c < |Sel(m)|
      ensures bs + Blocks(m, c + 1, 0, 0) == Append(bs + Blocks(m, c, 0, 0), |bs| + 2 * c + 1, [Unreachable])
    {
      hide TestInstrs, Branch, FirstBlocks, Selected;
      var sel := Sel(m);
      BlocksAt(m, c, 0, 0);
      BlocksAt(m, c + 1, 0, 0);
      forall x | 0 <= x < 2 * |sel| && x != 2 * c + 1
        ensures BlockAt(sel, c + 1, 0, 0, x) == BlockAt(sel, c, 0, 0, x)
      {
      }
      assert BlockAt(sel, c + 1, 0, 0, 2 * c + 1) == BlockAt(sel, c, 0, 0, 2 * c + 1) + [Unreachable];
    }

    lemma {:induction false} NextBranch(bs: Cfg, m: nat, f: nat, c: nat)
      requires Fits() && m <= |v1s| && first == |bs| && c < |Sel(m)|
      ensures bs + Blocks(m, f, c + 1, 0) ==
              Append(bs + Blocks(m, f, c, 0), |bs| + 2 * c,
                     [CondBr(TestResult(v1s[Sel(m)[c]], |bs| + 2 * c), end, |bs| + 2 * c + 1)])
    {
      hide TestInstrs, FirstBlocks, Selected;
      var sel := Sel(m);
      BlocksAt(m, f, c, 0);
      BlocksAt(m, f, c + 1, 0);
      forall x | 0 <= x < 2 * |sel| && x != 2 * c
        ensures BlockAt(sel, f, c + 1, 0, x) == BlockAt(sel, f, c, 0, x)
      {
      }
      assert BlockAt(sel, f, c, 0, 2 * c) + [Branch(sel, 0, 2 * c)] == BlockAt(sel, f, c + 1, 0, 2 * c);
    }

    lemma {:induction false} NextLink(bs: Cfg, m: nat, k: nat, c: nat)
      requires Fits() && m <= |v1s| && first == |bs| && c + 1 < |Sel(m)| == k
      ensures var before := bs + Blocks(m, k, k, c);
              var b := before[|bs| + 2 * c];
              && |b| > 0 && b[|b| - 1].CondBr?
              && bs + Blocks(m, k, k, c + 1) ==
                 before[|bs| + 2 * c := b[|b| - 1 := b[|b| - 1].(ifTrue := |bs| + 2 * (c + 1))]]
    {
      hide TestInstrs, FirstBlocks, Selected;
      var sel := Sel(m);
      BlocksAt(m, k, k, c);
      BlocksAt(m, k, k, c + 1);
      forall x | 0 <= x < 2 * |sel| && x != 2 * c
        ensures BlockAt(sel, k, k, c + 1, x) == BlockAt(sel, k, k, c, x)
      {
      }
      var b := BlockAt(sel, k, k, c, 2 * c);
      assert b[|b| - 1] == Branch(sel, c, 2 * c);
      assert BlockAt(sel, k, k, c + 1, 2 * c) == b[|b| - 1 := Branch(sel, c + 1, 2 * c)];
    }

    /** The last condition block goes to the end block already. */
    lemma {:induction false} LastLink(bs: Cfg, m: nat, k: nat)
      requires Fits() && m <= |v1s| && first == |bs| && 0 < |Sel(m)| == k
      ensures var done := bs + Blocks(m, k, k, k - 1);
              var b := BlockAt(Sel(m), k, k, k - 1, 2 * (k - 1));
              && |done| > |bs| + 2 * (k - 1) && done[|bs| + 2 * (k - 1)] == b
              && |b| > 0 && b[|b| - 1].CondBr?
              && done[|bs| + 2 * (k - 1) := b[|b| - 1 := b[|b| - 1].(ifTrue := end)]] == done
    {
      var sel := Sel(m);
      BlocksAt(m, k, k, k - 1);
      var b := BlockAt(sel, k, k, k - 1, 2 * (k - 1));
      assert 2 * (k - 1) / 2 == k - 1;
      assert b[|b| - 1] == Branch(sel, k - 1, 2 * (k - 1));
      assert b[|b| - 1 := b[|b| - 1].(ifTrue := end)] == b;
    }

    /** `bs` with all assertions in place, from block `start` to `end`. */
    function Complete(bs: Cfg, start: Label): Cfg
      requires Fits() && start < |bs|
    {
      var k := |Sel(|v1s|)|;
      Append(bs, start, [Br(if k > 0 then first else end)])
      + Blocks(|v1s|, k, k, if k > 0 then k - 1 else 0)
    }
  }

  /** `bs` with a call in block `l`: in front of its terminator, or at its end if it has none. */
  function WithCall(bs: Cfg, l: Label, vals: seq<ArgValue>): (r: Cfg)
    requires l < |bs|
    ensures |r| == |bs|
  {
    var after := if Terminated(bs[l]) then 1 else 0;
    InsertAll(bs, l, after, CallInstrs(vals, l, |bs[l]| - after))
  }

  // ----- allocation -----

  /** The first `m` arguments are allocated. */
  ghost predicate SetUp(blocks: Cfg, bs: Cfg, j: Job, m: nat, args1: seq<ArgValue>, args2: seq<ArgValue>,
                        heap: seq<Operand>) {
    && m <= |j.args| && j.base < |bs|
    && blocks == Append(bs, j.base, j.SetupInstrs(m)) && |j.SetupInstrs(m)| == j.R1(m)
    && args1 == j.Values1(m) && args2 == j.Values2(m)
    && heap == PtrsOf(j, j.HeapRegions(m))
  }

  /** What one more argument adds to the setup. */
  lemma {:induction false} NextAllocs(j: Job, m: nat) returns (instrs: seq<Instr>)
    requires m < |j.args| && |j.SetupInstrs(m)| == j.R1(m)
    ensures var alloc := j.args[m].AllocInstr(j.iters);
            instrs == if j.args[m].Out() then [alloc, alloc] else [alloc]
    ensures j.SetupInstrs(m + 1) == j.SetupInstrs(m) + instrs
    ensures |j.SetupInstrs(m + 1)| == j.R1(m + 1)
  {
    var alloc := j.args[m].AllocInstr(j.iters);
    instrs := if j.args[m].Out() then [alloc, alloc] else [alloc];
  }

  lemma {:induction false} NextHeapRegions(j: Job, m: nat)
    requires m < |j.args|
    ensures PtrsOf(j, j.HeapRegions(m + 1)) == PtrsOf(j, j.HeapRegions(m)) +
              if !j.args[m].ty.Pointer? then []
              else if j.args[m].Out() then [j.Ptr(j.R1(m)), j.Ptr(j.R2(m))] else [j.Ptr(j.R1(m))]
  {
  }

  function PtrsOf(j: Job, rs: seq<nat>): (ops: seq<Operand>)
    ensures |ops| == |rs|
  {
    seq(|rs|, x requires 0 <= x < |rs| => j.Ptr(rs[x]))
  }

  function FreesOf(ops: seq<Operand>): (r: seq<Instr>)
    ensures |r| == |ops|
  {
    seq(|ops|, x requires 0 <= x < |ops| => CallFree(ops[|ops| - 1 - x]))
  }
}
