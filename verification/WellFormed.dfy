/** The harness as a control-flow graph: terminators, edges, reachability, phi inputs. */
module WellFormed {
  import opened IR
  import opened HarnessLayout

  // ----- graphs -----

  predicate OneTerminator(b: Block) {
    Terminated(b) && forall p | 0 <= p < |b| - 1 :: !IsTerminator(b[p])
  }

  function Successors(b: Block): seq<Label> {
    if |b| == 0 then []
    else
      match b[|b| - 1]
      case Br(t) => [t]
      case CondBr(_, t, f) => [t, f]
      case _ => []
  }

  ghost predicate Edge(cfg: Cfg, a: Label, b: Label) {
    a < |cfg| && b in Successors(cfg[a])
  }

  /** A walk along edges, from the entry block. */
  ghost predicate IsPath(cfg: Cfg, p: seq<Label>) {
    |p| > 0 && p[0] == 0 && forall k | 0 <= k < |p| - 1 :: Edge(cfg, p[k], p[k + 1])
  }

  ghost predicate Reachable(cfg: Cfg, x: Label) {
    exists p :: IsPath(cfg, p) && p[|p| - 1] == x
  }

  /** Every walk from the entry to `x` comes through `d`. */
  ghost predicate Dominates(cfg: Cfg, d: Label, x: Label) {
    forall p | IsPath(cfg, p) && p[|p| - 1] == x :: d in p
  }

  lemma {:induction false} ExtendPath(cfg: Cfg, a: Label, b: Label)
    requires Reachable(cfg, a) && Edge(cfg, a, b)
    ensures Reachable(cfg, b)
  {
    var p :| IsPath(cfg, p) && p[|p| - 1] == a;
    assert IsPath(cfg, p + [b]) && (p + [b])[|p|] == b;
  }

  /** The entry dominates every block; a block's only predecessor dominates it, and so does what
      dominates the predecessor. */
  lemma {:induction false} EntryDominates(cfg: Cfg, x: Label)
    ensures Dominates(cfg, 0, x)
  {
  }

  lemma {:induction false} OnlyPredDominates(cfg: Cfg, d: Label, pred: Label, x: Label)
    requires x != 0 && (forall a | Edge(cfg, a, x) :: a == pred) && (d == pred || Dominates(cfg, d, pred))
    ensures Dominates(cfg, d, x)
  {
    forall p | IsPath(cfg, p) && p[|p| - 1] == x
      ensures d in p
    {
      var q := p[..|p| - 1];
      assert Edge(cfg, p[|p| - 2], p[|p| - 2 + 1]);
      assert q[|q| - 1] == pred;
      forall k | 0 <= k < |q| - 1
        ensures Edge(cfg, q[k], q[k + 1])
      {
        assert Edge(cfg, p[k], p[k + 1]);
      }
      assert IsPath(cfg, q);
      assert d in q;
    }
  }

  // ----- terminators -----

  predicate NoTerminator(instrs: seq<Instr>) {
    forall p | 0 <= p < |instrs| :: !IsTerminator(instrs[p])
  }

  lemma {:induction false} SetupPlain(j: Job, m: nat)
    requires m <= |j.args|
    ensures NoTerminator(j.SetupInstrs(m)) && NoTerminator(j.DeclareInstrs(m))
    decreases m
  {
    if m > 0 {
      SetupPlain(j, m - 1);
    }
  }

  lemma {:induction false} FetchPlain(vals: seq<ArgValue>, m: nat)
    requires m <= |vals|
    ensures NoTerminator(FetchInstrs(vals, m))
    decreases m
  {
    if m > 0 {
      FetchPlain(vals, m - 1);
    }
  }

  /** Every block has exactly one terminator, and it comes last. */
  lemma {:induction false} BlocksTerminated(j: Job, x: nat)
    requires |j.args| > 0 && x < j.Size()
    ensures OneTerminator(j.BlockAt(x))
  {
    hide Job.SetupInstrs, Job.DeclareInstrs, FetchInstrs, Job.Values1, Job.Values2, Job.Outs, Job.ValueOf, Job.R1;
    hide Job.HeapRegions, FetchedOperands;
    SetupPlain(j, |j.args|);
    FetchPlain(j.CallArgs1(), |j.args|);
    FetchPlain(j.CallArgs2(), |j.args|);
  }

  // ----- edges -----

  /** Where block number `x` goes, as block numbers. */
  function Next(j: Job, x: nat): seq<nat>
    requires x < j.Size()
  {
    var after := CONDS + 2 * j.Conds();
    if x == SETUP then [SE_SETUP]
    else if x == SE_SETUP then [CALL1_SETUP]
    else if x == CALL1_SETUP then [after]
    else if x == CALL2_SETUP then [after + 3]
    else if x == CALL1 then [after + 1]
    else if x == CALL2 then [after + 4]
    else if x == CALL1_TEARDOWN then [CALL2_SETUP]
    else if x == CALL2_TEARDOWN then [SE_START]
    else if x == SE_START then [if j.Conds() > 0 then CONDS else SE_END]
    else if x == SE_END then [TEARDOWN]
    else if x == TEARDOWN then [EXIT]
    else if x == EXIT then []
    else if x < after then if x % 2 == 1 then [] else [if x + 2 < after then x + 2 else SE_END, x + 1]
    else if x == after then [CALL1, after + 2]
    else if x == after + 1 then [after]
    else if x == after + 2 then [CALL1_TEARDOWN]
    else if x == after + 3 then [CALL2, after + 5]
    else if x == after + 4 then [after + 3]
    else [CALL2_TEARDOWN]
  }

  lemma {:induction false} NextIsSuccessors(j: Job, x: nat)
    requires |j.args| > 0 && x < j.Size() && j.base == 0
    ensures Successors(j.BlockAt(x)) == Next(j, x)
  {
    hide Job.SetupInstrs, Job.DeclareInstrs, Job.FreeInstrs, CallInstrs, TestInstrs, Job.Outs, Job.ValueOf;
    if x < CONDS {
      FixedSuccessors(j, x);
    } else if x < CONDS + 2 * j.Conds() {
      CheckSuccessors(j, x);
    }
  }

  lemma {:induction false} FixedSuccessors(j: Job, x: nat)
    requires |j.args| > 0 && x < CONDS && j.base == 0
    ensures Successors(j.BlockAt(x)) == Next(j, x)
  {
    hide Job.SetupInstrs, Job.DeclareInstrs, Job.FreeInstrs, CallInstrs, Job.Outs;
  }

  lemma {:induction false} CheckSuccessors(j: Job, x: nat)
    requires |j.args| > 0 && CONDS <= x < CONDS + 2 * j.Conds() && j.base == 0
    ensures Successors(j.BlockAt(x)) == Next(j, x)
  {
    hide TestInstrs, Job.Outs, Job.ValueOf;
  }

  /** Edges of a fresh harness stay inside it and never lead back to the setup block. */
  lemma {:induction false} EdgesInside(j: Job, a: Label, b: Label)
    requires |j.args| > 0 && j.base == 0 && Edge(j.Blocks(), a, b)
    ensures a < j.Size() && b in Next(j, a) && SETUP < b < j.Size()
  {
    NextIsSuccessors(j, a);
  }

  /** The block every walk to `x` comes from first; the loop headers' back edges aside, it is the
      only predecessor. */
  function Parent(j: Job, x: nat): nat
    requires 0 < x < j.Size()
  {
    var after := CONDS + 2 * j.Conds();
    if x == SE_SETUP then SETUP
    else if x == CALL1_SETUP then SE_SETUP
    else if x == CALL2_SETUP then CALL1_TEARDOWN
    else if x == CALL1 then after
    else if x == CALL2 then after + 3
    else if x == CALL1_TEARDOWN then after + 2
    else if x == CALL2_TEARDOWN then after + 5
    else if x == SE_START then CALL2_TEARDOWN
    else if x == SE_END then if j.Conds() > 0 then after - 2 else SE_START
    else if x == TEARDOWN then SE_END
    else if x == EXIT then TEARDOWN
    else if x == CONDS && j.Conds() > 0 then SE_START
    else if x < after then if x % 2 == 1 then x - 1 else x - 2
    else if x == after then CALL1_SETUP
    else if x == after + 1 then CALL1
    else if x == after + 2 then after
    else if x == after + 3 then CALL2_SETUP
    else if x == after + 4 then CALL2
    else after + 3
  }

  /** How far from the setup block, along parents. */
  function Depth(j: Job, x: nat): nat
    requires x < j.Size()
  {
    var after, k := CONDS + 2 * j.Conds(), j.Conds();
    if x == SETUP then 0
    else if x == SE_SETUP then 1
    else if x == CALL1_SETUP then 2
    else if x == after then 3
    else if x == CALL1 || x == after + 2 then 4
    else if x == after + 1 || x == CALL1_TEARDOWN then 5
    else if x == CALL2_SETUP then 6
    else if x == after + 3 then 7
    else if x == CALL2 || x == after + 5 then 8
    else if x == after + 4 || x == CALL2_TEARDOWN then 9
    else if x == SE_START then 10
    else if x == SE_END then 11 + k
    else if x == TEARDOWN then 12 + k
    else if x == EXIT then 13 + k
    else 11 + (x - CONDS) / 2 + x % 2
  }

  lemma {:induction false} ParentLeads(j: Job, x: nat)
    requires 0 < x < j.Size()
    ensures Parent(j, x) < j.Size() && x in Next(j, Parent(j, x))
    ensures Depth(j, Parent(j, x)) < Depth(j, x)
  {
  }

  /** The only edges besides those from the parent are the two back edges. */
  lemma {:induction false} OnlyParents(j: Job, a: nat, x: nat)
    requires a < j.Size() && 0 < x < j.Size() && x in Next(j, a)
    ensures var after := CONDS + 2 * j.Conds();
            a == Parent(j, x) || (x == after && a == after + 1) || (x == after + 3 && a == after + 4)
  {
  }

  /** `18 + 2 * k` blocks for `k` outbound arguments. */
  lemma {:induction false} BlockCount(j: Job)
    requires |j.args| > 0
    ensures |j.Blocks()| == 18 + 2 * |j.Outbound()|
  {
    OneCheckEach(j);
  }

  /** Every block of a fresh harness is reachable. */
  lemma {:induction false} AllReachable(j: Job, x: nat)
    requires |j.args| > 0 && j.base == 0 && x < j.Size()
    ensures Reachable(j.Blocks(), x)
    decreases Depth(j, x)
  {
    var cfg := j.Blocks();
    if x == 0 {
      assert IsPath(cfg, [0]) && [0][|[0]| - 1] == 0;
    } else {
      ParentLeads(j, x);
      AllReachable(j, Parent(j, x));
      NextIsSuccessors(j, Parent(j, x));
      ExtendPath(cfg, Parent(j, x), x);
    }
  }
}
