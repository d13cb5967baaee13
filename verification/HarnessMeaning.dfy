/** What the verdict of a harness says about the encapsulated function, and for which argument
    lists it can be relied on. */
module HarnessMeaning {
  import opened IR
  import opened HarnessLayout
  import opened Semantics
  import opened HarnessSpec
  import opened RunSetup
  import opened RunChecks
  import opened HarnessRuns

  // ----- the verdict as a first failure -----

  /** The comparison of argument `i` is in bounds and comes out equal. */
  predicate Passes(j: Job, a: Data, b: Data, i: nat)
    requires i < |j.args| == |a| == |b|
  {
    InBounds(j, i) && Agree(j, a, b, i)
  }

  /** Argument `i` is the least outbound argument that does not pass. */
  ghost predicate FirstToFail(j: Job, a: Data, b: Data, i: nat)
    requires i < |j.args| == |a| == |b|
  {
    && j.args[i].Out() && !Passes(j, a, b, i)
    && forall k | 0 <= k < i && j.args[k].Out() :: Passes(j, a, b, k)
  }

  /** Checks and outbound arguments correspond, in order. */
  lemma {:induction false} CheckOfArg(j: Job, i: nat)
    requires i < |j.args| && j.args[i].Out()
    ensures j.CheckOf(i) < j.Conds() && CheckedArg(j, j.CheckOf(i)) == i
  {
    SelectedExactly(j.Specs(), |j.args|);
  }

  lemma {:induction false} ChecksInOrder(j: Job, c: nat)
    requires c < j.Conds()
    ensures j.args[CheckedArg(j, c)].Out() && j.CheckOf(CheckedArg(j, c)) == c
    ensures forall i | 0 <= i < |j.args| && j.args[i].Out() :: i < CheckedArg(j, c) <==> j.CheckOf(i) < c
  {
    CheckedIsOut(j, c);
    SelectedAscending(j.Specs(), |j.args|);
    forall i | 0 <= i < |j.args| && j.args[i].Out()
      ensures j.CheckOf(i) < j.Conds() && CheckedArg(j, j.CheckOf(i)) == i
    {
      CheckOfArg(j, i);
    }
  }

  /** The verdict from check `c` on is decided by the least check that does not pass. */
  lemma {:induction false} VerdictIsFirstCheck(j: Job, a: Data, b: Data, c: nat)
    requires |a| == |b| == |j.args| && c <= j.Conds()
    ensures match VerdictFrom(j, a, b, c)
            case Accept => forall e | c <= e < j.Conds() :: Passes(j, a, b, CheckedArg(j, e))
            case Reject(d) =>
              && c <= d < j.Conds() && (forall e | c <= e < d :: Passes(j, a, b, CheckedArg(j, e)))
              && InBounds(j, CheckedArg(j, d)) && !Agree(j, a, b, CheckedArg(j, d))
            case OutOfBounds(d) =>
              && c <= d < j.Conds() && (forall e | c <= e < d :: Passes(j, a, b, CheckedArg(j, e)))
              && !InBounds(j, CheckedArg(j, d))
    decreases j.Conds() - c
  {
    hide InBounds, Agree;
    if c < j.Conds() {
      VerdictIsFirstCheck(j, a, b, c + 1);
    }
  }

  /** The verdict names the least outbound argument that does not pass, and says why. */
  lemma {:induction false} VerdictIsFirstFailure(j: Job, a: Data, b: Data)
    requires |a| == |b| == |j.args|
    ensures match VerdictFrom(j, a, b, 0)
            case Accept => forall i | 0 <= i < |j.args| && j.args[i].Out() :: Passes(j, a, b, i)
            case Reject(c) =>
              c < j.Conds() && FirstToFail(j, a, b, CheckedArg(j, c)) && InBounds(j, CheckedArg(j, c))
            case OutOfBounds(c) =>
              c < j.Conds() && FirstToFail(j, a, b, CheckedArg(j, c)) && !InBounds(j, CheckedArg(j, c))
  {
    hide InBounds, Agree, VerdictFrom, CheckedArg;
    VerdictIsFirstCheck(j, a, b, 0);
    forall i | 0 <= i < |j.args| && j.args[i].Out()
      ensures j.CheckOf(i) < j.Conds() && CheckedArg(j, j.CheckOf(i)) == i
    {
      CheckOfArg(j, i);
    }
    if !VerdictFrom(j, a, b, 0).Accept? {
      ChecksInOrder(j, VerdictFrom(j, a, b, 0).cond);
    }
  }

  /** All comparisons are in bounds and come out equal. */
  ghost predicate AllAgree(j: Job, a: Data, b: Data)
    requires |a| == |b| == |j.args|
  {
    forall i | 0 <= i < |j.args| && j.args[i].Out() :: Passes(j, a, b, i)
  }

  lemma {:induction false} AcceptIff(j: Job, w: World)
    ensures VerdictOf(j, w).Accept? <==> AllAgree(j, After1(j, w), After2(j, w))
  {
    hide InBounds, Agree, After1, After2, VerdictFrom;
    VerdictIsFirstFailure(j, After1(j, w), After2(j, w));
  }

  /** The run returns, and then returns 0, exactly if for every outbound argument the comparison is
      in bounds and the compared bytes after the ascending fold on the first set and after the
      descending fold on the second are the same. */
  lemma {:induction false} ReturnsIff(cfg: Cfg, j: Job, w: World)
    requires Embedded(cfg, j)
    ensures (exists n: nat, v, st :: EndsAfter(cfg, w, Start(j), n, Returned(v, st)))
            <==> AllAgree(j, After1(j, w), After2(j, w))
    ensures forall n: nat, v, st :: EndsAfter(cfg, w, Start(j), n, Returned(v, st)) ==> v == VInt(0)
  {
    hide Embedded, Steps, VerdictFrom, AllAgree;
    var st := HarnessRun(cfg, j, w);
    AcceptIff(j, w);
    forall n: nat, v, st1 | EndsAfter(cfg, w, Start(j), n, Returned(v, st1))
      ensures v == VInt(0) && VerdictOf(j, w).Accept?
    {
      OnlyEnd(cfg, j, w, st, n, Returned(v, st1));
    }
  }

  /** Whatever fail block a run stops in, it is that of the least outbound argument that does not
      pass, and that argument's compared bytes differ. */
  lemma {:induction false} FailsInFailBlock(cfg: Cfg, j: Job, w: World, n: nat, l: Label, st: State) returns (i: nat)
    requires Embedded(cfg, j) && EndsAfter(cfg, w, Start(j), n, Failed(l, st))
    ensures i < |j.args| && j.args[i].Out() && l == j.FailLabel(j.CheckOf(i))
    ensures FirstToFail(j, After1(j, w), After2(j, w), i) && InBounds(j, i)
  {
    hide Embedded, Steps, VerdictFrom, InBounds, Agree, After1, After2, CheckedArg;
    var st' := HarnessRun(cfg, j, w);
    OnlyEnd(cfg, j, w, st', n, Failed(l, st));
    VerdictIsFirstFailure(j, After1(j, w), After2(j, w));
    var c := VerdictOf(j, w).cond;
    i := CheckedArg(j, c);
    ChecksInOrder(j, c);
  }

  /** The run stops in the fail block of outbound argument `i` exactly if argument `i` is the least
      that does not pass and, its comparison being in bounds, its compared bytes differ. */
  lemma {:induction false} FailsIff(cfg: Cfg, j: Job, w: World, i: nat)
    requires Embedded(cfg, j) && i < |j.args| && j.args[i].Out()
    ensures (exists n: nat, st :: EndsAfter(cfg, w, Start(j), n, Failed(j.FailLabel(j.CheckOf(i)), st)))
            <==> FirstToFail(j, After1(j, w), After2(j, w), i) && InBounds(j, i)
  {
    hide Embedded, Steps, VerdictFrom, InBounds, Agree, After1, After2, CheckedArg;
    var a, b := After1(j, w), After2(j, w);
    if FirstToFail(j, a, b, i) && InBounds(j, i) {
      VerdictIsFirstFailure(j, a, b);
      CheckOfArg(j, i);
      var c := VerdictOf(j, w).cond;
      assert CheckedArg(j, c) == i;
      ChecksInOrder(j, c);
      var st := HarnessRun(cfg, j, w);
    }
    forall n: nat, st | EndsAfter(cfg, w, Start(j), n, Failed(j.FailLabel(j.CheckOf(i)), st))
      ensures FirstToFail(j, a, b, i) && InBounds(j, i)
    {
      var k := FailsInFailBlock(cfg, j, w, n, j.FailLabel(j.CheckOf(i)), st);
      CheckOfArg(j, i);
      CheckOfArg(j, k);
    }
  }

  lemma {:induction false} OnlyEnd(cfg: Cfg, j: Job, w: World, st: State, n: nat, d: Config)
    requires Finishes(cfg, j, w, st) && EndsAfter(cfg, w, Start(j), n, d)
    ensures match VerdictOf(j, w)
            case Accept => d == Returned(VInt(0), st)
            case Reject(c) => d == Failed(j.FailLabel(c), st)
            case OutOfBounds(_) => d == Faulted
  {
    hide Steps;
    match VerdictOf(j, w) {
      case Accept =>
        EndIsUnique(cfg, w, Start(j), 6 * j.iters + 14 + j.Conds(), Returned(VInt(0), st), n, d);
      case Reject(c) =>
        EndIsUnique(cfg, w, Start(j), 6 * j.iters + 13 + c, Failed(j.FailLabel(c), st), n, d);
      case OutOfBounds(c) =>
        EndIsUnique(cfg, w, Start(j), 6 * j.iters + 12 + c, Faulted, n, d);
    }
  }
}
