/** The run of the conditions: a short-circuit conjunction in argument order. */
module RunChecks {
  import opened IR
  import opened HarnessLayout
  import opened Semantics
  import opened HarnessSpec
  import opened HarnessMemory
  import opened RunSetup
  import opened RunDeclare
  import opened RunCall

  function CheckedArg(j: Job, c: nat): (i: nat)
    requires c < j.Conds()
    ensures i < |j.args|
  {
    SelectedInRange(j.Specs(), |j.args|);
    j.Outs()[c]
  }

  /** The three instructions of a condition block, without the values' types. */
  lemma {:induction false} CondBlockAt(cfg: Cfg, j: Job, c: nat)
    requires Embedded(cfg, j) && c < j.Conds()
    ensures j.CondLabel(c) < |cfg| && j.FailLabel(c) < |cfg|
    ensures var i, l := CheckedArg(j, c), j.CondLabel(c);
            cfg[l] == [ CallMemcmp(j.Ptr(j.R1(i)), j.Ptr(j.R2(i)), Const(j.args[i].CmpSize(j.iters))),
                        ICmp(Eq, Inst(l, 0), Const(0)),
                        CondBr(Inst(l, 1), j.CheckLabel(c + 1), j.FailLabel(c)) ]
    ensures cfg[j.FailLabel(c)] == [CallAssertFail, Unreachable]
  {
    var x := CONDS + 2 * c;
    assert x % 2 == 0 && (x + 1) % 2 == 1 && (x - CONDS) / 2 == c;
    assert cfg[j.base + x] == j.BlockAt(x);
    assert cfg[j.base + (x + 1)] == j.BlockAt(x + 1);
  }

  /** What the comparison leaves. */
  function CheckedState(j: Job, st: State, a: Data, b: Data, c: nat): State
    requires c < j.Conds() && |a| == |b| == |j.args|
    requires var i := CheckedArg(j, c); var n := j.args[i].CmpSize(j.iters); n <= |a[i]| && n <= |b[i]|
  {
    var i, l := CheckedArg(j, c), j.CondLabel(c);
    var n := j.args[i].CmpSize(j.iters);
    Define(Define(st, Inst(l, 0), VInt(MemCmp(a[i][..n], b[i][..n]))), Inst(l, 1), VBool(Agree(j, a, b, i)))
  }

  lemma {:induction false} CondInBounds(cfg: Cfg, j: Job, w: World, prev: Label, st: State, a: Data, b: Data, c: nat)
    requires Embedded(cfg, j) && c < j.Conds() && InSets(j, st, a, b) && Sized(j, a) && Sized(j, b)
    requires InBounds(j, CheckedArg(j, c))
    ensures Step(cfg, w, At(j.CondLabel(c), prev, st)) ==
            At(if Agree(j, a, b, CheckedArg(j, c)) then j.CheckLabel(c + 1) else j.FailLabel(c),
               j.CondLabel(c), CheckedState(j, st, a, b, c))
    ensures InSets(j, CheckedState(j, st, a, b, c), a, b)
  {
    hide Embedded, MemCmp, CheckedArg, Job.Outs, Job.R1, Job.Valid;
    var i, l := CheckedArg(j, c), j.CondLabel(c);
    CondBlockAt(cfg, j, c);
    RegionInRange(j, i);
    CondOperands(j, st, a, b, i);
    hide InSets;
    var n := j.args[i].CmpSize(j.iters);
    var r := MemCmp(a[i][..n], b[i][..n]);
    var st1, st2 := Define(st, Inst(l, 0), VInt(r)), CheckedState(j, st, a, b, c);
    assert Execute(cfg[l][0], Inst(l, 0), prev, st, w) == Ok(st1);
    assert Execute(cfg[l][1], Inst(l, 1), prev, st1, w) == Ok(st2);
    assert Exec(cfg[l], l, 2, prev, st2, w) == Branch(cfg[l][2], l, st2);
    assert Exec(cfg[l], l, 1, prev, st1, w) == Branch(cfg[l][2], l, st2);
    CheckKeepsSets(j, st, a, b, c);
  }

  lemma {:induction false} CheckKeepsSets(j: Job, st: State, a: Data, b: Data, c: nat)
    requires c < j.Conds() && InSets(j, st, a, b) && Sized(j, a) && Sized(j, b) && InBounds(j, CheckedArg(j, c))
    ensures InSets(j, CheckedState(j, st, a, b, c), a, b)
  {
    KeepsSight(j, FirstSide, j.CondLabel(c), st, CheckedState(j, st, a, b, c), a, b);
  }

  lemma {:induction false} CondOperands(j: Job, st: State, a: Data, b: Data, i: nat)
    requires InSets(j, st, a, b) && i < |j.args|
    ensures |a| == |b| == |j.args| && j.R1(i) < |st.mem| && j.R2(i) < |st.mem|
    ensures j.Ptr(j.R1(i)) in st.env && st.env[j.Ptr(j.R1(i))] == VPtr(j.R1(i))
    ensures j.Ptr(j.R2(i)) in st.env && st.env[j.Ptr(j.R2(i))] == VPtr(j.R2(i))
    ensures st.mem[j.R1(i)] == RegionOf(j, i, a[i]) && st.mem[j.R2(i)] == RegionOf(j, i, b[i])
  {
    RegionInRange(j, i);
    assert HoldsAt(j, st.mem, a, b, i);
  }

  lemma {:induction false} CondOutOfBounds(cfg: Cfg, j: Job, w: World, prev: Label, st: State, a: Data, b: Data, c: nat)
    requires Embedded(cfg, j) && c < j.Conds() && InSets(j, st, a, b) && Sized(j, a) && Sized(j, b)
    requires !InBounds(j, CheckedArg(j, c))
    ensures Step(cfg, w, At(j.CondLabel(c), prev, st)) == Faulted
  {
    hide Holds, Embedded;
    CondBlockAt(cfg, j, c);
    CondOperands(j, st, a, b, CheckedArg(j, c));
  }

  lemma {:induction false} FailBlockRuns(cfg: Cfg, j: Job, w: World, prev: Label, st: State, c: nat)
    requires Embedded(cfg, j) && c < j.Conds()
    ensures Step(cfg, w, At(j.FailLabel(c), prev, st)) == Failed(j.FailLabel(c), st)
  {
    CondBlockAt(cfg, j, c);
  }

  /** How the checks from number `c` on end, for each verdict. */
  ghost predicate ChecksEnd(cfg: Cfg, j: Job, w: World, c: nat, start: Config, a: Data, b: Data, prev: Label, st: State)
    requires start.At? && |a| == |b| == |j.args|
  {
    match VerdictFrom(j, a, b, c)
    case Accept =>
      && c <= j.Conds() && InSets(j, st, a, b) && st.log == start.st.log
      && Steps(cfg, w, start, j.Conds() - c) == At(j.base + SE_END, prev, st)
    case Reject(d) =>
      && c <= d < j.Conds() && InSets(j, st, a, b) && st.log == start.st.log
      && EndsAfter(cfg, w, start, d - c + 2, Failed(j.FailLabel(d), st))
    case OutOfBounds(d) =>
      && c <= d < j.Conds() && EndsAfter(cfg, w, start, d - c + 1, Faulted)
  }

  /** A run that takes one step first. */
  lemma {:induction false} EndsLater(cfg: Cfg, w: World, c: Config, m: nat, n: nat, d: Config)
    requires Steps(cfg, w, c, m).At? && EndsAfter(cfg, w, Steps(cfg, w, c, m), n, d)
    ensures EndsAfter(cfg, w, c, m + n, d)
  {
    hide Step, Steps;
    StepsAdd(cfg, w, c, m, n);
    StepsAdd(cfg, w, c, m, n - 1);
  }

  lemma {:induction false} ChecksRun(cfg: Cfg, j: Job, w: World, c: nat, prev: Label, st: State, a: Data, b: Data)
    returns (prev': Label, st': State)
    requires Embedded(cfg, j) && c <= j.Conds() && InSets(j, st, a, b) && Sized(j, a) && Sized(j, b)
    ensures ChecksEnd(cfg, j, w, c, At(j.CheckLabel(c), prev, st), a, b, prev', st')
    decreases j.Conds() - c
  {
    assert |a| == |b| == |j.args|;
    hide Embedded, InSets, Agree, Step, CheckedState;
    var start := At(j.CheckLabel(c), prev, st);
    assert Steps(cfg, w, start, 0) == start;
    prev', st' := prev, st;
    if c < j.Conds() {
      var i := CheckedArg(j, c);
      assert Steps(cfg, w, start, 1) == Step(cfg, w, start);
      if !InBounds(j, i) {
        CondOutOfBounds(cfg, j, w, prev, st, a, b, c);
      } else {
        CondInBounds(cfg, j, w, prev, st, a, b, c);
        st' := CheckedState(j, st, a, b, c);
        if Agree(j, a, b, i) {
          CheckedLog(j, st, a, b, c);
          prev', st' := ChecksRun(cfg, j, w, c + 1, j.CondLabel(c), st', a, b);
          NextCheck(cfg, j, w, c, start, a, b, prev', st');
        } else {
          CheckedLog(j, st, a, b, c);
          FailBlockRuns(cfg, j, w, j.CondLabel(c), st', c);
          assert Steps(cfg, w, start, 2) == Step(cfg, w, Steps(cfg, w, start, 1));
        }
      }
    }
  }

  lemma {:induction false} CheckedLog(j: Job, st: State, a: Data, b: Data, c: nat)
    requires c < j.Conds() && |a| == |b| == |j.args|
    requires var i := CheckedArg(j, c); var n := j.args[i].CmpSize(j.iters); n <= |a[i]| && n <= |b[i]|
    ensures CheckedState(j, st, a, b, c).log == st.log
  {
  }

  /** A check that passes hands over to the next. */
  lemma {:induction false} NextCheck(cfg: Cfg, j: Job, w: World, c: nat, start: Config, a: Data, b: Data, prev: Label,
                                     st: State)
    requires start.At? && |a| == |b| == |j.args| && c < j.Conds()
    requires InBounds(j, CheckedArg(j, c)) && Agree(j, a, b, CheckedArg(j, c))
    requires Steps(cfg, w, start, 1).At? && Steps(cfg, w, start, 1).st.log == start.st.log
    requires ChecksEnd(cfg, j, w, c + 1, Steps(cfg, w, start, 1), a, b, prev, st)
    ensures ChecksEnd(cfg, j, w, c, start, a, b, prev, st)
  {
    hide InSets, Agree, InBounds, Step;
    var next := Steps(cfg, w, start, 1);
    match VerdictFrom(j, a, b, c) {
      case Accept =>
        StepsAdd(cfg, w, start, 1, j.Conds() - c - 1);
      case Reject(d) =>
        EndsLater(cfg, w, start, 1, d - c + 1, Failed(j.FailLabel(d), st));
      case OutOfBounds(d) =>
        EndsLater(cfg, w, start, 1, d - c, Faulted);
    }
  }

  // ----- plain values -----

  /** A condition block for two plain integers goes on exactly if they are equal. */
  lemma {:induction false} PlainTestRuns(v1: ArgValue, v2: ArgValue, mult: nat, l: Label, onTrue: Label, onFalse: Label,
                                         prev: Label, st: State, w: World)
    requires v1.IntValue? && IsInt(v1.op, st.env) && IsInt(v2.op, st.env)
    ensures var b := TestInstrs(v1, v2, mult, l) + [CondBr(TestResult(v1, l), onTrue, onFalse)];
            In(Exec(b, l, 0, prev, st, w), if Eval(v1.op, st.env) == Eval(v2.op, st.env) then onTrue else onFalse)
  {
    var b := TestInstrs(v1, v2, mult, l) + [CondBr(TestResult(v1, l), onTrue, onFalse)];
    var st1 := Define(st, Inst(l, 0), VBool(Eval(v1.op, st.env).bits == Eval(v2.op, st.env).bits));
    assert Execute(b[0], Inst(l, 0), prev, st, w) == Ok(st1);
    assert Exec(b, l, 1, prev, st1, w) == Branch(b[1], l, st1);
  }
}
