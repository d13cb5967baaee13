/** The run of a whole harness, from its setup block to the end its verdict calls for. */
module HarnessRuns {
  import opened IR
  import opened HarnessLayout
  import opened Semantics
  import opened HarnessSpec
  import opened HarnessMemory
  import opened RunSetup
  import opened RunDeclare
  import opened RunCall
  import opened RunLoops
  import opened RunChecks
  import opened RunTeardown

  function Start(j: Job): Config {
    At(j.base + SETUP, j.base, ENTRY_STATE)
  }

  /** The events up to the comparison. */
  function EventsBefore(j: Job): seq<Event> {
    MallocEvents(j.HeapRegions(|j.args|)) + CallEvents(Up(j.iters)) + CallEvents(Down(j.iters))
  }

  // ----- single steps -----

  lemma {:induction false} JumpStep(cfg: Cfg, w: World, l: Label, target: Label, prev: Label, st: State)
    requires l < |cfg| && cfg[l] == [Br(target)]
    ensures Step(cfg, w, At(l, prev, st)) == At(target, l, st)
  {
    assert Exec(cfg[l], l, 0, prev, st, w) == Branch(Br(target), l, st);
  }

  lemma {:induction false} ReturnStep(cfg: Cfg, w: World, l: Label, prev: Label, st: State)
    requires l < |cfg| && cfg[l] == [Ret(Const(0))]
    ensures Step(cfg, w, At(l, prev, st)) == Returned(VInt(0), st)
  {
    assert Exec(cfg[l], l, 0, prev, st, w) == Branch(Ret(Const(0)), l, st);
  }

  /** The blocks that only branch on. */
  lemma {:induction false} JumpBlocks(cfg: Cfg, j: Job)
    requires Embedded(cfg, j)
    ensures j.base + 12 <= |cfg|
    ensures cfg[j.base + CALL1_SETUP] == [Br(j.Loop1().hdr)] && cfg[j.base + CALL2_SETUP] == [Br(j.Loop2().hdr)]
    ensures cfg[j.base + CALL1_TEARDOWN] == [Br(j.base + CALL2_SETUP)]
    ensures cfg[j.base + CALL2_TEARDOWN] == [Br(j.base + SE_START)]
    ensures cfg[j.base + SE_START] == [Br(j.CheckLabel(0))]
    ensures cfg[j.base + SE_END] == [Br(j.base + TEARDOWN)] && cfg[j.base + EXIT] == [Ret(Const(0))]
  {
    assert cfg[j.base + CALL1_SETUP] == j.BlockAt(CALL1_SETUP);
    assert cfg[j.base + CALL2_SETUP] == j.BlockAt(CALL2_SETUP);
    assert cfg[j.base + CALL1_TEARDOWN] == j.BlockAt(CALL1_TEARDOWN);
    assert cfg[j.base + CALL2_TEARDOWN] == j.BlockAt(CALL2_TEARDOWN);
    assert cfg[j.base + SE_START] == j.BlockAt(SE_START);
    assert cfg[j.base + SE_END] == j.BlockAt(SE_END);
    assert cfg[j.base + EXIT] == j.BlockAt(EXIT);
  }

  lemma {:induction false} OneMore(cfg: Cfg, w: World, c: Config, n: nat)
    ensures Steps(cfg, w, c, n + 1) == Step(cfg, w, Steps(cfg, w, c, n))
  {
  }

  // ----- the phases -----

  lemma {:induction false} FirstSized(j: Job, w: World)
    ensures Sized(j, First(j, w)) && Sized(j, Second(j, w))
  {
  }

  lemma {:induction false} ShareSized(j: Job, x: Data, y: Data)
    requires Sized(j, x) && Sized(j, y)
    ensures Sized(j, Share(j, x, y))
  {
  }

  /** Setup and symbolic setup: two visits, then memory holds the two initial sets and only
      allocations have happened. */
  lemma {:induction false} DataPhase(cfg: Cfg, j: Job, w: World) returns (st: State)
    requires Embedded(cfg, j)
    ensures Steps(cfg, w, Start(j), 2) == At(j.base + CALL1_SETUP, j.base + SE_SETUP, st)
    ensures InSets(j, st, First(j, w), Second(j, w))
    ensures st.log == MallocEvents(j.HeapRegions(|j.args|))
  {
    hide Embedded, InSets, Step;
    var st1 := SetupBlockRuns(cfg, j, w, j.base);
    st := DeclareBlockRuns(cfg, j, w, j.base + SETUP, st1);
    assert Steps(cfg, w, Start(j), 0) == Start(j);
    OneMore(cfg, w, Start(j), 0);
    OneMore(cfg, w, Start(j), 1);
  }

  /** The calls on the first set, in ascending order.  The second set's own regions are untouched
      when its calls start. */
  lemma {:induction false} FirstCallsPhase(cfg: Cfg, j: Job, w: World) returns (st: State)
    requires Embedded(cfg, j)
    ensures Steps(cfg, w, Start(j), 3 * j.iters + 6) == At(j.base + CALL2_SETUP, j.base + CALL1_TEARDOWN, st)
    ensures InSets(j, st, After1(j, w), Before2(j, w))
    ensures st.log == MallocEvents(j.HeapRegions(|j.args|)) + CallEvents(Up(j.iters))
  {
    hide Embedded, InSets, Step;
    var st0 := DataPhase(cfg, j, w);
    st := FirstLoop(cfg, j, w, st0);
    StepsAdd(cfg, w, Start(j), 2, 3 * j.iters + 4);
  }

  lemma {:induction false} FirstLoop(cfg: Cfg, j: Job, w: World, st0: State) returns (st: State)
    requires Embedded(cfg, j) && InSets(j, st0, First(j, w), Second(j, w))
    ensures Steps(cfg, w, At(j.base + CALL1_SETUP, j.base + SE_SETUP, st0), 3 * j.iters + 4) ==
            At(j.base + CALL2_SETUP, j.base + CALL1_TEARDOWN, st)
    ensures InSets(j, st, After1(j, w), Before2(j, w))
    ensures st.log == st0.log + CallEvents(Up(j.iters))
  {
    hide Embedded, InSets, Step, Sized, Fold, First, Second, Share, CallEvents, Up;
    var c := At(j.base + CALL1_SETUP, j.base + SE_SETUP, st0);
    JumpBlocks(cfg, j);
    FirstSized(j, w);
    assert Steps(cfg, w, c, 0) == c;
    JumpStep(cfg, w, j.base + CALL1_SETUP, j.Loop1().hdr, j.base + SE_SETUP, st0);
    OneMore(cfg, w, c, 0);
    assert FirstSide.LoopOf(j) == j.Loop1();
    st := CallLoopRuns(cfg, j, w, FirstSide, st0, First(j, w), Second(j, w));
    StepsAdd(cfg, w, c, 1, 3 * j.iters + 2);
    JumpStep(cfg, w, j.base + CALL1_TEARDOWN, j.base + CALL2_SETUP, j.Loop1().exit, st);
    OneMore(cfg, w, c, 3 * j.iters + 3);
  }

  /** The calls on the second set, in descending order. */
  lemma {:induction false} SecondCallsPhase(cfg: Cfg, j: Job, w: World) returns (st: State)
    requires Embedded(cfg, j)
    ensures Steps(cfg, w, Start(j), 6 * j.iters + 11) == At(j.CheckLabel(0), j.base + SE_START, st)
    ensures InSets(j, st, Share(j, After2(j, w), After1(j, w)), After2(j, w))
    ensures st.log == EventsBefore(j)
  {
    hide Embedded, InSets, Step;
    var c := Start(j);
    var st0 := FirstCallsPhase(cfg, j, w);
    st := SecondLoop(cfg, j, w, st0);
    StepsAdd(cfg, w, c, 3 * j.iters + 6, 3 * j.iters + 5);
  }

  lemma {:induction false} SecondLoop(cfg: Cfg, j: Job, w: World, st0: State) returns (st: State)
    requires Embedded(cfg, j) && InSets(j, st0, After1(j, w), Before2(j, w))
    ensures Steps(cfg, w, At(j.base + CALL2_SETUP, j.base + CALL1_TEARDOWN, st0), 3 * j.iters + 5) ==
            At(j.CheckLabel(0), j.base + SE_START, st)
    ensures InSets(j, st, Share(j, After2(j, w), After1(j, w)), After2(j, w))
    ensures st.log == st0.log + CallEvents(Down(j.iters))
  {
    hide Embedded, InSets, Step;
    var c := At(j.base + CALL2_SETUP, j.base + CALL1_TEARDOWN, st0);
    JumpBlocks(cfg, j);
    FirstSized(j, w);
    FoldSized(j, w, Up(j.iters), First(j, w));
    ShareSized(j, After1(j, w), Second(j, w));
    assert Steps(cfg, w, c, 0) == c;
    JumpStep(cfg, w, j.base + CALL2_SETUP, j.Loop2().hdr, j.base + CALL1_TEARDOWN, st0);
    OneMore(cfg, w, c, 0);
    assert SecondSide.LoopOf(j) == j.Loop2();
    st := CallLoopRuns(cfg, j, w, SecondSide, st0, Before2(j, w), After1(j, w));
    StepsAdd(cfg, w, c, 1, 3 * j.iters + 2);
    JumpStep(cfg, w, j.base + CALL2_TEARDOWN, j.base + SE_START, j.Loop2().exit, st);
    OneMore(cfg, w, c, 3 * j.iters + 3);
    JumpStep(cfg, w, j.base + SE_START, j.CheckLabel(0), j.base + CALL2_TEARDOWN, st);
    OneMore(cfg, w, c, 3 * j.iters + 4);
  }

  /** The way from the end of the checks to the return. */
  lemma {:induction false} ExitPhase(cfg: Cfg, j: Job, w: World, prev: Label, st: State, a: Data, b: Data)
    returns (st': State)
    requires Embedded(cfg, j) && InSets(j, st, a, b)
    ensures EndsAfter(cfg, w, At(j.base + SE_END, prev, st), 3, Returned(VInt(0), st'))
    ensures TornDown(st.mem, st') && st'.log == st.log + FreeEvents(j.HeapRegions(|j.args|))
  {
    hide Embedded, InSets, Step, TornDown;
    var c := At(j.base + SE_END, prev, st);
    JumpBlocks(cfg, j);
    assert Steps(cfg, w, c, 0) == c;
    JumpStep(cfg, w, j.base + SE_END, j.base + TEARDOWN, prev, st);
    OneMore(cfg, w, c, 0);
    st' := TeardownBlockRuns(cfg, j, w, j.base + SE_END, st, a, b);
    OneMore(cfg, w, c, 1);
    ReturnStep(cfg, w, j.base + EXIT, j.base + TEARDOWN, st');
    OneMore(cfg, w, c, 2);
  }

  // ----- the verdict -----

  /** Only outbound arguments are compared, so sharing does not matter to the verdict. */
  lemma {:induction false} VerdictShared(j: Job, x: Data, y: Data, c: nat)
    requires |x| == |y| == |j.args|
    ensures VerdictFrom(j, Share(j, y, x), y, c) == VerdictFrom(j, x, y, c)
    decreases j.Conds() - c
  {
    if c < j.Conds() {
      CheckedIsOut(j, c);
      VerdictShared(j, x, y, c + 1);
    }
  }

  lemma {:induction false} CheckedIsOut(j: Job, c: nat)
    requires c < j.Conds()
    ensures j.args[CheckedArg(j, c)].Out()
  {
    SelectedExactly(j.Specs(), |j.args|);
  }

  /** What a run of the harness comes to: after how many block visits it ends, where, and in what
      state. */
  ghost predicate Finishes(cfg: Cfg, j: Job, w: World, st: State) {
    match VerdictOf(j, w)
    case Accept =>
      && EndsAfter(cfg, w, Start(j), 6 * j.iters + 14 + j.Conds(), Returned(VInt(0), st))
      && (exists mem :: Holds(j, mem, Share(j, After2(j, w), After1(j, w)), After2(j, w)) && TornDown(mem, st))
      && st.log == EventsBefore(j) + FreeEvents(j.HeapRegions(|j.args|))
    case Reject(c) =>
      && c < j.Conds()
      && EndsAfter(cfg, w, Start(j), 6 * j.iters + 13 + c, Failed(j.FailLabel(c), st))
      && InSets(j, st, Share(j, After2(j, w), After1(j, w)), After2(j, w))
      && st.log == EventsBefore(j)
    case OutOfBounds(c) =>
      && c < j.Conds() && EndsAfter(cfg, w, Start(j), 6 * j.iters + 12 + c, Faulted)
  }

  lemma {:induction false} HarnessRun(cfg: Cfg, j: Job, w: World) returns (st: State)
    requires Embedded(cfg, j)
    ensures Finishes(cfg, j, w, st)
  {
    hide Embedded, InSets, Step, Sized;
    var a, b := Share(j, After2(j, w), After1(j, w)), After2(j, w);
    var st0 := SecondCallsPhase(cfg, j, w);
    FinalSized(j, w);
    var prev, st1 := ChecksRun(cfg, j, w, 0, j.base + SE_START, st0, a, b);
    VerdictShared(j, After1(j, w), After2(j, w), 0);
    st := Conclude(cfg, j, w, st0, prev, st1);
  }

  /** The end-to-end theorem: for every job, every encapsulated function and every choice of
      symbolic and leftover bytes, the harness ends after a fixed number of block visits, and
      ends as the verdict on the two folds says. */
  lemma {:induction false} HarnessRefinesSpec(cfg: Cfg, j: Job, w: World)
    requires Embedded(cfg, j)
    ensures exists st :: Finishes(cfg, j, w, st)
  {
    hide Finishes;
    var st := HarnessRun(cfg, j, w);
  }

  lemma {:induction false} FinalSized(j: Job, w: World)
    ensures Sized(j, Share(j, After2(j, w), After1(j, w))) && Sized(j, After2(j, w))
  {
    hide Sized;
    FirstSized(j, w);
    FoldSized(j, w, Up(j.iters), First(j, w));
    ShareSized(j, After1(j, w), Second(j, w));
    FoldSized(j, w, Down(j.iters), Before2(j, w));
    ShareSized(j, After2(j, w), After1(j, w));
  }

  lemma {:induction false} SetsHold(j: Job, st: State, a: Data, b: Data)
    requires InSets(j, st, a, b)
    ensures Holds(j, st.mem, a, b)
  {
  }

  lemma {:induction false} Conclude(cfg: Cfg, j: Job, w: World, st0: State, prev: Label, st1: State) returns (st: State)
    requires Embedded(cfg, j)
    requires Steps(cfg, w, Start(j), 6 * j.iters + 11) == At(j.CheckLabel(0), j.base + SE_START, st0)
    requires st0.log == EventsBefore(j)
    requires VerdictFrom(j, Share(j, After2(j, w), After1(j, w)), After2(j, w), 0) == VerdictOf(j, w)
    requires ChecksEnd(cfg, j, w, 0, At(j.CheckLabel(0), j.base + SE_START, st0),
                       Share(j, After2(j, w), After1(j, w)), After2(j, w), prev, st1)
    ensures Finishes(cfg, j, w, st)
  {
    hide Embedded, InSets, Step, Share, After2, After1, VerdictFrom;
    var c, n := Start(j), 6 * j.iters + 11;
    var a, b := Share(j, After2(j, w), After1(j, w)), After2(j, w);
    st := st1;
    match VerdictOf(j, w) {
      case Accept =>
        st := ExitPhase(cfg, j, w, prev, st1, a, b);
        SetsHold(j, st1, a, b);
        StepsAdd(cfg, w, c, n, j.Conds());
        EndsLater(cfg, w, c, n + j.Conds(), 3, Returned(VInt(0), st));
      case Reject(d) =>
        EndsLater(cfg, w, c, n, d + 2, Failed(j.FailLabel(d), st1));
      case OutOfBounds(d) =>
        EndsLater(cfg, w, c, n, d + 1, Faulted);
    }
  }
}
