/** The runs of the two call loops, as instances of the loop theorem. */
module RunLoops {
  import opened IR
  import opened LoopBuilding
  import opened HarnessLayout
  import opened Semantics
  import opened LoopRuns
  import opened HarnessSpec
  import opened HarnessMemory
  import opened RunSetup
  import opened RunCall

  // ----- the body block -----

  /** Where fetches, call and branch stand in a body block. */
  lemma {:induction false} BodyBlockAt(j: Job, s: Side)
    requires j.Valid()
    ensures var b := j.BlockAt(s.Body());
            && |b| == |j.args| + 1
            && (forall i | 0 < i < |j.args| :: [b[i - 1]] == FetchInstr(s.Args(j)[i]))
            && b[|j.args| - 1] == CallEncapsulated(CallOperands(j, s, j.base + s.Body()))
            && b[|j.args|] == Br(s.LoopOf(j).latch)
  {
    hide FetchInstrs, FetchedOperands, Job.CallArgs1, Job.CallArgs2;
    var vals := s.Args(j);
    var b := j.BlockAt(s.Body());
    assert b == CallInstrs(vals, j.base + s.Body(), 0) + [Br(s.LoopOf(j).latch)];
    FetchPositions(vals, |vals|);
    forall i | 0 < i < |j.args|
      ensures [b[i - 1]] == FetchInstr(vals[i])
    {
      FetchAt(vals, |vals|, i);
    }
  }

  ghost predicate IndHolds(j: Job, s: Side, st: State, it: uint64) {
    s.LoopOf(j).Ind() in st.env && st.env[s.LoopOf(j).Ind()] == VInt(it)
  }

  lemma {:induction false} BodyBlockRuns(cfg: Cfg, j: Job, w: World, s: Side, prev: Label, st: State, it: uint64,
                                         mine: Data, theirs: Data)
    returns (st': State)
    requires Embedded(cfg, j) && s.Sees(j, st, mine, theirs) && Sized(j, mine) && IndHolds(j, s, st, it)
    ensures Step(cfg, w, At(j.base + s.Body(), prev, st)) == At(s.LoopOf(j).latch, j.base + s.Body(), st')
    ensures |mine| == |theirs| == |j.args|
    ensures s.Sees(j, st', Apply(j, w, it, mine), Share(j, Apply(j, w, it, mine), theirs))
    ensures IndHolds(j, s, st', it) && st'.log == st.log + [Called(it)]
  {
    hide Holds, Apply, CallOperands, CallF, FetchInstr, Job.BlockAt, Job.R1, Share;
    var l, n := j.base + s.Body(), |j.args|;
    var b := j.BlockAt(s.Body());
    assert cfg[j.base + s.Body()] == b;
    BodyBlockAt(j, s);
    var mid := FetchRuns(j, w, s, l, b, prev, st, 1, mine, theirs);
    KeepsSight(j, s, l, st, mid, mine, theirs);
    assert s.LoopOf(j).Ind().block != l;
    st' := CallStep(j, w, s, l, mid, it, mine, theirs);
    assert Execute(b[n - 1], Inst(l, n - 1), prev, mid, w) == Ok(st');
    assert Exec(b, l, n, prev, st', w) == At(s.LoopOf(j).latch, l, st');
    assert Exec(b, l, n - 1, prev, mid, w) == Exec(b, l, n, prev, st', w);
  }

  // ----- the loops -----

  /** The iteration arguments of each side's calls. */
  function Iterations(j: Job, s: Side): (r: seq<uint64>)
    ensures |r| == j.iters
  {
    if s.FirstSide? then Up(j.iters) else Down(j.iters)
  }

  lemma {:induction false} IterationAt(j: Job, s: Side, k: nat)
    requires j.Valid()
    ensures Trips(s.LoopOf(j)) == j.iters
    ensures k < j.iters ==> Bits(IndAt(s.LoopOf(j), k)) == Iterations(j, s)[k]
  {
    assert k * 1 == k;
  }

  lemma {:induction false} HarnessHasLoop(cfg: Cfg, j: Job, s: Side)
    requires Embedded(cfg, j)
    ensures HasLoop(cfg, s.LoopOf(j))
  {
    var x := CONDS + 2 * j.Conds() + if s.FirstSide? then 0 else 3;
    assert s.LoopOf(j).hdr == j.base + x;
    assert cfg[j.base + x] == j.BlockAt(x);
    assert cfg[j.base + (x + 1)] == j.BlockAt(x + 1);
    assert cfg[j.base + (x + 2)] == j.BlockAt(x + 2);
  }

  lemma {:induction false} FoldSized(j: Job, w: World, its: seq<uint64>, d: Data)
    requires Sized(j, d)
    ensures Sized(j, Fold(j, w, its, d))
    decreases |its|
  {
    if its != [] {
      FoldSized(j, w, its[..|its| - 1], d);
    }
  }

  /** The state of a side's calls after `k` of them. */
  ghost predicate AfterCalls(j: Job, w: World, s: Side, mine: Data, theirs: Data, log: seq<Event>, k: nat, st: State) {
    && |mine| == |theirs| == |j.args| && k <= j.iters
    && var d := Fold(j, w, Iterations(j, s)[..k], mine);
       s.Sees(j, st, d, Share(j, d, theirs)) && st.log == log + CallEvents(Iterations(j, s)[..k])
  }

  lemma {:induction false} CallsStable(j: Job, s: Side, a: State, b: State, mine: Data, theirs: Data)
    requires j.Valid() && SameBut(s.LoopOf(j), a, b) && s.Sees(j, a, mine, theirs)
    ensures s.Sees(j, b, mine, theirs)
  {
    hide Holds;
    forall r | 0 <= r < j.R1(|j.args|)
      ensures j.Ptr(r) in b.env && b.env[j.Ptr(r)] == VPtr(r)
    {
      assert j.Ptr(r) in a.env && a.env[j.Ptr(r)] == VPtr(r);
      assert !IsControl(s.LoopOf(j), j.Ptr(r));
    }
  }

  lemma {:induction false} ShareTwice(j: Job, x: Data, y: Data, z: Data)
    requires |x| == |y| == |z| == |j.args|
    ensures Share(j, x, Share(j, y, z)) == Share(j, x, z)
  {
  }

  /** One trip of a call loop. */
  lemma {:induction false} CallTrip(cfg: Cfg, j: Job, w: World, s: Side, mine: Data, theirs: Data, log: seq<Event>,
                                    k: nat, st: State)
    returns (st': State)
    requires Embedded(cfg, j) && Sized(j, mine) && k < j.iters
    requires IndIs(s.LoopOf(j), st, k) && AfterCalls(j, w, s, mine, theirs, log, k, st)
    ensures Steps(cfg, w, At(s.LoopOf(j).entry, s.LoopOf(j).hdr, st), 1) ==
            At(s.LoopOf(j).latch, s.LoopOf(j).entry, st')
    ensures IndIs(s.LoopOf(j), st', k) && AfterCalls(j, w, s, mine, theirs, log, k + 1, st')
  {
    assert j.Valid();
    hide Side.Sees, Apply, Share, Embedded, Bits, IndAt, Job.Valid;
    var its := Iterations(j, s);
    var d := Fold(j, w, its[..k], mine);
    IterationAt(j, s, k);
    FoldSized(j, w, its[..k], mine);
    assert its[..k + 1][..k] == its[..k];
    var c := At(s.LoopOf(j).entry, s.LoopOf(j).hdr, st);
    assert Steps(cfg, w, c, 0) == c;
    st' := BodyBlockRuns(cfg, j, w, s, s.LoopOf(j).hdr, st, its[k], d, Share(j, d, theirs));
    ShareTwice(j, Apply(j, w, its[k], d), d, theirs);
    assert CallEvents(its[..k]) + [Called(its[k])] == CallEvents(its[..k + 1]);
  }

  lemma {:induction false} OneBlockVisits(len: nat -> nat, k: nat)
    requires forall i :: len(i) == 1
    ensures Visits(len, k) == 3 * k
    decreases k
  {
    if k > 0 {
      OneBlockVisits(len, k - 1);
    }
  }

  /** The invariant of a call loop, for the loop theorem. */
  ghost function CallInvariant(j: Job, w: World, s: Side, mine: Data, theirs: Data, log: seq<Event>): Invariant {
    (k: nat, st: State) => AfterCalls(j, w, s, mine, theirs, log, k, st)
  }

  lemma {:induction false} CallInvariantStable(j: Job, w: World, s: Side, mine: Data, theirs: Data, log: seq<Event>)
    requires j.Valid()
    ensures Stable(s.LoopOf(j), CallInvariant(j, w, s, mine, theirs, log))
  {
    hide Side.Sees, Share, Fold, SameBut;
    var inv := CallInvariant(j, w, s, mine, theirs, log);
    forall k: nat, a, b | inv(k, a) && SameBut(s.LoopOf(j), a, b)
      ensures inv(k, b)
    {
      var d := Fold(j, w, Iterations(j, s)[..k], mine);
      CallsStable(j, s, a, b, d, Share(j, d, theirs));
      assert a.log == b.log by { SameLog(s.LoopOf(j), a, b); }
    }
  }

  lemma {:induction false} SameLog(loop: Loop, a: State, b: State)
    requires SameBut(loop, a, b)
    ensures a.log == b.log
  {
  }

  lemma {:induction false} CallBodyReturns(cfg: Cfg, j: Job, w: World, s: Side, mine: Data, theirs: Data,
                                           log: seq<Event>)
    requires Embedded(cfg, j) && Sized(j, mine)
    ensures BodyAlwaysReturns(cfg, w, s.LoopOf(j), CallInvariant(j, w, s, mine, theirs, log), _ => 1)
  {
    assert j.Valid();
    hide Embedded, Job.Valid, Trips, IndAt, Going, Steps;
    var loop, inv := s.LoopOf(j), CallInvariant(j, w, s, mine, theirs, log);
    forall k: nat, x | Going(loop, k) && IndIs(loop, x, k) && inv(k, x)
      ensures BodyReturns(cfg, w, loop, inv, 1, k, x)
    {
      TripsExact(loop, k);
      IterationAt(j, s, k);
      var x' := CallTrip(cfg, j, w, s, mine, theirs, log, k, x);
      assert BodyReturnsIn(cfg, w, loop, inv, 1, k, x, loop.entry, x');
    }
  }

  /** A call loop as a whole: from its preheader's branch to the block behind it, in 3 visits for
      each iteration and two more, and the calls are made in the side's order. */
  lemma {:induction false} CallLoopRuns(cfg: Cfg, j: Job, w: World, s: Side, st: State, mine: Data, theirs: Data)
    returns (st': State)
    requires Embedded(cfg, j) && s.Sees(j, st, mine, theirs) && Sized(j, mine)
    ensures Steps(cfg, w, At(s.LoopOf(j).hdr, s.LoopOf(j).preheader, st), 3 * j.iters + 2) ==
            At(s.LoopOf(j).postexit, s.LoopOf(j).exit, st')
    ensures |mine| == |theirs| == |j.args|
    ensures var d := Fold(j, w, Iterations(j, s), mine); s.Sees(j, st', d, Share(j, d, theirs))
    ensures st'.log == st.log + CallEvents(Iterations(j, s))
  {
    assert j.Valid();
    hide Holds, Embedded, Share, Job.Valid, Trips, BodyAlwaysReturns, Stable, HasLoop;
    var loop, its := s.LoopOf(j), Iterations(j, s);
    var c := At(loop.hdr, loop.preheader, st);
    HarnessHasLoop(cfg, j, s);
    AlreadyShared(j, s, st.mem, mine, theirs);
    var inv := CallInvariant(j, w, s, mine, theirs, st.log);
    assert its[..0] == [] && CallEvents([]) == [] && st.log + [] == st.log;
    assert ArrivedIn(loop, inv, c, 0);
    CallInvariantStable(j, w, s, mine, theirs, st.log);
    CallBodyReturns(cfg, j, w, s, mine, theirs, st.log);
    IterationAt(j, s, j.iters);
    OneBlockVisits(_ => 1, j.iters);
    st' := LoopLeaves(cfg, w, loop, inv, _ => 1, c);
    assert its[..j.iters] == its;
  }
}
