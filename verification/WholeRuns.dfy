/** Every visit of a run, from the start of the calls to the end: the run goes through the places of
    a machine that has no memory, and memory always holds the folds of the calls made so far. */
module WholeRuns {
  import opened IR
  import opened HarnessLayout
  import opened Semantics
  import opened LoopRuns
  import opened HarnessSpec
  import opened HarnessMemory
  import opened RunSetup
  import opened RunDeclare
  import opened RunCall
  import opened RunLoops
  import opened RunChecks
  import opened RunTeardown
  import opened HarnessRuns

  // ----- places -----

  /** Where a run can be once its data is set up: in front of a call loop, in its header with `k`
      trips done, about to make call `k`, having made it, in the exit block, behind the loop, in
      front of the checks, about to make check `c` (or past the last), in its fail block, at the
      frees, at the return; and the three ends. */
  datatype Place =
    | Entering(s: Side) | Heading(s: Side, k: nat) | Calling(s: Side, k: nat) | Advancing(s: Side, k: nat)
    | Exiting(s: Side) | Behind(s: Side)
    | Starting | Checking(c: nat) | Failing(c: nat) | Freeing | Leaving
    | Done | FailedAt(c: nat) | Lost

  /** The machine of places. */
  function Next(j: Job, w: World, p: Place): Place {
    match p
    case Entering(s) => Heading(s, 0)
    case Heading(s, k) => if k < j.iters then Calling(s, k) else Exiting(s)
    case Calling(s, k) => Advancing(s, k)
    case Advancing(s, k) => Heading(s, k + 1)
    case Exiting(s) => Behind(s)
    case Behind(s) => if s.FirstSide? then Entering(SecondSide) else Starting
    case Starting => Checking(0)
    case Checking(c) =>
      if c >= j.Conds() then Freeing
      else if !HarnessSpec.InBounds(j, CheckedArg(j, c)) then Lost
      else if Agree(j, After1(j, w), After2(j, w), CheckedArg(j, c)) then Checking(c + 1)
      else Failing(c)
    case Failing(c) => FailedAt(c)
    case Freeing => Leaving
    case Leaving => Done
    case _ => p
  }

  /** The place a run is at `n` visits after its data is set up. */
  function PlaceAfter(j: Job, w: World, n: nat): Place
    decreases n
  {
    if n == 0 then Entering(FirstSide) else Next(j, w, PlaceAfter(j, w, n - 1))
  }

  /** Calls made before a place. */
  function CallsBefore(j: Job, p: Place): nat {
    match p
    case Entering(s) => EarlierCalls(j, s)
    case Heading(s, k) => EarlierCalls(j, s) + k
    case Calling(s, k) => EarlierCalls(j, s) + k
    case Advancing(s, k) => EarlierCalls(j, s) + k + 1
    case Exiting(s) => EarlierCalls(j, s) + j.iters
    case Behind(s) => EarlierCalls(j, s) + j.iters
    case _ => 2 * j.iters
  }

  function EarlierCalls(j: Job, s: Side): nat {
    if s.FirstSide? then 0 else j.iters
  }

  // ----- data -----

  /** What a side's calls start from, and what they leave alone. */
  function Mine(j: Job, w: World, s: Side): (r: Data)
    ensures |r| == |j.args|
  {
    if s.FirstSide? then First(j, w) else Before2(j, w)
  }

  function Theirs(j: Job, w: World, s: Side): (r: Data)
    ensures |r| == |j.args|
  {
    if s.FirstSide? then Second(j, w) else After1(j, w)
  }

  function EarlierEvents(j: Job, s: Side): seq<Event> {
    MallocEvents(j.HeapRegions(|j.args|)) + if s.FirstSide? then [] else CallEvents(Up(j.iters))
  }

  /** `k` calls on side `s` are made, and nothing after that. */
  ghost predicate Now(j: Job, w: World, s: Side, k: nat, st: State) {
    AfterCalls(j, w, s, Mine(j, w, s), Theirs(j, w, s), EarlierEvents(j, s), k, st)
  }

  /** All calls are made and all heap regions are freed. */
  ghost predicate Over(j: Job, w: World, st: State) {
    exists before :: Now(j, w, SecondSide, j.iters, before) && TornDown(before.mem, st)
                     && st.log == before.log + FreeEvents(j.HeapRegions(|j.args|))
  }

  /** The configuration that belongs to a place. */
  ghost predicate IsAt(j: Job, w: World, p: Place, c: Config) {
    match p
    case Entering(s) => In(c, s.LoopOf(j).preheader) && Now(j, w, s, 0, c.st)
    case Heading(s, k) => Reached(s.LoopOf(j), k) && Arrived(s.LoopOf(j), c, k) && Now(j, w, s, k, c.st)
    case Calling(s, k) =>
      && Reached(s.LoopOf(j), k) && In(c, s.LoopOf(j).entry) && c.prev == s.LoopOf(j).hdr && k < j.iters
      && IndIs(s.LoopOf(j), c.st, k) && Now(j, w, s, k, c.st)
    case Advancing(s, k) =>
      && Reached(s.LoopOf(j), k) && In(c, s.LoopOf(j).latch) && k < j.iters
      && IndIs(s.LoopOf(j), c.st, k) && Now(j, w, s, k + 1, c.st)
    case Exiting(s) => In(c, s.LoopOf(j).exit) && Now(j, w, s, j.iters, c.st)
    case Behind(s) => In(c, s.LoopOf(j).postexit) && Now(j, w, s, j.iters, c.st)
    case Starting => In(c, j.base + SE_START) && Now(j, w, SecondSide, j.iters, c.st)
    case Checking(d) => d <= j.Conds() && In(c, j.CheckLabel(d)) && Now(j, w, SecondSide, j.iters, c.st)
    case Failing(d) => d < j.Conds() && In(c, j.FailLabel(d)) && Now(j, w, SecondSide, j.iters, c.st)
    case Freeing => In(c, j.base + TEARDOWN) && Now(j, w, SecondSide, j.iters, c.st)
    case Leaving => In(c, j.base + EXIT) && Over(j, w, c.st)
    case Done => c.Returned? && c.value == VInt(0) && Over(j, w, c.st)
    case FailedAt(d) => c.Failed? && d < j.Conds() && c.block == j.FailLabel(d) && Now(j, w, SecondSide, j.iters, c.st)
    case Lost => c.Faulted?
  }

  // ----- one visit -----

  lemma {:induction false} MineSized(j: Job, w: World, s: Side)
    ensures Sized(j, Mine(j, w, s))
  {
    hide Sized;
    FirstSized(j, w);
    FoldSized(j, w, Up(j.iters), First(j, w));
    ShareSized(j, After1(j, w), Second(j, w));
  }

  lemma {:induction false} IterationsMade(j: Job, s: Side, k: nat)
    requires j.Valid()
    ensures Going(s.LoopOf(j), k) <==> k < j.iters
  {
    IterationAt(j, s, k);
    TripsExact(s.LoopOf(j), k);
  }

  /** Results of a loop's own blocks do not matter to what the calls have done. */
  lemma {:induction false} NowStable(j: Job, w: World, s: Side, k: nat, a: State, b: State)
    requires j.Valid() && Now(j, w, s, k, a) && SameBut(s.LoopOf(j), a, b)
    ensures Now(j, w, s, k, b)
  {
    hide AfterCalls, SameBut, Mine, Theirs, EarlierEvents;
    var inv := CallInvariant(j, w, s, Mine(j, w, s), Theirs(j, w, s), EarlierEvents(j, s));
    CallInvariantStable(j, w, s, Mine(j, w, s), Theirs(j, w, s), EarlierEvents(j, s));
    assert inv(k, a);
    assert inv(k, b);
  }

  /** The header of a call loop. */
  lemma {:induction false} HeaderVisit(cfg: Cfg, j: Job, w: World, s: Side, k: nat, c: Config)
    requires Embedded(cfg, j) && IsAt(j, w, Heading(s, k), c)
    ensures IsAt(j, w, Next(j, w, Heading(s, k)), Step(cfg, w, c))
  {
    assert j.Valid();
    hide Embedded, Step, Arrived, Reached, Going, Side.LoopOf, IndIs, HasLoop, HeaderState, AfterCalls, SameBut;
    HarnessHasLoop(cfg, j, s);
    IterationsMade(j, s, k);
    HeaderStep(cfg, w, s.LoopOf(j), c, k);
    NowStable(j, w, s, k, c.st, HeaderState(s.LoopOf(j), c.st, k));
    assert k <= j.iters by { CallsBounded(j, w, s, k, c.st); }
  }

  lemma {:induction false} CallsBounded(j: Job, w: World, s: Side, k: nat, st: State)
    requires Now(j, w, s, k, st)
    ensures k <= j.iters
  {
  }

  /** A body block: one call. */
  lemma {:induction false} BodyVisit(cfg: Cfg, j: Job, w: World, s: Side, k: nat, c: Config)
    requires Embedded(cfg, j) && IsAt(j, w, Calling(s, k), c)
    ensures IsAt(j, w, Next(j, w, Calling(s, k)), Step(cfg, w, c))
  {
    hide Embedded, Step, Reached, Side.LoopOf, IndIs, AfterCalls, Mine, Theirs, EarlierEvents, Sized;
    MineSized(j, w, s);
    var st' := CallTrip(cfg, j, w, s, Mine(j, w, s), Theirs(j, w, s), EarlierEvents(j, s), k, c.st);
    assert Steps(cfg, w, c, 0) == c;
    OneMore(cfg, w, c, 0);
  }

  /** A latch. */
  lemma {:induction false} LatchVisit(cfg: Cfg, j: Job, w: World, s: Side, k: nat, c: Config)
    requires Embedded(cfg, j) && IsAt(j, w, Advancing(s, k), c)
    ensures IsAt(j, w, Next(j, w, Advancing(s, k)), Step(cfg, w, c))
  {
    assert j.Valid();
    IterationsMade(j, s, k);
    assert Reached(s.LoopOf(j), k + 1);
    hide Embedded, Step, Arrived, Going, Reached, Side.LoopOf, IndIs, HasLoop, LatchState, Now, SameBut;
    HarnessHasLoop(cfg, j, s);
    LatchStep(cfg, w, s.LoopOf(j), c.prev, c.st, k);
    NowStable(j, w, s, k + 1, c.st, LatchState(s.LoopOf(j), c.st, k));
  }

  /** Entry of a call loop. */
  lemma {:induction false} EntryVisit(cfg: Cfg, j: Job, w: World, s: Side, c: Config)
    requires Embedded(cfg, j) && IsAt(j, w, Entering(s), c)
    ensures IsAt(j, w, Next(j, w, Entering(s)), Step(cfg, w, c))
  {
    hide Embedded, Step, Now, Job.Outs;
    JumpBlocks(cfg, j);
    JumpStep(cfg, w, s.LoopOf(j).preheader, s.LoopOf(j).hdr, c.prev, c.st);
  }

  /** Exit of a call loop. */
  lemma {:induction false} ExitVisit(cfg: Cfg, j: Job, w: World, s: Side, c: Config)
    requires Embedded(cfg, j) && IsAt(j, w, Exiting(s), c)
    ensures IsAt(j, w, Next(j, w, Exiting(s)), Step(cfg, w, c))
  {
    hide Embedded, Step, Now, HasLoop, Side.LoopOf;
    HarnessHasLoop(cfg, j, s);
    ExitStep(cfg, w, s.LoopOf(j), c.prev, c.st);
  }

  /** The first set's result is what the second set's calls leave alone, and what is shared is
      handed on. */
  lemma {:induction false} SecondSideStarts(j: Job, w: World, st: State)
    requires Now(j, w, FirstSide, j.iters, st)
    ensures Now(j, w, SecondSide, 0, st)
  {
    hide Holds, Fold, CallEvents, First, Second;
    assert Up(j.iters)[..j.iters] == Up(j.iters);
    var its := Down(j.iters)[..0];
    assert its == [] && CallEvents([]) == [];
    assert Fold(j, w, [], Before2(j, w)) == Before2(j, w) by { EmptyFold(j, w, Before2(j, w)); }
    assert Share(j, Before2(j, w), After1(j, w)) == After1(j, w);
    assert EarlierEvents(j, SecondSide) + [] == EarlierEvents(j, SecondSide);
    assert EarlierEvents(j, FirstSide) + CallEvents(Up(j.iters)) == EarlierEvents(j, SecondSide);
  }

  lemma {:induction false} EmptyFold(j: Job, w: World, d: Data)
    requires |d| == |j.args|
    ensures Fold(j, w, [], d) == d
  {
  }

  /** Behind a call loop, and in front of the checks. */
  lemma {:induction false} JumpVisit(cfg: Cfg, j: Job, w: World, p: Place, c: Config)
    requires Embedded(cfg, j) && (p.Behind? || p.Starting?) && IsAt(j, w, p, c)
    ensures IsAt(j, w, Next(j, w, p), Step(cfg, w, c))
  {
    hide Embedded, Step, AfterCalls, Now;
    JumpBlocks(cfg, j);
    if p.Behind? {
      if p.s.FirstSide? {
        JumpStep(cfg, w, j.base + CALL1_TEARDOWN, j.base + CALL2_SETUP, c.prev, c.st);
        SecondSideStarts(j, w, c.st);
      } else {
        JumpStep(cfg, w, j.base + CALL2_TEARDOWN, j.base + SE_START, c.prev, c.st);
      }
    } else {
      JumpStep(cfg, w, j.base + SE_START, j.CheckLabel(0), c.prev, c.st);
    }
  }

  /** What `Now` says once all calls are made. */
  lemma {:induction false} AllCallsMade(j: Job, w: World, st: State)
    ensures Now(j, w, SecondSide, j.iters, st) <==>
            InSets(j, st, Share(j, After2(j, w), After1(j, w)), After2(j, w)) && st.log == EventsBefore(j)
  {
    hide InSets, Fold, CallEvents, First, Second;
    assert Down(j.iters)[..j.iters] == Down(j.iters);
  }

  /** A check: it decides as the specification does, and changes no memory. */
  lemma {:induction false} CheckVisit(cfg: Cfg, j: Job, w: World, d: nat, c: Config)
    requires Embedded(cfg, j) && IsAt(j, w, Checking(d), c)
    ensures IsAt(j, w, Next(j, w, Checking(d)), Step(cfg, w, c))
  {
    hide Embedded, Step, Now, InSets, Sized, Share, After1, After2, HarnessSpec.InBounds, CheckedArg, CheckedState;
    var x, y := Share(j, After2(j, w), After1(j, w)), After2(j, w);
    AllCallsMade(j, w, c.st);
    if d == j.Conds() {
      JumpBlocks(cfg, j);
      JumpStep(cfg, w, j.base + SE_END, j.base + TEARDOWN, c.prev, c.st);
    } else {
      FinalSized(j, w);
      CheckedIsOut(j, d);
      if !HarnessSpec.InBounds(j, CheckedArg(j, d)) {
        CondOutOfBounds(cfg, j, w, c.prev, c.st, x, y, d);
      } else {
        CondInBounds(cfg, j, w, c.prev, c.st, x, y, d);
        SharedAgree(j, After1(j, w), After2(j, w), CheckedArg(j, d));
        assert CheckedState(j, c.st, x, y, d).log == c.st.log by {
          SizedInBounds(j, x, y, CheckedArg(j, d));
          CheckedLog(j, c.st, x, y, d);
        }
        AllCallsMade(j, w, CheckedState(j, c.st, x, y, d));
      }
    }
  }

  lemma {:induction false} SharedAgree(j: Job, x: Data, y: Data, i: nat)
    requires i < |j.args| == |x| == |y| && j.args[i].Out()
    ensures Agree(j, Share(j, y, x), y, i) <==> Agree(j, x, y, i)
  {
  }

  lemma {:induction false} SizedInBounds(j: Job, x: Data, y: Data, i: nat)
    requires i < |j.args| && Sized(j, x) && Sized(j, y) && HarnessSpec.InBounds(j, i)
    ensures j.args[i].CmpSize(j.iters) <= |x[i]| && j.args[i].CmpSize(j.iters) <= |y[i]|
  {
  }

  /** The last blocks, and the ends. */
  lemma {:induction false} LastVisit(cfg: Cfg, j: Job, w: World, p: Place, c: Config)
    requires Embedded(cfg, j) && IsAt(j, w, p, c)
    requires p.Failing? || p.Freeing? || p.Leaving? || p.Done? || p.FailedAt? || p.Lost?
    ensures IsAt(j, w, Next(j, w, p), Step(cfg, w, c))
  {
    hide Embedded, Now, InSets, Exec, TornDown, Share, After1, After2, CheckedArg, Agree;
    match p {
      case Failing(d) =>
        FailBlockRuns(cfg, j, w, c.prev, c.st, d);
      case Freeing =>
        AllCallsMade(j, w, c.st);
        var st' := TeardownBlockRuns(cfg, j, w, c.prev, c.st, Share(j, After2(j, w), After1(j, w)), After2(j, w));
        assert Over(j, w, st');
      case Leaving =>
        JumpBlocks(cfg, j);
        ReturnStep(cfg, w, j.base + EXIT, c.prev, c.st);
      case _ =>
    }
  }

  /** One visit takes a run to the next place. */
  lemma {:induction false} NextVisit(cfg: Cfg, j: Job, w: World, p: Place, c: Config)
    requires Embedded(cfg, j) && IsAt(j, w, p, c)
    ensures IsAt(j, w, Next(j, w, p), Step(cfg, w, c))
  {
    hide Embedded, IsAt, Next, Step;
    match p {
      case Entering(s) => EntryVisit(cfg, j, w, s, c);
      case Heading(s, k) => HeaderVisit(cfg, j, w, s, k, c);
      case Calling(s, k) => BodyVisit(cfg, j, w, s, k, c);
      case Advancing(s, k) => LatchVisit(cfg, j, w, s, k, c);
      case Exiting(s) => ExitVisit(cfg, j, w, s, c);
      case Behind(_) => JumpVisit(cfg, j, w, p, c);
      case Starting => JumpVisit(cfg, j, w, p, c);
      case Checking(d) => CheckVisit(cfg, j, w, d, c);
      case _ => LastVisit(cfg, j, w, p, c);
    }
  }

  // ----- all visits -----

  /** The run is, visit by visit, the run of the machine of places. */
  lemma {:induction false} RunFollowsPlaces(cfg: Cfg, j: Job, w: World, n: nat)
    requires Embedded(cfg, j)
    ensures IsAt(j, w, PlaceAfter(j, w, n), Steps(cfg, w, Start(j), n + 2))
    decreases n
  {
    hide Embedded, Step, Next;
    if n == 0 {
      CallsStart(cfg, j, w);
    } else {
      RunFollowsPlaces(cfg, j, w, n - 1);
      NextVisit(cfg, j, w, PlaceAfter(j, w, n - 1), Steps(cfg, w, Start(j), n + 1));
      OneMore(cfg, w, Start(j), n + 1);
    }
  }

  lemma {:induction false} CallsStart(cfg: Cfg, j: Job, w: World)
    requires Embedded(cfg, j)
    ensures IsAt(j, w, Entering(FirstSide), Steps(cfg, w, Start(j), 2))
  {
    hide Embedded, Steps, Holds, Fold, CallEvents;
    var st := DataPhase(cfg, j, w);
    var its := Up(j.iters)[..0];
    assert its == [] && CallEvents([]) == [];
    EmptyFold(j, w, First(j, w));
    assert Share(j, First(j, w), Second(j, w)) == Second(j, w);
    assert EarlierEvents(j, FirstSide) + [] == st.log;
  }

  /** Both sets after the first `m` of all calls. */
  function SetsAfter(j: Job, w: World, m: nat): (r: (Data, Data))
    requires m <= 2 * j.iters
    ensures |r.0| == |r.1| == |j.args|
  {
    if m <= j.iters then
      var d := Fold(j, w, Up(j.iters)[..m], First(j, w));
      (d, Share(j, d, Second(j, w)))
    else
      var d := Fold(j, w, Down(j.iters)[..m - j.iters], Before2(j, w));
      (Share(j, d, After1(j, w)), d)
  }

  /** Memory holds both sets after the calls made so far, and all of it is live until the frees
      have run; then the heap regions are dead and nothing else has changed. */
  ghost predicate MemoryIs(j: Job, w: World, m: nat, c: Config) {
    && !c.Faulted? && m <= 2 * j.iters && Calls(c.st.log) == m
    && exists mem :: Holds(j, mem, SetsAfter(j, w, m).0, SetsAfter(j, w, m).1)
                     && if c.Returned? || In(c, j.base + EXIT) then TornDown(mem, c.st) else c.st.mem == mem
  }

  lemma {:induction false} CallsNow(j: Job, w: World, s: Side, k: nat, st: State)
    requires Now(j, w, s, k, st)
    ensures k <= j.iters && Calls(st.log) == EarlierCalls(j, s) + k
  {
    assert k <= j.iters && st.log == EarlierEvents(j, s) + CallEvents(Iterations(j, s)[..k]);
    hide Now, CallEvents, MallocEvents, CallsMade;
    var rs := j.HeapRegions(|j.args|);
    CallsMadeAdd(EarlierEvents(j, s), CallEvents(Iterations(j, s)[..k]));
    CallsInEvents(Iterations(j, s)[..k], rs);
    CallsInEvents(Up(j.iters), rs);
    CallsMadeAdd(MallocEvents(rs), CallEvents(Up(j.iters)));
    assert MallocEvents(rs) + [] == MallocEvents(rs);
  }

  lemma {:induction false} MemoryNow(j: Job, w: World, s: Side, k: nat, st: State)
    requires Now(j, w, s, k, st)
    ensures var m := EarlierCalls(j, s) + k;
            k <= j.iters && Holds(j, st.mem, SetsAfter(j, w, m).0, SetsAfter(j, w, m).1)
  {
    hide Holds, Fold, CallEvents, MallocEvents, First, Second;
    if s.SecondSide? && k == 0 {
      assert Up(j.iters)[..j.iters] == Up(j.iters);
      assert Down(j.iters)[..0] == [];
      EmptyFold(j, w, Before2(j, w));
      assert Share(j, Before2(j, w), After1(j, w)) == After1(j, w);
    }
  }

  /** The side whose calls are the last made, or the next to make, at a place. */
  function SideAt(p: Place): Side {
    match p
    case Entering(s) => s
    case Heading(s, _) => s
    case Calling(s, _) => s
    case Advancing(s, _) => s
    case Exiting(s) => s
    case Behind(s) => s
    case _ => SecondSide
  }

  lemma {:induction false} MemoryAt(j: Job, w: World, p: Place, c: Config)
    requires IsAt(j, w, p, c) && !p.Lost?
    ensures MemoryIs(j, w, CallsBefore(j, p), c)
  {
    hide Now, Holds, TornDown, SetsAfter, CallsMade;
    if p.Leaving? || p.Done? {
      var before :| Now(j, w, SecondSide, j.iters, before) && TornDown(before.mem, c.st)
                    && c.st.log == before.log + FreeEvents(j.HeapRegions(|j.args|));
      CallsNow(j, w, SecondSide, j.iters, before);
      MemoryNow(j, w, SecondSide, j.iters, before);
      CallsMadeAdd(before.log, FreeEvents(j.HeapRegions(|j.args|)));
      CallsInEvents([], j.HeapRegions(|j.args|));
    } else {
      var s, k := SideAt(p), CallsBefore(j, p) - EarlierCalls(j, SideAt(p));
      CallsNow(j, w, s, k, c.st);
      MemoryNow(j, w, s, k, c.st);
    }
  }

  /** From the second visit on, at every visit of every run that has not faulted: memory is exactly
      the two sets after the calls the log has, whatever the encapsulated function does. */
  lemma {:induction false} MemoryFollowsCalls(cfg: Cfg, j: Job, w: World, n: nat)
    requires Embedded(cfg, j) && n >= 2 && !Steps(cfg, w, Start(j), n).Faulted?
    ensures MemoryIs(j, w, Calls(Steps(cfg, w, Start(j), n).st.log), Steps(cfg, w, Start(j), n))
  {
    hide Embedded, Steps, IsAt, MemoryIs, PlaceAfter;
    var p, c := PlaceAfter(j, w, n - 2), Steps(cfg, w, Start(j), n);
    RunFollowsPlaces(cfg, j, w, n - 2);
    LostMeansFaulted(j, w, p, c);
    MemoryAt(j, w, p, c);
    CountedCalls(j, w, CallsBefore(j, p), c);
  }

  lemma {:induction false} LostMeansFaulted(j: Job, w: World, p: Place, c: Config)
    requires IsAt(j, w, p, c)
    ensures p.Lost? <==> c.Faulted?
  {
  }

  lemma {:induction false} CountedCalls(j: Job, w: World, m: nat, c: Config)
    requires MemoryIs(j, w, m, c)
    ensures !c.Faulted? && Calls(c.st.log) == m
  {
  }

  // ----- scalars -----

  /** In the specification a scalar keeps its bytes, because calls receive its value. */
  lemma {:induction false} FoldKeepsScalars(j: Job, w: World, its: seq<uint64>, d: Data, i: nat)
    requires |d| == |j.args| && i < |d| && !j.args[i].ty.Pointer?
    ensures Fold(j, w, its, d)[i] == d[i]
    decreases |its|
  {
    if its != [] {
      FoldKeepsScalars(j, w, its[..|its| - 1], d, i);
    }
  }

  lemma {:induction false} SetsKeepScalars(j: Job, w: World, m: nat, i: nat)
    requires m <= 2 * j.iters && i < |j.args| && !j.args[i].ty.Pointer?
    ensures SetsAfter(j, w, m).0[i] == FirstAt(j, w, i) && SetsAfter(j, w, m).1[i] == SecondAt(j, w, i)
  {
    hide Fold, FirstAt;
    FoldKeepsScalars(j, w, Up(j.iters), First(j, w), i);
    if m <= j.iters {
      FoldKeepsScalars(j, w, Up(j.iters)[..m], First(j, w), i);
    } else {
      FoldKeepsScalars(j, w, Down(j.iters)[..m - j.iters], Before2(j, w), i);
    }
  }

  /** From the end of the symbolic setup on, at every visit of every run that has not faulted, both
      slots of a scalar argument are live and hold what was put there. */
  lemma {:induction false} ScalarSlots(cfg: Cfg, j: Job, w: World, i: nat, n: nat)
    requires Embedded(cfg, j) && i < |j.args| && !j.args[i].ty.Pointer? && n >= 2
    requires !Steps(cfg, w, Start(j), n).Faulted?
    ensures var mem := Steps(cfg, w, Start(j), n).st.mem;
            && j.R1(i) < |mem| && mem[j.R1(i)] == Region(FirstAt(j, w, i), false, true)
            && j.R2(i) < |mem| && mem[j.R2(i)] == Region(SecondAt(j, w, i), false, true)
  {
    hide Embedded, Steps, SetsAfter, FirstAt, SecondAt;
    MemoryFollowsCalls(cfg, j, w, n);
    var c := Steps(cfg, w, Start(j), n);
    var m := Calls(c.st.log);
    SetsKeepScalars(j, w, m, i);
    var mem :| Holds(j, mem, SetsAfter(j, w, m).0, SetsAfter(j, w, m).1)
               && if c.Returned? || In(c, j.base + EXIT) then TornDown(mem, c.st) else c.st.mem == mem;
    assert HoldsAt(j, mem, SetsAfter(j, w, m).0, SetsAfter(j, w, m).1, i);
    RegionInRange(j, i);
  }

  /** So they keep their contents, whatever the encapsulated function does, to the end of the run:
      what the two slots are after the second visit they are after every later one. */
  lemma {:induction false} ScalarSlotsKept(cfg: Cfg, j: Job, w: World, i: nat, n: nat)
    requires Embedded(cfg, j) && i < |j.args| && !j.args[i].ty.Pointer? && n >= 2
    ensures var c, d := Steps(cfg, w, Start(j), 2), Steps(cfg, w, Start(j), n);
            && In(c, j.base + CALL1_SETUP) && j.R1(i) < |c.st.mem| && j.R2(i) < |c.st.mem|
            && c.st.mem[j.R1(i)].live && c.st.mem[j.R2(i)].live
            && (!d.Faulted? ==>
                  && j.R1(i) < |d.st.mem| && d.st.mem[j.R1(i)] == c.st.mem[j.R1(i)]
                  && j.R2(i) < |d.st.mem| && d.st.mem[j.R2(i)] == c.st.mem[j.R2(i)])
  {
    hide Embedded, Steps;
    var st := DataPhase(cfg, j, w);
    ScalarSlots(cfg, j, w, i, 2);
    if !Steps(cfg, w, Start(j), n).Faulted? {
      ScalarSlots(cfg, j, w, i, n);
    }
  }
}
