/** What a loop built by `CreateLoop` does, for any bounds, any step and any body that comes back
    to the latch. */
module LoopRuns {
  import opened IR
  import opened LoopBuilding
  import opened Semantics

  /** The number of trips, as the bounds promise it: the end is excluded going up and included
      going down. */
  function Trips(loop: Loop): (n: nat)
    requires loop.step > 0
  {
    if loop.start > loop.end then (loop.start - loop.end) / loop.step + 1
    else (loop.end - loop.start + loop.step - 1) / loop.step
  }

  /** The induction variable of trip `k` as a mathematical integer. */
  function IndAt(loop: Loop, k: nat): int {
    if loop.start > loop.end then loop.start - k * loop.step else loop.start + k * loop.step
  }

  /** A trip is still to be made from the value `x`. */
  predicate InBounds(loop: Loop, x: int) {
    if loop.start > loop.end then x >= loop.end else x < loop.end
  }

  lemma {:induction false} DivBounds(a: nat, s: nat)
    requires s > 0
    ensures a / s * s <= a < a / s * s + s
  {
    assert a == a / s * s + a % s;
  }

  lemma {:induction false} MulMono(a: nat, b: nat, s: nat)
    requires a <= b
    ensures a * s <= b * s
  {
    assert b * s == a * s + (b - a) * s;
  }

  /** One more step of the induction variable. */
  lemma {:induction false} IndNext(loop: Loop, k: nat)
    ensures IndAt(loop, k + 1) ==
            if loop.start > loop.end then IndAt(loop, k) - loop.step else IndAt(loop, k) + loop.step
  {
    assert (k + 1) * loop.step == k * loop.step + loop.step;
  }

  /** Trip `k` is made. */
  predicate Going(loop: Loop, k: nat) {
    InBounds(loop, IndAt(loop, k))
  }

  /** All trips before trip `k` are made. */
  predicate Reached(loop: Loop, k: nat) {
    k == 0 || Going(loop, k - 1)
  }

  lemma {:induction false} ReachedBefore(loop: Loop, k: nat)
    requires k > 0 && Reached(loop, k)
    ensures Reached(loop, k - 1) && Going(loop, k - 1)
  {
    if k > 1 {
      IndNext(loop, k - 2);
    }
  }

  lemma {:induction false} TripsUp(start: nat, end: nat, s: nat, k: nat)
    requires s > 0 && start <= end
    ensures start + k * s < end <==> k < (end - start + s - 1) / s
  {
    var d := end - start + s - 1;
    DivBounds(d, s);
    if k < d / s {
      MulMono(k + 1, d / s, s);
      assert (k + 1) * s == k * s + s;
    } else {
      MulMono(d / s, k, s);
    }
  }

  lemma {:induction false} TripsDown(start: nat, end: nat, s: nat, k: nat)
    requires s > 0 && start > end
    ensures start - k * s >= end <==> k < (start - end) / s + 1
  {
    var d := start - end;
    DivBounds(d, s);
    if k < d / s + 1 {
      MulMono(k, d / s, s);
    } else {
      MulMono(d / s + 1, k, s);
      assert (d / s + 1) * s == d / s * s + s;
    }
  }

  /** The bound test holds before each of the trips and fails from then on. */
  lemma {:induction false} TripsExact(loop: Loop, k: nat)
    requires loop.step > 0
    ensures Going(loop, k) <==> k < Trips(loop)
  {
    if loop.start > loop.end {
      TripsDown(loop.start, loop.end, loop.step, k);
    } else {
      TripsUp(loop.start, loop.end, loop.step, k);
    }
  }

  lemma {:induction false} ReachedRange(loop: Loop, k: nat)
    requires Reached(loop, k)
    ensures -TWO_32 < IndAt(loop, k) < TWO_32 + TWO_32
  {
    if k > 0 {
      IndNext(loop, k - 1);
      if k > 1 {
        assert 0 <= (k - 1) * loop.step;
      }
    }
  }

  /** On the values a run goes through, the signed 64-bit test is the mathematical one and the
      wrapping step is the mathematical one. */
  lemma {:induction false} TestIsExact(loop: Loop, x: int)
    requires -TWO_32 < x < TWO_32 + TWO_32
    ensures ToSigned(Bits(x)) == x
    ensures Compare(if Direction(loop.start, loop.end).Decreasing? then Sge else Slt, Bits(x), loop.end)
            <==> InBounds(loop, x)
  {
    assert Bits(x) == if x >= 0 then x else x + TWO_64;
  }

  lemma {:induction false} StepIsExact(loop: Loop, k: nat)
    requires Reached(loop, k)
    ensures Bits(IndAt(loop, k + 1)) ==
            if Direction(loop.start, loop.end).Decreasing? then Bits(Bits(IndAt(loop, k)) - loop.step)
            else Bits(Bits(IndAt(loop, k)) + loop.step)
  {
    var x := IndAt(loop, k);
    IndNext(loop, k);
    ReachedRange(loop, k);
    assert Bits(x) == if x >= 0 then x else x + TWO_64;
  }

  // ----- runs -----

  ghost predicate HasLoop(cfg: Cfg, loop: Loop) {
    && loop.hdr < |cfg| && cfg[loop.hdr] == loop.HeaderBlock()
    && loop.latch < |cfg| && cfg[loop.latch] == loop.LatchBlock()
    && loop.exit < |cfg| && cfg[loop.exit] == loop.ExitBlock()
    && loop.preheader != loop.latch && loop.hdr != loop.latch
  }

  /** The results the loop's own blocks compute. */
  ghost predicate IsControl(loop: Loop, o: Operand) {
    o == Inst(loop.hdr, 0) || o == Inst(loop.hdr, 1) || o == Inst(loop.latch, 0)
  }

  /** The two states agree on everything but the results of the loop's own blocks. */
  ghost predicate SameBut(loop: Loop, a: State, b: State) {
    && a.mem == b.mem && a.log == b.log
    && forall o :: !IsControl(loop, o) ==>
                     (o in a.env <==> o in b.env) && (o in a.env ==> a.env[o] == b.env[o])
  }

  ghost predicate IndIs(loop: Loop, st: State, k: nat) {
    loop.Ind() in st.env && st.env[loop.Ind()] == VInt(Bits(IndAt(loop, k)))
  }

  type Invariant = (nat, State) -> bool

  /** `inv` does not depend on the results of the loop's own blocks. */
  ghost predicate Stable(loop: Loop, inv: Invariant) {
    forall k, a, b :: inv(k, a) && SameBut(loop, a, b) ==> inv(k, b)
  }

  /** The body, entered on trip `k` in `st`, reaches the latch after `n` blocks, leaves the
      induction variable alone and establishes the invariant of the next trip. */
  ghost predicate BodyReturns(cfg: Cfg, w: World, loop: Loop, inv: Invariant, n: nat, k: nat, st: State) {
    exists prev, st' :: BodyReturnsIn(cfg, w, loop, inv, n, k, st, prev, st')
  }

  ghost predicate BodyReturnsIn(cfg: Cfg, w: World, loop: Loop, inv: Invariant, n: nat, k: nat, st: State,
                                prev: Label, st': State) {
    Steps(cfg, w, At(loop.entry, loop.hdr, st), n) == At(loop.latch, prev, st')
    && IndIs(loop, st', k) && inv(k + 1, st')
  }

  /** Block visits from the first arrival at the header to the one that starts trip `k`, when the
      body takes `len(i)` blocks on trip `i`. */
  function Visits(len: nat -> nat, k: nat): nat {
    if k == 0 then 0 else Visits(len, k - 1) + len(k - 1) + 2
  }

  /** Control has just arrived at the header with `k` trips done. */
  ghost predicate Arrived(loop: Loop, c: Config, k: nat) {
    && c.At? && c.block == loop.hdr
    && (k == 0 ==> c.prev == loop.preheader)
    && (k > 0 ==> c.prev == loop.latch && Inst(loop.latch, 0) in c.st.env
                  && c.st.env[Inst(loop.latch, 0)] == VInt(Bits(IndAt(loop, k))))
  }

  /** ... and in the invariant. */
  ghost predicate ArrivedIn(loop: Loop, inv: Invariant, c: Config, k: nat) {
    Arrived(loop, c, k) && inv(k, c.st)
  }

  /** The state after the header, entered with `k` trips done. */
  function HeaderState(loop: Loop, st: State, k: nat): State {
    var x := Bits(IndAt(loop, k));
    Define(Define(st, Inst(loop.hdr, 0), VInt(x)), Inst(loop.hdr, 1), VBool(Going(loop, k)))
  }

  lemma {:induction false} HeaderStep(cfg: Cfg, w: World, loop: Loop, c: Config, k: nat)
    requires HasLoop(cfg, loop) && Arrived(loop, c, k) && Reached(loop, k)
    ensures Step(cfg, w, c) ==
            At(if Going(loop, k) then loop.entry else loop.exit, loop.hdr, HeaderState(loop, c.st, k))
    ensures SameBut(loop, c.st, HeaderState(loop, c.st, k))
    ensures IndIs(loop, HeaderState(loop, c.st, k), k)
  {
    var b := loop.HeaderBlock();
    var x := Bits(IndAt(loop, k));
    ReachedRange(loop, k);
    TestIsExact(loop, IndAt(loop, k));
    var incoming := b[0].incoming;
    assert incoming[1..] == [incoming[1]];
    assert PhiValue(incoming, c.prev) == [if k == 0 then Const(loop.start) else Inst(loop.latch, 0)];
    var st1 := Define(c.st, Inst(loop.hdr, 0), VInt(x));
    assert Execute(b[0], Inst(loop.hdr, 0), c.prev, c.st, w) == Ok(st1);
    var st2 := HeaderState(loop, c.st, k);
    assert Execute(b[1], Inst(loop.hdr, 1), c.prev, st1, w) == Ok(st2);
    assert Exec(b, loop.hdr, 2, c.prev, st2, w) == Branch(b[2], loop.hdr, st2);
    assert Exec(b, loop.hdr, 1, c.prev, st1, w) == Branch(b[2], loop.hdr, st2);
  }

  function LatchState(loop: Loop, st: State, k: nat): State {
    Define(st, Inst(loop.latch, 0), VInt(Bits(IndAt(loop, k + 1))))
  }

  lemma {:induction false} LatchStep(cfg: Cfg, w: World, loop: Loop, prev: Label, st: State, k: nat)
    requires HasLoop(cfg, loop) && IndIs(loop, st, k) && Reached(loop, k)
    ensures Step(cfg, w, At(loop.latch, prev, st)) == At(loop.hdr, loop.latch, LatchState(loop, st, k))
    ensures SameBut(loop, st, LatchState(loop, st, k))
    ensures Arrived(loop, At(loop.hdr, loop.latch, LatchState(loop, st, k)), k + 1)
  {
    var b := loop.LatchBlock();
    StepIsExact(loop, k);
    var st1 := LatchState(loop, st, k);
    assert Execute(b[0], Inst(loop.latch, 0), prev, st, w) == Ok(st1);
    assert Exec(b, loop.latch, 1, prev, st1, w) == Branch(b[1], loop.latch, st1);
  }

  lemma {:induction false} ExitStep(cfg: Cfg, w: World, loop: Loop, prev: Label, st: State)
    requires HasLoop(cfg, loop)
    ensures Step(cfg, w, At(loop.exit, prev, st)) == At(loop.postexit, loop.exit, st)
  {
    assert Exec(loop.ExitBlock(), loop.exit, 0, prev, st, w) == Branch(Br(loop.postexit), loop.exit, st);
  }

  /** The header, entered in the invariant, hands it to the body or to the exit. */
  lemma {:induction false} HeaderKeeps(cfg: Cfg, w: World, loop: Loop, inv: Invariant, c: Config, k: nat)
    requires HasLoop(cfg, loop) && Stable(loop, inv)
    requires ArrivedIn(loop, inv, c, k) && Reached(loop, k)
    ensures Steps(cfg, w, c, 1) ==
            At(if Going(loop, k) then loop.entry else loop.exit, loop.hdr, HeaderState(loop, c.st, k))
    ensures IndIs(loop, HeaderState(loop, c.st, k), k) && inv(k, HeaderState(loop, c.st, k))
  {
    HeaderStep(cfg, w, loop, c, k);
    assert Steps(cfg, w, c, 0) == c;
  }

  /** One whole trip: header, body, latch. */
  lemma {:induction false} OneTrip(cfg: Cfg, w: World, loop: Loop, inv: Invariant, n: nat, c: Config, k: nat)
    requires HasLoop(cfg, loop) && Stable(loop, inv)
    requires ArrivedIn(loop, inv, c, k) && Reached(loop, k) && Going(loop, k)
    requires IndIs(loop, HeaderState(loop, c.st, k), k) && inv(k, HeaderState(loop, c.st, k)) ==>
               BodyReturns(cfg, w, loop, inv, n, k, HeaderState(loop, c.st, k))
    ensures ArrivedIn(loop, inv, Steps(cfg, w, c, n + 2), k + 1)
  {
    hide Step, HasLoop, IndAt, LatchState, Going;
    HeaderKeeps(cfg, w, loop, inv, c, k);
    var st := HeaderState(loop, c.st, k);
    var prev, st' :| BodyReturnsIn(cfg, w, loop, inv, n, k, st, prev, st');
    LatchStep(cfg, w, loop, prev, st', k);
    StepsAdd(cfg, w, c, 1, n);
    assert Steps(cfg, w, c, n + 2) == Step(cfg, w, Steps(cfg, w, c, n + 1));
    assert inv(k + 1, LatchState(loop, st', k));
  }

  /** Every trip, entered in the invariant with the right induction variable, returns; trip `k`
      takes the body `len(k)` blocks. */
  ghost predicate BodyAlwaysReturns(cfg: Cfg, w: World, loop: Loop, inv: Invariant, len: nat -> nat) {
    forall k: nat, st :: Going(loop, k) && IndIs(loop, st, k) && inv(k, st) ==>
                           BodyReturns(cfg, w, loop, inv, len(k), k, st)
  }

  /** Control comes back to the header after each trip, in the invariant. */
  lemma {:induction false} LoopArrives(cfg: Cfg, w: World, loop: Loop, inv: Invariant, len: nat -> nat, c: Config,
                                       k: nat)
    requires HasLoop(cfg, loop) && Stable(loop, inv)
    requires ArrivedIn(loop, inv, c, 0)
    requires BodyAlwaysReturns(cfg, w, loop, inv, len)
    requires Reached(loop, k)
    ensures ArrivedIn(loop, inv, Steps(cfg, w, c, Visits(len, k)), k)
    decreases k
  {
    hide Step, HasLoop, Stable, Arrived, IndAt, SameBut;
    if k > 0 {
      ReachedBefore(loop, k);
      LoopArrives(cfg, w, loop, inv, len, c, k - 1);
      var d := Steps(cfg, w, c, Visits(len, k - 1));
      OneTrip(cfg, w, loop, inv, len(k - 1), d, k - 1);
      StepsAdd(cfg, w, c, Visits(len, k - 1), len(k - 1) + 2);
    }
  }

  /** Trip `k` is being started: control enters the body with the trip's induction variable. */
  ghost predicate Enters(loop: Loop, inv: Invariant, c: Config, k: nat) {
    c.At? && c.block == loop.entry && IndIs(loop, c.st, k) && inv(k, c.st)
  }

  /** Each trip enters the body with exactly its value of the induction variable. */
  lemma {:induction false} LoopEnters(cfg: Cfg, w: World, loop: Loop, inv: Invariant, len: nat -> nat, c: Config,
                                      k: nat)
    requires HasLoop(cfg, loop) && Stable(loop, inv)
    requires ArrivedIn(loop, inv, c, 0)
    requires BodyAlwaysReturns(cfg, w, loop, inv, len)
    requires Reached(loop, k) && Going(loop, k)
    ensures Enters(loop, inv, Steps(cfg, w, c, Visits(len, k) + 1), k)
  {
    LoopArrives(cfg, w, loop, inv, len, c, k);
    HeaderKeeps(cfg, w, loop, inv, Steps(cfg, w, c, Visits(len, k)), k);
    StepsAdd(cfg, w, c, Visits(len, k), 1);
  }

  /** The loop theorem.  For all bounds and every positive step there are exactly `Trips(loop)`
      trips, each entering the body with its value of the induction variable, and then control
      leaves through the exit block to the block behind the loop. */
  lemma {:induction false} LoopRunsExactly(cfg: Cfg, w: World, loop: Loop, inv: Invariant, len: nat -> nat, c: Config)
    returns (st: State)
    requires HasLoop(cfg, loop) && Stable(loop, inv) && loop.step > 0
    requires ArrivedIn(loop, inv, c, 0)
    requires BodyAlwaysReturns(cfg, w, loop, inv, len)
    ensures forall k: nat | k < Trips(loop) :: Enters(loop, inv, Steps(cfg, w, c, Visits(len, k) + 1), k)
    ensures Steps(cfg, w, c, Visits(len, Trips(loop)) + 2) == At(loop.postexit, loop.exit, st)
    ensures inv(Trips(loop), st)
  {
    hide Step, HasLoop, Stable, Arrived, IndAt, Trips, Enters;
    var n := Trips(loop);
    forall k: nat | k < n
      ensures Enters(loop, inv, Steps(cfg, w, c, Visits(len, k) + 1), k)
    {
      TripsExact(loop, k);
      if k > 0 {
        TripsExact(loop, k - 1);
      }
      LoopEnters(cfg, w, loop, inv, len, c, k);
    }
    st := LoopLeaves(cfg, w, loop, inv, len, c);
  }

  lemma {:induction false} LoopLeaves(cfg: Cfg, w: World, loop: Loop, inv: Invariant, len: nat -> nat, c: Config)
    returns (st: State)
    requires HasLoop(cfg, loop) && Stable(loop, inv) && loop.step > 0
    requires ArrivedIn(loop, inv, c, 0)
    requires BodyAlwaysReturns(cfg, w, loop, inv, len)
    ensures Steps(cfg, w, c, Visits(len, Trips(loop)) + 2) == At(loop.postexit, loop.exit, st)
    ensures inv(Trips(loop), st)
  {
    hide Step, HasLoop, Stable, IndAt, SameBut, Trips;
    var n := Trips(loop);
    TripsExact(loop, n);
    if n > 0 {
      TripsExact(loop, n - 1);
    }
    LoopArrives(cfg, w, loop, inv, len, c, n);
    var d := Steps(cfg, w, c, Visits(len, n));
    HeaderKeeps(cfg, w, loop, inv, d, n);
    st := HeaderState(loop, d.st, n);
    StepsAdd(cfg, w, c, Visits(len, n), 1);
    ExitStep(cfg, w, loop, loop.hdr, st);
    assert Steps(cfg, w, c, Visits(len, n) + 2) == Step(cfg, w, Steps(cfg, w, c, Visits(len, n) + 1));
  }

  /** With step zero and a first trip to make, the loop starts trip after trip: */
  lemma {:induction false} ZeroStepEnters(cfg: Cfg, w: World, loop: Loop, inv: Invariant, len: nat -> nat, c: Config,
                                          k: nat)
    requires HasLoop(cfg, loop) && Stable(loop, inv) && loop.step == 0 && loop.start != loop.end
    requires ArrivedIn(loop, inv, c, 0)
    requires BodyAlwaysReturns(cfg, w, loop, inv, len)
    ensures Enters(loop, inv, Steps(cfg, w, c, Visits(len, k) + 1), k)
  {
    assert k * loop.step == 0;
    if k > 0 {
      assert (k - 1) * loop.step == 0;
    }
    LoopEnters(cfg, w, loop, inv, len, c, k);
  }

  /** ... so it never ends. */
  lemma {:induction false} ZeroStepDiverges(cfg: Cfg, w: World, loop: Loop, inv: Invariant, len: nat -> nat, c: Config,
                                            n: nat)
    requires HasLoop(cfg, loop) && Stable(loop, inv) && loop.step == 0 && loop.start != loop.end
    requires ArrivedIn(loop, inv, c, 0)
    requires BodyAlwaysReturns(cfg, w, loop, inv, len)
    ensures Steps(cfg, w, c, n).At?
  {
    ZeroStepEnters(cfg, w, loop, inv, len, c, n);
    VisitsGrow(len, n);
    var m := Visits(len, n) + 1;
    StillRunning(cfg, w, c, n, m);
  }

  lemma {:induction false} VisitsGrow(len: nat -> nat, k: nat)
    ensures Visits(len, k) >= 2 * k
  {
    if k > 0 {
      VisitsGrow(len, k - 1);
    }
  }
}
