/** How a loop and a later call fit around body blocks, for any list of them. */
module LoopWiring {
  import opened IR
  import opened LoopBuilding
  import opened Semantics
  import opened LoopRuns
  import opened HarnessLayout
  import opened BuildSteps
  import opened WellFormed
  import opened CallCounts

  /** A loop built around the blocks `body` of a function, and a call created in block `l` after. */
  datatype Wiring = Wiring(bs: Cfg, body: seq<Label>, pre: Label, post: Label,
                           start: uint32, end: uint32, step: uint32, l: Label, vals: seq<ArgValue>)
  {
    predicate Valid() {
      pre < |bs| && l in body && forall x | x in body :: x < |bs|
    }

    function TheLoop(): Loop
      requires Valid()
    {
      NewLoop(bs, body, pre, post, start, end, step)
    }

    function Looped(): Cfg
      requires Valid()
    {
      WithLoop(bs, body, pre, post, start, end, step)
    }

    function Built(): (r: Cfg)
      requires Valid()
      ensures |r| == |bs| + 3
    {
      WithCall(Looped(), l, vals)
    }

    /** What block `l` held in front of its terminator, if it had one. */
    function Kept(): Block
      requires Valid()
    {
      if Terminated(bs[l]) then bs[l][..|bs[l]| - 1] else bs[l]
    }
  }

  /** The loop that was built is a loop the loop theorem speaks about, and stays one. */
  lemma {:induction false} CreatedLoopIsLoop(u: Wiring)
    requires u.Valid()
    ensures HasLoop(u.Looped(), u.TheLoop()) && HasLoop(u.Built(), u.TheLoop())
  {
    hide Loop.HeaderBlock, Loop.LatchBlock, Loop.ExitBlock, CallInstrs;
  }

  /** Repeating and reordering body blocks changes nothing but the block the header enters. */
  lemma {:induction false} WiringIgnoresOrder(bs: Cfg, body: seq<Label>, other: seq<Label>, latch: Label)
    requires forall l :: l in body <==> l in other
    ensures Wired(bs, body, latch) == Wired(bs, other, latch)
  {
  }

  /** Where the call stands.  In a body block other than the preheader: in front of exactly one
      terminator, the block's own or else the branch to the latch, and behind all the block held.
      In a preheader that is itself listed in the body: behind the branch to the latch, or whatever
      terminator the preheader had, and in front of the branch to the header. */
  lemma {:induction false} CallInBody(u: Wiring)
    requires u.Valid()
    ensures u.l != u.pre ==>
              u.Built()[u.l] == u.Kept() + CallInstrs(u.vals, u.l, |u.Kept()|)
                                + [if Terminated(u.bs[u.l]) then u.bs[u.l][|u.Kept()|] else Br(u.TheLoop().latch)]
    ensures u.l == u.pre ==>
              var wired := Wired(u.bs, u.body, u.TheLoop().latch)[u.l];
              Terminated(wired) && u.Built()[u.l] == wired + CallInstrs(u.vals, u.l, |wired|) + [Br(u.TheLoop().hdr)]
  {
    hide CallInstrs;
    var looped := u.Looped()[u.l];
    assert Terminated(looped);
    var n := |looped| - 1;
    assert looped[n..] == [looped[n]];
    if u.l == u.pre {
      assert looped[..n] == Wired(u.bs, u.body, u.TheLoop().latch)[u.l];
    } else {
      assert n == |u.Kept()| && looped[..n] == u.Kept();
    }
  }

  lemma {:induction false} CallsInEnded(b: Block, t: Instr)
    requires IsTerminator(t)
    ensures CallsIn(b + [t]) == CallsIn(b)
  {
    CallsInJoin(b, [t]);
  }

  /** A visit of block `l` makes one call more than before if and only if the block is not the
      preheader and had no terminator but a last one; no other block makes a call more or less. */
  lemma {:induction false} CallReachedIff(u: Wiring)
    requires u.Valid()
    ensures CallsIn(u.Built()[u.l]) == CallsIn(u.bs[u.l]) + if u.l != u.pre && NoTerminator(u.Kept()) then 1 else 0
    ensures forall x | 0 <= x < |u.bs| && x != u.l :: CallsIn(u.Built()[x]) == CallsIn(u.bs[x])
    ensures forall x | |u.bs| <= x < |u.Built()| :: CallsIn(u.Built()[x]) == 0
  {
    BodyBlockCalls(u);
    forall x | 0 <= x < |u.bs| && x != u.l
      ensures CallsIn(u.Built()[x]) == CallsIn(u.bs[x])
    {
      OtherBlockCalls(u, x);
    }
    ControlBlocksCallNothing(u);
  }

  lemma {:induction false} BodyBlockCalls(u: Wiring)
    requires u.Valid()
    ensures CallsIn(u.Built()[u.l]) == CallsIn(u.bs[u.l]) + if u.l != u.pre && NoTerminator(u.Kept()) then 1 else 0
  {
    hide CallInstrs, CallsIn;
    CallInBody(u);
    if u.l == u.pre {
      var wired := Wired(u.bs, u.body, u.TheLoop().latch)[u.l];
      CallsInEnded(u.bs[u.l], Br(u.TheLoop().latch));
      CallsInJoin(wired, CallInstrs(u.vals, u.l, |wired|));
      CallsInEnded(wired + CallInstrs(u.vals, u.l, |wired|), Br(u.TheLoop().hdr));
    } else {
      var kept, call := u.Kept(), CallInstrs(u.vals, u.l, |u.Kept()|);
      var t := if Terminated(u.bs[u.l]) then u.bs[u.l][|kept|] else Br(u.TheLoop().latch);
      CallInstrsCallOnce(u.vals, u.l, |kept|);
      CallsInJoin(kept, call);
      CallsInEnded(kept + call, t);
      if Terminated(u.bs[u.l]) {
        assert u.bs[u.l] == kept + [t];
        CallsInEnded(kept, t);
      }
    }
  }

  lemma {:induction false} OtherBlockCalls(u: Wiring, x: Label)
    requires u.Valid() && x < |u.bs| && x != u.l
    ensures CallsIn(u.Built()[x]) == CallsIn(u.bs[x])
  {
    hide CallInstrs, CallsIn;
    var loop := u.TheLoop();
    var wired := Wired(u.bs, u.body, loop.latch)[x];
    CallsInEnded(u.bs[x], Br(loop.latch));
    CallsInEnded(wired, Br(loop.hdr));
  }

  lemma {:induction false} ControlBlocksCallNothing(u: Wiring)
    requires u.Valid()
    ensures forall x | |u.bs| <= x < |u.Built()| :: CallsIn(u.Built()[x]) == 0
  {
    hide CallInstrs;
    var loop := u.TheLoop();
    CreatedLoopIsLoop(u);
    NothingCalled(loop.HeaderBlock());
    NothingCalled(loop.LatchBlock());
    NothingCalled(loop.ExitBlock());
  }

  // ----- calls of a whole loop -----

  /** Every trip that comes through the loop visits block `l` once. */
  ghost predicate VisitedOnce(cfg: Cfg, w: World, loop: Loop, inv: Invariant, len: nat -> nat, l: Label) {
    forall k: nat, st :: Going(loop, k) && IndIs(loop, st, k) && inv(k, st) ==>
                           VisitsTo(cfg, w, At(loop.entry, loop.hdr, st), len(k), l) == 1
  }

  /** As is the case for the block the header enters, when it goes straight to the latch. */
  lemma {:induction false} EntryVisitedOnce(cfg: Cfg, w: World, loop: Loop, inv: Invariant, len: nat -> nat)
    requires forall k :: len(k) == 1
    ensures VisitedOnce(cfg, w, loop, inv, len, loop.entry)
  {
    forall k: nat, st
      ensures VisitsTo(cfg, w, At(loop.entry, loop.hdr, st), len(k), loop.entry) == 1
    {
      var c := At(loop.entry, loop.hdr, st);
      assert Steps(cfg, w, c, 0) == c && VisitsTo(cfg, w, c, 0, loop.entry) == 0;
    }
  }

  /** What a loop needs to run as the loop theorem says, and its trips to come through block `l`. */
  ghost predicate Runs(cfg: Cfg, w: World, loop: Loop, inv: Invariant, len: nat -> nat, l: Label, c: Config) {
    && HasLoop(cfg, loop) && Stable(loop, inv) && loop.step > 0 && ArrivedIn(loop, inv, c, 0)
    && BodyAlwaysReturns(cfg, w, loop, inv, len) && VisitedOnce(cfg, w, loop, inv, len, l)
    && l != loop.hdr && l != loop.latch && l != loop.exit
  }

  /** One trip: a visit of the header, one of `l` in the body, a visit of the latch. */
  lemma {:induction false} TripVisits(cfg: Cfg, w: World, loop: Loop, inv: Invariant, len: nat -> nat, l: Label,
                                      c: Config, d: Config, k: nat)
    requires Runs(cfg, w, loop, inv, len, l, c)
    requires ArrivedIn(loop, inv, d, k) && Reached(loop, k) && Going(loop, k)
    ensures VisitsTo(cfg, w, d, len(k) + 2, l) == 1
  {
    hide Step, HasLoop, Stable, IndAt, Going, HeaderState, Trips;
    HeaderKeeps(cfg, w, loop, inv, d, k);
    var st := HeaderState(loop, d.st, k);
    assert BodyReturns(cfg, w, loop, inv, len(k), k, st);
    var prev, st' :| BodyReturnsIn(cfg, w, loop, inv, len(k), k, st, prev, st');
    assert Steps(cfg, w, d, 0) == d;
    assert VisitsTo(cfg, w, d, 1, l) == 0;
    VisitsAdd(cfg, w, d, 1, len(k), l);
    StepsAdd(cfg, w, d, 1, len(k));
  }

  /** All trips before trip `k`. */
  lemma {:induction false} TripsVisits(cfg: Cfg, w: World, loop: Loop, inv: Invariant, len: nat -> nat, l: Label,
                                       c: Config, k: nat)
    requires Runs(cfg, w, loop, inv, len, l, c) && Reached(loop, k)
    ensures ArrivedIn(loop, inv, Steps(cfg, w, c, Visits(len, k)), k)
    ensures VisitsTo(cfg, w, c, Visits(len, k), l) == k
    decreases k
  {
    hide Step, HasLoop, Stable, Arrived, Trips, VisitedOnce;
    LoopArrives(cfg, w, loop, inv, len, c, k);
    if k > 0 {
      ReachedBefore(loop, k);
      TripsVisits(cfg, w, loop, inv, len, l, c, k - 1);
      var n := Visits(len, k - 1);
      TripVisits(cfg, w, loop, inv, len, l, c, Steps(cfg, w, c, n), k - 1);
      VisitsAdd(cfg, w, c, n, len(k - 1) + 2, l);
    }
  }

  /** A call created in a body block of a function that makes no other calls is made exactly once
      for each trip: `k` calls by the time trip `k` starts, and as many as the loop makes trips when
      it is left. */
  lemma {:induction false} OneCallPerTrip(u: Wiring, w: World, inv: Invariant, len: nat -> nat, c: Config)
    returns (st: State)
    requires u.Valid() && u.step > 0 && u.l != u.pre && NoTerminator(u.Kept())
    requires forall x | 0 <= x < |u.bs| :: CallsIn(u.bs[x]) == 0
    requires Stable(u.TheLoop(), inv) && ArrivedIn(u.TheLoop(), inv, c, 0)
    requires BodyAlwaysReturns(u.Built(), w, u.TheLoop(), inv, len)
    requires VisitedOnce(u.Built(), w, u.TheLoop(), inv, len, u.l)
    ensures forall k: nat | k <= Trips(u.TheLoop()) ::
              var d := Steps(u.Built(), w, c, Visits(len, k));
              In(d, u.TheLoop().hdr) && Calls(d.st.log) == Calls(c.st.log) + k
    ensures forall k: nat | k < Trips(u.TheLoop()) ::
              In(Steps(u.Built(), w, c, Visits(len, k) + 1), u.body[0])
    ensures Steps(u.Built(), w, c, Visits(len, Trips(u.TheLoop())) + 2) == At(u.post, u.TheLoop().exit, st)
    ensures Calls(st.log) == Calls(c.st.log) + Trips(u.TheLoop())
  {
    hide Wiring.Built, HasLoop, Stable, Trips, Steps, Visits, Calls, CallsIn, VisitedOnce, BodyAlwaysReturns, IndAt;
    var cfg, loop, l := u.Built(), u.TheLoop(), u.l;
    CreatedLoopIsLoop(u);
    CallReachedIff(u);
    assert OnlyCaller(cfg, l);
    var n := Trips(loop);
    forall k: nat | k <= n
      ensures In(Steps(cfg, w, c, Visits(len, k)), loop.hdr)
      ensures Calls(Steps(cfg, w, c, Visits(len, k)).st.log) == Calls(c.st.log) + k
    {
      TripsReached(loop, k);
      TripsVisits(cfg, w, loop, inv, len, l, c, k);
      CallsAreVisits(cfg, w, c, Visits(len, k), l);
    }
    st := LoopRunsExactly(cfg, w, loop, inv, len, c);
    TripsReached(loop, n);
    LastVisits(cfg, w, loop, inv, len, l, c);
    CallsAreVisits(cfg, w, c, Visits(len, n) + 2, l);
  }

  lemma {:induction false} TripsReached(loop: Loop, k: nat)
    requires loop.step > 0 && k <= Trips(loop)
    ensures Reached(loop, k)
  {
    if k > 0 {
      TripsExact(loop, k - 1);
    }
  }

  /** The last visits, of header and exit, are none of block `l`. */
  lemma {:induction false} LastVisits(cfg: Cfg, w: World, loop: Loop, inv: Invariant, len: nat -> nat, l: Label,
                                      c: Config)
    requires Runs(cfg, w, loop, inv, len, l, c)
    ensures VisitsTo(cfg, w, c, Visits(len, Trips(loop)) + 2, l) == Trips(loop)
  {
    hide Step, HasLoop, Stable, IndAt, HeaderState, Trips, VisitedOnce;
    var n := Trips(loop);
    var d := Steps(cfg, w, c, Visits(len, n));
    TripsReached(loop, n);
    TripsExact(loop, n);
    TripsVisits(cfg, w, loop, inv, len, l, c, n);
    HeaderKeeps(cfg, w, loop, inv, d, n);
    assert Steps(cfg, w, d, 0) == d;
    assert VisitsTo(cfg, w, d, 1, l) == 0;
    VisitsAdd(cfg, w, c, Visits(len, n), 2, l);
  }
}
