/** What a harness does, said with nothing but the parameters, the specifications and the number of
    iterations it was asked for: how many blocks and regions there are, what they hold, which calls
    are made, and which bytes are compared.

    A parameter behind the end of the specifications counts as only inbound and iterator
    independent.  The regions of argument `i` start behind one region for each argument before it
    and a second one for each outbound argument before it.
  */
module HarnessPromises {
  import opened ArgSpecs
  import opened IR
  import opened HarnessLayout
  import opened HarnessAssembly
  import opened Semantics
  import opened HarnessSpec
  import opened HarnessMemory
  import opened RunSetup
  import opened RunDeclare
  import opened HarnessRuns
  import opened HarnessMeaning
  import opened Commutativity
  import opened Precision
  import opened RunTeardown

  /** The harness asked for stands in the function, from block `base` on. */
  ghost predicate Stands(cfg: Cfg, params: seq<ParamType>, specs: seq<ArgSpec>, iters: uint32, base: Label)
    requires |params| > 0
  {
    var bs := JobFor(params, specs, iters, base).Blocks();
    base + |bs| <= |cfg| && cfg[base..base + |bs|] == bs
  }

  lemma {:induction false} StandsEmbedded(cfg: Cfg, params: seq<ParamType>, specs: seq<ArgSpec>, iters: uint32,
                                          base: Label)
    requires |params| > 0 && params[0].I64? && iters >= 2
    requires forall i | 0 <= i < |params| :: 0 < params[i].TypeSize() < TWO_64
    requires Stands(cfg, params, specs, iters, base)
    ensures Embedded(cfg, JobFor(params, specs, iters, base))
  {
    hide Job.BlockAt;
    var j := JobFor(params, specs, iters, base);
    assert j.Valid();
    forall x | 0 <= x < j.Size()
      ensures cfg[j.base + x] == j.BlockAt(x)
    {
      assert cfg[base..base + |j.Blocks()|][x] == j.Blocks()[x];
    }
  }

  // ----- regions -----

  lemma {:induction false} CountStep(specs: seq<ArgSpec>, m: nat)
    ensures |set k | 0 <= k < m + 1 && k < |specs| && IsOutbound(specs[k].direction)| ==
            |set k | 0 <= k < m && k < |specs| && IsOutbound(specs[k].direction)|
            + if m < |specs| && IsOutbound(specs[m].direction) then 1 else 0
  {
    var now := set k | 0 <= k < m + 1 && k < |specs| && IsOutbound(specs[k].direction);
    var before := set k | 0 <= k < m && k < |specs| && IsOutbound(specs[k].direction);
    assert now == if m < |specs| && IsOutbound(specs[m].direction) then before + {m} else before;
  }

  /** Where the regions of an argument are. */
  lemma {:induction false} RegionsAsked(params: seq<ParamType>, specs: seq<ArgSpec>, iters: uint32, base: Label, m: nat)
    requires m <= |params|
    ensures JobFor(params, specs, iters, base).R1(m) ==
            m + |set k | 0 <= k < m && k < |specs| && IsOutbound(specs[k].direction)|
    decreases m
  {
    var before := set k | 0 <= k < m && k < |specs| && IsOutbound(specs[k].direction);
    if m == 0 {
      assert before == {};
    } else {
      RegionsAsked(params, specs, iters, base, m - 1);
      ArgAsked(params, specs, iters, base, m - 1);
      CountStep(specs, m - 1);
    }
  }

  /** After two visits there is one region for each parameter and another for each that is specified
      outbound.  A buffer has room for one element, or for as many as there are iterations if it is
      specified iterator dependent; a 64-bit integer has 8 bytes.  What is not specified only
      outbound holds symbolic bytes, both copies the same; leftovers are kept otherwise. */
  lemma {:induction false} DataAsked(cfg: Cfg, params: seq<ParamType>, specs: seq<ArgSpec>, iters: uint32, base: Label,
                                     w: World, i: nat)
    returns (st: State)
    requires |params| > 0 && params[0].I64? && iters >= 2
    requires forall i | 0 <= i < |params| :: 0 < params[i].TypeSize() < TWO_64
    requires Stands(cfg, params, specs, iters, base) && i < |params|
    ensures var c := Steps(cfg, w, At(base, base, ENTRY_STATE), 2); c.At? && c.st == st
    ensures |st.mem| == |params| + |set k | 0 <= k < |params| && k < |specs| && IsOutbound(specs[k].direction)|
    ensures var r := i + |set k | 0 <= k < i && k < |specs| && IsOutbound(specs[k].direction)|;
            var copies := if i < |specs| && IsOutbound(specs[i].direction) then 2 else 1;
            var n := match params[i]
                     case I64 => 8
                     case Scalar(size) => size
                     case Pointer(elemSize) =>
                       if i < |specs| && specs[i].iteratorDependent then (iters * elemSize) % 0x1_0000_0000_0000_0000
                       else elemSize;
            && r + copies <= |st.mem|
            && (forall x | r <= x < r + copies ::
                  st.mem[x].live && (st.mem[x].heap <==> params[i].Pointer?) && |st.mem[x].bytes| == n)
            && if i < |specs| && IsOnlyOutbound(specs[i].direction) then
                 forall x, q | r <= x < r + copies && 0 <= q < n :: st.mem[x].bytes[q] == w.junk(x, q)
               else
                 forall x, q | r <= x < r + copies && 0 <= q < n :: st.mem[x].bytes[q] == w.sym(r, q)
  {
    hide Stands, Embedded, Steps, JobFor, InSets, Job.R1, Job.R2, Arg.Size, Arg.Out, Arg.OnlyOut;
    var j := JobFor(params, specs, iters, base);
    StandsEmbedded(cfg, params, specs, iters, base);
    RegionsAsked(params, specs, iters, base, |params|);
    RegionsAsked(params, specs, iters, base, i);
    ArgAsked(params, specs, iters, base, i);
    st := DataPhase(cfg, j, w);
    SizeAsked(params, specs, iters, base, i);
    DataInMemory(j, w, st, i);
  }

  /** The initial sets as bytes in memory. */
  lemma {:induction false} DataInMemory(j: Job, w: World, st: State, i: nat)
    requires i < |j.args| && InSets(j, st, First(j, w), Second(j, w))
    ensures |st.mem| == j.R1(|j.args|)
    ensures var r, n := j.R1(i), j.args[i].Size(j.iters);
            var copies := if j.args[i].Out() then 2 else 1;
            && r + copies <= |st.mem|
            && (forall x | r <= x < r + copies ::
                  st.mem[x].live && (st.mem[x].heap <==> j.args[i].ty.Pointer?) && |st.mem[x].bytes| == n)
            && if j.args[i].OnlyOut() then
                 forall x, q | r <= x < r + copies && 0 <= q < n :: st.mem[x].bytes[q] == w.junk(x, q)
               else
                 forall x, q | r <= x < r + copies && 0 <= q < n :: st.mem[x].bytes[q] == w.sym(r, q)
  {
    hide Arg.Size;
    RegionInRange(j, i);
    assert HoldsAt(j, st.mem, First(j, w), Second(j, w), i);
    assert j.R2(i) == if j.args[i].Out() then j.R1(i) + 1 else j.R1(i);
  }

  /** Sizes of regions and comparisons. */
  lemma {:induction false} SizeAsked(params: seq<ParamType>, specs: seq<ArgSpec>, iters: uint32, base: Label, i: nat)
    requires i < |params| && iters >= 2 && 0 < params[i].TypeSize() < TWO_64
    ensures var j := JobFor(params, specs, iters, base);
            var many := i < |specs| && specs[i].iteratorDependent;
            match params[i]
            case I64 =>
              j.args[i].Size(iters) == 8 && j.args[i].CmpSize(iters) == if many then 8 * iters else 8
            case Scalar(size) =>
              && j.args[i].Size(iters) == size
              && j.args[i].CmpSize(iters) == if many then (iters * size) % 0x1_0000_0000_0000_0000 else size
            case Pointer(elemSize) =>
              && j.args[i].Size(iters) ==
                 (if many then (iters * elemSize) % 0x1_0000_0000_0000_0000 else elemSize)
              && j.args[i].CmpSize(iters) == if many then iters else 1
  {
    ArgAsked(params, specs, iters, base, i);
  }

  /** For elements of at most 4 GiB no size wraps: a buffer that is specified iterator dependent has
      room for an element for every iteration, its last byte included. */
  lemma {:induction false} ElementsAsked(cfg: Cfg, params: seq<ParamType>, specs: seq<ArgSpec>, iters: uint32,
                                         base: Label, w: World, i: nat)
    returns (st: State)
    requires |params| > 0 && params[0].I64? && iters >= 2
    requires forall i | 0 <= i < |params| :: 0 < params[i].TypeSize() < TWO_64
    requires Stands(cfg, params, specs, iters, base) && i < |params|
    requires params[i].Pointer? && params[i].elemSize <= 0x1_0000_0000
    requires i < |specs| && specs[i].iteratorDependent
    ensures var c := Steps(cfg, w, At(base, base, ENTRY_STATE), 2); c.At? && c.st == st
    ensures var r := i + |set k | 0 <= k < i && k < |specs| && IsOutbound(specs[k].direction)|;
            && r < |st.mem| && |st.mem[r].bytes| == iters * params[i].elemSize
            && 0 <= iters * params[i].elemSize - 1 < |st.mem[r].bytes|
  {
    hide Stands, Steps;
    st := DataAsked(cfg, params, specs, iters, base, w, i);
    SmallProducts(iters, params[i].elemSize);
    assert FoldMul(iters, params[i].elemSize) == (iters * params[i].elemSize) % 0x1_0000_0000_0000_0000;
  }

  // ----- calls -----

  /** When the comparisons start, after `6 * iters + 11` visits, the function has been called for the
      iterations from 0 up and then for the same iterations down again. */
  lemma {:induction false} CallsAsked(cfg: Cfg, params: seq<ParamType>, specs: seq<ArgSpec>, iters: uint32, base: Label,
                                      w: World)
    requires |params| > 0 && params[0].I64? && iters >= 2
    requires forall i | 0 <= i < |params| :: 0 < params[i].TypeSize() < TWO_64
    requires Stands(cfg, params, specs, iters, base)
    ensures var c := Steps(cfg, w, At(base, base, ENTRY_STATE), 6 * iters + 11);
            && c.At? && |CallsMade(c.st.log)| == 2 * iters
            && forall x | 0 <= x < 2 * iters :: CallsMade(c.st.log)[x] == if x < iters then x else 2 * iters - 1 - x
  {
    hide Stands, Embedded, Steps, CallsMade;
    var j := JobFor(params, specs, iters, base);
    StandsEmbedded(cfg, params, specs, iters, base);
    var st := SecondCallsPhase(cfg, j, w);
    CallsOfEvents(j);
  }

  lemma {:induction false} CallsOfEvents(j: Job)
    ensures CallsMade(EventsBefore(j)) == Up(j.iters) + Down(j.iters)
    ensures CallsMade(EventsBefore(j) + FreeEvents(j.HeapRegions(|j.args|))) == Up(j.iters) + Down(j.iters)
  {
    hide CallsMade, CallEvents, MallocEvents, FreeEvents, Up, Down;
    var rs := j.HeapRegions(|j.args|);
    CallsInEvents(Up(j.iters), rs);
    CallsInEvents(Down(j.iters), rs);
    CallsMadeAdd(MallocEvents(rs), CallEvents(Up(j.iters)));
    CallsMadeAdd(MallocEvents(rs) + CallEvents(Up(j.iters)), CallEvents(Down(j.iters)));
    CallsMadeAdd(EventsBefore(j), FreeEvents(rs));
  }

  /** A run that returns does so with 0, after `6 * iters + 14` visits and one more for each
      parameter specified outbound, and has made exactly those calls. */
  lemma {:induction false} ReturnAsked(cfg: Cfg, params: seq<ParamType>, specs: seq<ArgSpec>, iters: uint32,
                                       base: Label, w: World, n: nat, v: Value, st: State)
    requires |params| > 0 && params[0].I64? && iters >= 2
    requires forall i | 0 <= i < |params| :: 0 < params[i].TypeSize() < TWO_64
    requires Stands(cfg, params, specs, iters, base)
    requires EndsAfter(cfg, w, At(base, base, ENTRY_STATE), n, Returned(v, st))
    ensures v == VInt(0)
    ensures n == 6 * iters + 14 + |set k | 0 <= k < |params| && k < |specs| && IsOutbound(specs[k].direction)|
    ensures |CallsMade(st.log)| == 2 * iters
    ensures forall x | 0 <= x < 2 * iters :: CallsMade(st.log)[x] == if x < iters then x else 2 * iters - 1 - x
  {
    hide Stands, Embedded, Steps, CallsMade, VerdictFrom;
    var j := JobFor(params, specs, iters, base);
    StandsEmbedded(cfg, params, specs, iters, base);
    var st' := HarnessRun(cfg, j, w);
    OnlyEnd(cfg, j, w, st', n, Returned(v, st));
    EndIsUnique(cfg, w, Start(j), 6 * iters + 14 + j.Conds(), Returned(VInt(0), st'), n, Returned(v, st));
    CallsOfEvents(j);
    ChecksAsked(params, specs, iters, base);
  }

  /** ... and has freed exactly what it allocated, each region once, the last one first.  Those are
      the regions of buffers. */
  lemma {:induction false} HeapAsked(cfg: Cfg, params: seq<ParamType>, specs: seq<ArgSpec>, iters: uint32, base: Label,
                                     w: World, n: nat, v: Value, st: State)
    requires |params| > 0 && params[0].I64? && iters >= 2
    requires forall i | 0 <= i < |params| :: 0 < params[i].TypeSize() < TWO_64
    requires Stands(cfg, params, specs, iters, base)
    requires EndsAfter(cfg, w, At(base, base, ENTRY_STATE), n, Returned(v, st))
    ensures |Frees(st.log)| == |Mallocs(st.log)|
    ensures forall x | 0 <= x < |Mallocs(st.log)| :: Frees(st.log)[x] == Mallocs(st.log)[|Mallocs(st.log)| - 1 - x]
    ensures forall x, y | 0 <= x < y < |Mallocs(st.log)| :: Mallocs(st.log)[x] != Mallocs(st.log)[y]
    ensures forall r | 0 <= r < |st.mem| :: st.mem[r].heap <==> r in Mallocs(st.log)
    ensures forall r | 0 <= r < |st.mem| :: st.mem[r].live <==> !st.mem[r].heap
  {
    hide Stands, Embedded, Steps, VerdictFrom, Holds, Mallocs, Frees, FreeEvents;
    var j := JobFor(params, specs, iters, base);
    StandsEmbedded(cfg, params, specs, iters, base);
    var st' := HarnessRun(cfg, j, w);
    OnlyEnd(cfg, j, w, st', n, Returned(v, st));
    var a, b := Share(j, After2(j, w), After1(j, w)), After2(j, w);
    var mem: seq<Region> :| Holds(j, mem, a, b) && TornDown(mem, st);
    var rs := j.HeapRegions(|j.args|);
    LogOfHeap(j);
    FreedInReverse(rs);
    HeapRegionsSorted(j, |j.args|);
    forall r | 0 <= r < |mem|
      ensures mem[r].live && (mem[r].heap <==> r in rs)
    {
      HeapIsListed(j, mem, a, b, r);
    }
  }

  lemma {:induction false} LogOfHeap(j: Job)
    ensures var rs := j.HeapRegions(|j.args|);
            var log := EventsBefore(j) + FreeEvents(rs);
            Mallocs(log) == rs && Frees(log) == Frees(FreeEvents(rs))
  {
    hide CallEvents, MallocEvents, FreeEvents, Up, Down, Mallocs, Frees;
    var rs := j.HeapRegions(|j.args|);
    var up, down := CallEvents(Up(j.iters)), CallEvents(Down(j.iters));
    CallsLeaveHeap(Up(j.iters));
    CallsLeaveHeap(Down(j.iters));
    AllocatedInOrder(rs);
    FreedInReverse(rs);
    MallocsAdd(MallocEvents(rs), up);
    MallocsAdd(MallocEvents(rs) + up, down);
    MallocsAdd(EventsBefore(j), FreeEvents(rs));
    FreesAdd(MallocEvents(rs), up);
    FreesAdd(MallocEvents(rs) + up, down);
    FreesAdd(EventsBefore(j), FreeEvents(rs));
  }

  lemma {:induction false} ChecksAsked(params: seq<ParamType>, specs: seq<ArgSpec>, iters: uint32, base: Label)
    ensures JobFor(params, specs, iters, base).Conds() ==
            |set k | 0 <= k < |params| && k < |specs| && IsOutbound(specs[k].direction)|
  {
    var j := JobFor(params, specs, iters, base);
    OneCheckEach(j);
    forall i | 0 <= i < |params|
      ensures j.args[i].Out() <==> i < |specs| && IsOutbound(specs[i].direction)
    {
      ArgAsked(params, specs, iters, base, i);
    }
    assert j.Outbound() == set k | 0 <= k < |params| && k < |specs| && IsOutbound(specs[k].direction);
  }

  // ----- comparisons -----

  /** The run returns if and only if, when the comparisons start, the two regions of every parameter
      specified outbound agree: of a buffer one byte is compared, or as many as there are iterations
      if it is specified iterator dependent; of anything else its whole size, times the iterations
      in that case.  A parameter that is not specified outbound is not compared. */
  lemma {:induction false} VerdictAsked(cfg: Cfg, params: seq<ParamType>, specs: seq<ArgSpec>, iters: uint32,
                                        base: Label, w: World)
    returns (mem: seq<Region>)
    requires |params| > 0 && params[0].I64? && iters >= 2
    requires forall i | 0 <= i < |params| :: 0 < params[i].TypeSize() < TWO_64
    requires Stands(cfg, params, specs, iters, base)
    ensures var c := Steps(cfg, w, At(base, base, ENTRY_STATE), 6 * iters + 11); c.At? && c.st.mem == mem
    ensures (exists n: nat, v, st :: EndsAfter(cfg, w, At(base, base, ENTRY_STATE), n, Returned(v, st)))
            <==> forall i | 0 <= i < |params| && i < |specs| && IsOutbound(specs[i].direction) ::
                   var r := i + |set k | 0 <= k < i && k < |specs| && IsOutbound(specs[k].direction)|;
                   var n := match params[i]
                            case I64 => if specs[i].iteratorDependent then 8 * iters else 8
                            case Scalar(size) =>
                              if specs[i].iteratorDependent then (iters * size) % 0x1_0000_0000_0000_0000 else size
                            case Pointer(_) => if specs[i].iteratorDependent then iters else 1;
                   && r + 1 < |mem| && n <= |mem[r].bytes| && n <= |mem[r + 1].bytes|
                   && mem[r].bytes[..n] == mem[r + 1].bytes[..n]
  {
    hide Stands, Embedded, Steps, After1, After2, Passes, JobFor;
    var j := JobFor(params, specs, iters, base);
    StandsEmbedded(cfg, params, specs, iters, base);
    ArgAsked(params, specs, iters, base, 0);
    var st := SecondCallsPhase(cfg, j, w);
    mem := st.mem;
    ReturnsIff(cfg, j, w);
    forall i | 0 <= i < |params|
      ensures i < |j.args| && (j.args[i].Out() <==> i < |specs| && IsOutbound(specs[i].direction))
    {
      ArgAsked(params, specs, iters, base, i);
    }
    forall i | 0 <= i < |params| && i < |specs| && IsOutbound(specs[i].direction)
      ensures var r := i + |set k | 0 <= k < i && k < |specs| && IsOutbound(specs[k].direction)|;
              var n := match params[i]
                       case I64 => if specs[i].iteratorDependent then 8 * iters else 8
                       case Scalar(size) =>
                         if specs[i].iteratorDependent then (iters * size) % 0x1_0000_0000_0000_0000 else size
                       case Pointer(_) => if specs[i].iteratorDependent then iters else 1;
              Passes(j, After1(j, w), After2(j, w), i) <==>
              && r + 1 < |mem| && n <= |mem[r].bytes| && n <= |mem[r + 1].bytes|
              && mem[r].bytes[..n] == mem[r + 1].bytes[..n]
    {
      ArgAsked(params, specs, iters, base, i);
      SizeAsked(params, specs, iters, base, i);
      RegionsAsked(params, specs, iters, base, i);
      PassesInMemory(j, w, st, i);
    }
  }

  /** Whether a check passes can be seen in memory when the comparisons start. */
  lemma {:induction false} PassesInMemory(j: Job, w: World, st: State, i: nat)
    requires i < |j.args| && j.args[i].Out()
    requires InSets(j, st, Share(j, After2(j, w), After1(j, w)), After2(j, w))
    ensures var r, n := j.R1(i), j.args[i].CmpSize(j.iters);
            Passes(j, After1(j, w), After2(j, w), i) <==>
            && r + 1 < |st.mem| && n <= |st.mem[r].bytes| && n <= |st.mem[r + 1].bytes|
            && st.mem[r].bytes[..n] == st.mem[r + 1].bytes[..n]
  {
    hide After1, After2;
    assert HoldsAt(j, st.mem, Share(j, After2(j, w), After1(j, w)), After2(j, w), i);
    AfterSized(j, w);
  }
}
