/** The run of the teardown: every heap region is freed once, the last one allocated first. */
module RunTeardown {
  import opened IR
  import opened HarnessLayout
  import opened Semantics
  import opened HarnessSpec
  import opened HarnessMemory
  import opened RunSetup
  import opened RunDeclare

  // ----- the heap regions -----

  /** Heap regions are allocated in ascending order, each once, and each belongs to a pointer
      argument. */
  lemma {:induction false} HeapRegionsSorted(j: Job, m: nat)
    requires m <= |j.args|
    ensures forall x | 0 <= x < |j.HeapRegions(m)| :: j.HeapRegions(m)[x] < j.R1(m)
    ensures forall x, y | 0 <= x < y < |j.HeapRegions(m)| :: j.HeapRegions(m)[x] < j.HeapRegions(m)[y]
    decreases m
  {
    if m > 0 {
      HeapRegionsSorted(j, m - 1);
    }
  }

  /** The regions of the first `m` arguments are exactly those numbered below `R1(m)`. */
  lemma {:induction false} OwnerOf(j: Job, m: nat, r: nat) returns (i: nat)
    requires m <= |j.args| && r < j.R1(m)
    ensures i < m && (r == j.R1(i) || r == j.R2(i))
    decreases m
  {
    if r >= j.R1(m - 1) {
      i := m - 1;
    } else {
      i := OwnerOf(j, m - 1, r);
    }
  }

  lemma {:induction false} HeapRegionsComplete(j: Job, m: nat, i: nat)
    requires i < m <= |j.args|
    ensures j.args[i].ty.Pointer? <==> j.R1(i) in j.HeapRegions(m)
    ensures j.args[i].ty.Pointer? <==> j.R2(i) in j.HeapRegions(m)
    decreases m
  {
    HeapRegionsSorted(j, m - 1);
    if i < m - 1 {
      HeapRegionsComplete(j, m - 1, i);
      RegionsApart(j, i, m - 1);
    }
  }

  /** In memory that holds two sets, the heap regions are those of the list. */
  lemma {:induction false} HeapIsListed(j: Job, mem: seq<Region>, a: Data, b: Data, r: nat)
    requires Holds(j, mem, a, b) && r < |mem|
    ensures mem[r].live && (mem[r].heap <==> r in j.HeapRegions(|j.args|))
  {
    var i := OwnerOf(j, |j.args|, r);
    assert HoldsAt(j, mem, a, b, i);
    HeapRegionsComplete(j, |j.args|, i);
  }

  // ----- the frees -----

  /** Memory `mem` with the last `x` of the regions `hs` freed. */
  function FreedMem(mem: seq<Region>, hs: seq<nat>, x: nat): (r: seq<Region>)
    requires x <= |hs|
    ensures |r| == |mem|
  {
    seq(|mem|, r requires 0 <= r < |mem| => if r in hs[|hs| - x..] then mem[r].(live := false) else mem[r])
  }

  ghost predicate Freeing(j: Job, mem: seq<Region>, log: seq<Event>, x: nat, st: State) {
    var hs := j.HeapRegions(|j.args|);
    && x <= |hs| && Pointers(j, st.env) && st.mem == FreedMem(mem, hs, x)
    && st.log == log + FreeEvents(hs)[..x]
  }

  lemma {:induction false} FreeStep(j: Job, w: World, b: Block, l: Label, prev: Label, mem: seq<Region>, a: Data,
                                    b2: Data, log: seq<Event>, x: nat, st: State)
    returns (st': State)
    requires Holds(j, mem, a, b2) && Freeing(j, mem, log, x, st) && x < |j.HeapRegions(|j.args|)|
    requires |b| > x && b[x] == j.FreeInstrs()[x]
    ensures Exec(b, l, x, prev, st, w) == Exec(b, l, x + 1, prev, st', w)
    ensures Freeing(j, mem, log, x + 1, st')
  {
    hide Holds;
    var hs := j.HeapRegions(|j.args|);
    var r := hs[|hs| - 1 - x];
    HeapRegionsSorted(j, |j.args|);
    assert |mem| == j.R1(|j.args|) by { MemLength(j, mem, a, b2); }
    assert r in hs;
    HeapIsListed(j, mem, a, b2, r);
    assert r !in hs[|hs| - x..];
    assert st.mem[r] == mem[r];
    assert j.Ptr(r) in st.env && st.env[j.Ptr(r)] == VPtr(r);
    st' := State(st.env, st.mem[r := st.mem[r].(live := false)], st.log + [Freed(r)]);
    assert hs[|hs| - (x + 1)..] == [r] + hs[|hs| - x..];
    assert st'.mem == FreedMem(mem, hs, x + 1);
    assert FreeEvents(hs)[..x + 1] == FreeEvents(hs)[..x] + [Freed(r)];
    assert Execute(b[x], Inst(l, x), prev, st, w) == Ok(st');
  }

  lemma {:induction false} MemLength(j: Job, mem: seq<Region>, a: Data, b: Data)
    requires Holds(j, mem, a, b)
    ensures |mem| == j.R1(|j.args|)
  {
  }

  lemma {:induction false} FreesRun(j: Job, w: World, b: Block, l: Label, prev: Label, mem: seq<Region>, a: Data,
                                    b2: Data, log: seq<Event>, x: nat, st: State)
    returns (st': State)
    requires Holds(j, mem, a, b2) && Freeing(j, mem, log, x, st)
    requires |b| > |j.FreeInstrs()| && forall y | 0 <= y < |j.FreeInstrs()| :: b[y] == j.FreeInstrs()[y]
    ensures Exec(b, l, x, prev, st, w) == Exec(b, l, |j.FreeInstrs()|, prev, st', w)
    ensures Freeing(j, mem, log, |j.HeapRegions(|j.args|)|, st')
    decreases |j.FreeInstrs()| - x
  {
    assert x <= |j.HeapRegions(|j.args|)|;
    hide Exec, Freeing, Holds;
    if x == |j.HeapRegions(|j.args|)| {
      st' := st;
    } else {
      var mid := FreeStep(j, w, b, l, prev, mem, a, b2, log, x, st);
      st' := FreesRun(j, w, b, l, prev, mem, a, b2, log, x + 1, mid);
    }
  }

  /** Every heap region is dead, everything else is as `mem` has it. */
  ghost predicate TornDown(mem: seq<Region>, st: State) {
    && |st.mem| == |mem|
    && forall r | 0 <= r < |mem| :: st.mem[r] == if mem[r].heap then mem[r].(live := false) else mem[r]
  }

  /** The teardown block as a whole. */
  lemma {:induction false} TeardownBlockRuns(cfg: Cfg, j: Job, w: World, prev: Label, st: State, a: Data, b: Data)
    returns (st': State)
    requires Embedded(cfg, j) && InSets(j, st, a, b)
    ensures Step(cfg, w, At(j.base + TEARDOWN, prev, st)) == At(j.base + EXIT, j.base + TEARDOWN, st')
    ensures TornDown(st.mem, st') && st'.log == st.log + FreeEvents(j.HeapRegions(|j.args|))
  {
    var blk, hs, l := j.BlockAt(TEARDOWN), j.HeapRegions(|j.args|), j.base + TEARDOWN;
    assert cfg[l] == blk;
    assert FreedMem(st.mem, hs, 0) == st.mem;
    assert st.log + FreeEvents(hs)[..0] == st.log;
    st' := FreesRun(j, w, blk, l, prev, st.mem, a, b, st.log, 0, st);
    assert blk[|hs|] == Br(j.base + EXIT);
    assert Exec(blk, l, |hs|, prev, st', w) == At(j.base + EXIT, l, st');
    assert FreeEvents(hs)[..|hs|] == FreeEvents(hs);
    assert hs[0..] == hs;
    forall r | 0 <= r < |st.mem|
      ensures st'.mem[r] == if st.mem[r].heap then st.mem[r].(live := false) else st.mem[r]
    {
      HeapIsListed(j, st.mem, a, b, r);
    }
  }
}
