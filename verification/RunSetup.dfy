/** The run of the setup block: every argument gets its regions. */
module RunSetup {
  import opened IR
  import opened HarnessLayout
  import opened Semantics
  import opened HarnessMemory

  /** The harness stands in the function, at the job's base. */
  ghost predicate Embedded(cfg: Cfg, j: Job)
  {
    && j.Valid() && j.base + j.Size() <= |cfg|
    && forall x | 0 <= x < j.Size() :: cfg[j.base + x] == j.BlockAt(x)
  }

  /** A harness may stand anywhere in a function. */
  lemma {:induction false} AppendedEmbeds(bs: Cfg, j: Job, rest: Cfg)
    requires j.Valid() && j.base == |bs|
    ensures Embedded(bs + j.Blocks() + rest, j)
  {
  }

  /** Freshly allocated contents of argument `i`, in either set. */
  function Raw1(j: Job, w: World, i: nat): Bytes
    requires i < |j.args|
  {
    Fill(j.args[i].Size(j.iters), w.junk, j.R1(i))
  }

  function Raw2(j: Job, w: World, i: nat): Bytes
    requires i < |j.args|
  {
    Fill(j.args[i].Size(j.iters), w.junk, j.R2(i))
  }

  ghost predicate AllocatedAt(j: Job, w: World, mem: seq<Region>, i: nat)
    requires i < |j.args|
  {
    && j.R1(i) <= j.R2(i) < |mem|
    && mem[j.R1(i)] == RegionOf(j, i, Raw1(j, w, i)) && mem[j.R2(i)] == RegionOf(j, i, Raw2(j, w, i))
  }

  /** The first `m` arguments are allocated, and nothing else has happened. */
  ghost predicate Allocated(j: Job, w: World, m: nat, st: State) {
    && m <= |j.args| && |st.mem| == j.R1(m)
    && (forall i | 0 <= i < m :: AllocatedAt(j, w, st.mem, i))
    && PointersTo(j, st.env, j.R1(m))
    && st.log == MallocEvents(j.HeapRegions(m))
  }

  /** Where the allocations of an argument stand in the setup block. */
  lemma {:induction false} SetupAt(j: Job, m: nat, i: nat)
    requires i < m <= |j.args|
    ensures |j.SetupInstrs(m)| == j.R1(m) && j.R1(i) <= j.R2(i) < j.R1(m)
    ensures j.SetupInstrs(m)[j.R1(i)] == j.SetupInstrs(m)[j.R2(i)] == j.args[i].AllocInstr(j.iters)
    decreases m
  {
    SetupLength(j, m - 1);
    if i < m - 1 {
      SetupAt(j, m - 1, i);
    }
  }

  lemma {:induction false} SetupLength(j: Job, m: nat)
    requires m <= |j.args|
    ensures |j.SetupInstrs(m)| == j.R1(m)
    decreases m
  {
    if m > 0 {
      SetupLength(j, m - 1);
    }
  }

  function Alloc(j: Job, w: World, i: nat, st: State): State
    requires i < |j.args|
  {
    Allocate(st, j.Ptr(|st.mem|), j.args[i].Size(j.iters), j.args[i].ty.Pointer?, w)
  }

  /** One allocation. */
  lemma {:induction false} AllocStep(j: Job, w: World, i: nat, b: Block, prev: Label, st: State)
    requires j.Valid() && i < |j.args| && |st.mem| < |b| && b[|st.mem|] == j.args[i].AllocInstr(j.iters)
    ensures Exec(b, j.base, |st.mem|, prev, st, w) == Exec(b, j.base, |st.mem| + 1, prev, Alloc(j, w, i, st), w)
  {
    if !j.args[i].ty.Pointer? {
      SlotSize(j, i);
    }
  }

  /** Both copies of one argument. */
  function AllocAll(j: Job, w: World, i: nat, st: State): State
    requires i < |j.args|
  {
    if j.args[i].Out() then Alloc(j, w, i, Alloc(j, w, i, st)) else Alloc(j, w, i, st)
  }

  lemma {:induction false} AllocArg(j: Job, w: World, m: nat, st: State)
    requires j.Valid() && Allocated(j, w, m, st) && m < |j.args|
    ensures Allocated(j, w, m + 1, AllocAll(j, w, m, st))
  {
    hide Job.HeapRegions, MallocEvents;
    var st' := AllocAll(j, w, m, st);
    AllocLog(j, w, m, st);
    forall i | 0 <= i < m + 1
      ensures AllocatedAt(j, w, st'.mem, i)
    {
      if i < m {
        assert AllocatedAt(j, w, st.mem, i);
      }
    }
  }

  lemma {:induction false} AllocLog(j: Job, w: World, m: nat, st: State)
    requires m < |j.args| && |st.mem| == j.R1(m) && st.log == MallocEvents(j.HeapRegions(m))
    ensures AllocAll(j, w, m, st).log == MallocEvents(j.HeapRegions(m + 1))
  {
  }

  lemma {:induction false} AllocArgRuns(j: Job, w: World, m: nat, b: Block, prev: Label, st: State)
    requires j.Valid() && Allocated(j, w, m, st) && m < |j.args|
    requires |b| > j.R2(m) && b[j.R1(m)] == b[j.R2(m)] == j.args[m].AllocInstr(j.iters)
    ensures Exec(b, j.base, j.R1(m), prev, st, w) ==
            Exec(b, j.base, j.R1(m + 1), prev, AllocAll(j, w, m, st), w)
  {
    hide Exec, AllocatedAt, PointersTo, Job.HeapRegions, MallocEvents;
    AllocStep(j, w, m, b, prev, st);
    if j.args[m].Out() {
      AllocStep(j, w, m, b, prev, Alloc(j, w, m, st));
    }
  }

  lemma {:induction false} SetupRuns(j: Job, w: World, m: nat, b: Block, prev: Label, st: State) returns (st': State)
    requires j.Valid() && Allocated(j, w, m, st)
    requires b == j.BlockAt(SETUP)
    ensures Exec(b, j.base, j.R1(m), prev, st, w) == Exec(b, j.base, j.R1(|j.args|), prev, st', w)
    ensures Allocated(j, w, |j.args|, st')
    decreases |j.args| - m
  {
    assert m <= |j.args|;
    hide Exec, Allocated, AllocAll, Job.HeapRegions;
    if m == |j.args| {
      st' := st;
    } else {
      SetupAt(j, |j.args|, m);
      AllocArgRuns(j, w, m, b, prev, st);
      AllocArg(j, w, m, st);
      st' := SetupRuns(j, w, m + 1, b, prev, AllocAll(j, w, m, st));
    }
  }

  /** The setup block as a whole. */
  lemma {:induction false} SetupBlockRuns(cfg: Cfg, j: Job, w: World, prev: Label) returns (st: State)
    requires Embedded(cfg, j)
    ensures Step(cfg, w, At(j.base + SETUP, prev, ENTRY_STATE)) == At(j.base + SE_SETUP, j.base + SETUP, st)
    ensures Allocated(j, w, |j.args|, st)
  {
    var b := j.BlockAt(SETUP);
    assert cfg[j.base + SETUP] == b;
    st := SetupRuns(j, w, 0, b, prev, ENTRY_STATE);
    SetupLength(j, |j.args|);
    assert b[j.R1(|j.args|)] == Br(j.base + SE_SETUP);
  }
}
