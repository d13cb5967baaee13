/** Which memory the two call sets share, and that the first set's calls leave the second alone. */
module Pairing {
  import opened IR
  import opened HarnessLayout
  import opened Semantics
  import opened HarnessSpec
  import opened HarnessMemory
  import opened RunSetup
  import opened HarnessRuns

  /** The regions of argument `i`. */
  function RegionsOf(j: Job, i: nat): set<nat>
    requires i < |j.args|
  {
    {j.R1(i), j.R2(i)}
  }

  /** An argument that is outbound has two regions of its own, any other argument one; those of an
      argument that goes both ways hold the same bytes. */
  ghost predicate Paired(j: Job, mem: seq<Region>, i: nat)
    requires i < |j.args|
  {
    && j.R1(i) < |mem| && j.R2(i) < |mem| && mem[j.R1(i)].live && mem[j.R2(i)].live
    && |mem[j.R1(i)].bytes| == |mem[j.R2(i)].bytes| == j.args[i].Size(j.iters)
    && (j.R1(i) != j.R2(i) <==> j.args[i].Out())
    && (!j.args[i].OnlyOut() ==> mem[j.R1(i)].bytes == mem[j.R2(i)].bytes)
  }

  /** Two visits into every run, behind the symbolic setup: all arguments are paired, and arguments
      have no region in common. */
  lemma {:induction false} PairedAtStart(cfg: Cfg, j: Job, w: World) returns (st: State)
    requires Embedded(cfg, j)
    ensures Steps(cfg, w, Start(j), 2) == At(j.base + CALL1_SETUP, j.base + SE_SETUP, st)
    ensures forall i | 0 <= i < |j.args| :: Paired(j, st.mem, i)
    ensures forall i, k | 0 <= i < k < |j.args| :: RegionsOf(j, i) !! RegionsOf(j, k)
  {
    hide Embedded, Steps;
    st := DataPhase(cfg, j, w);
    forall i | 0 <= i < |j.args|
      ensures Paired(j, st.mem, i)
    {
      RegionInRange(j, i);
      assert HoldsAt(j, st.mem, First(j, w), Second(j, w), i);
    }
    forall i, k | 0 <= i < k < |j.args|
      ensures RegionsOf(j, i) !! RegionsOf(j, k)
    {
      RegionsApart(j, i, k);
      if k + 1 <= |j.args| {
        RegionInRange(j, k);
      }
    }
  }

  /** `3 * iters + 6` visits in, when the second set's calls are about to start, every outbound
      argument's second region is live and holds the bytes it held before the first call, whatever
      the encapsulated function does. */
  lemma {:induction false} SecondSetUntouched(cfg: Cfg, j: Job, w: World, i: nat) returns (st: State, st': State)
    requires Embedded(cfg, j) && i < |j.args| && j.args[i].Out()
    ensures Steps(cfg, w, Start(j), 2) == At(j.base + CALL1_SETUP, j.base + SE_SETUP, st)
    ensures Steps(cfg, w, Start(j), 3 * j.iters + 6) == At(j.base + CALL2_SETUP, j.base + CALL1_TEARDOWN, st')
    ensures j.R2(i) < |st.mem| == |st'.mem| && st'.mem[j.R2(i)] == st.mem[j.R2(i)] && st.mem[j.R2(i)].live
  {
    hide Embedded, Steps, After1;
    st := DataPhase(cfg, j, w);
    st' := FirstCallsPhase(cfg, j, w);
    assert HoldsAt(j, st.mem, First(j, w), Second(j, w), i);
    assert HoldsAt(j, st'.mem, After1(j, w), Before2(j, w), i);
  }
}
