/** How the two sets of arguments lie in memory while a harness runs. */
module HarnessMemory {
  import opened IR
  import opened HarnessLayout
  import opened Semantics
  import opened HarnessSpec

  function RegionOf(j: Job, i: nat, bytes: Bytes): Region
    requires i < |j.args|
  {
    Region(bytes, j.args[i].ty.Pointer?, true)
  }

  /** Memory is exactly the two sets `a` and `b`: one region for each argument, a second one for
      each outbound argument, all live. */
  ghost predicate Holds(j: Job, mem: seq<Region>, a: Data, b: Data) {
    && |a| == |b| == |j.args| && |mem| == j.R1(|j.args|)
    && forall i | 0 <= i < |j.args| :: HoldsAt(j, mem, a, b, i)
  }

  ghost predicate HoldsAt(j: Job, mem: seq<Region>, a: Data, b: Data, i: nat)
    requires i < |a| == |b| == |j.args|
  {
    && j.R2(i) < |mem|
    && mem[j.R1(i)] == RegionOf(j, i, a[i]) && mem[j.R2(i)] == RegionOf(j, i, b[i])
  }

  /** The setup block's pointers to the first `m` regions. */
  ghost predicate PointersTo(j: Job, env: Env, m: nat) {
    forall r | 0 <= r < m :: j.Ptr(r) in env && env[j.Ptr(r)] == VPtr(r)
  }

  ghost predicate Pointers(j: Job, env: Env) {
    PointersTo(j, env, j.R1(|j.args|))
  }

  /** Regions of different arguments are different, and so are the two of an outbound one. */
  lemma {:induction false} RegionsApart(j: Job, i: nat, i': nat)
    requires i < i' <= |j.args|
    ensures j.R1(i) <= j.R2(i) < j.R1(i')
    decreases i'
  {
    if i + 1 < i' {
      RegionsApart(j, i, i' - 1);
    }
  }

  lemma {:induction false} RegionInRange(j: Job, i: nat)
    requires i < |j.args|
    ensures j.R1(i) <= j.R2(i) < j.R1(|j.args|)
    ensures j.R1(i) == j.R2(i) <==> !j.args[i].Out()
  {
    RegionsApart(j, i, |j.args|);
  }

  /** Memory after the first-set region of one argument has changed. */
  lemma {:induction false} WriteFirst(j: Job, mem: seq<Region>, a: Data, b: Data, i: nat, bytes: Bytes)
    requires Holds(j, mem, a, b) && i < |j.args| && j.R1(i) <= j.R2(i) < |mem|
    ensures Holds(j, mem[j.R1(i) := RegionOf(j, i, bytes)], a[i := bytes], if j.args[i].Out() then b else b[i := bytes])
  {
    RegionInRange(j, i);
    var mem' := mem[j.R1(i) := RegionOf(j, i, bytes)];
    var a', b' := a[i := bytes], if j.args[i].Out() then b else b[i := bytes];
    forall k | 0 <= k < |j.args|
      ensures HoldsAt(j, mem', a', b', k)
    {
      assert HoldsAt(j, mem, a, b, k);
      if k < i {
        RegionsApart(j, k, i);
      } else if i < k {
        RegionsApart(j, i, k);
      }
    }
  }

  lemma {:induction false} WriteSecond(j: Job, mem: seq<Region>, a: Data, b: Data, i: nat, bytes: Bytes)
    requires Holds(j, mem, a, b) && i < |j.args| && j.R1(i) <= j.R2(i) < |mem|
    ensures Holds(j, mem[j.R2(i) := RegionOf(j, i, bytes)], if j.args[i].Out() then a else a[i := bytes], b[i := bytes])
  {
    RegionInRange(j, i);
    var mem' := mem[j.R2(i) := RegionOf(j, i, bytes)];
    var a', b' := if j.args[i].Out() then a else a[i := bytes], b[i := bytes];
    forall k | 0 <= k < |j.args|
      ensures HoldsAt(j, mem', a', b', k)
    {
      assert HoldsAt(j, mem, a, b, k);
      if k < i {
        RegionsApart(j, k, i);
      } else if i < k {
        RegionsApart(j, i, k);
      }
    }
  }

  /** A valid job's stack slots are allocated at the size that is made symbolic. */
  lemma {:induction false} SlotSize(j: Job, i: nat)
    requires j.Valid() && i < |j.args| && !j.args[i].ty.Pointer?
    ensures j.args[i].ty.TypeSize() == j.args[i].Size(j.iters)
  {
  }

  // ----- events -----

  function MallocEvents(rs: seq<nat>): (r: seq<Event>)
    ensures |r| == |rs|
  {
    seq(|rs|, x requires 0 <= x < |rs| => Malloced(rs[x]))
  }

  function CallEvents(its: seq<uint64>): (r: seq<Event>)
    ensures |r| == |its|
  {
    seq(|its|, x requires 0 <= x < |its| => Called(its[x]))
  }

  /** Frees of `rs`, the last one first. */
  function FreeEvents(rs: seq<nat>): (r: seq<Event>)
    ensures |r| == |rs|
  {
    seq(|rs|, x requires 0 <= x < |rs| => Freed(rs[|rs| - 1 - x]))
  }

  lemma {:induction false} CallsInEvents(its: seq<uint64>, rs: seq<nat>)
    ensures CallsMade(CallEvents(its)) == its
    ensures CallsMade(MallocEvents(rs)) == CallsMade(FreeEvents(rs)) == []
    decreases |its|, |rs|
  {
    if its != [] {
      CallsInEvents(its[..|its| - 1], rs);
      assert CallEvents(its)[..|its| - 1] == CallEvents(its[..|its| - 1]);
    } else if rs != [] {
      CallsInEvents([], rs[..|rs| - 1]);
      CallsInEvents([], rs[1..]);
      assert MallocEvents(rs)[..|rs| - 1] == MallocEvents(rs[..|rs| - 1]);
      assert FreeEvents(rs)[..|rs| - 1] == FreeEvents(rs[1..]);
    }
  }

  lemma {:induction false} CallsLeaveHeap(its: seq<uint64>)
    ensures Mallocs(CallEvents(its)) == Frees(CallEvents(its)) == []
    decreases |its|
  {
    if its != [] {
      CallsLeaveHeap(its[..|its| - 1]);
      assert CallEvents(its)[..|its| - 1] == CallEvents(its[..|its| - 1]);
    }
  }

  lemma {:induction false} AllocatedInOrder(rs: seq<nat>)
    ensures Mallocs(MallocEvents(rs)) == rs && Frees(MallocEvents(rs)) == []
    decreases |rs|
  {
    if rs != [] {
      AllocatedInOrder(rs[..|rs| - 1]);
      assert MallocEvents(rs)[..|rs| - 1] == MallocEvents(rs[..|rs| - 1]);
      assert rs == rs[..|rs| - 1] + [rs[|rs| - 1]];
    }
  }

  lemma {:induction false} FreedInReverse(rs: seq<nat>)
    ensures Mallocs(FreeEvents(rs)) == [] && |Frees(FreeEvents(rs))| == |rs|
    ensures forall x | 0 <= x < |rs| :: Frees(FreeEvents(rs))[x] == rs[|rs| - 1 - x]
    decreases |rs|
  {
    if rs != [] {
      FreedInReverse(rs[1..]);
      assert FreeEvents(rs)[..|rs| - 1] == FreeEvents(rs[1..]);
    }
  }
}
