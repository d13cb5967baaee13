/** The iteration arguments of the two call loops, for every number of iterations. */
module Iterations {
  import opened IR
  import opened LoopBuilding
  import opened LoopRuns
  import opened HarnessLayout
  import opened Semantics
  import opened HarnessSpec

  /** The bounds the generator passes for `n` iterations. */
  function Ascending(n: uint32): Loop {
    Job([], n, 0).Loop1()
  }

  function Descending(n: uint32): Loop {
    Job([], n, 0).Loop2()
  }

  /** The values of the induction variable a loop enters its body with, as the 64 bits it has. */
  function Entered(loop: Loop): (r: seq<uint64>)
    requires loop.step > 0
    ensures |r| == Trips(loop)
  {
    seq(Trips(loop), k requires 0 <= k => Bits(IndAt(loop, k)))
  }

  function Reverse(s: seq<uint64>): (r: seq<uint64>)
    ensures |r| == |s|
  {
    seq(|s|, k requires 0 <= k < |s| => s[|s| - 1 - k])
  }

  lemma {:induction false} AscendingValues(n: uint32)
    ensures Entered(Ascending(n)) == Up(n)
  {
    forall k: nat
      ensures IndAt(Ascending(n), k) == k
    {
      assert k * 1 == k;
    }
  }

  lemma {:induction false} DescendingValues(n: uint32)
    requires n >= 2
    ensures Entered(Descending(n)) == Down(n)
  {
    forall k: nat
      ensures IndAt(Descending(n), k) == n - 1 - k
    {
      assert k * 1 == k;
    }
  }

  /** Both orders make each iteration once. */
  lemma {:induction false} SameIterations(n: uint64)
    ensures multiset(Up(n)) == multiset(Down(n))
    decreases n
  {
    if n > 0 {
      SameIterations(n - 1);
      assert Up(n) == Up(n - 1) + [n - 1];
      assert Down(n) == [n - 1] + Down(n - 1);
    } else {
      assert Up(0) == Down(0);
    }
  }

  /** The second loop makes the iterations of the first in exactly the reverse order if and only
      if there are at least two of them.  For one iteration, the default, the second loop's bounds
      coincide and it would make none; for none, its start wraps to the largest 32-bit value. */
  lemma {:induction false} ReversedIff(n: uint32)
    ensures Entered(Descending(n)) == Reverse(Entered(Ascending(n))) <==> n >= 2
  {
    AscendingValues(n);
    if n >= 2 {
      DescendingValues(n);
      assert Down(n) == Reverse(Up(n));
    } else if n == 1 {
      assert Trips(Descending(1)) == 0;
    } else {
      assert Trips(Descending(0)) == TWO_32;
    }
  }
}
