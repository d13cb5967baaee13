/** What uninitialised memory has to do with the verdict.  Arguments that are only outbound are never
    made symbolic, so the calls come to whatever the allocations left there, and it is different
    leftovers for the two sets. */
module Leftovers {
  import opened IR
  import opened HarnessLayout
  import opened Semantics
  import opened HarnessSpec
  import opened HarnessMemory
  import opened RunCall
  import opened HarnessRuns
  import opened HarnessMeaning
  import opened Commutativity
  import opened WholeRuns
  import opened Precision

  type Junk = (nat, nat) -> byte

  /** The same function and the same input, but other leftovers. */
  function Leaving(w: World, junk: Junk): World {
    w.(junk := junk)
  }

  // ----- who sees leftovers -----

  /** Leftovers reach the calls if and only if some argument is only outbound. */
  lemma {:induction false} LeftoversSeenIff(j: Job)
    requires Small(j)
    ensures (exists w, junk: Junk ::
               First(j, Leaving(w, junk)) != First(j, w) || Second(j, Leaving(w, junk)) != Second(j, w))
            <==> exists i :: 0 <= i < |j.args| && j.args[i].OnlyOut()
  {
    if i :| 0 <= i < |j.args| && j.args[i].OnlyOut() {
      var w := Idle(ZEROS);
      SmallSizes(j, i);
      SmallProducts(if j.args[i].ty.Pointer? then Multiplier(j.args[i].spec, j.iters) else 1, j.args[i].ty.TypeSize());
      assert First(j, w)[i][0] == 0 && First(j, Leaving(w, Marked(j.R1(i))))[i][0] == 1;
    } else {
      forall w, junk: Junk
        ensures First(j, Leaving(w, junk)) == First(j, w) && Second(j, Leaving(w, junk)) == Second(j, w)
      {
      }
    }
  }

  // ----- the function does not see which world it is in -----

  lemma {:induction false} ApplyAlike(j: Job, w: World, junk: Junk, x: uint64, d: Data)
    requires |d| == |j.args|
    ensures Apply(j, Leaving(w, junk), x, d) == Apply(j, w, x, d)
  {
    forall i | 0 <= i < |d|
      ensures Apply(j, Leaving(w, junk), x, d)[i] == Apply(j, w, x, d)[i]
    {
      var as0 := Actuals(j, x, d);
      assert Written(|d[i]|, as0, i, Leaving(w, junk)) == Written(|d[i]|, as0, i, w);
    }
  }

  lemma {:induction false} FoldAlike(j: Job, w: World, junk: Junk, its: seq<uint64>, d: Data)
    requires |d| == |j.args|
    ensures Fold(j, Leaving(w, junk), its, d) == Fold(j, w, its, d)
    decreases |its|
  {
    hide Apply;
    if its != [] {
      FoldAlike(j, w, junk, its[..|its| - 1], d);
      ApplyAlike(j, w, junk, its[|its| - 1], Fold(j, w, its[..|its| - 1], d));
    }
  }

  /** Arguments that are only outbound are buffers. */
  predicate OnlyBuffers(j: Job) {
    forall i | 0 <= i < |j.args| && j.args[i].OnlyOut() :: j.args[i].ty.Pointer?
  }

  lemma {:induction false} InputAlike(j: Job, w: World, junk: Junk, d: Data)
    requires OnlyBuffers(j)
    ensures Input(j, Leaving(w, junk), d) <==> Input(j, w, d)
  {
    forall i | 0 <= i < |j.args| && !(j.args[i].ty.Pointer? && j.args[i].Out())
      ensures FirstAt(j, Leaving(w, junk), i) == FirstAt(j, w, i)
    {
    }
  }

  lemma {:induction false} CommutesAlike(j: Job, w: World, junk: Junk)
    requires OnlyBuffers(j) && Commutes(j, w) && KeepsInbound(j, w)
    ensures Commutes(j, Leaving(w, junk)) && KeepsInbound(j, Leaving(w, junk))
  {
    hide Apply, Input, Leaving;
    var v := Leaving(w, junk);
    forall d: Data | Input(j, v, d)
      ensures Input(j, w, d) && |d| == |j.args|
    {
      InputAlike(j, w, junk, d);
      InputSized(j, v, d);
    }
    forall x: uint64, d: Data | Input(j, v, d)
      ensures Apply(j, v, x, d) == Apply(j, w, x, d)
    {
      ApplyAlike(j, w, junk, x, d);
    }
    forall x: uint64, y: uint64, d: Data | x < j.iters && y < j.iters && x != y && Input(j, v, d)
      ensures Apply(j, v, x, Apply(j, v, y, d)) == Apply(j, v, y, Apply(j, v, x, d))
    {
      ApplyAlike(j, w, junk, x, Apply(j, w, y, d));
      ApplyAlike(j, w, junk, y, Apply(j, w, x, d));
    }
  }

  lemma {:induction false} InputSized(j: Job, w: World, d: Data)
    requires Input(j, w, d)
    ensures |d| == |j.args|
  {
  }

  // ----- both sets of a commuting function -----

  /** If calls commute and keep inbound arguments, each set ends as the ascending fold of its own
      initial contents. */
  lemma {:induction false} BothAscend(j: Job, w: World)
    requires OnlyBuffers(j) && Commutes(j, w) && KeepsInbound(j, w)
    ensures After1(j, w) == Fold(j, w, Up(j.iters), First(j, w))
    ensures After2(j, w) == Fold(j, w, Up(j.iters), Second(j, w))
  {
    hide Apply, Fold;
    assert Input(j, w, First(j, w)) && Input(j, w, Second(j, w)) by { StartsAreInput(j, w); }
    FoldInput(j, w, Up(j.iters), First(j, w));
    assert Before2(j, w) == Second(j, w);
    ReverseFold(j, w, j.iters, Second(j, w));
  }

  lemma {:induction false} StartsAreInput(j: Job, w: World)
    requires OnlyBuffers(j)
    ensures Input(j, w, First(j, w)) && Input(j, w, Second(j, w))
  {
    FirstSized(j, w);
  }

  // ----- leftovers of one set for those of the other -----

  ghost predicate IsFirstRegion(j: Job, r: nat) {
    exists i :: 0 <= i < |j.args| && j.R1(i) == r
  }

  /** Leftovers of which the first set sees `a`, and the second what the first would see of `b`. */
  ghost function Woven(j: Job, a: Junk, b: Junk): Junk {
    (r: nat, q: nat) => if IsFirstRegion(j, r) || r == 0 then a(r, q) else b(r - 1, q)
  }

  lemma {:induction false} SecondIsNotFirst(j: Job, i: nat)
    requires i < |j.args| && j.args[i].Out()
    ensures j.R2(i) == j.R1(i) + 1 && !IsFirstRegion(j, j.R2(i)) && IsFirstRegion(j, j.R1(i))
  {
    forall k | 0 <= k < |j.args|
      ensures j.R1(k) != j.R2(i)
    {
      if k < i {
        RegionsApart(j, k, i);
      } else if i < k {
        RegionsApart(j, i, k);
      }
    }
  }

  lemma {:induction false} WovenStarts(j: Job, w: World, a: Junk, b: Junk)
    ensures First(j, Leaving(w, Woven(j, a, b))) == First(j, Leaving(w, a))
    ensures Second(j, Leaving(w, Woven(j, a, b))) == First(j, Leaving(w, b))
  {
    hide IsFirstRegion;
    var v := Leaving(w, Woven(j, a, b));
    forall i | 0 <= i < |j.args|
      ensures FirstAt(j, v, i) == FirstAt(j, Leaving(w, a), i) && SecondAt(j, v, i) == FirstAt(j, Leaving(w, b), i)
    {
      if j.args[i].OnlyOut() {
        SecondIsNotFirst(j, i);
      }
    }
  }

  /** What the second set starts from, the first set would start from with other leftovers. */
  function Shifted(junk: Junk): Junk {
    (r: nat, q: nat) => junk(r + 1, q)
  }

  lemma {:induction false} ShiftedStarts(j: Job, w: World)
    ensures First(j, Leaving(w, Shifted(w.junk))) == Second(j, w)
  {
    var v := Leaving(w, Shifted(w.junk));
    forall i | 0 <= i < |j.args|
      ensures FirstAt(j, v, i) == SecondAt(j, w, i)
    {
      if j.args[i].OnlyOut() {
        SecondIsNotFirst(j, i);
      }
    }
  }

  // ----- exactly when commuting code is accepted -----

  /** The compared bytes of the ascending fold do not depend on leftovers. */
  ghost predicate Independent(j: Job, w: World) {
    forall a: Junk, b: Junk :: AllAgree(j, After1(j, Leaving(w, a)), After1(j, Leaving(w, b)))
  }

  /** Every function whose iterations commute and that keeps inbound arguments is accepted whatever
      memory holds if and only if the compared bytes it leaves do not depend on what memory holds.
      This is for every argument list, with only outbound arguments and without. */
  lemma {:induction false} AcceptedIffIndependent(j: Job, w: World)
    requires Small(j) && Commutes(j, w) && KeepsInbound(j, w)
    ensures (forall junk: Junk :: VerdictOf(j, Leaving(w, junk)).Accept?) <==> Independent(j, w)
  {
    hide VerdictFrom, After1, AllAgree, Commutes, KeepsInbound, Leaving;
    if OnlyBuffers(j) {
      if Independent(j, w) {
        forall junk: Junk
          ensures VerdictOf(j, Leaving(w, junk)).Accept?
        {
          IndependentAccepted(j, w, junk);
        }
      }
      if forall junk: Junk :: VerdictOf(j, Leaving(w, junk)).Accept? {
        forall a: Junk, b: Junk
          ensures AllAgree(j, After1(j, Leaving(w, a)), After1(j, Leaving(w, b)))
        {
          assert VerdictOf(j, Leaving(w, Woven(j, a, b))).Accept?;
          AcceptedAgree(j, w, a, b);
        }
      }
    } else {
      var i :| 0 <= i < |j.args| && j.args[i].OnlyOut() && !j.args[i].ty.Pointer?;
      ScalarLeftovers(j, w, i);
    }
  }

  lemma {:induction false} IndependentAccepted(j: Job, w: World, junk: Junk)
    requires OnlyBuffers(j) && Commutes(j, w) && KeepsInbound(j, w) && Independent(j, w)
    ensures VerdictOf(j, Leaving(w, junk)).Accept?
  {
    hide VerdictFrom, AllAgree, Fold, First, Second, Commutes, KeepsInbound, After2;
    var v, u := Leaving(w, junk), Leaving(w, Shifted(junk));
    CommutesAlike(j, w, junk);
    BothAscend(j, v);
    ShiftedStarts(j, v);
    assert Leaving(v, Shifted(v.junk)) == u;
    FoldAlike(j, w, junk, Up(j.iters), Second(j, v));
    FoldAlike(j, w, Shifted(junk), Up(j.iters), Second(j, v));
    assert After2(j, v) == After1(j, u);
    AcceptIff(j, v);
  }

  lemma {:induction false} AcceptedAgree(j: Job, w: World, a: Junk, b: Junk)
    requires OnlyBuffers(j) && Commutes(j, w) && KeepsInbound(j, w)
    requires VerdictOf(j, Leaving(w, Woven(j, a, b))).Accept?
    ensures AllAgree(j, After1(j, Leaving(w, a)), After1(j, Leaving(w, b)))
  {
    hide VerdictFrom, AllAgree, Fold, First, Second, Commutes, KeepsInbound, Woven, After2;
    var v := Leaving(w, Woven(j, a, b));
    CommutesAlike(j, w, Woven(j, a, b));
    BothAscend(j, v);
    WovenStarts(j, w, a, b);
    FoldAlike(j, w, Woven(j, a, b), Up(j.iters), First(j, Leaving(w, a)));
    FoldAlike(j, w, Woven(j, a, b), Up(j.iters), First(j, Leaving(w, b)));
    FoldAlike(j, w, a, Up(j.iters), First(j, Leaving(w, a)));
    FoldAlike(j, w, b, Up(j.iters), First(j, Leaving(w, b)));
    AcceptIff(j, v);
  }

  /** A scalar that is only outbound keeps its leftovers, so nothing is accepted with all of them. */
  lemma {:induction false} ScalarLeftovers(j: Job, w: World, i: nat)
    requires Small(j) && i < |j.args| && j.args[i].OnlyOut() && !j.args[i].ty.Pointer?
    ensures !Independent(j, w) && !VerdictOf(j, Leaving(w, Marked(j.R2(i)))).Accept?
  {
    hide VerdictFrom, Fold, Apply;
    var v, u, z := Leaving(w, Marked(j.R2(i))), Leaving(w, Marked(j.R1(i))), Leaving(w, ZEROS);
    SmallSizes(j, i);
    SecondIsNotFirst(j, i);
    FoldKeepsScalars(j, v, Up(j.iters), First(j, v), i);
    FoldKeepsScalars(j, v, Down(j.iters), Before2(j, v), i);
    FoldKeepsScalars(j, u, Up(j.iters), First(j, u), i);
    FoldKeepsScalars(j, z, Up(j.iters), First(j, z), i);
    AcceptIff(j, v);
    var n := j.args[i].CmpSize(j.iters);
    if InBounds(j, i) {
      assert FirstAt(j, v, i)[..n][0] == 0 && SecondAt(j, v, i)[..n][0] == 1;
      assert FirstAt(j, z, i)[..n][0] == 0 && FirstAt(j, u, i)[..n][0] == 1;
    }
    assert !Passes(j, After1(j, u), After1(j, z), i);
  }

  // ----- a simple case -----

  /** One call, whatever the iteration, overwrites the arguments that are only outbound. */
  ghost predicate Overwrites(j: Job, w: World) {
    forall x: uint64, d: Data, e: Data |
      && x < j.iters && Sized(j, d) && Sized(j, e)
      && (forall i | 0 <= i < |j.args| && !j.args[i].OnlyOut() :: d[i] == e[i]) ::
      Apply(j, w, x, d) == Apply(j, w, x, e)
  }

  /** Commuting code that overwrites its only outbound arguments is accepted, whatever memory
      holds. */
  lemma {:induction false} OverwritingIsAccepted(j: Job, w: World)
    requires Small(j) && Commutes(j, w) && KeepsInbound(j, w) && Overwrites(j, w)
    requires forall i | 0 <= i < |j.args| :: !Overcompared(j.args[i])
    ensures VerdictOf(j, w) == Accept
  {
    hide VerdictFrom, After1, AllAgree, Commutes, KeepsInbound, Overwrites;
    forall a: Junk, b: Junk
      ensures AllAgree(j, After1(j, Leaving(w, a)), After1(j, Leaving(w, b)))
    {
      OverwritingForgets(j, w, a, b);
      SelfAgree(j, Leaving(w, a));
    }
    AcceptedIffIndependent(j, w);
    assert Leaving(w, w.junk) == w;
    assert VerdictOf(j, Leaving(w, w.junk)).Accept?;
  }

  lemma {:induction false} OverwritingForgets(j: Job, w: World, a: Junk, b: Junk)
    requires j.Valid() && Overwrites(j, w)
    ensures After1(j, Leaving(w, a)) == After1(j, Leaving(w, b))
  {
    hide Apply, Fold, Sized;
    var d, e := First(j, Leaving(w, a)), First(j, Leaving(w, b));
    FirstSized(j, Leaving(w, a));
    FirstSized(j, Leaving(w, b));
    FoldAlike(j, w, a, Up(j.iters), d);
    FoldAlike(j, w, b, Up(j.iters), e);
    var rest := Up(j.iters)[1..];
    assert Up(j.iters) == [0] + rest;
    FoldFront(j, w, 0, rest, d);
    FoldFront(j, w, 0, rest, e);
    assert Apply(j, w, 0, d) == Apply(j, w, 0, e);
  }

  lemma {:induction false} SelfAgree(j: Job, w: World)
    requires Small(j) && forall i | 0 <= i < |j.args| :: !Overcompared(j.args[i])
    ensures AllAgree(j, After1(j, w), After1(j, w))
  {
    hide After1;
    assert Sized(j, After1(j, w)) by { AfterSized(j, w); }
    forall i | 0 <= i < |j.args| && j.args[i].Out()
      ensures Passes(j, After1(j, w), After1(j, w), i)
    {
      SmallSizes(j, i);
    }
  }
}
