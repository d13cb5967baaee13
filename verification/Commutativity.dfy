/** What the harness is for: iterations that can be reordered pass it. */
module Commutativity {
  import opened IR
  import opened HarnessLayout
  import opened Semantics
  import opened HarnessSpec
  import opened RunSetup
  import opened RunCall
  import opened HarnessRuns
  import opened HarnessMeaning

  // ----- the iterations -----

  /** A set the calls can come to work on: arguments a call cannot change, or must not, hold their
      symbolic input. */
  ghost predicate Input(j: Job, w: World, d: Data) {
    Sized(j, d)
    && forall i | 0 <= i < |j.args| && !(j.args[i].ty.Pointer? && j.args[i].Out()) :: d[i] == FirstAt(j, w, i)
  }

  /** Calls for different iterations commute. */
  ghost predicate Commutes(j: Job, w: World) {
    forall x: uint64, y: uint64, d: Data | x < j.iters && y < j.iters && x != y && Input(j, w, d) ::
      Apply(j, w, x, Apply(j, w, y, d)) == Apply(j, w, y, Apply(j, w, x, d))
  }

  /** Calls do not write to arguments that are not outbound. */
  ghost predicate KeepsInbound(j: Job, w: World) {
    forall x: uint64, d: Data, i | x < j.iters && Input(j, w, d) && 0 <= i < |j.args| && !j.args[i].Out() ::
      Apply(j, w, x, d)[i] == d[i]
  }

  lemma {:induction false} InputClosed(j: Job, w: World, x: uint64, d: Data)
    requires KeepsInbound(j, w) && Input(j, w, d) && x < j.iters
    ensures Input(j, w, Apply(j, w, x, d))
  {
    var d' := Apply(j, w, x, d);
    forall i | 0 <= i < |j.args| && !(j.args[i].ty.Pointer? && j.args[i].Out())
      ensures d'[i] == FirstAt(j, w, i)
    {
      assert d'[i] == d[i];
    }
  }

  lemma {:induction false} FoldInput(j: Job, w: World, its: seq<uint64>, d: Data)
    requires KeepsInbound(j, w) && Input(j, w, d) && forall k | 0 <= k < |its| :: its[k] < j.iters
    ensures Input(j, w, Fold(j, w, its, d))
    ensures forall i | 0 <= i < |j.args| && !j.args[i].Out() :: Fold(j, w, its, d)[i] == d[i]
    decreases |its|
  {
    assert |d| == |j.args|;
    hide Input, Apply;
    if its != [] {
      var n := |its| - 1;
      FoldInput(j, w, its[..n], d);
      InputClosed(j, w, its[n], Fold(j, w, its[..n], d));
    }
  }

  /** A call can be moved from before a list of other iterations to behind it. */
  lemma {:induction false} MoveBehind(j: Job, w: World, x: uint64, its: seq<uint64>, d: Data)
    requires Commutes(j, w) && KeepsInbound(j, w) && Input(j, w, d) && x < j.iters
    requires forall k | 0 <= k < |its| :: its[k] < j.iters && its[k] != x
    ensures Fold(j, w, its, Apply(j, w, x, d)) == Apply(j, w, x, Fold(j, w, its, d))
    decreases |its|
  {
    assert |d| == |j.args|;
    hide Input, Apply;
    if its != [] {
      var n := |its| - 1;
      MoveBehind(j, w, x, its[..n], d);
      FoldInput(j, w, its[..n], d);
      assert Apply(j, w, x, Apply(j, w, its[n], Fold(j, w, its[..n], d))) ==
             Apply(j, w, its[n], Apply(j, w, x, Fold(j, w, its[..n], d)));
    }
  }

  lemma {:induction false} FoldFront(j: Job, w: World, x: uint64, its: seq<uint64>, d: Data)
    requires |d| == |j.args|
    ensures Fold(j, w, [x] + its, d) == Fold(j, w, its, Apply(j, w, x, d))
    decreases |its|
  {
    hide Apply;
    if its == [] {
      assert [x] + its == [x] && [x][..0] == [];
      assert Fold(j, w, [x], d) == Apply(j, w, x, Fold(j, w, [], d));
    } else {
      var n := |its| - 1;
      assert ([x] + its)[..n + 1] == [x] + its[..n];
      FoldFront(j, w, x, its[..n], d);
    }
  }

  lemma {:induction false} OrdersGrow(m: uint64)
    requires m + 1 < TWO_64
    ensures Down(m + 1) == [m] + Down(m)
    ensures |Up(m + 1)| == m + 1 && Up(m + 1)[m] == m && Up(m + 1)[..m] == Up(m)
    ensures forall k | 0 <= k < |Down(m)| :: Down(m)[k] < m
  {
  }

  /** Iterations that commute can be run in descending order as well as in ascending order. */
  lemma {:induction false} ReverseFold(j: Job, w: World, n: uint64, d: Data)
    requires Commutes(j, w) && KeepsInbound(j, w) && Input(j, w, d) && n <= j.iters
    ensures Fold(j, w, Down(n), d) == Fold(j, w, Up(n), d)
    decreases n
  {
    assert |d| == |j.args|;
    if n == 0 {
      assert Down(0) == Up(0) == [];
    } else {
      hide Input, Apply, Commutes, KeepsInbound, Up, Down;
      var m := n - 1;
      OrdersGrow(m);
      FoldFront(j, w, m, Down(m), d);
      MoveBehind(j, w, m, Down(m), d);
      ReverseFold(j, w, m, d);
    }
  }

  /** Reordering is safe, so the harness accepts: if calls for different iterations commute, do
      not write to inbound arguments, and no argument is only outbound, both folds come to the
      same set. */
  lemma {:induction false} CommutingFoldsAgree(j: Job, w: World)
    requires Commutes(j, w) && KeepsInbound(j, w)
    requires forall i | 0 <= i < |j.args| :: !j.args[i].OnlyOut()
    ensures After1(j, w) == After2(j, w)
  {
    hide Apply;
    var d := First(j, w);
    assert Second(j, w) == d;
    assert Input(j, w, d);
    FoldInput(j, w, Up(j.iters), d);
    assert Before2(j, w) == d;
    ReverseFold(j, w, j.iters, d);
  }

  lemma {:induction false} CommutingCodeIsAccepted(j: Job, w: World)
    requires Commutes(j, w) && KeepsInbound(j, w)
    requires forall i | 0 <= i < |j.args| :: !j.args[i].OnlyOut()
    requires forall i | 0 <= i < |j.args| && j.args[i].Out() :: InBounds(j, i)
    ensures VerdictOf(j, w) == Accept
  {
    hide Apply, Fold;
    CommutingFoldsAgree(j, w);
    AcceptIff(j, w);
    FinalSized(j, w);
  }

  // ----- for which argument lists that can be relied on -----

  /** No type is larger than 4 GiB, so no size computation wraps. */
  predicate Small(j: Job) {
    j.Valid() && forall i | 0 <= i < |j.args| :: j.args[i].ty.TypeSize() <= TWO_32
  }

  /** An outbound scalar that is marked iterator dependent: its slot holds one element, but as many
      elements as there are iterations are compared. */
  predicate Overcompared(a: Arg) {
    a.Out() && !a.ty.Pointer? && a.spec.iteratorDependent
  }

  lemma {:induction false} SmallProducts(m: nat, s: nat)
    requires 1 <= m < TWO_32 && 1 <= s <= TWO_32
    ensures FoldMul(m, s) == m * s && m <= m * s && s <= m * s && (m * s == s <==> m == 1) && (m * s == m <==> s == 1)
  {
    assert m * s <= TWO_32 * s <= TWO_32 * TWO_32 by {
      MulLe(m, TWO_32, s);
      MulLe(s, TWO_32, TWO_32);
    }
    assert m * s < TWO_64 by {
      MulLe(m, TWO_32 - 1, s);
      assert (TWO_32 - 1) * s < TWO_32 * s;
    }
    MulLe(1, m, s);
    MulLe(1, s, m);
    if m > 1 {
      MulLe(2, m, s);
    }
    if s > 1 {
      MulLe(2, s, m);
    }
  }

  lemma {:induction false} MulLe(a: nat, b: nat, s: nat)
    requires a <= b
    ensures a * s <= b * s && s * a <= s * b
  {
    assert b * s == a * s + (b - a) * s;
  }

  /** With sizes that do not wrap, at least one byte is compared, and the comparison is in bounds
      unless the argument is overcompared. */
  lemma {:induction false} SmallSizes(j: Job, i: nat)
    requires Small(j) && i < |j.args|
    ensures var a := j.args[i];
            && a.CmpSize(j.iters) > 0
            && a.Size(j.iters) == (if a.ty.Pointer? then Multiplier(a.spec, j.iters) else 1) * a.ty.TypeSize()
            && a.CmpSize(j.iters) == Multiplier(a.spec, j.iters) * (if a.ty.Pointer? then 1 else a.ty.TypeSize())
            && (a.Out() ==> (InBounds(j, i) <==> !Overcompared(a)))
  {
    var a := j.args[i];
    SmallProducts(Multiplier(a.spec, j.iters), a.ty.TypeSize());
    SmallProducts(1, a.ty.TypeSize());
    SmallProducts(Multiplier(a.spec, j.iters), 1);
  }

  const ZEROS: (nat, nat) -> byte := (r: nat, q: nat) => 0

  /** A world whose encapsulated function does nothing. */
  function Idle(junk: (nat, nat) -> byte): World {
    World(junk, ZEROS,
          (actuals: seq<Actual>, i: nat, q: nat) =>
            if i < |actuals| && actuals[i].BufferArg? && q < |actuals[i].bytes| then actuals[i].bytes[q] else 0)
  }

  lemma {:induction false} IdleApply(j: Job, junk: (nat, nat) -> byte, x: uint64, d: Data)
    requires j.Valid() && |d| == |j.args|
    ensures Apply(j, Idle(junk), x, d) == d
  {
    var w := Idle(junk);
    forall i | 0 <= i < |d|
      ensures Apply(j, w, x, d)[i] == d[i]
    {
      if j.args[i].ty.Pointer? {
        assert Actuals(j, x, d)[i] == BufferArg(d[i]);
        assert Written(|d[i]|, Actuals(j, x, d), i, w) == d[i];
      }
    }
  }

  lemma {:induction false} IdleFold(j: Job, junk: (nat, nat) -> byte, its: seq<uint64>, d: Data)
    requires j.Valid() && |d| == |j.args|
    ensures Fold(j, Idle(junk), its, d) == d
    decreases |its|
  {
    if its != [] {
      IdleFold(j, junk, its[..|its| - 1], d);
      IdleApply(j, junk, its[|its| - 1], d);
    }
  }

  /** Doing nothing commutes with itself and keeps every argument. */
  lemma {:induction false} IdleCommutes(j: Job, junk: (nat, nat) -> byte)
    requires j.Valid()
    ensures Commutes(j, Idle(junk)) && KeepsInbound(j, Idle(junk))
    ensures After1(j, Idle(junk)) == First(j, Idle(junk)) && After2(j, Idle(junk)) == Second(j, Idle(junk))
  {
    var w := Idle(junk);
    forall x: uint64, d: Data | |d| == |j.args|
      ensures Apply(j, w, x, d) == d
    {
      IdleApply(j, junk, x, d);
    }
    IdleFold(j, junk, Up(j.iters), First(j, w));
    assert Before2(j, w) == Second(j, w) by { ShareFirst(j, w); }
    IdleFold(j, junk, Down(j.iters), Before2(j, w));
  }

  lemma {:induction false} ShareFirst(j: Job, w: World)
    ensures Share(j, First(j, w), Second(j, w)) == Second(j, w)
  {
  }

  /** Leftovers that are zero except in region `r`. */
  function Marked(r: nat): (nat, nat) -> byte {
    (x: nat, q: nat) => if x == r then 1 else 0
  }

  /** If nothing is out of bounds, an argument that is only outbound makes the harness reject even
      a function that does nothing: the two copies start with different leftovers. */
  lemma {:induction false} LeftoversRejected(j: Job, i: nat)
    requires Small(j) && i < |j.args| && j.args[i].OnlyOut()
    ensures !VerdictOf(j, Idle(Marked(j.R2(i)))).Accept?
  {
    var w := Idle(Marked(j.R2(i)));
    IdleCommutes(j, Marked(j.R2(i)));
    AcceptIff(j, w);
    SmallSizes(j, i);
    var n := j.args[i].CmpSize(j.iters);
    if InBounds(j, i) {
      assert FirstAt(j, w, i)[..n][0] == 0 && SecondAt(j, w, i)[..n][0] == 1;
    }
  }

  /** An outbound argument that is compared out of bounds is never accepted. */
  lemma {:induction false} OvercomparedNotAccepted(j: Job, w: World, i: nat)
    requires Small(j) && i < |j.args| && Overcompared(j.args[i])
    ensures !VerdictOf(j, w).Accept?
  {
    SmallSizes(j, i);
    AcceptIff(j, w);
  }

  /** Exactly when the harness can be relied on not to raise a false alarm: every function whose
      iterations commute and that leaves inbound arguments alone is accepted, whatever the memory
      holds, if and only if no argument is only outbound and no outbound scalar is iterator
      dependent. */
  lemma {:induction false} NoFalseAlarmIff(j: Job)
    requires Small(j)
    ensures (forall w | Commutes(j, w) && KeepsInbound(j, w) :: VerdictOf(j, w) == Accept)
            <==> forall i | 0 <= i < |j.args| :: !j.args[i].OnlyOut() && !Overcompared(j.args[i])
  {
    if forall i | 0 <= i < |j.args| :: !j.args[i].OnlyOut() && !Overcompared(j.args[i]) {
      forall w | Commutes(j, w) && KeepsInbound(j, w)
        ensures VerdictOf(j, w) == Accept
      {
        forall i | 0 <= i < |j.args| && j.args[i].Out()
          ensures InBounds(j, i)
        {
          SmallSizes(j, i);
        }
        CommutingCodeIsAccepted(j, w);
      }
    } else {
      var i :| 0 <= i < |j.args| && (j.args[i].OnlyOut() || Overcompared(j.args[i]));
      var junk := Marked(j.R2(i));
      IdleCommutes(j, junk);
      if j.args[i].OnlyOut() {
        LeftoversRejected(j, i);
      } else {
        OvercomparedNotAccepted(j, Idle(junk), i);
      }
    }
  }

  /** The same about the run: it returns 0, after `6 * iters + 14` block visits and one more for
      each outbound argument. */
  lemma {:induction false} CommutingRunReturns(cfg: Cfg, j: Job, w: World) returns (st: State)
    requires Embedded(cfg, j) && Small(j) && Commutes(j, w) && KeepsInbound(j, w)
    requires forall i | 0 <= i < |j.args| :: !j.args[i].OnlyOut() && !Overcompared(j.args[i])
    ensures EndsAfter(cfg, w, Start(j), 6 * j.iters + 14 + |j.Outbound()|, Returned(VInt(0), st))
  {
    hide Embedded, Steps, Apply, Commutes, KeepsInbound, VerdictFrom;
    NoFalseAlarmIff(j);
    OneCheckEach(j);
    st := HarnessRun(cfg, j, w);
  }
}
