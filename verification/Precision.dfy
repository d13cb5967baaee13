/** How much of a difference the harness can see, when it stays within memory, and what goes wrong
    outside the conditions of the commutativity theorem. */
module Precision {
  import opened IR
  import opened HarnessLayout
  import opened Semantics
  import opened HarnessSpec
  import opened RunSetup
  import opened RunCall
  import opened RunLoops
  import opened RunChecks
  import opened HarnessRuns
  import opened WholeRuns
  import opened HarnessMeaning
  import opened Commutativity

  // ----- memory safety -----

  /** With all memory zero and nothing done to it, everything that can be compared is equal. */
  lemma {:induction false} ZerosAgree(j: Job, i: nat)
    requires j.Valid() && i < |j.args| && InBounds(j, i)
    ensures Agree(j, After1(j, Idle(ZEROS)), After2(j, Idle(ZEROS)), i)
  {
    hide Fold, Apply;
    IdleCommutes(j, ZEROS);
    ZeroBytes(j, Idle(ZEROS), i);
  }

  lemma {:induction false} ZeroBytes(j: Job, w: World, i: nat)
    requires i < |j.args| && w.junk == ZEROS && w.sym == ZEROS
    ensures FirstAt(j, w, i) == SecondAt(j, w, i) && |FirstAt(j, w, i)| == j.args[i].Size(j.iters)
  {
    var n := j.args[i].Size(j.iters);
    assert Fill(n, ZEROS, j.R1(i)) == Fill(n, ZEROS, j.R2(i));
  }

  /** Some comparison is out of bounds in some run, if and only if an outbound argument's
      comparison exceeds its region. */
  lemma {:induction false} OutOfBoundsIff(j: Job)
    requires j.Valid()
    ensures (exists w :: VerdictOf(j, w).OutOfBounds?)
            <==> exists i :: 0 <= i < |j.args| && j.args[i].Out() && !InBounds(j, i)
  {
    hide After1, After2, InBounds, Agree;
    forall w | VerdictOf(j, w).OutOfBounds?
      ensures exists i :: 0 <= i < |j.args| && j.args[i].Out() && !InBounds(j, i)
    {
      VerdictIsFirstFailure(j, After1(j, w), After2(j, w));
      CheckedIsOut(j, VerdictOf(j, w).cond);
    }
    if i :| 0 <= i < |j.args| && j.args[i].Out() && !InBounds(j, i) {
      var w := Idle(ZEROS);
      AcceptIff(j, w);
      VerdictIsFirstFailure(j, After1(j, w), After2(j, w));
      if VerdictOf(j, w).Reject? {
        ZerosAgree(j, CheckedArg(j, VerdictOf(j, w).cond));
      }
      assert VerdictOf(j, w).OutOfBounds?;
    }
  }

  lemma {:induction false} FaultsOnlyOutOfBounds(cfg: Cfg, j: Job, w: World, n: nat)
    requires Embedded(cfg, j) && Steps(cfg, w, Start(j), n) == Faulted
    ensures VerdictOf(j, w).OutOfBounds?
  {
    hide Embedded, Steps, VerdictFrom;
    var st := HarnessRun(cfg, j, w);
    match VerdictOf(j, w) {
      case Accept =>
        EndedAt(cfg, w, Start(j), 6 * j.iters + 14 + j.Conds(), Returned(VInt(0), st), n);
      case Reject(c) =>
        EndedAt(cfg, w, Start(j), 6 * j.iters + 13 + c, Failed(j.FailLabel(c), st), n);
      case OutOfBounds(_) =>
    }
  }

  /** A run ends in a fault exactly if its verdict is a comparison out of bounds. */
  lemma {:induction false} FaultsIffOutOfBounds(cfg: Cfg, j: Job, w: World)
    requires Embedded(cfg, j)
    ensures (exists n: nat :: Steps(cfg, w, Start(j), n) == Faulted) <==> VerdictOf(j, w).OutOfBounds?
  {
    hide Embedded, Step, VerdictFrom;
    if n: nat :| Steps(cfg, w, Start(j), n) == Faulted {
      FaultsOnlyOutOfBounds(cfg, j, w, n);
    }
    var st := HarnessRun(cfg, j, w);
    if VerdictOf(j, w).OutOfBounds? {
      assert Steps(cfg, w, Start(j), 6 * j.iters + 12 + VerdictOf(j, w).cond) == Faulted;
    }
  }

  /** Once a run's end is known, every configuration of it is either running or that end. */
  lemma {:induction false} EndedAt(cfg: Cfg, w: World, c: Config, m: nat, d: Config, n: nat)
    requires EndsAfter(cfg, w, c, m, d)
    ensures Steps(cfg, w, c, n).At? || Steps(cfg, w, c, n) == d
  {
    if n < m {
      StillRunning(cfg, w, c, n, m - 1);
    } else {
      StepsAdd(cfg, w, c, m, n - m);
      EndedStays(cfg, w, d, n - m);
    }
  }

  /** Memory safety of every run: no access outside a region, to a freed one, or through a pointer
      never computed, whatever the function does to its buffers and whatever memory holds; if and
      only if no outbound scalar is iterator dependent. */
  lemma {:induction false} SafeIff(cfg: Cfg, j: Job)
    requires Embedded(cfg, j) && Small(j)
    ensures (forall w, n: nat :: Steps(cfg, w, Start(j), n) != Faulted)
            <==> forall i | 0 <= i < |j.args| :: !Overcompared(j.args[i])
  {
    hide Embedded, Steps, VerdictFrom;
    OutOfBoundsIff(j);
    forall i | 0 <= i < |j.args|
      ensures j.args[i].Out() && !InBounds(j, i) <==> Overcompared(j.args[i])
    {
      SmallSizes(j, i);
    }
    forall w, n: nat | Steps(cfg, w, Start(j), n) == Faulted
      ensures VerdictOf(j, w).OutOfBounds?
    {
      FaultsOnlyOutOfBounds(cfg, j, w, n);
    }
    if i :| 0 <= i < |j.args| && Overcompared(j.args[i]) {
      var w :| VerdictOf(j, w).OutOfBounds?;
      FaultsIffOutOfBounds(cfg, j, w);
    }
  }

  // ----- scalars -----

  /** The check of a scalar that goes both ways never rejects: it can only compare a copy with
      its original. */
  lemma {:induction false} ScalarNeverRejected(j: Job, w: World, c: nat)
    requires VerdictOf(j, w) == Reject(c)
    ensures c < j.Conds() && (j.args[CheckedArg(j, c)].ty.Pointer? || j.args[CheckedArg(j, c)].OnlyOut())
  {
    hide Apply, Fold;
    VerdictIsFirstFailure(j, After1(j, w), After2(j, w));
    var i := CheckedArg(j, c);
    CheckedIsOut(j, c);
    FinalSized(j, w);
    if !j.args[i].ty.Pointer? && !j.args[i].OnlyOut() {
      FoldKeepsScalars(j, w, Up(j.iters), First(j, w), i);
      FoldKeepsScalars(j, w, Down(j.iters), Before2(j, w), i);
    }
  }

  // ----- differences that are seen and differences that are missed -----

  /** A world whose function marks the last byte of its argument `i0` with whether the iteration
      was the first; all memory is zero. */
  function Marking(i0: nat): World {
    World(ZEROS, ZEROS, (actuals: seq<Actual>, i: nat, q: nat) => MarkedByte(i0, actuals, i, q))
  }

  function MarkedByte(i0: nat, actuals: seq<Actual>, i: nat, q: nat): byte {
    if i >= |actuals| || !actuals[i].BufferArg? || q >= |actuals[i].bytes| then 0
    else if i == i0 && q == |actuals[i].bytes| - 1 then if actuals[0] == IntArg(0) then 0 else 1
    else actuals[i].bytes[q]
  }

  function MarkLast(d: Data, i: nat, v: byte): (r: Data)
    requires i < |d| && |d[i]| > 0
    ensures |r| == |d| && |r[i]| == |d[i]|
  {
    var bytes: Bytes := d[i][..|d[i]| - 1] + [v];
    d[i := bytes]
  }

  lemma {:induction false} MarkingApply(j: Job, i0: nat, x: uint64, d: Data)
    requires j.Valid() && |d| == |j.args| && i0 < |d| && j.args[i0].ty.Pointer? && |d[i0]| > 0
    ensures Apply(j, Marking(i0), x, d) == MarkLast(d, i0, if x == 0 then 0 else 1)
  {
    var w, as0 := Marking(i0), Actuals(j, x, d);
    forall i | 0 <= i < |d|
      ensures Apply(j, w, x, d)[i] == MarkLast(d, i0, if x == 0 then 0 else 1)[i]
    {
      if j.args[i].ty.Pointer? {
        assert as0[i] == BufferArg(d[i]) && as0[0] == IntArg(x);
        assert Written(|d[i]|, as0, i, w) == MarkLast(d, i0, if x == 0 then 0 else 1)[i];
      }
    }
  }

  lemma {:induction false} MarkingFold(j: Job, i0: nat, its: seq<uint64>, d: Data)
    requires j.Valid() && |d| == |j.args| && i0 < |d| && j.args[i0].ty.Pointer? && |d[i0]| > 0 && |its| > 0
    ensures Fold(j, Marking(i0), its, d) == MarkLast(d, i0, if its[|its| - 1] == 0 then 0 else 1)
    decreases |its|
  {
    var n := |its| - 1;
    if n > 0 {
      MarkingFold(j, i0, its[..n], d);
    } else {
      assert Fold(j, Marking(i0), its[..0], d) == d;
    }
    var e := Fold(j, Marking(i0), its[..n], d);
    MarkingApply(j, i0, its[n], e);
  }

  /** The marked argument ends up different in the two sets, and all else the same. */
  lemma {:induction false} MarkingDiffers(j: Job, i0: nat)
    requires j.Valid() && i0 < |j.args| && j.args[i0].ty.Pointer? && j.args[i0].Out() && j.args[i0].Size(j.iters) > 0
    ensures var w := Marking(i0);
            && After1(j, w) == MarkLast(First(j, w), i0, 1)
            && After2(j, w) == MarkLast(First(j, w), i0, 0)
  {
    hide Fold, Apply;
    var w := Marking(i0);
    MarkingFold(j, i0, Up(j.iters), First(j, w));
    forall i | 0 <= i < |j.args|
      ensures FirstAt(j, w, i) == SecondAt(j, w, i)
    {
      ZeroBytes(j, w, i);
    }
    assert First(j, w) == Second(j, w);
    assert Before2(j, w) == First(j, w);
    MarkingFold(j, i0, Down(j.iters), First(j, w));
  }

  /** A difference behind the compared bytes goes unnoticed. */
  lemma {:induction false} DifferenceMissed(j: Job, i0: nat)
    requires Small(j) && i0 < |j.args| && j.args[i0].ty.Pointer? && j.args[i0].Out() && j.args[i0].ty.elemSize > 1
    requires forall i | 0 <= i < |j.args| :: !Overcompared(j.args[i])
    ensures VerdictOf(j, Marking(i0)) == Accept
    ensures After1(j, Marking(i0))[i0] != After2(j, Marking(i0))[i0]
  {
    hide After1, After2, VerdictFrom, MarkLast;
    var w := Marking(i0);
    SmallSizes(j, i0);
    SmallProducts(Multiplier(j.args[i0].spec, j.iters), j.args[i0].ty.elemSize);
    MarkingDiffers(j, i0);
    FirstSized(j, w);
    forall i | 0 <= i < |j.args| && j.args[i].Out()
      ensures InBounds(j, i) && Agree(j, After1(j, w), After2(j, w), i)
    {
      SmallSizes(j, i);
      MarksAgree(j, First(j, w), i0, i);
    }
    AcceptIff(j, w);
    MarksDiffer(First(j, w), i0);
  }

  lemma {:induction false} MarksAgree(j: Job, d: Data, i0: nat, i: nat)
    requires Sized(j, d) && i < |d| && i0 < |d| && |d[i0]| > 0 && InBounds(j, i)
    requires j.args[i0].CmpSize(j.iters) < j.args[i0].Size(j.iters)
    ensures Agree(j, MarkLast(d, i0, 1), MarkLast(d, i0, 0), i)
  {
    if i == i0 {
      var n := j.args[i].CmpSize(j.iters);
      assert MarkLast(d, i0, 1)[i][..n] == d[i][..n] == MarkLast(d, i0, 0)[i][..n];
    }
  }

  lemma {:induction false} MarksDiffer(d: Data, i0: nat)
    requires i0 < |d| && |d[i0]| > 0
    ensures MarkLast(d, i0, 1)[i0] != MarkLast(d, i0, 0)[i0]
  {
    assert MarkLast(d, i0, 1)[i0][|d[i0]| - 1] == 1;
  }

  /** Exactly when acceptance means that the two orders leave the same data: if some outbound
      scalar is iterator dependent (then nothing is ever accepted), or every outbound pointer is
      to elements of one byte.  In all other cases only one byte for each element is compared. */
  lemma {:induction false} AcceptanceIsEqualityIff(j: Job)
    requires Small(j)
    ensures (forall w | VerdictOf(j, w) == Accept ::
               forall i | 0 <= i < |j.args| && j.args[i].Out() :: After1(j, w)[i] == After2(j, w)[i])
            <==> || (exists i :: 0 <= i < |j.args| && Overcompared(j.args[i]))
                 || forall i | 0 <= i < |j.args| && j.args[i].Out() && j.args[i].ty.Pointer? ::
                      j.args[i].ty.elemSize == 1
  {
    hide After1, After2, VerdictFrom;
    if o :| 0 <= o < |j.args| && Overcompared(j.args[o]) {
      forall w
        ensures VerdictOf(j, w) != Accept
      {
        OvercomparedNotAccepted(j, w, o);
      }
    } else if i0 :| 0 <= i0 < |j.args| && j.args[i0].Out() && j.args[i0].ty.Pointer? && j.args[i0].ty.elemSize != 1 {
      DifferenceMissed(j, i0);
    } else {
      forall w, i | VerdictOf(j, w) == Accept && 0 <= i < |j.args| && j.args[i].Out()
        ensures After1(j, w)[i] == After2(j, w)[i]
      {
        AcceptedByteSizedEqual(j, w, i);
      }
    }
  }

  lemma {:induction false} AcceptedByteSizedEqual(j: Job, w: World, i: nat)
    requires Small(j) && VerdictOf(j, w) == Accept && i < |j.args| && j.args[i].Out()
    requires !Overcompared(j.args[i]) && (j.args[i].ty.Pointer? ==> j.args[i].ty.elemSize == 1)
    ensures After1(j, w)[i] == After2(j, w)[i]
  {
    hide Fold, Apply, VerdictFrom;
    AcceptIff(j, w);
    AfterSized(j, w);
    SmallSizes(j, i);
    SmallProducts(Multiplier(j.args[i].spec, j.iters), j.args[i].ty.TypeSize());
    var n := j.args[i].CmpSize(j.iters);
    assert n == |After1(j, w)[i]| == |After2(j, w)[i]|;
  }

  lemma {:induction false} AfterSized(j: Job, w: World)
    ensures Sized(j, After1(j, w)) && Sized(j, After2(j, w))
  {
    hide Sized;
    FirstSized(j, w);
    FoldSized(j, w, Up(j.iters), First(j, w));
    FinalSized(j, w);
  }

  // ----- writes to shared buffers -----

  /** A world whose function, whatever the iteration, sets the first byte of its argument `p`, and
      records in the first byte of its argument `o`, once, whether it found it set. */
  function Latching(p: nat, o: nat): World {
    World(ZEROS, ZEROS, (actuals: seq<Actual>, i: nat, q: nat) => LatchedByte(p, o, actuals, i, q))
  }

  function LatchedByte(p: nat, o: nat, actuals: seq<Actual>, i: nat, q: nat): byte {
    if i >= |actuals| || !actuals[i].BufferArg? || q >= |actuals[i].bytes| then 0
    else if q != 0 || (i != p && i != o) then actuals[i].bytes[q]
    else if i == p then 1
    else if actuals[o].bytes[0] != 0 then actuals[o].bytes[0]
    else if p < |actuals| && actuals[p].BufferArg? && |actuals[p].bytes| > 0 && actuals[p].bytes[0] == 0 then 1
    else 2
  }

  function SetFirst(b: Bytes, v: byte): (r: Bytes)
    requires |b| > 0
    ensures |r| == |b| && r[0] == v
  {
    [v] + b[1..]
  }

  /** One call. */
  function Latch(d: Data, p: nat, o: nat): (r: Data)
    requires p < |d| && o < |d| && p != o && |d[p]| > 0 && |d[o]| > 0
    ensures |r| == |d| && |r[p]| == |d[p]| && |r[o]| == |d[o]|
    ensures r[p][0] == 1
    ensures r[o][0] == if d[o][0] != 0 then d[o][0] else if d[p][0] == 0 then 1 else 2
  {
    d[p := SetFirst(d[p], 1)][o := SetFirst(d[o], if d[o][0] != 0 then d[o][0] else if d[p][0] == 0 then 1 else 2)]
  }

  ghost predicate LatchArgs(j: Job, p: nat, o: nat) {
    && j.Valid() && p < |j.args| && o < |j.args| && j.args[p].ty.Pointer? && j.args[o].ty.Pointer?
    && !j.args[p].Out() && j.args[o].Out()
  }

  lemma {:induction false} LatchingApply(j: Job, p: nat, o: nat, x: uint64, d: Data)
    requires LatchArgs(j, p, o) && |d| == |j.args| && |d[p]| > 0 && |d[o]| > 0
    ensures Apply(j, Latching(p, o), x, d) == Latch(d, p, o)
  {
    var w, as0 := Latching(p, o), Actuals(j, x, d);
    forall i | 0 <= i < |d|
      ensures Apply(j, w, x, d)[i] == Latch(d, p, o)[i]
    {
      if j.args[i].ty.Pointer? {
        assert as0[i] == BufferArg(d[i]) && as0[p] == BufferArg(d[p]) && as0[o] == BufferArg(d[o]);
        forall q | 0 <= q < |d[i]|
          ensures Written(|d[i]|, as0, i, w)[q] == Latch(d, p, o)[i][q]
        {
        }
      }
    }
  }

  /** After one call or more: argument `p` is set, and argument `o` has what the first call found. */
  lemma {:induction false} LatchingFold(j: Job, p: nat, o: nat, its: seq<uint64>, d: Data)
    requires LatchArgs(j, p, o) && |d| == |j.args| && |d[p]| > 0 && |d[o]| > 0 && |its| > 0
    ensures var e := Fold(j, Latching(p, o), its, d);
            && |e| == |d| && |e[p]| == |d[p]| && |e[o]| == |d[o]|
            && e[p][0] == 1 && e[o][0] == (if d[o][0] != 0 then d[o][0] else if d[p][0] == 0 then 1 else 2)
    decreases |its|
  {
    var n := |its| - 1;
    if n > 0 {
      LatchingFold(j, p, o, its[..n], d);
    } else {
      assert Fold(j, Latching(p, o), its[..0], d) == d;
    }
    LatchingApply(j, p, o, its[n], Fold(j, Latching(p, o), its[..n], d));
  }

  /** Calls that do the same in every iteration commute, also with such a function. */
  lemma {:induction false} LatchingCommutes(j: Job, p: nat, o: nat)
    requires LatchArgs(j, p, o) && j.args[p].Size(j.iters) > 0 && j.args[o].Size(j.iters) > 0
    ensures Commutes(j, Latching(p, o))
  {
    hide Apply, Latching;
    var w := Latching(p, o);
    forall x: uint64, y: uint64, d: Data | Input(j, w, d)
      ensures Apply(j, w, x, Apply(j, w, y, d)) == Apply(j, w, y, Apply(j, w, x, d))
    {
      LatchingApply(j, p, o, x, d);
      LatchingApply(j, p, o, y, d);
      LatchingApply(j, p, o, x, Latch(d, p, o));
      LatchingApply(j, p, o, y, Latch(d, p, o));
    }
  }

  /** The second set starts with what the first set's calls wrote to the shared buffer, so such a
      function is not accepted. */
  lemma {:induction false} LatchingNotAccepted(j: Job, p: nat, o: nat)
    requires LatchArgs(j, p, o) && Small(j)
    ensures !VerdictOf(j, Latching(p, o)).Accept?
  {
    hide Apply, Fold, VerdictFrom;
    var w := Latching(p, o);
    SmallSizes(j, p);
    SmallSizes(j, o);
    SmallProducts(Multiplier(j.args[p].spec, j.iters), j.args[p].ty.elemSize);
    SmallProducts(Multiplier(j.args[o].spec, j.iters), j.args[o].ty.elemSize);
    FirstSized(j, w);
    LatchingFold(j, p, o, Up(j.iters), First(j, w));
    LatchingFold(j, p, o, Down(j.iters), Before2(j, w));
    var n := j.args[o].CmpSize(j.iters);
    if InBounds(j, o) {
      assert After1(j, w)[o][..n][0] == 1 && After2(j, w)[o][..n][0] == 2;
    }
    AcceptIff(j, w);
  }

  /** An argument that is not outbound has one buffer for both sets, and an outbound buffer can
      depend on it. */
  predicate Entangled(j: Job) {
    && (exists p :: 0 <= p < |j.args| && j.args[p].ty.Pointer? && !j.args[p].Out())
    && (exists o :: 0 <= o < |j.args| && j.args[o].ty.Pointer? && j.args[o].Out())
  }

  /** Without assuming that inbound arguments are left alone: every function whose iterations
      commute is accepted if and only if, in addition, no buffer that is not outbound stands
      beside an outbound one. */
  lemma {:induction false} NoFalseAlarmAtAllIff(j: Job)
    requires Small(j)
    ensures (forall w | Commutes(j, w) :: VerdictOf(j, w) == Accept)
            <==> (forall i | 0 <= i < |j.args| :: !j.args[i].OnlyOut() && !Overcompared(j.args[i])) && !Entangled(j)
  {
    hide VerdictFrom, After1, After2, Commutes, Latching;
    NoFalseAlarmIff(j);
    if !(forall i | 0 <= i < |j.args| :: !j.args[i].OnlyOut() && !Overcompared(j.args[i])) {
    } else if Entangled(j) {
      var p :| 0 <= p < |j.args| && j.args[p].ty.Pointer? && !j.args[p].Out();
      var o :| 0 <= o < |j.args| && j.args[o].ty.Pointer? && j.args[o].Out();
      SmallSizes(j, p);
      SmallSizes(j, o);
      SmallProducts(Multiplier(j.args[p].spec, j.iters), j.args[p].ty.elemSize);
      SmallProducts(Multiplier(j.args[o].spec, j.iters), j.args[o].ty.elemSize);
      LatchingCommutes(j, p, o);
      LatchingNotAccepted(j, p, o);
    } else {
      forall w | Commutes(j, w)
        ensures VerdictOf(j, w) == Accept
      {
        UntangledAccepted(j, w);
      }
    }
  }

  lemma {:induction false} UntangledAccepted(j: Job, w: World)
    requires Small(j) && Commutes(j, w) && !Entangled(j)
    requires forall i | 0 <= i < |j.args| :: !j.args[i].OnlyOut() && !Overcompared(j.args[i])
    ensures VerdictOf(j, w) == Accept
  {
    hide VerdictFrom, After1, After2, Fold;
    if forall p | 0 <= p < |j.args| && j.args[p].ty.Pointer? :: j.args[p].Out() {
      assert KeepsInbound(j, w);
      NoFalseAlarmIff(j);
    } else {
      hide InBounds, CheckedArg, Passes;
      forall i | 0 <= i < |j.args| && j.args[i].Out()
        ensures InBounds(j, i)
      {
        SmallSizes(j, i);
      }
      VerdictIsFirstFailure(j, After1(j, w), After2(j, w));
      if VerdictOf(j, w).Reject? {
        ScalarNeverRejected(j, w, VerdictOf(j, w).cond);
      }
    }
  }
}
