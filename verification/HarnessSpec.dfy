/** What a harness means, said without blocks, registers or pointers: two copies of the arguments,
    a fold of the encapsulated function over each, and a comparison. */
module HarnessSpec {
  import opened IR
  import opened HarnessLayout
  import opened Semantics

  /** The bytes of each argument, in one of the two sets. */
  type Data = seq<Bytes>

  // ----- the encapsulated function on a set of arguments -----

  function ActualAt(j: Job, iteration: uint64, d: Data, i: nat): Actual
    requires i < |d| == |j.args|
  {
    if i == 0 then IntArg(iteration)
    else if j.args[i].ty.Pointer? then BufferArg(d[i])
    else ScalarArg(d[i])
  }

  function Actuals(j: Job, iteration: uint64, d: Data): (r: seq<Actual>)
    requires |d| == |j.args|
    ensures |r| == |d|
  {
    seq(|d|, i requires 0 <= i < |d| => ActualAt(j, iteration, d, i))
  }

  /** The arguments after one call: only buffers behind pointers can change, and they keep their
      size. */
  function Apply(j: Job, w: World, iteration: uint64, d: Data): (r: Data)
    requires |d| == |j.args|
    ensures |r| == |d|
  {
    seq(|d|, i requires 0 <= i < |d| =>
      if j.args[i].ty.Pointer? then Written(|d[i]|, Actuals(j, iteration, d), i, w) else d[i])
  }

  /** One call for each iteration of `its`, in order. */
  function Fold(j: Job, w: World, its: seq<uint64>, d: Data): (r: Data)
    requires |d| == |j.args|
    ensures |r| == |d|
    decreases |its|
  {
    if its == [] then d
    else Apply(j, w, its[|its| - 1], Fold(j, w, its[..|its| - 1], d))
  }

  // ----- the two sets -----

  /** `mine` as seen through the other set: an argument that is not outbound is shared, an
      outbound one is the other set's own. */
  function Share(j: Job, mine: Data, theirs: Data): (r: Data)
    requires |mine| == |theirs| == |j.args|
    ensures |r| == |j.args|
  {
    seq(|j.args|, i requires 0 <= i < |j.args| => if j.args[i].Out() then theirs[i] else mine[i])
  }

  /** What argument `i` holds in the first set when the loops start: symbolic bytes, or what the
      allocation left there if the argument is only outbound. */
  function FirstAt(j: Job, w: World, i: nat): Bytes
    requires i < |j.args|
  {
    Fill(j.args[i].Size(j.iters), if j.args[i].OnlyOut() then w.junk else w.sym, j.R1(i))
  }

  /** ... and in the second: a copy, except that an only outbound argument has other leftovers. */
  function SecondAt(j: Job, w: World, i: nat): Bytes
    requires i < |j.args|
  {
    if j.args[i].OnlyOut() then Fill(j.args[i].Size(j.iters), w.junk, j.R2(i)) else FirstAt(j, w, i)
  }

  function First(j: Job, w: World): (r: Data)
    ensures |r| == |j.args|
  {
    seq(|j.args|, i requires 0 <= i < |j.args| => FirstAt(j, w, i))
  }

  function Second(j: Job, w: World): (r: Data)
    ensures |r| == |j.args|
  {
    seq(|j.args|, i requires 0 <= i < |j.args| => SecondAt(j, w, i))
  }

  // ----- iterations -----

  function Up(n: uint64): (r: seq<uint64>)
    ensures |r| == n
  {
    seq(n, k requires 0 <= k < n => k)
  }

  function Down(n: uint64): (r: seq<uint64>)
    ensures |r| == n
  {
    seq(n, k requires 0 <= k < n => n - 1 - k)
  }

  // ----- the run -----

  /** The first set after its calls, in ascending order. */
  function After1(j: Job, w: World): (r: Data)
    ensures |r| == |j.args|
  {
    Fold(j, w, Up(j.iters), First(j, w))
  }

  /** The second set when its calls start: whatever the first calls left in shared arguments. */
  function Before2(j: Job, w: World): (r: Data)
    ensures |r| == |j.args|
  {
    Share(j, After1(j, w), Second(j, w))
  }

  /** The second set after its calls, in descending order. */
  function After2(j: Job, w: World): (r: Data)
    ensures |r| == |j.args|
  {
    Fold(j, w, Down(j.iters), Before2(j, w))
  }

  // ----- the verdict -----

  /** The comparison of outbound argument `i` stays inside its two regions. */
  predicate InBounds(j: Job, i: nat)
    requires i < |j.args|
  {
    j.args[i].CmpSize(j.iters) <= j.args[i].Size(j.iters)
  }

  /** The compared bytes of argument `i` are the same in both sets. */
  predicate Agree(j: Job, a: Data, b: Data, i: nat)
    requires i < |j.args| == |a| == |b|
  {
    var n := j.args[i].CmpSize(j.iters);
    n <= |a[i]| && n <= |b[i]| && a[i][..n] == b[i][..n]
  }

  datatype Verdict = Accept | Reject(cond: nat) | OutOfBounds(cond: nat)

  /** The outbound arguments are checked in order, from number `c` of them on; the first one that
      cannot be compared, or that differs, decides. */
  function VerdictFrom(j: Job, a: Data, b: Data, c: nat): Verdict
    requires |a| == |b| == |j.args|
    decreases j.Conds() - c
  {
    if c >= j.Conds() then Accept
    else
      SelectedInRange(j.Specs(), |j.args|);
      var i := j.Outs()[c];
      if !InBounds(j, i) then OutOfBounds(c)
      else if !Agree(j, a, b, i) then Reject(c)
      else VerdictFrom(j, a, b, c + 1)
  }

  function VerdictOf(j: Job, w: World): Verdict {
    VerdictFrom(j, After1(j, w), After2(j, w), 0)
  }
}
