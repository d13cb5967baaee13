/** Argument directions and argument specifications.

    A direction is kept as the raw byte the source keeps it in: a report can hand over any
    integer, so a value other than the three named ones has to mean something too.
  */
module ArgSpecs {

  type ArgDirection = bv8

  const AD_INBOUND: ArgDirection := 1
  const AD_OUTBOUND: ArgDirection := 2
  const AD_BOTH: ArgDirection := AD_INBOUND | AD_OUTBOUND

  predicate IsInbound(d: ArgDirection) {
    d & AD_INBOUND != 0
  }

  predicate IsOutbound(d: ArgDirection) {
    d & AD_OUTBOUND != 0
  }

  predicate IsOnlyInbound(d: ArgDirection) {
    d & AD_INBOUND != 0 && !(d & AD_OUTBOUND != 0)
  }

  predicate IsOnlyOutbound(d: ArgDirection) {
    d & AD_OUTBOUND != 0 && !(d & AD_INBOUND != 0)
  }

  lemma InboundBit(d: ArgDirection)
    ensures d & 1 != 0 <==> d as int % 2 == 1
  {
  }

  lemma OutboundBit(d: ArgDirection)
    ensures d & 2 != 0 <==> d as int / 2 % 2 == 1
  {
  }

  lemma LowBits(n: nat)
    ensures n % 4 == n % 2 + 2 * (n / 2 % 2)
  {
  }

  /** What each raw byte means, as a number: odd values are inbound, those whose next bit is set
      outbound; so 1, 2 and 3 are only inbound, only outbound and both, and the higher bits do not
      matter. */
  lemma DirectionKinds(d: ArgDirection)
    ensures IsInbound(d) <==> d as int % 2 == 1
    ensures IsOutbound(d) <==> d as int / 2 % 2 == 1
    ensures IsOnlyInbound(d) <==> d as int % 4 == 1
    ensures IsOnlyOutbound(d) <==> d as int % 4 == 2
    ensures IsInbound(d) && IsOutbound(d) <==> d as int % 4 == 3
    ensures !IsInbound(d) && !IsOutbound(d) <==> d as int % 4 == 0
  {
    InboundBit(d);
    OutboundBit(d);
    LowBits(d as int);
  }

  datatype ArgSpec = ArgSpec(name: string, direction: ArgDirection, iteratorDependent: bool)

  const DEFAULT_SPEC := ArgSpec("", AD_INBOUND, false)

  /** Parameter `i`'s entry of a list, or the padding behind its end. */
  function SpecAt(specs: seq<ArgSpec>, i: nat): ArgSpec {
    if i < |specs| then specs[i] else DEFAULT_SPEC
  }

  /** The specification list the generator works with: one entry for each of `n` parameters. */
  function Normalise(specs: seq<ArgSpec>, n: nat): (r: seq<ArgSpec>)
    ensures |r| == n
  {
    seq(n, i requires 0 <= i => SpecAt(specs, i))
  }
}
