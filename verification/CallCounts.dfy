/** How often the encapsulated function is called: by one visit of a block, and by a whole run. */
module CallCounts {
  import opened IR
  import opened HarnessLayout
  import opened Semantics
  import opened WellFormed

  /** The calls control comes to in a block: those before its first terminator. */
  function CallsIn(b: Block): nat {
    if b == [] || IsTerminator(b[0]) then 0
    else (if b[0].CallEncapsulated? then 1 else 0) + CallsIn(b[1..])
  }

  lemma {:induction false} CallsInJoin(a: Block, b: Block)
    ensures CallsIn(a + b) == CallsIn(a) + if NoTerminator(a) then CallsIn(b) else 0
    decreases |a|
  {
    if a == [] {
      assert a + b == b;
    } else {
      assert (a + b)[1..] == a[1..] + b;
      CallsInJoin(a[1..], b);
      assert NoTerminator(a) <==> !IsTerminator(a[0]) && NoTerminator(a[1..]) by {
        assert forall p | 0 <= p < |a| - 1 :: a[1..][p] == a[p + 1];
        assert forall p | 0 < p < |a| :: a[p] == a[1..][p - 1];
      }
    }
  }

  lemma {:induction false} NothingCalled(b: Block)
    requires forall p | 0 <= p < |b| :: !b[p].CallEncapsulated?
    ensures CallsIn(b) == 0
  {
    if b != [] {
      NothingCalled(b[1..]);
    }
  }

  lemma {:induction false} FetchesCallNothing(vals: seq<ArgValue>, m: nat)
    requires m <= |vals|
    ensures CallsIn(FetchInstrs(vals, m)) == 0
    decreases m
  {
    if m > 0 {
      FetchesCallNothing(vals, m - 1);
      CallsInJoin(FetchInstrs(vals, m - 1), FetchInstr(vals[m - 1]));
    }
  }

  /** Fetching the arguments and calling is one call. */
  lemma {:induction false} CallInstrsCallOnce(vals: seq<ArgValue>, l: Label, p: nat)
    ensures CallsIn(CallInstrs(vals, l, p)) == 1 && NoTerminator(CallInstrs(vals, l, p))
  {
    FetchPlain(vals, |vals|);
    FetchesCallNothing(vals, |vals|);
    var call := [CallEncapsulated(FetchedOperands(vals, l, p, |vals|))];
    assert CallsIn(call) == 1 + CallsIn(call[1..]);
    CallsInJoin(FetchInstrs(vals, |vals|), call);
  }

  // ----- one visit -----

  lemma {:induction false} ExecuteCalls(i: Instr, here: Operand, prev: Label, st: State, w: World)
    requires !IsTerminator(i) && Execute(i, here, prev, st, w).Ok?
    ensures Calls(Execute(i, here, prev, st, w).st.log) ==
            Calls(st.log) + if i.CallEncapsulated? then 1 else 0
  {
    var log := Execute(i, here, prev, st, w).st.log;
    assert log == st.log || (|log| == |st.log| + 1 && log[..|st.log|] == st.log);
  }

  /** A visit that goes on to another block, or returns, makes exactly the calls before the block's
      first terminator. */
  lemma {:induction false} VisitCalls(b: Block, l: Label, pos: nat, prev: Label, st: State, w: World)
    requires pos <= |b|
    ensures var c := Exec(b, l, pos, prev, st, w);
            c.At? || c.Returned? ==> Calls(c.st.log) == Calls(st.log) + CallsIn(b[pos..])
    decreases |b| - pos
  {
    hide Execute, Calls;
    if pos < |b| && !IsTerminator(b[pos]) {
      assert b[pos..][1..] == b[pos + 1..];
      match Execute(b[pos], Inst(l, pos), prev, st, w) {
        case Ok(st') =>
          ExecuteCalls(b[pos], Inst(l, pos), prev, st, w);
          VisitCalls(b, l, pos + 1, prev, st', w);
        case _ =>
      }
    }
  }

  // ----- whole runs -----

  /** How often the first `n` visits from `c` are visits of block `l`. */
  function VisitsTo(cfg: Cfg, w: World, c: Config, n: nat, l: Label): nat
    decreases n
  {
    if n == 0 then 0
    else
      var d := Steps(cfg, w, c, n - 1);
      VisitsTo(cfg, w, c, n - 1, l) + if d.At? && d.block == l then 1 else 0
  }

  lemma {:induction false} VisitsAdd(cfg: Cfg, w: World, c: Config, m: nat, n: nat, l: Label)
    ensures VisitsTo(cfg, w, c, m + n, l) == VisitsTo(cfg, w, c, m, l) + VisitsTo(cfg, w, Steps(cfg, w, c, m), n, l)
    decreases n
  {
    hide Step;
    if n > 0 {
      VisitsAdd(cfg, w, c, m, n - 1, l);
      StepsAdd(cfg, w, c, m, n - 1);
    }
  }

  /** Only block `l` calls the encapsulated function, and once. */
  ghost predicate OnlyCaller(cfg: Cfg, l: Label) {
    l < |cfg| && forall x | 0 <= x < |cfg| :: CallsIn(cfg[x]) == if x == l then 1 else 0
  }

  /** Then every run calls it exactly as often as it visits that block. */
  lemma {:induction false} CallsAreVisits(cfg: Cfg, w: World, c: Config, n: nat, l: Label)
    requires OnlyCaller(cfg, l) && c.At?
    requires Steps(cfg, w, c, n).At? || Steps(cfg, w, c, n).Returned?
    ensures Calls(Steps(cfg, w, c, n).st.log) == Calls(c.st.log) + VisitsTo(cfg, w, c, n, l)
    decreases n
  {
    hide Exec, CallsIn, Calls;
    if n > 0 {
      var d := Steps(cfg, w, c, n - 1);
      CallsAreVisits(cfg, w, c, n - 1, l);
      if d.At? {
        VisitCalls(cfg[d.block], d.block, 0, d.prev, d.st, w);
        assert cfg[d.block][0..] == cfg[d.block];
      }
    }
  }
}
