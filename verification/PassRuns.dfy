/** What the harnesses a pass leaves do when they run. */
module PassRuns {
  import opened IR
  import opened HarnessLayout
  import opened HarnessAssembly
  import opened Semantics
  import opened RunSetup
  import opened HarnessRuns
  import opened WellFormed
  import opened EncapsulationPass

  /** The first of the reports that lead to a harness called `name`. */
  lemma {:induction false} FirstReport(work: WorkList, force: bool, prefix: string, name: string,
                                       reports: seq<Report>) returns (i: nat)
    requires Names(work, force, prefix, name, reports)
    ensures i < |reports| && Accepted(work, force, reports[i]) && name == prefix + reports[i].func
    ensures !Names(work, force, prefix, name, reports[..i])
    decreases |reports|
  {
    hide Accepted;
    var n := |reports| - 1;
    assert reports[..n + 1] == reports;
    OneMoreReport(work, force, prefix, name, reports, n);
    if Names(work, force, prefix, name, reports[..n]) {
      i := FirstReport(work, force, prefix, name, reports[..n]);
      assert reports[..n][..i] == reports[..i];
    } else {
      i := n;
    }
  }

  /** Later reports only append. */
  lemma {:induction false} LaterReportsAppend(work: WorkList, force: bool, iters: uint32, prefix: string,
                                              name: string, bs: Cfg, reports: seq<Report>, i: nat)
    requires i <= |reports| && forall r | r in reports && Accepted(work, force, r) :: |work[r.func]| > 0
    ensures Grown(work, force, iters, prefix, name, bs, reports[..i]) <=
            Grown(work, force, iters, prefix, name, bs, reports)
    decreases |reports| - i
  {
    hide Grown, GrownOne;
    if i == |reports| {
      assert reports[..i] == reports;
    } else {
      NextGrowth(work, force, iters, prefix, name, bs, reports, i);
      OneGrowth(work, force, iters, prefix, name,
                Grown(work, force, iters, prefix, name, bs, reports[..i]), reports[i]);
      LaterReportsAppend(work, force, iters, prefix, name, bs, reports, i + 1);
    }
  }

  lemma {:induction false} OneGrowth(work: WorkList, force: bool, iters: uint32, prefix: string, name: string,
                                     bs: Cfg, r: Report)
    ensures bs <= GrownOne(work, force, iters, prefix, name, bs, r)
  {
    hide Job.Blocks;
  }

  // ----- runs stay in the first harness -----

  /** All branches of block `b` lead below label `n`. */
  predicate TargetsBelow(b: Block, n: nat) {
    forall p | 0 <= p < |b| :: (b[p].Br? ==> b[p].target < n) && (b[p].CondBr? ==> b[p].ifTrue < n && b[p].ifFalse < n)
  }

  lemma {:induction false} ExecStaysBelow(b: Block, l: Label, pos: nat, prev: Label, st: State, w: World, n: nat)
    requires TargetsBelow(b, n)
    ensures Exec(b, l, pos, prev, st, w).At? ==> Exec(b, l, pos, prev, st, w).block < n
    decreases |b| - pos
  {
    hide Execute;
    if pos < |b| && !IsTerminator(b[pos]) {
      match Execute(b[pos], Inst(l, pos), prev, st, w) {
        case Ok(st') => ExecStaysBelow(b, l, pos + 1, prev, st', w, n);
        case _ =>
      }
    }
  }

  /** Blocks behind a graph whose branches stay inside it make no difference to its runs. */
  lemma {:induction false} SameRun(cfg: Cfg, rest: Cfg, w: World, c: Config, n: nat)
    requires forall l | 0 <= l < |cfg| :: TargetsBelow(cfg[l], |cfg|)
    requires c.At? ==> c.block < |cfg|
    ensures Steps(cfg + rest, w, c, n) == Steps(cfg, w, c, n)
    ensures Steps(cfg, w, c, n).At? ==> Steps(cfg, w, c, n).block < |cfg|
    decreases n
  {
    hide TargetsBelow, Exec;
    if n > 0 {
      SameRun(cfg, rest, w, c, n - 1);
      var d := Steps(cfg, w, c, n - 1);
      if d.At? {
        assert (cfg + rest)[d.block] == cfg[d.block];
        ExecStaysBelow(cfg[d.block], d.block, 0, d.prev, d.st, w, |cfg|);
      }
    }
  }

  lemma {:induction false} HarnessIsClosed(j: Job, x: Label)
    requires j.Valid() && j.base == 0 && x < j.Size()
    ensures TargetsBelow(j.Blocks()[x], |j.Blocks()|)
  {
    hide Job.BlockAt;
    var b := j.Blocks()[x];
    assert b == j.BlockAt(x);
    BlocksTerminated(j, x);
    NextIsSuccessors(j, x);
    forall p | 0 <= p < |b|
      ensures b[p].Br? ==> b[p].target < j.Size()
      ensures b[p].CondBr? ==> b[p].ifTrue < j.Size() && b[p].ifFalse < j.Size()
    {
      if p == |b| - 1 {
        TargetIsNext(j, x);
      }
    }
  }

  lemma {:induction false} TargetIsNext(j: Job, x: Label)
    requires j.Valid() && j.base == 0 && x < j.Size() && |j.BlockAt(x)| > 0
    ensures var t := j.BlockAt(x)[|j.BlockAt(x)| - 1];
            (t.Br? ==> t.target < j.Size()) && (t.CondBr? ==> t.ifTrue < j.Size() && t.ifFalse < j.Size())
  {
    hide Job.BlockAt;
    var t := j.BlockAt(x)[|j.BlockAt(x)| - 1];
    NextIsSuccessors(j, x);
    assert forall y | y in Next(j, x) :: y < j.Size();
    if t.Br? {
      assert [t.target][0] in Next(j, x);
    } else if t.CondBr? {
      assert [t.ifTrue, t.ifFalse][0] in Next(j, x) && [t.ifTrue, t.ifFalse][1] in Next(j, x);
    }
  }

  /** However many reports follow on the same function, what stands at the entry of a harness that
      did not exist before is the harness of the first report, and every run of the function is,
      visit by visit, the run of that harness alone. */
  lemma {:induction false} FirstHarnessStands(work: WorkList, force: bool, iters: uint32, prefix: string, name: string,
                                              reports: seq<Report>, w: World, n: nat)
    returns (i: nat, j: Job)
    requires Names(work, force, prefix, name, reports)
    requires forall r | r in reports && Accepted(work, force, r) :: GoodParams(work[r.func], iters)
    ensures i < |reports| && Accepted(work, force, reports[i]) && name == prefix + reports[i].func
    ensures !Names(work, force, prefix, name, reports[..i])
    ensures j == JobFor(work[reports[i].func], reports[i].specs, iters, 0)
    ensures Embedded(Grown(work, force, iters, prefix, name, [], reports), j)
    ensures Steps(Grown(work, force, iters, prefix, name, [], reports), w, Start(j), n) ==
            Steps(j.Blocks(), w, Start(j), n)
  {
    hide Embedded, Names, Job.Blocks, Grown, Steps;
    i := FirstReport(work, force, prefix, name, reports);
    assert reports[i] in reports;
    GoodParamsMakeJobs(work[reports[i].func], reports[i].specs, iters, 0);
    j := JobFor(work[reports[i].func], reports[i].specs, iters, 0);
    NextGrowth(work, force, iters, prefix, name, [], reports, i);
    LaterReportsAppend(work, force, iters, prefix, name, [], reports, i + 1);
    var all := Grown(work, force, iters, prefix, name, [], reports);
    assert [] + j.Blocks() == j.Blocks() <= all;
    var rest := all[|j.Blocks()|..];
    AppendedEmbeds([], j, rest);
    assert [] + j.Blocks() + rest == all;
    RunsAlone(j, rest, w, n);
  }

  lemma {:induction false} RunsAlone(j: Job, rest: Cfg, w: World, n: nat)
    requires j.Valid() && j.base == 0
    ensures Steps(j.Blocks() + rest, w, Start(j), n) == Steps(j.Blocks(), w, Start(j), n)
  {
    hide TargetsBelow, Job.BlockAt;
    forall x | 0 <= x < |j.Blocks()|
      ensures TargetsBelow(j.Blocks()[x], |j.Blocks()|)
    {
      HarnessIsClosed(j, x);
    }
    SameRun(j.Blocks(), rest, w, Start(j), n);
  }
}
