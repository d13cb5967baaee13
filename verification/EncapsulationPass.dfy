/** The pass over a module: which functions the reports it finds get harnesses for. */
module EncapsulationPass {
  import opened ArgSpecs
  import opened IR
  import opened HarnessLayout
  import opened HarnessAssembly
  import opened Encapsulation

  /** A report that was read: the function it is about, and its argument specifications. */
  datatype Report = Report(func: string, specs: seq<ArgSpec>)
  {
    predicate HasOutbound() {
      exists i | 0 <= i < |specs| :: IsOutbound(specs[i].direction)
    }
  }

  datatype Whitelist = Everything | Only(names: seq<string>)
  {
    predicate Allows(name: string) {
      Everything? || name in names
    }
  }

  /** The functions a report can be about: name and parameters, fixed before the first report. */
  type WorkList = map<string, seq<ParamType>>

  /** The report leads to a harness. */
  predicate Accepted(work: WorkList, force: bool, r: Report) {
    r.func in work && (force || r.HasOutbound())
  }

  /** The blocks of the function called `name` after one report. */
  function GrownOne(work: WorkList, force: bool, iters: uint32, prefix: string, name: string, bs: Cfg, r: Report): Cfg {
    if Accepted(work, force, r) && name == prefix + r.func && |work[r.func]| > 0 then
      bs + JobFor(work[r.func], r.specs, iters, |bs|).Blocks()
    else bs
  }

  /** ... and after all `reports`, in order. */
  function Grown(work: WorkList, force: bool, iters: uint32, prefix: string, name: string, bs: Cfg,
                 reports: seq<Report>): Cfg
    decreases |reports|
  {
    if reports == [] then bs
    else
      var n := |reports| - 1;
      GrownOne(work, force, iters, prefix, name, Grown(work, force, iters, prefix, name, bs, reports[..n]), reports[n])
  }

  /** Some report leads to a harness called `name`. */
  ghost predicate Names(work: WorkList, force: bool, prefix: string, name: string, reports: seq<Report>) {
    exists i :: 0 <= i < |reports| && Accepted(work, force, reports[i]) && name == prefix + reports[i].func
  }

  lemma {:induction false} OneMoreReport(work: WorkList, force: bool, prefix: string, name: string,
                                         reports: seq<Report>, n: nat)
    requires n < |reports|
    ensures Names(work, force, prefix, name, reports[..n + 1]) <==>
            Names(work, force, prefix, name, reports[..n])
            || (Accepted(work, force, reports[n]) && name == prefix + reports[n].func)
  {
    if Names(work, force, prefix, name, reports[..n]) {
      var i :| 0 <= i < n && Accepted(work, force, reports[..n][i]) && name == prefix + reports[..n][i].func;
      assert reports[..n + 1][i] == reports[..n][i];
    }
    if Accepted(work, force, reports[n]) && name == prefix + reports[n].func {
      assert reports[..n + 1][n] == reports[n];
    }
    if Names(work, force, prefix, name, reports[..n + 1]) {
      var i :| && 0 <= i < n + 1 && Accepted(work, force, reports[..n + 1][i])
               && name == prefix + reports[..n + 1][i].func;
      if i < n {
        assert reports[..n][i] == reports[..n + 1][i];
      }
    }
  }

  /** A function grows exactly if some report leads to a harness of its name, and then it only
      grows behind what it was. */
  lemma {:induction false} GrowsIff(work: WorkList, force: bool, iters: uint32, prefix: string, name: string, bs: Cfg,
                                    reports: seq<Report>)
    requires forall r | r in reports && Accepted(work, force, r) :: |work[r.func]| > 0
    ensures bs <= Grown(work, force, iters, prefix, name, bs, reports)
    ensures Grown(work, force, iters, prefix, name, bs, reports) != bs <==> Names(work, force, prefix, name, reports)
    decreases |reports|
  {
    hide Job.Blocks;
    if reports != [] {
      var n := |reports| - 1;
      GrowsIff(work, force, iters, prefix, name, bs, reports[..n]);
      OneMoreReport(work, force, prefix, name, reports, n);
      assert reports[..n + 1] == reports;
      if Accepted(work, force, reports[n]) && name == prefix + reports[n].func {
        var before := Grown(work, force, iters, prefix, name, bs, reports[..n]);
        HarnessIsNotEmpty(JobFor(work[reports[n].func], reports[n].specs, iters, |before|));
      }
    }
  }

  lemma {:induction false} HarnessIsNotEmpty(j: Job)
    requires |j.args| > 0
    ensures |j.Blocks()| == j.Size() >= 18
  {
  }

  lemma {:induction false} NextGrowth(work: WorkList, force: bool, iters: uint32, prefix: string, name: string, bs: Cfg,
                                      reports: seq<Report>, n: nat)
    requires n < |reports| && forall r | r in reports && Accepted(work, force, r) :: |work[r.func]| > 0
    ensures Grown(work, force, iters, prefix, name, bs, reports[..n + 1]) ==
            GrownOne(work, force, iters, prefix, name,
                     Grown(work, force, iters, prefix, name, bs, reports[..n]), reports[n])
    ensures !Names(work, force, prefix, name, reports[..n]) ==>
            Grown(work, force, iters, prefix, name, bs, reports[..n]) == bs
  {
    assert reports[..n + 1][..n] == reports[..n];
    GrowsIff(work, force, iters, prefix, name, bs, reports[..n]);
  }

  /** What the generator demands of the parameters of a function it is given. */
  predicate GoodParams(params: seq<ParamType>, iters: uint32) {
    && |params| > 0 && params[0].I64? && iters >= 2
    && forall i | 0 <= i < |params| :: 0 < params[i].TypeSize() < TWO_64
  }

  lemma {:induction false} GoodParamsMakeJobs(params: seq<ParamType>, specs: seq<ArgSpec>, iters: uint32, base: Label)
    requires GoodParams(params, iters)
    ensures JobFor(params, specs, iters, base).Valid()
  {
  }

  /** Report `r` leads to a harness for `f`, one of the functions there were. */
  ghost predicate Leads(start: map<Function, Cfg>, allowed: Whitelist, force: bool, r: Report, f: Function)
    requires f in start
  {
    && f.name == r.func && start[f] != [] && (allowed.Only? ==> f.name in allowed.names)
    && (force || exists i :: 0 <= i < |r.specs| && IsOutbound(r.specs[i].direction))
  }

  /** The work list, in terms of the functions there were. */
  ghost predicate WorkFrom(start: map<Function, Cfg>, allowed: Whitelist, work: WorkList) {
    forall n :: n in work <==>
      exists f :: f in start && f.name == n && start[f] != [] && (allowed.Only? ==> n in allowed.names)
  }

  /** The reports that are accepted are those that lead to a harness for some function. */
  lemma {:induction false} AcceptedIsLed(start: map<Function, Cfg>, allowed: Whitelist, force: bool, work: WorkList,
                                         r: Report)
    returns (f: Function)
    requires WorkFrom(start, allowed, work) && Accepted(work, force, r)
    ensures f in start && Leads(start, allowed, force, r, f)
  {
    f :| f in start && f.name == r.func && start[f] != [] && (allowed.Only? ==> r.func in allowed.names);
  }

  lemma {:induction false} LedIsAccepted(start: map<Function, Cfg>, allowed: Whitelist, reports: seq<Report>,
                                         force: bool, work: WorkList, r: Report, f: Function)
    requires WorkFrom(start, allowed, work) && r in reports && f in start && Leads(start, allowed, force, r, f)
    ensures exists i :: 0 <= i < |reports| && reports[i] == r && Accepted(work, force, reports[i])
  {
    assert r.func in work;
    var i :| 0 <= i < |reports| && reports[i] == r;
    assert Accepted(work, force, reports[i]);
  }

  lemma {:induction false} SomeAccepted(start: map<Function, Cfg>, allowed: Whitelist, reports: seq<Report>,
                                        force: bool, work: WorkList)
    requires WorkFrom(start, allowed, work)
    ensures (exists i :: 0 <= i < |reports| && Accepted(work, force, reports[i])) <==>
            exists r, f :: r in reports && f in start && Leads(start, allowed, force, r, f)
  {
    hide WorkFrom, Accepted, Leads;
    if i :| 0 <= i < |reports| && Accepted(work, force, reports[i]) {
      var f := AcceptedIsLed(start, allowed, force, work, reports[i]);
      assert reports[i] in reports;
    }
    if r, f :| r in reports && f in start && Leads(start, allowed, force, r, f) {
      LedIsAccepted(start, allowed, reports, force, work, r, f);
    }
  }

  lemma {:induction false} LeadsInWords(start: map<Function, Cfg>, allowed: Whitelist, reports: seq<Report>,
                                        force: bool)
    ensures (exists r, f :: r in reports && f in start && Leads(start, allowed, force, r, f)) <==>
            exists r, f :: r in reports && f in start && f.name == r.func && start[f] != []
                           && (allowed.Only? ==> f.name in allowed.names)
                           && (force || exists i :: 0 <= i < |r.specs| && IsOutbound(r.specs[i].direction))
  {
  }

  class SymbolicEncapsulationPass {
    const senc: SymbolicEncapsulation

    constructor (prefix: string)
      ensures senc.harnessNamePrefix == prefix
    {
      senc := new SymbolicEncapsulation(prefix);
    }

    /** `list` is the work list: the functions of `funcs` that are defined and allowed. */
    ghost predicate IsWorkList(funcs: seq<Function>, allowed: Whitelist, list: seq<Function>, work: WorkList)
      reads funcs
    {
      && (forall f | f in list :: f in funcs && f.name in work && work[f.name] == f.params)
      && (forall f | f in funcs :: f in list <==> f.blocks != [] && allowed.Allows(f.name))
      && (forall n | n in work :: exists f :: f in list && f.name == n)
    }

    method CollectWork(m: Module, allowed: Whitelist) returns (list: seq<Function>, ghost work: WorkList)
      requires m.Valid()
      ensures forall f :: f in list <==>
                          f in m.funcs && f.blocks != [] && (allowed.Only? ==> f.name in allowed.names)
      ensures IsWorkList(m.funcs, allowed, list, work)
    {
      list, work := [], map[];
      for n := 0 to |m.funcs|
        invariant forall f | f in list :: f in m.funcs[..n] && f.name in work && work[f.name] == f.params
        invariant forall f | f in m.funcs[..n] :: f in list <==> f.blocks != [] && allowed.Allows(f.name)
        invariant forall k | k in work :: exists f :: f in list && f.name == k
      {
        var f := m.funcs[n];
        assert m.funcs[..n + 1] == m.funcs[..n] + [f];
        if f.IsDeclaration() || !allowed.Allows(f.name) {
          continue;
        }
        forall g | g in list
          ensures g.name != f.name
        {
          var k :| 0 <= k < n && m.funcs[k] == g;
        }
        list, work := list + [f], work[f.name := f.params];
        assert f in list;
      }
      assert m.funcs[..|m.funcs|] == m.funcs;
    }

    /** The parameters the reports make the generator work on are ones it can work on. */
    ghost predicate Demands(work: WorkList, force: bool, reports: seq<Report>, iters: uint32) {
      forall r | r in reports && Accepted(work, force, r) :: GoodParams(work[r.func], iters)
    }

    /** The list holds functions of the module, found under their names, that are defined. */
    ghost predicate Workable(m: Module, list: seq<Function>, work: WorkList)
      reads m, m.funcs
    {
      && m.Valid()
      && (forall f | f in list :: f in m.funcs && f.blocks != [] && f.name in work && work[f.name] == f.params)
      && (forall n | n in work :: exists f :: f in list && f.name == n)
    }

    /** The function a report wants a harness for: it has to be on the work list, and the harness to
        be forced or to have something to check. */
    method Subject(m: Module, list: seq<Function>, r: Report, force: bool, ghost work: WorkList)
      returns (f: Function?)
      requires Workable(m, list, work)
      ensures f != null <==> Accepted(work, force, r)
      ensures f != null <==>
              r.func in work && (force || exists i :: 0 <= i < |r.specs| && IsOutbound(r.specs[i].direction))
      ensures f != null ==> f in m.funcs && f.blocks != [] && f.name == r.func && work[r.func] == f.params
    {
      f := m.GetFunction(r.func);
      if f == null || f !in list {
        assert r.func !in work;
        return null;
      }
      var requiresConditions := AnyOutbound(r.specs);
      if !requiresConditions && !force {
        return null;
      }
    }

    /** One turn of the loop over the reports. */
    method ProcessReport(m: Module, list: seq<Function>, r: Report, force: bool, iters: uint32, ghost work: WorkList)
      returns (changed: bool)
      requires Workable(m, list, work) && Demands(work, force, [r], iters)
      modifies m, m.funcs
      ensures Workable(m, list, work) && old(m.funcs) <= m.funcs
      ensures changed <==> Accepted(work, force, r)
      ensures changed <==>
              r.func in work && (force || exists i :: 0 <= i < |r.specs| && IsOutbound(r.specs[i].direction))
      ensures forall f | f in old(m.funcs) ::
                f.blocks == GrownOne(work, force, iters, senc.harnessNamePrefix, f.name, old(f.blocks), r)
      ensures forall f | f in m.funcs && f !in old(m.funcs) ::
                && fresh(f) && changed && f.name == senc.harnessNamePrefix + r.func
                && (forall g | g in old(m.funcs) :: g.name != f.name)
                && f.blocks == GrownOne(work, force, iters, senc.harnessNamePrefix, f.name, [], r)
      ensures changed ==> exists f :: f in m.funcs && f.name == senc.harnessNamePrefix + r.func
    {
      hide Job.Blocks, JobFor;
      var f := Subject(m, list, r, force, work);
      if f == null {
        return false;
      }
      assert r in [r] && GoodParams(work[r.func], iters);
      GoodParamsMakeJobs(f.params, r.specs, iters, 0);
      ghost var h;
      changed, h := senc.Encapsulate(m, f, iters, r.specs);
    }

    method AnyOutbound(specs: seq<ArgSpec>) returns (found: bool)
      ensures found <==> exists i :: 0 <= i < |specs| && IsOutbound(specs[i].direction)
    {
      for n := 0 to |specs|
        invariant forall i | 0 <= i < n :: !IsOutbound(specs[i].direction)
      {
        if IsOutbound(specs[n].direction) {
          return true;
        }
      }
      return false;
    }

    /** What the functions were before the first report. */
    ghost function StartOf(start: map<Function, Cfg>, f: Function): Cfg {
      if f in start then start[f] else []
    }

    /** All functions are as the reports make them, starting from `start`. */
    ghost predicate GrownFrom(m: Module, start: map<Function, Cfg>, work: WorkList, force: bool, iters: uint32,
                              reports: seq<Report>)
      reads m, m.funcs
    {
      var prefix := senc.harnessNamePrefix;
      && (forall f | f in m.funcs :: f.blocks == Grown(work, force, iters, prefix, f.name, StartOf(start, f), reports))
      && (forall f | f in m.funcs && f !in start :: Names(work, force, prefix, f.name, reports))
      && (forall name | Names(work, force, prefix, name, reports) :: HasNamed(m, name))
    }

    ghost predicate HasNamed(m: Module, name: string)
      reads m
    {
      exists f :: f in m.funcs && f.name == name
    }

    /** One turn of the loop, seen from before the first. */
    method Turn(m: Module, list: seq<Function>, reports: seq<Report>, n: nat, force: bool, iters: uint32,
                ghost work: WorkList, ghost start: map<Function, Cfg>)
      returns (changed: bool)
      requires n < |reports| && Workable(m, list, work) && Demands(work, force, reports, iters)
      requires forall f | f in start :: f in m.funcs
      requires GrownFrom(m, start, work, force, iters, reports[..n])
      modifies m, m.funcs
      ensures Workable(m, list, work) && old(m.funcs) <= m.funcs
      ensures GrownFrom(m, start, work, force, iters, reports[..n + 1])
      ensures forall i | 0 <= i < |m.funcs| :: m.funcs[i] in old(m.funcs) || fresh(m.funcs[i])
      ensures changed <==> Accepted(work, force, reports[n])
    {
      hide Grown, GrownOne, Names, Accepted, Workable;
      ghost var prefix := senc.harnessNamePrefix;
      var r := reports[n];
      assert Demands(work, force, [r], iters);
      changed := ProcessReport(m, list, r, force, iters, work);
      forall f | f in m.funcs
        ensures f.blocks == Grown(work, force, iters, prefix, f.name, StartOf(start, f), reports[..n + 1])
      {
        NextGrowth(work, force, iters, prefix, f.name, StartOf(start, f), reports, n);
        if f !in old(m.funcs) {
          assert !Names(work, force, prefix, f.name, reports[..n]);
        }
      }
      ghost var next := reports[..n + 1];
      forall name | Names(work, force, prefix, name, next)
        ensures HasNamed(m, name)
      {
        OneMoreReport(work, force, prefix, name, reports, n);
        if Names(work, force, prefix, name, reports[..n]) {
          var f :| f in old(m.funcs) && f.name == name;
          assert f in m.funcs;
        }
      }
      forall f | f in m.funcs && f !in start
        ensures Names(work, force, prefix, f.name, next)
      {
        OneMoreReport(work, force, prefix, f.name, reports, n);
      }
    }

    /** The reports that lead to a harness are about functions the generator can work on. */
    ghost predicate CanWorkOn(m: Module, allowed: Whitelist, reports: seq<Report>, force: bool, iters: uint32)
      reads m, m.funcs
    {
      forall f, r | f in m.funcs && r in reports && f.name == r.func ::
        f.blocks != [] && allowed.Allows(f.name) && (force || r.HasOutbound()) ==> GoodParams(f.params, iters)
    }

    /** The pass before the first report. */
    method Begin(m: Module, allowed: Whitelist, ghost reports: seq<Report>, ghost force: bool, ghost iters: uint32)
      returns (list: seq<Function>, ghost work: WorkList, ghost start: map<Function, Cfg>)
      requires m.Valid()
      requires CanWorkOn(m, allowed, reports, force, iters)
      ensures Workable(m, list, work) && Demands(work, force, reports, iters)
      ensures start == map f | f in m.funcs :: f.blocks
      ensures GrownFrom(m, start, work, force, iters, [])
      ensures WorkFrom(start, allowed, work)
      ensures forall f | f in m.funcs && f.name in work :: work[f.name] == f.params
    {
      hide IsWorkList, CanWorkOn, WorkFrom, Demands, Workable, GrownFrom, Module.Valid;
      list, work := CollectWork(m, allowed);
      start := map f | f in m.funcs :: f.blocks;
      WorkCollected(m, allowed, list, work);
      NothingGrown(m, force, iters, work);
      DemandsMet(m, allowed, reports, force, iters, work);
    }

    lemma {:induction false} NothingGrown(m: Module, force: bool, iters: uint32, work: WorkList)
      ensures GrownFrom(m, map f | f in m.funcs :: f.blocks, work, force, iters, [])
    {
    }

    lemma {:induction false} WorkCollected(m: Module, allowed: Whitelist, list: seq<Function>, work: WorkList)
      requires m.Valid() && IsWorkList(m.funcs, allowed, list, work)
      ensures Workable(m, list, work) && WorkFrom(map f | f in m.funcs :: f.blocks, allowed, work)
      ensures forall f | f in m.funcs && f.name in work :: work[f.name] == f.params
    {
      forall f | f in m.funcs && f.name in work
        ensures f in list
      {
        var g :| g in list && g.name == f.name;
        SameName(m, f, g);
      }
      var start := map f | f in m.funcs :: f.blocks;
      forall n | n in work
        ensures exists f :: f in start && f.name == n && start[f] != [] && (allowed.Only? ==> n in allowed.names)
      {
        var f :| f in list && f.name == n;
        assert f in start;
      }
    }

    lemma {:induction false} SameName(m: Module, f: Function, g: Function)
      requires m.Valid() && f in m.funcs && g in m.funcs && f.name == g.name
      ensures f == g
    {
      var a :| 0 <= a < |m.funcs| && m.funcs[a] == f;
      var b :| 0 <= b < |m.funcs| && m.funcs[b] == g;
    }

    lemma {:induction false} DemandsMet(m: Module, allowed: Whitelist, reports: seq<Report>, force: bool, iters: uint32,
                                        work: WorkList)
      requires CanWorkOn(m, allowed, reports, force, iters)
      requires WorkFrom(map f | f in m.funcs :: f.blocks, allowed, work)
      requires forall f | f in m.funcs && f.name in work :: work[f.name] == f.params
      ensures Demands(work, force, reports, iters)
    {
      hide GoodParams;
      var start := map f | f in m.funcs :: f.blocks;
      forall r | r in reports && Accepted(work, force, r)
        ensures GoodParams(work[r.func], iters)
      {
        var f := AcceptedIsLed(start, allowed, force, work, r);
      }
    }

    /** The work list is fixed first, then the reports are gone through in order. */
    method GoThrough(m: Module, allowed: Whitelist, reports: seq<Report>, force: bool, iters: uint32)
      returns (hasChanged: bool, ghost work: WorkList, ghost start: map<Function, Cfg>)
      requires m.Valid()
      requires CanWorkOn(m, allowed, reports, force, iters)
      modifies m, m.funcs
      ensures m.Valid() && old(m.funcs) <= m.funcs
      ensures WorkFrom(start, allowed, work)
      ensures forall f | f in old(m.funcs) && f.name in work :: work[f.name] == f.params
      ensures start == old(map f | f in m.funcs :: f.blocks)
      ensures hasChanged <==> exists r, f :: r in reports && f in start && Leads(start, allowed, force, r, f)
      ensures Delivered(m, old(map f | f in m.funcs :: f.blocks), allowed, reports, force)
      ensures GrownFrom(m, old(map f | f in m.funcs :: f.blocks), work, force, iters, reports)
      ensures Demands(work, force, reports, iters)
    {
      hide Grown, Names, Accepted, GoodParams, GrownFrom, Demands, Delivered, Leads, WorkFrom, CanWorkOn;
      var list;
      list, work, start := Begin(m, allowed, reports, force, iters);
      hasChanged := ProcessReports(m, list, reports, force, iters, work, start);
      Outcome(m, allowed, reports, force, iters, work, start);
    }

    /** The pass. */
    method Run(m: Module, allowed: Whitelist, reports: seq<Report>, force: bool, iters: uint32)
      returns (hasChanged: bool, ghost work: WorkList)
      requires m.Valid()
      requires CanWorkOn(m, allowed, reports, force, iters)
      modifies m, m.funcs
      ensures m.Valid() && old(m.funcs) <= m.funcs
      ensures forall n :: n in work <==>
                exists f :: f in old(m.funcs) && f.name == n && old(f.blocks) != [] &&
                            (allowed.Only? ==> n in allowed.names)
      ensures forall f | f in old(m.funcs) && f.name in work :: work[f.name] == f.params
      ensures hasChanged <==>
              exists r, f :: r in reports && f in old(m.funcs) && f.name == r.func && old(f.blocks) != []
                             && (allowed.Only? ==> f.name in allowed.names)
                             && (force || exists i :: 0 <= i < |r.specs| && IsOutbound(r.specs[i].direction))
      ensures Delivered(m, old(map f | f in m.funcs :: f.blocks), allowed, reports, force)
      ensures GrownFrom(m, old(map f | f in m.funcs :: f.blocks), work, force, iters, reports)
      ensures Demands(work, force, reports, iters)
    {
      hide Grown, Names, Accepted, GoodParams, GrownFrom, Demands, Delivered, Leads, Module.Valid, CanWorkOn;
      ghost var start;
      hasChanged, work, start := GoThrough(m, allowed, reports, force, iters);
      LeadsInWords(start, allowed, reports, force);
    }

    /** There is a function called `name`, and it is longer than it was. */
    ghost predicate HasGrown(m: Module, start: map<Function, Cfg>, name: string)
      reads m, m.funcs
    {
      exists h :: h in m.funcs && h.name == name && StartOf(start, h) < h.blocks
    }

    /** Every report that leads to a harness has made the function of its name grow, and no other
        function is new or has changed. */
    ghost predicate Delivered(m: Module, start: map<Function, Cfg>, allowed: Whitelist, reports: seq<Report>,
                              force: bool)
      reads m, m.funcs
    {
      && (forall r, f | r in reports && f in start && Leads(start, allowed, force, r, f) ::
            HasGrown(m, start, senc.harnessNamePrefix + r.func))
      && (forall h | h in m.funcs && (h !in start || h.blocks != start[h]) ::
            exists r, f :: r in reports && f in start && Leads(start, allowed, force, r, f)
                           && h.name == senc.harnessNamePrefix + r.func)
    }

    /** What the reports come to, in terms of the functions there were. */
    lemma {:induction false} Outcome(m: Module, allowed: Whitelist, reports: seq<Report>, force: bool, iters: uint32,
                                     work: WorkList, start: map<Function, Cfg>)
      requires GrownFrom(m, start, work, force, iters, reports) && Demands(work, force, reports, iters)
      requires WorkFrom(start, allowed, work)
      ensures (exists i :: 0 <= i < |reports| && Accepted(work, force, reports[i])) <==>
              exists r, f :: r in reports && f in start && Leads(start, allowed, force, r, f)
      ensures Delivered(m, start, allowed, reports, force)
    {
      hide Grown, GrownFrom, Demands, Accepted, Leads, WorkFrom, HasGrown;
      forall r, f | r in reports && f in start && Leads(start, allowed, force, r, f)
        ensures HasGrown(m, start, senc.harnessNamePrefix + r.func)
      {
        LedHasGrown(m, allowed, reports, force, iters, work, start, r, f);
      }
      forall h | h in m.funcs && (h !in start || h.blocks != start[h])
        ensures exists r, f :: r in reports && f in start && Leads(start, allowed, force, r, f)
                               && h.name == senc.harnessNamePrefix + r.func
      {
        var r, f := GrownIsLed(m, allowed, reports, force, iters, work, start, h);
      }
      assert (exists i :: 0 <= i < |reports| && Accepted(work, force, reports[i])) <==>
             exists r, f :: r in reports && f in start && Leads(start, allowed, force, r, f) by {
        SomeAccepted(start, allowed, reports, force, work);
      }
    }

    lemma {:induction false} LedHasGrown(m: Module, allowed: Whitelist, reports: seq<Report>, force: bool,
                                         iters: uint32, work: WorkList, start: map<Function, Cfg>,
                                         r: Report, f: Function)
      requires GrownFrom(m, start, work, force, iters, reports) && Demands(work, force, reports, iters)
      requires WorkFrom(start, allowed, work)
      requires r in reports && f in start && Leads(start, allowed, force, r, f)
      ensures HasGrown(m, start, senc.harnessNamePrefix + r.func)
    {
      var name := senc.harnessNamePrefix + r.func;
      LedIsAccepted(start, allowed, reports, force, work, r, f);
      hide Grown, Leads, WorkFrom, Accepted;
      assert HasNamed(m, name);
      var h :| h in m.funcs && h.name == name;
      GrowsIff(work, force, iters, senc.harnessNamePrefix, name, StartOf(start, h), reports);
    }

    lemma {:induction false} GrownIsLed(m: Module, allowed: Whitelist, reports: seq<Report>, force: bool,
                                        iters: uint32, work: WorkList, start: map<Function, Cfg>, h: Function)
      returns (r: Report, f: Function)
      requires GrownFrom(m, start, work, force, iters, reports) && Demands(work, force, reports, iters)
      requires WorkFrom(start, allowed, work)
      requires h in m.funcs && (h !in start || h.blocks != start[h])
      ensures r in reports && f in start && Leads(start, allowed, force, r, f)
      ensures h.name == senc.harnessNamePrefix + r.func
    {
      var prefix := senc.harnessNamePrefix;
      if h in start {
        GrowsIff(work, force, iters, prefix, h.name, start[h], reports);
      }
      assert Names(work, force, prefix, h.name, reports);
      var i :| 0 <= i < |reports| && Accepted(work, force, reports[i]) && h.name == prefix + reports[i].func;
      r := reports[i];
      f := AcceptedIsLed(start, allowed, force, work, r);
    }

    /** The loop over the reports. */
    method ProcessReports(m: Module, list: seq<Function>, reports: seq<Report>, force: bool, iters: uint32,
                          ghost work: WorkList, ghost start: map<Function, Cfg>)
      returns (hasChanged: bool)
      requires Workable(m, list, work) && Demands(work, force, reports, iters)
      requires forall f | f in start :: f in m.funcs
      requires GrownFrom(m, start, work, force, iters, [])
      modifies m, m.funcs
      ensures Workable(m, list, work) && old(m.funcs) <= m.funcs && GrownFrom(m, start, work, force, iters, reports)
      ensures hasChanged <==> exists i :: 0 <= i < |reports| && Accepted(work, force, reports[i])
    {
      hide Grown, Names, Accepted, GoodParams, GrownFrom, Workable, Demands;
      hasChanged := false;
      assert reports[..0] == [];
      for n := 0 to |reports|
        invariant Workable(m, list, work) && old(m.funcs) <= m.funcs
        invariant forall i | 0 <= i < |m.funcs| :: m.funcs[i] in old(m.funcs) || fresh(m.funcs[i])
        invariant hasChanged <==> exists i :: 0 <= i < n && Accepted(work, force, reports[i])
        invariant GrownFrom(m, start, work, force, iters, reports[..n])
      {
        var changed := Turn(m, list, reports, n, force, iters, work, start);
        hasChanged := hasChanged || changed;
      }
      assert reports[..|reports|] == reports;
    }
  }
}
