/** Half-made groups over whole runs: where the member before a guard is there without the guard, no run
    of the operator ever adds the guard while that member is not deleted. */
module BrokenPairs {
  import opened Options
  import opened Names
  import opened Contexts
  import opened Objects
  import opened Api
  import opened Processes
  import opened Operator

  /** A guard and the member that is always created right before it. */
  predicate IsPair(member: Role, guard: Role) {
    || (member == ClusterAccount && guard == ClusterConfig)
    || (member == JupyterService && guard == JupyterDeployment)
    || (member == SchedulerService && guard == SchedulerDeployment)
    || (member == JobAccount && guard == JobRun)
  }

  predicate Creates(c: Call, k: Key) {
    c.Create? && c.key == k
  }

  /** Whoever is to create g is to create m before. */
  ghost predicate MemberFirst(calls: seq<Call>, m: Key, g: Key) {
    forall i :: 0 <= i < |calls| && Creates(calls[i], g) ==> exists j :: 0 <= j < i && Creates(calls[j], m)
  }

  predicate NeverCreates(calls: seq<Call>, k: Key) {
    forall i :: 0 <= i < |calls| ==> !Creates(calls[i], k)
  }

  lemma FirstThen(first: seq<Call>, second: seq<Call>, m: Key, g: Key)
    requires MemberFirst(first, m, g) && MemberFirst(second, m, g)
    ensures MemberFirst(first + second, m, g)
  {
    var all := first + second;
    forall i | 0 <= i < |all| && Creates(all[i], g) ensures exists j :: 0 <= j < i && Creates(all[j], m) {
      if i < |first| {
        var j :| 0 <= j < i && Creates(first[j], m);
        assert all[j] == first[j];
      } else {
        var j :| 0 <= j < i - |first| && Creates(second[j], m);
        assert all[|first| + j] == second[j];
      }
    }
  }

  lemma NothingToOrder(calls: seq<Call>, m: Key, g: Key)
    requires NeverCreates(calls, g)
    ensures MemberFirst(calls, m, g)
  {
  }

  lemma PairInOrder(member: Call, guard: Call, m: Key, g: Key)
    requires member.Create? && guard.Create? && m != g
    requires guard.key == g ==> member.key == m
    requires member.key != g
    ensures MemberFirst([member, guard], m, g)
  {
    if guard.key == g {
      assert Creates([member, guard][0], m);
    }
  }

  // ---- The plans ----

  /** The two keys are a pair of one instance. */
  predicate PairOf(m: Key, g: Key) {
    m.Child? && g.Child? && m.ns == g.ns && m.instance == g.instance && IsPair(m.role, g.role)
  }

  lemma PolicyOrdered(c: Context, r: Role, m: Key, g: Key)
    requires PairOf(m, g) && KindOf(Child(r, c.ns, c.name)) == NetworkPolicy
    ensures MemberFirst(PolicyGroup(c, r).calls, m, g)
  {
    NothingToOrder(PolicyGroup(c, r).calls, m, g);
  }

  lemma ConfigOrdered(c: Context, absent: bool, m: Key, g: Key)
    requires PairOf(m, g)
    ensures MemberFirst(ConfigGroup(c, absent).calls, m, g)
  {
    if absent {
      var policy := if c.settings.disablePolicies then [] else [MakeForCluster(c, DnsPolicy)];
      NothingToOrder(policy, m, g);
      PairInOrder(MakeForCluster(c, ClusterAccount), MakeForCluster(c, ClusterConfig), m, g);
      FirstThen(policy, [MakeForCluster(c, ClusterAccount), MakeForCluster(c, ClusterConfig)], m, g);
    }
  }

  lemma JupyterOrdered(c: Context, absent: bool, m: Key, g: Key)
    requires PairOf(m, g)
    ensures MemberFirst(JupyterGroup(c, absent).calls, m, g)
  {
    if c.settings.jupyter && absent {
      var p := PolicyGroup(c, JupyterPolicy);
      var service, deployment := MakeForCluster(p.after, JupyterService), MakeForCluster(ForRole(p.after, ForNotebook), JupyterDeployment);
      PolicyOrdered(c, JupyterPolicy, m, g);
      PairInOrder(service, deployment, m, g);
      FirstThen(p.calls, [service, deployment], m, g);
    }
  }

  lemma SchedulerOrdered(c: Context, absent: bool, m: Key, g: Key)
    requires PairOf(m, g)
    ensures MemberFirst(SchedulerGroup(c, absent).calls, m, g)
  {
    if absent {
      var p := PolicyGroup(c, SchedulerPolicy);
      var service, deployment := MakeForCluster(p.after, SchedulerService), MakeForCluster(ForRole(p.after, ForScheduler), SchedulerDeployment);
      PolicyOrdered(c, SchedulerPolicy, m, g);
      PairInOrder(service, deployment, m, g);
      FirstThen(p.calls, [service, deployment], m, g);
    }
  }

  lemma WorkersOrdered(c: Context, current: Option<Obj>, m: Key, g: Key)
    requires PairOf(m, g)
    ensures MemberFirst(WorkerGroup(c, current).calls, m, g)
  {
    NothingToOrder(WorkerGroup(c, current).calls, m, g);
  }

  lemma StageOrdered(stage: nat, c: Context, seen: Seen, m: Key, g: Key)
    requires |seen| == 5 && PairOf(m, g)
    ensures MemberFirst(StageGroup(stage, c, seen).calls, m, g)
  {
    match stage
    case 0 => ConfigOrdered(c, seen[4].None?, m, g);
    case 1 => JupyterOrdered(c, seen[2].None?, m, g);
    case 2 => SchedulerOrdered(c, seen[0].None?, m, g);
    case 3 => WorkersOrdered(c, seen[1], m, g);
    case _ => NothingToOrder(IngressGroup(c, seen[3].None?).calls, m, g);
  }

  lemma {:induction false} PlanOrdered(stage: nat, c: Context, seen: Seen, last: Call, m: Key, g: Key)
    requires |seen| == 5 && stage <= 5 && last.UpdateStatus? && PairOf(m, g)
    ensures MemberFirst(PlanFrom(stage, c, seen, last), m, g)
    decreases 5 - stage
  {
    if stage == 5 {
      NothingToOrder([last], m, g);
    } else {
      var group := StageGroup(stage, c, seen);
      StageOrdered(stage, c, seen, m, g);
      PlanOrdered(stage + 1, group.after, seen, last, m, g);
      FirstThen(group.calls, PlanFrom(stage + 1, group.after, seen, last), m, g);
    }
  }

  lemma JobPlanOrdered(v: DaskJobView, c: Context, seen: Seen, report: Report, m: Key, g: Key)
    requires |seen| == 4 && PairOf(m, g)
    ensures MemberFirst(JobPlan(v, c, seen, report), m, g)
  {
    var config, claim, last := JobConfigGroup(c, seen[2].None?), ClaimGroup(c, seen[3].None?), [JobStatusCall(v, seen, report)];
    var pair := [MakeForJob(c, JobAccount), MakeForJob(c, JobRun)];
    NothingToOrder(config, m, g);
    NothingToOrder(claim, m, g);
    NothingToOrder(last, m, g);
    PairInOrder(pair[0], pair[1], m, g);
    FirstThen(claim, pair, m, g);
    NothingToOrder([], m, g);
    FirstThen(JobGroup(c, seen), last, m, g);
    FirstThen(config, JobGroup(c, seen) + last, m, g);
  }

  // ---- The passes ----

  ghost predicate Ordered(p: Process, m: Key, g: Key) {
    p.Act? ==> MemberFirst(p.todo, m, g)
  }

  ghost predicate AllOrdered(ps: seq<Process>, m: Key, g: Key) {
    forall i :: 0 <= i < |ps| ==> Ordered(ps[i], m, g)
  }

  lemma DaskDetailOrdered(v: DaskView, seen: Seen, reports: seq<Report>, r: Resp, m: Key, g: Key)
    requires PairOf(m, g)
    ensures Ordered(Moved(DetailCluster(v, seen, reports), r), m, g)
  {
    if Sane(DetailCluster(v, seen, reports)) {
      var d := Detail(ClusterDetails(v)[|reports|], r, Dask);
      if d.Some? {
        PlanOrdered(0, DaskContextOf(v), seen, StatusCall(v, seen, reports + [d.value]), m, g);
      }
    }
  }

  lemma JobDetailOrdered(v: DaskJobView, c: Context, seen: Seen, r: Resp, m: Key, g: Key)
    requires PairOf(m, g)
    ensures Ordered(Moved(DetailJob(v, c, seen), r), m, g)
  {
    if Sane(DetailJob(v, c, seen)) {
      var d := Detail(Child(JobRun, v.ns, v.name), r, DaskJob);
      if d.Some? {
        JobPlanOrdered(v, c, seen, d.value, m, g);
      }
    }
  }

  lemma ReadingOrdered(p: Process, r: Resp, m: Key, g: Key)
    requires Next(p).Some? && !p.Act? && PairOf(m, g)
    ensures Ordered(Moved(p, r), m, g)
  {
    match p
    case DetailCluster(v, seen, reports) => DaskDetailOrdered(v, seen, reports, r, m, g);
    case DetailJob(v, c, seen) => JobDetailOrdered(v, c, seen, r, m, g);
    case _ =>
  }

  lemma RestOrdered(todo: seq<Call>, m: Key, g: Key)
    requires todo != [] && MemberFirst(todo, m, g) && !Creates(todo[0], m)
    ensures MemberFirst(todo[1..], m, g) && !Creates(todo[0], g)
  {
    var rest := todo[1..];
    forall i | 0 <= i < |rest| && Creates(rest[i], g) ensures exists j :: 0 <= j < i && Creates(rest[j], m) {
      assert Creates(todo[i + 1], g);
      var j :| 0 <= j < i + 1 && Creates(todo[j], m);
      assert rest[j - 1] == todo[j];
    }
  }

  // ---- The runs ----

  /** The member is there and the guard is not, and no pass is past the member on its way to the guard. */
  ghost predicate Broken(w: World, m: Key, g: Key) {
    && w.history != [] && m in Now(w).objs && g !in Now(w).objs && AllOrdered(w.passes, m, g)
  }

  lemma CommitKeeps(w: World, db: Db, e: seq<Event>, m: Key, g: Key)
    requires Broken(w, m, g) && m in db.objs && g !in db.objs
    ensures Broken(Commit(w, db, e), m, g)
  {
  }

  lemma MovedOrdered(db: Db, p: Process, c: Call, r: Resp, m: Key, g: Key)
    requires PairOf(m, g) && m in db.objs && Next(p) == Some(c) && Ordered(p, m, g)
    requires IsWrite(c) && r.Ok? ==> Write(db, c).Some?
    ensures Ordered(Moved(p, r), m, g)
    ensures p.Act? && Write(db, c).Some? ==> !Creates(c, g)
  {
    if p.Act? {
      if Creates(c, m) {
        assert Write(db, c).None?;
      } else {
        RestOrdered(p.todo, m, g);
      }
    } else {
      ReadingOrdered(p, r, m, g);
    }
  }

  lemma WriteKeepsBroken(db: Db, c: Call, db': Db, m: Key, g: Key)
    requires Write(db, c) == Some(db') && m in db.objs && g !in db.objs && !Creates(c, g)
    ensures m in db'.objs && g !in db'.objs
  {
  }

  lemma OnlyActsCreate(p: Process, c: Call)
    requires Next(p) == Some(c) && c.Create?
    ensures p.Act?
  {
  }

  lemma AdvanceKeeps(w: World, i: nat, c: Call, a: Answer, m: Key, g: Key)
    requires PairOf(m, g) && Broken(w, m, g) && i < |w.passes| && Next(w.passes[i]) == Some(c)
    ensures Broken(AdvancePass(w, i, c, a), m, g)
  {
    var p, o := w.passes[i], Perform(w, c, a);
    MovedOrdered(Now(w), p, c, o.resp, m, g);
    var w1 := w.(passes := w.passes[i := Moved(p, o.resp)]);
    assert Broken(w1, m, g);
    if o.db.Some? {
      if c.Create? {
        OnlyActsCreate(p, c);
      }
      WriteKeepsBroken(Now(w), c, o.db.value, m, g);
      CommitKeeps(w1, o.db.value, [EventOf(c)], m, g);
    }
  }

  lemma OthersKeep(w: World, s: Step, m: Key, g: Key)
    requires PairOf(m, g) && Broken(w, m, g) && !s.Advance? && s != Delete(m)
    ensures Broken(Apply(w, s), m, g)
  {
    match s
    case Submit(k, b) => if k !in Now(w).objs && Submittable(k, b) { CommitKeeps(w, Put(Now(w), k, None, b), [], m, g); }
    case Edit(k, change) =>
      if k in Now(w).objs {
        CommitKeeps(w, Put(Now(w), k, Now(w).objs[k].owner, Changed(Now(w).objs[k].body, change)), [], m, g);
      }
    case Delete(k) =>
      if k in Now(w).objs { CommitKeeps(w, Db(Now(w).objs - {k}, Now(w).rev + 1), [Deleted(k)], m, g); }
    case _ =>
  }

  lemma StepKeeps(w: World, s: Step, m: Key, g: Key)
    requires PairOf(m, g) && Broken(w, m, g) && s != Delete(m)
    ensures Broken(Apply(w, s), m, g)
  {
    if s.Advance? {
      if s.pass < |w.passes| && Next(w.passes[s.pass]).Some? {
        AdvanceKeeps(w, s.pass, Next(w.passes[s.pass]).value, s.answer, m, g);
      }
    } else {
      OthersKeep(w, s, m, g);
    }
  }

  /** Once a member is there without its guard, and no pass is between the two, the guard never comes:
      not in any run, whatever users and other controllers do, as long as the member is not deleted. */
  lemma {:induction false} PairsStayBroken(steps: seq<Step>, more: seq<Step>, m: Key, g: Key)
    requires PairOf(m, g) && Broken(Run(steps), m, g) && Delete(m) !in more
    ensures Broken(Run(steps + more), m, g)
    decreases |more|
  {
    if more == [] {
      assert steps + more == steps;
    } else {
      var last := |more| - 1;
      PairsStayBroken(steps, more[..last], m, g);
      assert (steps + more)[..|steps + more| - 1] == steps + more[..last];
      StepKeeps(Run(steps + more[..last]), more[last], m, g);
    }
  }
}
