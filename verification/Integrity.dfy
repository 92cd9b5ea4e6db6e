/** Nothing is there before what it depends on: in every run without deletions, whatever fails and
    wherever passes stop, each object's references resolve, and a Job's cluster is complete. */
module Integrity {
  import opened Options
  import opened Names
  import opened Contexts
  import opened Objects
  import opened Models
  import opened Api
  import opened Processes
  import opened Operator
  import opened Plans

  type Keys = set<Key>

  /** The members every cluster has whatever its spec asks for. */
  predicate CoreIn(K: Keys, ns: string, n: string) {
    && Child(ClusterAccount, ns, n) in K
    && Child(ClusterConfig, ns, n) in K
    && Child(SchedulerService, ns, n) in K
    && Child(SchedulerDeployment, ns, n) in K
    && Child(WorkerDeployment, ns, n) in K
  }

  predicate TemplateIn(K: Keys, t: PodTemplate) {
    t.account in K && t.config in K && (t.claim.Some? ==> t.claim.value in K)
  }

  predicate ReferencesIn(K: Keys, b: Body) {
    match b
    case DeploymentBody(_, t, _) => TemplateIn(K, t)
    case JobBody(t, _, _) =>
      TemplateIn(K, t) && t.scheduler.Child? && t.scheduler.role == SchedulerService && CoreIn(K, t.scheduler.ns, t.scheduler.instance)
    case IngressBody(rules, _) => forall i :: 0 <= i < |rules| ==> rules[i].service in K
    case _ => true
  }

  /** What is made before k within its group, and before its group. */
  predicate PredecessorsIn(K: Keys, k: Key) {
    k.Child? ==>
      match k.role
      case ClusterConfig => Child(ClusterAccount, k.ns, k.instance) in K
      case JupyterDeployment => Child(JupyterService, k.ns, k.instance) in K
      case SchedulerDeployment => Child(SchedulerService, k.ns, k.instance) in K
      case WorkerDeployment =>
        Child(SchedulerService, k.ns, k.instance) in K && Child(SchedulerDeployment, k.ns, k.instance) in K
      case ClusterIngress => CoreIn(K, k.ns, k.instance)
      case _ => true
  }

  /** Once a status has been written, the cluster is complete. */
  predicate StateBacked(K: Keys, k: Key, b: Body) {
    b.ClusterBody? && b.status.state != Unset ==> CoreIn(K, k.ns, k.instance)
  }

  /** The body is of the key's sort, and a Job's scheduler is in the Job's namespace. */
  predicate InPlace(k: Key, b: Body) {
    Fits(k, b) && (b.JobBody? ==> b.jobPod.scheduler.Child? && b.jobPod.scheduler.ns == k.ns)
  }

  predicate Supported(K: Keys, k: Key, b: Body) {
    ReferencesIn(K, b) && PredecessorsIn(K, k) && StateBacked(K, k, b) && InPlace(k, b)
  }

  // ---- Runs of calls that make things in order ----

  predicate CallSupported(K: Keys, c: Call) {
    match c
    case Create(k, _, b) => Supported(K, k, b)
    case Update(_, _, b) => ReferencesIn(K, b) && !b.ClusterBody?
    case UpdateStatus(k, _, s) => s.ClusterStatus? ==> CoreIn(K, k.ns, k.instance)
    case _ => false
  }

  function Made(c: Call): Keys {
    if c.Create? then {c.key} else {}
  }

  function MadeBy(calls: seq<Call>): Keys {
    if calls == [] then {} else Made(calls[0]) + MadeBy(calls[1..])
  }

  predicate Justified(K: Keys, calls: seq<Call>)
    decreases |calls|
  {
    calls == [] || (CallSupported(K, calls[0]) && Justified(K + Made(calls[0]), calls[1..]))
  }

  lemma {:induction false} JustifiedGrows(K: Keys, L: Keys, calls: seq<Call>)
    requires K <= L && Justified(K, calls)
    ensures Justified(L, calls)
    decreases |calls|
  {
    if calls == [] {
    } else {
      JustifiedGrows(K + Made(calls[0]), L + Made(calls[0]), calls[1..]);
    }
  }

  lemma JustifiedFirst(K: Keys, c: Call, rest: seq<Call>)
    requires CallSupported(K, c) && Justified(K + Made(c), rest)
    ensures Justified(K, [c] + rest) && MadeBy([c] + rest) == Made(c) + MadeBy(rest)
  {
  }

  lemma JustifiedOne(K: Keys, c: Call)
    requires CallSupported(K, c)
    ensures Justified(K, [c]) && MadeBy([c]) == Made(c)
  {
  }

  lemma {:induction false} JustifiedThen(K: Keys, first: seq<Call>, second: seq<Call>)
    requires Justified(K, first) && Justified(K + MadeBy(first), second)
    ensures Justified(K, first + second) && MadeBy(first + second) == MadeBy(first) + MadeBy(second)
    decreases |first|
  {
    if first == [] {
      assert first + second == second && K + {} == K;
    } else {
      assert K + MadeBy(first) == (K + Made(first[0])) + MadeBy(first[1..]);
      JustifiedThen(K + Made(first[0]), first[1..], second);
      assert first + second == [first[0]] + (first[1..] + second);
      JustifiedFirst(K, first[0], first[1..] + second);
    }
  }

  // ---- The Dask plan makes things in order ----

  /** What a lookup noticed is there, and so is all it depends on. */
  predicate SeenIn(K: Keys, looks: seq<Key>, seen: Seen) {
    && |seen| <= |looks|
    && forall i :: 0 <= i < |seen| && seen[i].Some? ==> looks[i] in K && Supported(K, looks[i], seen[i].value.body)
  }

  predicate Reached(stage: nat, K: Keys, c: Context) {
    && (stage >= 1 ==> ChildKey(c, ClusterAccount) in K && ChildKey(c, ClusterConfig) in K)
    && (stage >= 2 && c.settings.jupyter ==> ChildKey(c, JupyterService) in K)
    && (stage >= 3 ==> ChildKey(c, SchedulerService) in K && ChildKey(c, SchedulerDeployment) in K)
    && (stage >= 4 ==> ChildKey(c, WorkerDeployment) in K)
  }

  lemma PolicyJustified(K: Keys, c: Context, r: Role)
    requires r == JupyterPolicy || r == SchedulerPolicy || r == WorkerPolicy
    ensures Justified(K, PolicyGroup(c, r).calls)
  {
  }

  lemma ConfigJustified(K: Keys, c: Context, absent: bool)
    requires !absent ==> Reached(1, K, c)
    ensures var g := ConfigGroup(c, absent);
      Justified(K, g.calls) && Reached(1, K + MadeBy(g.calls), g.after)
  {
    if absent {
      var policy := if c.settings.disablePolicies then [] else [MakeForCluster(c, DnsPolicy)];
      if policy != [] {
        JustifiedOne(K, policy[0]);
      }
      var K1 := K + MadeBy(policy);
      var account, config := MakeForCluster(c, ClusterAccount), MakeForCluster(c, ClusterConfig);
      JustifiedOne(K1 + Made(account), config);
      JustifiedFirst(K1, account, [config]);
      assert [account] + [config] == [account, config];
      JustifiedThen(K, policy, [account, config]);
    }
  }

  lemma ServiceThenDeployment(K: Keys, policy: seq<Call>, service: Call, deployment: Call)
    requires Justified(K, policy) && service.Create? && CallSupported(K, service)
    requires deployment.Create? && CallSupported(K + {service.key}, deployment)
    ensures Justified(K, policy + [service, deployment])
    ensures MadeBy(policy + [service, deployment]) == MadeBy(policy) + {service.key, deployment.key}
  {
    var K1 := K + MadeBy(policy);
    JustifiedGrows(K, K1, [service]) by { JustifiedOne(K, service); }
    JustifiedOne(K + {service.key}, deployment);
    JustifiedGrows(K + {service.key}, K1 + Made(service), [deployment]);
    JustifiedFirst(K1, service, [deployment]);
    assert [service] + [deployment] == [service, deployment];
    assert Made(deployment) == MadeBy([deployment]) == {deployment.key} by { JustifiedOne(K + {service.key}, deployment); }
    JustifiedThen(K, policy, [service, deployment]);
  }

  lemma JupyterJustified(K: Keys, c: Context, absent: bool)
    requires Reached(1, K, c) && (!absent ==> ChildKey(c, JupyterService) in K)
    ensures var g := JupyterGroup(c, absent);
      Justified(K, g.calls) && Reached(2, K + MadeBy(g.calls), g.after)
  {
    if c.settings.jupyter && absent {
      var g := PolicyGroup(c, JupyterPolicy);
      PolicyJustified(K, c, JupyterPolicy);
      ServiceThenDeployment(K, g.calls, MakeForCluster(g.after, JupyterService),
                            MakeForCluster(ForRole(g.after, ForNotebook), JupyterDeployment));
    }
  }

  lemma SchedulerJustified(K: Keys, c: Context, absent: bool)
    requires Reached(2, K, c)
    requires !absent ==> ChildKey(c, SchedulerService) in K && ChildKey(c, SchedulerDeployment) in K
    ensures var g := SchedulerGroup(c, absent);
      Justified(K, g.calls) && Reached(3, K + MadeBy(g.calls), g.after)
  {
    if absent {
      var g := PolicyGroup(c, SchedulerPolicy);
      PolicyJustified(K, c, SchedulerPolicy);
      ServiceThenDeployment(K, g.calls, MakeForCluster(g.after, SchedulerService),
                            MakeForCluster(ForRole(g.after, ForScheduler), SchedulerDeployment));
    }
  }

  lemma WorkersJustified(K: Keys, c: Context, current: Option<Obj>)
    requires Reached(3, K, c)
    requires current.Some? ==> ChildKey(c, WorkerDeployment) in K && ReferencesIn(K, current.value.body)
    ensures var g := WorkerGroup(c, current);
      Justified(K, g.calls) && Reached(4, K + MadeBy(g.calls), g.after)
  {
    match current
    case Some(o) =>
      if Rescale(ChildKey(c, WorkerDeployment), o, c.settings.replicas) != [] {
        JustifiedOne(K, Update(ChildKey(c, WorkerDeployment), o.rv, o.body.(replicas := c.settings.replicas)));
      }
    case None =>
      var g := PolicyGroup(c, WorkerPolicy);
      PolicyJustified(K, c, WorkerPolicy);
      var deployment := MakeForCluster(ForRole(g.after, ForWorker), WorkerDeployment);
      JustifiedOne(K + MadeBy(g.calls), deployment);
      JustifiedThen(K, g.calls, [deployment]);
  }

  lemma IngressJustified(K: Keys, c: Context, absent: bool)
    requires Reached(4, K, c)
    ensures var g := IngressGroup(c, absent);
      Justified(K, g.calls) && Reached(5, K + MadeBy(g.calls), g.after)
  {
  }

  lemma StageJustified(stage: nat, K: Keys, c: Context, seen: Seen, v: DaskView)
    requires stage < 5 && |seen| == 5 && Reached(stage, K, c) && c.ns == v.ns && c.name == v.name
    requires SeenIn(K, ClusterLooks(v), seen)
    ensures var g := StageGroup(stage, c, seen);
      Justified(K, g.calls) && Reached(stage + 1, K + MadeBy(g.calls), g.after)
  {
    assert forall i :: 0 <= i < 5 && seen[i].Some? ==> ClusterLooks(v)[i] in K;
    match stage
    case 0 => ConfigJustified(K, c, seen[4].None?);
    case 1 => JupyterJustified(K, c, seen[2].None?);
    case 2 => SchedulerJustified(K, c, seen[0].None?);
    case 3 => WorkersJustified(K, c, seen[1]);
    case _ => IngressJustified(K, c, seen[3].None?);
  }

  lemma {:induction false} PlanFromJustified(stage: nat, K: Keys, c: Context, seen: Seen, v: DaskView, last: Call)
    requires stage <= 5 && |seen| == 5 && Reached(stage, K, c) && c.ns == v.ns && c.name == v.name
    requires SeenIn(K, ClusterLooks(v), seen)
    requires last.UpdateStatus? && last.key == DaskKey(v)
    ensures Justified(K, PlanFrom(stage, c, seen, last))
    decreases 5 - stage
  {
    if stage == 5 {
      JustifiedOne(K, last);
    } else {
      var g := StageGroup(stage, c, seen);
      StageJustified(stage, K, c, seen, v);
      StageKeepsPlace(stage, c, seen);
      var K1 := K + MadeBy(g.calls);
      PlanFromJustified(stage + 1, K1, g.after, seen, v, last);
      JustifiedThen(K, g.calls, PlanFrom(stage + 1, g.after, seen, last));
    }
  }

  // ---- The DaskJob plan makes things in order ----

  lemma ClaimJustified(K: Keys, v: DaskJobView, c: Context, claim: Option<Obj>)
    requires JobPlace(v, c) && (claim.Some? ==> Child(ReportClaim, v.ns, v.name) in K)
    ensures var calls := ClaimGroup(c, claim.None?);
      Justified(K, calls) && (c.job.report ==> Child(ReportClaim, v.ns, v.name) in K + MadeBy(calls))
  {
  }

  lemma PairJustified(K: Keys, v: DaskJobView, c: Context)
    requires JobPlace(v, c) && CoreIn(K, c.ns, c.job.cluster) && Child(JobConfig, v.ns, v.name) in K
    requires c.job.report ==> Child(ReportClaim, v.ns, v.name) in K
    ensures Justified(K, [MakeForJob(c, JobAccount), MakeForJob(c, JobRun)])
  {
    var account, run := MakeForJob(c, JobAccount), MakeForJob(c, JobRun);
    JustifiedOne(K + Made(account), run);
    JustifiedFirst(K, account, [run]);
    assert [account] + [run] == [account, run];
  }

  lemma JobGroupJustified(K: Keys, v: DaskJobView, c: Context, seen: Seen)
    requires |seen| == 4 && JobPlace(v, c) && SeenIn(K, JobLooks(v), seen)
    requires CoreIn(K, c.ns, c.job.cluster) && Child(JobConfig, v.ns, v.name) in K
    ensures Justified(K, JobGroup(c, seen))
  {
    if seen[0].None? {
      assert seen[3].Some? ==> JobLooks(v)[3] in K;
      var claim := ClaimGroup(c, seen[3].None?);
      ClaimJustified(K, v, c, seen[3]);
      PairJustified(K + MadeBy(claim), v, c);
      JustifiedThen(K, claim, [MakeForJob(c, JobAccount), MakeForJob(c, JobRun)]);
    }
  }

  lemma JobPlanJustified(K: Keys, v: DaskJobView, c: Context, seen: Seen, report: Report)
    requires |seen| == 4 && JobPlace(v, c) && SeenIn(K, JobLooks(v), seen)
    requires CoreIn(K, c.ns, c.job.cluster)
    ensures Justified(K, JobPlan(v, c, seen, report))
  {
    assert seen[2].Some? ==> JobLooks(v)[2] in K;
    var config := JobConfigGroup(c, seen[2].None?);
    if seen[2].None? {
      JustifiedOne(K, MakeForJob(c, JobConfig));
    }
    var K1 := K + MadeBy(config);
    JobGroupJustified(K1, v, c, seen);
    var last := JobStatusCall(v, seen, report);
    var K2 := K1 + MadeBy(JobGroup(c, seen));
    JustifiedOne(K2, last);
    JustifiedThen(K1, JobGroup(c, seen), [last]);
    JustifiedThen(K, config, JobGroup(c, seen) + [last]);
  }

  // ---- What every world keeps ----

  predicate PassOk(K: Keys, p: Process) {
    match p
    case LookAtCluster(v, seen) => SeenIn(K, ClusterLooks(v), seen)
    case DetailCluster(v, seen, _) => SeenIn(K, ClusterLooks(v), seen)
    case ListJobs(v, d) => d.ns == v.ns && d.name == v.spec.cluster && CoreIn(K, d.ns, d.name)
    case LookAtJob(v, d, seen) => d.ns == v.ns && d.name == v.spec.cluster && CoreIn(K, d.ns, d.name) && SeenIn(K, JobLooks(v), seen)
    case ClassifyScript(v, d, seen) => d.ns == v.ns && d.name == v.spec.cluster && CoreIn(K, d.ns, d.name) && SeenIn(K, JobLooks(v), seen)
    case DetailJob(v, c, seen) => JobPlace(v, c) && CoreIn(K, c.ns, c.job.cluster) && SeenIn(K, JobLooks(v), seen)
    case Act(_, todo) => Justified(K, todo)
    case _ => true
  }

  /** Everything in a version of the store is still there, and so is all it depends on. */
  ghost predicate Backed(K: Keys, db: Db) {
    forall k :: k in db.objs ==> k in K && Supported(K, k, db.objs[k].body)
  }

  ghost predicate Inv(w: World) {
    && w.history != []
    && (forall j :: 0 <= j < |w.history| ==> Backed(Now(w).objs.Keys, w.history[j]))
    && (forall i :: 0 <= i < |w.passes| ==> PassOk(Now(w).objs.Keys, w.passes[i]))
  }

  lemma PassOkGrows(K: Keys, L: Keys, p: Process)
    requires K <= L && PassOk(K, p)
    ensures PassOk(L, p)
  {
    if p.Act? {
      JustifiedGrows(K, L, p.todo);
    }
  }

  /** An answer that shows what some version of the store holds moves a pass on soundly. */
  predicate AnswerBacked(K: Keys, c: Call, r: Resp) {
    r.Found? ==> c.Get? && c.key in K && Supported(K, c.key, r.obj.body)
  }

  lemma LookIn(K: Keys, looks: seq<Key>, seen: Seen, r: Resp)
    requires SeenIn(K, looks, seen) && |seen| < |looks| && AnswerBacked(K, Get(looks[|seen|]), r)
    ensures SeenIn(K, looks, seen + [Noticed(looks[|seen|], r)])
  {
  }

  /** Outside the writing half, any answer that is backed keeps a pass in order. */
  lemma ReadingStep(K: Keys, p: Process, c: Call, r: Resp)
    requires Next(p) == Some(c) && !p.Act? && PassOk(K, p) && AnswerBacked(K, c, r)
    ensures PassOk(K, Moved(p, r))
  {
    match p
    case LookAtCluster(v, seen) => LookIn(K, ClusterLooks(v), seen, r);
    case DetailCluster(v, seen, reports) => DetailStep(K, v, seen, reports, r);
    case LookAtJob(v, d, seen) => LookIn(K, JobLooks(v), seen, r);
    case DetailJob(v, c, seen) =>
      if d :| Detail(Child(JobRun, v.ns, v.name), r, DaskJob) == Some(d) {
        JobPlanJustified(K, v, c, seen, d);
      }
    case _ =>
  }

  lemma DetailStep(K: Keys, v: DaskView, seen: Seen, reports: seq<Report>, r: Resp)
    requires |seen| == 5 && |reports| < |ClusterDetails(v)| && SeenIn(K, ClusterLooks(v), seen)
    ensures PassOk(K, Resume(DetailCluster(v, seen, reports), r))
  {
    if d :| Detail(ClusterDetails(v)[|reports|], r, Dask) == Some(d) {
      PlanFromJustified(0, K, DaskContextOf(v), seen, v, StatusCall(v, seen, reports + [d]));
    }
  }

  lemma CreateStep(db: Db, db': Db, c: Call)
    requires c.Create? && Write(db, c) == Some(db') && Backed(db.objs.Keys, db) && CallSupported(db.objs.Keys, c)
    ensures db'.objs.Keys == db.objs.Keys + Made(c) && Backed(db'.objs.Keys, db')
  {
  }

  lemma UpdateStep(db: Db, db': Db, c: Call)
    requires !c.Create? && Write(db, c) == Some(db') && Backed(db.objs.Keys, db) && CallSupported(db.objs.Keys, c)
    ensures db'.objs.Keys == db.objs.Keys && Backed(db'.objs.Keys, db')
  {
  }

  /** A write that takes effect keeps the store backed, and what remains to do justified. */
  lemma WriteStep(db: Db, db': Db, c: Call)
    requires Write(db, c) == Some(db') && Backed(db.objs.Keys, db) && CallSupported(db.objs.Keys, c)
    ensures db'.objs.Keys == db.objs.Keys + Made(c)
    ensures Backed(db'.objs.Keys, db')
  {
    if c.Create? {
      CreateStep(db, db', c);
    } else {
      UpdateStep(db, db', c);
    }
  }

  lemma BackedGrows(K: Keys, L: Keys, db: Db)
    requires K <= L && Backed(K, db)
    ensures Backed(L, db)
  {
  }

  /** Adding a version of the store that has everything the previous one had. */
  lemma CommitKeeps(w: World, db: Db, e: seq<Event>)
    requires Inv(w) && Now(w).objs.Keys <= db.objs.Keys && Backed(db.objs.Keys, db)
    ensures Inv(Commit(w, db, e))
  {
    var w' := Commit(w, db, e);
    assert Now(w') == db;
    forall j | 0 <= j < |w'.history| ensures Backed(db.objs.Keys, w'.history[j]) {
      if j < |w.history| {
        BackedGrows(Now(w).objs.Keys, db.objs.Keys, w.history[j]);
      }
    }
    forall i | 0 <= i < |w'.passes| ensures PassOk(db.objs.Keys, w'.passes[i]) {
      PassOkGrows(Now(w).objs.Keys, db.objs.Keys, w.passes[i]);
    }
  }

  lemma PassesKeep(w: World, passes: seq<Process>)
    requires Inv(w)
    requires forall i :: 0 <= i < |passes| ==> PassOk(Now(w).objs.Keys, passes[i])
    ensures Inv(w.(passes := passes))
  {
    var w' := w.(passes := passes);
    var K := Now(w).objs.Keys;
    assert Now(w') == Now(w) && w'.history == w.history;
    forall j | 0 <= j < |w'.history| ensures Backed(K, w'.history[j]) {
      assert Backed(K, w.history[j]);
    }
    forall i | 0 <= i < |w'.passes| ensures PassOk(K, w'.passes[i]) {
      assert PassOk(K, passes[i]);
    }
  }

  lemma AnswersBacked(w: World, c: Call, a: Answer)
    requires Inv(w)
    ensures AnswerBacked(Now(w).objs.Keys, c, Perform(w, c, a).resp)
  {
  }

  lemma ActKeeps(w: World, i: nat, c: Call, a: Answer)
    requires Inv(w) && i < |w.passes| && Next(w.passes[i]) == Some(c) && w.passes[i].Act?
    ensures Inv(AdvancePass(w, i, c, a))
  {
    var p := w.passes[i];
    var o := Perform(w, c, a);
    var stopped := w.passes[i := Done(false)];
    PassesKeep(w, stopped);
    if o.db.Some? {
      WriteStep(Now(w), o.db.value, c);
      CommitKeeps(w.(passes := stopped), o.db.value, [EventOf(c)]);
      var w1 := Commit(w.(passes := stopped), o.db.value, [EventOf(c)]);
      var next := w1.passes[i := Moved(p, o.resp)];
      PassesKeep(w1, next);
      assert next == w.passes[i := Moved(p, o.resp)];
    }
  }

  lemma AdvanceKeeps(w: World, i: nat, c: Call, a: Answer)
    requires Inv(w) && i < |w.passes| && Next(w.passes[i]) == Some(c)
    ensures Inv(AdvancePass(w, i, c, a))
  {
    var p := w.passes[i];
    if p.Act? {
      ActKeeps(w, i, c, a);
    } else {
      var o := Perform(w, c, a);
      AnswersBacked(w, c, a);
      ReadingStep(Now(w).objs.Keys, p, c, o.resp);
      PassesKeep(w, w.passes[i := Moved(p, o.resp)]);
      if o.db.Some? {
        assert p.ReportPending?;
        WriteStep(Now(w), o.db.value, c);
        CommitKeeps(w.(passes := w.passes[i := Moved(p, o.resp)]), o.db.value, [EventOf(c)]);
      }
    }
  }

  lemma EditKeeps(w: World, k: Key, change: Change)
    requires Inv(w) && k in Now(w).objs
    ensures Inv(Apply(w, Edit(k, change)))
  {
    var db := Put(Now(w), k, Now(w).objs[k].owner, Changed(Now(w).objs[k].body, change));
    assert Backed(Now(w).objs.Keys, Now(w));
    assert db.objs.Keys == Now(w).objs.Keys;
    CommitKeeps(w, db, []);
  }

  lemma SubmitKeeps(w: World, k: Key, b: Body)
    requires Inv(w) && k !in Now(w).objs && Submittable(k, b)
    ensures Inv(Apply(w, Submit(k, b)))
  {
    var db := Put(Now(w), k, None, b);
    assert Backed(Now(w).objs.Keys, Now(w));
    CommitKeeps(w, db, []);
  }

  lemma StepKeeps(w: World, s: Step)
    requires Inv(w) && !s.Delete?
    ensures Inv(Apply(w, s))
  {
    match s
    case Submit(k, b) => if k !in Now(w).objs && Submittable(k, b) { SubmitKeeps(w, k, b); }
    case Edit(k, change) => if k in Now(w).objs { EditKeeps(w, k, change); }
    case StartDask(ns, name) => PassesKeep(w, w.passes + [FetchDask(ns, name)]);
    case StartJob(ns, name) => PassesKeep(w, w.passes + [FetchJob(ns, name)]);
    case Advance(i, a) => if i < |w.passes| && Next(w.passes[i]).Some? { AdvanceKeeps(w, i, Next(w.passes[i]).value, a); }
    case Crash(i) => if i < |w.passes| { PassesKeep(w, w.passes[i := Done(false)]); }
    case Delete(_) =>
  }

  lemma {:induction false} RunKeeps(steps: seq<Step>)
    requires NoDeletions(steps)
    ensures Inv(Run(steps))
  {
    if steps == [] {
    } else {
      RunKeeps(steps[..|steps|-1]);
      StepKeeps(Run(steps[..|steps|-1]), steps[|steps|-1]);
    }
  }

  // ---- The results ----

  lemma BackedResolves(db: Db, k: Key)
    requires Backed(db.objs.Keys, db) && k in db.objs
    ensures References(db.objs[k].body) <= db.objs.Keys
  {
  }

  /** In every run without deletions every ConfigMap, ServiceAccount, claim and backend Service that
      an object names is there, wherever passes stop. */
  lemma ReferencesResolve(steps: seq<Step>, k: Key)
    requires NoDeletions(steps) && k in Now(Run(steps)).objs
    ensures References(Now(Run(steps)).objs[k].body) <= Now(Run(steps)).objs.Keys
  {
    RunKeeps(steps);
    assert Backed(Now(Run(steps)).objs.Keys, Now(Run(steps)));
    BackedResolves(Now(Run(steps)), k);
  }

  /** A Job of that namespace whose scheduler is the Service of a complete cluster in it. */
  predicate JobOnCluster(K: Keys, ns: string, b: Body) {
    b.JobBody? && b.jobPod.scheduler.Child?
    && b.jobPod.scheduler == Child(SchedulerService, ns, b.jobPod.scheduler.instance)
    && CoreIn(K, ns, b.jobPod.scheduler.instance)
  }

  lemma JobSupported(K: Keys, ns: string, n: string, b: Body)
    requires Supported(K, Child(JobRun, ns, n), b)
    ensures JobOnCluster(K, ns, b)
  {
  }

  /** Whenever a DaskJob's Job exists, the cluster it was started for is complete, in the namespace of
      the two: only the persisted state of the cluster ties the two controllers together. */
  lemma JobImpliesCluster(steps: seq<Step>, ns: string, n: string)
    requires NoDeletions(steps) && Child(JobRun, ns, n) in Now(Run(steps)).objs
    ensures JobOnCluster(Now(Run(steps)).objs.Keys, ns, Now(Run(steps)).objs[Child(JobRun, ns, n)].body)
  {
    RunKeeps(steps);
    assert Backed(Now(Run(steps)).objs.Keys, Now(Run(steps)));
    JobSupported(Now(Run(steps)).objs.Keys, ns, n, Now(Run(steps)).objs[Child(JobRun, ns, n)].body);
  }

  /** Everything the store ever holds is of the sort its name stands for. */
  lemma BodiesFit(steps: seq<Step>, j: nat, k: Key)
    requires NoDeletions(steps) && j < |Run(steps).history| && k in Run(steps).history[j].objs
    ensures Fits(k, Run(steps).history[j].objs[k].body)
  {
    RunKeeps(steps);
    assert Backed(Now(Run(steps)).objs.Keys, Run(steps).history[j]);
  }

  /** Once any status has been written for a cluster, in whatever version of the store a DaskJob's
      pass may read it, the cluster is complete now. */
  lemma StatusImpliesCluster(steps: seq<Step>, j: nat, ns: string, n: string)
    requires NoDeletions(steps) && j < |Run(steps).history| && Cluster(ns, n) in Run(steps).history[j].objs
    requires Run(steps).history[j].objs[Cluster(ns, n)].body.ClusterBody?
    requires Run(steps).history[j].objs[Cluster(ns, n)].body.status.state != Unset
    ensures CoreIn(Now(Run(steps)).objs.Keys, ns, n)
  {
    RunKeeps(steps);
    assert Backed(Now(Run(steps)).objs.Keys, Run(steps).history[j]);
  }
}
