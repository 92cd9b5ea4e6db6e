/** What holds of the writes a pass decides on, whatever it saw: they are all writes, and all to
    objects of the resource the pass was started for. */
module Plans {
  import opened Options
  import opened Names
  import opened Contexts
  import opened Objects
  import opened Api
  import opened Processes

  predicate SamePlace(c: Context, d: Context) {
    c.ns == d.ns && c.name == d.name && c.settings == d.settings && c.job == d.job
  }

  predicate JobPlace(v: DaskJobView, c: Context) {
    c.ns == v.ns && c.name == v.name
  }

  lemma StageKeepsPlace(stage: nat, c: Context, seen: Seen)
    requires |seen| == 5
    ensures SamePlace(c, StageGroup(stage, c, seen).after)
  {
  }

  /** A write to an object of `owner`. */
  predicate OwnedCall(owner: Key, c: Call) {
    IsWrite(c) && OwnerKey(c.key) == owner
  }

  predicate Owned(owner: Key, calls: seq<Call>) {
    forall i :: 0 <= i < |calls| ==> OwnedCall(owner, calls[i])
  }

  lemma JupyterGroupOwned(c: Context, absent: bool)
    ensures Owned(Cluster(c.ns, c.name), JupyterGroup(c, absent).calls)
  {
    assert Owned(Cluster(c.ns, c.name), PolicyGroup(c, JupyterPolicy).calls);
  }

  lemma SchedulerGroupOwned(c: Context, absent: bool)
    ensures Owned(Cluster(c.ns, c.name), SchedulerGroup(c, absent).calls)
  {
    assert Owned(Cluster(c.ns, c.name), PolicyGroup(c, SchedulerPolicy).calls);
  }

  lemma WorkerGroupOwned(c: Context, current: Option<Obj>)
    ensures Owned(Cluster(c.ns, c.name), WorkerGroup(c, current).calls)
  {
  }

  lemma StageOwned(stage: nat, c: Context, seen: Seen)
    requires |seen| == 5
    ensures Owned(Cluster(c.ns, c.name), StageGroup(stage, c, seen).calls)
  {
    match stage
    case 0 => assert Owned(Cluster(c.ns, c.name), ConfigGroup(c, seen[4].None?).calls);
    case 1 => JupyterGroupOwned(c, seen[2].None?);
    case 2 => SchedulerGroupOwned(c, seen[0].None?);
    case 3 => WorkerGroupOwned(c, seen[1]);
    case _ => assert Owned(Cluster(c.ns, c.name), IngressGroup(c, seen[3].None?).calls);
  }

  lemma OwnedThen(owner: Key, first: seq<Call>, second: seq<Call>)
    requires Owned(owner, first) && Owned(owner, second)
    ensures Owned(owner, first + second)
  {
  }

  lemma {:induction false} PlanFromOwned(stage: nat, c: Context, seen: Seen, last: Call)
    requires |seen| == 5 && stage <= 5 && OwnedCall(Cluster(c.ns, c.name), last)
    ensures Owned(Cluster(c.ns, c.name), PlanFrom(stage, c, seen, last))
    decreases 5 - stage
  {
    if stage == 5 {
    } else {
      var g := StageGroup(stage, c, seen);
      StageOwned(stage, c, seen);
      StageKeepsPlace(stage, c, seen);
      PlanFromOwned(stage + 1, g.after, seen, last);
      OwnedThen(Cluster(c.ns, c.name), g.calls, PlanFrom(stage + 1, g.after, seen, last));
    }
  }

  lemma ClusterPlanOwned(v: DaskView, seen: Seen, reports: seq<Report>)
    requires |seen| == 5
    ensures Owned(DaskKey(v), ClusterPlan(v, seen, reports))
  {
    PlanFromOwned(0, DaskContextOf(v), seen, StatusCall(v, seen, reports));
  }

  lemma JobPlanOwned(v: DaskJobView, c: Context, seen: Seen, report: Report)
    requires |seen| == 4 && JobPlace(v, c)
    ensures Owned(WorkKey(v), JobPlan(v, c, seen, report))
  {
  }

  /** The resource a pass was started for. */
  function OwnerOf(p: Process): Option<Key> {
    match p
    case FetchDask(ns, name) => Some(Cluster(ns, name))
    case ListDeployments(v) => Some(DaskKey(v))
    case LookAtCluster(v, _) => Some(DaskKey(v))
    case DetailCluster(v, _, _) => Some(DaskKey(v))
    case FetchJob(ns, name) => Some(Work(ns, name))
    case FetchJobCluster(v) => Some(WorkKey(v))
    case ReportPending(v) => Some(WorkKey(v))
    case ListJobs(v, _) => Some(WorkKey(v))
    case LookAtJob(v, _, _) => Some(WorkKey(v))
    case ClassifyScript(v, _, _) => Some(WorkKey(v))
    case DetailJob(v, _, _) => Some(WorkKey(v))
    case Act(owner, _) => Some(owner)
    case Done(_) => None
  }

  /** A pass keeps to its own resource. */
  predicate KeepsToOwn(p: Process) {
    match p
    case ListJobs(v, d) => d.ns == v.ns
    case LookAtJob(v, d, _) => d.ns == v.ns
    case ClassifyScript(v, d, _) => d.ns == v.ns
    case DetailJob(v, c, _) => JobPlace(v, c)
    case Act(owner, todo) => Owned(owner, todo)
    case _ => true
  }

  lemma ReportKeepsToOwn(v: DaskView, seen: Seen, reports: seq<Report>, d: Option<Report>)
    requires |seen| == 5
    ensures var q := AfterDetail(v, seen, reports, d);
      KeepsToOwn(q) && (q.Done? || OwnerOf(q) == Some(DaskKey(v)))
  {
    if d.Some? {
      ClusterPlanOwned(v, seen, reports + [d.value]);
    }
  }

  lemma DetailsKeepToOwn(v: DaskView, seen: Seen, reports: seq<Report>, r: Resp)
    ensures var q := Moved(DetailCluster(v, seen, reports), r);
      KeepsToOwn(q) && (q.Done? || OwnerOf(q) == Some(DaskKey(v)))
  {
    if Sane(DetailCluster(v, seen, reports)) {
      DetailMoves(v, seen, reports, r);
      ReportKeepsToOwn(v, seen, reports, Detail(ClusterDetails(v)[|reports|], r, Dask));
    }
  }

  lemma JobDetailKeepsToOwn(v: DaskJobView, c: Context, seen: Seen, r: Resp)
    requires JobPlace(v, c)
    ensures var p := DetailJob(v, c, seen);
      KeepsToOwn(Moved(p, r)) && (Moved(p, r).Done? || OwnerOf(Moved(p, r)) == Some(WorkKey(v)))
  {
    if Sane(DetailJob(v, c, seen)) {
      var d := Detail(Child(JobRun, v.ns, v.name), r, DaskJob);
      if d.Some? {
        JobPlanOwned(v, c, seen, d.value);
      }
    }
  }

  /** Whatever the answer, a pass stays with its resource. */
  lemma MovedKeepsToOwn(p: Process, r: Resp)
    requires KeepsToOwn(p)
    ensures KeepsToOwn(Moved(p, r))
    ensures Moved(p, r).Done? || OwnerOf(Moved(p, r)) == OwnerOf(p)
  {
    match p
    case DetailCluster(v, seen, reports) => DetailsKeepToOwn(v, seen, reports, r);
    case DetailJob(v, c, seen) => JobDetailKeepsToOwn(v, c, seen, r);
    case _ =>
  }

  /** Which failures a pass gets over: one of a lookup, or of the look at the cluster, counts as "not
      there", and one about a Deployment's details is overwritten. Any other ends the pass in failure. */
  lemma FailuresEndPasses(p: Process)
    requires Next(p).Some?
    ensures if p.LookAtCluster? || p.LookAtJob? || p.FetchJobCluster?
              || (p.DetailCluster? && KindOf(ClusterDetails(p.dask)[|p.reports|]) == Deployment)
            then Moved(p, Error) == Moved(p, NotFound) && !Moved(p, Error).Done?
            else Moved(p, Error) == Done(false)
  {
  }

  lemma WritesOwn(p: Process, c: Call)
    requires KeepsToOwn(p) && Next(p) == Some(c) && IsWrite(c)
    ensures OwnerOf(p) == Some(OwnerKey(c.key))
  {
  }
}
