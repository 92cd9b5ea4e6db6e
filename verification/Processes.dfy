/** One pass of either controller, as what it does next given what it was answered so far
    (controllers/dask_controller.go, controllers/daskjob_controller.go, controllers/utils.go).
    The reconcilers are shown to behave like this whatever the API server answers, and the
    interleavings of many passes are built from it. */
module Processes {
  import opened Options
  import opened Names
  import opened Specs
  import opened Contexts
  import opened Objects
  import opened Models
  import opened Api

  /** What a pass keeps of the resource it was started for. */
  datatype DaskView = DaskView(ns: string, name: string, rv: nat, spec: DaskSpec)
  datatype DaskJobView = DaskJobView(ns: string, name: string, rv: nat, spec: DaskJobSpec)

  type Seen = seq<Option<Obj>>

  datatype Process =
    | FetchDask(ns: string, name: string)
    | ListDeployments(dask: DaskView)
    | LookAtCluster(dask: DaskView, seen: Seen)
    | DetailCluster(dask: DaskView, seen: Seen, reports: seq<Report>)
    | FetchJob(ns: string, name: string)
    | FetchJobCluster(job: DaskJobView)
    | ReportPending(job: DaskJobView)
    | ListJobs(job: DaskJobView, dask: DaskView)
    | LookAtJob(job: DaskJobView, dask: DaskView, seen: Seen)
    | ClassifyScript(job: DaskJobView, dask: DaskView, seen: Seen)
    | DetailJob(job: DaskJobView, context: Context, seen: Seen)
    | Act(owner: Key, todo: seq<Call>)
    | Done(ok: bool)

  // ---- The Dask controller ----

  const DEFAULT_IMAGE := "daskdev/dask:2.9.0"
  const DEFAULT_PULL_POLICY := "IfNotPresent"

  function DaskKey(v: DaskView): Key {
    Cluster(v.ns, v.name)
  }

  function DaskContextOf(v: DaskView): Context {
    Defaulted(Configured(v.ns, v.name, v.spec), DEFAULT_IMAGE, DEFAULT_PULL_POLICY)
  }

  /** The children whose absence starts a group, in the order they are looked up. */
  function ClusterLooks(v: DaskView): seq<Key> {
    [Child(SchedulerDeployment, v.ns, v.name), Child(WorkerDeployment, v.ns, v.name),
     Child(JupyterDeployment, v.ns, v.name), Child(ClusterIngress, v.ns, v.name),
     Child(ClusterConfig, v.ns, v.name)]
  }

  /** What a lookup contributes: any failure, or an object of the wrong sort, counts as absent. */
  function Noticed(k: Key, r: Resp): Option<Obj> {
    if r.Found? && Fits(k, r.obj.body) then Some(r.obj) else None
  }

  predicate IsReady(o: Option<Obj>) {
    o.Some? && o.value.body.DeploymentBody? &&
    o.value.body.readiness.readyReplicas == o.value.body.readiness.replicas
  }

  function CountSome(seen: Seen): nat {
    if seen == [] then 0 else CountSome(seen[..|seen|-1]) + if seen[|seen|-1].Some? then 1 else 0
  }

  function CountReady(seen: Seen): nat {
    if seen == [] then 0 else CountReady(seen[..|seen|-1]) + if IsReady(seen[|seen|-1]) then 1 else 0
  }

  /** The state a pass computes from its three Deployment lookups, before it creates anything. */
  function ObservedState(deployments: Seen): State {
    if CountSome(deployments) == CountReady(deployments) then Running else Building
  }

  function ServiceDetails(v: DaskView): seq<Key> {
    if v.spec.jupyter then [Child(SchedulerService, v.ns, v.name), Child(JupyterService, v.ns, v.name)]
    else [Child(SchedulerService, v.ns, v.name)]
  }

  function DeploymentDetails(v: DaskView): seq<Key> {
    [Child(SchedulerDeployment, v.ns, v.name), Child(WorkerDeployment, v.ns, v.name), Child(JupyterDeployment, v.ns, v.name)]
  }

  function IngressDetails(v: DaskView): seq<Key> {
    if v.spec.jupyterIngress == "" && v.spec.schedulerIngress == "" then [] else [Child(ClusterIngress, v.ns, v.name)]
  }

  /** What is read once more for the resource details. */
  function ClusterDetails(v: DaskView): seq<Key> {
    IngressDetails(v) + DeploymentDetails(v) + ServiceDetails(v)
  }

  predicate ControlledBy(o: Obj, kind: Kind) {
    o.owner.Some? && o.owner.value.apiVersion == GROUP_VERSION && o.owner.value.kind == kind
  }

  /** One line of the resource details; None is an error that ends the pass. Errors about a
      Deployment are overwritten by the next lookup before anyone checks them. */
  function Detail(k: Key, r: Resp, kind: Kind): Option<Report> {
    match r
    case Found(o) =>
      if Fits(k, o.body) && ControlledBy(o, kind) then Some(ReportOf(o.body))
      else if KindOf(k) == Deployment then Some(NothingFound) else None
    case NotFound => Some(NothingFound)
    case _ => if KindOf(k) == Deployment then Some(NothingFound) else None
  }

  function DaskOwner(c: Context): Owner {
    Owner(GROUP_VERSION, Dask, c.name)
  }

  function MakeForCluster(c: Context, r: Role): Call {
    Create(ChildKey(c, r), DaskOwner(c), Rendered(c, r))
  }

  /** A run of calls, and the context the receiver is left with. */
  datatype Group = Group(calls: seq<Call>, after: Context)

  /** A policy is made from the notebook's copy of the context, whichever role it is for. */
  function PolicyGroup(c: Context, r: Role): Group {
    if c.settings.disablePolicies then Group([], c)
    else var c1 := ForRole(c, ForNotebook); Group([MakeForCluster(c1, r)], c1)
  }

  function ConfigGroup(c: Context, absent: bool): Group {
    if !absent then Group([], c)
    else Group((if c.settings.disablePolicies then [] else [MakeForCluster(c, DnsPolicy)]) +
               [MakeForCluster(c, ClusterAccount), MakeForCluster(c, ClusterConfig)], c)
  }

  function JupyterGroup(c: Context, absent: bool): Group {
    if !(c.settings.jupyter && absent) then Group([], c)
    else
      var g := PolicyGroup(c, JupyterPolicy);
      var c2 := ForRole(g.after, ForNotebook);
      Group(g.calls + [MakeForCluster(g.after, JupyterService), MakeForCluster(c2, JupyterDeployment)], c2)
  }

  function SchedulerGroup(c: Context, absent: bool): Group {
    if !absent then Group([], c)
    else
      var g := PolicyGroup(c, SchedulerPolicy);
      var c2 := ForRole(g.after, ForScheduler);
      Group(g.calls + [MakeForCluster(g.after, SchedulerService), MakeForCluster(c2, SchedulerDeployment)], c2)
  }

  /** The one child that is ever changed: the worker Deployment's replica count follows the spec. */
  function Rescale(k: Key, o: Obj, replicas: int): seq<Call> {
    if o.body.DeploymentBody? && o.body.replicas != replicas
    then [Update(k, o.rv, o.body.(replicas := replicas))] else []
  }

  function WorkerGroup(c: Context, current: Option<Obj>): Group {
    match current
    case Some(o) => Group(Rescale(ChildKey(c, WorkerDeployment), o, c.settings.replicas), c)
    case None =>
      var g := PolicyGroup(c, WorkerPolicy);
      var c2 := ForRole(g.after, ForWorker);
      Group(g.calls + [MakeForCluster(c2, WorkerDeployment)], c2)
  }

  function IngressGroup(c: Context, absent: bool): Group {
    if absent && (c.settings.jupyterIngress != "" || c.settings.schedulerIngress != "")
    then Group([MakeForCluster(c, ClusterIngress)], c) else Group([], c)
  }

  function ObservedStatus(seen: Seen, reports: seq<Report>): DaskStatus
    requires |seen| == 5
  {
    DaskStatus(CountSome(seen[..3]), CountReady(seen[..3]), ObservedState(seen[..3]), reports)
  }

  function StatusCall(v: DaskView, seen: Seen, reports: seq<Report>): Call
    requires |seen| == 5
  {
    UpdateStatus(DaskKey(v), v.rv, ClusterStatus(ObservedStatus(seen, reports)))
  }

  /** The five groups in the order a pass gets to them. */
  function StageGroup(stage: nat, c: Context, seen: Seen): Group
    requires |seen| == 5
  {
    match stage
    case 0 => ConfigGroup(c, seen[4].None?)
    case 1 => JupyterGroup(c, seen[2].None?)
    case 2 => SchedulerGroup(c, seen[0].None?)
    case 3 => WorkerGroup(c, seen[1])
    case _ => IngressGroup(c, seen[3].None?)
  }

  /** What a pass writes from some stage on: the groups, then the status. */
  function PlanFrom(stage: nat, c: Context, seen: Seen, last: Call): (calls: seq<Call>)
    requires |seen| == 5 && stage <= 5
    ensures calls != []
    decreases 5 - stage, |seen|
  {
    if stage == 5 then [last]
    else
      var g := StageGroup(stage, c, seen);
      g.calls + PlanFrom(stage + 1, g.after, seen, last)
  }

  /** The writes of a pass, each of which ends it if it fails. */
  function ClusterPlan(v: DaskView, seen: Seen, reports: seq<Report>): seq<Call>
    requires |seen| == 5
  {
    PlanFrom(0, DaskContextOf(v), seen, StatusCall(v, seen, reports))
  }

  // ---- The DaskJob controller ----

  function WorkKey(v: DaskJobView): Key {
    Work(v.ns, v.name)
  }

  function JobContextOf(v: DaskJobView, dask: DaskView, s: ScriptData): Context {
    WithScript(ForJob(Configured(dask.ns, dask.name, dask.spec), v.name, v.spec), s.kind, s.contents, s.mounted)
  }

  function JobLooks(v: DaskJobView): seq<Key> {
    [Child(JobRun, v.ns, v.name), Child(ClusterConfig, v.ns, v.spec.cluster),
     Child(JobConfig, v.ns, v.name), Child(ReportClaim, v.ns, v.name)]
  }

  function JobState(job: Option<Obj>): State {
    if job.Some? && job.value.body.JobBody? then
      match FirstFinished(job.value.body.conditions)
      case None => Running
      case Some(t) => Finished(t)
    else Running
  }

  function PendingCall(v: DaskJobView): Call {
    UpdateStatus(WorkKey(v), v.rv, WorkStatus(DaskJobStatus(0, PendingCluster(v.spec.cluster), [])))
  }

  function MakeForJob(c: Context, r: Role): Call {
    Create(ChildKey(c, r), Owner(GROUP_VERSION, DaskJob, c.name), Rendered(c, r))
  }

  function JobConfigGroup(c: Context, absent: bool): seq<Call> {
    if absent then [MakeForJob(c, JobConfig)] else []
  }

  function ClaimGroup(c: Context, absent: bool): seq<Call> {
    if c.job.report && absent then [MakeForJob(c, ReportClaim)] else []
  }

  function JobGroup(c: Context, seen: Seen): seq<Call>
    requires |seen| == 4
  {
    if seen[0].Some? then []
    else ClaimGroup(c, seen[3].None?) + [MakeForJob(c, JobAccount), MakeForJob(c, JobRun)]
  }

  function JobStatusCall(v: DaskJobView, seen: Seen, report: Report): Call
    requires |seen| == 4
  {
    UpdateStatus(WorkKey(v), v.rv, WorkStatus(DaskJobStatus(0, JobState(seen[0]), [report])))
  }

  function JobPlan(v: DaskJobView, c: Context, seen: Seen, report: Report): seq<Call>
    requires |seen| == 4
  {
    JobConfigGroup(c, seen[2].None?) + (JobGroup(c, seen) + [JobStatusCall(v, seen, report)])
  }

  // ---- The passes step by step ----

  predicate Sane(p: Process) {
    match p
    case LookAtCluster(_, seen) => |seen| < 5
    case DetailCluster(v, seen, reports) => |seen| == 5 && |reports| < |ClusterDetails(v)|
    case LookAtJob(_, _, seen) => |seen| < 4
    case ClassifyScript(_, _, seen) => |seen| == 4
    case DetailJob(_, _, seen) => |seen| == 4
    case Act(_, todo) => todo != []
    case _ => true
  }

  function NextCall(p: Process): Call
    requires Sane(p) && !p.Done?
  {
    match p
    case FetchDask(ns, name) => Get(Cluster(ns, name))
    case ListDeployments(v) => List(v.ns)
    case LookAtCluster(v, seen) => Get(ClusterLooks(v)[|seen|])
    case DetailCluster(v, _, reports) => Get(ClusterDetails(v)[|reports|])
    case FetchJob(ns, name) => Get(Work(ns, name))
    case FetchJobCluster(v) => Get(Cluster(v.ns, v.spec.cluster))
    case ReportPending(v) => PendingCall(v)
    case ListJobs(v, _) => List(v.ns)
    case LookAtJob(v, _, seen) => Get(JobLooks(v)[|seen|])
    case ClassifyScript(v, _, _) => CheckScript(v.spec.script)
    case DetailJob(v, _, _) => Get(Child(JobRun, v.ns, v.name))
    case Act(_, todo) => todo[0]
  }

  function Acting(owner: Key, todo: seq<Call>): (p: Process)
    ensures Sane(p)
  {
    if todo == [] then Done(true) else Act(owner, todo)
  }

  function LookedAtCluster(v: DaskView, seen: Seen): (p: Process)
    ensures |seen| <= 5 ==> Sane(p)
  {
    if |seen| < 5 then LookAtCluster(v, seen) else DetailCluster(v, seen, [])
  }

  function Detailed(v: DaskView, seen: Seen, reports: seq<Report>): (p: Process)
    requires |seen| == 5
    ensures Sane(p)
  {
    if |reports| < |ClusterDetails(v)| then DetailCluster(v, seen, reports)
    else Acting(DaskKey(v), ClusterPlan(v, seen, reports))
  }

  function LookedAtJob(v: DaskJobView, d: DaskView, seen: Seen): (p: Process)
    ensures |seen| <= 4 ==> Sane(p)
  {
    if |seen| < 4 then LookAtJob(v, d, seen) else ClassifyScript(v, d, seen)
  }

  function AfterDetail(v: DaskView, seen: Seen, reports: seq<Report>, detail: Option<Report>): (p: Process)
    requires |seen| == 5
    ensures Sane(p)
  {
    match detail
    case None => Done(false)
    case Some(d) => Detailed(v, seen, reports + [d])
  }

  /** A DaskJob waits for its cluster to say Running. */
  function AfterGate(v: DaskJobView, r: Resp): (p: Process)
    ensures Sane(p)
  {
    if r.Found? && r.obj.body.ClusterBody? then
      if r.obj.body.status.state == Running
      then ListJobs(v, DaskView(v.ns, v.spec.cluster, r.obj.rv, r.obj.body.spec))
      else Done(false)
    else ReportPending(v)
  }

  function AfterJobDetail(v: DaskJobView, c: Context, seen: Seen, detail: Option<Report>): (p: Process)
    requires |seen| == 4
    ensures Sane(p)
  {
    match detail
    case None => Done(false)
    case Some(d) => Acting(WorkKey(v), JobPlan(v, c, seen, d))
  }

  function Resume(p: Process, r: Resp): (q: Process)
    requires Sane(p) && !p.Done?
    ensures Sane(q)
  {
    match p
    case FetchDask(ns, name) =>
      (match r
       case Found(o) => if o.body.ClusterBody? then ListDeployments(DaskView(ns, name, o.rv, o.body.spec)) else Done(false)
       case NotFound => Done(true)
       case _ => Done(false))
    case ListDeployments(v) => if r.Ok? || r.NotFound? then LookAtCluster(v, []) else Done(false)
    case LookAtCluster(v, seen) =>
      LookedAtCluster(v, seen + [Noticed(ClusterLooks(v)[|seen|], r)])
    case DetailCluster(v, seen, reports) =>
      AfterDetail(v, seen, reports, Detail(ClusterDetails(v)[|reports|], r, Dask))
    case FetchJob(ns, name) =>
      (match r
       case Found(o) => if o.body.WorkBody? then FetchJobCluster(DaskJobView(ns, name, o.rv, o.body.job)) else Done(false)
       case NotFound => Done(true)
       case _ => Done(false))
    case FetchJobCluster(v) => AfterGate(v, r)
    case ReportPending(_) => Done(false)
    case ListJobs(v, d) => if r.Ok? || r.NotFound? then LookAtJob(v, d, []) else Done(false)
    case LookAtJob(v, d, seen) =>
      LookedAtJob(v, d, seen + [Noticed(JobLooks(v)[|seen|], r)])
    case ClassifyScript(v, d, seen) => if r.Script? then DetailJob(v, JobContextOf(v, d, r.data), seen) else Done(false)
    case DetailJob(v, c, seen) =>
      AfterJobDetail(v, c, seen, Detail(Child(JobRun, v.ns, v.name), r, DaskJob))
    case Act(owner, todo) => if r.Ok? then Acting(owner, todo[1..]) else Done(false)
  }

  /** The call a pass makes next, unless it is over. */
  function Next(p: Process): Option<Call> {
    if Sane(p) && !p.Done? then Some(NextCall(p)) else None
  }

  function Moved(p: Process, r: Resp): Process {
    if Sane(p) && !p.Done? then Resume(p, r) else p
  }

  /** What a pass does next depends on an answer about the details only through the report. */
  lemma DetailMoves(v: DaskView, seen: Seen, reports: seq<Report>, r: Resp)
    requires Sane(DetailCluster(v, seen, reports))
    ensures Moved(DetailCluster(v, seen, reports), r) ==
      AfterDetail(v, seen, reports, Detail(ClusterDetails(v)[|reports|], r, Dask))
  {
  }

  lemma JobDetailMoves(v: DaskJobView, c: Context, seen: Seen, r: Resp)
    requires Sane(DetailJob(v, c, seen))
    ensures Moved(DetailJob(v, c, seen), r) == AfterJobDetail(v, c, seen, Detail(Child(JobRun, v.ns, v.name), r, DaskJob))
  {
  }
}
