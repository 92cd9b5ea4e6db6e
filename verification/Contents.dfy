/** What a Dask comes to in the store, in terms of its spec alone: which objects a pass makes, under
    which names, and what is in them (models/, types/types.go). */
module Contents {
  import opened Options
  import opened Names
  import opened Specs
  import opened Contexts
  import opened Objects
  import opened Models
  import opened Api
  import opened NonInterference
  import opened Processes
  import opened Solo
  import opened Groups
  import opened Recovery
  import opened Convergence

  // ---- What the parts are to be ----

  /** Whether the spec asks for the part. */
  predicate Wanted(spec: DaskSpec, r: Role) {
    match r
    case ClusterAccount | ClusterConfig | SchedulerService | SchedulerDeployment | WorkerDeployment => true
    case DnsPolicy | SchedulerPolicy | WorkerPolicy => !spec.disablePolicies
    case JupyterPolicy => spec.jupyter && !spec.disablePolicies
    case JupyterService | JupyterDeployment => spec.jupyter
    case ClusterIngress => spec.jupyterIngress != "" || spec.schedulerIngress != ""
    case JobConfig | ReportClaim | JobAccount | JobRun => false
  }

  /** The part whose absence lets a pass make this one. */
  function MadeWith(r: Role): Role {
    match r
    case DnsPolicy | ClusterAccount | ClusterConfig => ClusterConfig
    case JupyterPolicy | JupyterService | JupyterDeployment => JupyterDeployment
    case SchedulerPolicy | SchedulerService | SchedulerDeployment => SchedulerDeployment
    case WorkerPolicy | WorkerDeployment => WorkerDeployment
    case _ => ClusterIngress
  }

  /** The host, Service and port of a rule: the notebook's if there is to be one, the scheduler's, and
      its monitor's. */
  predicate LeadsTo(ns: string, n: string, spec: DaskSpec, rule: IngressRule) {
    || (spec.jupyter && spec.jupyterIngress != ""
        && rule == IngressRule(spec.jupyterIngress, Child(JupyterService, ns, n), 8888))
    || (spec.schedulerIngress != ""
        && (|| rule == IngressRule(spec.schedulerIngress, Child(SchedulerService, ns, n), 8786)
            || rule == IngressRule(if spec.monitorIngress == "" then "monitor.dask.local" else spec.monitorIngress,
                                   Child(SchedulerService, ns, n), 8787)))
  }

  ghost predicate RulesAre(ns: string, n: string, spec: DaskSpec, rules: seq<IngressRule>) {
    && (forall i :: 0 <= i < |rules| ==> LeadsTo(ns, n, spec, rules[i]))
    && (forall rule: IngressRule :: LeadsTo(ns, n, spec, rule) ==> rule in rules)
  }

  /** A Deployment fresh from its template: the replicas, the image, and what its pods are told. */
  predicate Deploys(ns: string, n: string, spec: DaskSpec, b: Body, replicas: int, image: string) {
    && b.DeploymentBody? && b.replicas == replicas && b.readiness == Readiness(0, 0)
    && b.pod.image == image && b.pod.pullPolicy == (if spec.pullPolicy == "" then "IfNotPresent" else spec.pullPolicy)
    && b.pod.account == Child(ClusterAccount, ns, n) && b.pod.config == Child(ClusterConfig, ns, n)
    && b.pod.scheduler == Child(SchedulerService, ns, n) && b.pod.claim == None
  }

  /** What the part is made of. */
  ghost predicate PartOf(ns: string, n: string, spec: DaskSpec, r: Role, b: Body) {
    var image := if spec.image == "" then "daskdev/dask:2.9.0" else spec.image;
    match r
    case DnsPolicy | JupyterPolicy | SchedulerPolicy | WorkerPolicy => b == PolicyBody(r, n)
    case ClusterAccount => b == AccountBody
    case ClusterConfig => b == ConfigBody(None)
    case JupyterService | SchedulerService => b == ServiceBody
    case JupyterDeployment => Deploys(ns, n, spec, b, 1, "jupyter/scipy-notebook:latest")
    case SchedulerDeployment => Deploys(ns, n, spec, b, 1, image)
    case WorkerDeployment => Deploys(ns, n, spec, b, if spec.replicas == 0 then 5 else spec.replicas, image)
    case ClusterIngress => b.IngressBody? && b.address == "" && RulesAre(ns, n, spec, b.rules)
    case _ => false
  }

  // ---- What the calls of a plan are ----

  /** What a pass has seen of the part that starts r's group. */
  function StartOf(seen: Seen, r: Role): Option<Obj>
    requires |seen| == 5
  {
    match MadeWith(r)
    case SchedulerDeployment => seen[0]
    case WorkerDeployment => seen[1]
    case JupyterDeployment => seen[2]
    case ClusterIngress => seen[3]
    case _ => seen[4]
  }

  ghost predicate MakesPart(v: DaskView, seen: Seen, call: Call)
    requires |seen| == 5
  {
    && call.Create? && call.key.Child? && call.key == Child(call.key.role, v.ns, v.name)
    && call.owner == Owner("analytics.piersharding.com/v1", Dask, v.name)
    && Wanted(v.spec, call.key.role) && StartOf(seen, call.key.role).None?
    && PartOf(v.ns, v.name, v.spec, call.key.role, call.body)
  }

  predicate Rescales(v: DaskView, seen: Seen, call: Call)
    requires |seen| == 5
  {
    && call.Update? && call.key == Child(WorkerDeployment, v.ns, v.name) && seen[1].Some? && call.rv == seen[1].value.rv
    && seen[1].value.body.DeploymentBody?
    && call.body == seen[1].value.body.(replicas := if v.spec.replicas == 0 then 5 else v.spec.replicas)
  }

  ghost predicate InPlan(v: DaskView, seen: Seen, call: Call)
    requires |seen| == 5
  {
    || MakesPart(v, seen, call) || Rescales(v, seen, call) || (call.UpdateStatus? && call.key == Cluster(v.ns, v.name))
  }

  /** The context of a pass, whatever roles it has been specialised for. */
  predicate OfView(v: DaskView, c: Context) {
    c == DaskContextOf(v).(pod := c.pod)
  }

  lemma RulesRendered(v: DaskView, c: Context)
    requires OfView(v, c)
    ensures RulesAre(v.ns, v.name, v.spec, IngressRules(c))
  {
    var rules := IngressRules(c);
    var notebook := if c.settings.jupyter && c.settings.jupyterIngress != "" then 1 else 0;
    forall rule: IngressRule | LeadsTo(v.ns, v.name, v.spec, rule) ensures rule in rules {
      assert notebook == 1 ==> rules[0] == IngressRule(v.spec.jupyterIngress, Child(JupyterService, v.ns, v.name), 8888);
      assert v.spec.schedulerIngress != "" ==> rules[notebook].host == v.spec.schedulerIngress && |rules| == notebook + 2;
    }
  }

  lemma PartRendered(v: DaskView, c: Context, r: Role)
    requires OfView(v, c) && OfCluster(r)
    ensures PartOf(v.ns, v.name, v.spec, r, Rendered(c, r))
  {
    if r == ClusterIngress {
      RulesRendered(v, c);
    }
  }

  lemma MadeIsPart(v: DaskView, seen: Seen, c: Context, r: Role)
    requires |seen| == 5 && OfView(v, c) && OfCluster(r) && Wanted(v.spec, r) && StartOf(seen, r).None?
    ensures MakesPart(v, seen, MakeForCluster(c, r))
  {
    PartRendered(v, c, r);
  }

  ghost predicate AllInPlan(v: DaskView, seen: Seen, calls: seq<Call>)
    requires |seen| == 5
  {
    forall i :: 0 <= i < |calls| ==> InPlan(v, seen, calls[i])
  }

  lemma PolicyInPlan(v: DaskView, seen: Seen, c: Context, r: Role)
    requires |seen| == 5 && OfView(v, c) && r in {JupyterPolicy, SchedulerPolicy, WorkerPolicy} && StartOf(seen, r).None?
    requires r == JupyterPolicy ==> v.spec.jupyter
    ensures AllInPlan(v, seen, PolicyGroup(c, r).calls) && OfView(v, PolicyGroup(c, r).after)
  {
    if !v.spec.disablePolicies {
      MadeIsPart(v, seen, ForRole(c, ForNotebook), r);
    }
  }

  lemma ConfigInPlan(v: DaskView, seen: Seen, c: Context)
    requires |seen| == 5 && OfView(v, c)
    ensures AllInPlan(v, seen, ConfigGroup(c, seen[4].None?).calls)
  {
    if seen[4].None? {
      if !v.spec.disablePolicies {
        MadeIsPart(v, seen, c, DnsPolicy);
      }
      MadeIsPart(v, seen, c, ClusterAccount);
      MadeIsPart(v, seen, c, ClusterConfig);
    }
  }

  lemma JupyterInPlan(v: DaskView, seen: Seen, c: Context)
    requires |seen| == 5 && OfView(v, c)
    ensures var g := JupyterGroup(c, seen[2].None?); AllInPlan(v, seen, g.calls) && OfView(v, g.after)
  {
    if c.settings.jupyter && seen[2].None? {
      PolicyInPlan(v, seen, c, JupyterPolicy);
      var after := PolicyGroup(c, JupyterPolicy).after;
      MadeIsPart(v, seen, after, JupyterService);
      MadeIsPart(v, seen, ForRole(after, ForNotebook), JupyterDeployment);
    }
  }

  lemma SchedulerInPlan(v: DaskView, seen: Seen, c: Context)
    requires |seen| == 5 && OfView(v, c)
    ensures var g := SchedulerGroup(c, seen[0].None?); AllInPlan(v, seen, g.calls) && OfView(v, g.after)
  {
    if seen[0].None? {
      PolicyInPlan(v, seen, c, SchedulerPolicy);
      var after := PolicyGroup(c, SchedulerPolicy).after;
      MadeIsPart(v, seen, after, SchedulerService);
      MadeIsPart(v, seen, ForRole(after, ForScheduler), SchedulerDeployment);
    }
  }

  lemma WorkersInPlan(v: DaskView, seen: Seen, c: Context)
    requires |seen| == 5 && OfView(v, c)
    ensures var g := WorkerGroup(c, seen[1]); AllInPlan(v, seen, g.calls) && OfView(v, g.after)
  {
    if seen[1].None? {
      PolicyInPlan(v, seen, c, WorkerPolicy);
      MadeIsPart(v, seen, ForRole(PolicyGroup(c, WorkerPolicy).after, ForWorker), WorkerDeployment);
    }
  }

  lemma IngressInPlan(v: DaskView, seen: Seen, c: Context)
    requires |seen| == 5 && OfView(v, c)
    ensures AllInPlan(v, seen, IngressGroup(c, seen[3].None?).calls)
  {
    if seen[3].None? && Wanted(v.spec, ClusterIngress) {
      MadeIsPart(v, seen, c, ClusterIngress);
    }
  }

  lemma StageInPlan(v: DaskView, seen: Seen, c: Context, stage: nat)
    requires |seen| == 5 && OfView(v, c) && stage < 5
    ensures var g := StageGroup(stage, c, seen); AllInPlan(v, seen, g.calls) && OfView(v, g.after)
  {
    match stage
    case 0 => ConfigInPlan(v, seen, c);
    case 1 => JupyterInPlan(v, seen, c);
    case 2 => SchedulerInPlan(v, seen, c);
    case 3 => WorkersInPlan(v, seen, c);
    case 4 => IngressInPlan(v, seen, c);
  }

  lemma InPlanThen(v: DaskView, seen: Seen, first: seq<Call>, second: seq<Call>)
    requires |seen| == 5 && AllInPlan(v, seen, first) && AllInPlan(v, seen, second)
    ensures AllInPlan(v, seen, first + second)
  {
  }

  lemma {:induction false} PlanFromIsInPlan(v: DaskView, seen: Seen, c: Context, stage: nat, last: Call)
    requires |seen| == 5 && OfView(v, c) && stage <= 5 && InPlan(v, seen, last)
    ensures AllInPlan(v, seen, PlanFrom(stage, c, seen, last))
    decreases 5 - stage
  {
    if stage == 5 {
    } else {
      var g := StageGroup(stage, c, seen);
      StageInPlan(v, seen, c, stage);
      PlanFromIsInPlan(v, seen, g.after, stage + 1, last);
      InPlanThen(v, seen, g.calls, PlanFrom(stage + 1, g.after, seen, last));
    }
  }

  /** Every write of a pass, in terms of the spec: it makes a part that is wanted, as it is to be, where
      the part that starts its group was not found; or it sets the number of workers; or it is the
      status. */
  lemma PlanMakesParts(v: DaskView, seen: Seen, reports: seq<Report>, call: Call)
    requires |seen| == 5 && call in ClusterPlan(v, seen, reports)
    ensures InPlan(v, seen, call)
  {
    PlanFromIsInPlan(v, seen, DaskContextOf(v), 0, StatusCall(v, seen, reports));
  }

  // ---- What carrying out calls leaves ----

  predicate OnlyCreates(calls: seq<Call>, k: Key) {
    forall i :: 0 <= i < |calls| ==> IsWrite(calls[i]) && (calls[i].key == k ==> calls[i].Create?)
  }

  /** Creations change nothing that is there. */
  lemma {:induction false} ThereStays(db: Db, calls: seq<Call>, k: Key)
    requires OnlyCreates(calls, k) && k in db.objs
    ensures SameAt(db, Execute(db, calls).db, k)
    decreases |calls|
  {
    if calls == [] {
    } else if Write(db, calls[0]).Some? {
      ThereStays(Write(db, calls[0]).value, calls[1..], k);
    }
  }

  /** What was not there and is there now has been created by one of the calls, and is as it was created. */
  lemma {:induction false} CreatedByCall(db: Db, calls: seq<Call>, k: Key) returns (i: nat)
    requires OnlyCreates(calls, k) && k !in db.objs && k in Execute(db, calls).db.objs
    ensures i < |calls| && calls[i].Create? && calls[i].key == k
    ensures var o := Execute(db, calls).db.objs[k]; o.owner == Some(calls[i].owner) && o.body == calls[i].body
    decreases |calls|
  {
    var db' := Write(db, calls[0]).value;
    if calls[0].key == k {
      ThereStays(db', calls[1..], k);
      i := 0;
    } else {
      var j := CreatedByCall(db', calls[1..], k);
      i := j + 1;
    }
  }

  // ---- The results ----

  /** The child is there as a pass makes it. */
  ghost predicate MadeAs(db: Db, ns: string, n: string, spec: DaskSpec, r: Role) {
    && Child(r, ns, n) in db.objs
    && db.objs[Child(r, ns, n)].owner == Some(Owner("analytics.piersharding.com/v1", Dask, n))
    && PartOf(ns, n, spec, r, db.objs[Child(r, ns, n)].body)
  }

  lemma PlanIsInPlan(db: Db, ns: string, n: string)
    requires IsDask(db, ns, n) && DetailsOk(db, ViewIn(db, ns, n))
    ensures var v := ViewIn(db, ns, n); AllInPlan(v, SeenIn(db, ClusterLooks(v)), PlanIn(db, v))
  {
    var v := ViewIn(db, ns, n);
    var seen := SeenIn(db, ClusterLooks(v));
    PlanFromIsInPlan(v, seen, DaskContextOf(v), 0, StatusCall(v, seen, DetailsIn(db, v)));
  }

  lemma StartIsNoted(db: Db, v: DaskView, r: Role)
    requires OfCluster(r)
    ensures StartOf(SeenIn(db, ClusterLooks(v)), r).Some? <==> Noted(db, Child(MadeWith(r), v.ns, v.name))
  {
  }

  lemma WorkersAreNoted(db: Db, v: DaskView)
    ensures SeenIn(db, ClusterLooks(v))[1].Some? ==> Child(WorkerDeployment, v.ns, v.name) in db.objs
  {
  }

  lemma PlanCreates(db: Db, ns: string, n: string, k: Key)
    requires IsDask(db, ns, n) && DetailsOk(db, ViewIn(db, ns, n)) && k.Child?
    requires k !in db.objs || k != Child(WorkerDeployment, ns, n)
    ensures OnlyCreates(PlanIn(db, ViewIn(db, ns, n)), k)
  {
    PlanIsInPlan(db, ns, n);
    WorkersAreNoted(db, ViewIn(db, ns, n));
    var v := ViewIn(db, ns, n);
    var plan, seen := PlanIn(db, v), SeenIn(db, ClusterLooks(v));
    forall i | 0 <= i < |plan| ensures IsWrite(plan[i]) && (plan[i].key == k ==> plan[i].Create?) {
      assert InPlan(v, seen, plan[i]);
    }
  }

  lemma OnlyChildrenAdded(db: Db, ns: string, n: string, k: Key)
    requires IsDask(db, ns, n) && DetailsOk(db, ViewIn(db, ns, n)) && k !in db.objs && k in DaskPass(db, ns, n).db.objs
    ensures k.Child?
  {
    if !k.Child? {
      OthersUntouched(db, ns, n, k);
    }
  }

  lemma AddedInPlan(db: Db, ns: string, n: string, k: Key) returns (call: Call)
    requires IsDask(db, ns, n) && DetailsOk(db, ViewIn(db, ns, n)) && k !in db.objs && k in DaskPass(db, ns, n).db.objs
    ensures k.Child? && MakesPart(ViewIn(db, ns, n), SeenIn(db, ClusterLooks(ViewIn(db, ns, n))), call) && call.key == k
    ensures var o := DaskPass(db, ns, n).db.objs[k]; o.owner == Some(call.owner) && o.body == call.body
  {
    var v := ViewIn(db, ns, n);
    var plan := PlanIn(db, v);
    PassAlone(db, ns, n);
    OnlyChildrenAdded(db, ns, n, k);
    PlanCreates(db, ns, n, k);
    var i := CreatedByCall(db, plan, k);
    call := plan[i];
    PlanIsInPlan(db, ns, n);
    assert InPlan(v, SeenIn(db, ClusterLooks(v)), plan[i]);
  }

  /** Whatever a pass adds to the store, even one that fails, is a part the spec asks for, as it is to be,
      and was made because the part that starts its group was missing. */
  lemma AddedIsWanted(db: Db, ns: string, n: string, k: Key)
    requires IsDask(db, ns, n) && k !in db.objs && k in DaskPass(db, ns, n).db.objs
    ensures var spec := db.objs[Cluster(ns, n)].body.spec;
      && k.Child? && k == Child(k.role, ns, n) && OfCluster(k.role)
      && Wanted(spec, k.role) && !Noted(db, Child(MadeWith(k.role), ns, n))
      && MadeAs(DaskPass(db, ns, n).db, ns, n, spec, k.role)
  {
    var v := ViewIn(db, ns, n);
    PassAlone(db, ns, n);
    if DetailsOk(db, v) {
      var call := AddedInPlan(db, ns, n, k);
      StartIsNoted(db, v, k.role);
    }
  }

  lemma WantedIsMember(v: DaskView, r: Role)
    requires Wanted(v.spec, r)
    ensures var s := DaskContextOf(v).settings;
      StageOf(r) < 5 && Requested(StageOf(r), s) && r in Members(StageOf(r), s) && Guard(StageOf(r)) == MadeWith(r)
  {
  }

  lemma WantedIsMade(db: Db, ns: string, n: string, r: Role)
    requires IsDask(db, ns, n) && DaskPass(db, ns, n).ok
    requires Wanted(db.objs[Cluster(ns, n)].body.spec, r) && !Noted(db, Child(MadeWith(r), ns, n))
    ensures Child(r, ns, n) !in db.objs && Child(r, ns, n) in DaskPass(db, ns, n).db.objs
  {
    var c, t := ContextIn(db, ns, n), StageOf(r);
    WantedIsMember(ViewIn(db, ns, n), r);
    RecoversExactly(db, ns, n);
    PassEffect(db, ns, n);
    assert ToMake(db, c, t) && !HalfMade(db, c, t);
    assert StageDone(t, db, DaskPass(db, ns, n).db, c);
    assert MadeIn(DaskPass(db, ns, n).db, c, r);
  }

  lemma WorkersAreRescaled(db: Db, ns: string, n: string)
    requires IsDask(db, ns, n) && DaskPass(db, ns, n).ok && Noted(db, Child(WorkerDeployment, ns, n))
    ensures Rescaled(db, DaskPass(db, ns, n).db, ContextIn(db, ns, n))
  {
    RecoversExactly(db, ns, n);
    PassEffect(db, ns, n);
    assert StageDone(3, db, DaskPass(db, ns, n).db, ContextIn(db, ns, n));
  }

  lemma NotMadeStays(db: Db, ns: string, n: string, k: Key)
    requires IsDask(db, ns, n) && DetailsOk(db, ViewIn(db, ns, n)) && k.Child? && k != Child(WorkerDeployment, ns, n)
    requires k in db.objs || (k == Child(k.role, ns, n) &&
      !(Wanted(db.objs[Cluster(ns, n)].body.spec, k.role) && !Noted(db, Child(MadeWith(k.role), ns, n))))
    ensures SameAt(db, DaskPass(db, ns, n).db, k)
  {
    if k in db.objs {
      PassAlone(db, ns, n);
      PlanCreates(db, ns, n, k);
      ThereStays(db, PlanIn(db, ViewIn(db, ns, n)), k);
    } else if k in DaskPass(db, ns, n).db.objs {
      AddedIsWanted(db, ns, n, k);
    }
  }

  /** What a pass that gets through does to each child, exactly: it makes it, as it is to be, if the spec
      asks for it and the part that starts its group was missing; else it leaves it as it is, but for
      the number of workers. */
  lemma PassMakesExactly(db: Db, ns: string, n: string, r: Role)
    requires IsDask(db, ns, n) && DaskPass(db, ns, n).ok
    ensures var k, db', spec := Child(r, ns, n), DaskPass(db, ns, n).db, db.objs[Cluster(ns, n)].body.spec;
      if Wanted(spec, r) && !Noted(db, Child(MadeWith(r), ns, n)) then k !in db.objs && MadeAs(db', ns, n, spec, r)
      else if r == WorkerDeployment then
        && k in db.objs && k in db'.objs && db.objs[k].body.DeploymentBody? && db'.objs[k].owner == db.objs[k].owner
        && db'.objs[k].body == db.objs[k].body.(replicas := if spec.replicas == 0 then 5 else spec.replicas)
      else SameAt(db, db', k)
  {
    var k, db', spec := Child(r, ns, n), DaskPass(db, ns, n).db, db.objs[Cluster(ns, n)].body.spec;
    RecoversExactly(db, ns, n);
    if Wanted(spec, r) && !Noted(db, Child(MadeWith(r), ns, n)) {
      WantedIsMade(db, ns, n, r);
      AddedIsWanted(db, ns, n, k);
    } else if r == WorkerDeployment {
      WorkersAreRescaled(db, ns, n);
    } else {
      NotMadeStays(db, ns, n, k);
    }
  }

  // ---- A cluster made from nothing ----

  /** The names the objects of a cluster have for the API server. */
  function PartNames(ns: string, n: string, spec: DaskSpec): set<ApiName> {
    {ApiName(Dask, ns, n)} + CoreNames(ns, n)
    + (if spec.jupyter then JupyterNames(ns, n) else {})
    + (if spec.jupyterIngress != "" || spec.schedulerIngress != "" then {ApiName(Ingress, ns, "dask-" + n)} else {})
    + (if spec.disablePolicies then {} else PolicyNames(ns, n))
    + (if spec.jupyter && !spec.disablePolicies then {ApiName(NetworkPolicy, ns, "jupyter-notebook-networkpolicy-" + n)} else {})
  }

  function CoreNames(ns: string, n: string): set<ApiName> {
    {ApiName(ServiceAccount, ns, "dask-cluster-serviceaccount-" + n), ApiName(ConfigMap, ns, "dask-configs-" + n),
     ApiName(Service, ns, "dask-scheduler-" + n), ApiName(Deployment, ns, "dask-scheduler-" + n),
     ApiName(Deployment, ns, "dask-worker-" + n)}
  }

  function JupyterNames(ns: string, n: string): set<ApiName> {
    {ApiName(Service, ns, "jupyter-notebook-" + n), ApiName(Deployment, ns, "jupyter-notebook-" + n)}
  }

  function PolicyNames(ns: string, n: string): set<ApiName> {
    {ApiName(NetworkPolicy, ns, "dask-networkpolicy-dns-" + n), ApiName(NetworkPolicy, ns, "dask-scheduler-networkpolicy-" + n),
     ApiName(NetworkPolicy, ns, "dask-worker-networkpolicy-" + n)}
  }

  lemma CoreNamed(ns: string, n: string, name: ApiName) returns (r: Role)
    requires name in CoreNames(ns, n)
    ensures ApiNameOf(Child(r, ns, n)) == name && forall spec :: Wanted(spec, r)
  {
    match name.kind
    case ServiceAccount => r := ClusterAccount;
    case ConfigMap => r := ClusterConfig;
    case Service => r := SchedulerService;
    case _ => r := if name == ApiNameOf(Child(SchedulerDeployment, ns, n)) then SchedulerDeployment else WorkerDeployment;
  }

  lemma PolicyNamed(ns: string, n: string, name: ApiName) returns (r: Role)
    requires name in PolicyNames(ns, n)
    ensures ApiNameOf(Child(r, ns, n)) == name && r in {DnsPolicy, SchedulerPolicy, WorkerPolicy}
  {
    r := if name == ApiNameOf(Child(DnsPolicy, ns, n)) then DnsPolicy
         else if name == ApiNameOf(Child(SchedulerPolicy, ns, n)) then SchedulerPolicy else WorkerPolicy;
  }

  lemma CoreIsNamed(ns: string, n: string, r: Role)
    requires r in {ClusterAccount, ClusterConfig, SchedulerService, SchedulerDeployment, WorkerDeployment}
    ensures ApiNameOf(Child(r, ns, n)) in CoreNames(ns, n)
  {
  }

  lemma PolicyIsNamed(ns: string, n: string, r: Role)
    requires r in {DnsPolicy, SchedulerPolicy, WorkerPolicy}
    ensures ApiNameOf(Child(r, ns, n)) in PolicyNames(ns, n)
  {
  }

  lemma WantedIsNamed(ns: string, n: string, spec: DaskSpec, r: Role)
    requires Wanted(spec, r)
    ensures ApiNameOf(Child(r, ns, n)) in PartNames(ns, n, spec)
  {
    match r
    case DnsPolicy | SchedulerPolicy | WorkerPolicy => PolicyIsNamed(ns, n, r);
    case JupyterPolicy | JupyterService | JupyterDeployment | ClusterIngress =>
    case _ => CoreIsNamed(ns, n, r);
  }

  lemma NamedIsWanted(ns: string, n: string, spec: DaskSpec, name: ApiName) returns (r: Role)
    requires name in PartNames(ns, n, spec) && name != ApiName(Dask, ns, n)
    ensures ApiNameOf(Child(r, ns, n)) == name && Wanted(spec, r)
  {
    if name in CoreNames(ns, n) {
      r := CoreNamed(ns, n, name);
    } else if spec.jupyter && name in JupyterNames(ns, n) {
      r := if name.kind == Service then JupyterService else JupyterDeployment;
    } else if !spec.disablePolicies && name in PolicyNames(ns, n) {
      r := PolicyNamed(ns, n, name);
    } else if name.kind == Ingress {
      r := ClusterIngress;
    } else {
      r := JupyterPolicy;
    }
  }

  /** A cluster made from nothing consists of exactly the objects its spec asks for, under exactly these
      names. */
  lemma ClusterConsistsOf(db: Db, ns: string, n: string)
    requires IsDask(db, ns, n) && db.objs.Keys == {Cluster(ns, n)} && RulesFit(db.objs[Cluster(ns, n)].body.spec)
    ensures DaskPass(db, ns, n).ok
    ensures ApiView(DaskPass(db, ns, n).db).Keys == PartNames(ns, n, db.objs[Cluster(ns, n)].body.spec)
  {
    var db', spec := DaskPass(db, ns, n).db, db.objs[Cluster(ns, n)].body.spec;
    NothingThere(db, ns, n);
    OnePassConverges(db, ns, n);
    forall name | name in ApiView(db') ensures name in PartNames(ns, n, spec) {
      var k :| k in db'.objs && ApiNameOf(k) == name;
      if k != Cluster(ns, n) {
        AddedIsWanted(db, ns, n, k);
        WantedIsNamed(ns, n, spec, k.role);
      }
    }
    forall name | name in PartNames(ns, n, spec) ensures name in ApiView(db') {
      if name == ApiName(Dask, ns, n) {
        SameLookups(db', Cluster(ns, n));
      } else {
        var r := NamedIsWanted(ns, n, spec, name);
        WantedIsMade(db, ns, n, r);
        SameLookups(db', Child(r, ns, n));
      }
    }
  }
}
