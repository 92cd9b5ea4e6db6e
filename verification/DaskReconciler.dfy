/** controllers/dask_controller.go, statement by statement. */
module DaskReconcilers {
  import opened Options
  import opened Names
  import opened Contexts
  import opened ContextObjects
  import opened Objects
  import opened Models
  import opened Api
  import opened Processes
  import opened ApiClients

  /** The resource a pass was started for, with the status it fills in. */
  class DaskObject {
    const view: DaskView
    var replicas: int
    var succeeded: int
    var state: State
    var resources: seq<Report>

    constructor (view: DaskView, status: DaskStatus)
      ensures this.view == view
    {
      this.view := view;
      this.replicas := status.replicas;
      this.succeeded := status.succeeded;
      this.state := status.state;
      this.resources := status.resources;
    }

    function Status(): DaskStatus
      reads this
    {
      DaskStatus(replicas, succeeded, state, resources)
    }
  }

  class DaskReconciler {
    const client: ApiClient

    constructor (client: ApiClient)
      ensures this.client == client
    {
      this.client := client;
    }

    method GetDeployment(r: Role, dask: DaskObject, ghost seen: Seen) returns (current: Option<Obj>)
      requires client.where == LookAtCluster(dask.view, seen)
      requires |seen| < 3 && ClusterLooks(dask.view)[|seen|] == Child(r, dask.view.ns, dask.view.name)
      requires dask.replicas == CountSome(seen) && dask.succeeded == CountReady(seen)
      modifies client, dask`replicas, dask`succeeded
      ensures client.where == LookAtCluster(dask.view, seen + [current])
      ensures dask.replicas == CountSome(seen + [current]) && dask.succeeded == CountReady(seen + [current])
      ensures current.Some? ==> current.value.body.DeploymentBody?
    {
      var k := Child(r, dask.view.ns, dask.view.name);
      var resp := client.Ask(Get(k));
      assert (seen + [Noticed(k, resp)])[..|seen|] == seen;
      if !(resp.Found? && Fits(k, resp.obj.body)) {
        return None;
      }
      dask.replicas := dask.replicas + 1;
      if resp.obj.body.readiness.readyReplicas == resp.obj.body.readiness.replicas {
        dask.succeeded := dask.succeeded + 1;
      }
      return Some(resp.obj);
    }

    method GetIngress(v: DaskView, ghost seen: Seen) returns (current: Option<Obj>)
      requires client.where == LookAtCluster(v, seen) && |seen| == 3
      modifies client
      ensures client.where == LookAtCluster(v, seen + [current])
    {
      var resp := client.Ask(Get(Child(ClusterIngress, v.ns, v.name)));
      if !(resp.Found? && resp.obj.body.IngressBody?) {
        return None;
      }
      return Some(resp.obj);
    }

    method GetConfig(v: DaskView, ghost seen: Seen) returns (current: Option<Obj>)
      requires client.where == LookAtCluster(v, seen) && |seen| == 4
      modifies client
      ensures client.where == DetailCluster(v, seen + [current], [])
    {
      var resp := client.Ask(Get(Child(ClusterConfig, v.ns, v.name)));
      if !(resp.Found? && resp.obj.body.ConfigBody?) {
        return None;
      }
      return Some(resp.obj);
    }

    /** Reads one child back for the resource details, and checks who controls it. */
    method ChildStatus(k: Key, ghost v: DaskView, ghost seen: Seen, ghost reports: seq<Report>)
      returns (report: Report, failed: bool)
      requires client.where == DetailCluster(v, seen, reports) && |seen| == 5 && |reports| < |ClusterDetails(v)|
      requires ClusterDetails(v)[|reports|] == k
      modifies client
      ensures failed ==> report == NothingFound
      ensures failed && KindOf(k) != Deployment ==> client.where == Done(false)
      ensures !failed || KindOf(k) == Deployment ==> client.where == Detailed(v, seen, reports + [report])
    {
      var resp := client.Ask(Get(k));
      report, failed := ReadBack(k, resp, Dask);
    }

    method IngressStatus(dcontext: DaskContext, ghost v: DaskView, ghost seen: Seen)
      returns (resources: seq<Report>, failed: bool)
      requires client.where == DetailCluster(v, seen, []) && |seen| == 5
      requires dcontext.Value() == DaskContextOf(v)
      modifies client
      ensures !failed ==> |resources| == |IngressDetails(v)| && client.where == DetailCluster(v, seen, resources)
      ensures failed ==> client.where == Done(false)
    {
      if dcontext.settings.jupyterIngress == "" && dcontext.settings.schedulerIngress == "" {
        return [], false;
      }
      var d;
      d, failed := ChildStatus(Child(ClusterIngress, dcontext.ns, dcontext.name), v, seen, []);
      return [d], failed;
    }

    /** The errors of these three lookups are overwritten before anyone checks them. */
    method DeploymentStatuses(dcontext: DaskContext, before: seq<Report>, ghost v: DaskView, ghost seen: Seen)
      returns (resources: seq<Report>)
      requires client.where == DetailCluster(v, seen, before) && |seen| == 5 && |before| == |IngressDetails(v)|
      requires dcontext.Value() == DaskContextOf(v)
      modifies client
      ensures |resources| == |before| + 3 && client.where == DetailCluster(v, seen, resources)
    {
      var ns, name := dcontext.ns, dcontext.name;
      var d, failed := ChildStatus(Child(SchedulerDeployment, ns, name), v, seen, before);
      resources := before + [d];
      d, failed := ChildStatus(Child(WorkerDeployment, ns, name), v, seen, resources);
      resources := resources + [d];
      d, failed := ChildStatus(Child(JupyterDeployment, ns, name), v, seen, resources);
      resources := resources + [d];
    }

    method ServiceStatuses(dcontext: DaskContext, before: seq<Report>, ghost v: DaskView, ghost seen: Seen)
      returns (resources: seq<Report>, failed: bool)
      requires client.where == DetailCluster(v, seen, before) && |seen| == 5 && |before| == |IngressDetails(v)| + 3
      requires dcontext.Value() == DaskContextOf(v)
      modifies client
      ensures !failed ==> |resources| == |ClusterDetails(v)| && client.where == Detailed(v, seen, resources)
      ensures failed ==> client.where == Done(false)
    {
      var d;
      d, failed := ChildStatus(Child(SchedulerService, dcontext.ns, dcontext.name), v, seen, before);
      resources := before + [d];
      if !failed && dcontext.settings.jupyter {
        d, failed := ChildStatus(Child(JupyterService, dcontext.ns, dcontext.name), v, seen, resources);
        resources := resources + [d];
      }
    }

    method ResourceDetails(dcontext: DaskContext, ghost v: DaskView, ghost seen: Seen)
      returns (resources: seq<Report>, failed: bool)
      requires client.where == DetailCluster(v, seen, []) && |seen| == 5
      requires dcontext.Value() == DaskContextOf(v)
      modifies client
      ensures failed ==> client.where == Done(false)
      ensures !failed ==> |resources| == |ClusterDetails(v)| && client.where == Detailed(v, seen, resources)
    {
      resources, failed := IngressStatus(dcontext, v, seen);
      if failed {
        return;
      }
      resources := DeploymentStatuses(dcontext, resources, v, seen);
      resources, failed := ServiceStatuses(dcontext, resources, v, seen);
    }

    method MakeConfigChildren(dcontext: DaskContext, ghost owner: Key, ghost rest: seq<Call>) returns (failed: bool)
      requires rest != []
      requires client.where == Acting(owner, ConfigGroup(dcontext.Value(), true).calls + rest)
      modifies client
      ensures client.where == if failed then Done(false) else Acting(owner, rest)
    {
      var c := dcontext.Value();
      ghost var tail := [MakeForCluster(c, ClusterAccount), MakeForCluster(c, ClusterConfig)] + rest;
      if !dcontext.settings.disablePolicies {
        assert ConfigGroup(c, true).calls + rest == [MakeForCluster(c, DnsPolicy)] + tail;
        var ok := client.Write(MakeForCluster(c, DnsPolicy), owner, tail);
        if !ok {
          return true;
        }
      }
      assert tail == [MakeForCluster(c, ClusterAccount)] + ([MakeForCluster(c, ClusterConfig)] + rest);
      var ok := client.Write(MakeForCluster(c, ClusterAccount), owner, [MakeForCluster(c, ClusterConfig)] + rest);
      if !ok {
        return true;
      }
      ok := client.Write(MakeForCluster(c, ClusterConfig), owner, rest);
      return !ok;
    }

    method MakeConfig(dcontext: DaskContext, current: Option<Obj>, ghost owner: Key, ghost seen: Seen, ghost last: Call)
      returns (failed: bool)
      requires |seen| == 5 && seen[4] == current
      requires client.where == Acting(owner, PlanFrom(0, dcontext.Value(), seen, last))
      modifies client
      ensures failed ==> client.where == Done(false)
      ensures !failed ==> client.where == Acting(owner, PlanFrom(1, dcontext.Value(), seen, last))
    {
      ghost var group := ConfigGroup(dcontext.Value(), current.None?);
      ghost var rest := PlanFrom(1, group.after, seen, last);
      assert client.where == Acting(owner, group.calls + rest);
      if current.Some? {
        assert [] + rest == rest;
        return false;
      }
      failed := MakeConfigChildren(dcontext, owner, rest);
    }

    /** The optional first step of the three role groups. */
    method MakePolicy(dcontext: DaskContext, r: Role, ghost owner: Key, ghost rest: seq<Call>) returns (failed: bool)
      requires rest != []
      requires client.where == Acting(owner, PolicyGroup(dcontext.Value(), r).calls + rest)
      modifies client, dcontext
      ensures dcontext.Value() == PolicyGroup(old(dcontext.Value()), r).after
      ensures client.where == if failed then Done(false) else Acting(owner, rest)
    {
      if !dcontext.settings.disablePolicies {
        var c := dcontext.ForNotebook();
        var ok := client.Write(MakeForCluster(c, r), owner, rest);
        return !ok;
      }
      assert [] + rest == rest;
      return false;
    }

    method MakeJupyterChildren(dcontext: DaskContext, ghost owner: Key, ghost rest: seq<Call>) returns (failed: bool)
      requires rest != [] && dcontext.settings.jupyter
      requires client.where == Acting(owner, JupyterGroup(dcontext.Value(), true).calls + rest)
      modifies client, dcontext
      ensures !failed ==> dcontext.Value() == JupyterGroup(old(dcontext.Value()), true).after
      ensures client.where == if failed then Done(false) else Acting(owner, rest)
    {
      ghost var g := PolicyGroup(dcontext.Value(), JupyterPolicy);
      ghost var service := MakeForCluster(g.after, JupyterService);
      ghost var deployment := MakeForCluster(ForRole(g.after, ForNotebook), JupyterDeployment);
      assert JupyterGroup(dcontext.Value(), true).calls + rest == g.calls + ([service] + ([deployment] + rest));
      failed := MakePolicy(dcontext, JupyterPolicy, owner, [service] + ([deployment] + rest));
      if failed {
        return;
      }
      var ok := client.Write(MakeForCluster(dcontext.Value(), JupyterService), owner, [deployment] + rest);
      if !ok {
        return true;
      }
      var c := dcontext.ForNotebook();
      ok := client.Write(MakeForCluster(c, JupyterDeployment), owner, rest);
      return !ok;
    }

    method MakeJupyter(dcontext: DaskContext, current: Option<Obj>, ghost owner: Key, ghost seen: Seen, ghost last: Call)
      returns (failed: bool)
      requires |seen| == 5 && seen[2] == current
      requires client.where == Acting(owner, PlanFrom(1, dcontext.Value(), seen, last))
      modifies client, dcontext
      ensures failed ==> client.where == Done(false)
      ensures !failed ==> client.where == Acting(owner, PlanFrom(2, dcontext.Value(), seen, last))
    {
      ghost var group := JupyterGroup(dcontext.Value(), current.None?);
      ghost var rest := PlanFrom(2, group.after, seen, last);
      assert client.where == Acting(owner, group.calls + rest);
      if !dcontext.settings.jupyter || current.Some? {
        assert [] + rest == rest;
        return false;
      }
      failed := MakeJupyterChildren(dcontext, owner, rest);
    }

    method MakeSchedulerChildren(dcontext: DaskContext, ghost owner: Key, ghost rest: seq<Call>) returns (failed: bool)
      requires rest != []
      requires client.where == Acting(owner, SchedulerGroup(dcontext.Value(), true).calls + rest)
      modifies client, dcontext
      ensures !failed ==> dcontext.Value() == SchedulerGroup(old(dcontext.Value()), true).after
      ensures client.where == if failed then Done(false) else Acting(owner, rest)
    {
      ghost var g := PolicyGroup(dcontext.Value(), SchedulerPolicy);
      ghost var service := MakeForCluster(g.after, SchedulerService);
      ghost var deployment := MakeForCluster(ForRole(g.after, ForScheduler), SchedulerDeployment);
      assert SchedulerGroup(dcontext.Value(), true).calls + rest == g.calls + ([service] + ([deployment] + rest));
      failed := MakePolicy(dcontext, SchedulerPolicy, owner, [service] + ([deployment] + rest));
      if failed {
        return;
      }
      var ok := client.Write(MakeForCluster(dcontext.Value(), SchedulerService), owner, [deployment] + rest);
      if !ok {
        return true;
      }
      var c := dcontext.ForScheduler();
      ok := client.Write(MakeForCluster(c, SchedulerDeployment), owner, rest);
      return !ok;
    }

    method MakeScheduler(dcontext: DaskContext, current: Option<Obj>, ghost owner: Key, ghost seen: Seen, ghost last: Call)
      returns (failed: bool)
      requires |seen| == 5 && seen[0] == current
      requires client.where == Acting(owner, PlanFrom(2, dcontext.Value(), seen, last))
      modifies client, dcontext
      ensures failed ==> client.where == Done(false)
      ensures !failed ==> client.where == Acting(owner, PlanFrom(3, dcontext.Value(), seen, last))
    {
      ghost var group := SchedulerGroup(dcontext.Value(), current.None?);
      ghost var rest := PlanFrom(3, group.after, seen, last);
      assert client.where == Acting(owner, group.calls + rest);
      if current.Some? {
        assert [] + rest == rest;
        return false;
      }
      failed := MakeSchedulerChildren(dcontext, owner, rest);
    }

    method MakeWorkers(dcontext: DaskContext, ghost owner: Key, ghost rest: seq<Call>) returns (failed: bool)
      requires rest != []
      requires client.where == Acting(owner, WorkerGroup(dcontext.Value(), None).calls + rest)
      modifies client, dcontext
      ensures !failed ==> dcontext.Value() == WorkerGroup(old(dcontext.Value()), None).after
      ensures client.where == if failed then Done(false) else Acting(owner, rest)
    {
      ghost var g := PolicyGroup(dcontext.Value(), WorkerPolicy);
      ghost var deployment := MakeForCluster(ForRole(g.after, ForWorker), WorkerDeployment);
      assert WorkerGroup(dcontext.Value(), None).calls + rest == g.calls + ([deployment] + rest);
      failed := MakePolicy(dcontext, WorkerPolicy, owner, [deployment] + rest);
      if failed {
        return;
      }
      var c := dcontext.ForWorker();
      var ok := client.Write(MakeForCluster(c, WorkerDeployment), owner, rest);
      return !ok;
    }

    method MakeOrScaleWorkers(dcontext: DaskContext, current: Option<Obj>, ghost owner: Key, ghost seen: Seen, ghost last: Call)
      returns (failed: bool)
      requires |seen| == 5 && seen[1] == current && (current.Some? ==> current.value.body.DeploymentBody?)
      requires client.where == Acting(owner, PlanFrom(3, dcontext.Value(), seen, last))
      modifies client, dcontext
      ensures failed ==> client.where == Done(false)
      ensures !failed ==> client.where == Acting(owner, PlanFrom(4, dcontext.Value(), seen, last))
    {
      ghost var group := WorkerGroup(dcontext.Value(), current);
      ghost var rest := PlanFrom(4, group.after, seen, last);
      assert client.where == Acting(owner, group.calls + rest);
      if current.None? {
        failed := MakeWorkers(dcontext, owner, rest);
      } else {
        var o := current.value;
        if o.body.replicas != dcontext.settings.replicas {
          var body := o.body.(replicas := dcontext.settings.replicas);
          var ok := client.Write(Update(ChildKey(dcontext.Value(), WorkerDeployment), o.rv, body), owner, rest);
          return !ok;
        }
        assert [] + rest == rest;
        return false;
      }
    }

    method MakeIngress(dcontext: DaskContext, current: Option<Obj>, ghost owner: Key, ghost seen: Seen, ghost last: Call)
      returns (failed: bool)
      requires |seen| == 5 && seen[3] == current
      requires client.where == Acting(owner, PlanFrom(4, dcontext.Value(), seen, last))
      modifies client
      ensures failed ==> client.where == Done(false)
      ensures !failed ==> client.where == Acting(owner, PlanFrom(5, dcontext.Value(), seen, last))
    {
      ghost var group := IngressGroup(dcontext.Value(), current.None?);
      ghost var rest := PlanFrom(5, group.after, seen, last);
      assert client.where == Acting(owner, group.calls + rest);
      if current.None? {
        if dcontext.settings.jupyterIngress != "" || dcontext.settings.schedulerIngress != "" {
          var ok := client.Write(MakeForCluster(dcontext.Value(), ClusterIngress), owner, rest);
          return !ok;
        }
      }
      assert [] + rest == rest;
      return false;
    }

    function WriteStatus(dask: DaskObject): Call
      reads dask
    {
      UpdateStatus(DaskKey(dask.view), dask.view.rv, ClusterStatus(dask.Status()))
    }

    method PutStatus(dask: DaskObject, ghost owner: Key) returns (failed: bool)
      requires client.where == Acting(owner, [WriteStatus(dask)])
      modifies client
      ensures client.where == Done(!failed)
    {
      assert [WriteStatus(dask)] + [] == [WriteStatus(dask)];
      var ok := client.Write(WriteStatus(dask), owner, []);
      return !ok;
    }

    /** The writing half of a pass: five guarded groups, then the status. */
    method MakeChildren(dask: DaskObject, dcontext: DaskContext, scheduler: Option<Obj>, worker: Option<Obj>,
                        jupyter: Option<Obj>, ingress: Option<Obj>, config: Option<Obj>, ghost seen: Seen)
      returns (err: bool)
      requires |seen| == 5 && seen[0] == scheduler && seen[1] == worker && seen[2] == jupyter && seen[3] == ingress && seen[4] == config
      requires worker.Some? ==> worker.value.body.DeploymentBody?
      requires client.where == Acting(DaskKey(dask.view), PlanFrom(0, dcontext.Value(), seen, WriteStatus(dask)))
      modifies client, dask, dcontext
      ensures client.where == Done(!err)
    {
      ghost var owner := DaskKey(dask.view);
      ghost var last := WriteStatus(dask);
      err := MakeConfig(dcontext, config, owner, seen, last);
      if err {
        dask.state := Trouble;
        return;
      }
      err := MakeJupyter(dcontext, jupyter, owner, seen, last);
      if err {
        dask.state := Trouble;
        return;
      }
      err := MakeScheduler(dcontext, scheduler, owner, seen, last);
      if err {
        dask.state := Trouble;
        return;
      }
      err := MakeOrScaleWorkers(dcontext, worker, owner, seen, last);
      if err {
        dask.state := Trouble;
        return;
      }
      err := MakeIngress(dcontext, ingress, owner, seen, last);
      if err {
        dask.state := Trouble;
        return;
      }
      err := PutStatus(dask, owner);
    }

    /** The reading half: the five children whose absence starts a group, and the first guess at
        the status. */
    method LookAtDeployments(dask: DaskObject) returns (scheduler: Option<Obj>, worker: Option<Obj>, jupyter: Option<Obj>)
      requires client.where == LookAtCluster(dask.view, [])
      requires dask.replicas == 0 && dask.succeeded == 0
      modifies client, dask`replicas, dask`succeeded
      ensures worker.Some? ==> worker.value.body.DeploymentBody?
      ensures client.where == LookAtCluster(dask.view, [scheduler, worker, jupyter])
      ensures dask.replicas == CountSome([scheduler, worker, jupyter]) && dask.succeeded == CountReady([scheduler, worker, jupyter])
    {
      scheduler := GetDeployment(SchedulerDeployment, dask, []);
      assert [] + [scheduler] == [scheduler];
      worker := GetDeployment(WorkerDeployment, dask, [scheduler]);
      assert [scheduler] + [worker] == [scheduler, worker];
      jupyter := GetDeployment(JupyterDeployment, dask, [scheduler, worker]);
      assert [scheduler, worker] + [jupyter] == [scheduler, worker, jupyter];
    }

    method Look(dask: DaskObject) returns (scheduler: Option<Obj>, worker: Option<Obj>, jupyter: Option<Obj>,
                                           ingress: Option<Obj>, config: Option<Obj>)
      requires client.where == LookAtCluster(dask.view, [])
      requires dask.replicas == 0 && dask.succeeded == 0 && dask.state == Building
      modifies client, dask
      ensures worker.Some? ==> worker.value.body.DeploymentBody?
      ensures client.where == DetailCluster(dask.view, [scheduler, worker, jupyter, ingress, config], [])
      ensures dask.Status() == ObservedStatus([scheduler, worker, jupyter, ingress, config], dask.resources)
    {
      scheduler, worker, jupyter := LookAtDeployments(dask);
      ingress := GetIngress(dask.view, [scheduler, worker, jupyter]);
      config := GetConfig(dask.view, [scheduler, worker, jupyter, ingress]);
      assert [scheduler, worker, jupyter, ingress, config][..3] == [scheduler, worker, jupyter];
      if dask.replicas == dask.succeeded {
        dask.state := Running;
      }
    }

    /** One pass. Whatever the answers, the calls made are those of the process a request starts,
        and the pass ends where that process does. */
    method Reconcile(ns: string, name: string) returns (err: bool)
      requires client.where == FetchDask(ns, name)
      modifies client
      ensures client.where == Done(!err)
    {
      var resp := client.Ask(Get(Cluster(ns, name)));
      if resp.NotFound? {
        return false;
      }
      if !(resp.Found? && resp.obj.body.ClusterBody?) {
        return true;
      }
      var dask := new DaskObject(DaskView(ns, name, resp.obj.rv, resp.obj.body.spec), resp.obj.body.status);
      err := ReconcileFound(dask);
    }

    method ReconcileFound(dask: DaskObject) returns (err: bool)
      requires client.where == ListDeployments(dask.view)
      modifies client, dask
      ensures client.where == Done(!err)
    {
      dask.replicas := 0;
      dask.succeeded := 0;
      dask.resources := [];
      dask.state := Building;

      var resp := client.Ask(List(dask.view.ns));
      if !(resp.Ok? || resp.NotFound?) {
        return true;
      }
      var scheduler, worker, jupyter, ingress, config := Look(dask);
      err := ReconcileSeen(dask, scheduler, worker, jupyter, ingress, config, [scheduler, worker, jupyter, ingress, config]);
    }

    method ReconcileSeen(dask: DaskObject, scheduler: Option<Obj>, worker: Option<Obj>,
                         jupyter: Option<Obj>, ingress: Option<Obj>, config: Option<Obj>, ghost seen: Seen)
      returns (err: bool)
      requires |seen| == 5 && seen[0] == scheduler && seen[1] == worker && seen[2] == jupyter && seen[3] == ingress && seen[4] == config
      requires worker.Some? ==> worker.value.body.DeploymentBody?
      requires client.where == DetailCluster(dask.view, seen, [])
      requires dask.Status() == ObservedStatus(seen, dask.resources)
      modifies client, dask
      ensures client.where == Done(!err)
    {
      var dcontext := new DaskContext.SetConfig(dask.view.ns, dask.view.name, dask.view.spec);
      dcontext.DefaultImage(DEFAULT_IMAGE, DEFAULT_PULL_POLICY);
      var resources, failed := ResourceDetails(dcontext, dask.view, seen);
      if failed {
        dask.state := Trouble;
        return true;
      }
      dask.resources := resources;
      assert StatusCall(dask.view, seen, resources) == WriteStatus(dask);
      err := MakeChildren(dask, dcontext, scheduler, worker, jupyter, ingress, config, seen);
    }
  }
}
