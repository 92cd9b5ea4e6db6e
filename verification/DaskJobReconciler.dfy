/** controllers/daskjob_controller.go, statement by statement. */
module DaskJobReconcilers {
  import opened Options
  import opened Names
  import opened ContextObjects
  import opened Objects
  import opened Api
  import opened Processes
  import opened ApiClients

  /** Scans a Job's conditions for the first one that says it is over. */
  method IsJobFinished(job: Option<Obj>) returns (finished: bool, condition: Option<ConditionType>)
    requires job.Some? ==> job.value.body.JobBody?
    ensures finished <==> condition.Some?
    ensures condition == if job.None? then None else FirstFinished(job.value.body.conditions)
  {
    if job.Some? {
      var cs := job.value.body.conditions;
      for i := 0 to |cs|
        invariant forall j :: 0 <= j < i ==> !Decides(cs[j])
      {
        if (cs[i].ctype == Complete || cs[i].ctype == Failed) && cs[i].status == True {
          assert Decides(cs[i]);
          return true, Some(cs[i].ctype);
        }
      }
    }
    return false, None;
  }

  /** The DaskJob a pass was started for, with the status it fills in. */
  class DaskJobObject {
    const view: DaskJobView
    var succeeded: int
    var state: State
    var resources: seq<Report>

    constructor (view: DaskJobView, status: DaskJobStatus)
      ensures this.view == view
    {
      this.view := view;
      this.succeeded := status.succeeded;
      this.state := status.state;
      this.resources := status.resources;
    }

    /** The status update this object stands for. */
    function WriteStatus(): Call
      reads this
    {
      UpdateStatus(WorkKey(view), view.rv, WorkStatus(DaskJobStatus(succeeded, state, resources)))
    }
  }

  class DaskJobReconciler {
    const client: ApiClient

    constructor (client: ApiClient)
      ensures this.client == client
    {
      this.client := client;
    }

    /** GetJob, GetConfig and GetPVC of the source: a lookup whose every failure means "absent". */
    method GetChild(k: Key, v: DaskJobView, ghost d: DaskView, ghost seen: Seen) returns (current: Option<Obj>)
      requires client.where == LookAtJob(v, d, seen) && |seen| < 4 && JobLooks(v)[|seen|] == k
      modifies client
      ensures client.where == LookedAtJob(v, d, seen + [current])
      ensures current.Some? ==> Fits(k, current.value.body)
    {
      var resp := client.Ask(Get(k));
      if !(resp.Found? && Fits(k, resp.obj.body)) {
        return None;
      }
      return Some(resp.obj);
    }

    method JobStatus(dcontext: DaskContext, ghost v: DaskJobView, ghost seen: Seen)
      returns (report: Report, failed: bool)
      requires client.where == DetailJob(v, dcontext.Value(), seen) && |seen| == 4
      requires dcontext.ns == v.ns && dcontext.name == v.name
      modifies client
      ensures client.where == if failed then Done(false) else Acting(WorkKey(v), JobPlan(v, dcontext.Value(), seen, report))
    {
      var k := Child(JobRun, dcontext.ns, dcontext.name);
      assert NextCall(client.where) == Get(k);
      var resp := client.Ask(Get(k));
      report, failed := ReadBack(k, resp, DaskJob);
    }

    method MakeJobConfig(dcontext: DaskContext, current: Option<Obj>, ghost owner: Key, ghost rest: seq<Call>) returns (failed: bool)
      requires rest != []
      requires client.where == Acting(owner, JobConfigGroup(dcontext.Value(), current.None?) + rest)
      modifies client
      ensures client.where == if failed then Done(false) else Acting(owner, rest)
    {
      if current.None? {
        var ok := client.Write(MakeForJob(dcontext.Value(), JobConfig), owner, rest);
        return !ok;
      }
      assert [] + rest == rest;
      return false;
    }

    method MakeClaim(dcontext: DaskContext, current: Option<Obj>, ghost owner: Key, ghost rest: seq<Call>) returns (failed: bool)
      requires rest != []
      requires client.where == Acting(owner, ClaimGroup(dcontext.Value(), current.None?) + rest)
      modifies client
      ensures client.where == if failed then Done(false) else Acting(owner, rest)
    {
      if dcontext.job.report && current.None? {
        var ok := client.Write(MakeForJob(dcontext.Value(), ReportClaim), owner, rest);
        return !ok;
      }
      assert [] + rest == rest;
      return false;
    }

    method MakeJob(dcontext: DaskContext, job: Option<Obj>, claim: Option<Obj>, ghost seen: Seen, ghost owner: Key, ghost rest: seq<Call>)
      returns (failed: bool)
      requires rest != [] && |seen| == 4 && seen[0] == job && seen[3] == claim
      requires client.where == Acting(owner, JobGroup(dcontext.Value(), seen) + rest)
      modifies client
      ensures client.where == if failed then Done(false) else Acting(owner, rest)
    {
      if job.Some? {
        assert [] + rest == rest;
        return false;
      }
      var c := dcontext.Value();
      ghost var tail := [MakeForJob(c, JobAccount)] + ([MakeForJob(c, JobRun)] + rest);
      assert JobGroup(c, seen) + rest == ClaimGroup(c, claim.None?) + tail;
      failed := MakeClaim(dcontext, claim, owner, tail);
      if failed {
        return;
      }
      var ok := client.Write(MakeForJob(c, JobAccount), owner, [MakeForJob(c, JobRun)] + rest);
      if !ok {
        return true;
      }
      ok := client.Write(MakeForJob(c, JobRun), owner, rest);
      return !ok;
    }

    method PutStatus(daskjob: DaskJobObject, ghost owner: Key) returns (failed: bool)
      requires client.where == Acting(owner, [daskjob.WriteStatus()])
      modifies client
      ensures client.where == Done(!failed)
    {
      assert [daskjob.WriteStatus()] + [] == [daskjob.WriteStatus()];
      var ok := client.Write(daskjob.WriteStatus(), owner, []);
      return !ok;
    }

    /** The writing half of a pass. */
    method MakeChildren(daskjob: DaskJobObject, dcontext: DaskContext, job: Option<Obj>, jobConfig: Option<Obj>,
                        claim: Option<Obj>, ghost seen: Seen) returns (err: bool)
      requires |seen| == 4 && seen[0] == job && seen[2] == jobConfig && seen[3] == claim
      requires client.where == Acting(WorkKey(daskjob.view),
                 JobConfigGroup(dcontext.Value(), jobConfig.None?) + (JobGroup(dcontext.Value(), seen) + [daskjob.WriteStatus()]))
      modifies client, daskjob`state
      ensures client.where == Done(!err)
    {
      ghost var owner := WorkKey(daskjob.view);
      ghost var last := [daskjob.WriteStatus()];
      var failed := MakeJobConfig(dcontext, jobConfig, owner, JobGroup(dcontext.Value(), seen) + last);
      if failed {
        daskjob.state := Trouble;
        return true;
      }
      failed := MakeJob(dcontext, job, claim, seen, owner, last);
      if failed {
        daskjob.state := Trouble;
        return true;
      }
      err := PutStatus(daskjob, owner);
    }

    /** One pass. Whatever the answers, the calls made are those of the process a request starts,
        and the pass ends where that process does. */
    method Reconcile(ns: string, name: string) returns (err: bool)
      requires client.where == FetchJob(ns, name)
      modifies client
      ensures client.where == Done(!err)
    {
      var resp := client.Ask(Get(Work(ns, name)));
      if resp.NotFound? {
        return false;
      }
      if !(resp.Found? && resp.obj.body.WorkBody?) {
        return true;
      }
      var daskjob := new DaskJobObject(DaskJobView(ns, name, resp.obj.rv, resp.obj.body.job), resp.obj.body.progress);
      daskjob.succeeded := 0;
      daskjob.resources := [];
      daskjob.state := Building;
      var v := daskjob.view;

      resp := client.Ask(Get(Cluster(ns, v.spec.cluster)));
      if !(resp.Found? && resp.obj.body.ClusterBody?) {
        daskjob.state := PendingCluster(v.spec.cluster);
        resp := client.Ask(daskjob.WriteStatus());
        return true;
      }
      if resp.obj.body.status.state != Running {
        return true;
      }
      var d := DaskView(ns, v.spec.cluster, resp.obj.rv, resp.obj.body.spec);
      err := ReconcileReady(daskjob, d);
    }

    /** Looks up the Job, both ConfigMaps and the claim, and computes the state from the Job. */
    method Look(daskjob: DaskJobObject, dask: DaskView)
      returns (job: Option<Obj>, config: Option<Obj>, jobConfig: Option<Obj>, claim: Option<Obj>)
      requires client.where == LookAtJob(daskjob.view, dask, [])
      requires dask.ns == daskjob.view.ns && dask.name == daskjob.view.spec.cluster
      modifies client, daskjob`state
      ensures client.where == ClassifyScript(daskjob.view, dask, [job, config, jobConfig, claim])
      ensures daskjob.state == JobState(job)
    {
      var v := daskjob.view;
      job := GetChild(Child(JobRun, v.ns, v.name), v, dask, []);
      assert [] + [job] == [job];
      config := GetChild(Child(ClusterConfig, dask.ns, dask.name), v, dask, [job]);
      assert [job] + [config] == [job, config];
      jobConfig := GetChild(Child(JobConfig, v.ns, v.name), v, dask, [job, config]);
      assert [job, config] + [jobConfig] == [job, config, jobConfig];
      claim := GetChild(Child(ReportClaim, v.ns, v.name), v, dask, [job, config, jobConfig]);
      assert [job, config, jobConfig] + [claim] == [job, config, jobConfig, claim];

      var finished, condition := IsJobFinished(job);
      if condition.None? {
        daskjob.state := Running;
      } else if finished {
        daskjob.state := Finished(condition.value);
      }
    }

    /** The part of a pass past the gate on the cluster's state. */
    method ReconcileReady(daskjob: DaskJobObject, dask: DaskView) returns (err: bool)
      requires client.where == ListJobs(daskjob.view, dask) && daskjob.succeeded == 0
      requires dask.ns == daskjob.view.ns && dask.name == daskjob.view.spec.cluster
      modifies client, daskjob
      ensures client.where == Done(!err)
    {
      var v := daskjob.view;
      var resp := client.Ask(List(v.ns));
      if !(resp.Ok? || resp.NotFound?) {
        return true;
      }
      var job, config, jobConfig, claim := Look(daskjob, dask);
      err := ReconcileSeen(daskjob, dask, job, jobConfig, claim, [job, config, jobConfig, claim]);
    }

    method ReconcileSeen(daskjob: DaskJobObject, dask: DaskView, job: Option<Obj>, jobConfig: Option<Obj>, claim: Option<Obj>,
                         ghost seen: Seen) returns (err: bool)
      requires |seen| == 4 && seen[0] == job && seen[2] == jobConfig && seen[3] == claim
      requires client.where == ClassifyScript(daskjob.view, dask, seen)
      requires dask.ns == daskjob.view.ns && daskjob.succeeded == 0 && daskjob.state == JobState(job)
      modifies client, daskjob
      ensures client.where == Done(!err)
    {
      var v := daskjob.view;
      var dcontext := new DaskContext.SetConfig(dask.ns, dask.name, dask.spec);
      dcontext.SetJobConfig(v.name, v.spec);

      var resp := client.Ask(CheckScript(dcontext.job.script));
      if !resp.Script? {
        return true;
      }
      dcontext.SetScript(resp.data.kind, resp.data.contents, resp.data.mounted);
      err := ReconcileScript(daskjob, dcontext, job, jobConfig, claim, seen);
    }

    method ReconcileScript(daskjob: DaskJobObject, dcontext: DaskContext, job: Option<Obj>, jobConfig: Option<Obj>,
                           claim: Option<Obj>, ghost seen: Seen) returns (err: bool)
      requires |seen| == 4 && seen[0] == job && seen[2] == jobConfig && seen[3] == claim
      requires client.where == DetailJob(daskjob.view, dcontext.Value(), seen)
      requires dcontext.ns == daskjob.view.ns && dcontext.name == daskjob.view.name
      requires daskjob.succeeded == 0 && daskjob.state == JobState(job)
      modifies client, daskjob
      ensures client.where == Done(!err)
    {
      var report, failed := JobStatus(dcontext, daskjob.view, seen);
      if failed {
        daskjob.state := Trouble;
        return true;
      }
      daskjob.resources := [report];

      err := MakeChildren(daskjob, dcontext, job, jobConfig, claim, seen);
    }
  }
}
