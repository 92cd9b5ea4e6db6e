/** What a DaskJob comes to in the store, in terms of its spec and its cluster's: what a pass makes and
    what is in it, and the status it writes (models/job.go, controllers/daskjob_controller.go). */
module JobContents {
  import opened Options
  import opened Names
  import opened Specs
  import opened Objects
  import opened Api
  import opened NonInterference
  import opened Processes
  import opened Solo
  import opened Groups
  import opened Recovery
  import opened Convergence
  import opened JobRecovery
  import opened JobConvergence
  import opened Contents

  // ---- What the parts are to be ----

  /** What the Job's pod is told: the DaskJob's image and pull policy before the cluster's, accounts and
      configuration of its own, the claim if a report is asked for, and the cluster's scheduler. */
  predicate PodOf(ns: string, n: string, job: DaskJobSpec, cluster: DaskSpec, pod: PodTemplate) {
    && pod.image == (if job.image != "" then job.image else cluster.image)
    && pod.pullPolicy == (if job.pullPolicy != "" then job.pullPolicy else cluster.pullPolicy)
    && pod.account == Child(JobAccount, ns, n) && pod.config == Child(JobConfig, ns, n)
    && pod.claim == (if job.report then Some(Child(ReportClaim, ns, n)) else None)
    && pod.scheduler == Child(SchedulerService, ns, job.cluster)
    && pod.settings == cluster.pod
  }

  predicate JobPartOf(ns: string, n: string, job: DaskJobSpec, cluster: DaskSpec, data: ScriptData, r: Role, b: Body) {
    match r
    case JobConfig => b == ConfigBody(Some(data))
    case ReportClaim => b == ClaimBody(if job.reportStorageClass != "" then job.reportStorageClass else "standard")
    case JobAccount => b == AccountBody
    case JobRun => b.JobBody? && b.scriptType == data.kind && b.conditions == [] && PodOf(ns, n, job, cluster, b.jobPod)
    case _ => false
  }

  // ---- What the calls of a plan are ----

  predicate MakesJobPart(v: DaskJobView, d: DaskView, data: ScriptData, call: Call) {
    && call.Create? && call.key.Child? && call.key == Child(call.key.role, v.ns, v.name)
    && call.owner == Owner("analytics.piersharding.com/v1", DaskJob, v.name)
    && JobPartOf(v.ns, v.name, v.spec, d.spec, data, call.key.role, call.body)
  }

  lemma JobPartMade(v: DaskJobView, d: DaskView, data: ScriptData, r: Role)
    requires d.ns == v.ns && OfJob(r)
    ensures MakesJobPart(v, d, data, MakeForJob(JobContextOf(v, d, data), r))
  {
  }

  /** Every write of a DaskJob pass, in terms of the specs: a part as it is to be, or the status. */
  lemma JobPlanMakesParts(v: DaskJobView, d: DaskView, data: ScriptData, seen: Seen, report: Report, call: Call)
    requires |seen| == 4 && d.ns == v.ns && call in JobPlan(v, JobContextOf(v, d, data), seen, report)
    ensures MakesJobPart(v, d, data, call) || (call.UpdateStatus? && call.key == Work(v.ns, v.name))
  {
    var c := JobContextOf(v, d, data);
    if call.Create? {
      assert call in JobConfigGroup(c, seen[2].None?) || call in JobGroup(c, seen);
      assert exists r :: OfJob(r) && call == MakeForJob(c, r);
      var r :| OfJob(r) && call == MakeForJob(c, r);
      JobPartMade(v, d, data, r);
    }
  }

  // ---- What a pass does to the children ----

  /** The part is to be made: the ConfigMap if it is missing; the account and the Job if the Job is, and
      then the claim if a report is asked for and it is missing. */
  predicate ToBeMade(db: Db, ns: string, n: string, job: DaskJobSpec, r: Role) {
    match r
    case JobConfig => !Noted(db, Child(JobConfig, ns, n))
    case ReportClaim => job.report && !Noted(db, Child(JobRun, ns, n)) && !Noted(db, Child(ReportClaim, ns, n))
    case JobAccount | JobRun => !Noted(db, Child(JobRun, ns, n))
    case _ => false
  }

  predicate MadeForJob(db: Db, ns: string, n: string, job: DaskJobSpec, cluster: DaskSpec, data: ScriptData, r: Role) {
    && Child(r, ns, n) in db.objs
    && db.objs[Child(r, ns, n)].owner == Some(Owner("analytics.piersharding.com/v1", DaskJob, n))
    && JobPartOf(ns, n, job, cluster, data, r, db.objs[Child(r, ns, n)].body)
  }

  lemma ToBeMadeIs(db: Db, v: DaskJobView, r: Role)
    ensures ToBeMade(db, v.ns, v.name, v.spec, r) <==> Child(r, v.ns, v.name) in ToCreateIn(db, v)
  {
  }

  lemma JobPlanOnlyCreates(v: DaskJobView, d: DaskView, data: ScriptData, seen: Seen, report: Report, k: Key)
    requires |seen| == 4 && d.ns == v.ns && k.Child?
    ensures OnlyCreates(JobPlan(v, JobContextOf(v, d, data), seen, report), k)
  {
    var plan := JobPlan(v, JobContextOf(v, d, data), seen, report);
    forall i | 0 <= i < |plan| ensures IsWrite(plan[i]) && (plan[i].key == k ==> plan[i].Create?) {
      JobPlanMakesParts(v, d, data, seen, report, plan[i]);
    }
  }

  lemma AddedIsJobPart(db: Db, v: DaskJobView, d: DaskView, data: ScriptData, seen: Seen, report: Report, k: Key)
    requires |seen| == 4 && d.ns == v.ns && k.Child? && k == Child(k.role, v.ns, v.name)
    requires k !in db.objs && k in Execute(db, JobPlan(v, JobContextOf(v, d, data), seen, report)).db.objs
    ensures MadeForJob(Execute(db, JobPlan(v, JobContextOf(v, d, data), seen, report)).db, v.ns, v.name, v.spec, d.spec, data, k.role)
  {
    var plan := JobPlan(v, JobContextOf(v, d, data), seen, report);
    JobPlanOnlyCreates(v, d, data, seen, report, k);
    var i := CreatedByCall(db, plan, k);
    JobPlanMakesParts(v, d, data, seen, report, plan[i]);
  }

  /** What a pass that gets through does to each child, exactly: it makes it, as the specs say, if it is to
      be made, and else leaves it as it is. */
  lemma JobPassMakesExactly(db: Db, script: Option<ScriptData>, ns: string, n: string, r: Role)
    requires IsJob(db, ns, n) && JobPass(db, script, ns, n).ok
    ensures var job := db.objs[Work(ns, n)].body.job; var k, db' := Child(r, ns, n), JobPass(db, script, ns, n).db;
      && script.Some? && IsDask(db, ns, job.cluster)
      && if ToBeMade(db, ns, n, job, r)
         then k !in db.objs && MadeForJob(db', ns, n, job, db.objs[Cluster(ns, job.cluster)].body.spec, script.value, r)
         else SameAt(db, db', k)
  {
    var v, k := JobViewIn(db, ns, n), Child(r, ns, n);
    JobRecoversExactly(db, script, ns, n);
    JobPassDoes(db, script, ns, n);
    JobPassIs(db, script, ns, n);
    ToBeMadeIs(db, v, r);
    if ToBeMade(db, ns, n, v.spec, r) {
      assert MadeForAJob(JobPass(db, script, ns, n).db, k);
      AddedIsJobPart(db, v, ViewIn(db, ns, v.spec.cluster), script.value, JobSeenIn(db, v), JobDetail(db, v).value, k);
    }
  }

  // ---- What a pass writes into the status ----

  /** The condition is True, and of a type that ends a Job. */
  predicate Ends(c: Condition) {
    c.status == True && (c.ctype == Complete || c.ctype == Failed)
  }

  /** The first condition that ends the Job is of that type. */
  predicate EndedWith(cs: seq<Condition>, t: ConditionType) {
    exists i :: 0 <= i < |cs| && Ends(cs[i]) && cs[i].ctype == t && forall j :: 0 <= j < i ==> !Ends(cs[j])
  }

  lemma FirstEnds(cs: seq<Condition>, t: ConditionType)
    ensures FirstFinished(cs) == Some(t) <==> EndedWith(cs, t)
    ensures FirstFinished(cs).None? <==> forall i :: 0 <= i < |cs| ==> !Ends(cs[i])
  {
    assert forall i :: 0 <= i < |cs| ==> (Ends(cs[i]) <==> Decides(cs[i]));
  }

  /** The conditions of the DaskJob's Job, none if it is not there. */
  function ConditionsIn(db: Db, ns: string, n: string): seq<Condition> {
    var k := Child(JobRun, ns, n);
    if k in db.objs && db.objs[k].body.JobBody? then db.objs[k].body.conditions else []
  }

  /** The status a pass that gets through writes, exactly: finished with a type if and only if that is the
      type of the first of the stored Job's conditions that ends it, and Running if and only if none does;
      with the Job's conditions shown if it is there. */
  lemma JobStatusExactly(db: Db, script: Option<ScriptData>, ns: string, n: string, t: ConditionType)
    requires IsJob(db, ns, n) && JobPass(db, script, ns, n).ok
    ensures var db' := JobPass(db, script, ns, n).db; var cs := ConditionsIn(db, ns, n);
      && IsJob(db', ns, n) && db'.objs[Work(ns, n)].body.job == db.objs[Work(ns, n)].body.job
      && var status := db'.objs[Work(ns, n)].body.progress;
      && (status.state == Finished(t) <==> EndedWith(cs, t))
      && (status.state == Running <==> forall i :: 0 <= i < |cs| ==> !Ends(cs[i]))
      && status.succeeded == 0
      && status.resources == [if Child(JobRun, ns, n) in db.objs then JobReport(cs) else NothingFound]
  {
    JobPassDoes(db, script, ns, n);
    JobReads(db, JobViewIn(db, ns, n));
    FirstEnds(ConditionsIn(db, ns, n), t);
  }

  lemma JobReads(db: Db, v: DaskJobView)
    ensures var k := Child(JobRun, v.ns, v.name);
      JobDetail(db, v).Some? <==> OwnIfThere(db, k, DaskJob) && (k in db.objs ==> db.objs[k].body.JobBody?)
  {
    DetailReads(db, Child(JobRun, v.ns, v.name), DaskJob);
  }

  // ---- Passes that stop early ----

  /** A pass for a DaskJob that is not there succeeds and changes nothing; it fails at anything else that
      is there in its place. */
  lemma NoJobNoPass(db: Db, script: Option<ScriptData>, ns: string, n: string)
    requires !IsJob(db, ns, n)
    ensures JobPass(db, script, ns, n) == Outcome(db, Work(ns, n) !in db.objs)
  {
    var fetch, r := FetchJob(ns, n), Lookup(db, Work(ns, n));
    assert Next(fetch) == Some(Call.Get(Work(ns, n)));
    assert Moved(fetch, r) == Done(Work(ns, n) !in db.objs);
    Stays(script, Point(db, Moved(fetch, r)));
    StepLeads(script, Point(db, fetch), Point(db, Moved(fetch, r)));
    LeadsFinish(script, Point(db, fetch), Point(db, Moved(fetch, r)));
  }

  /** Without a cluster that says Running, a pass fails. If the cluster is there it writes nothing; if not,
      nothing but a status that names the cluster it waits for. */
  lemma JobWaits(db: Db, script: Option<ScriptData>, ns: string, n: string)
    requires IsJob(db, ns, n) && !ClusterRuns(db, JobViewIn(db, ns, n))
    ensures var o, job := JobPass(db, script, ns, n), db.objs[Work(ns, n)].body.job;
      && !o.ok
      && if IsDask(db, ns, job.cluster) then o.db == db
         else && SameBut(db, o.db, Work(ns, n)) && Work(ns, n) in o.db.objs
              && o.db.objs[Work(ns, n)].body == WorkBody(job, DaskJobStatus(0, PendingCluster(job.cluster), []))
  {
    var v, start := JobViewIn(db, ns, n), Point(db, FetchJob(ns, n));
    JobFetchAlone(script, db, ns, n);
    var db' := GateShut(script, db, v);
    LeadsOn(script, start, Point(db, FetchJobCluster(v)), Point(db', Done(false)));
    LeadsFinish(script, start, Point(db', Done(false)));
  }

  // ---- The names of what is made ----

  lemma JobAddsKeys(db: Db, script: Option<ScriptData>, ns: string, n: string)
    requires IsJob(db, ns, n) && JobPass(db, script, ns, n).ok
    ensures forall k :: k in JobPass(db, script, ns, n).db.objs <==> k in db.objs || k in ToCreateIn(db, JobViewIn(db, ns, n))
  {
    var v, db' := JobViewIn(db, ns, n), JobPass(db, script, ns, n).db;
    JobPassDoes(db, script, ns, n);
    forall k ensures k in db'.objs <==> k in db.objs || k in ToCreateIn(db, v) {
      if k in ToCreateIn(db, v) {
        assert MadeForAJob(db', k);
      } else if k != Work(ns, n) {
        assert SameAt(db, db', k);
      }
    }
  }

  function JobNames(ns: string, n: string, job: DaskJobSpec): set<ApiName> {
    {ApiName(ConfigMap, ns, "daskjob-configs-" + n), ApiName(ServiceAccount, ns, "daskjob-serviceaccount-" + n),
     ApiName(Job, ns, "daskjob-job-" + n)}
    + if job.report then {ApiName(PersistentVolumeClaim, ns, "daskjob-report-pvc-" + n)} else {}
  }

  lemma MadeAre(db: Db, v: DaskJobView, k: Key)
    requires forall r :: OfJob(r) ==> Child(r, v.ns, v.name) !in db.objs
    ensures k in ToCreateIn(db, v) <==>
      k.Child? && k == Child(k.role, v.ns, v.name) && OfJob(k.role) && (k.role == ReportClaim ==> v.spec.report)
  {
  }

  lemma MadeAreNamed(v: DaskJobView, r: Role)
    requires OfJob(r) && (r == ReportClaim ==> v.spec.report)
    ensures ApiNameOf(Child(r, v.ns, v.name)) in JobNames(v.ns, v.name, v.spec)
  {
  }

  lemma NamedAreMade(v: DaskJobView, name: ApiName) returns (r: Role)
    requires name in JobNames(v.ns, v.name, v.spec)
    ensures OfJob(r) && (r == ReportClaim ==> v.spec.report) && ApiNameOf(Child(r, v.ns, v.name)) == name
  {
    match name.kind
    case ConfigMap => r := JobConfig;
    case ServiceAccount => r := JobAccount;
    case Job => r := JobRun;
    case _ => r := ReportClaim;
  }

  lemma AllAreNamed(db: Db, v: DaskJobView, name: ApiName)
    requires forall r :: OfJob(r) ==> Child(r, v.ns, v.name) !in db.objs
    ensures name in JobNames(v.ns, v.name, v.spec) <==> exists k :: k in ToCreateIn(db, v) && ApiNameOf(k) == name
  {
    if name in JobNames(v.ns, v.name, v.spec) {
      var r := NamedAreMade(v, name);
      MadeAre(db, v, Child(r, v.ns, v.name));
    }
    if k :| k in ToCreateIn(db, v) && ApiNameOf(k) == name {
      MadeAre(db, v, k);
      MadeAreNamed(v, k.role);
    }
  }

  lemma ViewOfKeys(db: Db, name: ApiName)
    ensures name in ApiView(db) <==> exists k :: k in db.objs && ApiNameOf(k) == name
  {
  }

  /** From nothing of its own, a DaskJob's pass adds exactly these objects, under exactly these names. */
  lemma JobAdds(db: Db, script: Option<ScriptData>, ns: string, n: string)
    requires IsJob(db, ns, n) && JobPass(db, script, ns, n).ok
    requires forall r :: OfJob(r) ==> Child(r, ns, n) !in db.objs
    ensures ApiView(JobPass(db, script, ns, n).db).Keys == ApiView(db).Keys + JobNames(ns, n, db.objs[Work(ns, n)].body.job)
  {
    var v, db' := JobViewIn(db, ns, n), JobPass(db, script, ns, n).db;
    JobAddsKeys(db, script, ns, n);
    forall name ensures name in ApiView(db') <==> name in ApiView(db) || name in JobNames(ns, n, v.spec) {
      ViewOfKeys(db, name);
      ViewOfKeys(db', name);
      AllAreNamed(db, v, name);
    }
  }
}
