/** When a DaskJob's Job does get created: one DaskJob pass alone with the store, for every store and
    every verdict on the script. */
module JobRecovery {
  import opened Options
  import opened Names
  import opened Contexts
  import opened Objects
  import opened Api
  import opened Processes
  import opened Plans
  import opened Solo
  import opened Groups

  predicate IsJob(db: Db, ns: string, n: string) {
    Work(ns, n) in db.objs && db.objs[Work(ns, n)].body.WorkBody?
  }

  function JobViewIn(db: Db, ns: string, n: string): DaskJobView
    requires IsJob(db, ns, n)
  {
    DaskJobView(ns, n, db.objs[Work(ns, n)].rv, db.objs[Work(ns, n)].body.job)
  }

  /** The cluster the DaskJob names is there and says it is Running. */
  predicate ClusterRuns(db: Db, v: DaskJobView) {
    IsDask(db, v.ns, v.spec.cluster) && db.objs[Cluster(v.ns, v.spec.cluster)].body.status.state == Running
  }

  function JobPass(db: Db, script: Option<ScriptData>, ns: string, n: string): Outcome {
    Finish(script, Point(db, FetchJob(ns, n)))
  }

  // ---- The reading half ----

  function JobDetail(db: Db, v: DaskJobView): Option<Report> {
    Detail(Child(JobRun, v.ns, v.name), Lookup(db, Child(JobRun, v.ns, v.name)), DaskJob)
  }

  function JobSeenIn(db: Db, v: DaskJobView): Seen {
    SeenIn(db, JobLooks(v))
  }

  lemma JobFetchAlone(script: Option<ScriptData>, db: Db, ns: string, n: string)
    requires IsJob(db, ns, n)
    ensures Leads(script, Point(db, FetchJob(ns, n)), Point(db, FetchJobCluster(JobViewIn(db, ns, n))))
  {
    var goal := Point(db, FetchJobCluster(JobViewIn(db, ns, n)));
    Stays(script, goal);
    assert Next(FetchJob(ns, n)) == Some(Call.Get(Work(ns, n)));
    assert Moved(FetchJob(ns, n), Lookup(db, Work(ns, n))) == goal.pass;
    StepLeads(script, Point(db, FetchJob(ns, n)), goal);
  }

  lemma GateOpen(script: Option<ScriptData>, db: Db, v: DaskJobView)
    requires ClusterRuns(db, v)
    ensures Leads(script, Point(db, FetchJobCluster(v)), Point(db, LookAtJob(v, ViewIn(db, v.ns, v.spec.cluster), [])))
  {
    var d := ViewIn(db, v.ns, v.spec.cluster);
    var goal := Point(db, LookAtJob(v, d, []));
    Stays(script, goal);
    assert Next(ListJobs(v, d)) == Some(Call.List(v.ns));
    assert Moved(ListJobs(v, d), Resp.Ok) == goal.pass;
    StepLeads(script, Point(db, ListJobs(v, d)), goal);
    assert Next(FetchJobCluster(v)) == Some(Call.Get(Cluster(v.ns, v.spec.cluster)));
    assert Moved(FetchJobCluster(v), Lookup(db, Cluster(v.ns, v.spec.cluster))) == ListJobs(v, d);
    StepLeads(script, Point(db, FetchJobCluster(v)), goal);
  }

  /** Without a cluster that says it is Running, the pass fails; it has written nothing, or that the
      cluster is not there. */
  lemma GateShut(script: Option<ScriptData>, db: Db, v: DaskJobView) returns (db': Db)
    requires IsJob(db, v.ns, v.name) && v == JobViewIn(db, v.ns, v.name) && !ClusterRuns(db, v)
    ensures Leads(script, Point(db, FetchJobCluster(v)), Point(db', Done(false)))
    ensures if IsDask(db, v.ns, v.spec.cluster) then db' == db
      else && (forall k :: k != WorkKey(v) ==> SameAt(db, db', k)) && WorkKey(v) in db'.objs
           && db'.objs[WorkKey(v)].body == WorkBody(v.spec, DaskJobStatus(0, PendingCluster(v.spec.cluster), []))
  {
    var k := Cluster(v.ns, v.spec.cluster);
    var start := Point(db, FetchJobCluster(v));
    assert Next(FetchJobCluster(v)) == Some(Call.Get(k));
    if IsDask(db, v.ns, v.spec.cluster) {
      assert Moved(FetchJobCluster(v), Lookup(db, k)) == Done(false);
      db' := db;
    } else {
      assert Moved(FetchJobCluster(v), Lookup(db, k)) == ReportPending(v);
      var last := NextPoint(script, Point(db, ReportPending(v)));
      assert last.pass == Done(false);
      db' := last.db;
      Stays(script, last);
      StepLeads(script, Point(db, ReportPending(v)), last);
    }
    Stays(script, Point(db', Done(false)));
    StepLeads(script, start, Point(db', Done(false)));
  }

  lemma {:induction false} JobLooksAlone(script: Option<ScriptData>, db: Db, v: DaskJobView, d: DaskView, seen: Seen)
    requires |seen| <= 4 && seen == JobSeenIn(db, v)[..|seen|]
    ensures Leads(script, Point(db, LookedAtJob(v, d, seen)), Point(db, ClassifyScript(v, d, JobSeenIn(db, v))))
    decreases 4 - |seen|
  {
    var all := JobSeenIn(db, v);
    if |seen| == 4 {
      assert seen == all;
      Stays(script, Point(db, ClassifyScript(v, d, all)));
    } else {
      var p := LookAtJob(v, d, seen);
      var next := seen + [all[|seen|]];
      assert Next(p) == Some(Call.Get(JobLooks(v)[|seen|]));
      assert Moved(p, Lookup(db, JobLooks(v)[|seen|])) == LookedAtJob(v, d, next);
      JobLooksAlone(script, db, v, d, next);
      StepLeads(script, Point(db, p), Point(db, ClassifyScript(v, d, all)));
    }
  }

  function ActingWith(db: Db, v: DaskJobView, c: Context): Process {
    match JobDetail(db, v)
    case Some(report) => Acting(WorkKey(v), JobPlan(v, c, JobSeenIn(db, v), report))
    case None => Done(false)
  }

  /** Where a pass stands when it begins to write, if it does. */
  function JobActing(db: Db, script: Option<ScriptData>, v: DaskJobView, d: DaskView): Process {
    match script
    case Some(data) => ActingWith(db, v, JobContextOf(v, d, data))
    case None => Done(false)
  }

  lemma DetailAlone(script: Option<ScriptData>, db: Db, v: DaskJobView, c: Context)
    ensures Leads(script, Point(db, DetailJob(v, c, JobSeenIn(db, v))), Point(db, ActingWith(db, v, c)))
  {
    var detail := DetailJob(v, c, JobSeenIn(db, v));
    Stays(script, Point(db, ActingWith(db, v, c)));
    assert Next(detail) == Some(Call.Get(Child(JobRun, v.ns, v.name)));
    assert Moved(detail, Lookup(db, Child(JobRun, v.ns, v.name))) == ActingWith(db, v, c);
    StepLeads(script, Point(db, detail), Point(db, ActingWith(db, v, c)));
  }

  lemma ScriptAndDetail(script: Option<ScriptData>, db: Db, v: DaskJobView, d: DaskView)
    ensures Leads(script, Point(db, ClassifyScript(v, d, JobSeenIn(db, v))), Point(db, JobActing(db, script, v, d)))
  {
    var classify := ClassifyScript(v, d, JobSeenIn(db, v));
    assert Next(classify) == Some(CheckScript(v.spec.script));
    match script
    case Some(data) =>
      DetailAlone(script, db, v, JobContextOf(v, d, data));
      StepLeads(script, Point(db, classify), Point(db, JobActing(db, script, v, d)));
    case None =>
      Stays(script, Point(db, Done(false)));
      StepLeads(script, Point(db, classify), Point(db, Done(false)));
  }

  lemma JobReads(script: Option<ScriptData>, db: Db, ns: string, n: string)
    requires IsJob(db, ns, n) && ClusterRuns(db, JobViewIn(db, ns, n))
    ensures var v := JobViewIn(db, ns, n);
      Leads(script, Point(db, FetchJob(ns, n)), Point(db, JobActing(db, script, v, ViewIn(db, ns, v.spec.cluster))))
  {
    var v := JobViewIn(db, ns, n);
    var d, start := ViewIn(db, ns, v.spec.cluster), Point(db, FetchJob(ns, n));
    JobFetchAlone(script, db, ns, n);
    GateOpen(script, db, v);
    LeadsOn(script, start, Point(db, FetchJobCluster(v)), Point(db, LookAtJob(v, d, [])));
    JobLooksAlone(script, db, v, d, []);
    LeadsOn(script, start, Point(db, LookAtJob(v, d, [])), Point(db, ClassifyScript(v, d, JobSeenIn(db, v))));
    ScriptAndDetail(script, db, v, d);
    LeadsOn(script, start, Point(db, ClassifyScript(v, d, JobSeenIn(db, v))), Point(db, JobActing(db, script, v, d)));
  }

  // ---- The writing half ----

  predicate CreatesEach(calls: seq<Call>, keys: seq<Key>) {
    |calls| == |keys| && forall i :: 0 <= i < |calls| ==> CreatesAt(calls[i], keys[i])
  }

  predicate CreatesAt(call: Call, k: Key) {
    && call.Create? && call.key == k && Admissible(call.body) && Fits(k, call.body)
    && call.owner.apiVersion == GROUP_VERSION && call.owner.kind == DaskJob
  }

  /** What is there is of the key's sort, and a DaskJob's. */
  predicate MadeForAJob(db: Db, k: Key) {
    k in db.objs && Fits(k, db.objs[k].body) && ControlledBy(db.objs[k], DaskJob)
  }

  predicate AllDifferent(keys: seq<Key>) {
    forall i, j :: 0 <= i < j < |keys| ==> keys[i] != keys[j]
  }

  lemma {:induction false} EachCreated(db: Db, calls: seq<Call>, keys: seq<Key>)
    requires CreatesEach(calls, keys) && AllDifferent(keys)
    ensures var o := Execute(db, calls);
      && (o.ok <==> forall k :: k in keys ==> k !in db.objs)
      && (forall k :: k !in keys ==> SameAt(db, o.db, k))
      && (o.ok ==> forall k :: k in keys ==> MadeForAJob(o.db, k))
    decreases |calls|
  {
    if calls == [] {
    } else {
      assert forall k :: k in keys <==> k == keys[0] || k in keys[1..];
      if keys[0] !in db.objs {
        assert CreatesAt(calls[0], keys[0]);
        var db' := Write(db, calls[0]).value;
        EachCreated(db', calls[1..], keys[1..]);
        assert keys[0] !in keys[1..];
        assert SameAt(db', Execute(db', calls[1..]).db, keys[0]);
      }
    }
  }

  /** What a pass sets out to create: the ConfigMap unless it was found; and unless the Job was found, the
      claim if a report is asked for and it was not found, the ServiceAccount and the Job. */
  function ToCreate(v: DaskJobView, job: bool, config: bool, claim: bool): seq<Key> {
    (if config then [] else [Child(JobConfig, v.ns, v.name)]) +
    (if job then [] else
       (if v.spec.report && !claim then [Child(ReportClaim, v.ns, v.name)] else []) +
       [Child(JobAccount, v.ns, v.name), Child(JobRun, v.ns, v.name)])
  }

  function ToCreateIn(db: Db, v: DaskJobView): seq<Key> {
    ToCreate(v, Noted(db, Child(JobRun, v.ns, v.name)), Noted(db, Child(JobConfig, v.ns, v.name)), Noted(db, Child(ReportClaim, v.ns, v.name)))
  }

  function Creations(c: Context, seen: Seen): seq<Call>
    requires |seen| == 4
  {
    JobConfigGroup(c, seen[2].None?) + JobGroup(c, seen)
  }

  lemma EachThen(c1: seq<Call>, k1: seq<Key>, c2: seq<Call>, k2: seq<Key>)
    requires CreatesEach(c1, k1) && CreatesEach(c2, k2)
    ensures CreatesEach(c1 + c2, k1 + k2)
  {
  }

  lemma ConfigCreates(v: DaskJobView, c: Context, config: bool)
    requires JobPlace(v, c)
    ensures CreatesEach(JobConfigGroup(c, !config), if config then [] else [Child(JobConfig, v.ns, v.name)])
  {
  }

  lemma ClaimCreates(v: DaskJobView, c: Context, claim: bool)
    requires JobPlace(v, c) && c.job.report == v.spec.report
    ensures CreatesEach(ClaimGroup(c, !claim), if v.spec.report && !claim then [Child(ReportClaim, v.ns, v.name)] else [])
  {
  }

  lemma PairCreates(v: DaskJobView, c: Context)
    requires JobPlace(v, c)
    ensures CreatesEach([MakeForJob(c, JobAccount), MakeForJob(c, JobRun)], [Child(JobAccount, v.ns, v.name), Child(JobRun, v.ns, v.name)])
  {
  }

  lemma CreationsAre(v: DaskJobView, c: Context, seen: Seen)
    requires |seen| == 4 && JobPlace(v, c) && c.job.report == v.spec.report
    ensures CreatesEach(Creations(c, seen), ToCreate(v, seen[0].Some?, seen[2].Some?, seen[3].Some?))
  {
    var config, claim := seen[2].Some?, seen[3].Some?;
    var configKeys := if config then [] else [Child(JobConfig, v.ns, v.name)];
    var claimKeys := if v.spec.report && !claim then [Child(ReportClaim, v.ns, v.name)] else [];
    var pair := [Child(JobAccount, v.ns, v.name), Child(JobRun, v.ns, v.name)];
    ConfigCreates(v, c, config);
    if seen[0].Some? {
      EachThen(JobConfigGroup(c, !config), configKeys, [], []);
    } else {
      ClaimCreates(v, c, claim);
      PairCreates(v, c);
      EachThen(ClaimGroup(c, !claim), claimKeys, [MakeForJob(c, JobAccount), MakeForJob(c, JobRun)], pair);
      EachThen(JobConfigGroup(c, !config), configKeys, JobGroup(c, seen), claimKeys + pair);
    }
  }

  lemma ToCreateDiffers(v: DaskJobView, job: bool, config: bool, claim: bool)
    ensures AllDifferent(ToCreate(v, job, config, claim))
    ensures forall k :: k in ToCreate(v, job, config, claim) ==> k.Child?
  {
  }

  lemma SeenIsNoted(db: Db, v: DaskJobView)
    ensures var seen := JobSeenIn(db, v);
      && (seen[0].Some? <==> Noted(db, Child(JobRun, v.ns, v.name)))
      && (seen[2].Some? <==> Noted(db, Child(JobConfig, v.ns, v.name)))
      && (seen[3].Some? <==> Noted(db, Child(ReportClaim, v.ns, v.name)))
  {
  }

  lemma StatusGoesThrough(db: Db, last: Call)
    requires last.UpdateStatus? && last.key in db.objs && db.objs[last.key].rv == last.rv
    ensures var o := Execute(db, [last]);
      && o.ok && (forall k :: k != last.key ==> SameAt(db, o.db, k))
      && last.key in o.db.objs && o.db.objs[last.key].body == WithStatus(db.objs[last.key].body, last.status)
  {
    assert [last][1..] == [];
  }

  lemma CreationsSucceed(db: Db, v: DaskJobView, c: Context)
    requires JobPlace(v, c) && c.job.report == v.spec.report
    ensures var o := Execute(db, Creations(c, JobSeenIn(db, v)));
      && (o.ok <==> forall k :: k in ToCreateIn(db, v) ==> k !in db.objs)
      && (forall k :: k !in ToCreateIn(db, v) ==> SameAt(db, o.db, k))
      && (o.ok ==> forall k :: k in ToCreateIn(db, v) ==> MadeForAJob(o.db, k))
  {
    var seen, keys := JobSeenIn(db, v), ToCreateIn(db, v);
    var calls := Creations(c, seen);
    SeenIsNoted(db, v);
    CreationsAre(v, c, seen);
    ToCreateDiffers(v, seen[0].Some?, seen[2].Some?, seen[3].Some?);
    EachCreated(db, calls, keys);
  }

  lemma WorkIsNotCreated(db: Db, v: DaskJobView)
    ensures WorkKey(v) !in ToCreateIn(db, v)
  {
    ToCreateDiffers(v, Noted(db, Child(JobRun, v.ns, v.name)), Noted(db, Child(JobConfig, v.ns, v.name)), Noted(db, Child(ReportClaim, v.ns, v.name)));
  }

  function JobStatusIn(db: Db, v: DaskJobView, report: Report): DaskJobStatus {
    DaskJobStatus(0, JobState(JobSeenIn(db, v)[0]), [report])
  }

  /** What the writes of a pass that gets through do: they make what was to be created, note the Job's
      state, and change nothing else. */
  ghost predicate JobDone(db: Db, db': Db, v: DaskJobView, report: Report)
    requires IsJob(db, v.ns, v.name)
  {
    && (forall k :: k in ToCreateIn(db, v) ==> MadeForAJob(db', k))
    && (forall k :: k !in ToCreateIn(db, v) && k != WorkKey(v) ==> SameAt(db, db', k))
    && WorkKey(v) in db'.objs && db'.objs[WorkKey(v)].body == WorkBody(db.objs[WorkKey(v)].body.job, JobStatusIn(db, v, report))
  }

  /** The writes of a pass succeed exactly if nothing stands where it is to create something. */
  lemma PlanSucceeds(db: Db, v: DaskJobView, c: Context, report: Report)
    requires IsJob(db, v.ns, v.name) && v == JobViewIn(db, v.ns, v.name) && JobPlace(v, c) && c.job.report == v.spec.report
    ensures var o := Execute(db, JobPlan(v, c, JobSeenIn(db, v), report));
      && (o.ok <==> forall k :: k in ToCreateIn(db, v) ==> k !in db.objs)
      && (o.ok ==> JobDone(db, o.db, v, report))
  {
    var seen := JobSeenIn(db, v);
    var calls, last := Creations(c, seen), JobStatusCall(v, seen, report);
    CreationsSucceed(db, v, c);
    WorkIsNotCreated(db, v);
    PlanIs(v, c, seen, report);
    ExecuteThen(db, calls, [last]);
    var mid := Execute(db, calls);
    if mid.ok {
      assert SameAt(db, mid.db, WorkKey(v));
      StatusGoesThrough(mid.db, last);
      StatusIsLast(db, mid.db, Execute(mid.db, [last]).db, v, report);
    }
  }

  lemma StatusIsLast(db: Db, mid: Db, db': Db, v: DaskJobView, report: Report)
    requires IsJob(db, v.ns, v.name) && v == JobViewIn(db, v.ns, v.name)
    requires forall k :: k !in ToCreateIn(db, v) ==> SameAt(db, mid, k)
    requires forall k :: k in ToCreateIn(db, v) ==> MadeForAJob(mid, k)
    requires WorkKey(v) !in ToCreateIn(db, v) && forall k :: k != WorkKey(v) ==> SameAt(mid, db', k)
    requires SameAt(db, mid, WorkKey(v)) && WorkKey(v) in db'.objs
    requires db'.objs[WorkKey(v)].body == WithStatus(mid.objs[WorkKey(v)].body, WorkStatus(JobStatusIn(db, v, report)))
    ensures JobDone(db, db', v, report)
  {
    forall k | k in ToCreateIn(db, v) ensures MadeForAJob(db', k) {
      assert MadeForAJob(mid, k) && SameAt(mid, db', k);
    }
    forall k | k !in ToCreateIn(db, v) && k != WorkKey(v) ensures SameAt(db, db', k) {
      assert SameAt(db, mid, k) && SameAt(mid, db', k);
    }
  }

  lemma PlanIs(v: DaskJobView, c: Context, seen: Seen, report: Report)
    requires |seen| == 4
    ensures JobPlan(v, c, seen, report) == Creations(c, seen) + [JobStatusCall(v, seen, report)]
  {
  }

  lemma RunThere(db: Db, db': Db, v: DaskJobView, report: Report)
    requires IsJob(db, v.ns, v.name) && JobDone(db, db', v, report)
    ensures Noted(db', Child(JobRun, v.ns, v.name))
  {
    var run := Child(JobRun, v.ns, v.name);
    if Noted(db, run) {
      assert SameAt(db, db', run);
    } else {
      assert MadeForAJob(db', run);
    }
  }

  // ---- The results ----

  lemma GateDecides(db: Db, script: Option<ScriptData>, ns: string, n: string)
    requires IsJob(db, ns, n) && !ClusterRuns(db, JobViewIn(db, ns, n))
    ensures !JobPass(db, script, ns, n).ok
  {
    var v, start := JobViewIn(db, ns, n), Point(db, FetchJob(ns, n));
    JobFetchAlone(script, db, ns, n);
    var db' := GateShut(script, db, v);
    LeadsOn(script, start, Point(db, FetchJobCluster(v)), Point(db', Done(false)));
    LeadsFinish(script, start, Point(db', Done(false)));
  }

  lemma JobPassIs(db: Db, script: Option<ScriptData>, ns: string, n: string)
    requires IsJob(db, ns, n) && ClusterRuns(db, JobViewIn(db, ns, n))
    ensures var v := JobViewIn(db, ns, n); var d := ViewIn(db, ns, v.spec.cluster);
      JobPass(db, script, ns, n) ==
        if script.Some? && JobDetail(db, v).Some?
        then Execute(db, JobPlan(v, JobContextOf(v, d, script.value), JobSeenIn(db, v), JobDetail(db, v).value))
        else Outcome(db, false)
  {
    var v := JobViewIn(db, ns, n);
    var d := ViewIn(db, ns, v.spec.cluster);
    var acting := JobActing(db, script, v, d);
    JobReads(script, db, ns, n);
    LeadsFinish(script, Point(db, FetchJob(ns, n)), Point(db, acting));
    if script.Some? && JobDetail(db, v).Some? {
      var c := JobContextOf(v, d, script.value);
      var plan := JobPlan(v, c, JobSeenIn(db, v), JobDetail(db, v).value);
      JobPlanOwned(v, c, JobSeenIn(db, v), JobDetail(db, v).value);
      WritesAlone(script, db, WorkKey(v), plan);
      LeadsFinish(script, Point(db, acting), Point(Execute(db, plan).db, Done(Execute(db, plan).ok)));
    }
  }

  /** When a DaskJob's pass gets through, exactly: its cluster says Running, its script is accepted, its
      Job can be read back, and nothing it is to create is there already. Its Job is there then. */
  lemma JobRecoversExactly(db: Db, script: Option<ScriptData>, ns: string, n: string)
    requires IsJob(db, ns, n)
    ensures var v := JobViewIn(db, ns, n); var o := JobPass(db, script, ns, n);
      && (o.ok <==> ClusterRuns(db, v) && script.Some? && JobDetail(db, v).Some?
                    && forall k :: k in ToCreateIn(db, v) ==> k !in db.objs)
      && (o.ok ==> Noted(o.db, Child(JobRun, ns, n)))
  {
    var v := JobViewIn(db, ns, n);
    if !ClusterRuns(db, v) {
      GateDecides(db, script, ns, n);
    } else {
      JobPassIs(db, script, ns, n);
      if script.Some? && JobDetail(db, v).Some? {
        PlanSucceeds(db, v, JobContextOf(v, ViewIn(db, ns, v.spec.cluster), script.value), JobDetail(db, v).value);
        if JobPass(db, script, ns, n).ok {
          RunThere(db, JobPass(db, script, ns, n).db, v, JobDetail(db, v).value);
        }
      }
    }
  }

  /** What is there under the DaskJob's names is what belongs there. */
  predicate NamesFit(db: Db, ns: string, n: string) {
    forall r :: r in {JobConfig, ReportClaim, JobAccount, JobRun} && Child(r, ns, n) in db.objs ==>
      Fits(Child(r, ns, n), db.objs[Child(r, ns, n)].body)
  }

  lemma FitsMeansNoted(db: Db, ns: string, n: string, r: Role)
    requires NamesFit(db, ns, n) && r in {JobConfig, ReportClaim, JobAccount, JobRun}
    ensures Noted(db, Child(r, ns, n)) <==> Child(r, ns, n) in db.objs
  {
  }

  /** With a Running cluster and an accepted script, one pass gets a DaskJob its Job if and only if the Job
      can be read back if it is there, and the ServiceAccount is not there without it. */
  lemma JobMadeExactly(db: Db, script: Option<ScriptData>, ns: string, n: string)
    requires IsJob(db, ns, n) && ClusterRuns(db, JobViewIn(db, ns, n)) && script.Some? && NamesFit(db, ns, n)
    ensures var job, account := Child(JobRun, ns, n), Child(JobAccount, ns, n); var o := JobPass(db, script, ns, n);
      && (o.ok <==> JobDetail(db, JobViewIn(db, ns, n)).Some? && (job in db.objs || account !in db.objs))
      && (o.ok ==> job in o.db.objs)
  {
    JobRecoversExactly(db, script, ns, n);
    FitsMeansNoted(db, ns, n, JobRun);
    FitsMeansNoted(db, ns, n, JobConfig);
    FitsMeansNoted(db, ns, n, ReportClaim);
    NothingInTheWay(db, JobViewIn(db, ns, n));
  }

  lemma NothingInTheWay(db: Db, v: DaskJobView)
    requires Noted(db, Child(JobRun, v.ns, v.name)) <==> Child(JobRun, v.ns, v.name) in db.objs
    requires Noted(db, Child(JobConfig, v.ns, v.name)) <==> Child(JobConfig, v.ns, v.name) in db.objs
    requires Noted(db, Child(ReportClaim, v.ns, v.name)) <==> Child(ReportClaim, v.ns, v.name) in db.objs
    ensures (forall k :: k in ToCreateIn(db, v) ==> k !in db.objs) <==>
      Child(JobRun, v.ns, v.name) in db.objs || Child(JobAccount, v.ns, v.name) !in db.objs
  {
    if Child(JobRun, v.ns, v.name) !in db.objs {
      assert Child(JobAccount, v.ns, v.name) in ToCreateIn(db, v);
    }
  }
}
