/** Where DaskJob passes that get through lead: the first makes everything, and from the second on no
    child changes and every pass writes the same status. */
module JobConvergence {
  import opened Options
  import opened Names
  import opened Objects
  import opened Api
  import opened Processes
  import opened Solo
  import opened Groups
  import opened Convergence
  import opened JobRecovery

  /** A pass with that verdict on the script has nothing to create, and gets through. */
  predicate JobSettled(db: Db, ns: string, n: string) {
    && IsJob(db, ns, n) && ClusterRuns(db, JobViewIn(db, ns, n))
    && JobDetail(db, JobViewIn(db, ns, n)).Some? && ToCreateIn(db, JobViewIn(db, ns, n)) == []
  }

  function ReportedIn(db: Db, ns: string, n: string): DaskJobStatus
    requires JobSettled(db, ns, n)
  {
    JobStatusIn(db, JobViewIn(db, ns, n), JobDetail(db, JobViewIn(db, ns, n)).value)
  }

  /** What a pass that gets through does. */
  lemma JobPassDoes(db: Db, script: Option<ScriptData>, ns: string, n: string)
    requires IsJob(db, ns, n) && JobPass(db, script, ns, n).ok
    ensures var v := JobViewIn(db, ns, n);
      ClusterRuns(db, v) && JobDetail(db, v).Some? && JobDone(db, JobPass(db, script, ns, n).db, v, JobDetail(db, v).value)
  {
    var v := JobViewIn(db, ns, n);
    JobRecoversExactly(db, script, ns, n);
    JobPassIs(db, script, ns, n);
    PlanSucceeds(db, v, JobContextOf(v, ViewIn(db, ns, v.spec.cluster), script.value), JobDetail(db, v).value);
  }

  /** What a pass that gets through was to create is noted then, and so is what was noted before. */
  lemma NotedAfter(db: Db, db': Db, v: DaskJobView, report: Report, r: Role)
    requires IsJob(db, v.ns, v.name) && JobDone(db, db', v, report)
    requires Noted(db, Child(r, v.ns, v.name)) <==> Child(r, v.ns, v.name) !in ToCreateIn(db, v)
    ensures Noted(db', Child(r, v.ns, v.name))
  {
    var k := Child(r, v.ns, v.name);
    if Noted(db, k) {
      assert SameAt(db, db', k);
    } else {
      assert MadeForAJob(db', k);
    }
  }

  lemma CreatesWhatIsMissing(db: Db, v: DaskJobView)
    ensures Noted(db, Child(JobRun, v.ns, v.name)) <==> Child(JobRun, v.ns, v.name) !in ToCreateIn(db, v)
    ensures Noted(db, Child(JobConfig, v.ns, v.name)) <==> Child(JobConfig, v.ns, v.name) !in ToCreateIn(db, v)
    ensures Noted(db, Child(JobRun, v.ns, v.name)) && Noted(db, Child(JobConfig, v.ns, v.name)) ==> ToCreateIn(db, v) == []
    ensures Cluster(v.ns, v.spec.cluster) !in ToCreateIn(db, v)
  {
  }

  /** The Job can still be read back: either it has not changed, or it is the DaskJob's own. */
  lemma DetailAfter(db: Db, db': Db, v: DaskJobView, report: Report)
    requires IsJob(db, v.ns, v.name) && JobDone(db, db', v, report) && JobDetail(db, v).Some?
    ensures JobDetail(db', v).Some?
  {
    var run := Child(JobRun, v.ns, v.name);
    if run in ToCreateIn(db, v) {
      assert MadeForAJob(db', run);
    } else {
      assert SameAt(db, db', run);
    }
  }

  lemma SuccessSettles(db: Db, script: Option<ScriptData>, ns: string, n: string)
    requires IsJob(db, ns, n) && JobPass(db, script, ns, n).ok
    ensures JobSettled(JobPass(db, script, ns, n).db, ns, n)
  {
    var v, db' := JobViewIn(db, ns, n), JobPass(db, script, ns, n).db;
    JobPassDoes(db, script, ns, n);
    var report := JobDetail(db, v).value;
    CreatesWhatIsMissing(db, v);
    assert SameAt(db, db', Cluster(ns, v.spec.cluster));
    NotedAfter(db, db', v, report, JobRun);
    NotedAfter(db, db', v, report, JobConfig);
    DetailAfter(db, db', v, report);
    CreatesWhatIsMissing(db', JobViewIn(db', ns, n));
  }

  lemma SettledSucceeds(db: Db, script: Option<ScriptData>, ns: string, n: string)
    requires JobSettled(db, ns, n) && script.Some?
    ensures var o := JobPass(db, script, ns, n);
      && o.ok && SameBut(db, o.db, Work(ns, n)) && JobSettled(o.db, ns, n)
      && o.db.objs[Work(ns, n)].body == WorkBody(db.objs[Work(ns, n)].body.job, ReportedIn(db, ns, n))
  {
    JobRecoversExactly(db, script, ns, n);
    JobPassDoes(db, script, ns, n);
    SuccessSettles(db, script, ns, n);
  }

  /** What a pass reports depends on the children only. */
  lemma SameReported(db: Db, db': Db, ns: string, n: string)
    requires JobSettled(db, ns, n) && JobSettled(db', ns, n) && SameBut(db, db', Work(ns, n))
    ensures ReportedIn(db', ns, n) == ReportedIn(db, ns, n)
  {
    assert SameAt(db, db', Child(JobRun, ns, n));
  }

  /** A number of passes one after the other, with the same verdict on the script. */
  function JobPasses(k: nat, db: Db, script: Option<ScriptData>, ns: string, n: string): Db {
    if k == 0 then db else JobPass(JobPasses(k - 1, db, script, ns, n), script, ns, n).db
  }

  /** Nothing has changed but the status, which is the one a pass writes if there has been one. */
  ghost predicate OnlyStatus(db: Db, db': Db, ns: string, n: string, passed: bool) {
    && JobSettled(db, ns, n) && JobSettled(db', ns, n) && SameBut(db, db', Work(ns, n))
    && db'.objs[Work(ns, n)].body.job == db.objs[Work(ns, n)].body.job
    && (passed ==> db'.objs[Work(ns, n)].body.progress == ReportedIn(db, ns, n))
  }

  lemma OneMorePass(db: Db, before: Db, script: Option<ScriptData>, ns: string, n: string, passed: bool)
    requires OnlyStatus(db, before, ns, n, passed) && script.Some?
    ensures OnlyStatus(db, JobPass(before, script, ns, n).db, ns, n, true)
  {
    SameReported(db, before, ns, n);
    SettledSucceeds(before, script, ns, n);
    SameButTrans(db, before, JobPass(before, script, ns, n).db, Work(ns, n));
  }

  /** A settled store stays as it is. */
  lemma {:induction false} JobSettledForever(db: Db, script: Option<ScriptData>, ns: string, n: string, k: nat)
    requires JobSettled(db, ns, n) && script.Some?
    ensures OnlyStatus(db, JobPasses(k, db, script, ns, n), ns, n, k > 0)
  {
    if k == 0 {
    } else {
      var before := JobPasses(k - 1, db, script, ns, n);
      JobSettledForever(db, script, ns, n, k - 1);
      OneMorePass(db, before, script, ns, n, k > 1);
    }
  }

  lemma {:induction false} JobPassesFirst(k: nat, db: Db, script: Option<ScriptData>, ns: string, n: string)
    ensures JobPasses(k + 1, db, script, ns, n) == JobPasses(k, JobPass(db, script, ns, n).db, script, ns, n)
  {
    if k == 0 {
      assert JobPasses(0, db, script, ns, n) == db;
    } else {
      JobPassesFirst(k - 1, db, script, ns, n);
    }
  }

  /** The fixpoint of the DaskJob controller: once a pass has got through, with its Job there, every later
      pass with an accepted script gets through, none changes a child, and the status the second pass
      writes is the one every later pass writes. */
  lemma JobFixpoint(db: Db, script: Option<ScriptData>, ns: string, n: string, k: nat)
    requires IsJob(db, ns, n) && JobPass(db, script, ns, n).ok
    ensures var first := JobPasses(1, db, script, ns, n); var second := JobPasses(2, db, script, ns, n);
      var later := JobPasses(k + 2, db, script, ns, n);
      && Noted(first, Child(JobRun, ns, n)) && SameBut(first, later, Work(ns, n))
      && IsJob(second, ns, n) && IsJob(later, ns, n)
      && later.objs[Work(ns, n)].body == second.objs[Work(ns, n)].body
      && JobPass(later, script, ns, n).ok
  {
    var first := JobPass(db, script, ns, n).db;
    JobRecoversExactly(db, script, ns, n);
    SuccessSettles(db, script, ns, n);
    JobPassesFirst(0, db, script, ns, n);
    JobPassesFirst(1, db, script, ns, n);
    JobPassesFirst(k + 1, db, script, ns, n);
    assert JobPasses(0, first, script, ns, n) == first;
    JobSettledForever(first, script, ns, n, 1);
    JobSettledForever(first, script, ns, n, k + 1);
    SettledSucceeds(JobPasses(k + 2, db, script, ns, n), script, ns, n);
  }
}
