/** What can be found in the status of the two custom resources: over all runs, deletions included,
    only states that describe something the operator saw. */
module Statuses {
  import opened Options
  import opened Names
  import opened Contexts
  import opened Objects
  import opened Api
  import opened Processes
  import opened Operator
  import opened Plans

  type History = seq<Db>

  // ---- The statuses a reader can meet ----

  /** Nothing written yet, or at most three Deployments counted, the ready ones among them, and the
      state those two counts amount to. */
  predicate DaskStatusOk(s: DaskStatus) {
    || s == FRESH_DASK
    || (0 <= s.succeeded <= s.replicas <= 3 && s.state == if s.succeeded == s.replicas then Running else Building)
  }

  /** Some version of the store has the DaskJob k name that cluster. */
  ghost predicate Named(h: History, k: Key, cluster: string) {
    exists j :: 0 <= j < |h| && k in h[j].objs && h[j].objs[k].body.WorkBody? && h[j].objs[k].body.job.cluster == cluster
  }

  ghost predicate SeenRunning(h: History, cluster: Key) {
    exists j :: 0 <= j < |h| && cluster in h[j].objs && h[j].objs[cluster].body.ClusterBody?
                && h[j].objs[cluster].body.status.state == Running
  }

  /** The DaskJob k has named a cluster that has been Running. */
  ghost predicate Gated(h: History, k: Key, cluster: string) {
    Named(h, k, cluster) && SeenRunning(h, Cluster(k.ns, cluster))
  }

  /** Some version of the store holds the Job with t as the first condition that decides. */
  ghost predicate SeenFinished(h: History, job: Key, t: ConditionType) {
    exists j :: 0 <= j < |h| && job in h[j].objs && h[j].objs[job].body.JobBody?
                && FirstFinished(h[j].objs[job].body.conditions) == Some(t)
  }

  /** Some version of the store holds the Job with no condition that decides. */
  ghost predicate SeenUnfinished(h: History, job: Key) {
    exists j :: 0 <= j < |h| && job in h[j].objs && h[j].objs[job].body.JobBody?
                && FirstFinished(h[j].objs[job].body.conditions).None?
  }

  /** Nothing written yet, or waiting for the cluster it has named, or past the gate: Running with its Job
      unfinished, or finished the way its Job did. */
  ghost predicate JobStatusOk(h: History, k: Key, s: DaskJobStatus) {
    JobStatusOkOnce(h, k, s, false)
  }

  /** The same for a status that is written once the Job has been made. */
  ghost predicate JobStatusOkOnce(h: History, k: Key, s: DaskJobStatus, made: bool) {
    || s == FRESH_JOB
    || (s.state.PendingCluster? && Named(h, k, s.state.cluster))
    || (&& (exists cluster :: Gated(h, k, cluster))
        && (|| (s.state == Running && (made || SeenUnfinished(h, Child(JobRun, k.ns, k.instance))))
            || (s.state.Finished? && SeenFinished(h, Child(JobRun, k.ns, k.instance), s.state.condition))))
  }

  ghost predicate BodyOk(h: History, k: Key, b: Body) {
    && (b.ClusterBody? ==> DaskStatusOk(b.status))
    && (b.WorkBody? ==> JobStatusOk(h, k, b.progress))
  }

  ghost predicate AllOk(h: History, db: Db) {
    forall k :: k in db.objs ==> BodyOk(h, k, db.objs[k].body)
  }

  // ---- What the passes hold ----

  ghost predicate StatusOk(h: History, k: Key, s: Status, made: bool) {
    match s
    case ClusterStatus(d) => DaskStatusOk(d)
    case WorkStatus(p) => JobStatusOkOnce(h, k, p, made)
  }

  ghost predicate CallOk(h: History, c: Call, made: bool) {
    && (c.UpdateStatus? ==> StatusOk(h, c.key, c.status, made))
    && (c.Create? ==> !c.body.ClusterBody? && !c.body.WorkBody?)
  }

  /** The call makes the Job of the DaskJob k, with no condition yet. */
  predicate MakesJob(c: Call, k: Key) {
    c.Create? && c.key == Child(JobRun, k.ns, k.instance) && c.body.JobBody? && c.body.conditions == []
  }

  predicate JobMadeBefore(calls: seq<Call>, i: nat)
    requires i < |calls|
  {
    calls[i].UpdateStatus? && exists j :: 0 <= j < i && MakesJob(calls[j], calls[i].key)
  }

  ghost predicate CallsOk(h: History, calls: seq<Call>) {
    forall i :: 0 <= i < |calls| ==> CallOk(h, calls[i], JobMadeBefore(calls, i))
  }

  /** The Job a pass has noticed is one that some version of the store holds. */
  ghost predicate JobSeen(h: History, v: DaskJobView, seen: Seen) {
    |seen| >= 1 && seen[0].Some? ==>
      && seen[0].value.body.JobBody?
      && exists j :: 0 <= j < |h| && Child(JobRun, v.ns, v.name) in h[j].objs && h[j].objs[Child(JobRun, v.ns, v.name)] == seen[0].value
  }

  ghost predicate PassOk(h: History, p: Process) {
    match p
    case FetchJobCluster(v) => Named(h, WorkKey(v), v.spec.cluster)
    case ReportPending(v) => Named(h, WorkKey(v), v.spec.cluster)
    case ListJobs(v, d) => d.ns == v.ns && Gated(h, WorkKey(v), v.spec.cluster)
    case LookAtJob(v, d, seen) => d.ns == v.ns && Gated(h, WorkKey(v), v.spec.cluster) && JobSeen(h, v, seen)
    case ClassifyScript(v, d, seen) => d.ns == v.ns && Gated(h, WorkKey(v), v.spec.cluster) && JobSeen(h, v, seen)
    case DetailJob(v, c, seen) => JobPlace(v, c) && Gated(h, WorkKey(v), v.spec.cluster) && JobSeen(h, v, seen)
    case Act(_, todo) => CallsOk(h, todo)
    case _ => true
  }

  ghost predicate Inv(w: World) {
    && w.history != []
    && (forall j :: 0 <= j < |w.history| ==> AllOk(w.history, w.history[j]))
    && (forall i :: 0 <= i < |w.passes| ==> PassOk(w.history, w.passes[i]))
  }

  // ---- The counters ----

  lemma {:induction false} CountsOrdered(seen: Seen)
    ensures CountReady(seen) <= CountSome(seen) <= |seen|
  {
    if seen == [] {
    } else {
      CountsOrdered(seen[..|seen|-1]);
    }
  }

  lemma ObservedStatusOk(seen: Seen, reports: seq<Report>)
    requires |seen| == 5
    ensures DaskStatusOk(ObservedStatus(seen, reports))
  {
    CountsOrdered(seen[..3]);
  }

  // ---- The plans ----

  lemma JupyterOk(h: History, c: Context, absent: bool)
    ensures CallsOk(h, JupyterGroup(c, absent).calls)
  {
  }

  lemma SchedulerOk(h: History, c: Context, absent: bool)
    ensures CallsOk(h, SchedulerGroup(c, absent).calls)
  {
  }

  lemma WorkersOk(h: History, c: Context, current: Option<Obj>)
    ensures CallsOk(h, WorkerGroup(c, current).calls)
  {
  }

  lemma StageOk(h: History, stage: nat, c: Context, seen: Seen)
    requires |seen| == 5
    ensures CallsOk(h, StageGroup(stage, c, seen).calls)
  {
    match stage
    case 0 => assert CallsOk(h, ConfigGroup(c, seen[4].None?).calls);
    case 1 => JupyterOk(h, c, seen[2].None?);
    case 2 => SchedulerOk(h, c, seen[0].None?);
    case 3 => WorkersOk(h, c, seen[1]);
    case _ => assert CallsOk(h, IngressGroup(c, seen[3].None?).calls);
  }

  lemma OkThen(h: History, first: seq<Call>, second: seq<Call>)
    requires CallsOk(h, first) && CallsOk(h, second)
    ensures CallsOk(h, first + second)
  {
    var all := first + second;
    forall i | 0 <= i < |all| ensures CallOk(h, all[i], JobMadeBefore(all, i)) {
      if i < |first| {
        assert CallOk(h, first[i], JobMadeBefore(first, i));
        assert JobMadeBefore(first, i) ==> JobMadeBefore(all, i) by { StillMadeBefore(first, second, i); }
      } else {
        assert CallOk(h, second[i - |first|], JobMadeBefore(second, i - |first|));
        MadeBeforeToo(first, second, i - |first|);
      }
    }
  }

  lemma StillMadeBefore(first: seq<Call>, second: seq<Call>, i: nat)
    requires i < |first|
    ensures JobMadeBefore(first, i) ==> JobMadeBefore(first + second, i)
  {
    if JobMadeBefore(first, i) {
      var j :| 0 <= j < i && MakesJob(first[j], first[i].key);
      assert (first + second)[j] == first[j] && (first + second)[i] == first[i];
    }
  }

  lemma MadeBeforeToo(first: seq<Call>, second: seq<Call>, i: nat)
    requires i < |second|
    ensures JobMadeBefore(second, i) ==> JobMadeBefore(first + second, |first| + i)
  {
    if JobMadeBefore(second, i) {
      var j :| 0 <= j < i && MakesJob(second[j], second[i].key);
      assert (first + second)[|first| + j] == second[j] && (first + second)[|first| + i] == second[i];
    }
  }

  lemma {:induction false} PlanFromOk(h: History, stage: nat, c: Context, seen: Seen, last: Call)
    requires |seen| == 5 && stage <= 5 && CallOk(h, last, false)
    ensures CallsOk(h, PlanFrom(stage, c, seen, last))
    decreases 5 - stage
  {
    if stage == 5 {
    } else {
      var g := StageGroup(stage, c, seen);
      var rest := PlanFrom(stage + 1, g.after, seen, last);
      assert CallsOk(h, g.calls) by { StageOk(h, stage, c, seen); }
      assert CallsOk(h, rest) by { PlanFromOk(h, stage + 1, g.after, seen, last); }
      assert CallsOk(h, g.calls + rest) by { OkThen(h, g.calls, rest); }
    }
  }

  lemma JobStateOk(h: History, v: DaskJobView, seen: Seen, report: Report)
    requires |seen| == 4 && Gated(h, WorkKey(v), v.spec.cluster) && JobSeen(h, v, seen)
    ensures CallOk(h, JobStatusCall(v, seen, report), seen[0].None?)
  {
  }

  lemma JobGroupsOk(h: History, c: Context, seen: Seen)
    requires |seen| == 4
    ensures CallsOk(h, JobConfigGroup(c, seen[2].None?)) && CallsOk(h, JobGroup(c, seen))
  {
  }

  /** The status is right behind the Job, if that was to be made. */
  lemma StatusBehindJob(h: History, v: DaskJobView, c: Context, seen: Seen, report: Report)
    requires |seen| == 4 && JobPlace(v, c) && Gated(h, WorkKey(v), v.spec.cluster) && JobSeen(h, v, seen)
    ensures CallsOk(h, JobGroup(c, seen) + [JobStatusCall(v, seen, report)])
  {
    var group, last := JobGroup(c, seen), JobStatusCall(v, seen, report);
    var all := group + [last];
    JobStateOk(h, v, seen, report);
    JobGroupsOk(h, c, seen);
    if seen[0].None? {
      assert all[|group| - 1] == MakeForJob(c, JobRun) && MakesJob(all[|group| - 1], last.key);
      assert JobMadeBefore(all, |group|);
    }
    forall i | 0 <= i < |all| ensures CallOk(h, all[i], JobMadeBefore(all, i)) {
      if i < |group| {
        assert CallOk(h, group[i], JobMadeBefore(group, i)) && all[i] == group[i];
        StillMadeBefore(group, [last], i);
      }
    }
  }

  lemma JobPlanOk(h: History, v: DaskJobView, c: Context, seen: Seen, report: Report)
    requires |seen| == 4 && JobPlace(v, c) && Gated(h, WorkKey(v), v.spec.cluster) && JobSeen(h, v, seen)
    ensures CallsOk(h, JobPlan(v, c, seen, report))
  {
    StatusBehindJob(h, v, c, seen, report);
    JobGroupsOk(h, c, seen);
    OkThen(h, JobConfigGroup(c, seen[2].None?), JobGroup(c, seen) + [JobStatusCall(v, seen, report)]);
  }

  // ---- One step ----

  /** What was seen stays seen. */
  lemma SeenStays(h: History, db: Db)
    ensures var h' := h + [db];
      && (forall k, cluster :: Named(h, k, cluster) ==> Named(h', k, cluster))
      && (forall k, cluster :: Gated(h, k, cluster) ==> Gated(h', k, cluster))
      && (forall k, t :: SeenFinished(h, k, t) ==> SeenFinished(h', k, t))
      && (forall k :: SeenUnfinished(h, k) ==> SeenUnfinished(h', k))
      && (forall v, seen :: JobSeen(h, v, seen) ==> JobSeen(h', v, seen))
  {
    var h' := h + [db];
    assert forall j :: 0 <= j < |h| ==> h'[j] == h[j];
    assert forall k :: SeenRunning(h, k) ==> SeenRunning(h', k);
  }

  lemma HistoryGrows(h: History, db: Db)
    ensures forall k, b :: BodyOk(h, k, b) ==> BodyOk(h + [db], k, b)
    ensures forall p :: PassOk(h, p) ==> PassOk(h + [db], p)
  {
    var h' := h + [db];
    SeenStays(h, db);
    assert forall k, s, made :: JobStatusOkOnce(h, k, s, made) ==> JobStatusOkOnce(h', k, s, made);
    assert forall c, made :: CallOk(h, c, made) ==> CallOk(h', c, made);
  }

  lemma CommitKeeps(w: World, db: Db, e: seq<Event>)
    requires Inv(w) && AllOk(w.history, db)
    ensures Inv(Commit(w, db, e))
  {
    HistoryGrows(w.history, db);
    var w' := Commit(w, db, e);
    forall j | 0 <= j < |w'.history| ensures AllOk(w'.history, w'.history[j]) {
      assert j < |w.history| ==> w'.history[j] == w.history[j];
    }
  }

  lemma PassesKeep(w: World, passes: seq<Process>)
    requires Inv(w) && forall i :: 0 <= i < |passes| ==> PassOk(w.history, passes[i])
    ensures Inv(w.(passes := passes))
  {
  }

  lemma WriteOk(h: History, db: Db, c: Call, db': Db)
    requires Write(db, c) == Some(db') && AllOk(h, db) && CallOk(h, c, false)
    ensures AllOk(h, db')
  {
  }

  /** An answer to a read shows what some version holds. */
  ghost predicate FromHistory(h: History, c: Call, r: Resp) {
    r.Found? ==> c.Get? && exists j :: 0 <= j < |h| && c.key in h[j].objs && h[j].objs[c.key] == r.obj
  }

  lemma DaskDetailStep(h: History, v: DaskView, seen: Seen, reports: seq<Report>, r: Resp)
    ensures PassOk(h, Moved(DetailCluster(v, seen, reports), r))
  {
    if Sane(DetailCluster(v, seen, reports)) {
      var d := Detail(ClusterDetails(v)[|reports|], r, Dask);
      if d.Some? {
        ObservedStatusOk(seen, reports + [d.value]);
        PlanFromOk(h, 0, DaskContextOf(v), seen, StatusCall(v, seen, reports + [d.value]));
      }
    }
  }

  lemma JobDetailStep(h: History, v: DaskJobView, c: Context, seen: Seen, r: Resp)
    requires JobPlace(v, c) && Gated(h, WorkKey(v), v.spec.cluster) && JobSeen(h, v, seen)
    ensures PassOk(h, Moved(DetailJob(v, c, seen), r))
  {
    if Sane(DetailJob(v, c, seen)) {
      JobDetailMoves(v, c, seen, r);
      JobReportOk(h, v, c, seen, Detail(Child(JobRun, v.ns, v.name), r, DaskJob));
    }
  }

  lemma JobReportOk(h: History, v: DaskJobView, c: Context, seen: Seen, d: Option<Report>)
    requires |seen| == 4 && JobPlace(v, c) && Gated(h, WorkKey(v), v.spec.cluster) && JobSeen(h, v, seen)
    ensures PassOk(h, AfterJobDetail(v, c, seen, d))
  {
    if d.Some? {
      JobPlanOk(h, v, c, seen, d.value);
    }
  }

  lemma LookStep(h: History, v: DaskJobView, d: DaskView, seen: Seen, r: Resp)
    requires |seen| < 4 && FromHistory(h, Get(JobLooks(v)[|seen|]), r)
    requires d.ns == v.ns && Gated(h, WorkKey(v), v.spec.cluster) && JobSeen(h, v, seen)
    ensures PassOk(h, Moved(LookAtJob(v, d, seen), r))
  {
  }

  /** A Job whose creation went through has been in the store, with no condition yet. */
  ghost predicate MadeSeen(h: History, c: Call, r: Resp) {
    c.Create? && c.body.JobBody? && c.body.conditions == [] && r.Ok? ==> SeenUnfinished(h, c.key)
  }

  /** The first write of a pass needs no other before it. */
  lemma FirstOk(h: History, p: Process, c: Call)
    requires Next(p) == Some(c) && PassOk(h, p)
    ensures CallOk(h, c, false)
  {
    match p
    case Act(owner, todo) => assert !JobMadeBefore(todo, 0);
    case _ =>
  }

  lemma ActStep(h: History, owner: Key, todo: seq<Call>, r: Resp)
    requires todo != [] && CallsOk(h, todo) && MadeSeen(h, todo[0], r)
    ensures PassOk(h, Moved(Act(owner, todo), r))
  {
    if r.Ok? {
      var rest := todo[1..];
      forall i | 0 <= i < |rest| ensures CallOk(h, rest[i], JobMadeBefore(rest, i)) {
        assert CallOk(h, todo[i + 1], JobMadeBefore(todo, i + 1)) && rest[i] == todo[i + 1];
        if JobMadeBefore(todo, i + 1) {
          MadeOrSeen(h, todo, i, r);
        }
      }
    }
  }

  lemma MadeOrSeen(h: History, todo: seq<Call>, i: nat, r: Resp)
    requires i + 1 < |todo| && JobMadeBefore(todo, i + 1) && r.Ok? && MadeSeen(h, todo[0], r)
    ensures JobMadeBefore(todo[1..], i) || SeenUnfinished(h, Child(JobRun, todo[i + 1].key.ns, todo[i + 1].key.instance))
  {
    var j :| 0 <= j < i + 1 && MakesJob(todo[j], todo[i + 1].key);
    assert j > 0 ==> MakesJob(todo[1..][j - 1], todo[1..][i].key);
  }

  lemma MovedOk(h: History, p: Process, c: Call, r: Resp)
    requires Next(p) == Some(c) && PassOk(h, p) && FromHistory(h, c, r) && MadeSeen(h, c, r)
    ensures PassOk(h, Moved(p, r))
  {
    match p
    case Act(owner, todo) => ActStep(h, owner, todo, r);
    case DetailCluster(v, seen, reports) => DaskDetailStep(h, v, seen, reports, r);
    case DetailJob(v, c, seen) => JobDetailStep(h, v, c, seen, r);
    case LookAtJob(v, d, seen) => LookStep(h, v, d, seen, r);
    case _ =>
  }

  lemma AdvanceKeeps(w: World, i: nat, c: Call, a: Answer)
    requires Inv(w) && i < |w.passes| && Next(w.passes[i]) == Some(c)
    ensures Inv(AdvancePass(w, i, c, a))
  {
    var o := Perform(w, c, a);
    FirstOk(w.history, w.passes[i], c);
    var w1 := if o.db.Some? then Commit(w, o.db.value, [EventOf(c)]) else w;
    if o.db.Some? {
      WriteOk(w.history, Now(w), c, o.db.value);
      CommitKeeps(w, o.db.value, [EventOf(c)]);
    }
    AnswerSeen(w, c, a);
    MovedOk(w1.history, w.passes[i], c, o.resp);
    PassesKeep(w1, w1.passes[i := Moved(w.passes[i], o.resp)]);
  }

  /** What a call is answered shows what the store holds, or held. */
  lemma AnswerSeen(w: World, c: Call, a: Answer)
    requires w.history != []
    ensures var o := Perform(w, c, a); var h := if o.db.Some? then w.history + [o.db.value] else w.history;
      FromHistory(h, c, o.resp) && MadeSeen(h, c, o.resp)
  {
    var o := Perform(w, c, a);
    if o.db.Some? {
      var h := w.history + [o.db.value];
      assert h[|w.history|] == o.db.value;
    }
  }

  lemma SubmitKeeps(w: World, k: Key, b: Body)
    requires Inv(w)
    ensures Inv(Apply(w, Submit(k, b)))
  {
    if k !in Now(w).objs && Submittable(k, b) {
      assert AllOk(w.history, Now(w));
      CommitKeeps(w, Put(Now(w), k, None, b), []);
    }
  }

  lemma EditKeeps(w: World, k: Key, change: Change)
    requires Inv(w)
    ensures Inv(Apply(w, Edit(k, change)))
  {
    if k in Now(w).objs {
      assert AllOk(w.history, Now(w));
      CommitKeeps(w, Put(Now(w), k, Now(w).objs[k].owner, Changed(Now(w).objs[k].body, change)), []);
    }
  }

  lemma FewerOk(h: History, db: Db, k: Key, rev: nat)
    requires AllOk(h, db)
    ensures AllOk(h, Db(db.objs - {k}, rev))
  {
  }

  lemma DeletedKeeps(w: World, k: Key)
    requires Inv(w)
    ensures Inv(Commit(w, Db(Now(w).objs - {k}, Now(w).rev + 1), [Deleted(k)]))
  {
    assert AllOk(w.history, Now(w));
    FewerOk(w.history, Now(w), k, Now(w).rev + 1);
    CommitKeeps(w, Db(Now(w).objs - {k}, Now(w).rev + 1), [Deleted(k)]);
  }

  lemma DeleteKeeps(w: World, k: Key)
    requires Inv(w)
    ensures Inv(Apply(w, Delete(k)))
  {
    if k in Now(w).objs {
      DeletedKeeps(w, k);
      assert Apply(w, Delete(k)) == Commit(w, Db(Now(w).objs - {k}, Now(w).rev + 1), [Deleted(k)]);
    } else {
      assert Apply(w, Delete(k)) == w;
    }
  }

  lemma StartKeeps(w: World, p: Process)
    requires Inv(w) && (p.FetchDask? || p.FetchJob?)
    ensures Inv(w.(passes := w.passes + [p]))
  {
  }

  lemma CrashKeeps(w: World, i: nat)
    requires Inv(w)
    ensures Inv(Apply(w, Crash(i)))
  {
  }

  lemma PassStepKeeps(w: World, i: nat, a: Answer)
    requires Inv(w)
    ensures Inv(Apply(w, Advance(i, a)))
  {
    if i < |w.passes| && Next(w.passes[i]).Some? {
      AdvanceKeeps(w, i, Next(w.passes[i]).value, a);
    }
  }

  lemma StepKeeps(w: World, s: Step)
    requires Inv(w)
    ensures Inv(Apply(w, s))
  {
    match s
    case Submit(k, b) => SubmitKeeps(w, k, b);
    case Edit(k, change) => EditKeeps(w, k, change);
    case StartDask(ns, name) => StartKeeps(w, FetchDask(ns, name));
    case StartJob(ns, name) => StartKeeps(w, FetchJob(ns, name));
    case Advance(i, a) => PassStepKeeps(w, i, a);
    case Crash(i) => CrashKeeps(w, i);
    case Delete(k) => DeleteKeeps(w, k);
  }

  lemma {:induction false} RunKeeps(steps: seq<Step>)
    ensures Inv(Run(steps))
  {
    if steps == [] {
    } else {
      RunKeeps(steps[..|steps|-1]);
      StepKeeps(Run(steps[..|steps|-1]), steps[|steps|-1]);
    }
  }

  // ---- The results ----

  /** Over all runs, every status a Dask resource ever carries counts at most three Deployments, and
      its state is what the counts say: never an error text. */
  lemma DaskStatusesAreObserved(steps: seq<Step>, j: nat, k: Key)
    requires j < |Run(steps).history| && k in Run(steps).history[j].objs && Run(steps).history[j].objs[k].body.ClusterBody?
    ensures DaskStatusOk(Run(steps).history[j].objs[k].body.status)
  {
    RunKeeps(steps);
    assert AllOk(Run(steps).history, Run(steps).history[j]);
  }

  /** Over all runs, every status a DaskJob ever carries is still fresh, says it waits for a cluster
      it has named, or, with that cluster seen Running before, says Running with its Job seen unfinished,
      or how its Job has finished: never Building, and never an error text. */
  lemma JobStatusesAreObserved(steps: seq<Step>, j: nat, k: Key)
    requires j < |Run(steps).history| && k in Run(steps).history[j].objs && Run(steps).history[j].objs[k].body.WorkBody?
    ensures JobStatusOk(Run(steps).history, k, Run(steps).history[j].objs[k].body.progress)
  {
    RunKeeps(steps);
    assert AllOk(Run(steps).history, Run(steps).history[j]);
  }

  /** The types a finished DaskJob's state can name. */
  lemma OnlyCompleteOrFailed(h: History, job: Key, t: ConditionType)
    requires SeenFinished(h, job, t)
    ensures t == Complete || t == Failed
  {
  }
}
