/** Children are written once: after its creation nothing the operator does changes a child, except
    that a worker Deployment's replica count follows the spec. Versions make this work: an update
    only goes through against the very object a pass has looked at. */
module WriteOnce {
  import opened Options
  import opened Names
  import opened Contexts
  import opened Objects
  import opened Models
  import opened Api
  import opened Processes
  import opened Plans
  import opened Operator

  /** An object without what others report on it, and without a worker Deployment's replicas. */
  function Fixed(k: Key, b: Body): Body {
    match b
    case DeploymentBody(replicas, pod, _) =>
      DeploymentBody(if k.Child? && k.role == WorkerDeployment then 0 else replicas, pod, UNREADY)
    case JobBody(pod, scriptType, _) => JobBody(pod, scriptType, [])
    case IngressBody(rules, _) => IngressBody(rules, "")
    case ClusterBody(spec, _) => ClusterBody(spec, FRESH_DASK)
    case WorkBody(job, _) => WorkBody(job, FRESH_JOB)
    case _ => b
  }

  /** Two objects that only differ in what others report and in a worker Deployment's replicas. */
  predicate SameButObserved(k: Key, a: Obj, b: Obj) {
    a.owner == b.owner && Fixed(k, a.body) == Fixed(k, b.body)
  }

  // ---- One version, one object ----

  ghost predicate Versioned(w: World, k: Key) {
    && w.history != []
    && (forall j :: 0 <= j < |w.history| && k in w.history[j].objs ==> w.history[j].objs[k].rv <= Now(w).rev)
    && (forall i, j :: 0 <= i < |w.history| && 0 <= j < |w.history| && k in w.history[i].objs && k in w.history[j].objs
                       && w.history[i].objs[k].rv == w.history[j].objs[k].rv
                       ==> w.history[i].objs[k] == w.history[j].objs[k])
  }

  /** Whatever version of the store holds k in o's version holds o. */
  ghost predicate Knows(w: World, k: Key, o: Obj)
    requires w.history != []
  {
    && o.rv <= Now(w).rev
    && forall j :: 0 <= j < |w.history| && k in w.history[j].objs && w.history[j].objs[k].rv == o.rv ==> w.history[j].objs[k] == o
  }

  /** An update of k rescales the object it was made from. */
  predicate RescaleOf(k: Key, o: Obj, c: Call) {
    && c.Update? && c.key == k && c.rv == o.rv
    && k.Child? && k.role == WorkerDeployment
    && o.body.DeploymentBody? && c.body.DeploymentBody?
    && c.body == o.body.(replicas := c.body.replicas)
  }

  ghost predicate UpdateKnown(w: World, c: Call)
    requires w.history != []
  {
    c.Update? ==> exists o :: Knows(w, c.key, o) && RescaleOf(c.key, o, c)
  }

  ghost predicate PassKnows(w: World, k: Key, p: Process)
    requires w.history != []
  {
    match p
    case LookAtCluster(v, seen) => LooksKnown(w, k, v, seen)
    case DetailCluster(v, seen, _) => LooksKnown(w, k, v, seen)
    case Act(_, todo) => forall i :: 0 <= i < |todo| && todo[i].Update? && todo[i].key == k ==> UpdateKnown(w, todo[i])
    case _ => true
  }

  ghost predicate LooksKnown(w: World, k: Key, v: DaskView, seen: Seen)
    requires w.history != []
  {
    |seen| >= 2 && seen[1].Some? && k == ClusterLooks(v)[1] ==> Knows(w, k, seen[1].value)
  }

  ghost predicate Inv(w: World, k: Key) {
    && Versioned(w, k)
    && forall i :: 0 <= i < |w.passes| ==> PassKnows(w, k, w.passes[i])
  }

  // ---- The only update a plan holds ----

  predicate OnlyRescales(v: DaskView, seen: Seen, calls: seq<Call>) {
    forall i :: 0 <= i < |calls| && calls[i].Update? ==>
      |seen| >= 2 && seen[1].Some? && RescaleOf(ClusterLooks(v)[1], seen[1].value, calls[i])
  }

  lemma StageOnlyRescales(stage: nat, c: Context, seen: Seen, v: DaskView)
    requires |seen| == 5 && c.ns == v.ns && c.name == v.name
    ensures OnlyRescales(v, seen, StageGroup(stage, c, seen).calls)
  {
  }

  lemma OnlyRescalesThen(v: DaskView, seen: Seen, first: seq<Call>, second: seq<Call>)
    requires OnlyRescales(v, seen, first) && OnlyRescales(v, seen, second)
    ensures OnlyRescales(v, seen, first + second)
  {
  }

  lemma {:induction false} PlanOnlyRescales(stage: nat, c: Context, seen: Seen, v: DaskView, last: Call)
    requires |seen| == 5 && stage <= 5 && c.ns == v.ns && c.name == v.name && !last.Update?
    ensures OnlyRescales(v, seen, PlanFrom(stage, c, seen, last))
    decreases 5 - stage
  {
    if stage == 5 {
    } else {
      var g := StageGroup(stage, c, seen);
      StageOnlyRescales(stage, c, seen, v);
      StageKeepsPlace(stage, c, seen);
      PlanOnlyRescales(stage + 1, g.after, seen, v, last);
      OnlyRescalesThen(v, seen, g.calls, PlanFrom(stage + 1, g.after, seen, last));
    }
  }

  lemma JobPlanHasNoUpdate(v: DaskJobView, c: Context, seen: Seen, report: Report)
    requires |seen| == 4
    ensures forall i :: 0 <= i < |JobPlan(v, c, seen, report)| ==> !JobPlan(v, c, seen, report)[i].Update?
  {
  }

  // ---- Versions stay what they are ----

  /** A new version of the store holds k as it was, in a new version, or not at all. */
  predicate NewVersion(db: Db, db': Db, k: Key) {
    && db'.rev > db.rev
    && (k in db'.objs ==> (k in db.objs && db'.objs[k] == db.objs[k]) || db'.objs[k].rv == db'.rev)
  }

  lemma PassKnowsOn(w: World, w': World, k: Key, p: Process)
    requires w.history != [] && w'.history != [] && PassKnows(w, k, p)
    requires forall o :: Knows(w, k, o) ==> Knows(w', k, o)
    ensures PassKnows(w', k, p)
  {
  }

  lemma KnowsOn(w: World, db: Db, e: seq<Event>, k: Key, o: Obj)
    requires w.history != [] && NewVersion(Now(w), db, k) && Knows(w, k, o)
    ensures Knows(Commit(w, db, e), k, o)
  {
  }

  lemma VersionedOn(w: World, db: Db, e: seq<Event>, k: Key)
    requires Versioned(w, k) && NewVersion(Now(w), db, k)
    ensures Versioned(Commit(w, db, e), k)
  {
  }

  lemma CommitKeeps(w: World, db: Db, e: seq<Event>, k: Key)
    requires Inv(w, k) && NewVersion(Now(w), db, k)
    ensures Inv(Commit(w, db, e), k)
  {
    VersionedOn(w, db, e, k);
    forall o | Knows(w, k, o) ensures Knows(Commit(w, db, e), k, o) {
      KnowsOn(w, db, e, k, o);
    }
    forall i | 0 <= i < |w.passes| ensures PassKnows(Commit(w, db, e), k, w.passes[i]) {
      PassKnowsOn(w, Commit(w, db, e), k, w.passes[i]);
    }
  }

  lemma ReportKnows(w: World, k: Key, v: DaskView, seen: Seen, reports: seq<Report>, d: Option<Report>)
    requires w.history != [] && LooksKnown(w, k, v, seen) && |seen| == 5
    ensures PassKnows(w, k, AfterDetail(v, seen, reports, d))
  {
    if d.Some? {
      PlanOnlyRescales(0, DaskContextOf(v), seen, v, StatusCall(v, seen, reports + [d.value]));
    }
  }

  lemma DaskPlanKnows(w: World, k: Key, v: DaskView, seen: Seen, reports: seq<Report>, r: Resp)
    requires w.history != [] && LooksKnown(w, k, v, seen)
    ensures PassKnows(w, k, Moved(DetailCluster(v, seen, reports), r))
  {
    if Sane(DetailCluster(v, seen, reports)) {
      DetailMoves(v, seen, reports, r);
      ReportKnows(w, k, v, seen, reports, Detail(ClusterDetails(v)[|reports|], r, Dask));
    }
  }

  lemma JobPlanKnows(w: World, k: Key, v: DaskJobView, c: Context, seen: Seen, r: Resp)
    requires w.history != []
    ensures PassKnows(w, k, Moved(DetailJob(v, c, seen), r))
  {
    if Sane(DetailJob(v, c, seen)) {
      var d := Detail(Child(JobRun, v.ns, v.name), r, DaskJob);
      if d.Some? {
        JobPlanHasNoUpdate(v, c, seen, d.value);
      }
    }
  }

  lemma MovedKnows(w: World, k: Key, p: Process, c: Call, r: Resp)
    requires w.history != [] && Next(p) == Some(c) && PassKnows(w, k, p)
    requires r.Found? && c == Get(k) ==> Knows(w, k, r.obj)
    ensures PassKnows(w, k, Moved(p, r))
  {
    match p
    case DetailCluster(v, seen, reports) => DaskPlanKnows(w, k, v, seen, reports, r);
    case DetailJob(v, ctx, seen) => JobPlanKnows(w, k, v, ctx, seen, r);
    case Act(_, todo) =>
      assert forall i :: 0 <= i < |todo[1..]| ==> todo[1..][i] == todo[i+1];
    case _ =>
  }

  lemma WriteIsNewVersion(db: Db, c: Call, db': Db, k: Key)
    requires Write(db, c) == Some(db')
    ensures NewVersion(db, db', k)
  {
  }

  lemma AnswerKnown(w: World, k: Key, c: Call, a: Answer)
    requires Versioned(w, k) && c == Get(k) && Perform(w, c, a).resp.Found?
    ensures Knows(w, k, Perform(w, c, a).resp.obj)
  {
  }

  lemma PassesKeep(w: World, passes: seq<Process>, k: Key)
    requires Inv(w, k)
    requires forall i :: 0 <= i < |passes| ==> PassKnows(w, k, passes[i])
    ensures Inv(w.(passes := passes), k)
  {
  }

  lemma AdvanceKeeps(w: World, i: nat, c: Call, a: Answer, k: Key)
    requires Inv(w, k) && i < |w.passes| && Next(w.passes[i]) == Some(c)
    ensures Inv(AdvancePass(w, i, c, a), k)
  {
    var o := Perform(w, c, a);
    if c == Get(k) && o.resp.Found? {
      AnswerKnown(w, k, c, a);
    }
    MovedKnows(w, k, w.passes[i], c, o.resp);
    var passes := w.passes[i := Moved(w.passes[i], o.resp)];
    PassesKeep(w, passes, k);
    if o.db.Some? {
      WriteIsNewVersion(Now(w), c, o.db.value, k);
      CommitKeeps(w.(passes := passes), o.db.value, [EventOf(c)], k);
    }
  }

  lemma StepKeeps(w: World, s: Step, k: Key)
    requires Inv(w, k)
    ensures Inv(Apply(w, s), k)
  {
    match s
    case Submit(k', b) =>
      if k' !in Now(w).objs && Submittable(k', b) { CommitKeeps(w, Put(Now(w), k', None, b), [], k); }
    case Edit(k', change) =>
      if k' in Now(w).objs {
        CommitKeeps(w, Put(Now(w), k', Now(w).objs[k'].owner, Changed(Now(w).objs[k'].body, change)), [], k);
      }
    case StartDask(ns, name) => PassesKeep(w, w.passes + [FetchDask(ns, name)], k);
    case StartJob(ns, name) => PassesKeep(w, w.passes + [FetchJob(ns, name)], k);
    case Advance(i, a) =>
      if i < |w.passes| && Next(w.passes[i]).Some? { AdvanceKeeps(w, i, Next(w.passes[i]).value, a, k); }
    case Crash(i) => if i < |w.passes| { PassesKeep(w, w.passes[i := Done(false)], k); }
    case Delete(k') =>
      if k' in Now(w).objs { CommitKeeps(w, Db(Now(w).objs - {k'}, Now(w).rev + 1), [Deleted(k')], k); }
  }

  lemma {:induction false} RunKeeps(steps: seq<Step>, k: Key)
    ensures Inv(Run(steps), k)
  {
    if steps != [] {
      RunKeeps(steps[..|steps|-1], k);
      StepKeeps(Run(steps[..|steps|-1]), steps[|steps|-1], k);
    } else {
      assert Run(steps) == EMPTY;
    }
  }

  // ---- What a write can change ----

  lemma UpdateKeepsFixed(w: World, c: Call, db: Db, k: Key)
    requires w.history != [] && UpdateKnown(w, c) && c.Update? && c.key == k && Write(Now(w), c) == Some(db)
    ensures k in db.objs && SameButObserved(k, Now(w).objs[k], db.objs[k])
  {
  }

  lemma OtherWritesKeepFixed(db: Db, c: Call, db': Db, k: Key)
    requires Write(db, c) == Some(db') && k in db.objs && !(c.Update? && c.key == k)
    ensures k in db'.objs && SameButObserved(k, db.objs[k], db'.objs[k])
  {
  }

  lemma KnownUpdate(w: World, p: Process, c: Call)
    requires w.history != [] && Next(p) == Some(c) && c.Update? && PassKnows(w, c.key, p)
    ensures UpdateKnown(w, c)
  {
  }

  /** A custom resource: its spec belongs to its user. */
  predicate IsCustom(b: Body) {
    b.ClusterBody? || b.WorkBody?
  }

  lemma AdvanceKeepsFixed(w: World, i: nat, c: Call, a: Answer, k: Key)
    requires Inv(w, k) && i < |w.passes| && Next(w.passes[i]) == Some(c) && k in Now(w).objs
    ensures var db := Now(AdvancePass(w, i, c, a));
      k in db.objs && SameButObserved(k, Now(w).objs[k], db.objs[k])
  {
    var o := Perform(w, c, a);
    if o.db.Some? {
      assert Write(Now(w), c) == o.db;
      if c.Update? && c.key == k {
        assert PassKnows(w, c.key, w.passes[i]);
        KnownUpdate(w, w.passes[i], c);
        UpdateKeepsFixed(w, c, o.db.value, k);
      } else {
        OtherWritesKeepFixed(Now(w), c, o.db.value, k);
      }
    }
  }

  lemma StepKeepsFixed(w: World, s: Step, k: Key)
    requires Inv(w, k) && !s.Delete? && k in Now(w).objs && !IsCustom(Now(w).objs[k].body)
    ensures k in Now(Apply(w, s)).objs && SameButObserved(k, Now(w).objs[k], Now(Apply(w, s)).objs[k])
  {
    if s.Advance? && s.pass < |w.passes| && Next(w.passes[s.pass]).Some? {
      AdvanceKeepsFixed(w, s.pass, Next(w.passes[s.pass]).value, s.answer, k);
    }
  }

  ghost predicate NothingLost(w: World, k: Key)
    requires w.history != []
  {
    forall j :: 0 <= j < |w.history| && k in w.history[j].objs && !IsCustom(w.history[j].objs[k].body) ==>
      k in Now(w).objs && SameButObserved(k, w.history[j].objs[k], Now(w).objs[k])
  }

  lemma StepLosesNothing(w: World, s: Step, k: Key)
    requires Inv(w, k) && !s.Delete? && NothingLost(w, k)
    ensures NothingLost(Apply(w, s), k)
  {
    var w' := Apply(w, s);
    if k in Now(w).objs && !IsCustom(Now(w).objs[k].body) {
      StepKeepsFixed(w, s, k);
    }
    forall j | 0 <= j < |w'.history| && k in w'.history[j].objs && !IsCustom(w'.history[j].objs[k].body)
      ensures k in Now(w').objs && SameButObserved(k, w'.history[j].objs[k], Now(w').objs[k])
    {
      if j < |w.history| {
        assert w'.history[j] == w.history[j];
      }
    }
  }

  /** In every run without deletions a child, once created, stays: with the same owner and the same
      content, up to what other controllers report on it and a worker Deployment's replica count. */
  lemma {:induction false} ChildrenAreWrittenOnce(steps: seq<Step>, k: Key)
    requires NoDeletions(steps)
    ensures NothingLost(Run(steps), k)
  {
    if steps == [] {
    } else {
      ChildrenAreWrittenOnce(steps[..|steps|-1], k);
      RunKeeps(steps[..|steps|-1], k);
      StepLosesNothing(Run(steps[..|steps|-1]), steps[|steps|-1], k);
    }
  }
}
