/** How a DaskJob gets stranded: a run of the operator, call by call, that ends with its ServiceAccount
    there, its Job never created, and no pass left to create it. */
module Stranding {
  import opened Options
  import opened Names
  import opened Specs
  import opened Contexts
  import opened Objects
  import opened Api
  import opened Processes
  import opened Plans
  import opened Operator
  import opened Solo
  import opened Groups
  import opened Recovery
  import opened Convergence
  import opened JobRecovery
  import L = Ledger
  import W = BoundedWork

  // ---- A pass alone is a run ----

  /** The answer to a call in which every read is fresh and nothing fails. */
  function FreshAnswer(w: World, script: Option<ScriptData>, c: Call): Answer
    requires w.history != []
  {
    match c
    case Get(_) => ReadAt(|w.history| - 1)
    case CheckScript(_) => if script.Some? then ScriptIs(script.value) else Answer.Fail
    case _ => Take
  }

  lemma FreshIsAnswered(w: World, script: Option<ScriptData>, c: Call)
    requires w.history != []
    ensures var o := Perform(w, c, FreshAnswer(w, script, c)); var a := Answered(Now(w), script, c);
      o.resp == a.1 && (if o.db.Some? then o.db.value else Now(w)) == a.0
  {
  }

  /** Where the world stands for a pass. */
  function PointOf(w: World, i: nat): Point
    requires w.history != [] && i < |w.passes|
  {
    Point(Now(w), w.passes[i])
  }

  lemma AdvanceIsStep(w: World, i: nat, script: Option<ScriptData>, c: Call)
    requires w.history != [] && i < |w.passes| && Next(w.passes[i]) == Some(c)
    ensures var w' := Apply(w, Advance(i, FreshAnswer(w, script, c)));
      && w'.passes == w.passes[i := NextPoint(script, PointOf(w, i)).pass]
      && Now(w') == NextPoint(script, PointOf(w, i)).db
  {
    FreshIsAnswered(w, script, c);
  }

  // ---- Going on from a world ----

  function RunFrom(w: World, steps: seq<Step>): (w': World)
    requires w.history != []
    ensures w'.history != []
    decreases |steps|
  {
    if steps == [] then w else RunFrom(Apply(w, steps[0]), steps[1..])
  }

  lemma RunFromFirst(w: World, s: Step, rest: seq<Step>)
    requires w.history != []
    ensures RunFrom(w, [s] + rest) == RunFrom(Apply(w, s), rest)
  {
    assert ([s] + rest)[1..] == rest;
  }

  lemma RunLast(steps: seq<Step>, s: Step)
    ensures Run(steps + [s]) == Apply(Run(steps), s)
  {
    assert (steps + [s])[..|steps|] == steps;
  }

  lemma {:induction false} RunIsRunFrom(steps: seq<Step>, more: seq<Step>)
    ensures Run(steps + more) == RunFrom(Run(steps), more)
    decreases |more|
  {
    if more == [] {
      assert steps + more == steps;
    } else {
      var s, rest := more[0], more[1..];
      assert steps + more == steps + [s] + rest && more == [s] + rest;
      RunIsRunFrom(steps + [s], rest);
      RunLast(steps, s);
      RunFromFirst(Run(steps), s, rest);
    }
  }

  /** A world in which pass i, and no other, has got to that point. */
  predicate At(w: World, passes: seq<Process>, i: nat, y: Point) {
    w.history != [] && i < |passes| && w.passes == passes[i := y.pass] && Now(w) == y.db
  }

  lemma StepFrom(w: World, i: nat, script: Option<ScriptData>) returns (s: Step, w': World)
    requires w.history != [] && i < |w.passes| && Next(w.passes[i]).Some?
    ensures !s.Delete? && At(w', w.passes, i, NextPoint(script, PointOf(w, i)))
    ensures forall rest :: RunFrom(w, [s] + rest) == RunFrom(w', rest)
  {
    var c := Next(w.passes[i]).value;
    s := Advance(i, FreshAnswer(w, script, c));
    w' := Apply(w, s);
    AdvanceIsStep(w, i, script, c);
    forall rest ensures RunFrom(w, [s] + rest) == RunFrom(w', rest) {
      RunFromFirst(w, s, rest);
    }
  }

  lemma AtAgain(passes: seq<Process>, i: nat, x: Point, w: World, w': World, y: Point)
    requires At(w, passes, i, x) && At(w', w.passes, i, y)
    ensures At(w', passes, i, y)
  {
    assert passes[i := x.pass][i := y.pass] == passes[i := y.pass];
  }

  lemma StaysPut(script: Option<ScriptData>, x: Point, k: nat)
    requires Next(x.pass).None? && k > 0
    ensures Stepped(k, script, x) == Stepped(k - 1, script, x)
  {
  }

  /** The steps that take a pass from where it stands to a point it leads to. */
  lemma {:induction false} FollowsFrom(w: World, i: nat, k: nat, script: Option<ScriptData>) returns (more: seq<Step>)
    requires w.history != [] && i < |w.passes|
    ensures NoDeletions(more) && At(RunFrom(w, more), w.passes, i, Stepped(k, script, PointOf(w, i)))
    decreases k
  {
    if k == 0 {
      more := [];
      assert w.passes[i := w.passes[i]] == w.passes;
    } else if Next(w.passes[i]).None? {
      StaysPut(script, PointOf(w, i), k);
      more := FollowsFrom(w, i, k - 1, script);
    } else {
      var s, w' := StepFrom(w, i, script);
      var rest := FollowsFrom(w', i, k - 1, script);
      more := [s] + rest;
      AtAgain(w.passes, i, NextPoint(script, PointOf(w, i)), w', RunFrom(w', rest), Stepped(k - 1, script, PointOf(w', i)));
    }
  }

  lemma RunLeads(steps: seq<Step>, i: nat, script: Option<ScriptData>, y: Point) returns (more: seq<Step>)
    requires i < |Run(steps).passes| && Leads(script, PointOf(Run(steps), i), y)
    ensures NoDeletions(more) && At(Run(steps + more), Run(steps).passes, i, y)
  {
    var k: nat :| Stepped(k, script, PointOf(Run(steps), i)) == y;
    more := FollowsFrom(Run(steps), i, k, script);
    RunIsRunFrom(steps, more);
  }

  // ---- The run ----

  function Submitted(db: Db, k: Key, b: Body): Db {
    Put(db, k, None, b)
  }

  lemma SubmitNow(w: World, k: Key, b: Body)
    requires w.history != [] && Submittable(k, b) && k !in Now(w).objs
    ensures var w' := Apply(w, Submit(k, b)); Now(w') == Submitted(Now(w), k, b) && w'.passes == w.passes
  {
  }

  predicate Starts(start: Step, k: Key, p: Process) {
    || (start == StartDask(k.ns, k.instance) && p == FetchDask(k.ns, k.instance))
    || (start == StartJob(k.ns, k.instance) && p == FetchJob(k.ns, k.instance))
  }

  lemma StartNow(w: World, k: Key, start: Step, p: Process)
    requires w.history != [] && Starts(start, k, p)
    ensures Now(Apply(w, start)) == Now(w) && Apply(w, start).passes == w.passes + [p]
  {
  }

  lemma CrashNow(w: World, i: nat)
    requires w.history != [] && i < |w.passes|
    ensures Now(Apply(w, Crash(i))) == Now(w) && Apply(w, Crash(i)).passes == w.passes[i := Done(false)]
  {
  }

  /** A resource is submitted and a pass for it is started. */
  lemma SubmitAndStart(steps: seq<Step>, k: Key, b: Body, start: Step, p: Process) returns (more: seq<Step>)
    requires Submittable(k, b) && k !in Now(Run(steps)).objs && Starts(start, k, p)
    ensures NoDeletions(more) && Now(Run(steps + more)) == Submitted(Now(Run(steps)), k, b)
    ensures Run(steps + more).passes == Run(steps).passes + [p]
  {
    var submit := Submit(k, b);
    more := [submit, start];
    SubmitNow(Run(steps), k, b);
    RunLast(steps, submit);
    StartNow(Run(steps + [submit]), k, start, p);
    RunLast(steps + [submit], start);
    assert steps + more == steps + [submit] + [start];
  }

  predicate OfSomeJob(k: Key) {
    k.Work? || (k.Child? && OfJob(k.role))
  }

  ghost predicate NoJobs(db: Db) {
    forall k: Key :: OfSomeJob(k) ==> k !in db.objs
  }

  /** One pass over a cluster that nothing has been made of yet: it makes the cluster, says Running, and
      leaves what belongs to others alone. */
  lemma FirstPass(ns: string, cluster: string, spec: DaskSpec)
    requires RulesFit(spec)
    ensures var db := Submitted(Db(map[], 0), Cluster(ns, cluster), ClusterBody(spec, FRESH_DASK));
      var o := DaskPass(db, ns, cluster);
      && IsDask(db, ns, cluster) && o.ok && IsDask(o.db, ns, cluster)
      && o.db.objs[Cluster(ns, cluster)].body.status.state == Running
      && NoJobs(o.db)
      && Leads(None, Point(db, FetchDask(ns, cluster)), Point(o.db, Done(true)))
  {
    var db := Submitted(Db(map[], 0), Cluster(ns, cluster), ClusterBody(spec, FRESH_DASK));
    NothingThere(db, ns, cluster);
    OnePassConverges(db, ns, cluster);
    RunningBeforeAnythingRuns(db, ns, cluster);
    MakesNoJobs(db, ns, cluster);
    PassLeads(None, db, ns, cluster);
    PassAlone(db, ns, cluster);
  }

  /** A Dask pass makes nothing that belongs to a DaskJob. */
  lemma MakesNoJobs(db: Db, ns: string, n: string)
    requires IsDask(db, ns, n) && DetailsOk(db, ViewIn(db, ns, n)) && NoJobs(db)
    ensures NoJobs(DaskPass(db, ns, n).db)
  {
    var c := ContextIn(db, ns, n);
    forall k: Key | OfSomeJob(k) ensures k !in DaskPass(db, ns, n).db.objs {
      assert !FromStage(0, c, k);
      OthersUntouched(db, ns, n, k);
    }
  }

  /** A DaskJob pass on a Running cluster, up to the point between the ServiceAccount and the Job. */
  lemma HalfWay(db: Db, ns: string, n: string, data: ScriptData) returns (db': Db, todo: seq<Call>)
    requires IsJob(db, ns, n) && ClusterRuns(db, JobViewIn(db, ns, n))
    requires forall r :: OfJob(r) ==> Child(r, ns, n) !in db.objs
    ensures Leads(Some(data), Point(db, FetchJob(ns, n)), Point(db', Act(Work(ns, n), todo)))
    ensures Child(JobAccount, ns, n) in db'.objs && Child(JobRun, ns, n) !in db'.objs
  {
    var v := JobViewIn(db, ns, n);
    var d := ViewIn(db, ns, v.spec.cluster);
    var c, seen := JobContextOf(v, d, data), JobSeenIn(db, v);
    assert JobDetail(db, v) == Some(NothingFound);
    var calls, last := Creations(c, seen), JobStatusCall(v, seen, NothingFound);
    var made := |calls| - 1;
    db' := MostCreated(db, v, c);
    todo := [calls[made], last];
    PlanIs(v, c, seen, NothingFound);
    assert calls + [last] == calls[..made] + todo;
    JobReads(Some(data), db, ns, n);
    JobPlanOwned(v, c, seen, NothingFound);
    WritesLead(Some(data), db, Work(ns, n), calls[..made], todo);
    LeadsOn(Some(data), Point(db, FetchJob(ns, n)), Point(db, Acting(Work(ns, n), calls + [last])), Point(db', Act(Work(ns, n), todo)));
  }

  lemma MostCreated(db: Db, v: DaskJobView, c: Context) returns (db': Db)
    requires JobPlace(v, c) && c.job.report == v.spec.report
    requires forall r :: OfJob(r) ==> Child(r, v.ns, v.name) !in db.objs
    ensures var calls := Creations(c, JobSeenIn(db, v));
      |calls| > 0 && Execute(db, calls[..|calls|-1]) == Solo.Outcome.Outcome(db', true)
    ensures Child(JobAccount, v.ns, v.name) in db'.objs && Child(JobRun, v.ns, v.name) !in db'.objs
  {
    var seen, keys := JobSeenIn(db, v), ToCreateIn(db, v);
    var calls := Creations(c, seen);
    SeenIsNoted(db, v);
    CreationsAre(v, c, seen);
    ToCreateDiffers(v, false, false, false);
    var made := |calls| - 1;
    assert keys[made] == Child(JobRun, v.ns, v.name) && keys[..made][made - 1] == Child(JobAccount, v.ns, v.name);
    EachCreated(db, calls[..made], keys[..made]);
    db' := Execute(db, calls[..made]).db;
    assert MadeForAJob(db', keys[made - 1]);
    assert SameAt(db, db', keys[made]);
  }

  ghost predicate Prepared(w: World, ns: string, cluster: string)
    requires w.history != []
  {
    && w.passes == [Done(true)] && IsDask(Now(w), ns, cluster) && NoJobs(Now(w))
    && Now(w).objs[Cluster(ns, cluster)].body.status.state == Running
  }

  lemma ClusterStarts(ns: string, cluster: string, spec: DaskSpec) returns (steps: seq<Step>)
    requires RulesFit(spec)
    ensures NoDeletions(steps) && Prepared(Run(steps), ns, cluster)
  {
    assert Run([]) == EMPTY;
    var db := Submitted(Db(map[], 0), Cluster(ns, cluster), ClusterBody(spec, FRESH_DASK));
    var first := SubmitAndStart([], Cluster(ns, cluster), ClusterBody(spec, FRESH_DASK), StartDask(ns, cluster), FetchDask(ns, cluster));
    assert [] + first == first;
    FirstPass(ns, cluster, spec);
    var more := RunLeads(first, 0, None, Point(DaskPass(db, ns, cluster).db, Done(true)));
    steps := first + more;
  }

  lemma JobStarts(before: seq<Step>, ns: string, n: string, job: DaskJobSpec) returns (steps: seq<Step>)
    requires NoDeletions(before) && Prepared(Run(before), ns, job.cluster)
    ensures NoDeletions(steps) && Run(steps).passes == [Done(true), FetchJob(ns, n)]
    ensures IsJob(Now(Run(steps)), ns, n) && ClusterRuns(Now(Run(steps)), JobViewIn(Now(Run(steps)), ns, n))
    ensures forall r :: OfJob(r) ==> Child(r, ns, n) !in Now(Run(steps)).objs
  {
    var more := SubmitAndStart(before, Work(ns, n), WorkBody(job, FRESH_JOB), StartJob(ns, n), FetchJob(ns, n));
    steps := before + more;
  }

  lemma JobStops(before: seq<Step>, ns: string, n: string, data: ScriptData) returns (steps: seq<Step>)
    requires NoDeletions(before) && Run(before).passes == [Done(true), FetchJob(ns, n)]
    requires IsJob(Now(Run(before)), ns, n) && ClusterRuns(Now(Run(before)), JobViewIn(Now(Run(before)), ns, n))
    requires forall r :: OfJob(r) ==> Child(r, ns, n) !in Now(Run(before)).objs
    ensures NoDeletions(steps) && Run(steps).passes == [Done(true), Done(false)]
    ensures Child(JobAccount, ns, n) in Now(Run(steps)).objs && Child(JobRun, ns, n) !in Now(Run(steps)).objs
  {
    var db, todo := HalfWay(Now(Run(before)), ns, n, data);
    var more := RunLeads(before, 1, Some(data), Point(db, Act(Work(ns, n), todo)));
    var acting := before + more;
    assert NoDeletions(acting);
    CrashNow(Run(acting), 1);
    RunLast(acting, Crash(1));
    steps := acting + [Crash(1)];
  }

  /** Stranding does happen: for every cluster whose Ingress has a rule if it is asked
      for, every DaskJob for it and every verdict that
      accepts its script there is a run that ends with the DaskJob stranded. */
  lemma StrandedIsReached(ns: string, n: string, spec: DaskSpec, job: DaskJobSpec, data: ScriptData) returns (steps: seq<Step>)
    requires RulesFit(spec)
    ensures NoDeletions(steps) && L.Stranded(Run(steps), ns, n)
  {
    var up := ClusterStarts(ns, job.cluster, spec);
    var begun := JobStarts(up, ns, n, job);
    steps := JobStops(begun, ns, n, data);
    NeverCreated(steps, Child(JobRun, ns, n));
  }

  lemma NeverCreated(steps: seq<Step>, k: Key)
    requires NoDeletions(steps) && k.Child? && k !in Now(Run(steps)).objs
    ensures L.Count(Run(steps).log, Created(k)) == 0
  {
    L.CreationsBalance(steps, k);
    W.NothingDeleted(steps, k);
  }
}
