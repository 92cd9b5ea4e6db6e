/** A pass left to itself: every read is fresh, no call fails unless the API server turns it down,
    and nobody else acts meanwhile. */
module Solo {
  import opened Options
  import opened Names
  import opened Objects
  import opened Api
  import opened Processes
  import opened Plans

  datatype Outcome = Outcome(db: Db, ok: bool)

  // ---- Every pass comes to an end ----

  function Phase(p: Process): nat {
    match p
    case FetchJob(_, _) => 10
    case FetchJobCluster(_) => 9
    case ReportPending(_) => 8
    case ListJobs(_, _) => 8
    case LookAtJob(_, _, _) => 7
    case ClassifyScript(_, _, _) => 6
    case DetailJob(_, _, _) => 5
    case FetchDask(_, _) => 5
    case ListDeployments(_) => 4
    case LookAtCluster(_, _) => 3
    case DetailCluster(_, _, _) => 2
    case Act(_, _) => 1
    case Done(_) => 0
  }

  function Left(p: Process): nat {
    match p
    case LookAtCluster(_, seen) => if |seen| < 5 then 5 - |seen| else 0
    case DetailCluster(v, _, reports) => if |reports| < |ClusterDetails(v)| then |ClusterDetails(v)| - |reports| else 0
    case LookAtJob(_, _, seen) => if |seen| < 4 then 4 - |seen| else 0
    case Act(_, todo) => |todo|
    case _ => 0
  }

  lemma DetailsProgress(v: DaskView, seen: Seen, reports: seq<Report>, r: Resp)
    requires Sane(DetailCluster(v, seen, reports))
    ensures var p := DetailCluster(v, seen, reports);
      Phase(Moved(p, r)) < Phase(p) || (Phase(Moved(p, r)) == Phase(p) && Left(Moved(p, r)) < Left(p))
  {
    DetailMoves(v, seen, reports, r);
  }

  /** Whatever the answer, a pass moves towards its end. */
  lemma PassesProgress(p: Process, r: Resp)
    requires Next(p).Some?
    ensures Phase(Moved(p, r)) < Phase(p) || (Phase(Moved(p, r)) == Phase(p) && Left(Moved(p, r)) < Left(p))
  {
    match p
    case DetailCluster(v, seen, reports) => DetailsProgress(v, seen, reports, r);
    case DetailJob(v, c, seen) => JobDetailMoves(v, c, seen, r);
    case _ =>
  }

  // ---- A pass alone with the store ----

  /** A store, and where the pass stands. */
  datatype Point = Point(db: Db, pass: Process)

  /** What a call is answered, with the store it leaves; `script` is the verdict on a DaskJob's script. */
  function Answered(db: Db, script: Option<ScriptData>, c: Call): (Db, Resp) {
    match c
    case Get(k) => (db, Lookup(db, k))
    case List(_) => (db, Resp.Ok)
    case CheckScript(_) => (db, if script.Some? then Resp.Script(script.value) else Error)
    case _ =>
      match Write(db, c)
      case Some(db') => (db', Resp.Ok)
      case None => (db, Error)
  }

  function NextPoint(script: Option<ScriptData>, x: Point): Point {
    match Next(x.pass)
    case None => x
    case Some(c) =>
      var a := Answered(x.db, script, c);
      Point(a.0, Moved(x.pass, a.1))
  }

  function Finish(script: Option<ScriptData>, x: Point): Outcome
    decreases Phase(x.pass), Left(x.pass)
  {
    if Next(x.pass).None? then Outcome(x.db, x.pass.Done? && x.pass.ok)
    else
      PassesProgress(x.pass, Answered(x.db, script, Next(x.pass).value).1);
      Finish(script, NextPoint(script, x))
  }

  /** The Dask passes classify no script. */
  function DaskPass(db: Db, ns: string, n: string): Outcome {
    Finish(None, Point(db, FetchDask(ns, n)))
  }

  // ---- Getting from one point to another ----

  function Stepped(k: nat, script: Option<ScriptData>, x: Point): Point {
    if k == 0 then x else Stepped(k - 1, script, NextPoint(script, x))
  }

  ghost predicate Leads(script: Option<ScriptData>, x: Point, y: Point) {
    exists k: nat :: Stepped(k, script, x) == y
  }

  lemma Stays(script: Option<ScriptData>, x: Point)
    ensures Leads(script, x, x)
  {
    assert Stepped(0, script, x) == x;
  }

  lemma StepLeads(script: Option<ScriptData>, x: Point, y: Point)
    requires Leads(script, NextPoint(script, x), y)
    ensures Leads(script, x, y)
  {
    var k: nat :| Stepped(k, script, NextPoint(script, x)) == y;
    assert Stepped(k + 1, script, x) == y;
  }

  lemma {:induction false} SteppedTwice(j: nat, k: nat, script: Option<ScriptData>, x: Point)
    ensures Stepped(k, script, Stepped(j, script, x)) == Stepped(j + k, script, x)
  {
    if j == 0 {
    } else {
      SteppedTwice(j - 1, k, script, NextPoint(script, x));
    }
  }

  lemma LeadsOn(script: Option<ScriptData>, x: Point, y: Point, z: Point)
    requires Leads(script, x, y) && Leads(script, y, z)
    ensures Leads(script, x, z)
  {
    var j: nat :| Stepped(j, script, x) == y;
    var k: nat :| Stepped(k, script, y) == z;
    SteppedTwice(j, k, script, x);
  }

  lemma {:induction false} SteppedFinish(k: nat, script: Option<ScriptData>, x: Point)
    ensures Finish(script, x) == Finish(script, Stepped(k, script, x))
  {
    if k == 0 {
    } else {
      SteppedFinish(k - 1, script, NextPoint(script, x));
    }
  }

  /** A pass ends where the points it gets to end. */
  lemma LeadsFinish(script: Option<ScriptData>, x: Point, y: Point)
    requires Leads(script, x, y)
    ensures Finish(script, x) == Finish(script, y)
  {
    var k: nat :| Stepped(k, script, x) == y;
    SteppedFinish(k, script, x);
  }

  /** Carrying out writes until one is turned down. */
  function Execute(db: Db, calls: seq<Call>): Outcome
    decreases |calls|
  {
    if calls == [] then Outcome(db, true)
    else
      match Write(db, calls[0])
      case None => Outcome(db, false)
      case Some(db') => Execute(db', calls[1..])
  }

  lemma {:induction false} ExecuteThen(db: Db, first: seq<Call>, second: seq<Call>)
    ensures Execute(db, first + second) ==
      if Execute(db, first).ok then Execute(Execute(db, first).db, second) else Execute(db, first)
    decreases |first|
  {
    if first == [] {
      assert first + second == second;
    } else {
      assert (first + second)[1..] == first[1..] + second;
      match Write(db, first[0])
      case None =>
      case Some(db') => ExecuteThen(db', first[1..], second);
    }
  }

  // ---- What that amounts to ----

  function SeenIn(db: Db, looks: seq<Key>): Seen {
    seq(|looks|, i requires 0 <= i < |looks| => Noticed(looks[i], Lookup(db, looks[i])))
  }

  predicate DetailsOk(db: Db, v: DaskView) {
    forall i :: 0 <= i < |ClusterDetails(v)| ==> Detail(ClusterDetails(v)[i], Lookup(db, ClusterDetails(v)[i]), Dask).Some?
  }

  function DetailsIn(db: Db, v: DaskView): seq<Report>
    requires DetailsOk(db, v)
  {
    seq(|ClusterDetails(v)|, i requires 0 <= i < |ClusterDetails(v)| =>
      Detail(ClusterDetails(v)[i], Lookup(db, ClusterDetails(v)[i]), Dask).value)
  }

  lemma {:induction false} LooksAlone(script: Option<ScriptData>, db: Db, v: DaskView, seen: Seen)
    requires |seen| <= 5 && seen == SeenIn(db, ClusterLooks(v))[..|seen|]
    ensures Leads(script, Point(db, LookedAtCluster(v, seen)), Point(db, DetailCluster(v, SeenIn(db, ClusterLooks(v)), [])))
    decreases 5 - |seen|
  {
    var all := SeenIn(db, ClusterLooks(v));
    if |seen| == 5 {
      assert seen == all;
      Stays(script, Point(db, LookedAtCluster(v, seen)));
    } else {
      var p := LookAtCluster(v, seen);
      var next := seen + [all[|seen|]];
      assert Next(p) == Some(Call.Get(ClusterLooks(v)[|seen|]));
      assert Moved(p, Lookup(db, ClusterLooks(v)[|seen|])) == LookedAtCluster(v, next);
      LooksAlone(script, db, v, next);
      StepLeads(script, Point(db, p), Point(db, DetailCluster(v, all, [])));
    }
  }

  lemma {:induction false} DetailsAlone(script: Option<ScriptData>, db: Db, v: DaskView, seen: Seen, reports: seq<Report>)
    requires |seen| == 5 && DetailsOk(db, v)
    requires |reports| <= |ClusterDetails(v)| && reports == DetailsIn(db, v)[..|reports|]
    ensures Leads(script, Point(db, Detailed(v, seen, reports)),
                  Point(db, Acting(DaskKey(v), ClusterPlan(v, seen, DetailsIn(db, v)))))
    decreases |ClusterDetails(v)| - |reports|
  {
    var all := DetailsIn(db, v);
    var goal := Point(db, Acting(DaskKey(v), ClusterPlan(v, seen, all)));
    if |reports| == |ClusterDetails(v)| {
      assert reports == all;
      Stays(script, goal);
    } else {
      var p := DetailCluster(v, seen, reports);
      var next := reports + [all[|reports|]];
      assert Next(p) == Some(Call.Get(ClusterDetails(v)[|reports|]));
      assert Moved(p, Lookup(db, ClusterDetails(v)[|reports|])) == Detailed(v, seen, next);
      DetailsAlone(script, db, v, seen, next);
      StepLeads(script, Point(db, p), goal);
    }
  }

  /** Somewhere among the details still to be read there is one that ends the pass. */
  lemma {:induction false} DetailsStop(script: Option<ScriptData>, db: Db, v: DaskView, seen: Seen, reports: seq<Report>, bad: nat)
    requires |seen| == 5 && |reports| <= bad < |ClusterDetails(v)|
    requires Detail(ClusterDetails(v)[bad], Lookup(db, ClusterDetails(v)[bad]), Dask).None?
    ensures Leads(script, Point(db, DetailCluster(v, seen, reports)), Point(db, Done(false)))
    decreases bad - |reports|
  {
    var p := DetailCluster(v, seen, reports);
    var r := Lookup(db, ClusterDetails(v)[|reports|]);
    assert Next(p) == Some(Call.Get(ClusterDetails(v)[|reports|]));
    match Detail(ClusterDetails(v)[|reports|], r, Dask)
    case None =>
      assert Moved(p, r) == Done(false);
      Stays(script, Point(db, Done(false)));
      StepLeads(script, Point(db, p), Point(db, Done(false)));
    case Some(d) =>
      assert Moved(p, r) == DetailCluster(v, seen, reports + [d]);
      DetailsStop(script, db, v, seen, reports + [d], bad);
      StepLeads(script, Point(db, p), Point(db, Done(false)));
  }

  lemma WriteTaken(script: Option<ScriptData>, db: Db, owner: Key, calls: seq<Call>)
    requires calls != [] && IsWrite(calls[0])
    ensures NextPoint(script, Point(db, Act(owner, calls))) ==
      match Write(db, calls[0])
      case None => Point(db, Done(false))
      case Some(db') => Point(db', Acting(owner, calls[1..]))
  {
    assert Next(Act(owner, calls)) == Some(calls[0]);
  }

  /** The first writes of a pass, and what is left of it then. */
  lemma {:induction false} WritesLead(script: Option<ScriptData>, db: Db, owner: Key, first: seq<Call>, second: seq<Call>)
    requires forall i :: 0 <= i < |first| ==> IsWrite(first[i])
    ensures var o := Execute(db, first);
      Leads(script, Point(db, Acting(owner, first + second)), Point(o.db, if o.ok then Acting(owner, second) else Done(false)))
    decreases |first|
  {
    var o := Execute(db, first);
    var goal := Point(o.db, if o.ok then Acting(owner, second) else Done(false));
    Stays(script, goal);
    if first == [] {
      assert first + second == second;
    } else {
      var all := first + second;
      assert all[1..] == first[1..] + second && all[0] == first[0];
      WriteTaken(script, db, owner, all);
      match Write(db, first[0])
      case None => StepLeads(script, Point(db, Act(owner, all)), goal);
      case Some(db') =>
        WritesLead(script, db', owner, first[1..], second);
        StepLeads(script, Point(db, Act(owner, all)), goal);
    }
  }

  lemma WritesAlone(script: Option<ScriptData>, db: Db, owner: Key, calls: seq<Call>)
    requires forall i :: 0 <= i < |calls| ==> IsWrite(calls[i])
    ensures var o := Execute(db, calls); Leads(script, Point(db, Acting(owner, calls)), Point(o.db, Done(o.ok)))
  {
    WritesLead(script, db, owner, calls, []);
    assert calls + [] == calls;
  }

  predicate IsDask(db: Db, ns: string, n: string) {
    Cluster(ns, n) in db.objs && db.objs[Cluster(ns, n)].body.ClusterBody?
  }

  /** What a pass that reads the store keeps of the resource. */
  function ViewIn(db: Db, ns: string, n: string): DaskView
    requires IsDask(db, ns, n)
  {
    DaskView(ns, n, db.objs[Cluster(ns, n)].rv, db.objs[Cluster(ns, n)].body.spec)
  }

  function PlanIn(db: Db, v: DaskView): seq<Call>
    requires DetailsOk(db, v)
  {
    ClusterPlan(v, SeenIn(db, ClusterLooks(v)), DetailsIn(db, v))
  }

  lemma FetchAlone(script: Option<ScriptData>, db: Db, ns: string, n: string)
    requires IsDask(db, ns, n)
    ensures Leads(script, Point(db, FetchDask(ns, n)), Point(db, LookAtCluster(ViewIn(db, ns, n), [])))
  {
    var v := ViewIn(db, ns, n);
    var goal := Point(db, LookAtCluster(v, []));
    Stays(script, goal);
    assert Next(ListDeployments(v)) == Some(Call.List(ns));
    assert Moved(ListDeployments(v), Resp.Ok) == LookAtCluster(v, []);
    StepLeads(script, Point(db, ListDeployments(v)), goal);
    assert Next(FetchDask(ns, n)) == Some(Call.Get(Cluster(ns, n)));
    assert Moved(FetchDask(ns, n), Lookup(db, Cluster(ns, n))) == ListDeployments(v);
    StepLeads(script, Point(db, FetchDask(ns, n)), goal);
  }

  lemma DetailsDecide(script: Option<ScriptData>, db: Db, v: DaskView, seen: Seen)
    requires |seen| == 5
    ensures Leads(script, Point(db, DetailCluster(v, seen, [])),
      Point(db, if DetailsOk(db, v) then Acting(DaskKey(v), ClusterPlan(v, seen, DetailsIn(db, v))) else Done(false)))
  {
    if DetailsOk(db, v) {
      DetailsAlone(script, db, v, seen, []);
    } else {
      var bad :| 0 <= bad < |ClusterDetails(v)| && Detail(ClusterDetails(v)[bad], Lookup(db, ClusterDetails(v)[bad]), Dask).None?;
      DetailsStop(script, db, v, seen, [], bad);
    }
  }

  function DaskOutcome(db: Db, v: DaskView): Outcome {
    if DetailsOk(db, v) then Execute(db, PlanIn(db, v)) else Outcome(db, false)
  }

  lemma PassLeads(script: Option<ScriptData>, db: Db, ns: string, n: string)
    requires IsDask(db, ns, n)
    ensures var o := DaskOutcome(db, ViewIn(db, ns, n));
      Leads(script, Point(db, FetchDask(ns, n)), Point(o.db, Done(o.ok)))
  {
    var v := ViewIn(db, ns, n);
    var seen, o, start := SeenIn(db, ClusterLooks(v)), DaskOutcome(db, v), Point(db, FetchDask(ns, n));
    FetchAlone(script, db, ns, n);
    LooksAlone(script, db, v, []);
    LeadsOn(script, start, Point(db, LookAtCluster(v, [])), Point(db, DetailCluster(v, seen, [])));
    DetailsDecide(script, db, v, seen);
    if DetailsOk(db, v) {
      var acting := Point(db, Acting(DaskKey(v), PlanIn(db, v)));
      LeadsOn(script, start, Point(db, DetailCluster(v, seen, [])), acting);
      ClusterPlanOwned(v, seen, DetailsIn(db, v));
      WritesAlone(script, db, DaskKey(v), PlanIn(db, v));
      LeadsOn(script, start, acting, Point(o.db, Done(o.ok)));
    } else {
      LeadsOn(script, start, Point(db, DetailCluster(v, seen, [])), Point(db, Done(false)));
    }
  }

  /** A pass alone stops at the details or carries out the plan for what the store holds. */
  lemma PassAlone(db: Db, ns: string, n: string)
    requires IsDask(db, ns, n)
    ensures var v := ViewIn(db, ns, n);
      DaskPass(db, ns, n) == if DetailsOk(db, v) then Execute(db, PlanIn(db, v)) else Outcome(db, false)
  {
    var o := DaskOutcome(db, ViewIn(db, ns, n));
    PassLeads(None, db, ns, n);
    LeadsFinish(None, Point(db, FetchDask(ns, n)), Point(o.db, Done(o.ok)));
  }
}
