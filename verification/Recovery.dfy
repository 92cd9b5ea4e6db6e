/** Exactly when a Dask pass gets through, and what it leaves behind: one pass alone with the store
    carries out its groups in order and stops for good at the first that is half made. */
module Recovery {
  import opened Options
  import opened Names
  import opened Contexts
  import opened Objects
  import opened Models
  import opened Api
  import opened Processes
  import opened Plans
  import opened Solo
  import opened Groups

  predicate OfStage(stage: nat, c: Context, k: Key) {
    k.Child? && k.ns == c.ns && k.instance == c.name && StageOf(k.role) == stage
  }

  /** A child of a group from that stage on. */
  predicate FromStage(stage: nat, c: Context, k: Key) {
    k.Child? && k.ns == c.ns && k.instance == c.name && stage <= StageOf(k.role) < 5
  }

  /** What the pass has seen of the guards still to come is what the store holds. */
  predicate Agrees(stage: nat, db: Db, c: Context, seen: Seen)
    requires |seen| == 5
  {
    forall t :: stage <= t < 5 ==> seen[LookOf(t)] == Noticed(ChildKey(c, Guard(t)), Lookup(db, ChildKey(c, Guard(t))))
  }

  // ---- One group ----

  /** The workers' Deployment as it was but for its replica count. */
  predicate Rescaled(db: Db, db': Db, c: Context) {
    var k := ChildKey(c, WorkerDeployment);
    && k in db.objs && k in db'.objs
    && db.objs[k].body.DeploymentBody?
    && db'.objs[k].owner == db.objs[k].owner
    && db'.objs[k].body == db.objs[k].body.(replicas := c.settings.replicas)
    && (db.objs[k].body.replicas == c.settings.replicas ==> db'.objs[k] == db.objs[k])
  }

  /** What a group that went through leaves: all members made, or the workers rescaled, or all as
      it was. */
  ghost predicate StageDone(stage: nat, db: Db, db': Db, c: Context) {
    if ToMake(db, c, stage) then forall r :: r in Members(stage, c.settings) ==> MadeIn(db', c, r)
    else
      && (stage == 3 ==> Rescaled(db, db', c))
      && (forall k :: OfStage(stage, c, k) && k != ChildKey(c, WorkerDeployment) ==> SameAt(db, db', k))
  }

  lemma FreeMeansPassable(stage: nat, db: Db, c: Context)
    requires stage < 5 && ToMake(db, c, stage)
    ensures (forall r :: r in Members(stage, c.settings) ==> Free(db, c, r)) <==> Passable(db, c, stage)
  {
    if stage == 4 {
      assert ClusterIngress in Members(4, c.settings);
    } else {
      MembersAre(stage, c.settings);
    }
  }

  /** A group whose guard was missing. */
  lemma MakingRuns(stage: nat, db: Db, c: Context, calls: seq<Call>)
    requires stage < 5 && ToMake(db, c, stage) && MakesAll(c, Members(stage, c.settings), calls)
    ensures var o := Execute(db, calls);
      && (o.ok <==> Passable(db, c, stage))
      && (o.ok ==> StageDone(stage, db, o.db, c))
      && (forall k :: !OfStage(stage, c, k) ==> SameAt(db, o.db, k))
      && (!o.ok ==> SameAt(db, o.db, ChildKey(c, Guard(stage))))
      && (forall k :: k in db.objs ==> SameAt(db, o.db, k))
  {
    MembersAre(stage, c.settings);
    CreationsRun(db, c, Members(stage, c.settings), calls);
    FreeMeansPassable(stage, db, c);
    var o := Execute(db, calls);
    forall k | !OfStage(stage, c, k) ensures SameAt(db, o.db, k) {
      assert OnlyAt(db, o.db, c, Members(stage, c.settings), k);
    }
  }

  lemma RescaleRuns(db: Db, c: Context, o: Obj)
    requires var k := ChildKey(c, WorkerDeployment);
      k in db.objs && db.objs[k] == o && o.body.DeploymentBody?
    ensures var k := ChildKey(c, WorkerDeployment);
      var r := Execute(db, Rescale(k, o, c.settings.replicas));
      r.ok && Rescaled(db, r.db, c) && forall x :: x != k ==> SameAt(db, r.db, x)
  {
  }

  /** Nothing is lost, and only the workers' Deployment may change. */
  predicate Keeps(db: Db, db': Db, c: Context, k: Key) {
    k in db'.objs && (k == ChildKey(c, WorkerDeployment) || SameAt(db, db', k))
  }

  /** What one group does, whatever the store has of it. */
  ghost predicate StageEffect(stage: nat, db: Db, c: Context, o: Outcome) {
    && (o.ok <==> Passable(db, c, stage))
    && (o.ok ==> StageDone(stage, db, o.db, c))
    && (forall k :: !OfStage(stage, c, k) ==> SameAt(db, o.db, k))
    && (!o.ok ==> SameAt(db, o.db, ChildKey(c, Guard(stage))))
    && (forall k :: k in db.objs ==> Keeps(db, o.db, c, k))
  }

  lemma StageRuns(stage: nat, db: Db, c: Context, seen: Seen)
    requires stage < 5 && |seen| == 5 && Agrees(stage, db, c, seen)
    ensures StageEffect(stage, db, c, Execute(db, StageGroup(stage, c, seen).calls))
  {
    assert seen[LookOf(stage)].Some? <==> Noted(db, ChildKey(c, Guard(stage)));
    if ToMake(db, c, stage) {
      GroupMakes(stage, c, seen);
      MakingRuns(stage, db, c, StageGroup(stage, c, seen).calls);
    } else {
      GroupRests(stage, c, seen);
      if stage == 3 {
        RescaleRuns(db, c, seen[1].value);
      }
    }
  }

  // ---- The whole plan ----

  /** Later groups find the store as before: the group has only touched its own members. */
  lemma LaterUnaffected(stage: nat, t: nat, db: Db, db': Db, c: Context)
    requires stage < t < 5 && forall k :: !OfStage(stage, c, k) ==> SameAt(db, db', k)
    ensures forall k :: OfStage(t, c, k) ==> SameAt(db, db', k)
    ensures ToMake(db, c, t) <==> ToMake(db', c, t)
    ensures Passable(db, c, t) <==> Passable(db', c, t)
    ensures Noticed(ChildKey(c, Guard(t)), Lookup(db, ChildKey(c, Guard(t)))) == Noticed(ChildKey(c, Guard(t)), Lookup(db', ChildKey(c, Guard(t))))
  {
    MembersAre(t, c.settings);
    assert SameAt(db, db', ChildKey(c, Guard(t)));
    assert forall r :: r in Members(t, c.settings) ==> SameAt(db, db', ChildKey(c, r));
  }

  /** The status write that ends a pass goes through if the resource is still what was read. */
  predicate Ends(db: Db, last: Call) {
    && last.UpdateStatus? && last.key.Cluster? && last.key in db.objs && db.objs[last.key].rv == last.rv
  }

  /** What the plan from some stage on does. */
  ghost predicate PlanEffect(stage: nat, db: Db, c: Context, last: Call, o: Outcome)
    requires Ends(db, last)
  {
    && (o.ok <==> forall t :: stage <= t < 5 ==> Passable(db, c, t))
    && (o.ok ==> forall t :: stage <= t < 5 ==> StageDone(t, db, o.db, c))
    && (forall k :: !FromStage(stage, c, k) && k != last.key ==> SameAt(db, o.db, k))
    && (if o.ok then last.key in o.db.objs && o.db.objs[last.key].body == WithStatus(db.objs[last.key].body, last.status)
        else SameAt(db, o.db, last.key))
    && (forall k :: k in db.objs && k != last.key ==> Keeps(db, o.db, c, k))
  }

  /** A group that cannot be passed ends the plan: its guard stays missing and no later group, nor
      the resource itself, is touched. */
  ghost predicate Stops(stage: nat, db: Db, c: Context, o: Outcome) {
    forall t :: stage <= t < 5 && !Passable(db, c, t) ==>
      && SameAt(db, o.db, ChildKey(c, Guard(t)))
      && (forall k :: !(FromStage(stage, c, k) && StageOf(k.role) <= t) ==> SameAt(db, o.db, k))
  }

  lemma SameStageEffect(t: nat, db: Db, c: Context, d: Context, o: Outcome)
    requires SamePlace(c, d) && StageEffect(t, db, d, o)
    ensures StageEffect(t, db, c, o)
  {
  }

  // ---- Putting a group and the rest of the plan together ----

  lemma DoneStays(stage: nat, db: Db, db1: Db, db2: Db, c: Context)
    requires stage < 5 && StageDone(stage, db, db1, c)
    requires forall k :: OfStage(stage, c, k) ==> SameAt(db1, db2, k)
    ensures StageDone(stage, db, db2, c)
  {
    MembersAre(stage, c.settings);
    assert forall r :: r in Members(stage, c.settings) ==> OfStage(stage, c, ChildKey(c, r));
    assert stage == 3 ==> OfStage(3, c, ChildKey(c, WorkerDeployment));
  }

  lemma DoneLater(stage: nat, t: nat, db: Db, db1: Db, db2: Db, c: Context)
    requires stage < t < 5 && StageDone(t, db1, db2, c)
    requires forall k :: !OfStage(stage, c, k) ==> SameAt(db, db1, k)
    ensures StageDone(t, db, db2, c)
  {
    LaterUnaffected(stage, t, db, db1, c);
    assert t == 3 ==> OfStage(3, c, ChildKey(c, WorkerDeployment));
  }

  lemma PlanStops(stage: nat, db: Db, c: Context, last: Call, o: Outcome)
    requires stage < 5 && Ends(db, last) && StageEffect(stage, db, c, o) && !o.ok
    ensures PlanEffect(stage, db, c, last, o)
  {
  }

  lemma PassableAll(stage: nat, db: Db, db1: Db, c: Context)
    requires stage < 5 && Passable(db, c, stage)
    requires forall k :: !OfStage(stage, c, k) ==> SameAt(db, db1, k)
    ensures (forall t :: stage <= t < 5 ==> Passable(db, c, t)) <==> (forall t :: stage + 1 <= t < 5 ==> Passable(db1, c, t))
  {
    forall t | stage < t < 5 ensures Passable(db, c, t) <==> Passable(db1, c, t) {
      LaterUnaffected(stage, t, db, db1, c);
    }
  }

  lemma PlanGoesOn(stage: nat, db: Db, c: Context, last: Call, o1: Outcome, o2: Outcome)
    requires stage < 5 && Ends(db, last) && StageEffect(stage, db, c, o1) && o1.ok
    requires Ends(o1.db, last) && o1.db.objs[last.key] == db.objs[last.key] && PlanEffect(stage + 1, o1.db, c, last, o2)
    ensures PlanEffect(stage, db, c, last, o2)
  {
    PassableAll(stage, db, o1.db, c);
    forall k | !FromStage(stage, c, k) && k != last.key ensures SameAt(db, o2.db, k) {
      assert !OfStage(stage, c, k) && !FromStage(stage + 1, c, k);
      assert SameAt(db, o1.db, k) && SameAt(o1.db, o2.db, k);
    }
    if o2.ok {
      forall t | stage <= t < 5 ensures StageDone(t, db, o2.db, c) {
        if t == stage {
          DoneStays(stage, db, o1.db, o2.db, c);
        } else {
          DoneLater(stage, t, db, o1.db, o2.db, c);
        }
      }
    }
  }

  lemma StopsHere(stage: nat, db: Db, c: Context, o: Outcome)
    requires stage < 5 && StageEffect(stage, db, c, o) && !o.ok
    ensures Stops(stage, db, c, o)
  {
  }

  lemma StopsFurtherOn(stage: nat, db: Db, c: Context, o1: Outcome, o2: Outcome)
    requires stage < 5 && StageEffect(stage, db, c, o1) && o1.ok && Stops(stage + 1, o1.db, c, o2)
    ensures Stops(stage, db, c, o2)
  {
    forall t | stage <= t < 5 && !Passable(db, c, t)
      ensures SameAt(db, o2.db, ChildKey(c, Guard(t)))
      ensures forall k :: !(FromStage(stage, c, k) && StageOf(k.role) <= t) ==> SameAt(db, o2.db, k)
    {
      LaterUnaffected(stage, t, db, o1.db, c);
      assert SameAt(o1.db, o2.db, ChildKey(c, Guard(t))) && !OfStage(stage, c, ChildKey(c, Guard(t)));
      forall k | !(FromStage(stage, c, k) && StageOf(k.role) <= t) ensures SameAt(db, o2.db, k) {
        assert !(FromStage(stage + 1, c, k) && StageOf(k.role) <= t) && !OfStage(stage, c, k);
        assert SameAt(db, o1.db, k) && SameAt(o1.db, o2.db, k);
      }
    }
  }

  lemma AgreesNext(stage: nat, db: Db, db1: Db, c: Context, d: Context, seen: Seen)
    requires stage < 5 && |seen| == 5 && SamePlace(c, d) && Agrees(stage, db, c, seen)
    requires forall k :: !OfStage(stage, c, k) ==> SameAt(db, db1, k)
    ensures Agrees(stage + 1, db1, d, seen)
  {
    forall t | stage < t < 5
      ensures seen[LookOf(t)] == Noticed(ChildKey(d, Guard(t)), Lookup(db1, ChildKey(d, Guard(t))))
    {
      LaterUnaffected(stage, t, db, db1, c);
    }
  }

  lemma EndsAlone(db: Db, c: Context, last: Call)
    requires Ends(db, last)
    ensures PlanEffect(5, db, c, last, Execute(db, [last]))
  {
  }

  /** A plan succeeds exactly when each of its groups can be passed; it leaves every group done and
      the status written, or the resource untouched. */
  lemma {:induction false} PlanRuns(stage: nat, db: Db, c: Context, d: Context, seen: Seen, last: Call)
    requires stage <= 5 && |seen| == 5 && SamePlace(c, d) && Agrees(stage, db, d, seen) && Ends(db, last)
    ensures PlanEffect(stage, db, c, last, Execute(db, PlanFrom(stage, d, seen, last)))
    ensures Stops(stage, db, c, Execute(db, PlanFrom(stage, d, seen, last)))
    decreases 5 - stage
  {
    if stage == 5 {
      EndsAlone(db, c, last);
    } else {
      var g := StageGroup(stage, d, seen);
      var rest := PlanFrom(stage + 1, g.after, seen, last);
      var o1 := Execute(db, g.calls);
      StageRuns(stage, db, d, seen);
      SameStageEffect(stage, db, c, d, o1);
      ExecuteThen(db, g.calls, rest);
      StageKeepsPlace(stage, d, seen);
      if o1.ok {
        assert SameAt(db, o1.db, last.key);
        AgreesNext(stage, db, o1.db, d, g.after, seen);
        PlanRuns(stage + 1, o1.db, c, g.after, seen, last);
        PlanGoesOn(stage, db, c, last, o1, Execute(o1.db, rest));
        StopsFurtherOn(stage, db, c, o1, Execute(o1.db, rest));
      } else {
        PlanStops(stage, db, c, last, o1);
        StopsHere(stage, db, c, o1);
      }
    }
  }

  // ---- The results ----

  function ContextIn(db: Db, ns: string, n: string): Context
    requires IsDask(db, ns, n)
  {
    DaskContextOf(ViewIn(db, ns, n))
  }

  function StatusIn(db: Db, ns: string, n: string): DaskStatus
    requires IsDask(db, ns, n) && DetailsOk(db, ViewIn(db, ns, n))
  {
    ObservedStatus(SeenIn(db, ClusterLooks(ViewIn(db, ns, n))), DetailsIn(db, ViewIn(db, ns, n)))
  }

  function LastCall(db: Db, ns: string, n: string): Call
    requires IsDask(db, ns, n) && DetailsOk(db, ViewIn(db, ns, n))
  {
    UpdateStatus(Cluster(ns, n), db.objs[Cluster(ns, n)].rv, ClusterStatus(StatusIn(db, ns, n)))
  }

  lemma SeenAgrees(db: Db, v: DaskView)
    ensures Agrees(0, db, DaskContextOf(v), SeenIn(db, ClusterLooks(v)))
  {
  }

  lemma PassEffect(db: Db, ns: string, n: string)
    requires IsDask(db, ns, n) && DetailsOk(db, ViewIn(db, ns, n))
    ensures PlanEffect(0, db, ContextIn(db, ns, n), LastCall(db, ns, n), DaskPass(db, ns, n))
    ensures Stops(0, db, ContextIn(db, ns, n), DaskPass(db, ns, n))
  {
    var v, c := ViewIn(db, ns, n), ContextIn(db, ns, n);
    PassAlone(db, ns, n);
    SeenAgrees(db, v);
    PlanRuns(0, db, c, c, SeenIn(db, ClusterLooks(v)), LastCall(db, ns, n));
  }

  /** A pass leaves alone what is neither its resource nor a child of that. */
  lemma OthersUntouched(db: Db, ns: string, n: string, k: Key)
    requires IsDask(db, ns, n) && DetailsOk(db, ViewIn(db, ns, n))
    requires k != Cluster(ns, n) && !FromStage(0, ContextIn(db, ns, n), k)
    ensures SameAt(db, DaskPass(db, ns, n).db, k)
  {
    PassEffect(db, ns, n);
  }

  /** Exact recovery: a pass alone with the store succeeds if and only if the resource details can
      be read, no group the spec asks for is half made, and an Ingress still to be created has a
      rule. */
  lemma RecoversExactly(db: Db, ns: string, n: string)
    requires IsDask(db, ns, n)
    ensures var c := ContextIn(db, ns, n);
      DaskPass(db, ns, n).ok <==>
        && DetailsOk(db, ViewIn(db, ns, n))
        && (forall t :: 0 <= t < 5 ==> !HalfMade(db, c, t))
        && !Ruleless(db, c, 4)
  {
    var c := ContextIn(db, ns, n);
    if DetailsOk(db, ViewIn(db, ns, n)) {
      PassEffect(db, ns, n);
      assert (forall t :: 0 <= t < 5 ==> Passable(db, c, t)) <==> ((forall t :: 0 <= t < 5 ==> !HalfMade(db, c, t)) && !Ruleless(db, c, 4));
    } else {
      PassAlone(db, ns, n);
    }
  }

  /** A pass for a Dask that is not there succeeds and changes nothing; it fails at anything else that
      is there in its place. */
  lemma NoDaskNoPass(db: Db, ns: string, n: string)
    requires !IsDask(db, ns, n)
    ensures DaskPass(db, ns, n) == Outcome(db, Cluster(ns, n) !in db.objs)
  {
    var fetch, r := FetchDask(ns, n), Lookup(db, Cluster(ns, n));
    assert Next(fetch) == Some(Call.Get(Cluster(ns, n)));
    assert Moved(fetch, r) == Done(Cluster(ns, n) !in db.objs);
    Stays(None, Point(db, Moved(fetch, r)));
    StepLeads(None, Point(db, fetch), Point(db, Moved(fetch, r)));
    LeadsFinish(None, Point(db, fetch), Point(db, Moved(fetch, r)));
  }

  /** What is there under the key, if anything, was made for a resource of that kind. */
  predicate OwnIfThere(db: Db, k: Key, kind: Kind) {
    k in db.objs ==>
      && db.objs[k].owner.Some?
      && db.objs[k].owner.value.apiVersion == "analytics.piersharding.com/v1" && db.objs[k].owner.value.kind == kind
  }

  predicate Reads(db: Db, k: Key, kind: Kind) {
    KindOf(k) == Deployment || (OwnIfThere(db, k, kind) && (k in db.objs ==> Fits(k, db.objs[k].body)))
  }

  lemma DetailReads(db: Db, k: Key, kind: Kind)
    ensures Detail(k, Lookup(db, k), kind).Some? <==> Reads(db, k, kind)
  {
  }

  /** The details can be read exactly if the scheduler's Service, with a notebook its Service, and with a
      host the Ingress are, where they are there, of their sort and a Dask's. */
  lemma DetailsOkExactly(db: Db, v: DaskView)
    ensures var scheduler, jupyter, ingress :=
        Child(SchedulerService, v.ns, v.name), Child(JupyterService, v.ns, v.name), Child(ClusterIngress, v.ns, v.name);
      DetailsOk(db, v) <==>
        && OwnIfThere(db, scheduler, Dask) && (scheduler in db.objs ==> db.objs[scheduler].body.ServiceBody?)
        && (v.spec.jupyter ==> OwnIfThere(db, jupyter, Dask) && (jupyter in db.objs ==> db.objs[jupyter].body.ServiceBody?))
        && (v.spec.jupyterIngress != "" || v.spec.schedulerIngress != "" ==>
              OwnIfThere(db, ingress, Dask) && (ingress in db.objs ==> db.objs[ingress].body.IngressBody?))
  {
    var details := ClusterDetails(v);
    var n := |IngressDetails(v)|;
    assert n == 1 ==> details[0] == Child(ClusterIngress, v.ns, v.name);
    assert details[n + 3] == Child(SchedulerService, v.ns, v.name);
    assert v.spec.jupyter ==> details[n + 4] == Child(JupyterService, v.ns, v.name);
    forall i | 0 <= i < |details|
      ensures Detail(details[i], Lookup(db, details[i]), Dask).Some? <==> Reads(db, details[i], Dask)
    {
      DetailReads(db, details[i], Dask);
    }
    assert forall i :: n <= i < n + 3 ==> KindOf(details[i]) == Deployment;
  }

  /** A half-made group stops a pass there: nothing of a later group is touched, and no status is
      written. The group stays half made. */
  lemma StopsAtHalfMade(db: Db, ns: string, n: string, t: nat)
    requires IsDask(db, ns, n) && t < 5 && HalfMade(db, ContextIn(db, ns, n), t)
    ensures var o := DaskPass(db, ns, n); var c := ContextIn(db, ns, n);
      && !o.ok
      && (forall k :: !(FromStage(0, c, k) && StageOf(k.role) <= t) ==> SameAt(db, o.db, k))
      && HalfMade(o.db, c, t)
  {
    var o, c := DaskPass(db, ns, n), ContextIn(db, ns, n);
    RecoversExactly(db, ns, n);
    if DetailsOk(db, ViewIn(db, ns, n)) {
      PassEffect(db, ns, n);
      assert !Passable(db, c, t);
      var r :| r in Members(t, c.settings) && ChildKey(c, r) in db.objs;
      assert ChildKey(c, r) in o.db.objs;
    } else {
      PassAlone(db, ns, n);
    }
  }

  /** The store after a number of passes, one after the other. */
  function Passes(k: nat, db: Db, ns: string, n: string): Db {
    if k == 0 then db else DaskPass(Passes(k - 1, db, ns, n), ns, n).db
  }

  /** Nobody but its user can help a half-made cluster: however often passes are made, none ever
      succeeds and the status is never written again. */
  lemma {:induction false} HalfMadeForever(db: Db, ns: string, n: string, t: nat, k: nat)
    requires IsDask(db, ns, n) && t < 5 && HalfMade(db, ContextIn(db, ns, n), t)
    ensures var after := Passes(k, db, ns, n);
      && SameAt(db, after, Cluster(ns, n)) && HalfMade(after, ContextIn(db, ns, n), t)
      && !DaskPass(after, ns, n).ok
  {
    if k == 0 {
      StopsAtHalfMade(db, ns, n, t);
    } else {
      var before := Passes(k - 1, db, ns, n);
      HalfMadeForever(db, ns, n, t, k - 1);
      StopsAtHalfMade(before, ns, n, t);
      var after := DaskPass(before, ns, n).db;
      assert Passes(k, db, ns, n) == after && SameAt(before, after, Cluster(ns, n));
      assert ContextIn(after, ns, n) == ContextIn(before, ns, n);
      StopsAtHalfMade(after, ns, n, t);
    }
  }
}
