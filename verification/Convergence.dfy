/** Where passes that get through lead: one pass makes everything the spec asks for, the next
    changes no child, and from the second on every pass writes the same status. */
module Convergence {
  import opened Options
  import opened Names
  import opened Specs
  import opened Contexts
  import opened Objects
  import opened Models
  import opened Api
  import opened Processes
  import opened Solo
  import opened Groups
  import opened Recovery

  predicate Complete(db: Db, c: Context, stage: nat) {
    && Noted(db, ChildKey(c, Guard(stage)))
    && forall r :: r in Members(stage, c.settings) ==> ChildKey(c, r) in db.objs
  }

  predicate Untouched(db: Db, c: Context, stage: nat) {
    forall r :: r in Members(stage, c.settings) ==> ChildKey(c, r) !in db.objs
  }

  /** Every group the spec asks for is there in full or not at all. */
  predicate CompleteOrUntouched(db: Db, c: Context) {
    forall t :: 0 <= t < 5 && Requested(t, c.settings) ==> Complete(db, c, t) || Untouched(db, c, t)
  }

  /** All that the spec asks for is there, with as many workers as it asks for. */
  predicate Converged(db: Db, c: Context, spec: DaskSpec) {
    && (forall t :: 0 <= t < 5 && Requested(t, c.settings) ==> Complete(db, c, t))
    && var k := ChildKey(c, WorkerDeployment);
       k in db.objs && db.objs[k].body.DeploymentBody?
       && db.objs[k].body.replicas == if spec.replicas == 0 then 5 else spec.replicas
  }

  /** A pass has nothing to do. */
  predicate Settled(db: Db, c: Context) {
    && (forall t :: 0 <= t < 5 ==> !ToMake(db, c, t))
    && var k := ChildKey(c, WorkerDeployment);
       k in db.objs && db.objs[k].body.DeploymentBody? && db.objs[k].body.replicas == c.settings.replicas
  }

  // ---- One pass ----

  lemma UntouchedNotHalfMade(db: Db, c: Context)
    requires CompleteOrUntouched(db, c)
    ensures forall t :: 0 <= t < 5 ==> !HalfMade(db, c, t)
  {
  }

  lemma MadeIsNoted(db: Db, c: Context, r: Role)
    requires MadeIn(db, c, r)
    ensures Noted(db, ChildKey(c, r))
  {
  }

  lemma StageCompletes(db: Db, db': Db, c: Context, t: nat)
    requires t < 5 && Requested(t, c.settings) && StageDone(t, db, db', c)
    requires Complete(db, c, t) || Untouched(db, c, t)
    requires forall k :: k in db.objs && k.Child? ==> Keeps(db, db', c, k)
    ensures Complete(db', c, t)
  {
    MembersAre(t, c.settings);
    if ToMake(db, c, t) {
      MadeIsNoted(db', c, Guard(t));
    } else {
      assert Noted(db, ChildKey(c, Guard(t)));
      assert ChildKey(c, Guard(t)) in db.objs;
    }
  }

  lemma WorkersAfter(db: Db, db': Db, c: Context)
    requires StageDone(3, db, db', c)
    ensures var k := ChildKey(c, WorkerDeployment);
      k in db'.objs && db'.objs[k].body.DeploymentBody? && db'.objs[k].body.replicas == c.settings.replicas
  {
    assert WorkerDeployment in Members(3, c.settings);
  }

  /** From a store in which every group asked for is complete or untouched, one pass makes all the
      children the spec asks for, with the effective number of workers, loses and changes nothing
      else, and writes the status of what it has seen. */
  lemma OnePassConverges(db: Db, ns: string, n: string)
    requires IsDask(db, ns, n) && DetailsOk(db, ViewIn(db, ns, n))
    requires CompleteOrUntouched(db, ContextIn(db, ns, n)) && !Ruleless(db, ContextIn(db, ns, n), 4)
    ensures var o := DaskPass(db, ns, n); var c := ContextIn(db, ns, n); var spec := db.objs[Cluster(ns, n)].body.spec;
      && o.ok && Converged(o.db, c, spec)
      && IsDask(o.db, ns, n) && o.db.objs[Cluster(ns, n)].body == ClusterBody(spec, StatusIn(db, ns, n))
      && (forall k :: k in db.objs && k != Cluster(ns, n) ==> Keeps(db, o.db, c, k))
  {
    var c := ContextIn(db, ns, n);
    UntouchedNotHalfMade(db, c);
    RecoversExactly(db, ns, n);
    PassEffect(db, ns, n);
    var o := DaskPass(db, ns, n);
    forall t | 0 <= t < 5 && Requested(t, c.settings) ensures Complete(o.db, c, t) {
      StageCompletes(db, o.db, c, t);
    }
    WorkersAfter(db, o.db, c);
  }

  /** An Ingress is not asked for, or has a rule: for the scheduler, or for a notebook there is to be. */
  predicate RulesFit(spec: DaskSpec) {
    spec.schedulerIngress != "" || spec.jupyter || spec.jupyterIngress == ""
  }

  /** Where there is nothing but the resource, nothing is in the way. */
  lemma NothingThere(db: Db, ns: string, n: string)
    requires IsDask(db, ns, n) && db.objs.Keys == {Cluster(ns, n)} && RulesFit(db.objs[Cluster(ns, n)].body.spec)
    ensures DetailsOk(db, ViewIn(db, ns, n))
    ensures CompleteOrUntouched(db, ContextIn(db, ns, n)) && !Ruleless(db, ContextIn(db, ns, n), 4)
    ensures forall r :: !Noted(db, Child(r, ns, n))
  {
  }

  // ---- The passes after it ----

  lemma ConvergedIsSettled(db: Db, ns: string, n: string)
    requires IsDask(db, ns, n) && Converged(db, ContextIn(db, ns, n), db.objs[Cluster(ns, n)].body.spec)
    ensures Settled(db, ContextIn(db, ns, n))
  {
  }

  /** The details can still be read after a pass: what it makes is its own. */
  lemma DetailStaysOk(db: Db, db': Db, c: Context, k: Key, t: nat)
    requires t < 5 && t != 3 && OfStage(t, c, k) && k.role in Members(t, c.settings)
    requires StageDone(t, db, db', c) && (k in db.objs ==> SameAt(db, db', k))
    requires Detail(k, Lookup(db, k), Dask).Some?
    ensures Detail(k, Lookup(db', k), Dask).Some?
  {
  }

  lemma DetailAt(db: Db, v: DaskView, k: Key)
    requires DetailsOk(db, v) && k in ClusterDetails(v)
    ensures Detail(k, Lookup(db, k), Dask).Some?
  {
  }

  lemma DeploymentDetailAlwaysOk(db: Db, k: Key)
    requires KindOf(k) == Deployment
    ensures Detail(k, Lookup(db, k), Dask).Some?
  {
  }

  lemma EachDetailStaysOk(db: Db, db': Db, v: DaskView, k: Key)
    requires DetailsOk(db, v) && k in ClusterDetails(v)
    requires forall t :: 0 <= t < 5 ==> StageDone(t, db, db', DaskContextOf(v))
    requires forall x :: x in db.objs && x.Child? ==> Keeps(db, db', DaskContextOf(v), x)
    ensures Detail(k, Lookup(db', k), Dask).Some?
  {
    DetailAt(db, v, k);
    if KindOf(k) == Deployment {
      DeploymentDetailAlwaysOk(db', k);
    } else {
      assert k.role in {ClusterIngress, SchedulerService, JupyterService};
      DetailStaysOk(db, db', DaskContextOf(v), k, StageOf(k.role));
    }
  }

  lemma DetailsStayOk(db: Db, ns: string, n: string)
    requires IsDask(db, ns, n) && DetailsOk(db, ViewIn(db, ns, n)) && DaskPass(db, ns, n).ok
    ensures var db' := DaskPass(db, ns, n).db;
      IsDask(db', ns, n) && DetailsOk(db', ViewIn(db', ns, n))
  {
    var v := ViewIn(db, ns, n);
    PassEffect(db, ns, n);
    var db' := DaskPass(db, ns, n).db;
    var v' := ViewIn(db', ns, n);
    assert ClusterDetails(v') == ClusterDetails(v);
    forall i | 0 <= i < |ClusterDetails(v)| ensures Detail(ClusterDetails(v)[i], Lookup(db', ClusterDetails(v)[i]), Dask).Some? {
      EachDetailStaysOk(db, db', v, ClusterDetails(v)[i]);
    }
  }

  ghost predicate SameBut(db: Db, db': Db, k: Key) {
    forall x :: x != k ==> SameAt(db, db', x)
  }

  /** A pass over a settled store changes no child. */
  lemma SettledPass(db: Db, ns: string, n: string)
    requires IsDask(db, ns, n) && DetailsOk(db, ViewIn(db, ns, n)) && Settled(db, ContextIn(db, ns, n))
    ensures var o := DaskPass(db, ns, n);
      && o.ok && SameBut(db, o.db, Cluster(ns, n)) && IsDask(o.db, ns, n)
      && o.db.objs[Cluster(ns, n)].body == ClusterBody(db.objs[Cluster(ns, n)].body.spec, StatusIn(db, ns, n))
  {
    var c := ContextIn(db, ns, n);
    RecoversExactly(db, ns, n);
    PassEffect(db, ns, n);
    var o := DaskPass(db, ns, n);
    forall k | k != Cluster(ns, n) ensures SameAt(db, o.db, k) {
      if FromStage(0, c, k) {
        assert StageDone(StageOf(k.role), db, o.db, c);
      }
    }
  }

  /** What a pass reports depends on the children and the spec only. */
  lemma SameStatus(db: Db, db': Db, ns: string, n: string)
    requires IsDask(db, ns, n) && IsDask(db', ns, n) && SameBut(db, db', Cluster(ns, n))
    requires db.objs[Cluster(ns, n)].body.spec == db'.objs[Cluster(ns, n)].body.spec
    requires DetailsOk(db, ViewIn(db, ns, n))
    ensures DetailsOk(db', ViewIn(db', ns, n)) && StatusIn(db, ns, n) == StatusIn(db', ns, n)
  {
    var v, v' := ViewIn(db, ns, n), ViewIn(db', ns, n);
    assert forall i :: 0 <= i < 5 ==> ClusterLooks(v)[i] == ClusterLooks(v')[i] && SameAt(db, db', ClusterLooks(v)[i]);
    assert SeenIn(db, ClusterLooks(v)) == SeenIn(db', ClusterLooks(v'));
    assert ClusterDetails(v) == ClusterDetails(v');
    forall i | 0 <= i < |ClusterDetails(v)|
      ensures Lookup(db, ClusterDetails(v)[i]) == Lookup(db', ClusterDetails(v)[i])
    {
      assert ClusterDetails(v)[i].Child? && SameAt(db, db', ClusterDetails(v)[i]);
    }
    assert DetailsIn(db, v) == DetailsIn(db', v');
  }

  lemma SameSettled(db: Db, db': Db, ns: string, n: string, c: Context)
    requires SameBut(db, db', Cluster(ns, n)) && Settled(db, c)
    ensures Settled(db', c)
  {
    forall t | 0 <= t < 5 ensures !ToMake(db', c, t) {
      assert !ToMake(db, c, t) && SameAt(db, db', ChildKey(c, Guard(t)));
    }
    assert SameAt(db, db', ChildKey(c, WorkerDeployment));
  }

  lemma SameButTrans(a: Db, b: Db, c: Db, k: Key)
    requires SameBut(a, b, k) && SameBut(b, c, k)
    ensures SameBut(a, c, k)
  {
    forall x | x != k ensures SameAt(a, c, x) {
      assert SameAt(a, b, x) && SameAt(b, c, x);
    }
  }

  /** A settled store stays as it is: after any number of passes no child has changed, and each
      of them has written the same status. */
  lemma {:induction false} SettledForever(db: Db, ns: string, n: string, k: nat)
    requires IsDask(db, ns, n) && DetailsOk(db, ViewIn(db, ns, n)) && Settled(db, ContextIn(db, ns, n))
    ensures var after := Passes(k, db, ns, n);
      && SameBut(db, after, Cluster(ns, n)) && IsDask(after, ns, n)
      && after.objs[Cluster(ns, n)].body.spec == db.objs[Cluster(ns, n)].body.spec
      && (k > 0 ==> after.objs[Cluster(ns, n)].body.status == StatusIn(db, ns, n))
  {
    if k == 0 {
    } else {
      var before := Passes(k - 1, db, ns, n);
      SettledForever(db, ns, n, k - 1);
      SameStatus(db, before, ns, n);
      assert ContextIn(before, ns, n) == ContextIn(db, ns, n);
      SameSettled(db, before, ns, n, ContextIn(db, ns, n));
      SettledPass(before, ns, n);
      assert Passes(k, db, ns, n) == DaskPass(before, ns, n).db;
      SameButTrans(db, before, DaskPass(before, ns, n).db, Cluster(ns, n));
    }
  }

  lemma {:induction false} PassesFirst(k: nat, db: Db, ns: string, n: string)
    ensures Passes(k + 1, db, ns, n) == Passes(k, DaskPass(db, ns, n).db, ns, n)
  {
    if k == 0 {
    } else {
      PassesFirst(k - 1, db, ns, n);
    }
  }

  /** Convergence and fixpoint: nothing but the first pass changes a child, and the status the
      second pass writes is the one every later pass writes. */
  lemma Fixpoint(db: Db, ns: string, n: string, k: nat)
    requires IsDask(db, ns, n) && DetailsOk(db, ViewIn(db, ns, n))
    requires CompleteOrUntouched(db, ContextIn(db, ns, n)) && !Ruleless(db, ContextIn(db, ns, n), 4)
    ensures var first := Passes(1, db, ns, n); var second := Passes(2, db, ns, n); var later := Passes(k + 2, db, ns, n);
      && Converged(first, ContextIn(db, ns, n), db.objs[Cluster(ns, n)].body.spec)
      && SameBut(first, later, Cluster(ns, n))
      && IsDask(second, ns, n) && IsDask(later, ns, n)
      && later.objs[Cluster(ns, n)].body == second.objs[Cluster(ns, n)].body
  {
    var first := DaskPass(db, ns, n).db;
    OnePassConverges(db, ns, n);
    DetailsStayOk(db, ns, n);
    assert ContextIn(first, ns, n) == ContextIn(db, ns, n);
    ConvergedIsSettled(first, ns, n);
    assert Passes(1, db, ns, n) == first by { assert Passes(0, db, ns, n) == db; }
    PassesFirst(1, db, ns, n);
    PassesFirst(k + 1, db, ns, n);
    SettledForever(first, ns, n, 1);
    SettledForever(first, ns, n, k + 1);
  }

  // ---- What Running means ----

  lemma CountOneMore(seen: Seen, o: Option<Obj>)
    ensures CountSome(seen + [o]) == CountSome(seen) + if o.Some? then 1 else 0
    ensures CountReady(seen + [o]) == CountReady(seen) + if IsReady(o) then 1 else 0
  {
    assert (seen + [o])[..|seen|] == seen;
  }

  lemma CountThree(a: Option<Obj>, b: Option<Obj>, c: Option<Obj>)
    ensures CountSome([a, b, c]) == (if a.Some? then 1 else 0) + (if b.Some? then 1 else 0) + (if c.Some? then 1 else 0)
    ensures CountReady([a, b, c]) == (if IsReady(a) then 1 else 0) + (if IsReady(b) then 1 else 0) + (if IsReady(c) then 1 else 0)
  {
    CountOneMore([], a);
    CountOneMore([a], b);
    CountOneMore([a, b], c);
    assert [] + [a] == [a] && [a] + [b] == [a, b] && [a, b] + [c] == [a, b, c];
  }

  /** The Deployment is there, with as many ready replicas as it has. */
  predicate Ready(db: Db, k: Key) {
    Noted(db, k) && db.objs[k].body.DeploymentBody?
    && db.objs[k].body.readiness.readyReplicas == db.objs[k].body.readiness.replicas
  }

  lemma NoticedReady(db: Db, k: Key)
    ensures Noticed(k, Lookup(db, k)).Some? <==> Noted(db, k)
    ensures IsReady(Noticed(k, Lookup(db, k))) <==> Ready(db, k)
  {
  }

  function Many(b: bool): nat {
    if b then 1 else 0
  }

  /** The counts and the state a pass writes, in terms of the store it has read. */
  lemma StatusOfStore(db: Db, ns: string, n: string)
    requires IsDask(db, ns, n) && DetailsOk(db, ViewIn(db, ns, n))
    ensures var s, w, j := Child(SchedulerDeployment, ns, n), Child(WorkerDeployment, ns, n), Child(JupyterDeployment, ns, n);
      var status := StatusIn(db, ns, n);
      && status.replicas == Many(Noted(db, s)) + Many(Noted(db, w)) + Many(Noted(db, j))
      && status.succeeded == Many(Ready(db, s)) + Many(Ready(db, w)) + Many(Ready(db, j))
      && status.state == if status.replicas == status.succeeded then Running else Building
  {
    var s, w, j := Child(SchedulerDeployment, ns, n), Child(WorkerDeployment, ns, n), Child(JupyterDeployment, ns, n);
    var seen := SeenIn(db, ClusterLooks(ViewIn(db, ns, n)));
    assert seen[..3] == [Noticed(s, Lookup(db, s)), Noticed(w, Lookup(db, w)), Noticed(j, Lookup(db, j))];
    CountThree(Noticed(s, Lookup(db, s)), Noticed(w, Lookup(db, w)), Noticed(j, Lookup(db, j)));
    NoticedReady(db, s);
    NoticedReady(db, w);
    NoticedReady(db, j);
  }

  // ---- What the status shows ----

  /** What is shown of a Deployment: its readiness, if it is a Dask's. */
  function DeploymentLine(db: Db, k: Key): Report {
    if k in db.objs && db.objs[k].body.DeploymentBody? && OwnIfThere(db, k, Dask)
    then DeploymentReport(db.objs[k].body.readiness) else NothingFound
  }

  function ServiceLine(db: Db, k: Key): Report {
    if k in db.objs then ServiceReport else NothingFound
  }

  predicate IngressLine(db: Db, k: Key, line: Report) {
    if k in db.objs && db.objs[k].body.IngressBody? then
      && line.IngressReport? && line.address == db.objs[k].body.address && |line.hosts| == |db.objs[k].body.rules|
      && forall i :: 0 <= i < |line.hosts| ==> line.hosts[i] == db.objs[k].body.rules[i].host
    else line == NothingFound
  }

  predicate IsLine(db: Db, k: Key, line: Report) {
    match KindOf(k)
    case Deployment => line == DeploymentLine(db, k)
    case Service => line == ServiceLine(db, k)
    case Ingress => IngressLine(db, k, line)
    case _ => true
  }

  lemma LineRead(db: Db, k: Key)
    requires Detail(k, Lookup(db, k), Dask).Some?
    ensures IsLine(db, k, Detail(k, Lookup(db, k), Dask).value)
  {
  }

  lemma LineAt(db: Db, v: DaskView, i: nat)
    requires DetailsOk(db, v) && i < |ClusterDetails(v)|
    ensures IsLine(db, ClusterDetails(v)[i], DetailsIn(db, v)[i])
  {
    LineRead(db, ClusterDetails(v)[i]);
  }

  lemma DetailKeys(v: DaskView) returns (front: nat)
    ensures front == if v.spec.jupyterIngress != "" || v.spec.schedulerIngress != "" then 1 else 0
    ensures var details := ClusterDetails(v);
      && |details| == front + (if v.spec.jupyter then 5 else 4)
      && (front == 1 ==> details[0] == Child(ClusterIngress, v.ns, v.name))
      && details[front] == Child(SchedulerDeployment, v.ns, v.name) && details[front + 1] == Child(WorkerDeployment, v.ns, v.name)
      && details[front + 2] == Child(JupyterDeployment, v.ns, v.name) && details[front + 3] == Child(SchedulerService, v.ns, v.name)
      && (v.spec.jupyter ==> details[front + 4] == Child(JupyterService, v.ns, v.name))
  {
    front := |IngressDetails(v)|;
  }

  /** The details of a cluster in terms of a store: the Ingress if a host asks for one, the three
      Deployments, the scheduler's Service, and the notebook's if there is to be one. */
  predicate ShowsStore(db: Db, ns: string, n: string, spec: DaskSpec, lines: seq<Report>) {
    var front := if spec.jupyterIngress != "" || spec.schedulerIngress != "" then 1 else 0;
    && |lines| == front + (if spec.jupyter then 5 else 4)
    && (front == 1 ==> IngressLine(db, Child(ClusterIngress, ns, n), lines[0]))
    && lines[front] == DeploymentLine(db, Child(SchedulerDeployment, ns, n))
    && lines[front + 1] == DeploymentLine(db, Child(WorkerDeployment, ns, n))
    && lines[front + 2] == DeploymentLine(db, Child(JupyterDeployment, ns, n))
    && lines[front + 3] == ServiceLine(db, Child(SchedulerService, ns, n))
    && (spec.jupyter ==> lines[front + 4] == ServiceLine(db, Child(JupyterService, ns, n)))
  }

  lemma LinesShow(db: Db, v: DaskView, lines: seq<Report>)
    requires |lines| == |ClusterDetails(v)| && forall i :: 0 <= i < |lines| ==> IsLine(db, ClusterDetails(v)[i], lines[i])
    ensures ShowsStore(db, v.ns, v.name, v.spec, lines)
  {
    var front := DetailKeys(v);
    assert front == 1 ==> IsLine(db, ClusterDetails(v)[0], lines[0]);
    assert IsLine(db, ClusterDetails(v)[front], lines[front]) && IsLine(db, ClusterDetails(v)[front + 1], lines[front + 1]);
    assert IsLine(db, ClusterDetails(v)[front + 2], lines[front + 2]) && IsLine(db, ClusterDetails(v)[front + 3], lines[front + 3]);
    assert v.spec.jupyter ==> IsLine(db, ClusterDetails(v)[front + 4], lines[front + 4]);
  }

  /** The details a pass writes are those of the store it has read. */
  lemma ResourcesOfStore(db: Db, ns: string, n: string)
    requires IsDask(db, ns, n) && DetailsOk(db, ViewIn(db, ns, n))
    ensures ShowsStore(db, ns, n, db.objs[Cluster(ns, n)].body.spec, StatusIn(db, ns, n).resources)
  {
    var v := ViewIn(db, ns, n);
    var lines := DetailsIn(db, v);
    forall i | 0 <= i < |lines| ensures IsLine(db, ClusterDetails(v)[i], lines[i]) {
      LineAt(db, v, i);
    }
    LinesShow(db, v, lines);
  }

  lemma StatusWritten(db: Db, ns: string, n: string)
    requires IsDask(db, ns, n) && DaskPass(db, ns, n).ok
    ensures DetailsOk(db, ViewIn(db, ns, n))
    ensures var after := DaskPass(db, ns, n).db;
      IsDask(after, ns, n) && after.objs[Cluster(ns, n)].body.status == StatusIn(db, ns, n)
  {
    RecoversExactly(db, ns, n);
    PassEffect(db, ns, n);
  }

  /** Running, exactly: a pass that succeeds writes it if and only if each of the three Deployments that
      it has found has all its replicas ready. */
  lemma RunningExactly(db: Db, ns: string, n: string)
    requires IsDask(db, ns, n) && DaskPass(db, ns, n).ok
    ensures var after := DaskPass(db, ns, n).db;
      IsDask(after, ns, n) &&
      (after.objs[Cluster(ns, n)].body.status.state == Running <==>
        forall r :: r in {SchedulerDeployment, WorkerDeployment, JupyterDeployment} && Noted(db, Child(r, ns, n)) ==>
          Ready(db, Child(r, ns, n)))
  {
    StatusWritten(db, ns, n);
    StatusOfStore(db, ns, n);
  }

  /** With its replicas, Running does say something: with three, all three Deployments were there and
      ready; with two and no notebook there, the scheduler's and the workers' were. */
  lemma RunningInFull(db: Db, ns: string, n: string)
    requires IsDask(db, ns, n) && DaskPass(db, ns, n).ok
    ensures var after := DaskPass(db, ns, n).db;
      var s, w, j := Child(SchedulerDeployment, ns, n), Child(WorkerDeployment, ns, n), Child(JupyterDeployment, ns, n);
      IsDask(after, ns, n) &&
      var status := after.objs[Cluster(ns, n)].body.status;
      && (status.state == Running && status.replicas == 3 <==> Ready(db, s) && Ready(db, w) && Ready(db, j))
      && (!Noted(db, j) ==> (status.state == Running && status.replicas == 2 <==> Ready(db, s) && Ready(db, w)))
  {
    StatusWritten(db, ns, n);
    StatusOfStore(db, ns, n);
  }

  /** Running says nothing about a cluster that is still to be made: a pass that finds none of the
      three Deployments writes Running, with no replicas. */
  lemma RunningBeforeAnythingRuns(db: Db, ns: string, n: string)
    requires IsDask(db, ns, n) && DaskPass(db, ns, n).ok
    requires !Noted(db, Child(SchedulerDeployment, ns, n)) && !Noted(db, Child(WorkerDeployment, ns, n))
             && !Noted(db, Child(JupyterDeployment, ns, n))
    ensures var after := DaskPass(db, ns, n).db;
      && IsDask(after, ns, n)
      && after.objs[Cluster(ns, n)].body.status.state == Running
      && after.objs[Cluster(ns, n)].body.status.replicas == 0
  {
    StatusWritten(db, ns, n);
    StatusOfStore(db, ns, n);
  }
}
