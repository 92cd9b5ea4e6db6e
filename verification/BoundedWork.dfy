/** How much a resource can make the operator create. */
module BoundedWork {
  import opened Options
  import opened Names
  import opened Api
  import opened Processes
  import opened Operator
  import opened Ledger

  ghost function ChildrenOf(owner: Key): set<Key>
    requires !owner.Child?
  {
    match owner
    case Cluster(ns, n) =>
      {Child(DnsPolicy, ns, n), Child(ClusterAccount, ns, n), Child(ClusterConfig, ns, n),
       Child(JupyterPolicy, ns, n), Child(JupyterService, ns, n), Child(JupyterDeployment, ns, n),
       Child(SchedulerPolicy, ns, n), Child(SchedulerService, ns, n), Child(SchedulerDeployment, ns, n),
       Child(WorkerPolicy, ns, n), Child(WorkerDeployment, ns, n), Child(ClusterIngress, ns, n)}
    case Work(ns, n) =>
      {Child(JobConfig, ns, n), Child(ReportClaim, ns, n), Child(JobAccount, ns, n), Child(JobRun, ns, n)}
  }

  lemma ChildrenOfAreAll(owner: Key, k: Key)
    requires !owner.Child? && k.Child?
    ensures k in ChildrenOf(owner) <==> OwnerKey(k) == owner
  {
  }

  lemma ChildrenBound(owner: Key)
    requires !owner.Child?
    ensures |ChildrenOf(owner)| <= if owner.Cluster? then 12 else 4
  {
  }

  predicate CreatesFor(e: Event, owner: Key) {
    e.Created? && e.key.Child? && OwnerKey(e.key) == owner
  }

  /** The successful creations for one resource. */
  function CreatedFor(log: seq<Event>, owner: Key): nat {
    if log == [] then 0 else CreatedFor(log[..|log|-1], owner) + if CreatesFor(log[|log|-1], owner) then 1 else 0
  }

  ghost predicate OnceEach(log: seq<Event>) {
    forall k: Key :: k.Child? ==> Count(log, Created(k)) <= 1
  }

  lemma {:induction false} CountIsMonotone(log: seq<Event>, e: Event)
    requires log != []
    ensures Count(log[..|log|-1], e) <= Count(log, e)
  {
  }

  lemma {:induction false} CountedIsLogged(log: seq<Event>, e: Event)
    ensures Count(log, e) > 0 <==> e in log
  {
    if log == [] {
    } else {
      CountedIsLogged(log[..|log|-1], e);
      assert log == log[..|log|-1] + [log[|log|-1]];
    }
  }

  /** If nothing is created twice, the creations for a resource are as many as what they created. */
  lemma {:induction false} CreatedAsMany(log: seq<Event>, owner: Key) returns (made: set<Key>)
    requires !owner.Child? && OnceEach(log)
    ensures CreatedFor(log, owner) == |made| && made <= ChildrenOf(owner)
    ensures forall k :: k in made <==> k.Child? && OwnerKey(k) == owner && Created(k) in log
  {
    if log == [] {
      made := {};
    } else {
      var before, e := log[..|log|-1], log[|log|-1];
      forall k: Key | k.Child? ensures Count(before, Created(k)) <= 1 {
        CountIsMonotone(log, Created(k));
      }
      made := CreatedAsMany(before, owner);
      assert log == before + [e];
      if CreatesFor(e, owner) {
        assert Count(log, e) == Count(before, e) + 1;
        CountedIsLogged(before, e);
        ChildrenOfAreAll(owner, e.key);
        made := made + {e.key};
      }
    }
  }

  lemma {:induction false} NothingDeleted(steps: seq<Step>, k: Key)
    requires NoDeletions(steps)
    ensures Count(Run(steps).log, Deleted(k)) == 0
  {
    if steps == [] {
    } else {
      var w, s := Run(steps[..|steps|-1]), steps[|steps|-1];
      NothingDeleted(steps[..|steps|-1], k);
      match s
      case Advance(i, a) =>
        if i < |w.passes| && Next(w.passes[i]).Some? {
          var c := Next(w.passes[i]).value;
          AdvanceLogs(w, i, c, a);
          if Perform(w, c, a).db.Some? {
            CountOne(w.log, Deleted(k), EventOf(c));
          }
        }
      case Submit(_, _) => QuietStep(w, s);
      case Edit(_, _) => QuietStep(w, s);
      case _ =>
    }
  }

  lemma CreatedOnce(steps: seq<Step>)
    requires NoDeletions(steps)
    ensures OnceEach(Run(steps).log)
  {
    forall k: Key | k.Child? ensures Count(Run(steps).log, Created(k)) <= 1 {
      CreationsBalance(steps, k);
      NothingDeleted(steps, k);
    }
  }

  /** In a run without deletions at most twelve creations succeed for a Dask and four for a DaskJob,
      however many passes run and fail. */
  lemma CreationsAreBounded(steps: seq<Step>, owner: Key)
    requires NoDeletions(steps) && !owner.Child?
    ensures CreatedFor(Run(steps).log, owner) <= if owner.Cluster? then 12 else 4
  {
    CreatedOnce(steps);
    var made := CreatedAsMany(Run(steps).log, owner);
    Smaller(made, ChildrenOf(owner));
    ChildrenBound(owner);
  }

  lemma {:induction false} Smaller<T>(a: set<T>, b: set<T>)
    requires a <= b
    ensures |a| <= |b|
  {
    if a == {} {
    } else {
      var x :| x in a;
      Smaller(a - {x}, b - {x});
    }
  }

  // ---- The children still missing are a measure of progress ----

  ghost function Missing(db: Db, owner: Key): set<Key>
    requires !owner.Child?
  {
    ChildrenOf(owner) - db.objs.Keys
  }

  /** No step but a deletion ever adds to what is missing, and each creation strictly reduces it. */
  lemma MissingShrinks(w: World, s: Step, owner: Key)
    requires w.history != [] && !s.Delete? && !owner.Child?
    ensures var w' := Apply(w, s);
      && Missing(Now(w'), owner) <= Missing(Now(w), owner)
      && (CreatedFor(w'.log, owner) > CreatedFor(w.log, owner) ==> Missing(Now(w'), owner) < Missing(Now(w), owner))
  {
    match s
    case Advance(i, a) =>
      if i < |w.passes| && Next(w.passes[i]).Some? {
        var c := Next(w.passes[i]).value;
        AdvanceLogs(w, i, c, a);
        var o := Perform(w, c, a);
        if o.db.Some? {
          WriteShrinks(Now(w), c, o.db.value, owner);
          assert (w.log + [EventOf(c)])[..|w.log|] == w.log;
        }
      }
    case Submit(_, _) => QuietStep(w, s);
    case Edit(_, _) => QuietStep(w, s);
    case _ =>
  }

  lemma WriteShrinks(db: Db, c: Call, db': Db, owner: Key)
    requires Write(db, c) == Some(db') && !owner.Child?
    ensures Missing(db', owner) <= Missing(db, owner)
    ensures CreatesFor(EventOf(c), owner) ==> Missing(db', owner) < Missing(db, owner)
  {
    forall k ensures k in db'.objs <==> k in db.objs || EventOf(c) == Created(k) {
      WriteMembership(db, c, db', k);
    }
    if CreatesFor(EventOf(c), owner) {
      WriteMembership(db, c, db', c.key);
      ChildrenOfAreAll(owner, c.key);
      assert c.key in Missing(db, owner) && c.key !in Missing(db', owner);
    }
  }
}
