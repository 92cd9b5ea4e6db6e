/** Passes for different resources never touch each other's objects, under the names the API server
    knows them by. */
module NonInterference {
  import opened Options
  import opened Names
  import opened Objects
  import opened Api
  import opened Processes
  import opened Plans
  import opened Operator

  // ---- The store as the API server indexes it ----

  lemma AllNamesDistinct()
    ensures forall k1: Key, k2: Key {:trigger ApiNameOf(k1), ApiNameOf(k2)} :: ApiNameOf(k1) == ApiNameOf(k2) ==> k1 == k2
  {
    forall k1: Key, k2: Key | ApiNameOf(k1) == ApiNameOf(k2) ensures k1 == k2 {
      if k1 != k2 {
        ApiNamesInjective(k1, k2);
      }
    }
  }

  /** The store by kind, namespace and name. It is a map because no two keys share those. */
  ghost function ApiView(db: Db): map<ApiName, Obj> {
    AllNamesDistinct();
    map k | k in db.objs :: ApiNameOf(k) := db.objs[k]
  }

  /** Looking an object up by key is looking it up by name. */
  lemma SameLookups(db: Db, k: Key)
    ensures k in db.objs <==> ApiNameOf(k) in ApiView(db)
    ensures k in db.objs ==> ApiView(db)[ApiNameOf(k)] == db.objs[k]
  {
    AllNamesDistinct();
  }

  lemma SameNames(db: Db, c: Call, db': Db)
    requires IsWrite(c) && Write(db, c) == Some(db')
    ensures forall n :: n in ApiView(db') <==> n in ApiView(db) || n == ApiNameOf(c.key)
  {
    AllNamesDistinct();
    assert c.key in db'.objs;
    forall n ensures n in ApiView(db') <==> n in ApiView(db) || n == ApiNameOf(c.key) {
      if n in ApiView(db') {
        var k :| k in db'.objs && ApiNameOf(k) == n;
        assert k == c.key || k in db.objs;
      }
      if n in ApiView(db) {
        var k :| k in db.objs && ApiNameOf(k) == n;
        assert k in db'.objs;
      }
    }
  }

  lemma SameValue(db: Db, c: Call, db': Db, k: Key)
    requires IsWrite(c) && Write(db, c) == Some(db') && k in db'.objs
    ensures ApiView(db')[ApiNameOf(k)] == ApiView(db)[ApiNameOf(c.key) := db'.objs[c.key]][ApiNameOf(k)]
  {
    SameLookups(db', k);
    if k == c.key {
    } else {
      SameLookups(db, k);
      ApiNamesInjective(k, c.key);
    }
  }

  /** Writing under a key is writing under its name, and under no other. */
  lemma SameWrites(db: Db, c: Call, db': Db)
    requires IsWrite(c) && Write(db, c) == Some(db')
    ensures ApiView(db') == ApiView(db)[ApiNameOf(c.key) := db'.objs[c.key]]
  {
    var view, view' := ApiView(db), ApiView(db');
    SameNames(db, c, db');
    forall n | n in view' ensures view'[n] == view[ApiNameOf(c.key) := db'.objs[c.key]][n] {
      var k :| k in db'.objs && ApiNameOf(k) == n;
      SameValue(db, c, db', k);
    }
  }

  // ---- Every pass keeps to its own resource ----

  ghost predicate AllKeepToOwn(w: World) {
    forall i :: 0 <= i < |w.passes| ==> KeepsToOwn(w.passes[i])
  }

  lemma AdvanceKeepsToOwn(w: World, i: nat, c: Call, a: Answer)
    requires w.history != [] && AllKeepToOwn(w) && i < |w.passes|
    ensures AllKeepToOwn(AdvancePass(w, i, c, a))
  {
    MovedKeepsToOwn(w.passes[i], Perform(w, c, a).resp);
  }

  lemma StepKeepsToOwn(w: World, s: Step)
    requires w.history != [] && AllKeepToOwn(w)
    ensures AllKeepToOwn(Apply(w, s))
  {
    if s.Advance? && s.pass < |w.passes| && Next(w.passes[s.pass]).Some? {
      AdvanceKeepsToOwn(w, s.pass, Next(w.passes[s.pass]).value, s.answer);
    }
  }

  lemma {:induction false} RunKeepsToOwn(steps: seq<Step>)
    ensures AllKeepToOwn(Run(steps))
  {
    if steps == [] {
    } else {
      RunKeepsToOwn(steps[..|steps|-1]);
      StepKeepsToOwn(Run(steps[..|steps|-1]), steps[|steps|-1]);
    }
  }

  /** The API server holds the same under that name in both stores. */
  ghost predicate SameUnder(db: Db, db': Db, name: ApiName) {
    && (name in ApiView(db) <==> name in ApiView(db'))
    && (name in ApiView(db) ==> ApiView(db)[name] == ApiView(db')[name])
  }

  lemma PassWritesOwnNames(w: World, p: Process, c: Call, a: Answer, name: ApiName)
    requires w.history != [] && Next(p) == Some(c) && KeepsToOwn(p)
    requires forall k :: OwnerOf(p) == Some(OwnerKey(k)) ==> ApiNameOf(k) != name
    ensures var o := Perform(w, c, a);
      o.db.Some? ==> SameUnder(Now(w), o.db.value, name)
  {
    var o := Perform(w, c, a);
    if o.db.Some? {
      WritesOwn(p, c);
      SameWrites(Now(w), c, o.db.value);
      assert ApiNameOf(c.key) != name;
    }
  }

  lemma StoreAfterAdvance(w: World, i: nat, c: Call, a: Answer)
    requires w.history != [] && i < |w.passes|
    ensures Now(AdvancePass(w, i, c, a)) == if Perform(w, c, a).db.Some? then Perform(w, c, a).db.value else Now(w)
  {
  }

  lemma AdvanceIs(w: World, i: nat, a: Answer)
    requires w.history != [] && i < |w.passes|
    ensures Apply(w, Advance(i, a)) == if Next(w.passes[i]).Some? then AdvancePass(w, i, Next(w.passes[i]).value, a) else w
  {
  }

  lemma AdvanceTouchesOwnNames(w: World, i: nat, a: Answer, name: ApiName)
    requires w.history != [] && i < |w.passes| && KeepsToOwn(w.passes[i])
    requires forall k :: OwnerOf(w.passes[i]) == Some(OwnerKey(k)) ==> ApiNameOf(k) != name
    ensures SameUnder(Now(w), Now(Apply(w, Advance(i, a))), name)
  {
    AdvanceIs(w, i, a);
    if Next(w.passes[i]).Some? {
      var c := Next(w.passes[i]).value;
      StoreAfterAdvance(w, i, c, a);
      PassWritesOwnNames(w, w.passes[i], c, a, name);
    }
  }

  /** In every run, deletions included, a pass only writes objects of the resource it was started
      for: what the API server holds under any other name is the same before and after its step. */
  lemma PassesDoNotInterfere(steps: seq<Step>, i: nat, a: Answer, name: ApiName)
    requires i < |Run(steps).passes|
    requires forall k :: OwnerOf(Run(steps).passes[i]) == Some(OwnerKey(k)) ==> ApiNameOf(k) != name
    ensures SameUnder(Now(Run(steps)), Now(Apply(Run(steps), Advance(i, a))), name)
  {
    RunKeepsToOwn(steps);
    AdvanceTouchesOwnNames(Run(steps), i, a, name);
  }

  /** In particular two different resources have no object in common. */
  lemma ResourcesShareNoName(k1: Key, k2: Key)
    requires OwnerKey(k1) != OwnerKey(k2)
    ensures ApiNameOf(k1) != ApiNameOf(k2)
  {
    if ApiNameOf(k1) == ApiNameOf(k2) {
      AllNamesDistinct();
    }
  }
}
