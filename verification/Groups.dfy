/** The guarded groups a Dask pass creates its children in, and what carrying one out does to the
    store: the last member of a group is the guard whose absence starts it. */
module Groups {
  import opened Options
  import opened Names
  import opened Contexts
  import opened Objects
  import opened Models
  import opened Api
  import opened Processes
  import opened Plans
  import opened Solo

  /** The group a child belongs to; the children of DaskJobs belong to none. */
  function StageOf(r: Role): nat {
    match r
    case DnsPolicy | ClusterAccount | ClusterConfig => 0
    case JupyterPolicy | JupyterService | JupyterDeployment => 1
    case SchedulerPolicy | SchedulerService | SchedulerDeployment => 2
    case WorkerPolicy | WorkerDeployment => 3
    case ClusterIngress => 4
    case JobConfig | ReportClaim | JobAccount | JobRun => 5
  }

  function Guard(stage: nat): Role {
    match stage
    case 0 => ClusterConfig
    case 1 => JupyterDeployment
    case 2 => SchedulerDeployment
    case 3 => WorkerDeployment
    case _ => ClusterIngress
  }

  /** Where a pass looks for the guard. */
  function LookOf(stage: nat): (i: nat)
    ensures i < 5
  {
    match stage
    case 0 => 4
    case 1 => 2
    case 2 => 0
    case 3 => 1
    case _ => 3
  }

  /** Whether the spec asks for the group at all. */
  predicate Requested(stage: nat, s: Settings) {
    match stage
    case 1 => s.jupyter
    case 4 => s.jupyterIngress != "" || s.schedulerIngress != ""
    case _ => true
  }

  function WithPolicy(s: Settings, policy: Role, rest: seq<Role>): seq<Role> {
    if s.disablePolicies then rest else [policy] + rest
  }

  /** The members of a group in the order they are created, the guard last. */
  function Members(stage: nat, s: Settings): seq<Role> {
    match stage
    case 0 => WithPolicy(s, DnsPolicy, [ClusterAccount, ClusterConfig])
    case 1 => WithPolicy(s, JupyterPolicy, [JupyterService, JupyterDeployment])
    case 2 => WithPolicy(s, SchedulerPolicy, [SchedulerService, SchedulerDeployment])
    case 3 => WithPolicy(s, WorkerPolicy, [WorkerDeployment])
    case _ => [ClusterIngress]
  }

  predicate Distinct(roles: seq<Role>) {
    forall i, j :: 0 <= i < j < |roles| ==> roles[i] != roles[j]
  }

  lemma MembersAre(stage: nat, s: Settings)
    requires stage < 5
    ensures Distinct(Members(stage, s))
    ensures forall r :: r in Members(stage, s) ==> StageOf(r) == stage
    ensures |Members(stage, s)| > 0 && Members(stage, s)[|Members(stage, s)|-1] == Guard(stage)
  {
  }

  // ---- What a store has of a group ----

  /** A pass that looks finds the object. */
  predicate Noted(db: Db, k: Key) {
    Noticed(k, Lookup(db, k)).Some?
  }

  predicate ToMake(db: Db, c: Context, stage: nat) {
    Requested(stage, c.settings) && !Noted(db, ChildKey(c, Guard(stage)))
  }

  ghost predicate SomeMember(db: Db, c: Context, stage: nat) {
    exists r :: r in Members(stage, c.settings) && ChildKey(c, r) in db.objs
  }

  /** The guard is missing, but something of the group is there. */
  ghost predicate HalfMade(db: Db, c: Context, stage: nat) {
    ToMake(db, c, stage) && SomeMember(db, c, stage)
  }

  /** An Ingress asked for by a host that no rule is made of. */
  predicate Ruleless(db: Db, c: Context, stage: nat) {
    stage == 4 && ToMake(db, c, stage) && IngressRules(c) == []
  }

  ghost predicate Passable(db: Db, c: Context, stage: nat) {
    !HalfMade(db, c, stage) && !Ruleless(db, c, stage)
  }

  // ---- Carrying out creations ----

  predicate SameAt(db: Db, db': Db, k: Key) {
    && (k in db.objs <==> k in db'.objs)
    && (k in db.objs ==> db.objs[k] == db'.objs[k])
  }

  /** A call that creates the child as the Dask's own. */
  predicate Makes(c: Context, r: Role, call: Call) {
    && call.Create? && call.key == ChildKey(c, r) && call.owner == DaskOwner(c) && Fits(call.key, call.body)
    && (Admissible(call.body) <==> (r == ClusterIngress ==> IngressRules(c) != []))
    && (r == WorkerDeployment ==> call.body.replicas == c.settings.replicas)
  }

  predicate MakesAll(c: Context, roles: seq<Role>, calls: seq<Call>) {
    |calls| == |roles| && forall i :: 0 <= i < |roles| ==> Makes(c, roles[i], calls[i])
  }

  /** The child is there as the operator makes it. */
  predicate MadeIn(db: Db, c: Context, r: Role) {
    && ChildKey(c, r) in db.objs
    && db.objs[ChildKey(c, r)].owner == Some(DaskOwner(c))
    && Fits(ChildKey(c, r), db.objs[ChildKey(c, r)].body)
    && (r == WorkerDeployment ==> db.objs[ChildKey(c, r)].body.replicas == c.settings.replicas)
  }

  predicate Free(db: Db, c: Context, r: Role) {
    ChildKey(c, r) !in db.objs && (r == ClusterIngress ==> IngressRules(c) != [])
  }

  predicate OnlyAt(db: Db, db': Db, c: Context, roles: seq<Role>, k: Key) {
    (k.Child? && k.ns == c.ns && k.instance == c.name && k.role in roles) || SameAt(db, db', k)
  }

  lemma CreateOne(db: Db, c: Context, r: Role, call: Call)
    requires Makes(c, r, call)
    ensures Write(db, call).Some? <==> Free(db, c, r)
    ensures Write(db, call).Some? ==>
      MadeIn(Write(db, call).value, c, r) && forall k :: k != call.key ==> SameAt(db, Write(db, call).value, k)
  {
  }

  /** A run of creations succeeds exactly when every key is free and every body admissible; if it
      does not, the last of them has not been created. */
  lemma {:induction false} CreationsRun(db: Db, c: Context, roles: seq<Role>, calls: seq<Call>)
    requires MakesAll(c, roles, calls) && Distinct(roles)
    ensures Execute(db, calls).ok <==> forall r :: r in roles ==> Free(db, c, r)
    ensures forall k :: OnlyAt(db, Execute(db, calls).db, c, roles, k)
    ensures forall k :: k in db.objs ==> SameAt(db, Execute(db, calls).db, k)
    ensures Execute(db, calls).ok ==> forall r :: r in roles ==> MadeIn(Execute(db, calls).db, c, r)
    ensures !Execute(db, calls).ok ==> roles != [] && SameAt(db, Execute(db, calls).db, ChildKey(c, roles[|roles|-1]))
    decreases |calls|
  {
    if calls == [] {
    } else {
      var r, call := roles[0], calls[0];
      CreateOne(db, c, r, call);
      assert forall x :: x in roles <==> x == r || x in roles[1..];
      if Free(db, c, r) {
        var db1 := Write(db, call).value;
        CreationsRun(db1, c, roles[1..], calls[1..]);
        assert r !in roles[1..];
        assert forall x :: x != r ==> (Free(db1, c, x) <==> Free(db, c, x));
        var o := Execute(db1, calls[1..]);
        assert SameAt(db1, o.db, call.key);
        forall k ensures OnlyAt(db, o.db, c, roles, k) {
          assert OnlyAt(db1, o.db, c, roles[1..], k);
        }
        assert forall k :: k in db.objs ==> SameAt(db, db1, k) && SameAt(db1, o.db, k);
        if !o.ok {
          assert roles[1..][|roles|-2] == roles[|roles|-1];
        }
      }
    }
  }

  // ---- The groups of a plan ----

  lemma MakeMakes(c: Context, d: Context, r: Role)
    requires SamePlace(c, d) && OfCluster(r)
    ensures Makes(c, r, MakeForCluster(d, r))
  {
  }

  lemma PolicyMakes(c: Context, r: Role)
    requires StageOf(r) <= 3 && KindOf(ChildKey(c, r)) == NetworkPolicy
    ensures SamePlace(c, PolicyGroup(c, r).after)
    ensures MakesAll(c, WithPolicy(c.settings, r, []), PolicyGroup(c, r).calls)
  {
  }

  lemma MakesThen(c: Context, r1: seq<Role>, c1: seq<Call>, r2: seq<Role>, c2: seq<Call>)
    requires MakesAll(c, r1, c1) && MakesAll(c, r2, c2)
    ensures MakesAll(c, r1 + r2, c1 + c2)
  {
  }

  lemma ConfigMakes(c: Context)
    ensures MakesAll(c, Members(0, c.settings), ConfigGroup(c, true).calls)
  {
  }

  lemma JupyterMakes(c: Context)
    requires c.settings.jupyter
    ensures MakesAll(c, Members(1, c.settings), JupyterGroup(c, true).calls)
  {
  }

  lemma SchedulerMakes(c: Context)
    ensures MakesAll(c, Members(2, c.settings), SchedulerGroup(c, true).calls)
  {
    var g := PolicyGroup(c, SchedulerPolicy);
    PolicyMakes(c, SchedulerPolicy);
    MakeMakes(c, g.after, SchedulerService);
    MakeMakes(c, ForRole(g.after, ForScheduler), SchedulerDeployment);
    var rest := [MakeForCluster(g.after, SchedulerService), MakeForCluster(ForRole(g.after, ForScheduler), SchedulerDeployment)];
    MakesThen(c, WithPolicy(c.settings, SchedulerPolicy, []), g.calls, [SchedulerService, SchedulerDeployment], rest);
    assert Members(2, c.settings) == WithPolicy(c.settings, SchedulerPolicy, []) + [SchedulerService, SchedulerDeployment];
  }

  lemma WorkersMake(c: Context)
    ensures MakesAll(c, Members(3, c.settings), WorkerGroup(c, None).calls)
  {
  }

  /** A group that is asked for and whose guard was not found makes all its members in order. */
  lemma GroupMakes(stage: nat, c: Context, seen: Seen)
    requires stage < 5 && |seen| == 5 && Requested(stage, c.settings) && seen[LookOf(stage)].None?
    ensures MakesAll(c, Members(stage, c.settings), StageGroup(stage, c, seen).calls)
  {
    match stage
    case 0 => ConfigMakes(c);
    case 1 => JupyterMakes(c);
    case 2 => SchedulerMakes(c);
    case 3 => WorkersMake(c);
    case _ => MakeMakes(c, c, ClusterIngress);
  }

  /** Any other group does nothing, but for rescaling the workers. */
  lemma GroupRests(stage: nat, c: Context, seen: Seen)
    requires stage < 5 && |seen| == 5 && !(Requested(stage, c.settings) && seen[LookOf(stage)].None?)
    ensures StageGroup(stage, c, seen).calls ==
      if stage == 3 then Rescale(ChildKey(c, WorkerDeployment), seen[1].value, c.settings.replicas) else []
  {
  }
}
