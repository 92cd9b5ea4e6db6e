/** What each Deployment is given to run with. The calls that specialise the context for a role
    change the one context of the pass, and the policies of every role are made through the notebook's,
    so the result depends on which groups the pass creates and in which order. */
module RoleResults {
  import opened Options
  import opened Names
  import opened Specs
  import opened Contexts
  import opened Objects
  import opened Models
  import opened Api
  import opened Processes

  // ---- The order a pass really makes the calls in ----

  function PolicyCalls(s: Settings): seq<RoleCall> {
    if s.disablePolicies then [] else [ForNotebook]
  }

  function JupyterCalls(s: Settings, seen: Seen): seq<RoleCall>
    requires |seen| == 5
  {
    if s.jupyter && seen[2].None? then PolicyCalls(s) + [ForNotebook] else []
  }

  function SchedulerCalls(s: Settings, seen: Seen): seq<RoleCall>
    requires |seen| == 5
  {
    if seen[0].None? then PolicyCalls(s) + [ForScheduler] else []
  }

  function WorkerCalls(s: Settings, seen: Seen): seq<RoleCall>
    requires |seen| == 5
  {
    if seen[1].None? then PolicyCalls(s) + [ForWorker] else []
  }

  /** The calls of one stage, and those made before it. */
  function StageCalls(stage: nat, s: Settings, seen: Seen): seq<RoleCall>
    requires |seen| == 5
  {
    match stage
    case 1 => JupyterCalls(s, seen)
    case 2 => SchedulerCalls(s, seen)
    case 3 => WorkerCalls(s, seen)
    case _ => []
  }

  function CallsUpTo(stage: nat, s: Settings, seen: Seen): seq<RoleCall>
    requires |seen| == 5
    decreases stage, |seen|
  {
    if stage == 0 then [] else CallsUpTo(stage - 1, s, seen) + StageCalls(stage - 1, s, seen)
  }

  function OwnCall(r: Role): RoleCall {
    match r
    case SchedulerDeployment => ForScheduler
    case WorkerDeployment => ForWorker
    case _ => ForNotebook
  }

  /** The calls made before the one that is for the role itself. */
  function EarlierCalls(r: Role, s: Settings, seen: Seen): seq<RoleCall>
    requires |seen| == 5
  {
    match r
    case WorkerDeployment => JupyterCalls(s, seen) + SchedulerCalls(s, seen) + PolicyCalls(s)
    case SchedulerDeployment => JupyterCalls(s, seen) + PolicyCalls(s)
    case _ => PolicyCalls(s)
  }

  // ---- The plan follows that order ----

  lemma FoldedMore(c: Context, calls: seq<RoleCall>, call: RoleCall)
    ensures Folded(c, calls + [call]) == ForRole(Folded(c, calls), call)
  {
  }

  lemma FoldedPolicy(c: Context, calls: seq<RoleCall>, r: Role)
    ensures PolicyGroup(Folded(c, calls), r).after == Folded(c, calls + PolicyCalls(c.settings))
  {
    FoldKeepsTheRest(c, calls);
    FoldedMore(c, calls, ForNotebook);
    assert calls + [] == calls;
  }

  lemma FoldedRole(c: Context, calls: seq<RoleCall>, r: Role)
    ensures ForRole(PolicyGroup(Folded(c, calls), r).after, OwnCall(r)) == Folded(c, calls + (PolicyCalls(c.settings) + [OwnCall(r)]))
    ensures ForRole(PolicyGroup(Folded(c, calls), r).after, ForNotebook) == Folded(c, calls + (PolicyCalls(c.settings) + [ForNotebook]))
  {
    FoldedPolicy(c, calls, r);
    FoldedMore(c, calls + PolicyCalls(c.settings), OwnCall(r));
    FoldedMore(c, calls + PolicyCalls(c.settings), ForNotebook);
    assert calls + PolicyCalls(c.settings) + [OwnCall(r)] == calls + (PolicyCalls(c.settings) + [OwnCall(r)]);
    assert calls + PolicyCalls(c.settings) + [ForNotebook] == calls + (PolicyCalls(c.settings) + [ForNotebook]);
  }

  lemma SameForPolicy(c: Context, r1: Role, r2: Role)
    ensures PolicyGroup(c, r1).after == PolicyGroup(c, r2).after
  {
  }

  lemma JupyterFolds(c: Context, calls: seq<RoleCall>, seen: Seen)
    requires |seen| == 5
    ensures JupyterGroup(Folded(c, calls), seen[2].None?).after == Folded(c, calls + JupyterCalls(c.settings, seen))
  {
    FoldKeepsTheRest(c, calls);
    if c.settings.jupyter && seen[2].None? {
      FoldedRole(c, calls, JupyterPolicy);
    } else {
      assert calls + [] == calls;
    }
  }

  lemma SchedulerFolds(c: Context, calls: seq<RoleCall>, seen: Seen)
    requires |seen| == 5
    ensures SchedulerGroup(Folded(c, calls), seen[0].None?).after == Folded(c, calls + SchedulerCalls(c.settings, seen))
  {
    if seen[0].None? {
      SameForPolicy(Folded(c, calls), SchedulerPolicy, SchedulerDeployment);
      FoldedRole(c, calls, SchedulerDeployment);
    } else {
      assert calls + [] == calls;
    }
  }

  lemma WorkersFold(c: Context, calls: seq<RoleCall>, seen: Seen)
    requires |seen| == 5
    ensures WorkerGroup(Folded(c, calls), seen[1]).after == Folded(c, calls + WorkerCalls(c.settings, seen))
  {
    if seen[1].None? {
      SameForPolicy(Folded(c, calls), WorkerPolicy, WorkerDeployment);
      FoldedRole(c, calls, WorkerDeployment);
    } else {
      assert calls + [] == calls;
    }
  }

  lemma StageFolds(stage: nat, c: Context, calls: seq<RoleCall>, seen: Seen)
    requires |seen| == 5
    ensures StageGroup(stage, Folded(c, calls), seen).after == Folded(c, calls + StageCalls(stage, c.settings, seen))
  {
    match stage
    case 1 => JupyterFolds(c, calls, seen);
    case 2 => SchedulerFolds(c, calls, seen);
    case 3 => WorkersFold(c, calls, seen);
    case _ => assert calls + [] == calls;
  }

  predicate MakesDeployment(c: Call) {
    c.Create? && c.body.DeploymentBody?
  }

  /** The Deployment a stage is there for. */
  function DeploymentOf(stage: nat): Role {
    match stage
    case 1 => JupyterDeployment
    case 2 => SchedulerDeployment
    case _ => WorkerDeployment
  }

  /** A call that makes the Deployment of that stage from the context the stage ends with. */
  predicate MadeAt(stage: nat, after: Context, c: Call) {
    && 1 <= stage <= 3 && MakesDeployment(c)
    && c.key == ChildKey(after, DeploymentOf(stage))
    && c.body.pod.settings == after.pod
  }

  lemma JupyterGroupMakes(c: Context, seen: Seen, call: Call)
    requires |seen| == 5 && call in JupyterGroup(c, seen[2].None?).calls && MakesDeployment(call)
    ensures MadeAt(1, JupyterGroup(c, seen[2].None?).after, call)
    ensures JupyterCalls(c.settings, seen) == PolicyCalls(c.settings) + [ForNotebook]
  {
  }

  lemma SchedulerGroupMakes(c: Context, seen: Seen, call: Call)
    requires |seen| == 5 && call in SchedulerGroup(c, seen[0].None?).calls && MakesDeployment(call)
    ensures MadeAt(2, SchedulerGroup(c, seen[0].None?).after, call)
    ensures SchedulerCalls(c.settings, seen) == PolicyCalls(c.settings) + [ForScheduler]
  {
  }

  lemma WorkerGroupMakes(c: Context, seen: Seen, call: Call)
    requires |seen| == 5 && call in WorkerGroup(c, seen[1]).calls && MakesDeployment(call)
    ensures MadeAt(3, WorkerGroup(c, seen[1]).after, call)
    ensures WorkerCalls(c.settings, seen) == PolicyCalls(c.settings) + [ForWorker]
  {
  }

  lemma StageMakes(stage: nat, c: Context, seen: Seen, call: Call)
    requires |seen| == 5 && call in StageGroup(stage, c, seen).calls && MakesDeployment(call)
    ensures MadeAt(stage, StageGroup(stage, c, seen).after, call)
    ensures StageCalls(stage, c.settings, seen) == PolicyCalls(c.settings) + [OwnCall(DeploymentOf(stage))]
  {
    match stage
    case 1 => JupyterGroupMakes(c, seen, call);
    case 2 => SchedulerGroupMakes(c, seen, call);
    case 3 => WorkerGroupMakes(c, seen, call);
    case _ =>
  }

  /** The settings a Deployment runs with are the fold of the calls made up to its own. */
  predicate GivenFold(c: Context, seen: Seen, call: Call)
    requires |seen| == 5
  {
    && MakesDeployment(call) && call.key.Child? && call.key.role in {JupyterDeployment, SchedulerDeployment, WorkerDeployment}
    && call.body.pod.settings == Folded(c, EarlierCalls(call.key.role, c.settings, seen) + [OwnCall(call.key.role)]).pod
  }

  lemma MadeAtGives(stage: nat, c: Context, seen: Seen, call: Call)
    requires |seen| == 5 && 1 <= stage <= 3
    requires MadeAt(stage, Folded(c, EarlierCalls(DeploymentOf(stage), c.settings, seen) + [OwnCall(DeploymentOf(stage))]), call)
    ensures GivenFold(c, seen, call)
  {
  }

  lemma StageMakesFolded(stage: nat, c: Context, calls: seq<RoleCall>, seen: Seen, call: Call)
    requires |seen| == 5 && call in StageGroup(stage, Folded(c, calls), seen).calls && MakesDeployment(call)
    ensures 1 <= stage <= 3
    ensures MadeAt(stage, Folded(c, calls + (PolicyCalls(c.settings) + [OwnCall(DeploymentOf(stage))])), call)
  {
    FoldKeepsTheRest(c, calls);
    StageMakes(stage, Folded(c, calls), seen, call);
    StageFolds(stage, c, calls, seen);
  }

  lemma CallsBefore(stage: nat, s: Settings, seen: Seen)
    requires |seen| == 5 && 1 <= stage <= 3
    ensures var own := OwnCall(DeploymentOf(stage));
      CallsUpTo(stage, s, seen) + (PolicyCalls(s) + [own]) == EarlierCalls(DeploymentOf(stage), s, seen) + [own]
  {
  }

  lemma StageGives(stage: nat, c: Context, seen: Seen, call: Call)
    requires |seen| == 5
    requires call in StageGroup(stage, Folded(c, CallsUpTo(stage, c.settings, seen)), seen).calls && MakesDeployment(call)
    ensures GivenFold(c, seen, call)
  {
    StageMakesFolded(stage, c, CallsUpTo(stage, c.settings, seen), seen, call);
    CallsBefore(stage, c.settings, seen);
    MadeAtGives(stage, c, seen, call);
  }

  lemma {:induction false} PlanGives(stage: nat, c: Context, seen: Seen, last: Call, call: Call)
    requires |seen| == 5 && stage <= 5 && !MakesDeployment(last)
    requires call in PlanFrom(stage, Folded(c, CallsUpTo(stage, c.settings, seen)), seen, last) && MakesDeployment(call)
    ensures GivenFold(c, seen, call)
    decreases 5 - stage
  {
    if stage == 5 {
    } else {
      var calls := CallsUpTo(stage, c.settings, seen);
      var g := StageGroup(stage, Folded(c, calls), seen);
      StageFolds(stage, c, calls, seen);
      assert g.after == Folded(c, CallsUpTo(stage + 1, c.settings, seen));
      if call in g.calls {
        StageGives(stage, c, seen, call);
      } else {
        PlanGives(stage + 1, c, seen, last, call);
      }
    }
  }

  /** In the plan of any pass, every Deployment is made with the fold, over the role specs, of
      exactly the calls that pass makes up to the Deployment's own. */
  lemma DeploymentsGetTheFold(v: DaskView, seen: Seen, reports: seq<Report>, call: Call)
    requires |seen| == 5 && call in ClusterPlan(v, seen, reports) && MakesDeployment(call)
    ensures GivenFold(DaskContextOf(v), seen, call)
  {
    PlanGives(0, DaskContextOf(v), seen, StatusCall(v, seen, reports), call);
  }

  // ---- What that comes to ----

  /** Every list or map is left out or has something in it. */
  predicate Clean(p: PodSettings) {
    forall f :: FieldOf(p, f) != Val([])
  }

  /** The last call with a clean spec of its own decides all five fields alone. */
  lemma LastSpecWins(c: Context, calls: seq<RoleCall>, i: nat)
    requires i < |calls| && RoleSettings(c, calls[i]).Some? && Clean(RoleSettings(c, calls[i]).value)
    requires forall j :: i < j < |calls| ==> RoleSettings(c, calls[j]).None?
    ensures forall f :: FieldOf(Folded(c, calls).pod, f) == FieldOf(RoleSettings(c, calls[i]).value, f)
  {
    forall f ensures FieldOf(Folded(c, calls).pod, f) == FieldOf(RoleSettings(c, calls[i]).value, f) {
      FoldIsLastWord(c, calls, f);
      assert HasLastWord(c, calls, f, i);
    }
  }

  /** Calls for roles without a spec change nothing. */
  lemma {:induction false} NilCallsChangeNothing(c: Context, calls: seq<RoleCall>, more: seq<RoleCall>)
    requires forall i :: 0 <= i < |more| ==> RoleSettings(c, more[i]).None?
    ensures Folded(c, calls + more) == Folded(c, calls)
  {
    if more == [] {
      assert calls + more == calls;
    } else {
      var n := |more| - 1;
      NilCallsChangeNothing(c, calls, more[..n]);
      FoldKeepsTheRest(c, calls);
      assert calls + more == calls + more[..n] + [more[n]];
      FoldedMore(c, calls + more[..n], more[n]);
    }
  }

  /** The resource's own settings for the pods of a Deployment. */
  function OwnSpec(spec: DaskSpec, deployment: Role): Option<PodSettings> {
    match deployment
    case SchedulerDeployment => spec.scheduler
    case WorkerDeployment => spec.worker
    case JupyterDeployment => spec.notebook
    case _ => None
  }

  /** A Deployment whose role has a clean spec runs with that spec's fields alone, whatever was
      created before it. */
  lemma OwnSpecAlone(v: DaskView, seen: Seen, reports: seq<Report>, call: Call, f: FieldName)
    requires |seen| == 5 && call in ClusterPlan(v, seen, reports) && MakesDeployment(call) && call.key.Child?
    requires OwnSpec(v.spec, call.key.role).Some? && Clean(OwnSpec(v.spec, call.key.role).value)
    ensures FieldOf(call.body.pod.settings, f) == FieldOf(OwnSpec(v.spec, call.key.role).value, f)
  {
    DeploymentsGetTheFold(v, seen, reports, call);
    var c := DaskContextOf(v);
    var earlier := EarlierCalls(call.key.role, c.settings, seen);
    LastSpecWins(c, earlier + [OwnCall(call.key.role)], |earlier|);
  }

  /** A Deployment whose role has no spec runs with what the earlier calls have left. */
  lemma NoSpecInherits(v: DaskView, seen: Seen, reports: seq<Report>, call: Call)
    requires |seen| == 5 && call in ClusterPlan(v, seen, reports) && MakesDeployment(call) && call.key.Child?
    requires OwnSpec(v.spec, call.key.role).None?
    ensures var c := DaskContextOf(v);
      call.body.pod.settings == Folded(c, EarlierCalls(call.key.role, c.settings, seen)).pod
  {
    DeploymentsGetTheFold(v, seen, reports, call);
    var c := DaskContextOf(v);
    NilCallsChangeNothing(c, EarlierCalls(call.key.role, c.settings, seen), [OwnCall(call.key.role)]);
  }

  /** A role that leaves the shared settings as they are: it has no spec, or one with every list and map
      empty and the pull secrets not nil. */
  predicate SaysNothing(c: Context, call: RoleCall) {
    var role := RoleSettings(c, call);
    role.Some? ==> !role.value.pullSecrets.Nil? && forall f :: FieldOf(role.value, f) == Val([])
  }

  predicate NothingSaid(c: Context, calls: seq<RoleCall>) {
    forall i :: 0 <= i < |calls| ==> SaysNothing(c, calls[i])
  }

  /** The shared settings come through a history of calls, whatever they are. */
  ghost predicate SharedComeThrough(c: Context, calls: seq<RoleCall>) {
    forall shared :: Folded(c.(pod := shared), calls).pod == shared
  }

  lemma SamePod(p: PodSettings, q: PodSettings)
    requires p.pullSecrets == q.pullSecrets && forall f :: FieldOf(p, f) == FieldOf(q, f)
    ensures p == q
  {
    assert FieldOf(p, Volumes) == FieldOf(q, Volumes) && FieldOf(p, VolumeMounts) == FieldOf(q, VolumeMounts);
    assert FieldOf(p, Env) == FieldOf(q, Env) && FieldOf(p, NodeSelector) == FieldOf(q, NodeSelector);
    assert FieldOf(p, Tolerations) == FieldOf(q, Tolerations);
  }

  lemma NothingSaidKeeps(c: Context, calls: seq<RoleCall>)
    requires NothingSaid(c, calls)
    ensures Folded(c, calls).pod == c.pod
  {
    forall f ensures FieldOf(Folded(c, calls).pod, f) == FieldOf(c.pod, f) {
      FoldIsLastWord(c, calls, f);
      assert forall i :: 0 <= i < |calls| ==> SaysNothing(c, calls[i]) && Silent(c, calls[i], f);
    }
    FoldedSecrets(c, calls);
    assert forall i :: 0 <= i < |calls| ==> SaysNothing(c, calls[i]);
    SamePod(Folded(c, calls).pod, c.pod);
  }

  lemma SpokenField(c: Context, calls: seq<RoleCall>, f: FieldName, j: nat)
    requires HasLastWord(c, calls, f, j)
    ensures FieldOf(Folded(c, calls).pod, f) == FieldOf(RoleSettings(c, calls[j]).value, f)
  {
    FoldIsLastWord(c, calls, f);
  }

  lemma SameSpeaker(c: Context, p: PodSettings, calls: seq<RoleCall>, f: FieldName, j: nat)
    requires HasLastWord(c, calls, f, j)
    ensures var d := c.(pod := p);
      HasLastWord(d, calls, f, j) && RoleSettings(d, calls[j]) == RoleSettings(c, calls[j])
  {
    var d := c.(pod := p);
    assert forall i :: 0 <= i < |calls| ==> Silent(d, calls[i], f) == Silent(c, calls[i], f);
  }

  /** Whatever two shared settings, a field some role speaks up on comes out the same. */
  lemma SpokenFieldIsFixed(c: Context, p: PodSettings, q: PodSettings, calls: seq<RoleCall>, i: nat, f: FieldName)
    requires i < |calls| && !Silent(c, calls[i], f)
    ensures FieldOf(Folded(c.(pod := p), calls).pod, f) == FieldOf(Folded(c.(pod := q), calls).pod, f)
  {
    FoldIsLastWord(c, calls, f);
    var j :| HasLastWord(c, calls, f, j);
    SameSpeaker(c, p, calls, f, j);
    SameSpeaker(c, q, calls, f, j);
    SpokenField(c.(pod := p), calls, f, j);
    SpokenField(c.(pod := q), calls, f, j);
  }

  function AllFields(field: Field): PodSettings {
    PodSettings(field, field, field, field, field, field)
  }

  /** The shared settings come through exactly when every role called leaves them as they are. */
  lemma SharedComeThroughExactly(c: Context, calls: seq<RoleCall>)
    ensures SharedComeThrough(c, calls) <==> NothingSaid(c, calls)
  {
    if NothingSaid(c, calls) {
      forall shared ensures Folded(c.(pod := shared), calls).pod == shared {
        var d := c.(pod := shared);
        assert forall i :: 0 <= i < |calls| ==> SaysNothing(c, calls[i]) && SaysNothing(d, calls[i]);
        NothingSaidKeeps(d, calls);
      }
    } else {
      var i :| 0 <= i < |calls| && !SaysNothing(c, calls[i]);
      SpokenToSome(c, calls, i);
    }
  }

  lemma SpokenToSome(c: Context, calls: seq<RoleCall>, i: nat)
    requires i < |calls| && !SaysNothing(c, calls[i])
    ensures !SharedComeThrough(c, calls)
  {
    var p, q := AllFields(Nil), AllFields(Val(["a"]));
    var d := c.(pod := q);
    if RoleSettings(c, calls[i]).value.pullSecrets.Nil? {
      FoldedSecrets(d, calls);
      assert RoleSettings(d, calls[i]) == RoleSettings(c, calls[i]);
      assert Folded(d, calls).pod != q;
    } else {
      var f :| FieldOf(RoleSettings(c, calls[i]).value, f) != Val([]);
      SpokenFieldIsFixed(c, p, q, calls, i, f);
      assert FieldOf(p, f) != FieldOf(q, f);
    }
  }

  /** Where no role has a spec, every Deployment runs with the resource's shared settings. */
  lemma SharedSettingsReach(v: DaskView, seen: Seen, reports: seq<Report>, call: Call)
    requires |seen| == 5 && call in ClusterPlan(v, seen, reports) && MakesDeployment(call) && call.key.Child?
    requires v.spec.scheduler.None? && v.spec.worker.None? && v.spec.notebook.None?
    ensures call.body.pod.settings == v.spec.pod
  {
    NoSpecInherits(v, seen, reports, call);
    var c := DaskContextOf(v);
    NothingSaidKeeps(c, EarlierCalls(call.key.role, c.settings, seen));
  }

  /** With policies on, a scheduler or worker without a spec of its own runs with the notebook's
      fields, even where no notebook was asked for: its policy is made through the notebook's call. */
  lemma NotebookSpecLeaks(v: DaskView, seen: Seen, reports: seq<Report>, call: Call, f: FieldName)
    requires |seen| == 5 && call in ClusterPlan(v, seen, reports) && MakesDeployment(call) && call.key.Child?
    requires !v.spec.disablePolicies && v.spec.notebook.Some? && Clean(v.spec.notebook.value)
    requires OwnSpec(v.spec, call.key.role).None?
    ensures FieldOf(call.body.pod.settings, f) == FieldOf(v.spec.notebook.value, f)
  {
    NoSpecInherits(v, seen, reports, call);
    var c := DaskContextOf(v);
    var earlier := EarlierCalls(call.key.role, c.settings, seen);
    assert earlier[|earlier|-1] == ForNotebook;
    LastSpecWins(c, earlier, |earlier| - 1);
  }
}
