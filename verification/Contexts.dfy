/** The configuration one pass of a controller works from (types/types.go). The `For*` methods of
    the source return a copy of a receiver they have just changed, so what a role receives depends on
    every earlier call; `Folded` gives that dependency, and the lemmas say what it amounts to. */
module Contexts {
  import opened Options
  import opened Specs

  /** What no role and no job changes. */
  datatype Settings = Settings(
    jupyterIngress: string, schedulerIngress: string, monitorIngress: string,
    daemon: bool, jupyter: bool, disablePolicies: bool,
    serviceType: string, port: int, bokehPort: int, replicas: int,
    jupyterImage: string, jupyterPassword: string)

  datatype JobSettings = JobSettings(
    cluster: string, script: string, scriptType: string, scriptContents: string,
    report: bool, reportStorageClass: string, mountedFile: bool)

  datatype Roles = Roles(scheduler: Option<PodSettings>, worker: Option<PodSettings>, notebook: Option<PodSettings>)

  datatype Context = Context(
    ns: string, name: string, image: string, pullPolicy: string,
    settings: Settings, job: JobSettings, roles: Roles, pod: PodSettings)

  const DEFAULT_REPLICAS := 5

  function EffectiveReplicas(spec: DaskSpec): int {
    if spec.replicas == 0 then DEFAULT_REPLICAS else spec.replicas
  }

  function OrElse(s: string, default: string): string {
    if s == "" then default else s
  }

  function ConfiguredSettings(spec: DaskSpec): Settings {
    Settings(
      spec.jupyterIngress, spec.schedulerIngress, OrElse(spec.monitorIngress, "monitor.dask.local"),
      spec.daemon, spec.jupyter, spec.disablePolicies,
      "ClusterIP", 8786, 8787, EffectiveReplicas(spec),
      "jupyter/scipy-notebook:latest", OrElse(spec.jupyterPassword, "password"))
  }

  const DEFAULT_JOB := JobSettings("", "/notebook.ipynb", "", "", false, "standard", false)

  /** The context a Dask resource is turned into before any role asks for its own. */
  function Configured(ns: string, name: string, spec: DaskSpec): Context {
    Context(ns, name, spec.image, spec.pullPolicy,
            ConfiguredSettings(spec), DEFAULT_JOB, Roles(spec.scheduler, spec.worker, spec.notebook), spec.pod)
  }

  function Defaulted(c: Context, image: string, pullPolicy: string): Context {
    c.(image := OrElse(c.image, image), pullPolicy := OrElse(c.pullPolicy, pullPolicy))
  }

  function ForJob(c: Context, name: string, job: DaskJobSpec): Context {
    c.(name := name,
       image := OrElse(job.image, c.image),
       pullPolicy := OrElse(job.pullPolicy, c.pullPolicy),
       job := c.job.(cluster := job.cluster, script := job.script, report := job.report,
                     reportStorageClass := OrElse(job.reportStorageClass, c.job.reportStorageClass)))
  }

  function WithScript(c: Context, scriptType: string, contents: string, mounted: bool): Context {
    c.(job := c.job.(scriptType := scriptType, scriptContents := contents, mountedFile := mounted))
  }

  // ---- Laying a role's settings over the current ones ----

  /** A nil field of the role clears, an empty one is dropped by the JSON encoder and so keeps,
      any other replaces. */
  function Overlaid(current: Field, role: Field): Field {
    if role == Val([]) then current else role
  }

  /** Pull secrets travel under a JSON name the context has no field for: they can only be cleared. */
  function OverlaidSecrets(current: Field, role: Field): Field {
    if role.Nil? then Nil else current
  }

  function OverlaidPod(current: PodSettings, role: PodSettings): PodSettings {
    PodSettings(
      Overlaid(current.volumes, role.volumes),
      Overlaid(current.volumeMounts, role.volumeMounts),
      Overlaid(current.env, role.env),
      OverlaidSecrets(current.pullSecrets, role.pullSecrets),
      Overlaid(current.nodeSelector, role.nodeSelector),
      Overlaid(current.tolerations, role.tolerations))
  }

  function Specialised(c: Context, role: Option<PodSettings>): Context {
    match role
    case None => c
    case Some(s) => c.(pod := OverlaidPod(c.pod, s))
  }

  datatype RoleCall = ForNotebook | ForScheduler | ForWorker

  function RoleSettings(c: Context, call: RoleCall): Option<PodSettings> {
    match call
    case ForNotebook => c.roles.notebook
    case ForScheduler => c.roles.scheduler
    case ForWorker => c.roles.worker
  }

  function ForRole(c: Context, call: RoleCall): Context {
    Specialised(c, RoleSettings(c, call))
  }

  /** The context after a history of `For*` calls on one receiver. */
  function Folded(c: Context, calls: seq<RoleCall>): Context {
    if calls == [] then c else ForRole(Folded(c, calls[..|calls|-1]), calls[|calls|-1])
  }

  // ---- What a history of calls amounts to ----

  datatype FieldName = Volumes | VolumeMounts | Env | NodeSelector | Tolerations

  function FieldOf(p: PodSettings, f: FieldName): Field {
    match f
    case Volumes => p.volumes
    case VolumeMounts => p.volumeMounts
    case Env => p.env
    case NodeSelector => p.nodeSelector
    case Tolerations => p.tolerations
  }

  /** A role without settings of its own, or with the field empty, leaves the field alone. */
  predicate Silent(c: Context, call: RoleCall, f: FieldName) {
    var role := RoleSettings(c, call);
    role.None? || FieldOf(role.value, f) == Val([])
  }

  /** Call i is the last of the history that is not silent about f. */
  ghost predicate HasLastWord(c: Context, calls: seq<RoleCall>, f: FieldName, i: int) {
    && 0 <= i < |calls|
    && !Silent(c, calls[i], f)
    && forall j :: i < j < |calls| ==> Silent(c, calls[j], f)
  }

  /** `value` is what the last call that is not silent about f says, else the base value. */
  ghost predicate LastWord(c: Context, calls: seq<RoleCall>, f: FieldName, value: Field) {
    || ((forall i :: 0 <= i < |calls| ==> Silent(c, calls[i], f)) && value == FieldOf(c.pod, f))
    || (exists i :: HasLastWord(c, calls, f, i) && value == FieldOf(RoleSettings(c, calls[i]).value, f))
  }

  ghost predicate SomeRoleClearsSecrets(c: Context, calls: seq<RoleCall>) {
    exists i :: 0 <= i < |calls| && RoleSettings(c, calls[i]).Some? && RoleSettings(c, calls[i]).value.pullSecrets.Nil?
  }

  /** Nothing but the pod settings ever changes. */
  lemma {:induction false} FoldKeepsTheRest(c: Context, calls: seq<RoleCall>)
    ensures Folded(c, calls) == c.(pod := Folded(c, calls).pod)
  {
    if calls == [] {
    } else {
      FoldKeepsTheRest(c, calls[..|calls|-1]);
    }
  }

  /** One more call keeps the last word if it is silent, and has it otherwise. */
  lemma LastWordAfter(c: Context, calls: seq<RoleCall>, call: RoleCall, f: FieldName, value: Field)
    requires LastWord(c, calls, f, value)
    ensures LastWord(c, calls + [call], f, if Silent(c, call, f) then value else FieldOf(RoleSettings(c, call).value, f))
  {
    var after := calls + [call];
    assert after[|calls|] == call;
    if !Silent(c, call, f) {
      assert HasLastWord(c, after, f, |calls|);
    } else if i :| HasLastWord(c, calls, f, i) && value == FieldOf(RoleSettings(c, calls[i]).value, f) {
      assert HasLastWord(c, after, f, i);
    }
  }

  lemma {:induction false} FoldIsLastWord(c: Context, calls: seq<RoleCall>, f: FieldName)
    ensures LastWord(c, calls, f, FieldOf(Folded(c, calls).pod, f))
  {
    if calls == [] {
    } else {
      var before, call := calls[..|calls|-1], calls[|calls|-1];
      var d := Folded(c, before);
      FoldIsLastWord(c, before, f);
      FoldKeepsTheRest(c, before);
      LastWordAfter(c, before, call, f, FieldOf(d.pod, f));
      assert FieldOf(ForRole(d, call).pod, f) == if Silent(c, call, f) then FieldOf(d.pod, f) else FieldOf(RoleSettings(c, call).value, f);
      assert before + [call] == calls;
    }
  }

  lemma {:induction false} FoldedSecrets(c: Context, calls: seq<RoleCall>)
    ensures Folded(c, calls).pod.pullSecrets == if SomeRoleClearsSecrets(c, calls) then Nil else c.pod.pullSecrets
  {
    if calls == [] {
    } else {
      var n := |calls| - 1;
      FoldedSecrets(c, calls[..n]);
      FoldKeepsTheRest(c, calls[..n]);
      assert forall i :: 0 <= i < n ==> calls[..n][i] == calls[i];
    }
  }

  /** The override rule, for every history of calls: each list or map field holds the last word on
      it, pull secrets survive unless some role with settings leaves them nil, and everything else
      is what the resource said. */
  lemma FoldCharacterised(c: Context, calls: seq<RoleCall>)
    ensures var d := Folded(c, calls);
      && (forall f :: LastWord(c, calls, f, FieldOf(d.pod, f)))
      && d.pod.pullSecrets == (if SomeRoleClearsSecrets(c, calls) then Nil else c.pod.pullSecrets)
      && d == c.(pod := d.pod)
  {
    forall f ensures LastWord(c, calls, f, FieldOf(Folded(c, calls).pod, f)) {
      FoldIsLastWord(c, calls, f);
    }
    FoldedSecrets(c, calls);
    FoldKeepsTheRest(c, calls);
  }
}
