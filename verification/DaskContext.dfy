/** The context object of types/types.go as the controllers use it: one receiver that every `For*`
    call changes before handing out a copy of itself. */
module ContextObjects {
  import opened Options
  import opened Specs
  import opened Contexts

  class DaskContext {
    var ns: string
    var name: string
    var image: string
    var pullPolicy: string
    var settings: Settings
    var job: JobSettings
    var roles: Roles
    var volumes: Field
    var volumeMounts: Field
    var env: Field
    var pullSecrets: Field
    var nodeSelector: Field
    var tolerations: Field

    /** A copy of the receiver. */
    function Value(): Context
      reads this
    {
      Context(ns, name, image, pullPolicy, settings, job, roles,
              PodSettings(volumes, volumeMounts, env, pullSecrets, nodeSelector, tolerations))
    }

    constructor SetConfig(ns: string, name: string, spec: DaskSpec)
      ensures Value() == Configured(ns, name, spec)
      ensures this.ns == ns && this.name == name && image == spec.image && pullPolicy == spec.pullPolicy
      ensures settings.replicas == if spec.replicas == 0 then 5 else spec.replicas
      ensures settings.monitorIngress == if spec.monitorIngress == "" then "monitor.dask.local" else spec.monitorIngress
      ensures settings.jupyterPassword == if spec.jupyterPassword == "" then "password" else spec.jupyterPassword
      ensures settings.jupyterIngress == spec.jupyterIngress && settings.schedulerIngress == spec.schedulerIngress
      ensures settings.jupyter == spec.jupyter && settings.daemon == spec.daemon && settings.disablePolicies == spec.disablePolicies
      ensures settings.port == 8786 && settings.bokehPort == 8787 && settings.serviceType == "ClusterIP"
      ensures settings.jupyterImage == "jupyter/scipy-notebook:latest"
      ensures !job.report && !job.mountedFile && job.reportStorageClass == "standard" && job.script == "/notebook.ipynb"
      ensures roles.scheduler == spec.scheduler && roles.worker == spec.worker && roles.notebook == spec.notebook
      ensures Value().pod == spec.pod
    {
      this.ns := ns;
      this.name := name;
      this.image := spec.image;
      this.pullPolicy := spec.pullPolicy;
      this.settings := Settings(
        spec.jupyterIngress, spec.schedulerIngress, spec.monitorIngress,
        spec.daemon, spec.jupyter, spec.disablePolicies,
        "ClusterIP", 8786, 8787, spec.replicas,
        "jupyter/scipy-notebook:latest", spec.jupyterPassword);
      this.job := DEFAULT_JOB;
      this.roles := Roles(spec.scheduler, spec.worker, spec.notebook);
      this.volumes := spec.pod.volumes;
      this.volumeMounts := spec.pod.volumeMounts;
      this.env := spec.pod.env;
      this.pullSecrets := spec.pod.pullSecrets;
      this.nodeSelector := spec.pod.nodeSelector;
      this.tolerations := spec.pod.tolerations;
      new;
      if spec.replicas == 0 {
        settings := settings.(replicas := DEFAULT_REPLICAS);
      }
      if settings.monitorIngress == "" {
        settings := settings.(monitorIngress := "monitor.dask.local");
      }
      if settings.jupyterPassword == "" {
        settings := settings.(jupyterPassword := "password");
      }
    }

    method ForNotebook() returns (out: Context)
      modifies this
      ensures out == Value() == ForRole(old(Value()), Contexts.ForNotebook) == Specialised(old(Value()), old(roles.notebook))
    {
      ApplySpecifics(roles.notebook);
      out := Value();
    }

    method ForScheduler() returns (out: Context)
      modifies this
      ensures out == Value() == ForRole(old(Value()), Contexts.ForScheduler) == Specialised(old(Value()), old(roles.scheduler))
    {
      ApplySpecifics(roles.scheduler);
      out := Value();
    }

    method ForWorker() returns (out: Context)
      modifies this
      ensures out == Value() == ForRole(old(Value()), Contexts.ForWorker) == Specialised(old(Value()), old(roles.worker))
    {
      ApplySpecifics(roles.worker);
      out := Value();
    }

    /** What is left of a shared field under a role's: nil clears, empty keeps, anything else replaces. */
    static function Laid(shared: Field, own: Field): Field {
      if own == Nil then Nil else if own.entries == [] then shared else own
    }

    method ApplySpecifics(specific: Option<PodSettings>)
      modifies this
      ensures Value() == Specialised(old(Value()), specific)
      ensures specific.None? ==> Value() == old(Value())
      ensures specific.Some? ==>
        && volumes == Laid(old(volumes), specific.value.volumes) && volumeMounts == Laid(old(volumeMounts), specific.value.volumeMounts)
        && env == Laid(old(env), specific.value.env) && nodeSelector == Laid(old(nodeSelector), specific.value.nodeSelector)
        && tolerations == Laid(old(tolerations), specific.value.tolerations)
        && pullSecrets == if specific.value.pullSecrets == Nil then Nil else old(pullSecrets)
    {
      if specific.Some? {
        Decode(specific.value);
        ClearNil(specific.value);
      }
    }

    /** Decoding the encoded settings into the receiver: fields that are nil or empty were not
        encoded, and the pull secrets find no field. */
    method Decode(s: PodSettings)
      modifies `volumes, `volumeMounts, `env, `nodeSelector, `tolerations
      ensures volumes == if Encoded(s.volumes) then s.volumes else old(volumes)
      ensures volumeMounts == if Encoded(s.volumeMounts) then s.volumeMounts else old(volumeMounts)
      ensures env == if Encoded(s.env) then s.env else old(env)
      ensures nodeSelector == if Encoded(s.nodeSelector) then s.nodeSelector else old(nodeSelector)
      ensures tolerations == if Encoded(s.tolerations) then s.tolerations else old(tolerations)
    {
      if Encoded(s.volumes) {
        volumes := s.volumes;
      }
      if Encoded(s.volumeMounts) {
        volumeMounts := s.volumeMounts;
      }
      if Encoded(s.env) {
        env := s.env;
      }
      if Encoded(s.nodeSelector) {
        nodeSelector := s.nodeSelector;
      }
      if Encoded(s.tolerations) {
        tolerations := s.tolerations;
      }
    }

    static predicate Encoded(f: Field) {
      f.Val? && f.entries != []
    }

    method ClearNil(s: PodSettings)
      modifies `volumes, `volumeMounts, `env, `pullSecrets, `nodeSelector, `tolerations
      ensures volumes == if s.volumes.Nil? then Nil else old(volumes)
      ensures volumeMounts == if s.volumeMounts.Nil? then Nil else old(volumeMounts)
      ensures env == if s.env.Nil? then Nil else old(env)
      ensures pullSecrets == if s.pullSecrets.Nil? then Nil else old(pullSecrets)
      ensures nodeSelector == if s.nodeSelector.Nil? then Nil else old(nodeSelector)
      ensures tolerations == if s.tolerations.Nil? then Nil else old(tolerations)
    {
      if s.volumes.Nil? {
        volumes := Nil;
      }
      if s.volumeMounts.Nil? {
        volumeMounts := Nil;
      }
      if s.env.Nil? {
        env := Nil;
      }
      if s.pullSecrets.Nil? {
        pullSecrets := Nil;
      }
      if s.nodeSelector.Nil? {
        nodeSelector := Nil;
      }
      if s.tolerations.Nil? {
        tolerations := Nil;
      }
    }

    /** The defaults the Dask controller falls back to. */
    method DefaultImage(image: string, pullPolicy: string)
      modifies this
      ensures Value() == Defaulted(old(Value()), image, pullPolicy)
      ensures this.image == if old(this.image) == "" then image else old(this.image)
      ensures this.pullPolicy == if old(this.pullPolicy) == "" then pullPolicy else old(this.pullPolicy)
    {
      if this.image == "" {
        this.image := image;
      }
      if this.pullPolicy == "" {
        this.pullPolicy := pullPolicy;
      }
    }

    method SetJobConfig(name: string, spec: DaskJobSpec)
      modifies this
      ensures Value() == ForJob(old(Value()), name, spec)
      ensures this.name == name && ns == old(ns) && settings == old(settings) && Value().pod == old(Value().pod)
      ensures image == if spec.image != "" then spec.image else old(image)
      ensures pullPolicy == if spec.pullPolicy != "" then spec.pullPolicy else old(pullPolicy)
      ensures job.reportStorageClass == if spec.reportStorageClass != "" then spec.reportStorageClass else old(job.reportStorageClass)
      ensures job.cluster == spec.cluster && job.script == spec.script && job.report == spec.report
    {
      if spec.image != "" {
        this.image := spec.image;
      }
      if spec.pullPolicy != "" {
        this.pullPolicy := spec.pullPolicy;
      }
      if spec.reportStorageClass != "" {
        job := job.(reportStorageClass := spec.reportStorageClass);
      }
      this.name := name;
      job := job.(cluster := spec.cluster, script := spec.script, report := spec.report);
    }

    method SetScript(scriptType: string, contents: string, mounted: bool)
      modifies this
      ensures Value() == WithScript(old(Value()), scriptType, contents, mounted)
      ensures job.scriptType == scriptType && job.scriptContents == contents && job.mountedFile == mounted
    {
      job := job.(scriptType := scriptType, scriptContents := contents, mountedFile := mounted);
    }
  }
}
