/** The objects the templates render (models/), as functions of the context. */
module Models {
  import opened Options
  import opened Names
  import opened Contexts
  import opened Objects

  const UNREADY := Readiness(0, 0)

  function ChildKey(c: Context, r: Role): Key {
    Child(r, c.ns, c.name)
  }

  /** Every pod of a cluster runs under the cluster's account, mounts its configuration and is told
      the scheduler's Service. */
  function ClusterTemplate(c: Context, image: string): PodTemplate {
    PodTemplate(image, c.pullPolicy, ChildKey(c, ClusterAccount), ChildKey(c, ClusterConfig), None,
                ChildKey(c, SchedulerService), c.pod)
  }

  function JupyterDeploymentBody(c: Context): Body {
    DeploymentBody(1, ClusterTemplate(c, c.settings.jupyterImage), UNREADY)
  }

  function SchedulerDeploymentBody(c: Context): Body {
    DeploymentBody(1, ClusterTemplate(c, c.image), UNREADY)
  }

  function WorkerDeploymentBody(c: Context): Body {
    DeploymentBody(c.settings.replicas, ClusterTemplate(c, c.image), UNREADY)
  }

  function IngressRules(c: Context): seq<IngressRule> {
    (if c.settings.jupyter && c.settings.jupyterIngress != ""
     then [IngressRule(c.settings.jupyterIngress, ChildKey(c, JupyterService), 8888)] else []) +
    (if c.settings.schedulerIngress != ""
     then [IngressRule(c.settings.schedulerIngress, ChildKey(c, SchedulerService), c.settings.port),
           IngressRule(c.settings.monitorIngress, ChildKey(c, SchedulerService), c.settings.bokehPort)] else [])
  }

  /** A DaskJob's pod has an account and a configuration of its own, but is told the scheduler of
      the cluster the job names. */
  function JobTemplate(c: Context): PodTemplate {
    PodTemplate(c.image, c.pullPolicy, ChildKey(c, JobAccount), ChildKey(c, JobConfig),
                if c.job.report then Some(ChildKey(c, ReportClaim)) else None,
                Child(SchedulerService, c.ns, c.job.cluster), c.pod)
  }

  function Rendered(c: Context, r: Role): Body {
    match r
    case DnsPolicy | JupyterPolicy | SchedulerPolicy | WorkerPolicy => PolicyBody(r, c.name)
    case ClusterAccount => AccountBody
    case ClusterConfig => ConfigBody(None)
    case JupyterService => ServiceBody
    case SchedulerService => ServiceBody
    case JupyterDeployment => JupyterDeploymentBody(c)
    case SchedulerDeployment => SchedulerDeploymentBody(c)
    case WorkerDeployment => WorkerDeploymentBody(c)
    case ClusterIngress => IngressBody(IngressRules(c), "")
    case JobConfig => ConfigBody(Some(ScriptData(c.job.scriptType, c.job.scriptContents, c.job.mountedFile)))
    case ReportClaim => ClaimBody(c.job.reportStorageClass)
    case JobAccount => AccountBody
    case JobRun => JobBody(JobTemplate(c), c.job.scriptType, [])
  }

  /** The ConfigMaps, ServiceAccounts, claims and backend Services an object names. */
  function References(b: Body): set<Key> {
    match b
    case DeploymentBody(_, t, _) => TemplateReferences(t)
    case JobBody(t, _, _) => TemplateReferences(t) + {t.scheduler}
    case IngressBody(rules, _) => set i | 0 <= i < |rules| :: rules[i].service
    case _ => {}
  }

  function TemplateReferences(t: PodTemplate): set<Key> {
    {t.account, t.config} + (if t.claim.Some? then {t.claim.value} else {})
  }
}
