/** Which object each controller looks up or creates, and the name it computes for it. */
module Names {

  datatype Kind =
    | NetworkPolicy | ServiceAccount | ConfigMap | Service | Deployment | Ingress
    | PersistentVolumeClaim | Job | Dask | DaskJob

  /** The part an object plays for the instance that owns it. */
  datatype Role =
    | DnsPolicy | ClusterAccount | ClusterConfig
    | JupyterPolicy | JupyterService | JupyterDeployment
    | SchedulerPolicy | SchedulerService | SchedulerDeployment
    | WorkerPolicy | WorkerDeployment
    | ClusterIngress
    | JobConfig | ReportClaim | JobAccount | JobRun

  /** An object of the store: a child of an instance, or one of the two custom resources. */
  datatype Key =
    | Child(role: Role, ns: string, instance: string)
    | Cluster(ns: string, instance: string)
    | Work(ns: string, instance: string)

  /** What the API server indexes objects by. */
  datatype ApiName = ApiName(kind: Kind, ns: string, name: string)

  predicate OfCluster(r: Role) {
    !OfJob(r)
  }

  predicate OfJob(r: Role) {
    r == JobConfig || r == ReportClaim || r == JobAccount || r == JobRun
  }

  /** The custom resource that owns k; a custom resource owns itself. */
  function OwnerKey(k: Key): Key {
    if k.Child? then
      if OfJob(k.role) then Work(k.ns, k.instance) else Cluster(k.ns, k.instance)
    else k
  }

  function KindOf(k: Key): Kind {
    match k
    case Cluster(_, _) => Dask
    case Work(_, _) => DaskJob
    case Child(r, _, _) =>
      match r
      case DnsPolicy | JupyterPolicy | SchedulerPolicy | WorkerPolicy => NetworkPolicy
      case ClusterAccount | JobAccount => ServiceAccount
      case ClusterConfig | JobConfig => ConfigMap
      case JupyterService | SchedulerService => Service
      case JupyterDeployment | SchedulerDeployment | WorkerDeployment => Deployment
      case ClusterIngress => Ingress
      case ReportClaim => PersistentVolumeClaim
      case JobRun => Job
  }

  function Prefix(r: Role): string {
    match r
    case DnsPolicy => "dask-networkpolicy-dns-"
    case ClusterAccount => "dask-cluster-serviceaccount-"
    case ClusterConfig => "dask-configs-"
    case JupyterPolicy => "jupyter-notebook-networkpolicy-"
    case JupyterService => "jupyter-notebook-"
    case JupyterDeployment => "jupyter-notebook-"
    case SchedulerPolicy => "dask-scheduler-networkpolicy-"
    case SchedulerService => "dask-scheduler-"
    case SchedulerDeployment => "dask-scheduler-"
    case WorkerPolicy => "dask-worker-networkpolicy-"
    case WorkerDeployment => "dask-worker-"
    case ClusterIngress => "dask-"
    case JobConfig => "daskjob-configs-"
    case ReportClaim => "daskjob-report-pvc-"
    case JobAccount => "daskjob-serviceaccount-"
    case JobRun => "daskjob-job-"
  }

  function NameOf(k: Key): string {
    if k.Child? then Prefix(k.role) + k.instance else k.instance
  }

  function ApiNameOf(k: Key): ApiName {
    ApiName(KindOf(k), k.ns, NameOf(k))
  }

  /** Two prefixes used for one kind differ at a position both of them have. */
  lemma PrefixesClash(r1: Role, r2: Role, ns: string, n1: string, n2: string)
    requires r1 != r2 && KindOf(Child(r1, ns, n1)) == KindOf(Child(r2, ns, n2))
    ensures exists i :: 0 <= i < |Prefix(r1)| && i < |Prefix(r2)| && Prefix(r1)[i] != Prefix(r2)[i]
  {
    var p1, p2 := Prefix(r1), Prefix(r2);
    if p1[0] == p2[0] {
      if p1[4] == p2[4] {
        assert p1[5] != p2[5];
      }
    }
  }

  /** No two objects the operator deals with share a kind, a namespace and a name,
      whatever the instances are called. */
  lemma ApiNamesInjective(k1: Key, k2: Key)
    requires k1 != k2
    ensures ApiNameOf(k1) != ApiNameOf(k2)
  {
    if k1.Child? && k2.Child? && KindOf(k1) == KindOf(k2) && k1.ns == k2.ns {
      var p1, p2 := Prefix(k1.role), Prefix(k2.role);
      if k1.role == k2.role {
        assert NameOf(k1)[|p1|..] == k1.instance && NameOf(k2)[|p2|..] == k2.instance;
      } else {
        PrefixesClash(k1.role, k2.role, k1.ns, k1.instance, k2.instance);
        var i :| 0 <= i < |p1| && i < |p2| && p1[i] != p2[i];
        assert NameOf(k1)[i] == p1[i] && NameOf(k2)[i] == p2[i];
      }
    }
  }
}
