/** What the API server stores under a key, as far as the controllers depend on it. */
module Objects {
  import opened Options
  import opened Names
  import opened Specs

  const GROUP_VERSION := "analytics.piersharding.com/v1"

  /** The controller reference of an object. */
  datatype Owner = Owner(apiVersion: string, kind: Kind, name: string)

  /** The State of a status. `Trouble` stands for the error texts a failing pass puts there. */
  datatype State =
    | Unset | Building | Running
    | PendingCluster(cluster: string)
    | Finished(condition: ConditionType)
    | Trouble

  datatype ConditionType = Complete | Failed | OtherCondition(name: string)
  datatype Truth = True | False | Unknown
  datatype Condition = Condition(ctype: ConditionType, status: Truth)

  datatype Readiness = Readiness(replicas: int, readyReplicas: int)

  /** One line of Status.Resources: what a look at one child found. */
  datatype Report =
    | NothingFound
    | IngressReport(hosts: seq<string>, address: string)
    | ServiceReport
    | DeploymentReport(readiness: Readiness)
    | JobReport(conditions: seq<Condition>)

  datatype DaskStatus = DaskStatus(replicas: int, succeeded: int, state: State, resources: seq<Report>)
  datatype DaskJobStatus = DaskJobStatus(succeeded: int, state: State, resources: seq<Report>)

  const FRESH_DASK := DaskStatus(0, 0, Unset, [])
  const FRESH_JOB := DaskJobStatus(0, Unset, [])

  /** A pod template: the objects it names, and its settings. */
  datatype PodTemplate = PodTemplate(
    image: string, pullPolicy: string,
    account: Key, config: Key, claim: Option<Key>, scheduler: Key,
    settings: PodSettings)

  datatype IngressRule = IngressRule(host: string, service: Key, port: int)

  /** The script a DaskJob's ConfigMap carries, under the data key "app." + kind. */
  datatype ScriptData = ScriptData(kind: string, contents: string, mounted: bool)

  /** A policy is known by the template and the instance name it was rendered from. */
  datatype Body =
    | PolicyBody(policy: Role, instance: string)
    | AccountBody
    | ConfigBody(script: Option<ScriptData>)
    | ServiceBody
    | DeploymentBody(replicas: int, pod: PodTemplate, readiness: Readiness)
    | IngressBody(rules: seq<IngressRule>, address: string)
    | ClaimBody(storageClass: string)
    | JobBody(jobPod: PodTemplate, scriptType: string, conditions: seq<Condition>)
    | ClusterBody(spec: DaskSpec, status: DaskStatus)
    | WorkBody(job: DaskJobSpec, progress: DaskJobStatus)

  datatype Obj = Obj(rv: nat, owner: Option<Owner>, body: Body)

  /** The body a key's kind of object has; reading anything else under it is an error. */
  predicate Fits(k: Key, b: Body) {
    match KindOf(k)
    case NetworkPolicy => b.PolicyBody?
    case ServiceAccount => b.AccountBody?
    case ConfigMap => b.ConfigBody?
    case Service => b.ServiceBody?
    case Deployment => b.DeploymentBody?
    case Ingress => b.IngressBody?
    case PersistentVolumeClaim => b.ClaimBody?
    case Job => b.JobBody?
    case Dask => b.ClusterBody?
    case DaskJob => b.WorkBody?
  }

  function ReportOf(b: Body): Report {
    match b
    case IngressBody(rules, address) => IngressReport(seq(|rules|, i requires 0 <= i < |rules| => rules[i].host), address)
    case ServiceBody => ServiceReport
    case DeploymentBody(_, _, readiness) => DeploymentReport(readiness)
    case JobBody(_, _, conditions) => JobReport(conditions)
    case _ => NothingFound
  }

  /** The scan for a finished Job: its first condition that is Complete or Failed, and True. */
  predicate Decides(c: Condition) {
    (c.ctype == Complete || c.ctype == Failed) && c.status == True
  }

  function FirstFinished(cs: seq<Condition>): (r: Option<ConditionType>)
    ensures r.None? <==> forall i :: 0 <= i < |cs| ==> !Decides(cs[i])
    ensures r.Some? ==> exists i :: 0 <= i < |cs| && Decides(cs[i]) && cs[i].ctype == r.value
                                    && forall j :: 0 <= j < i ==> !Decides(cs[j])
  {
    if cs == [] then None
    else if Decides(cs[0]) then Some(cs[0].ctype)
    else
      var r := FirstFinished(cs[1..]);
      assert r.None? ==> forall i :: 1 <= i < |cs| ==> cs[i] == cs[1..][i-1];
      r
  }
}
