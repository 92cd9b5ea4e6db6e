/** The two custom resources as their users write them (api/v1/dask_types.go, api/v1/daskjob_types.go). */
module Specs {
  import opened Options

  /** A list- or map-valued field of a spec, with its entries in rendered form. A nil field and an
      empty one behave differently when a role's settings are laid over the shared ones. */
  datatype Field = Nil | Val(entries: seq<string>)

  /** The fields a pod of the cluster takes either from the shared settings or from its role's. */
  datatype PodSettings = PodSettings(
    volumes: Field,
    volumeMounts: Field,
    env: Field,
    pullSecrets: Field,
    nodeSelector: Field,
    tolerations: Field)

  datatype DaskSpec = DaskSpec(
    jupyter: bool,
    daemon: bool,
    disablePolicies: bool,
    replicas: int,
    image: string,
    pullPolicy: string,
    jupyterIngress: string,
    jupyterPassword: string,
    schedulerIngress: string,
    monitorIngress: string,
    pod: PodSettings,
    scheduler: Option<PodSettings>,
    worker: Option<PodSettings>,
    notebook: Option<PodSettings>)

  datatype DaskJobSpec = DaskJobSpec(
    cluster: string,
    script: string,
    image: string,
    pullPolicy: string,
    report: bool,
    reportStorageClass: string)
}
