# A verified model of the Dask operator

The operator turns a `Dask` resource into a cluster (scheduler, workers, optionally a notebook and an
Ingress) and a `DaskJob` resource into a Job that runs a script against such a cluster. Two controllers
do this, each by passes that read the API server, create what is missing and write a status. The passes
share nothing but the API server, may fail or stop at any call, and may read stale objects.

The project models that and proves what it amounts to.

## How the model is built

- **Store and names.** `Names` gives every object its role, namespace and instance, and the kind and
  name the operator computes for it. `Api` is the store with versions: a creation needs a free key, an
  update the stored version.
- **Passes.** `Processes` gives one pass of either controller as a process: the call it makes next,
  and where it stands after an answer. `DaskReconciler` and `DaskJobReconciler` are the two `Reconcile`
  functions as imperative code over a mutable resource and a mutable context; they are shown to make
  exactly the calls of that process, whatever the API server answers.
- **Runs.** `Operator` interleaves any number of passes of both controllers, call by call, with users
  editing specs, other controllers reporting on children, lost answers, failures, crashes, stale reads
  (any earlier version of the store) and, where the result allows them, deletions. Results about runs
  hold for every list of steps.
- **One pass alone.** `Solo`, `Groups`, `Recovery` and `Convergence` follow a Dask pass with fresh reads,
  `JobRecovery` and `JobConvergence` a DaskJob pass. `Stranding` turns such passes into runs, and `BrokenPairs` follows half-made
  groups through whole runs.
- **Contents.** `Contents` and `JobContents` say what passes make in terms of the specs alone: which
  objects, under which names, with what in them, and which status.
- **Contexts.** `ContextObjects` is the context as the mutable object it is in the source: the calls
  that specialise it for a role change the receiver. `Contexts` and `RoleResults` say what this gives.
- **Rendering.** `BlockScalar`, `ScriptRoundTrip` and `DataBlock` take a script through `indent` into a
  YAML literal block scalar and back. `KeyConversion` and `YamlValues` are the conversion of map keys, as a
  function on trees and as code that rewrites lists in place. `JobScript` classifies scripts.
- **Cluster network and nodes.** `NetworkPolicies` and `Placement`.

## What comes out

- A Job only ever exists beside the complete cluster it was started for, although nothing but the
  persisted state of the cluster ties the two controllers together (`JobImpliesCluster`).
- A Job is created at most once per ServiceAccount of its DaskJob, also when Jobs are deleted
  (`JobsRunAtMostOncePerAccount`).
- With a Running cluster and an accepted script, a pass gets a DaskJob its Job if and only if the Job can be
  read back if it is there, and its ServiceAccount is not there without it (`JobMadeExactly`; for every
  store and verdict, `JobRecoversExactly`). A pass that stops between the two leaves a DaskJob whose Job is
  never created (`StrandedJobsNeverRun`), and there are such runs (`StrandedIsReached`).
- A Dask pass gets through if and only if no group the spec asks for is half made, the details of
  the resource can be read, and an Ingress still to be created has a rule (`RecoversExactly`). A
  half-made group stops every later pass as long as nobody else acts (`HalfMadeForever`). Where the group
  has its account or its Service but not its guard, nobody but a deletion of that member can help, whatever
  else happens (`PairsStayBroken`). An Ingress host for a notebook that is not asked for gives an Ingress
  without rules, which is turned down (`Ruleless`).
- What a pass makes is what the spec asks for, part by part, and nothing else (`PassMakesExactly`); a cluster
  made from nothing consists of exactly these objects (`ClusterConsistsOf`). The same for a DaskJob, whose
  settings come before its cluster's (`JobPassMakesExactly`).
- A DaskJob's status is finished with the type of the first of its Job's conditions that ends it, and Running
  if there is none (`JobStatusExactly`); in every run, Running has been preceded by an unfinished Job
  (`JobStatusesAreObserved`).
- If every group asked for is complete or untouched, one pass makes everything, and from the second on
  no child changes and the status stays the same (`Fixpoint`). The same holds for a DaskJob once a pass has
  got through (`JobFixpoint`).
- The state Running says that each of the three Deployments found had all its replicas ready, and nothing
  about those not found (`RunningExactly`): the first pass of a new cluster writes it, with no replicas
  (`RunningBeforeAnythingRuns`). Together with the count it says that all are there (`RunningInFull`).
- A role's settings depend on the order in which the groups are created. With NetworkPolicies enabled,
  a scheduler or worker without a spec of its own gets the notebook's settings, even if there is no
  notebook (`NotebookSpecLeaks`).
- A script comes out of its ConfigMap as it went in, up to its last line break, if and only if its first
  character after any line breaks is there and is not a blank, and it is YAML text without carriage
  returns (`ComesOutExactly`). Whatever the script, the ConfigMap can be read and has its three keys and no
  other if and only if the script is YAML text and its rendered lines are aligned: a first line of text
  deeper than the keys follows no longer line of blanks, and what the scalar does not take is blank or
  comment (`ThreeKeys`).
- The launcher runs the accepted script if and only if it is not the name of a file and survives its
  rendering (`LauncherRunsTheScript`).

## Where code and documentation differ

The model follows the code.

- README.md:55-65 lets every role be specialised by its own settings. In the code the calls for the
  roles change one shared context, so a role without settings gets those of the roles before it, and
  with policies enabled the notebook's if it has any (`NotebookSpecLeaks`, `SharedComeThroughExactly`).
- The same lines name image pull secrets among these settings. A role can only clear them: they travel
  under a JSON name the context has no field for (`FoldedSecrets`).
- README.md:45 has daemon mode force one worker per node. The rule keeps a worker away from every pod with
  its cluster's instance label, so also from nodes with the scheduler or the notebook (`WorkersRepel`).
- api/v1/daskjob_types.go:34 lets a script be the name of a file. Nothing brings that file into the ConfigMap:
  the Job mounts the empty entry, and the launcher runs that (`FilesAreNotRun`). The flag for mounted files
  is only printed (models/configs.go:363-375).
- models/configs.go:255-357 is meant to give a ConfigMap three keys. A carriage return in a script breaks a line
  for a YAML reader but not for `indent`, so what follows it can become a key of its own (`FourKeys`, and
  for any new key `ReturnsAddAnEntry`). Without carriage returns this cannot happen
  (`NoReturnsNoKeys`), but the block may not be readable (`ReadableExactly`).
- Every failing branch puts an error text into the status, but those branches return before the status
  write. The only such text that is written is the one about a missing cluster.
- Errors met while reading the three Deployments back for the details are overwritten by the next lookup.

## Model

| member | source | states |
|---|---|---|
| Names.ApiNamesInjective | models/rbac.go:19 | no two objects the operator deals with share kind, namespace and name, whatever the instances are called |
| Names.PrefixesClash | models/networkpolicy.go:19 | two prefixes used for one kind differ at a position both have |
| NonInterference.SameLookups | controllers/dask_controller.go:98-102 | looking an object up by its part and instance is looking it up by kind, namespace and computed name |
| NonInterference.SameWrites | controllers/dask_controller.go:133-199 | a write changes what the API server holds under exactly one name |
| NonInterference.PassesDoNotInterfere | controllers/daskjob_controller.go:116-119 | in any run a step of a pass leaves every object of every other resource as it was, under the names the API server uses |
| NonInterference.ResourcesShareNoName | models/rbac.go:47 | two different resources have no object name in common |
| Plans.ClusterPlanOwned | controllers/dask_controller.go:133-425 | whatever a Dask pass saw, it only writes the resource it was started for and its children |
| Plans.JobPlanOwned | controllers/daskjob_controller.go:174-269 | the same for a DaskJob pass |
| Plans.MovedKeepsToOwn | controllers/daskjob_controller.go:60-272 | no answer of the API server makes a pass leave its resource |
| Plans.FailuresEndPasses | controllers/dask_controller.go:91-102 | which failed calls a pass gets over, as if the object were not there, and that any other ends it in failure |
| Contents.PlanMakesParts | controllers/dask_controller.go:133-425 | every write of a Dask pass, in terms of the spec: a part that is wanted, as it is to be, where the part that starts its group was not found; the number of workers; or the status |
| Contents.RulesRendered | models/ingress.go:30-56 | the Ingress leads the notebook's host to the notebook's Service and the scheduler's and the monitor's to the scheduler's, on their ports, and nothing else anywhere |
| Contents.AddedIsWanted | controllers/dask_controller.go:133-419 | whatever a pass adds, even one that fails, is asked for by the spec, made as the spec says, and owned by the Dask |
| Contents.PassMakesExactly | controllers/dask_controller.go:133-419 | a pass that gets through makes a child, with the image, replicas, account, configuration and rules the spec gives it, if and only if it is wanted and the part that starts its group was missing; else it stays, but for the number of workers |
| Contents.ClusterConsistsOf | controllers/dask_controller.go:133-425 | a cluster made from nothing consists of exactly the objects the spec asks for, by kind, namespace and name |
| ContextObjects.DaskContext.SetConfig | types/types.go:59-119 | the context of a Dask: the spec's fields, 5 replicas where it says 0, and defaults for the monitor host and the password where they are empty |
| ContextObjects.DaskContext.ForNotebook | types/types.go:122-127 | lays the settings under the notebook's name over the receiver and returns a copy of it |
| ContextObjects.DaskContext.ForScheduler | types/types.go:130-135 | the same for the scheduler's |
| ContextObjects.DaskContext.ForWorker | types/types.go:138-145 | the same for the worker's |
| ContextObjects.DaskContext.ApplySpecifics | types/types.go:148-178 | lays a role's settings over the receiver's: nil clears, empty keeps, anything else replaces; nothing else changes |
| ContextObjects.DaskContext.SetJobConfig | types/types.go:181-197 | the context of a DaskJob on its cluster's: its image, pull policy and storage class win where they are not empty |
| Contexts.FoldCharacterised | types/types.go:122-178 | after any sequence of role calls each list or map field holds what the last role with something to say on it says, else the base value; pull secrets survive unless some role with a spec leaves them nil; nothing else has changed |
| Contexts.FoldIsLastWord | types/types.go:148-178 | the same for one field |
| Contexts.FoldedSecrets | types/types.go:162-164 | when pull secrets survive |
| Contexts.FoldKeepsTheRest | types/types.go:148-178 | names, namespace, ports, replicas and hosts never change |
| RoleResults.DeploymentsGetTheFold | controllers/dask_controller.go:201-362 | in the plan of any pass a Deployment is made with the fold, over the role specs, of exactly the calls made up to its own |
| RoleResults.OwnSpecAlone | controllers/dask_controller.go:272-314 | a Deployment whose own spec (`scheduler`, `worker` or `notebook` of the resource) has each field nil or non-empty runs with that spec's fields alone, whatever was created before |
| RoleResults.NoSpecInherits | controllers/dask_controller.go:340-362 | a Deployment whose role has no spec in the resource runs with what the earlier calls have left |
| RoleResults.SharedSettingsReach | types/types.go:59-119 | where no role has a spec every Deployment runs with the resource's shared settings |
| RoleResults.SharedComeThroughExactly | types/types.go:148-178 | the shared settings come through a history of calls, whatever they are, if and only if each role called has no spec, or one with all five fields empty and its pull secrets not nil |
| RoleResults.NotebookSpecLeaks | controllers/dask_controller.go:273 | with policies on, a scheduler or worker without a spec runs with the notebook's fields |
| ApiClients.ReadBack | controllers/utils.go:54-217 | which answers about a child are errors: any but "not found" and an object of the right sort that a resource of the right kind controls |
| DaskReconcilers.DaskReconciler.GetDeployment | controllers/utils.go:249-266 | counts the Deployments found and those with all replicas ready; any failure counts as absent |
| DaskReconcilers.DaskReconciler.ResourceDetails | controllers/utils.go:220-246 | reads the children back in order and stops at an error about the Ingress or a Service, but not about a Deployment |
| DaskReconcilers.DaskReconciler.MakeConfig | controllers/dask_controller.go:133-199 | makes the calls of the config group, in order, and stops at the first that fails |
| DaskReconcilers.DaskReconciler.MakeJupyter | controllers/dask_controller.go:201-267 | the same for the notebook group, leaving the context specialised for the notebook |
| DaskReconcilers.DaskReconciler.MakeScheduler | controllers/dask_controller.go:269-335 | the same for the scheduler group |
| DaskReconcilers.DaskReconciler.MakeOrScaleWorkers | controllers/dask_controller.go:337-391 | the same for the worker group, or one update of the worker Deployment if its replica count differs |
| DaskReconcilers.DaskReconciler.MakeIngress | controllers/dask_controller.go:395-419 | the same for the Ingress |
| DaskReconcilers.DaskReconciler.Reconcile | controllers/dask_controller.go:64-428 | whatever the API server answers, the imperative pass makes the calls of the process and returns an error exactly if the process fails |
| DaskJobReconcilers.IsJobFinished | controllers/daskjob_controller.go:125-135 | the loop finds the first condition that is Complete or Failed and True |
| DaskJobReconcilers.DaskJobReconciler.JobStatus | controllers/utils.go:360-402 | reads the Job back and stops if it is not controlled by a DaskJob |
| DaskJobReconcilers.DaskJobReconciler.MakeJobConfig | controllers/daskjob_controller.go:174-194 | creates the ConfigMap if it was not found |
| DaskJobReconcilers.DaskJobReconciler.MakeClaim | controllers/daskjob_controller.go:200-221 | creates the claim if a report is asked for and it was not found |
| DaskJobReconcilers.DaskJobReconciler.MakeJob | controllers/daskjob_controller.go:224-262 | creates the ServiceAccount, then the Job |
| DaskJobReconcilers.DaskJobReconciler.Reconcile | controllers/daskjob_controller.go:60-272 | whatever the API server answers, the imperative pass makes the calls of the process and returns an error exactly if the process fails |
| Objects.FirstFinished | controllers/daskjob_controller.go:125-135 | the type of the first deciding condition, or none if no condition decides |
| Integrity.PlanFromJustified | controllers/dask_controller.go:133-425 | a Dask pass never creates an object before those it needs, whatever it found |
| Integrity.JobPlanJustified | controllers/daskjob_controller.go:174-269 | the same for a DaskJob pass on a complete cluster |
| Integrity.RunKeeps | controllers/dask_controller.go:64-428 | in every run without deletions everything in every version of the store has what it depends on, and every pass is on its way to keep this |
| Integrity.ReferencesResolve | models/job.go:74-133 | in every run without deletions every ConfigMap, ServiceAccount, claim and backend Service an object names exists, wherever passes stop |
| Integrity.JobImpliesCluster | controllers/daskjob_controller.go:84-100 | what stands under the name of a DaskJob's Job is a Job, told a scheduler in its own namespace, and the account, ConfigMap, scheduler Service and Deployment and worker Deployment of that cluster exist |
| Integrity.BodiesFit | controllers/daskjob_controller.go:116-119 | in every run without deletions every version of the store holds under each name an object of the name's sort |
| Integrity.StatusImpliesCluster | controllers/dask_controller.go:422-425 | once a status has been written for a cluster, in whatever version it is read, the cluster is complete |
| Ledger.CreationsBalance | controllers/dask_controller.go:133-419 | in every run a child has been created as often as deleted, and once more if it is there |
| Ledger.JobsRunAtMostOncePerAccount | controllers/daskjob_controller.go:198-263 | creations of a Job do not exceed those of its ServiceAccount, and these do not exceed one plus its deletions |
| Ledger.StrandedJobsNeverRun | controllers/daskjob_controller.go:224-262 | with the account there, the Job never created and no pass between the two, no run creates the Job while the account is not deleted |
| Stranding.StrandedIsReached | controllers/daskjob_controller.go:224-262 | for every cluster whose Ingress has a rule if it is asked for, DaskJob and accepted script there is a run that ends in that state |
| JobRecovery.JobRecoversExactly | controllers/daskjob_controller.go:60-272 | a DaskJob pass alone succeeds if and only if its cluster says Running, its script is accepted, its Job can be read back and nothing it is to create is there; its Job is there then |
| JobRecovery.JobMadeExactly | controllers/daskjob_controller.go:198-263 | with a Running cluster and an accepted script it does if and only if the Job can be read back, and the Job is there or the ServiceAccount is not |
| JobContents.JobPlanMakesParts | models/job.go:74-133 | every write of a DaskJob pass, in terms of the specs: the ConfigMap with the script, the claim, the account, the Job with its own image, pull policy, account, configuration and claim and its cluster's scheduler, or the status |
| JobContents.JobPassMakesExactly | controllers/daskjob_controller.go:174-263 | a pass that gets through makes such a child if and only if it was to be made; else it stays |
| JobContents.JobStatusExactly | controllers/daskjob_controller.go:125-142 | the status it writes is finished with a type if and only if that is the type of the first condition that ends the stored Job, and Running if and only if none does |
| JobContents.JobWaits | controllers/daskjob_controller.go:84-100 | without a Running cluster a pass fails, having written nothing, or nothing but the name of the cluster that is not there |
| JobContents.NoJobNoPass | controllers/daskjob_controller.go:67-73 | a pass for a DaskJob that is not there succeeds and changes nothing |
| JobContents.JobAdds | controllers/daskjob_controller.go:174-263 | from nothing of its own, a DaskJob's first successful pass adds exactly these objects, by kind, namespace and name |
| JobConvergence.JobFixpoint | controllers/daskjob_controller.go:60-272 | once a DaskJob pass has got through its Job is there, every later pass gets through and changes no child, and every pass from the second on writes the same status |
| BoundedWork.CreationsAreBounded | controllers/dask_controller.go:133-419 | without deletions at most 12 creations succeed for a Dask and 4 for a DaskJob |
| BoundedWork.MissingShrinks | controllers/daskjob_controller.go:174-263 | the set of missing children never grows, and every creation strictly reduces it |
| WriteOnce.RunKeeps | controllers/dask_controller.go:382-390 | in every run an update a pass holds is one of the very object that has the version it names |
| WriteOnce.ChildrenAreWrittenOnce | controllers/dask_controller.go:382-390 | without deletions a child stays as created, up to what other controllers report and a worker Deployment's replicas |
| Statuses.DaskStatusesAreObserved | controllers/dask_controller.go:85-107 | every Dask status in any version of the store is fresh, or has 0 <= succeeded <= replicas <= 3 and state Running if they are equal, else Building |
| Statuses.JobStatusesAreObserved | controllers/daskjob_controller.go:75-142 | every DaskJob status is fresh, waits for a cluster it has named, or, with that cluster seen Running, is Running with its Job seen unfinished, or finished as its Job was |
| Statuses.OnlyCompleteOrFailed | controllers/daskjob_controller.go:128 | a finished state is Complete or Failed |
| Statuses.CountsOrdered | controllers/utils.go:261-264 | ready Deployments are among those found, and those among the three looked for |
| Solo.PassesProgress | controllers/dask_controller.go:64-428 | every answer brings a pass closer to its end |
| Solo.PassAlone | controllers/dask_controller.go:64-428 | a pass with fresh reads stops at the details or carries out the plan for what the store holds |
| Stranding.RunLeads | controllers/dask_controller.go:64-428 | whatever point a pass alone gets to, a run of the operator gets it there |
| Groups.GroupMakes | controllers/dask_controller.go:133-419 | a group asked for whose guard was not found creates its members, owned by the Dask, the guard last |
| Groups.GroupRests | controllers/dask_controller.go:382-391 | any other group does nothing but rescale the workers |
| Groups.CreationsRun | controllers/dask_controller.go:133-419 | a run of creations succeeds exactly if every key is free and every body admissible; otherwise the last is not created |
| Recovery.PlanRuns | controllers/dask_controller.go:133-425 | a plan succeeds exactly if each group can be passed, leaves each done and the status written, or stops at the first that cannot with nothing later touched |
| Recovery.RecoversExactly | controllers/dask_controller.go:133-425 | a pass alone succeeds if and only if the details can be read, no group asked for is half made and an Ingress to be created has a rule |
| Recovery.DetailsOkExactly | controllers/utils.go:220-246 | the details can be read if and only if the Services and the Ingress asked for are, where they are there, of their sort and a Dask's |
| Recovery.NoDaskNoPass | controllers/dask_controller.go:71-78 | a pass for a Dask that is not there succeeds and changes nothing |
| Recovery.StopsAtHalfMade | controllers/dask_controller.go:133-425 | a half-made group stops the pass there: no later group and no status is touched, and the group stays half made |
| Recovery.HalfMadeForever | controllers/dask_controller.go:133-425 | after any number of passes the group is still half made and the status not written |
| BrokenPairs.PairsStayBroken | controllers/dask_controller.go:157-197 | in every run in which the account or Service before a guard is there without it, and no pass is between the two, the guard never comes while that member is not deleted |
| Convergence.OnePassConverges | controllers/dask_controller.go:64-428 | from groups that are complete or untouched one pass makes all children, with as many workers as the spec says and 5 where it says 0, and loses nothing |
| Convergence.SettledPass | controllers/dask_controller.go:382-390 | a pass over a complete cluster changes no child |
| Convergence.Fixpoint | controllers/utils.go:220-266 | only the first pass changes a child, and every pass from the second on writes the same status |
| Convergence.StatusOfStore | controllers/utils.go:249-266 | the counts and the state a pass writes are those of the three Deployments in the store it has read |
| Convergence.ResourcesOfStore | controllers/utils.go:54-246 | the details it writes are, in order, those of the Ingress, the Deployments and the Services in that store |
| Convergence.RunningExactly | controllers/dask_controller.go:105-107 | a successful pass writes Running if and only if each of the three Deployments it has found has all its replicas ready |
| Convergence.RunningInFull | controllers/dask_controller.go:105-107 | it writes Running with three replicas if and only if all three are there and ready, and, with no notebook there, with two if and only if the other two are |
| Convergence.RunningBeforeAnythingRuns | controllers/dask_controller.go:105-107 | a pass that finds none of the three Deployments writes Running with no replicas |
| BlockScalar.IndentLines | models/configs.go:258 | indenting puts four blanks in front of every line of the script |
| ScriptRoundTrip.ComesOutExactly | models/configs.go:257-260 | a script comes out of the data block as it went in, with one line break at its end, if and only if it survives: a condition on its characters and its first one |
| DataBlock.ThreeKeys | models/configs.go:255-357 | whatever the script, the data block can be read and has exactly three keys if and only if the script is YAML text whose rendered lines are aligned; the two other entries are then as written |
| DataBlock.KeysWhenRead | models/configs.go:255-357 | a data block that can be read begins with the script's key and ends with the two others as written; it then has three keys if and only if no rendered line of the script, other than comments, is as shallow as a key |
| DataBlock.NoReturnsNoKeys | models/configs.go:258 | no line of a script without carriage returns is where a key would be |
| DataBlock.ReturnsAddAnEntry | models/configs.go:258 | two lines with a key between them, held apart by carriage returns, give the ConfigMap a fourth entry, whatever the key, as long as a ConfigMap may have it and it is none of the three |
| DataBlock.FourKeys | models/configs.go:258 | one concrete such script |
| DataBlock.ReadableExactly | models/configs.go:255-260 | without carriage returns the block can be read, with three keys, if and only if the script is YAML text, its first line of text follows no longer line of blanks, and from the first less indented line of text on it has only comments |
| ScriptRoundTrip.BlockReads | models/configs.go:257-259 | lines indented by four below a key are read to their end, without the four |
| KeyConversion.ConversionKeepsViews | utils/utils.go:42-56 | every path leads to the same scalar, set of keys or length before and after |
| KeyConversion.ConversionIsIdempotent | utils/utils.go:42-56 | converting twice is converting once |
| KeyConversion.GenericFreeExactly | utils/utils.go:42-56 | no generic map is left if and only if none was below a string-keyed map |
| KeyConversion.NothingToConvert | utils/utils.go:55 | a document without generic maps comes back as it is |
| YamlValues.ConvertKeysToString | utils/utils.go:42-56 | terminates on an unshared document; the result has new maps in the place of generic ones and the very lists and string-keyed maps of the argument; nothing but the lists changes |
| YamlValues.ConvertSlice | utils/utils.go:50-53 | the list itself is rewritten, element by element |
| YamlValues.ConvertMap | utils/utils.go:44-49 | a new map with every key of the old one, each value converted, in whatever order the keys come |
| YamlValues.ConvertDocument | utils/utils.go:60-70 | the tree the result holds is the converted tree |
| YamlValues.TurnedIsConverted | utils/utils.go:42-56 | what the code does to objects is the conversion of the tree they hold |
| JobScript.FindPythonLine | utils/utils.go:145 | true exactly if the pattern matches somewhere at the beginning of a line |
| JobScript.PythonLineIsALine | utils/utils.go:145 | the pattern finds exactly the scripts one of whose lines, other than the last, is the Python line |
| JobScript.Extension | utils/utils.go:154 | the last dot of the last path element and what follows it, or nothing |
| JobScript.SuffixExactly | utils/utils.go:154-157 | the extension is one of the two exactly if the path ends with it and its dot |
| JobScript.CheckJobScript | utils/utils.go:132-189 | the verdict for every script: JSON, Python line, web address, mounted file, or rejected |
| JobScript.AcceptedExactly | utils/utils.go:132-189 | which scripts are accepted, that the type is py or ipynb, and that there is exactly one source |
| JobScript.AllNameTheSameFile | models/job.go:116-118 | the ConfigMap's key, the Job's mount and the launcher's branch name the same file |
| JobScript.CommandIsTheLauncher | models/job.go:87-115 | the file the Job's command runs is the launcher of the ConfigMap, next to the notebook's configuration, whatever the script |
| JobScript.FilesAreNotRun | models/configs.go:363-397 | in the place of a script that is the name of a file the launcher runs an empty file |
| JobScript.LauncherRunsTheScript | models/configs.go:378-397 | the launched file is what the user asked to run if and only if that is no file name and survives its rendering |
| NetworkPolicies.EgressExact | models/worker.go:231-245 | what the policies of all clusters let a pod send |
| NetworkPolicies.IngressExact | models/scheduler.go:222-260 | what they let a pod receive, from the operator's pods and from the nginx ingress controller |
| NetworkPolicies.ConnectivityExact | models/jupyter.go:171-195 | which pod reaches which, on which port, under the policies of any number of clusters |
| NetworkPolicies.OtherClustersDoNotMatter | models/networkpolicy.go:15-39 | the policies of further clusters change nothing between existing pods |
| Placement.AddDaemonRule | models/worker.go:158-184 | exactly one term is appended, in place where there was a map, and every other rule and key stays |
| Placement.WorkersRepel | models/worker.go:174-183 | the rule keeps a worker off any node with a pod of its cluster |
| Placement.OneWorkerPerNode | models/worker.go:174-183 | whatever is placed and removed, no node holds two workers of a cluster in daemon mode |
| Placement.WorkersFitNodes | README.md:45 | running workers never outnumber the nodes |

## Left out

- The in-place JSON merge of a shared Affinity or Resources pointer with a role's, and daemon mode with an Affinity that is a typed nil pointer: they rest on decoder internals, so the two fields are not among the pod settings.
- Rendering that fails, and the template engine beyond `indent`: rendering is a total function to the names, labels, references and settings that matter.
- Labels, probes, commands and ports of the rendered objects, except where a policy, a placement or a reference depends on them.
- YAML beyond the data block of the DaskJob's ConfigMap: behind a carriage return, a line less indented than the keys can end the block (`foo:` at the margin) or the document (`...`) for a YAML reader.
- DataBlock.KeysWhenRead: takes such a block for unreadable, and likewise one with an entry in another form than a plain key and `: |` (a value on the key's line, another header, a quoted or nested key); a key that YAML takes for something else than text (`null`, `12`) is read as text.
- ScriptRoundTrip.ComesOutExactly: follows YAML 1.2; the decoder (yaml.v3, go.mod:18, not part of this model) rejects a tab at the start of a scalar's first line and takes U+0085, U+2028 and U+2029 for line breaks, as YAML 1.1 does.
- The text of the status: it is a record of what was observed, and its error texts are one value.
- Objects of others under the operator's names, garbage collection, and admission checks other than for an Ingress without rules.
- What stands below the libraries in CheckJobScript: JSON validity, URL parsing and fetching are facts given with the script.
- JobScript.AllNameTheSameFile: relates what one pass renders; a ConfigMap kept from an earlier pass may carry another script type after the spec was edited.
- NetworkPolicies.ConnectivityExact: clusters with policies disabled are not among the clusters it speaks of.
- YamlValues.ConvertKeysToString: does not model the panic on a key that is no string.
- Placement.OneWorkerPerNode: assumes that placements honour the required rules of the pod that is placed.
- 32-bit width of replica counts.
- Webhooks, name-length checks, events, logging, manager setup, deep copies, charts and samples: easy or without state.
