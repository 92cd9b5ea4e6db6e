/** The operator at work: any number of passes of both controllers, each advancing one API call at a
    time, against one store that users, other controllers and failures act on as well. */
module Operator {
  import opened Options
  import opened Names
  import opened Specs
  import opened Objects
  import opened Api
  import opened Processes

  datatype Event =
    | Created(key: Key)
    | Deleted(key: Key)
    | Updated(key: Key)
    | StatusWritten(key: Key, status: Status)

  /** `history` holds every version of the store, the last one being the present: a cached read may
      return any of them. `log` holds the successful writes of the passes, and the deletions. */
  datatype World = World(history: seq<Db>, passes: seq<Process>, log: seq<Event>)

  /** How the outside world meets a call: a read sees some version, a write takes effect or not and
      its answer may get lost. */
  datatype Answer =
    | ReadAt(version: nat)
    | Take
    | TakeButLose
    | Fail
    | ScriptIs(data: ScriptData)

  /** What others change: users edit specs, the built-in controllers report on children. */
  datatype Change =
    | NewSpec(spec: DaskSpec)
    | NewJobSpec(jobSpec: DaskJobSpec)
    | NewReadiness(readiness: Readiness)
    | NewConditions(conditions: seq<Condition>)
    | NewAddress(address: string)

  datatype Step =
    | Submit(key: Key, body: Body)
    | Edit(key: Key, change: Change)
    | StartDask(ns: string, name: string)
    | StartJob(ns: string, name: string)
    | Advance(pass: nat, answer: Answer)
    | Crash(pass: nat)
    | Delete(key: Key)

  const EMPTY := World([Db(map[], 0)], [], [])

  function Now(w: World): Db
    requires w.history != []
  {
    w.history[|w.history|-1]
  }

  function Commit(w: World, db: Db, e: seq<Event>): World {
    w.(history := w.history + [db], log := w.log + e)
  }

  /** A custom resource as its user submits it: with no status yet. */
  predicate Submittable(k: Key, b: Body) {
    || (k.Cluster? && b.ClusterBody? && b.status == FRESH_DASK)
    || (k.Work? && b.WorkBody? && b.progress == FRESH_JOB)
  }

  function Changed(b: Body, change: Change): Body {
    match (b, change)
    case (ClusterBody(_, status), NewSpec(spec)) => ClusterBody(spec, status)
    case (WorkBody(_, progress), NewJobSpec(spec)) => WorkBody(spec, progress)
    case (DeploymentBody(replicas, pod, _), NewReadiness(r)) => DeploymentBody(replicas, pod, r)
    case (JobBody(pod, scriptType, _), NewConditions(cs)) => JobBody(pod, scriptType, cs)
    case (IngressBody(rules, _), NewAddress(a)) => IngressBody(rules, a)
    case _ => b
  }

  datatype Outcome = Outcome(db: Option<Db>, resp: Resp)

  function Perform(w: World, c: Call, a: Answer): Outcome
    requires w.history != []
  {
    match c
    case Get(k) =>
      if a.ReadAt? && a.version < |w.history| then Outcome(None, Lookup(w.history[a.version], k)) else Outcome(None, Error)
    case List(_) => Outcome(None, if a.Take? then Ok else Error)
    case CheckScript(_) => Outcome(None, if a.ScriptIs? then Script(a.data) else Error)
    case _ =>
      var db := Write(Now(w), c);
      if db.None? || !(a.Take? || a.TakeButLose?) then Outcome(None, Error)
      else Outcome(db, if a.Take? then Ok else Error)
  }

  function EventOf(c: Call): Event
    requires IsWrite(c)
  {
    match c
    case Create(k, _, _) => Created(k)
    case Update(k, _, _) => Updated(k)
    case UpdateStatus(k, _, s) => StatusWritten(k, s)
  }

  /** Pass i makes the call c and is answered a. */
  function AdvancePass(w: World, i: nat, c: Call, a: Answer): World
    requires w.history != [] && i < |w.passes|
  {
    var o := Perform(w, c, a);
    var w1 := w.(passes := w.passes[i := Moved(w.passes[i], o.resp)]);
    if o.db.Some? then Commit(w1, o.db.value, [EventOf(c)]) else w1
  }

  /** One step; a step that is not possible changes nothing. */
  function Apply(w: World, s: Step): (w': World)
    requires w.history != []
    ensures w'.history != []
  {
    match s
    case Submit(k, b) =>
      if k !in Now(w).objs && Submittable(k, b) then Commit(w, Put(Now(w), k, None, b), []) else w
    case Edit(k, change) =>
      if k in Now(w).objs
      then Commit(w, Put(Now(w), k, Now(w).objs[k].owner, Changed(Now(w).objs[k].body, change)), []) else w
    case StartDask(ns, name) => w.(passes := w.passes + [FetchDask(ns, name)])
    case StartJob(ns, name) => w.(passes := w.passes + [FetchJob(ns, name)])
    case Advance(i, a) =>
      if i < |w.passes| && Next(w.passes[i]).Some? then AdvancePass(w, i, Next(w.passes[i]).value, a) else w
    case Crash(i) =>
      if i < |w.passes| then w.(passes := w.passes[i := Done(false)]) else w
    case Delete(k) =>
      if k in Now(w).objs then Commit(w, Db(Now(w).objs - {k}, Now(w).rev + 1), [Deleted(k)]) else w
  }

  /** The world after a run. */
  function Run(steps: seq<Step>): (w: World)
    ensures w.history != []
  {
    if steps == [] then EMPTY else Apply(Run(steps[..|steps|-1]), steps[|steps|-1])
  }

  predicate NoDeletions(steps: seq<Step>) {
    forall i :: 0 <= i < |steps| ==> !steps[i].Delete?
  }
}
