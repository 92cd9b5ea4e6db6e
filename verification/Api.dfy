/** The API server as one atomic call sees it: a store of versioned objects. */
module Api {
  import opened Options
  import opened Names
  import opened Objects

  /** `rev` is the version given to the latest write. */
  datatype Db = Db(objs: map<Key, Obj>, rev: nat)

  datatype Status = ClusterStatus(cluster: DaskStatus) | WorkStatus(work: DaskJobStatus)

  datatype Call =
    | Get(key: Key)
    | List(ns: string)
    | CheckScript(script: string)
    | Create(key: Key, owner: Owner, body: Body)
    | Update(key: Key, rv: nat, body: Body)
    | UpdateStatus(key: Key, rv: nat, status: Status)

  /** `Error` is any failure but "not found". */
  datatype Resp =
    | Found(obj: Obj)
    | NotFound
    | Ok
    | Script(data: ScriptData)
    | Error

  predicate IsWrite(c: Call) {
    c.Create? || c.Update? || c.UpdateStatus?
  }

  function Lookup(db: Db, k: Key): Resp {
    if k in db.objs then Found(db.objs[k]) else NotFound
  }

  /** An Ingress needs a rule: the one thing the operator renders that admission can turn down. */
  predicate Admissible(b: Body) {
    b.IngressBody? ==> b.rules != []
  }

  /** An update of the main resource leaves the status part alone, and the other way round. */
  function WithSpecOf(stored: Body, sent: Body): Body {
    match (stored, sent)
    case (DeploymentBody(_, _, readiness), DeploymentBody(replicas, template, _)) => DeploymentBody(replicas, template, readiness)
    case _ => stored
  }

  function WithStatus(stored: Body, status: Status): Body {
    match (stored, status)
    case (ClusterBody(spec, _), ClusterStatus(s)) => ClusterBody(spec, s)
    case (WorkBody(job, _), WorkStatus(s)) => WorkBody(job, s)
    case _ => stored
  }

  function Put(db: Db, k: Key, owner: Option<Owner>, b: Body): Db {
    Db(db.objs[k := Obj(db.rev + 1, owner, b)], db.rev + 1)
  }

  /** A write succeeds or leaves the store alone: creation needs a free key, an update the version
      that is stored. */
  function Write(db: Db, c: Call): Option<Db> {
    match c
    case Create(k, owner, b) =>
      if k in db.objs || !Admissible(b) then None else Some(Put(db, k, Some(owner), b))
    case Update(k, rv, b) =>
      if k in db.objs && db.objs[k].rv == rv
      then Some(Put(db, k, db.objs[k].owner, WithSpecOf(db.objs[k].body, b))) else None
    case UpdateStatus(k, rv, s) =>
      if k in db.objs && db.objs[k].rv == rv
      then Some(Put(db, k, db.objs[k].owner, WithStatus(db.objs[k].body, s))) else None
    case _ => None
  }
}
