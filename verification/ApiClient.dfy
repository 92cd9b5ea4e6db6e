/** A client the reconcilers talk to the API server through. Its answers are arbitrary: failures,
    stale objects, what other controllers did in between. */
module ApiClients {
  import opened Options
  import opened Names
  import opened Objects
  import opened Api
  import opened Processes

  class ApiClient {
    var answers: seq<Resp>
    /** Where the pass stands. Only the call it should make next can be made, so a reconciler that
        brings the process from its start to its end has made exactly the calls of that process. */
    ghost var where: Process

    constructor (answers: seq<Resp>, ghost start: Process)
      ensures this.answers == answers && where == start
    {
      this.answers := answers;
      this.where := start;
    }

    method Ask(c: Call) returns (r: Resp)
      requires Sane(where) && !where.Done? && c == NextCall(where)
      modifies this
      ensures where == Resume(old(where), r)
      ensures r == (if old(answers) == [] then Error else old(answers)[0])
      ensures answers == (if old(answers) == [] then [] else old(answers)[1..])
    {
      r := Error;
      if answers != [] {
        r := answers[0];
        answers := answers[1..];
      }
      where := Resume(where, r);
    }

    /** The next write of a pass; anything but success ends the pass. */
    method Write(c: Call, ghost owner: Key, ghost rest: seq<Call>) returns (ok: bool)
      requires where == Act(owner, [c] + rest)
      modifies this
      ensures where == if ok then Acting(owner, rest) else Done(false)
    {
      var r := Ask(c);
      ok := r.Ok?;
      assert ([c] + rest)[1..] == rest;
    }
  }

  /** Checks what came back for a child whose status is wanted: it must be there, be of the right
      sort and be controlled by a resource of the right kind. */
  method ReadBack(k: Key, resp: Resp, kind: Kind) returns (report: Report, failed: bool)
    ensures failed ==> report == NothingFound
    ensures !failed <==>
      || resp.NotFound?
      || (resp.Found? && Fits(k, resp.obj.body) && resp.obj.owner.Some?
          && resp.obj.owner.value.apiVersion == "analytics.piersharding.com/v1" && resp.obj.owner.value.kind == kind)
    ensures Detail(k, resp, kind) == if failed && KindOf(k) != Deployment then None else Some(report)
  {
    if resp.NotFound? {
      return NothingFound, false;
    }
    if !(resp.Found? && Fits(k, resp.obj.body)) {
      return NothingFound, true;
    }
    var owner := resp.obj.owner;
    if owner.None? {
      return NothingFound, true;
    }
    if owner.value.apiVersion != GROUP_VERSION || owner.value.kind != kind {
      return NothingFound, true;
    }
    return ReportOf(resp.obj.body), false;
  }
}
