/** Counting what passes create: how often a child can come to exist, and how often a job can run. */
module Ledger {
  import opened Options
  import opened Names
  import opened Contexts
  import opened Objects
  import opened Api
  import opened Processes
  import opened Plans
  import opened Operator
  import opened NonInterference

  function Count(log: seq<Event>, e: Event): nat {
    if log == [] then 0 else Count(log[..|log|-1], e) + if log[|log|-1] == e then 1 else 0
  }

  lemma CountOne(log: seq<Event>, e: Event, f: Event)
    ensures Count(log + [f], e) == Count(log, e) + if f == e then 1 else 0
  {
  }

  /** What a step adds to the log, if it changes the store of children at all. */
  lemma AdvanceLogs(w: World, i: nat, c: Call, a: Answer)
    requires w.history != [] && i < |w.passes|
    ensures var o, w' := Perform(w, c, a), AdvancePass(w, i, c, a);
      && w'.passes == w.passes[i := Moved(w.passes[i], o.resp)]
      && (o.db.None? ==> w'.log == w.log && Now(w') == Now(w))
      && (o.db.Some? ==> w'.log == w.log + [EventOf(c)] && Now(w') == o.db.value && Write(Now(w), c) == o.db)
  {
  }

  // ---- Every child is accounted for ----

  ghost predicate Balanced(w: World, k: Key)
    requires w.history != []
  {
    Count(w.log, Created(k)) == Count(w.log, Deleted(k)) + if k in Now(w).objs then 1 else 0
  }

  lemma WriteMembership(db: Db, c: Call, db': Db, k: Key)
    requires Write(db, c) == Some(db')
    ensures k in db'.objs <==> k in db.objs || EventOf(c) == Created(k)
    ensures EventOf(c) == Created(k) ==> k !in db.objs
    ensures EventOf(c) != Deleted(k)
  {
  }

  /** Users and other controllers leave no trace in the log. */
  lemma QuietStep(w: World, s: Step)
    requires w.history != [] && (s.Submit? || s.Edit?)
    ensures Apply(w, s).log == w.log && Apply(w, s).passes == w.passes
  {
  }

  lemma AdvanceBalances(w: World, i: nat, c: Call, a: Answer, k: Key)
    requires w.history != [] && Balanced(w, k) && i < |w.passes|
    ensures Balanced(AdvancePass(w, i, c, a), k)
  {
  }

  lemma StepBalances(w: World, s: Step, k: Key)
    requires w.history != [] && k.Child? && Balanced(w, k)
    ensures Balanced(Apply(w, s), k)
  {
    match s
    case Advance(i, a) =>
      if i < |w.passes| && Next(w.passes[i]).Some? {
        AdvanceBalances(w, i, Next(w.passes[i]).value, a, k);
      }
    case Delete(d) =>
      CountOne(w.log, Created(k), Deleted(d));
      CountOne(w.log, Deleted(k), Deleted(d));
    case Submit(_, _) => QuietStep(w, s);
    case Edit(_, _) => QuietStep(w, s);
    case _ =>
  }

  /** Conservation: in every run, a child has been created as often as it has been deleted, and once
      more if it is there now. */
  lemma {:induction false} CreationsBalance(steps: seq<Step>, k: Key)
    requires k.Child?
    ensures Balanced(Run(steps), k)
  {
    if steps == [] {
    } else {
      CreationsBalance(steps[..|steps|-1], k);
      StepBalances(Run(steps[..|steps|-1]), steps[|steps|-1], k);
    }
  }

  // ---- A job runs at most once per ServiceAccount ----

  /** How many of the calls create k. */
  function Tally(calls: seq<Call>, k: Key): nat {
    if calls == [] then 0
    else (if calls[0].Create? && calls[0].key == k then 1 else 0) + Tally(calls[1..], k)
  }

  /** From any point on, at least as many Jobs as accounts remain to be created. */
  predicate AccountsFirst(calls: seq<Call>, ns: string, n: string) {
    calls == [] ||
    (Tally(calls, Child(JobAccount, ns, n)) <= Tally(calls, Child(JobRun, ns, n)) && AccountsFirst(calls[1..], ns, n))
  }

  predicate Sound(p: Process, ns: string, n: string) {
    p.Act? ==> AccountsFirst(p.todo, ns, n)
  }

  ghost predicate AllSound(ps: seq<Process>, ns: string, n: string) {
    forall i :: 0 <= i < |ps| ==> Sound(ps[i], ns, n)
  }

  /** The Jobs a pass is yet to create for accounts it has created. */
  function Owed(p: Process, ns: string, n: string): int {
    if p.Act? then Tally(p.todo, Child(JobRun, ns, n)) - Tally(p.todo, Child(JobAccount, ns, n)) else 0
  }

  function OwedByAll(ps: seq<Process>, ns: string, n: string): int {
    if ps == [] then 0 else OwedByAll(ps[..|ps|-1], ns, n) + Owed(ps[|ps|-1], ns, n)
  }

  lemma {:induction false} OwedAfterChange(ps: seq<Process>, i: nat, q: Process, ns: string, n: string)
    requires i < |ps|
    ensures OwedByAll(ps[i := q], ns, n) == OwedByAll(ps, ns, n) - Owed(ps[i], ns, n) + Owed(q, ns, n)
    ensures AllSound(ps, ns, n) && Sound(q, ns, n) ==> AllSound(ps[i := q], ns, n)
  {
    var last := |ps| - 1;
    if i == last {
      assert ps[i := q][..last] == ps[..last];
    } else {
      assert ps[i := q][..last] == ps[..last][i := q];
      OwedAfterChange(ps[..last], i, q, ns, n);
    }
  }

  lemma {:induction false} OwedIsNotNegative(ps: seq<Process>, ns: string, n: string)
    requires AllSound(ps, ns, n)
    ensures OwedByAll(ps, ns, n) >= 0
  {
    if ps == [] {
    } else {
      OwedIsNotNegative(ps[..|ps|-1], ns, n);
      assert Sound(ps[|ps|-1], ns, n);
    }
  }

  lemma {:induction false} TallyOwned(owner: Key, calls: seq<Call>, k: Key)
    requires Owned(owner, calls) && OwnerKey(k) != owner
    ensures Tally(calls, k) == 0
  {
    if calls == [] {
    } else {
      TallyOwned(owner, calls[1..], k);
    }
  }

  /** Calls for another resource, and calls that create nothing of the kind, owe nothing. */
  lemma {:induction false} NoneOfThem(calls: seq<Call>, ns: string, n: string)
    requires Tally(calls, Child(JobAccount, ns, n)) == 0
    ensures AccountsFirst(calls, ns, n)
  {
    if calls == [] {
    } else {
      NoneOfThem(calls[1..], ns, n);
    }
  }

  lemma {:induction false} TallyThen(first: seq<Call>, second: seq<Call>, k: Key)
    ensures Tally(first + second, k) == Tally(first, k) + Tally(second, k)
  {
    if first == [] {
      assert first + second == second;
    } else {
      assert (first + second)[1..] == first[1..] + second;
      TallyThen(first[1..], second, k);
    }
  }

  /** In front of calls that owe nothing, calls that create neither change nothing. */
  lemma {:induction false} AccountsFirstAfter(first: seq<Call>, second: seq<Call>, ns: string, n: string)
    requires Tally(first, Child(JobAccount, ns, n)) == 0 && AccountsFirst(second, ns, n)
    ensures AccountsFirst(first + second, ns, n)
  {
    if first == [] {
      assert first + second == second;
    } else {
      assert (first + second)[1..] == first[1..] + second;
      AccountsFirstAfter(first[1..], second, ns, n);
      TallyThen(first, second, Child(JobAccount, ns, n));
      TallyThen(first, second, Child(JobRun, ns, n));
      assert second != [] ==> Tally(second, Child(JobAccount, ns, n)) <= Tally(second, Child(JobRun, ns, n));
    }
  }

  lemma OwnPlanOwesNothing(v: DaskJobView, c: Context, seen: Seen, report: Report)
    requires |seen| == 4 && JobPlace(v, c)
    ensures AccountsFirst(JobPlan(v, c, seen, report), v.ns, v.name)
    ensures Owed(Act(WorkKey(v), JobPlan(v, c, seen, report)), v.ns, v.name) == 0
  {
    var ns, n := v.ns, v.name;
    var account, run := Child(JobAccount, ns, n), Child(JobRun, ns, n);
    var plan := JobPlan(v, c, seen, report);
    var last := [JobStatusCall(v, seen, report)];
    var config := JobConfigGroup(c, seen[2].None?);
    var claim := ClaimGroup(c, seen[3].None?);
    var pair := if seen[0].Some? then [] else [MakeForJob(c, JobAccount), MakeForJob(c, JobRun)];
    var front := if seen[0].Some? then config else config + claim;
    assert plan == front + (pair + last);
    assert Tally(config, account) == 0 == Tally(config, run);
    assert Tally(claim, account) == 0 == Tally(claim, run);
    TallyThen(config, claim, account);
    TallyThen(config, claim, run);
    PairOwesNothing(pair, last, ns, n);
    AccountsFirstAfter(front, pair + last, ns, n);
    TallyThen(front, pair + last, account);
    TallyThen(front, pair + last, run);
  }

  lemma JobPlanOwesNothing(v: DaskJobView, c: Context, seen: Seen, report: Report, ns: string, n: string)
    requires |seen| == 4 && JobPlace(v, c)
    ensures AccountsFirst(JobPlan(v, c, seen, report), ns, n)
    ensures Owed(Act(WorkKey(v), JobPlan(v, c, seen, report)), ns, n) == 0
  {
    var account, run := Child(JobAccount, ns, n), Child(JobRun, ns, n);
    var plan := JobPlan(v, c, seen, report);
    if v.ns != ns || v.name != n {
      JobPlanOwned(v, c, seen, report);
      TallyOwned(WorkKey(v), plan, account);
      TallyOwned(WorkKey(v), plan, run);
      NoneOfThem(plan, ns, n);
    } else {
      OwnPlanOwesNothing(v, c, seen, report);
    }
  }

  lemma PairOwesNothing(pair: seq<Call>, last: seq<Call>, ns: string, n: string)
    requires pair == [] || (|pair| == 2 && pair[0].Create? && pair[1].Create?
                            && pair[0].key == Child(JobAccount, ns, n) && pair[1].key == Child(JobRun, ns, n))
    requires |last| == 1 && last[0].UpdateStatus?
    ensures AccountsFirst(pair + last, ns, n)
    ensures Tally(pair + last, Child(JobAccount, ns, n)) == Tally(pair + last, Child(JobRun, ns, n))
  {
    if pair == [] {
      assert pair + last == last && last[1..] == [];
    } else {
      var all := pair + last;
      assert all[1..] == [pair[1]] + last;
      assert ([pair[1]] + last)[1..] == last;
      assert last[1..] == [];
      var account, run := Child(JobAccount, ns, n), Child(JobRun, ns, n);
      assert Tally(last, account) == 0 == Tally(last, run) && AccountsFirst(last, ns, n);
      assert Tally([pair[1]] + last, account) == 0 && Tally([pair[1]] + last, run) == 1;
      assert AccountsFirst([pair[1]] + last, ns, n);
    }
  }

  lemma ClusterPlanOwesNothing(v: DaskView, seen: Seen, reports: seq<Report>, ns: string, n: string)
    requires |seen| == 5
    ensures AccountsFirst(ClusterPlan(v, seen, reports), ns, n)
    ensures Owed(Act(DaskKey(v), ClusterPlan(v, seen, reports)), ns, n) == 0
  {
    var plan := ClusterPlan(v, seen, reports);
    ClusterPlanOwned(v, seen, reports);
    TallyOwned(DaskKey(v), plan, Child(JobAccount, ns, n));
    TallyOwned(DaskKey(v), plan, Child(JobRun, ns, n));
    NoneOfThem(plan, ns, n);
  }

  /** While reading, a pass owes nothing, and neither does the plan it ends with. */
  lemma ReadingOwesNothing(p: Process, r: Resp, ns: string, n: string)
    requires Next(p).Some? && !p.Act? && KeepsToOwn(p)
    ensures Sound(Moved(p, r), ns, n) && Owed(Moved(p, r), ns, n) == 0
  {
    match p
    case DetailCluster(v, seen, reports) =>
      if d :| Detail(ClusterDetails(v)[|reports|], r, Dask) == Some(d) {
        ClusterPlanOwesNothing(v, seen, reports + [d], ns, n);
      }
    case DetailJob(v, c, seen) =>
      if d :| Detail(Child(JobRun, v.ns, v.name), r, DaskJob) == Some(d) {
        JobPlanOwesNothing(v, c, seen, d, ns, n);
      }
    case _ =>
  }

  ghost predicate Paid(w: World, ns: string, n: string, due: int) {
    && AllKeepToOwn(w)
    && AllSound(w.passes, ns, n)
    && Count(w.log, Created(Child(JobRun, ns, n))) + OwedByAll(w.passes, ns, n) + due <= Count(w.log, Created(Child(JobAccount, ns, n)))
  }

  function Counts(took: bool, c: Call, k: Key): int {
    if took && c.Create? && c.key == k then 1 else 0
  }

  /** A writing step: creating an account takes on a debt that only creating the Job pays. */
  lemma ActOwes(p: Process, c: Call, r: Resp, took: bool, ns: string, n: string)
    requires Next(p) == Some(c) && p.Act? && Sound(p, ns, n) && (r.Ok? ==> took)
    ensures var q := Moved(p, r);
      && Sound(q, ns, n)
      && Counts(took, c, Child(JobRun, ns, n)) + Owed(q, ns, n) <= Counts(took, c, Child(JobAccount, ns, n)) + Owed(p, ns, n)
  {
    var rest := p.todo[1..];
    assert AccountsFirst(rest, ns, n);
    assert Tally(rest, Child(JobAccount, ns, n)) <= Tally(rest, Child(JobRun, ns, n));
  }

  lemma AdvanceCounts(w: World, i: nat, c: Call, a: Answer, k: Key)
    requires w.history != [] && i < |w.passes|
    ensures Count(AdvancePass(w, i, c, a).log, Created(k)) == Count(w.log, Created(k)) + Counts(Perform(w, c, a).db.Some?, c, k)
  {
  }

  lemma OkMeansTaken(w: World, c: Call, a: Answer)
    requires w.history != [] && IsWrite(c)
    ensures Perform(w, c, a).resp.Ok? ==> Perform(w, c, a).db.Some?
  {
  }

  lemma AdvanceOwes(w: World, p: Process, c: Call, a: Answer, ns: string, n: string)
    requires w.history != [] && Next(p) == Some(c) && KeepsToOwn(p) && Sound(p, ns, n)
    ensures var o := Perform(w, c, a); var q := Moved(p, o.resp);
      && Sound(q, ns, n)
      && Counts(o.db.Some?, c, Child(JobRun, ns, n)) + Owed(q, ns, n)
         <= Counts(o.db.Some?, c, Child(JobAccount, ns, n)) + Owed(p, ns, n)
  {
    var o := Perform(w, c, a);
    if p.Act? {
      OkMeansTaken(w, c, a);
      ActOwes(p, c, o.resp, o.db.Some?, ns, n);
    } else {
      ReadingOwesNothing(p, o.resp, ns, n);
    }
  }

  /** How one pass moving on changes the balance. */
  lemma PaidAfter(w: World, w': World, i: nat, q: Process, jobs: int, accounts: int, ns: string, n: string, due: int)
    requires Paid(w, ns, n, due) && AllKeepToOwn(w') && i < |w.passes| && w'.passes == w.passes[i := q]
    requires Sound(q, ns, n) && jobs + Owed(q, ns, n) <= accounts + Owed(w.passes[i], ns, n)
    requires Count(w'.log, Created(Child(JobRun, ns, n))) == Count(w.log, Created(Child(JobRun, ns, n))) + jobs
    requires Count(w'.log, Created(Child(JobAccount, ns, n))) == Count(w.log, Created(Child(JobAccount, ns, n))) + accounts
    ensures Paid(w', ns, n, due)
  {
    OwedAfterChange(w.passes, i, q, ns, n);
  }

  lemma AdvancePays(w: World, i: nat, c: Call, a: Answer, ns: string, n: string, due: int)
    requires w.history != [] && Paid(w, ns, n, due) && i < |w.passes| && Next(w.passes[i]) == Some(c)
    ensures Paid(AdvancePass(w, i, c, a), ns, n, due)
  {
    var p, o := w.passes[i], Perform(w, c, a);
    AdvanceKeepsToOwn(w, i, c, a);
    AdvanceOwes(w, p, c, a, ns, n);
    AdvanceLogs(w, i, c, a);
    AdvanceCounts(w, i, c, a, Child(JobRun, ns, n));
    AdvanceCounts(w, i, c, a, Child(JobAccount, ns, n));
    PaidAfter(w, AdvancePass(w, i, c, a), i, Moved(p, o.resp),
              Counts(o.db.Some?, c, Child(JobRun, ns, n)), Counts(o.db.Some?, c, Child(JobAccount, ns, n)), ns, n, due);
  }

  lemma CrashPays(w: World, i: nat, ns: string, n: string, due: int)
    requires w.history != [] && Paid(w, ns, n, due) && i < |w.passes|
    ensures Paid(Apply(w, Crash(i)), ns, n, due)
  {
    OwedAfterChange(w.passes, i, Done(false), ns, n);
    assert Sound(w.passes[i], ns, n);
  }

  lemma StartPays(w: World, p: Process, ns: string, n: string, due: int)
    requires w.history != [] && Paid(w, ns, n, due) && (p.FetchDask? || p.FetchJob?)
    ensures Paid(w.(passes := w.passes + [p]), ns, n, due)
  {
  }

  lemma DeletePays(w: World, k: Key, ns: string, n: string, due: int)
    requires w.history != [] && Paid(w, ns, n, due)
    ensures Paid(Apply(w, Delete(k)), ns, n, due)
  {
    CountOne(w.log, Created(Child(JobRun, ns, n)), Deleted(k));
    CountOne(w.log, Created(Child(JobAccount, ns, n)), Deleted(k));
  }

  lemma QuietPays(w: World, s: Step, ns: string, n: string, due: int)
    requires w.history != [] && Paid(w, ns, n, due) && (s.Submit? || s.Edit?)
    ensures Paid(Apply(w, s), ns, n, due)
  {
    QuietStep(w, s);
  }

  lemma StepPays(w: World, s: Step, ns: string, n: string, due: int)
    requires w.history != [] && Paid(w, ns, n, due)
    ensures Paid(Apply(w, s), ns, n, due)
  {
    match s
    case Advance(i, a) =>
      if i < |w.passes| && Next(w.passes[i]).Some? {
        AdvancePays(w, i, Next(w.passes[i]).value, a, ns, n, due);
      }
    case Crash(i) => if i < |w.passes| { CrashPays(w, i, ns, n, due); }
    case StartDask(dns, dn) => StartPays(w, FetchDask(dns, dn), ns, n, due);
    case StartJob(jns, jn) => StartPays(w, FetchJob(jns, jn), ns, n, due);
    case Delete(k) => DeletePays(w, k, ns, n, due);
    case Submit(_, _) => QuietPays(w, s, ns, n, due);
    case Edit(_, _) => QuietPays(w, s, ns, n, due);
  }

  /** What has once been left behind stays left behind. */
  lemma {:induction false} RunPays(steps: seq<Step>, more: seq<Step>, ns: string, n: string, due: int)
    requires Paid(Run(steps), ns, n, due)
    ensures Paid(Run(steps + more), ns, n, due)
    decreases |more|
  {
    if more == [] {
      assert steps + more == steps;
    } else {
      var last := |more| - 1;
      RunPays(steps, more[..last], ns, n, due);
      assert (steps + more)[..|steps + more| - 1] == steps + more[..last];
      StepPays(Run(steps + more[..last]), more[last], ns, n, due);
    }
  }

  lemma AlwaysPaid(steps: seq<Step>, ns: string, n: string)
    ensures Paid(Run(steps), ns, n, 0)
  {
    assert Run([]) == EMPTY;
    RunPays([], steps, ns, n, 0);
    assert [] + steps == steps;
  }

  /** At most once: in every run, whatever is deleted, a DaskJob's Job is created no more often than
      its ServiceAccount, and that no more often than once plus the times it was deleted. */
  lemma JobsRunAtMostOncePerAccount(steps: seq<Step>, ns: string, n: string)
    ensures var log := Run(steps).log;
      && Count(log, Created(Child(JobRun, ns, n))) <= Count(log, Created(Child(JobAccount, ns, n)))
      && Count(log, Created(Child(JobAccount, ns, n))) <= 1 + Count(log, Deleted(Child(JobAccount, ns, n)))
  {
    AlwaysPaid(steps, ns, n);
    OwedIsNotNegative(Run(steps).passes, ns, n);
    CreationsBalance(steps, Child(JobAccount, ns, n));
  }

  // ---- A DaskJob left between its account and its Job ----

  /** The account is there, its Job has never been created, and no pass is on its way from the one
      to the other. */
  ghost predicate Stranded(w: World, ns: string, n: string)
    requires w.history != []
  {
    && Child(JobAccount, ns, n) in Now(w).objs
    && Count(w.log, Created(Child(JobRun, ns, n))) == 0
    && forall i :: 0 <= i < |w.passes| ==> Owed(w.passes[i], ns, n) == 0
  }

  lemma {:induction false} NothingOwed(ps: seq<Process>, ns: string, n: string)
    requires forall i :: 0 <= i < |ps| ==> Owed(ps[i], ns, n) == 0
    ensures OwedByAll(ps, ns, n) == 0
  {
    if ps == [] {
    } else {
      NothingOwed(ps[..|ps|-1], ns, n);
    }
  }

  /** A pass that stops between the ServiceAccount and the Job strands the DaskJob: while nobody
      deletes the account, no run of the operator, however long, ever creates its Job. */
  lemma StrandedJobsNeverRun(steps: seq<Step>, more: seq<Step>, ns: string, n: string)
    requires Stranded(Run(steps), ns, n)
    requires Count(Run(steps + more).log, Deleted(Child(JobAccount, ns, n))) == Count(Run(steps).log, Deleted(Child(JobAccount, ns, n)))
    ensures Count(Run(steps + more).log, Created(Child(JobRun, ns, n))) == 0
  {
    var account := Child(JobAccount, ns, n);
    var made := Count(Run(steps).log, Created(account));
    AlwaysPaid(steps, ns, n);
    NothingOwed(Run(steps).passes, ns, n);
    RunPays(steps, more, ns, n, made);
    OwedIsNotNegative(Run(steps + more).passes, ns, n);
    CreationsBalance(steps, account);
    CreationsBalance(steps + more, account);
  }
}
