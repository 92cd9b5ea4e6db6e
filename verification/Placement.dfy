/** Daemon mode: the anti-affinity rule the worker Deployment gets (models/worker.go), and what a
    scheduler that honours it makes of it. */
module Placement {

  /** One required anti-affinity term, as far as pods are kept apart by it. */
  datatype Expression = Expression(key: string, operator: string, values: seq<string>)
  datatype Term = Term(expressions: seq<Expression>, topologyKey: string)

  /** What a decoded JSON map may hold under a key. */
  datatype Value = Text(text: string) | Nested(m: JsonMap) | Terms(terms: seq<Term>)

  class JsonMap {
    var entries: map<string, Value>
    constructor ()
      ensures entries == map[]
    {
      entries := map[];
    }
  }

  const ANTI_AFFINITY := "podAntiAffinity"
  const REQUIRED := "requiredDuringSchedulingIgnoredDuringExecution"
  const INSTANCE := "app.kubernetes.io/instance"
  const HOSTNAME := "kubernetes.io/hostname"

  /** Keeps a pod away from nodes with any pod of that instance. */
  function DaemonTerm(name: string): Term {
    Term([Expression(INSTANCE, "In", [name])], HOSTNAME)
  }

  // ---- The rewrite ----

  /** The rules a pod anti-affinity map holds, if it is one. */
  predicate RulesWellFormed(m: JsonMap)
    reads m
  {
    REQUIRED in m.entries ==> m.entries[REQUIRED].Terms?
  }

  function RulesOf(affinity: JsonMap): set<JsonMap>
    reads affinity
  {
    if ANTI_AFFINITY in affinity.entries && affinity.entries[ANTI_AFFINITY].Nested? then {affinity.entries[ANTI_AFFINITY].m} else {}
  }

  /** The anti-affinity of an affinity, and the required rules in it, are what they should be where
      they are there at all. */
  predicate WellFormed(affinity: JsonMap)
    reads affinity, RulesOf(affinity)
  {
    ANTI_AFFINITY in affinity.entries ==>
      && affinity.entries[ANTI_AFFINITY].Nested?
      && affinity.entries[ANTI_AFFINITY].m != affinity
      && RulesWellFormed(affinity.entries[ANTI_AFFINITY].m)
  }

  function RequiredTerms(affinity: JsonMap): seq<Term>
    requires WellFormed(affinity)
    reads affinity, RulesOf(affinity)
  {
    if "podAntiAffinity" !in affinity.entries then []
    else
      var rules := affinity.entries["podAntiAffinity"].m.entries;
      if "requiredDuringSchedulingIgnoredDuringExecution" in rules
      then rules["requiredDuringSchedulingIgnoredDuringExecution"].terms else []
  }

  /** Everything a map holds but for one key. */
  function Without(m: map<string, Value>, key: string): map<string, Value> {
    m - {key}
  }

  /** The affinity the worker template is rendered with: exactly one term more, behind the required
      ones that were there; every other rule of the anti-affinity and every other key stay. */
  method AddDaemonRule(given: JsonMap?, name: string) returns (affinity: JsonMap)
    requires given != null ==> WellFormed(given)
    modifies if given == null then {} else {given} + RulesOf(given)
    ensures given == null ==> fresh(affinity)
    ensures given != null ==> affinity == given
    ensures WellFormed(affinity) && ANTI_AFFINITY in affinity.entries
    ensures RequiredTerms(affinity) == (if given == null then [] else old(RequiredTerms(given))) + [DaemonTerm(name)]
    ensures Without(affinity.entries, ANTI_AFFINITY) == if given == null then map[] else old(Without(given.entries, ANTI_AFFINITY))
    ensures var rules := affinity.entries[ANTI_AFFINITY].m;
      if given != null && old(ANTI_AFFINITY in given.entries)
      then rules == old(given.entries[ANTI_AFFINITY].m) && Without(rules.entries, REQUIRED) == old(Without(given.entries[ANTI_AFFINITY].m.entries, REQUIRED))
      else fresh(rules) && Without(rules.entries, REQUIRED) == map[]
  {
    if given == null {
      affinity := new JsonMap();
    } else {
      affinity := given;
    }
    if ANTI_AFFINITY !in affinity.entries {
      var empty := new JsonMap();
      affinity.entries := affinity.entries[ANTI_AFFINITY := Nested(empty)];
    }
    var rules := affinity.entries[ANTI_AFFINITY].m;
    if REQUIRED !in rules.entries {
      rules.entries := rules.entries[REQUIRED := Terms([])];
    }
    rules.entries := rules.entries[REQUIRED := Terms(rules.entries[REQUIRED].terms + [DaemonTerm(name)])];
  }

  // ---- Scheduling under the rule ----

  datatype Pod = Pod(ns: string, labels: map<string, string>, terms: seq<Term>)

  predicate Fulfils(e: Expression, labels: map<string, string>) {
    e.operator == "In" && e.key in labels && labels[e.key] in e.values
  }

  predicate Selects(t: Term, labels: map<string, string>) {
    forall i :: 0 <= i < |t.expressions| ==> Fulfils(t.expressions[i], labels)
  }

  /** The newcomer may not share a node with the other pod. */
  predicate Repels(newcomer: Pod, other: Pod) {
    newcomer.ns == other.ns
    && exists i :: 0 <= i < |newcomer.terms| && newcomer.terms[i].topologyKey == "kubernetes.io/hostname" && Selects(newcomer.terms[i], other.labels)
  }

  datatype Placed = Placed(pod: Pod, node: string)
  datatype Event = Place(id: nat, pod: Pod, node: string) | Remove(id: nat)

  type Running = map<nat, Placed>

  /** A placement honours the required anti-affinity of the pod that is placed. */
  predicate Honoured(running: Running, e: Event) {
    e.Place? ==> e.id !in running && forall id :: id in running && running[id].node == e.node ==> !Repels(e.pod, running[id].pod)
  }

  function After(running: Running, e: Event): Running {
    match e
    case Place(id, pod, node) => running[id := Placed(pod, node)]
    case Remove(id) => running - {id}
  }

  function RunningAfter(events: seq<Event>): Running {
    if events == [] then map[] else After(RunningAfter(events[..|events|-1]), events[|events|-1])
  }

  predicate AllHonoured(events: seq<Event>) {
    forall i :: 0 <= i < |events| ==> Honoured(RunningAfter(events[..i]), events[i])
  }

  predicate OfInstance(ns: string, name: string, p: Pod) {
    p.ns == ns && "app.kubernetes.io/instance" in p.labels && p.labels["app.kubernetes.io/instance"] == name
  }

  /** A worker of a cluster in daemon mode: it has the cluster's label, and the rule. */
  predicate DaemonWorker(ns: string, name: string, p: Pod) {
    OfInstance(ns, name, p) && DaemonTerm(name) in p.terms
  }

  lemma WorkersRepel(ns: string, name: string, p: Pod, q: Pod)
    requires DaemonWorker(ns, name, p) && OfInstance(ns, name, q)
    ensures Repels(p, q)
  {
  }

  ghost predicate OnePerNode(running: Running, ns: string, name: string) {
    forall a, b :: a in running && b in running && a != b
      && DaemonWorker(ns, name, running[a].pod) && DaemonWorker(ns, name, running[b].pod)
      ==> running[a].node != running[b].node
  }

  lemma StaysOnePerNode(before: Running, e: Event, ns: string, name: string)
    requires Honoured(before, e) && OnePerNode(before, ns, name)
    ensures OnePerNode(After(before, e), ns, name)
  {
    if e.Place? && DaemonWorker(ns, name, e.pod) {
      forall b | b in before && DaemonWorker(ns, name, before[b].pod) ensures before[b].node != e.node {
        WorkersRepel(ns, name, e.pod, before[b].pod);
      }
    }
  }

  /** Whatever is placed and removed in between, no node ever holds two workers of a cluster. */
  lemma {:induction false} OneWorkerPerNode(events: seq<Event>, ns: string, name: string)
    requires AllHonoured(events)
    ensures OnePerNode(RunningAfter(events), ns, name)
  {
    if events == [] {
    } else {
      var n := |events| - 1;
      var before, e := RunningAfter(events[..n]), events[n];
      assert forall i :: 0 <= i < n ==> events[..n][i] == events[i] && events[..n][..i] == events[..i];
      OneWorkerPerNode(events[..n], ns, name);
      assert Honoured(before, e);
      StaysOnePerNode(before, e, ns, name);
    }
  }

  function Workers(running: Running, ns: string, name: string): set<nat> {
    set id | id in running && DaemonWorker(ns, name, running[id].pod)
  }

  /** As many things as they have distinct places do not outnumber the places. */
  lemma {:induction false} NoMoreThanPlaces(running: Running, ids: set<nat>, nodes: set<string>)
    requires forall a :: a in ids ==> a in running && running[a].node in nodes
    requires forall a, b :: a in ids && b in ids && a != b ==> running[a].node != running[b].node
    ensures |ids| <= |nodes|
    decreases ids
  {
    if ids == {} {
    } else {
      var a :| a in ids;
      NoMoreThanPlaces(running, ids - {a}, nodes - {running[a].node});
      assert |ids - {a}| == |ids| - 1 && |nodes - {running[a].node}| == |nodes| - 1;
    }
  }

  /** A cluster in daemon mode never runs more workers than there are nodes. */
  lemma WorkersFitNodes(events: seq<Event>, ns: string, name: string, nodes: set<string>)
    requires AllHonoured(events)
    requires forall id :: id in RunningAfter(events) ==> RunningAfter(events)[id].node in nodes
    ensures |Workers(RunningAfter(events), ns, name)| <= |nodes|
  {
    OneWorkerPerNode(events, ns, name);
    NoMoreThanPlaces(RunningAfter(events), Workers(RunningAfter(events), ns, name), nodes);
  }
}
