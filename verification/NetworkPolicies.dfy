/** The NetworkPolicies one cluster is given (models/networkpolicy.go, models/jupyter.go,
    models/scheduler.go, models/worker.go), what a set of policies lets through, and which pods can
    therefore talk to which. All policies and pods live in one namespace. */
module NetworkPolicies {

  datatype App = WorkerApp | SchedulerApp | JupyterApp | JobApp | NginxApp
  datatype Manager = DaskController | DaskJobController

  /** The three labels every pod template of the operator carries. */
  datatype Pod = Pod(app: App, instance: string, manager: Manager)

  function WorkerPod(n: string): Pod { Pod(WorkerApp, n, DaskController) }
  function SchedulerPod(n: string): Pod { Pod(SchedulerApp, n, DaskController) }
  function JupyterPod(n: string): Pod { Pod(JupyterApp, n, DaskController) }
  function JobPod(n: string): Pod { Pod(JobApp, n, DaskJobController) }

  /** A label selector: every requirement must be met. The nginx ingress controller is known by labels of
      its own. */
  datatype Requirement = AppIs(app: App) | InstanceIs(instance: string) | ManagerIs(manager: Manager) | NginxIngress
  type Selector = seq<Requirement>

  predicate Meets(p: Pod, q: Requirement) {
    match q
    case AppIs(a) => p.app == a
    case InstanceIs(n) => p.instance == n
    case ManagerIs(m) => p.manager == m
    case NginxIngress => p.app == NginxApp
  }

  predicate Selects(s: Selector, p: Pod) {
    forall i :: 0 <= i < |s| ==> Meets(p, s[i])
  }

  datatype Protocol = TCP | UDP

  /** Where a connection arrives; a named port stands for the container port of that name. */
  datatype Port = Port(number: int, protocol: Protocol)
  datatype PortSpec = Number(number: int, protocol: Protocol) | Named(name: PortName, protocol: Protocol)
  datatype PortName = SchedulerPort | BokehPort

  const SCHEDULER_PORT := 8786
  const BOKEH_PORT := 8787
  const DNS_PORT := 53

  /** The named container ports of a pod (the worker calls its 8786 port "worker"). */
  predicate ExposesAs(p: Pod, name: PortName, number: int) {
    match name
    case SchedulerPort => p.app == SchedulerApp && number == SCHEDULER_PORT
    case BokehPort => (p.app == SchedulerApp || p.app == WorkerApp) && number == BOKEH_PORT
  }

  predicate PortMatches(s: PortSpec, target: Pod, port: Port) {
    s.protocol == port.protocol &&
    match s
    case Number(n, _) => n == port.number
    case Named(name, _) => ExposesAs(target, name, port.number)
  }

  /** A rule with no peers admits every peer, one with no ports every port. */
  datatype Rule = Rule(peers: seq<Selector>, ports: seq<PortSpec>)

  datatype Policy = Policy(selector: Selector, ingress: seq<Rule>, egress: seq<Rule>, limitsIngress: bool, limitsEgress: bool)

  predicate RuleAdmits(r: Rule, peer: Pod, target: Pod, port: Port) {
    && (r.peers == [] || exists i :: 0 <= i < |r.peers| && Selects(r.peers[i], peer))
    && (r.ports == [] || exists i :: 0 <= i < |r.ports| && PortMatches(r.ports[i], target, port))
  }

  predicate SomeRuleAdmits(rs: seq<Rule>, peer: Pod, target: Pod, port: Port) {
    exists i :: 0 <= i < |rs| && RuleAdmits(rs[i], peer, target, port)
  }

  /** A side that no policy isolates is open; an isolated one needs some policy's permission. */
  ghost predicate EgressAllowed(ps: set<Policy>, a: Pod, b: Pod, port: Port) {
    || (forall p :: p in ps ==> !(p.limitsEgress && Selects(p.selector, a)))
    || (exists p :: p in ps && p.limitsEgress && Selects(p.selector, a) && SomeRuleAdmits(p.egress, b, b, port))
  }

  ghost predicate IngressAllowed(ps: set<Policy>, a: Pod, b: Pod, port: Port) {
    || (forall p :: p in ps ==> !(p.limitsIngress && Selects(p.selector, b)))
    || (exists p :: p in ps && p.limitsIngress && Selects(p.selector, b) && SomeRuleAdmits(p.ingress, a, b, port))
  }

  ghost predicate Reaches(ps: set<Policy>, a: Pod, b: Pod, port: Port) {
    EgressAllowed(ps, a, b, port) && IngressAllowed(ps, a, b, port)
  }

  // ---- The four policies of a cluster ----

  function Labelled(a: App, n: string): Selector { [AppIs(a), InstanceIs(n)] }

  function DnsPolicy(n: string): Policy {
    Policy([ManagerIs(DaskController), InstanceIs(n)], [],
           [Rule([], [Number(DNS_PORT, UDP), Number(DNS_PORT, TCP)])], false, true)
  }

  function JupyterPolicy(n: string): Policy {
    Policy(Labelled(JupyterApp, n), [], [Rule([Labelled(SchedulerApp, n)], [])], false, true)
  }

  function SchedulerPolicy(n: string): Policy {
    Policy(Labelled(SchedulerApp, n),
           [Rule([Labelled(WorkerApp, n), Labelled(JupyterApp, n), [ManagerIs(DaskJobController), AppIs(JobApp)]],
                 [Named(SchedulerPort, TCP)]),
            Rule([[NginxIngress]], [Named(BokehPort, TCP)])],
           [Rule([Labelled(WorkerApp, n)], [])], true, true)
  }

  function WorkerPolicy(n: string): Policy {
    Policy(Labelled(WorkerApp, n),
           [Rule([Labelled(WorkerApp, n), Labelled(SchedulerApp, n)], [])],
           [Rule([Labelled(SchedulerApp, n), Labelled(WorkerApp, n)], [])], true, true)
  }

  /** All policies of the clusters named in ns. A cluster without Jupyter lacks its Jupyter policy,
      which selects no pod that cluster has. */
  ghost function PoliciesOf(clusters: set<string>, withJupyter: set<string>): set<Policy> {
    (set n | n in clusters :: DnsPolicy(n)) + (set n | n in clusters :: SchedulerPolicy(n)) +
    (set n | n in clusters :: WorkerPolicy(n)) + (set n | n in clusters * withJupyter :: JupyterPolicy(n))
  }

  /** The pods the operator runs for these clusters: the three roles, and any DaskJob's pod. */
  ghost predicate OperatorPod(p: Pod, clusters: set<string>, withJupyter: set<string>) {
    || (p == WorkerPod(p.instance) && p.instance in clusters)
    || (p == SchedulerPod(p.instance) && p.instance in clusters)
    || (p == JupyterPod(p.instance) && p.instance in clusters * withJupyter)
    || p == JobPod(p.instance)
  }

  // ---- Who can talk to whom ----

  /** The intended connectivity between the operator's pods. */
  predicate MayTalk(a: Pod, b: Pod, port: Port) {
    match b.app
    case WorkerApp => a.instance == b.instance && (a.app == WorkerApp || a.app == SchedulerApp)
    case SchedulerApp =>
      && port == Port(8786, TCP)
      && (a.app == JobApp || (a.instance == b.instance && (a.app == WorkerApp || a.app == JupyterApp)))
    case _ => a.app == JobApp || port.number == 53
  }

  /** What a pod may receive, from the operator's pods and from the ingress controller. */
  predicate MayReceive(a: Pod, b: Pod, port: Port) {
    match b.app
    case WorkerApp => a.instance == b.instance && (a.app == WorkerApp || a.app == SchedulerApp)
    case SchedulerApp =>
      || (port == Port(8786, TCP)
          && (a.app == JobApp || (a.instance == b.instance && (a.app == WorkerApp || a.app == JupyterApp))))
      || (port == Port(8787, TCP) && a.app == NginxApp)
    case _ => true
  }

  lemma SelectsLabelled(a: App, n: string, p: Pod)
    ensures Selects(Labelled(a, n), p) <==> p.app == a && p.instance == n
  {
    var s := Labelled(a, n);
    if Selects(s, p) {
      assert Meets(p, s[0]) && Meets(p, s[1]);
    }
  }

  lemma SelectsByDns(n: string, p: Pod)
    ensures Selects(DnsPolicy(n).selector, p) <==> p.manager == DaskController && p.instance == n
  {
    var s := DnsPolicy(n).selector;
    if Selects(s, p) {
      assert Meets(p, s[0]) && Meets(p, s[1]);
    }
  }

  /** The policies that bear on a pod are those of its own cluster. */
  lemma OwnPoliciesOnly(clusters: set<string>, withJupyter: set<string>, p: Policy, a: Pod)
    requires OperatorPod(a, clusters, withJupyter)
    requires p in PoliciesOf(clusters, withJupyter) && Selects(p.selector, a)
    ensures a.app != JobApp
    ensures p == DnsPolicy(a.instance)
         || (a.app == WorkerApp && p == WorkerPolicy(a.instance))
         || (a.app == SchedulerApp && p == SchedulerPolicy(a.instance))
         || (a.app == JupyterApp && p == JupyterPolicy(a.instance))
  {
    if n :| n in clusters && p == DnsPolicy(n) {
      SelectsByDns(n, a);
    } else if n :| n in clusters && p == SchedulerPolicy(n) {
      SelectsLabelled(SchedulerApp, n, a);
    } else if n :| n in clusters && p == WorkerPolicy(n) {
      SelectsLabelled(WorkerApp, n, a);
    } else {
      var n :| n in clusters * withJupyter && p == JupyterPolicy(n);
      SelectsLabelled(JupyterApp, n, a);
    }
  }

  // What the rules of one policy admit.

  lemma DnsEgress(n: string, b: Pod, port: Port)
    ensures SomeRuleAdmits(DnsPolicy(n).egress, b, b, port) <==> port.number == DNS_PORT
  {
    var r := DnsPolicy(n).egress[0];
    match port.protocol
    case UDP => assert PortMatches(r.ports[0], b, port) <==> port.number == DNS_PORT;
    case TCP => assert PortMatches(r.ports[1], b, port) <==> port.number == DNS_PORT;
  }

  lemma PeersAdmit(a1: App, a2: App, n: string, peer: Pod, target: Pod, port: Port)
    ensures SomeRuleAdmits([Rule([Labelled(a1, n), Labelled(a2, n)], [])], peer, target, port)
       <==> peer.instance == n && (peer.app == a1 || peer.app == a2)
  {
    var r := Rule([Labelled(a1, n), Labelled(a2, n)], []);
    SelectsLabelled(a1, n, peer);
    SelectsLabelled(a2, n, peer);
    assert Selects(r.peers[0], peer) || Selects(r.peers[1], peer) ==> RuleAdmits([r][0], peer, target, port);
  }

  lemma PeerAdmits(a1: App, n: string, peer: Pod, target: Pod, port: Port)
    ensures SomeRuleAdmits([Rule([Labelled(a1, n)], [])], peer, target, port)
       <==> peer.instance == n && peer.app == a1
  {
    var r := Rule([Labelled(a1, n)], []);
    SelectsLabelled(a1, n, peer);
    assert Selects(r.peers[0], peer) ==> RuleAdmits([r][0], peer, target, port);
  }

  lemma FromNginx(a: Pod, b: Pod, port: Port)
    requires b.app == SchedulerApp
    ensures RuleAdmits(Rule([[NginxIngress]], [Named(BokehPort, TCP)]), a, b, port)
       <==> a.app == NginxApp && port == Port(BOKEH_PORT, TCP)
  {
    var r := Rule([[NginxIngress]], [Named(BokehPort, TCP)]);
    assert Selects(r.peers[0], a) <==> a.app == NginxApp by {
      if Selects(r.peers[0], a) {
        assert Meets(a, r.peers[0][0]);
      }
    }
    assert PortMatches(r.ports[0], b, port) <==> port == Port(BOKEH_PORT, TCP);
  }

  lemma SchedulerIngress(n: string, a: Pod, b: Pod, port: Port)
    requires b == SchedulerPod(n) && (a.app == JobApp ==> a.manager == DaskJobController)
    ensures SomeRuleAdmits(SchedulerPolicy(n).ingress, a, b, port) <==> MayReceive(a, b, port)
  {
    var rs := SchedulerPolicy(n).ingress;
    var peers := rs[0].peers;
    SelectsLabelled(WorkerApp, n, a);
    SelectsLabelled(JupyterApp, n, a);
    assert Selects(peers[2], a) <==> a.app == JobApp by {
      assert peers[2] == [ManagerIs(DaskJobController), AppIs(JobApp)];
      if Selects(peers[2], a) {
        assert Meets(a, peers[2][1]);
      }
    }
    assert RuleAdmits(rs[1], a, b, port) <==> a.app == NginxApp && port == Port(BOKEH_PORT, TCP) by {
      FromNginx(a, b, port);
    }
    assert PortMatches(rs[0].ports[0], b, port) <==> port == Port(SCHEDULER_PORT, TCP);
    assert Selects(peers[0], a) || Selects(peers[1], a) || Selects(peers[2], a) ==>
      PortMatches(rs[0].ports[0], b, port) ==> RuleAdmits(rs[0], a, b, port);
  }

  predicate MaySend(a: Pod, b: Pod, port: Port) {
    || a.app == JobApp
    || port.number == 53
    || (a.instance == b.instance && a.app == WorkerApp && (b.app == SchedulerApp || b.app == WorkerApp))
    || (a.instance == b.instance && a.app == SchedulerApp && b.app == WorkerApp)
    || (a.instance == b.instance && a.app == JupyterApp && b.app == SchedulerApp)
  }

  lemma EgressExact(clusters: set<string>, withJupyter: set<string>, a: Pod, b: Pod, port: Port)
    requires OperatorPod(a, clusters, withJupyter)
    ensures EgressAllowed(PoliciesOf(clusters, withJupyter), a, b, port) <==> MaySend(a, b, port)
  {
    var ps, n := PoliciesOf(clusters, withJupyter), a.instance;
    DnsEgress(n, b, port);
    PeersAdmit(SchedulerApp, WorkerApp, n, b, b, port);
    PeerAdmits(WorkerApp, n, b, b, port);
    PeerAdmits(SchedulerApp, n, b, b, port);
    forall p | p in ps && Selects(p.selector, a)
      ensures a.app != JobApp && (SomeRuleAdmits(p.egress, b, b, port) ==> MaySend(a, b, port))
    {
      OwnPoliciesOnly(clusters, withJupyter, p, a);
    }
    if a.app != JobApp {
      SelectsByDns(n, a);
      SelectsLabelled(a.app, n, a);
      assert DnsPolicy(n) in ps;
      assert a.app == WorkerApp ==> WorkerPolicy(n) in ps;
      assert a.app == SchedulerApp ==> SchedulerPolicy(n) in ps;
      assert a.app == JupyterApp ==> JupyterPolicy(n) in ps;
    }
  }

  /** What the policies let a pod receive, from the operator's pods and from the ingress controller. */
  lemma IngressExact(clusters: set<string>, withJupyter: set<string>, a: Pod, b: Pod, port: Port)
    requires OperatorPod(a, clusters, withJupyter) || a.app == NginxApp
    requires OperatorPod(b, clusters, withJupyter)
    ensures IngressAllowed(PoliciesOf(clusters, withJupyter), a, b, port) <==> MayReceive(a, b, port)
  {
    var ps, n := PoliciesOf(clusters, withJupyter), b.instance;
    PeersAdmit(WorkerApp, SchedulerApp, n, a, b, port);
    if b.app == SchedulerApp {
      SchedulerIngress(n, a, b, port);
    }
    forall p | p in ps && Selects(p.selector, b) && p.limitsIngress
      ensures (b.app == WorkerApp || b.app == SchedulerApp) && (SomeRuleAdmits(p.ingress, a, b, port) ==> MayReceive(a, b, port))
    {
      OwnPoliciesOnly(clusters, withJupyter, p, b);
    }
    SelectsLabelled(b.app, n, b);
    assert b.app == WorkerApp ==> WorkerPolicy(n) in ps && WorkerPolicy(n).limitsIngress;
    assert b.app == SchedulerApp ==> SchedulerPolicy(n) in ps && SchedulerPolicy(n).limitsIngress;
  }

  /** The policies of all clusters together let through exactly the intended connections. */
  lemma ConnectivityExact(clusters: set<string>, withJupyter: set<string>, a: Pod, b: Pod, port: Port)
    requires OperatorPod(a, clusters, withJupyter) && OperatorPod(b, clusters, withJupyter)
    ensures Reaches(PoliciesOf(clusters, withJupyter), a, b, port) <==> MayTalk(a, b, port)
  {
    EgressExact(clusters, withJupyter, a, b, port);
    IngressExact(clusters, withJupyter, a, b, port);
  }

  /** Bringing up further clusters changes nothing between the pods that are there. */
  lemma OtherClustersDoNotMatter(clusters: set<string>, withJupyter: set<string>, more: set<string>, moreJupyter: set<string>,
                                 a: Pod, b: Pod, port: Port)
    requires OperatorPod(a, clusters, withJupyter) && OperatorPod(b, clusters, withJupyter)
    ensures Reaches(PoliciesOf(clusters, withJupyter), a, b, port)
       <==> Reaches(PoliciesOf(clusters + more, withJupyter + moreJupyter), a, b, port)
  {
    ConnectivityExact(clusters, withJupyter, a, b, port);
    ConnectivityExact(clusters + more, withJupyter + moreJupyter, a, b, port);
  }
}
