/** The service through which clients reach etcd, and the owner reference on everything the operator creates
    (pkg/controller/etcdcluster/service/service.go, pkg/controller/controller_utils.go,
    pkg/controller/etcdcluster/service/loadbalancer). */
module AccessService {
  import opened Text
  import opened Cluster
  import opened NodeArgs
  import opened Protocol
  import opened ScalingTheorems

  datatype IntOrString = FromInt(n: int) | FromString(s: string)

  /** rest: the fields the operator never touches. */
  datatype ServicePort = ServicePort(name: string, port: int, protocol: string, targetPort: IntOrString, rest: string)

  datatype OwnerReference = OwnerReference(apiVersion: string, kind: string, name: string, uid: string,
                                           controller: bool, block: bool)

  /** A Go map that may be nil. */
  type Dictionary = Option<map<string, string>>

  datatype Svc = Svc(labels: Dictionary, selector: Dictionary, ports: seq<ServicePort>, kind: string,
                     annotations: Dictionary, owners: seq<OwnerReference>, rest: string)

  const CLIENT_PORT_NAME := "client"
  const TCP := "TCP"
  const CLUSTER_IP := "ClusterIP"
  const LOAD_BALANCER := "LoadBalancer"
  const PROVIDER_ANNOTATION := "etcdcluster.etcd.tkestack.io/loadbalancer-provider-name"
  const SUBNET_ANNOTATION := "service.kubernetes.io/qcloud-loadbalancer-internal-subnetid"
  const GROUP_VERSION := "etcd.tkestack.io/v1alpha1"
  const ETCD_KIND := "EtcdCluster"

  // ----- labels, selector, ports -----

  function Entry(d: Dictionary, key: string): Option<string> {
    if d.Some? && key in d.value then Some(d.value[key]) else None
  }

  function WithEntry(d: Dictionary, key: string, value: string): Dictionary {
    Some((if d.Some? then d.value else map[])[key := value])
  }

  function WithoutEntry(d: Dictionary, key: string): Dictionary {
    if d.Some? then Some(d.value - {key}) else None
  }

  function WithSelector(e: EtcdCluster, d: Dictionary): Dictionary {
    WithEntry(WithEntry(d, CLUSTER_LABEL, e.name), VOTING_LABEL, "true")
  }

  function ClientServicePort(e: EtcdCluster): ServicePort {
    ServicePort(CLIENT_PORT_NAME, ClientPort(e), TCP, FromInt(ClientPort(e)), "")
  }

  /** The last port of the given name. */
  function PortIndex(ports: seq<ServicePort>, name: string): (r: Option<nat>)
    ensures r.Some? ==> r.value < |ports| && ports[r.value].name == name
    ensures forall k :: 0 <= k < |ports| && ports[k].name == name ==> r.Some? && k <= r.value
  {
    if ports == [] then None
    else if ports[|ports| - 1].name == name then Some(|ports| - 1)
    else
      var before := ports[..|ports| - 1];
      assert forall k :: 0 <= k < |before| ==> before[k] == ports[k];
      PortIndex(before, name)
  }

  function WithClientPort(e: EtcdCluster, ports: seq<ServicePort>): seq<ServicePort> {
    var p := ClientServicePort(e);
    match PortIndex(ports, p.name)
    case None => ports + [p]
    case Some(k) => ports[k := ports[k].(port := p.port, protocol := p.protocol, targetPort := p.targetPort)]
  }

  // ----- load balancer providers -----

  datatype Provider = NoBalancer | Tke

  /** The registry holds the two providers of this repository. */
  function GetLoadBalancerProvider(name: string): Option<Provider> {
    if name == "" then Some(NoBalancer) else if name == "tke" then Some(Tke) else None
  }

  function ProviderOf(e: EtcdCluster): Option<Provider> {
    GetLoadBalancerProvider(if PROVIDER_ANNOTATION in e.annotations then e.annotations[PROVIDER_ANNOTATION] else "")
  }

  predicate NeedUpdate(p: Provider, annotations: map<string, string>, s: Svc) {
    match p
    case NoBalancer => s.kind != CLUSTER_IP
    case Tke =>
      if s.kind != LOAD_BALANCER then true
      else if SUBNET_ANNOTATION in annotations
          then Entry(s.annotations, SUBNET_ANNOTATION) != Some(annotations[SUBNET_ANNOTATION])
      else Entry(s.annotations, SUBNET_ANNOTATION).Some? && Entry(s.annotations, SUBNET_ANNOTATION).value != ""
  }

  function KindFor(p: Provider): string {
    if p == Tke then LOAD_BALANCER else CLUSTER_IP
  }

  function AnnotationsFor(p: Provider, annotations: map<string, string>, d: Dictionary): Dictionary {
    match p
    case NoBalancer => d
    case Tke =>
      if SUBNET_ANNOTATION in annotations then WithEntry(d, SUBNET_ANNOTATION, annotations[SUBNET_ANNOTATION])
      else WithoutEntry(d, SUBNET_ANNOTATION)
  }

  function AppliedTo(p: Provider, annotations: map<string, string>, s: Svc): Svc {
    s.(kind := KindFor(p), annotations := AnnotationsFor(p, annotations, s.annotations))
  }

  /** After a provider has been applied it asks for no update; it asks for one exactly when applying it would change the
      service, except that it tolerates an empty subnet annotation that applying would remove. */
  lemma NeedUpdateExact(p: Provider, annotations: map<string, string>, s: Svc)
    ensures !NeedUpdate(p, annotations, AppliedTo(p, annotations, s))
    ensures NeedUpdate(p, annotations, s) ==> AppliedTo(p, annotations, s) != s
    ensures !NeedUpdate(p, annotations, s) ==>
              (AppliedTo(p, annotations, s) == s
               <==> || p == NoBalancer || SUBNET_ANNOTATION in annotations
                    || Entry(s.annotations, SUBNET_ANNOTATION) != Some(""))
  {
    var t := AppliedTo(p, annotations, s);
    if p == Tke && SUBNET_ANNOTATION in annotations {
      assert Entry(t.annotations, SUBNET_ANNOTATION) == Some(annotations[SUBNET_ANNOTATION]);
      if !NeedUpdate(p, annotations, s) {
        assert t.annotations.value == s.annotations.value;
      }
    } else if p == Tke && s.annotations.Some? {
      assert SUBNET_ANNOTATION !in s.annotations.value ==>
          s.annotations.value - {SUBNET_ANNOTATION} == s.annotations.value;
      assert SUBNET_ANNOTATION in s.annotations.value ==> SUBNET_ANNOTATION !in t.annotations.value;
    }
  }

  // ----- the owner reference -----

  function Reference(e: EtcdCluster): OwnerReference {
    OwnerReference(GROUP_VERSION, ETCD_KIND, e.name, e.uid, true, true)
  }

  predicate RefersTo(r: OwnerReference, e: EtcdCluster) {
    r.name == e.name && r.apiVersion == GROUP_VERSION && r.kind == ETCD_KIND
  }

  /** Replaces the first reference to e, or adds one. */
  function WithOwner(e: EtcdCluster, owners: seq<OwnerReference>): seq<OwnerReference> {
    if owners == [] then [Reference(e)]
    else if RefersTo(owners[0], e) then [Reference(e)] + owners[1..]
    else [owners[0]] + WithOwner(e, owners[1..])
  }

  /** Owner references to others, and ports of other names. */
  function OtherOwners(e: EtcdCluster, owners: seq<OwnerReference>): seq<OwnerReference> {
    if owners == [] then [] else (if RefersTo(owners[0], e) then [] else [owners[0]]) + OtherOwners(e, owners[1..])
  }

  function OtherPorts(ports: seq<ServicePort>): seq<ServicePort> {
    if ports == [] then []
    else OtherPorts(ports[..|ports| - 1]) + (if ports[|ports| - 1].name == CLIENT_PORT_NAME then []
        else [ports[|ports| - 1]])
  }

  lemma {:induction false} OwnersKept(e: EtcdCluster, owners: seq<OwnerReference>)
    ensures WithOwner(e, WithOwner(e, owners)) == WithOwner(e, owners)
    ensures OtherOwners(e, WithOwner(e, owners)) == OtherOwners(e, owners)
    ensures Reference(e) in WithOwner(e, owners)
    ensures |WithOwner(e, owners)| == |owners| + if exists r :: r in owners && RefersTo(r, e) then 0 else 1
  {
    var w := WithOwner(e, owners);
    if owners != [] {
      assert w[1..] == if RefersTo(owners[0], e) then owners[1..] else WithOwner(e, owners[1..]);
      if RefersTo(owners[0], e) {
        assert owners[0] in owners;
      } else {
        OwnersKept(e, owners[1..]);
        assert forall r :: r in owners <==> r == owners[0] || r in owners[1..];
      }
    }
  }

  lemma {:induction false} PortsKept(e: EtcdCluster, ports: seq<ServicePort>)
    ensures var w := WithClientPort(e, ports);
            && WithClientPort(e, w) == w
            && OtherPorts(w) == OtherPorts(ports)
            && PortIndex(w, CLIENT_PORT_NAME).Some?
            && w[PortIndex(w, CLIENT_PORT_NAME).value].port == ClientPort(e)
            && w[PortIndex(w, CLIENT_PORT_NAME).value].targetPort == FromInt(ClientPort(e))
            && w[PortIndex(w, CLIENT_PORT_NAME).value].protocol == "TCP"
  {
    var w, k := WithClientPort(e, ports), PortIndex(ports, CLIENT_PORT_NAME);
    if k.None? {
      assert w[..|w| - 1] == ports;
      assert PortIndex(w, CLIENT_PORT_NAME) == Some(|ports|);
    } else {
      SameNamesSameIndex(ports, w, CLIENT_PORT_NAME);
      OtherPortsUpdated(ports, k.value, w[k.value]);
    }
  }

  /** An existing client port keeps its place and everything but its numbers and protocol; a new one goes to the end. */
  lemma {:induction false} OnlyClientPortChanges(e: EtcdCluster, ports: seq<ServicePort>, port: int)
    requires PortOf(e, port)
    ensures var w := WithClientPort(e, ports);
            if exists i :: 0 <= i < |ports| && ports[i].name == "client"
            then exists k :: 0 <= k < |ports| && ports[k].name == "client"
                   && (forall i :: k < i < |ports| ==> ports[i].name != "client")
                   && w == ports[k := ServicePort("client", port, "TCP", FromInt(port), ports[k].rest)]
            else w == ports + [ServicePort("client", port, "TCP", FromInt(port), "")]
  {
    assert ClientPort(e) == port;
    var r := PortIndex(ports, "client");
    if r.Some? {
      assert ports[r.value].name == "client" && forall i :: r.value < i < |ports| ==> ports[i].name != "client";
    }
  }

  lemma {:induction false} SameNamesSameIndex(a: seq<ServicePort>, b: seq<ServicePort>, name: string)
    requires |a| == |b| && forall i :: 0 <= i < |a| ==> a[i].name == b[i].name
    ensures PortIndex(a, name) == PortIndex(b, name)
  {
    if a != [] {
      SameNamesSameIndex(a[..|a| - 1], b[..|b| - 1], name);
    }
  }

  lemma {:induction false} OtherPortsUpdated(ports: seq<ServicePort>, k: nat, p: ServicePort)
    requires k < |ports| && ports[k].name == p.name == CLIENT_PORT_NAME
    ensures OtherPorts(ports[k := p]) == OtherPorts(ports)
  {
    var m, w := |ports| - 1, ports[k := p];
    if k == m {
      assert w[..m] == ports[..m];
    } else {
      assert w[..m] == ports[..m][k := p];
      OtherPortsUpdated(ports[..m], k, p);
    }
  }

  // ----- the whole service -----

  function Applied(e: EtcdCluster, s: Svc): Option<Svc> {
    match ProviderOf(e)
    case None => None
    case Some(p) =>
      var shaped := s.(labels := WithEntry(s.labels, CLUSTER_LABEL, e.name),
                       selector := WithSelector(e, s.selector),
                       ports := WithClientPort(e, s.ports));
      var balanced := AppliedTo(p, e.annotations, shaped);
      Some(balanced.(owners := WithOwner(e, balanced.owners)))
  }

  /** Applying twice is applying once, so the comparison in ensureService sends no second update; and afterwards the
      provider asks for none. */
  lemma {:induction false} ApplySettles(e: EtcdCluster, s: Svc)
    ensures Applied(e, s).Some? <==> ProviderOf(e).Some?
    ensures Applied(e, s).Some? ==>
              var t := Applied(e, s).value;
              Applied(e, t) == Some(t) && !NeedUpdate(ProviderOf(e).value, e.annotations, t)
  {
    hide WithClientPort, WithOwner, ProviderOf, WithEntry, WithSelector, NeedUpdate, AnnotationsFor, KindFor,
      PortIndex, OtherPorts, OtherOwners;
    if ProviderOf(e).Some? {
      var p, t := ProviderOf(e).value, Applied(e, s).value;
      assert WithClientPort(e, t.ports) == t.ports by { PortsKept(e, s.ports); }
      assert WithOwner(e, t.owners) == t.owners by { OwnersKept(e, s.owners); }
      EntryAgain(s.labels, CLUSTER_LABEL, e.name);
      SelectorAgain(e, s.selector);
      AnnotationsAgain(p, e.annotations, s.annotations);
      NeedUpdateExact(p, e.annotations, s);
      NeedUpdateLooksAt(p, e.annotations, AppliedTo(p, e.annotations, s), t);
    }
  }

  lemma NeedUpdateLooksAt(p: Provider, annotations: map<string, string>, s: Svc, t: Svc)
    requires s.kind == t.kind && s.annotations == t.annotations
    ensures NeedUpdate(p, annotations, s) == NeedUpdate(p, annotations, t)
  {
  }

  /** Ports of other names, references to other owners, and every other field are kept, in order. */
  lemma {:induction false} ApplyKeepsTheRest(e: EtcdCluster, s: Svc)
    requires ProviderOf(e).Some?
    ensures var t := Applied(e, s).value;
            && OtherPorts(t.ports) == OtherPorts(s.ports)
            && OtherOwners(e, t.owners) == OtherOwners(e, s.owners)
            && Reference(e) in t.owners
            && t.rest == s.rest && t.kind == KindFor(ProviderOf(e).value)
            && Entry(t.labels, CLUSTER_LABEL) == Entry(t.selector, CLUSTER_LABEL) == Some(e.name)
            && Entry(t.selector, VOTING_LABEL) == Some("true")
            && (forall key :: key != CLUSTER_LABEL ==> Entry(t.labels, key) == Entry(s.labels, key))
            && (forall key :: key != CLUSTER_LABEL && key != VOTING_LABEL ==>
                Entry(t.selector, key) == Entry(s.selector, key))
            && (forall key :: key != SUBNET_ANNOTATION ==> Entry(t.annotations, key) == Entry(s.annotations, key))
  {
    PortsKept(e, s.ports);
    OwnersKept(e, s.owners);
    hide WithClientPort, WithOwner, OtherPorts, OtherOwners, ProviderOf, Reference;
  }

  lemma EntryAgain(d: Dictionary, key: string, value: string)
    ensures WithEntry(WithEntry(d, key, value), key, value) == WithEntry(d, key, value)
  {
    assert WithEntry(WithEntry(d, key, value), key, value).value == WithEntry(d, key, value).value;
  }

  lemma SelectorAgain(e: EtcdCluster, d: Dictionary)
    ensures WithSelector(e, WithSelector(e, d)) == WithSelector(e, d)
  {
    assert WithSelector(e, WithSelector(e, d)).value == WithSelector(e, d).value;
  }

  lemma AnnotationsAgain(p: Provider, annotations: map<string, string>, d: Dictionary)
    ensures AnnotationsFor(p, annotations, AnnotationsFor(p, annotations, d)) == AnnotationsFor(p, annotations, d)
  {
    if p == Tke && SUBNET_ANNOTATION in annotations {
      EntryAgain(d, SUBNET_ANNOTATION, annotations[SUBNET_ANNOTATION]);
    } else if p == Tke && d.Some? {
      assert d.value - {SUBNET_ANNOTATION} - {SUBNET_ANNOTATION} == d.value - {SUBNET_ANNOTATION};
    }
  }

  /** The port the service forwards to is the one that every node listens on, and the advertised URL uses the
      service's port. */
  lemma {:induction false} PortsAgree(e: EtcdCluster, s: Svc, appName: string, i: nat)
    requires ProviderOf(e).Some?
    ensures var t, m := Applied(e, s).value, ArgsOfNode(e, appName, i);
            && "listen-client-urls" in m && "advertise-client-urls" in m
            && exists k :: 0 <= k < |t.ports| && t.ports[k].name == CLIENT_PORT_NAME && t.ports[k].targetPort.FromInt?
                 && m["listen-client-urls"] == Scheme(IsClientSecure(e)) + "://0.0.0.0:"
                     + PrintInt(t.ports[k].targetPort.n)
                 && m["advertise-client-urls"] == Scheme(IsClientSecure(e)) + "://" + NameForAccessService(e)
                     + "." + e.ns + ".svc."
                                                  + ClusterDomain(e) + ":" + PrintInt(t.ports[k].port)
  {
    PortsKept(e, s.ports);
    ClientUrls(e, appName, i);
    hide ArgsOfNode, WithClientPort, WithOwner, OtherPorts, ProviderOf, Scheme, IsClientSecure,
      NameForAccessService, ClusterDomain, PrintInt, ClientPort;
    var t := Applied(e, s).value;
    assert t.ports == WithClientPort(e, s.ports);
    var k := PortIndex(t.ports, CLIENT_PORT_NAME).value;
    assert t.ports[k].name == CLIENT_PORT_NAME;
  }

  lemma {:induction false} ClientUrls(e: EtcdCluster, appName: string, i: nat)
    ensures var m := ArgsOfNode(e, appName, i);
            && "listen-client-urls" in m && m["listen-client-urls"] == Scheme(IsClientSecure(e)) + "://0.0.0.0:"
                + PrintInt(ClientPort(e))
            && "advertise-client-urls" in m && m["advertise-client-urls"] == AccessURL(e)
  {
    hide MemberName, AccessURL, AdvertisedPeerURL, InitialCluster, Scheme, PrintInt, Decimal, WithClientTls,
      IsPeerSecure, IsClientSecure;
  }

  /** The pods a service sends clients to. */
  predicate Selects(s: Svc, podLabels: map<string, string>) {
    s.selector.Some? && forall key :: key in s.selector.value ==>
        key in podLabels && podLabels[key] == s.selector.value[key]
  }

  /** What NewEtcdAccessService starts from. */
  const NEW_SERVICE := Svc(None, None, [], "", None, [], "")

  /** Whatever else its selector says, the service reaches only voting templates of this cluster; a service the operator
      created reaches all of them. */
  lemma ServesVoters(e: EtcdCluster, s: Svc, app: TApp, i: nat)
    requires ProviderOf(e).Some? && Decimal(i) in app.pool
    ensures Selects(Applied(e, s).value, app.pool[Decimal(i)].labels) ==> HasVote(app, i)
    ensures Selects(Applied(e, NEW_SERVICE).value, app.pool[Decimal(i)].labels)
            <==> && HasVote(app, i) && CLUSTER_LABEL in app.pool[Decimal(i)].labels
                 && app.pool[Decimal(i)].labels[CLUSTER_LABEL] == e.name
  {
    hide WithClientPort, WithOwner, ProviderOf;
    var t, created := Applied(e, s).value, Applied(e, NEW_SERVICE).value;
    assert t.selector.value[VOTING_LABEL] == "true";
    assert created.selector.value == map[CLUSTER_LABEL := e.name, VOTING_LABEL := "true"];
  }

  /** In every run of the scaling protocol the access service never reaches the template of a member that etcd counts as
      a learner. */
  lemma {:induction false} LearnersUnreachable(s: State, acts: seq<Action>, svc: Svc, m: Member, i: nat)
    requires Init(s) && Runs(s, acts)
    requires var t := Exec(s, acts);
             && t.versions != [] && m in t.members && m.isLearner && m.peerURLs == [PeerNodeURL(t.spec, i)]
             && i < Committed(t) && Decimal(i) in Current(t).pool && ProviderOf(t.spec).Some?
    ensures var t := Exec(s, acts);
            !Selects(Applied(t.spec, svc).value, Current(t).pool[Decimal(i)].labels)
  {
    hide Init, Runs, Exec, Selects, Applied, HasVote, ProviderOf, PeerNodeURL;
    var t := Exec(s, acts);
    ServesVoters(t.spec, svc, Current(t), i);
    if HasVote(Current(t), i) {
      LearnersNotServed(s, acts, m, i);
    }
  }

  // ----- from the object alone -----

  /** The provider that the annotations name: none if they say nothing. */
  predicate ProviderNamed(e: EtcdCluster, name: string) {
    if PROVIDER_ANNOTATION in e.annotations then name == e.annotations[PROVIDER_ANNOTATION] else name == ""
  }

  /** Without a provider, or with an empty name, the service is internal and keeps its annotations; with "tke" it is a
      load balancer in the subnet that the object names, if it names one; any other name is an error. */
  lemma {:induction false} KindByAnnotation(e: EtcdCluster, s: Svc, name: string)
    requires ProviderNamed(e, name)
    ensures Applied(e, s).Some? <==> name == "" || name == "tke"
    ensures Applied(e, s).Some? ==>
              var t := Applied(e, s).value;
              && (t.kind == "ClusterIP" <==> name == "")
              && (t.kind == "LoadBalancer" <==> name == "tke")
              && (name == "" ==> t.annotations == s.annotations)
              && (name == "tke" ==>
                    && (SUBNET_ANNOTATION in e.annotations ==>
                          Entry(t.annotations, SUBNET_ANNOTATION) == Some(e.annotations[SUBNET_ANNOTATION]))
                    && (SUBNET_ANNOTATION !in e.annotations ==> Entry(t.annotations, SUBNET_ANNOTATION) == None))
  {
    hide WithClientPort, WithOwner, WithSelector;
    assert "tke"[0] == 't' && CLUSTER_IP[0] != LOAD_BALANCER[0];
  }

  /** The service that the operator makes, in full. */
  lemma {:induction false} CreatedService(e: EtcdCluster, port: int)
    requires PortOf(e, port) && Applied(e, NEW_SERVICE).Some?
    ensures var t := Applied(e, NEW_SERVICE).value;
            && t.labels == Some(map[CLUSTER_LABEL := e.name])
            && t.selector == Some(map[CLUSTER_LABEL := e.name, VOTING_LABEL := "true"])
            && t.ports == [ServicePort("client", port, "TCP", FromInt(port), "")]
            && t.owners == [OwnerReference("etcd.tkestack.io/v1alpha1", "EtcdCluster", e.name, e.uid, true, true)]
  {
    hide ProviderOf, AnnotationsFor, KindFor;
    assert ClientPort(e) == port;
  }

  /** On a service that exists, the port named client is set to the spec's, and the object is one of its owners, as the
      controller that blocks its deletion. */
  lemma {:induction false} UpdatedService(e: EtcdCluster, s: Svc, port: int)
    requires PortOf(e, port) && Applied(e, s).Some?
    ensures var t := Applied(e, s).value;
            && (exists k :: 0 <= k < |t.ports| && t.ports[k].name == "client" && t.ports[k].port == port
                  && t.ports[k].protocol == "TCP" && t.ports[k].targetPort == FromInt(port))
            && OwnerReference("etcd.tkestack.io/v1alpha1", "EtcdCluster", e.name, e.uid, true, true) in t.owners
  {
    PortsKept(e, s.ports);
    OwnersKept(e, s.owners);
    hide ProviderOf, WithOwner, WithClientPort, OtherPorts, OtherOwners, AnnotationsFor, KindFor, WithSelector;
    var t := Applied(e, s).value;
    assert ClientPort(e) == port && t.ports == WithClientPort(e, s.ports) && t.owners == WithOwner(e, s.owners);
    var k := PortIndex(t.ports, CLIENT_PORT_NAME).value;
    assert t.ports[k].name == "client";
  }

  // ----- the code -----

  class Service {
    var labels: Dictionary
    var selector: Dictionary
    var ports: seq<ServicePort>
    var kind: string
    var annotations: Dictionary
    var owners: seq<OwnerReference>
    var rest: string

    function Value(): Svc
      reads this
    {
      Svc(labels, selector, ports, kind, annotations, owners, rest)
    }

    constructor DeepCopy(s: Svc)
      ensures Value() == s
    {
      labels, selector, ports, kind, annotations, owners, rest :=
        s.labels, s.selector, s.ports, s.kind, s.annotations, s.owners, s.rest;
    }

    /** service.go, lines 82-133; with an unknown provider it stops half-way. */
    method ApplyAccessService(e: EtcdCluster) returns (ok: bool)
      modifies this
      ensures ok == ProviderOf(e).Some?
      ensures ok ==> Some(Value()) == old(Applied(e, Value()))
    {
      hide WithOwner, ProviderOf;
      if labels == None {
        labels := Some(map[]);
      }
      labels := Some(labels.value[CLUSTER_LABEL := e.name]);
      if selector == None {
        selector := Some(map[]);
      }
      selector := Some(selector.value[CLUSTER_LABEL := e.name]);
      selector := Some(selector.value[VOTING_LABEL := "true"]);
      ApplyClientPort(e);
      var provider := ProviderOf(e);
      if provider.None? {
        return false;
      }
      ApplyTo(provider.value, e.annotations);
      SetEtcdOwnerReference(e);
      ok := true;
    }

    /** lines 96-118 */
    method ApplyClientPort(e: EtcdCluster)
      modifies this`ports
      ensures ports == WithClientPort(e, old(ports))
    {
      var clientPort := ServicePort(CLIENT_PORT_NAME, CLIENT_PORT, TCP, FromInt(CLIENT_PORT), "");
      if e.clientPort.Some? {
        clientPort := clientPort.(port := e.clientPort.value, targetPort := FromInt(e.clientPort.value));
      }
      var portMap: map<string, nat> := map[];
      for index := 0 to |ports|
        invariant ports == old(ports)
        invariant forall name :: PortIndex(ports[..index], name) == if name in portMap then Some(portMap[name])
            else None
      {
        assert ports[..index + 1][..index] == ports[..index];
        portMap := portMap[ports[index].name := index];
      }
      assert ports[..|ports|] == ports;
      assert PortIndex(ports, clientPort.name) == if clientPort.name in portMap
          then Some(portMap[clientPort.name]) else None;
      if clientPort.name in portMap {
        var index := portMap[clientPort.name];
        ports := ports[index := ports[index].(port := clientPort.port)];
        ports := ports[index := ports[index].(protocol := clientPort.protocol)];
        ports := ports[index := ports[index].(targetPort := clientPort.targetPort)];
      } else {
        ports := ports + [clientPort];
      }
    }

    /** clusterip.go, lines 49-52; clb.go, lines 70-86 */
    method ApplyTo(p: Provider, wanted: map<string, string>)
      modifies this`kind, this`annotations
      ensures Value() == AppliedTo(p, wanted, old(Value()))
    {
      match p
      case NoBalancer =>
        kind := CLUSTER_IP;
      case Tke =>
        kind := LOAD_BALANCER;
        if SUBNET_ANNOTATION in wanted {
          if annotations == None {
            annotations := Some(map[]);
          }
          annotations := Some(annotations.value[SUBNET_ANNOTATION := wanted[SUBNET_ANNOTATION]]);
        } else if annotations.Some? {
          annotations := Some(annotations.value - {SUBNET_ANNOTATION});
        }
    }

    /** controller_utils.go, lines 34-57 */
    method SetEtcdOwnerReference(e: EtcdCluster)
      modifies this`owners
      ensures owners == WithOwner(e, old(owners))
    {
      hide WithOwner;
      var ref := OwnerReference(GROUP_VERSION, ETCD_KIND, e.name, e.uid, true, true);
      for idx := 0 to |owners|
        invariant owners == old(owners)
        invariant forall k :: 0 <= k < idx ==> !RefersTo(owners[k], e)
      {
        if RefersTo(owners[idx], e) {
          FirstOwner(e, owners, idx);
          owners := owners[idx := ref];
          return;
        }
      }
      FirstOwner(e, owners, |owners|);
      owners := owners + [ref];
    }
  }

  lemma {:induction false} FirstOwner(e: EtcdCluster, owners: seq<OwnerReference>, idx: nat)
    requires idx <= |owners| && forall k :: 0 <= k < idx ==> !RefersTo(owners[k], e)
    requires idx < |owners| ==> RefersTo(owners[idx], e)
    ensures WithOwner(e, owners) == if idx < |owners| then owners[idx := Reference(e)] else owners + [Reference(e)]
  {
    if idx > 0 {
      var rest := owners[1..];
      FirstOwner(e, rest, idx - 1);
      assert idx < |owners| ==> owners[idx := Reference(e)] == [owners[0]] + rest[idx - 1 := Reference(e)];
      assert idx == |owners| ==> owners + [Reference(e)] == [owners[0]] + (rest + [Reference(e)]);
    } else if owners != [] {
      assert owners[0 := Reference(e)] == [Reference(e)] + owners[1..];
    }
  }

  /** lines 136-142: a changed copy, or the error. */
  method GetUpdateAccessService(e: EtcdCluster, stored: Svc) returns (updated: Option<Svc>)
    ensures updated == Applied(e, stored)
  {
    var svc := new Service.DeepCopy(stored);
    var ok := svc.ApplyAccessService(e);
    updated := if ok then Some(svc.Value()) else None;
    assert !ok ==> Applied(e, stored) == None;
  }

  /** etcd.go, lines 457-468, for a service that exists; stored is what the API server has afterwards. The update may
      fail: reached says whether it arrives, answered whether the reply does. There is no error exactly if the provider
      is known and either nothing was to be changed or the update went through; and a later pass has nothing to
      send. */
  method EnsureAccessService(e: EtcdCluster, svc: Svc, reached: bool, answered: bool) returns (ok: bool, stored: Svc)
    ensures stored == if Applied(e, svc).Some? && reached then Applied(e, svc).value else svc
    ensures ok <==> Applied(e, svc) == Some(svc) || (Applied(e, svc).Some? && reached && answered)
    ensures ok ==> Applied(e, svc) == Some(stored)
    ensures Applied(e, stored) == Applied(e, svc)
  {
    hide Applied, ProviderOf;
    ApplySettles(e, svc);
    ok, stored := true, svc;
    var updated := GetUpdateAccessService(e, svc);
    if updated.None? {
      return false, svc;
    }
    if updated.value != svc {
      if reached {
        stored := updated.value;
      }
      ok := reached && answered;
    }
  }
}
