/** The objects the operator works on, and the names it derives from them
    (pkg/controller/etcdcluster/helpers/utils.go). */
module Cluster {
  import opened Text

  datatype Option<+T> = None | Some(value: T)

  /** Pod settings the operator copies without looking inside. */
  datatype PodSettings = PodSettings(affinity: string, tolerations: string, spread: string, resources: string,
                                     env: string)

  datatype ExternalCerts = ExternalCerts(serverSecret: string, peerSecret: string, clientSecret: string)

  datatype AutoCerts = AutoCerts(server: bool, peer: bool, client: bool, caSecret: string)

  datatype TlsConfig = TlsConfig(external: Option<ExternalCerts>, auto: Option<AutoCerts>)

  datatype EtcdCluster = EtcdCluster(
    ns: string,
    name: string,
    uid: string,
    size: int,
    learners: seq<string>,
    clientPort: Option<int>,
    tls: Option<TlsConfig>,
    settings: PodSettings,
    podLabels: map<string, string>,
    extraArgs: seq<string>,
    hasVolume: bool,
    annotations: map<string, string>)

  datatype PodTemplate = PodTemplate(labels: map<string, string>, settings: PodSettings, args: seq<string>,
                                     fixed: string)

  datatype PodCounts = PodCounts(replicas: int, ready: int)

  /** One version of the TApp object. */
  datatype TApp = TApp(
    name: string,
    replicas: nat,
    pool: map<string, PodTemplate>,
    templates: map<string, string>,
    status: PodCounts)

  datatype Member = Member(id: nat, peerURLs: seq<string>, name: string, isLearner: bool)

  const VOTING_LABEL := "etcdcluster.etcd.tkestack.io/voting-member"
  const CLUSTER_LABEL := "etcdcluster.etcd.tkestack.io/cluster-name"
  const DOMAIN_ANNOTATION := "etcdcluster.etcd.tkestack.io/cluster-domain"
  const DEFAULT_DOMAIN := "cluster.local"
  const PEER_PORT := 2380
  const CLIENT_PORT := 2379

  // ----- names -----

  function PrintInt(n: int): string {
    if n < 0 then "-" + Decimal(-n) else Decimal(n)
  }

  function NameForTApp(e: EtcdCluster): string { e.name + "-etcd" }

  function NameForHeadlessService(e: EtcdCluster): string { e.name + "-etcd-headless" }

  function NameForAccessService(e: EtcdCluster): string { e.name + "-etcd" }

  function PVCNameForEtcd(e: EtcdCluster, index: nat): string {
    "etcd-data-" + NameForTApp(e) + "-" + Decimal(index)
  }

  function MemberName(appName: string, index: nat): string {
    appName + "-" + Decimal(index)
  }

  predicate IsClientSecure(e: EtcdCluster) {
    e.tls.Some? &&
    (|| (e.tls.value.external.Some? && e.tls.value.external.value.serverSecret != "")
     || (e.tls.value.auto.Some? && e.tls.value.auto.value.server))
  }

  predicate IsPeerSecure(e: EtcdCluster) {
    e.tls.Some? &&
    (|| (e.tls.value.external.Some? && e.tls.value.external.value.peerSecret != "")
     || (e.tls.value.auto.Some? && e.tls.value.auto.value.peer))
  }

  function Scheme(secure: bool): string {
    if secure then "https" else "http"
  }

  function ClusterDomain(e: EtcdCluster): string {
    if DOMAIN_ANNOTATION in e.annotations && e.annotations[DOMAIN_ANNOTATION] != ""
    then e.annotations[DOMAIN_ANNOTATION] else DEFAULT_DOMAIN
  }

  function ClientPort(e: EtcdCluster): int {
    if e.clientPort.Some? then e.clientPort.value else CLIENT_PORT
  }

  /** What follows the ordinal in a node's host name. */
  function HostTail(e: EtcdCluster): string {
    "." + NameForHeadlessService(e) + "." + e.ns + ".svc." + ClusterDomain(e)
  }

  function PeerNodeURL(e: EtcdCluster, index: nat): string {
    Scheme(IsPeerSecure(e)) + "://" + MemberName(NameForTApp(e), index) + HostTail(e) + ":" + Decimal(PEER_PORT)
  }

  function AccessURL(e: EtcdCluster): string {
    Scheme(IsClientSecure(e)) + "://" + NameForAccessService(e) + "." + e.ns + ".svc." + ClusterDomain(e) + ":"
        + PrintInt(ClientPort(e))
  }

  /** The domain and the client port as the object states them, or the defaults. */
  predicate DomainOf(e: EtcdCluster, domain: string) {
    if DOMAIN_ANNOTATION in e.annotations && e.annotations[DOMAIN_ANNOTATION] != ""
    then domain == e.annotations[DOMAIN_ANNOTATION] else domain == "cluster.local"
  }

  predicate PortOf(e: EtcdCluster, port: int) {
    match e.clientPort
    case Some(n) => port == n
    case None => port == 2379
  }

  /** The names in full: everything that pods, services and claims are called by. */
  lemma NamesInFull(e: EtcdCluster, i: nat)
    ensures NameForTApp(e) == NameForAccessService(e) == e.name + "-etcd"
    ensures MemberName(NameForTApp(e), i) == e.name + "-etcd-" + Decimal(i)
    ensures PVCNameForEtcd(e, i) == "etcd-data-" + e.name + "-etcd-" + Decimal(i)
  {
    assert e.name + "-etcd" + "-" == e.name + "-etcd-";
    assert e.name + "-etcd" + "-" + Decimal(i) == e.name + "-etcd-" + Decimal(i);
    assert "etcd-data-" + (e.name + "-etcd") + "-" + Decimal(i) == "etcd-data-" + e.name + "-etcd-" + Decimal(i);
  }

  /** The URLs in full: peers by ordinal under the headless service on port 2380, clients under the access service on
      the port that the spec asks for. */
  lemma URLsInFull(e: EtcdCluster, i: nat, domain: string, port: int)
    requires DomainOf(e, domain) && PortOf(e, port)
    ensures PeerNodeURL(e, i)
            == (if IsPeerSecure(e) then "https" else "http") + "://" + (e.name + "-etcd-" + Decimal(i))
               + ("." + (e.name + "-etcd-headless") + "." + e.ns + ".svc." + domain) + ":" + "2380"
    ensures AccessURL(e)
            == (if IsClientSecure(e) then "https" else "http") + "://" + (e.name + "-etcd") + "." + e.ns + ".svc."
               + domain + ":" + PrintInt(port)
  {
    hide IsPeerSecure, IsClientSecure, PrintInt, Decimal, MemberName;
    PeerPortPrinted();
    NamesInFull(e, i);
    assert HostTail(e) == "." + (e.name + "-etcd-headless") + "." + e.ns + ".svc." + domain;
    hide HostTail, NameForTApp;
  }

  lemma PeerPortPrinted()
    ensures Decimal(PEER_PORT) == "2380"
  {
    assert Decimal(2380) == Decimal(238) + [Digit(0)];
    assert Decimal(238) == Decimal(23) + [Digit(8)];
    assert Decimal(23) == Decimal(2) + [Digit(3)];
  }

  /** Two ordinals share a peer URL, a claim name or a member name only when they are the same. */
  lemma OrdinalNamesInjective(e: EtcdCluster, m: nat, n: nat)
    ensures PeerNodeURL(e, m) == PeerNodeURL(e, n) ==> m == n
    ensures PVCNameForEtcd(e, m) == PVCNameForEtcd(e, n) ==> m == n
    ensures MemberName(NameForTApp(e), m) == MemberName(NameForTApp(e), n) ==> m == n
  {
    if PeerNodeURL(e, m) == PeerNodeURL(e, n) {
      PeerNodeURLParts(e, m);
      PeerNodeURLParts(e, n);
      NumberedInjective(PeerHead(e), m, n, PeerTail(e));
    }
    if PVCNameForEtcd(e, m) == PVCNameForEtcd(e, n) {
      var pre := "etcd-data-" + NameForTApp(e) + "-";
      assert pre + Decimal(m) + "" == PVCNameForEtcd(e, m) == PVCNameForEtcd(e, n) == pre + Decimal(n) + "";
      NumberedInjective(pre, m, n, "");
    }
    if MemberName(NameForTApp(e), m) == MemberName(NameForTApp(e), n) {
      var pre := NameForTApp(e) + "-";
      assert pre + Decimal(m) + "" == MemberName(NameForTApp(e), m) == MemberName(NameForTApp(e), n) == pre
          + Decimal(n) + "";
      NumberedInjective(pre, m, n, "");
    }
  }

  function PeerHead(e: EtcdCluster): string {
    Scheme(IsPeerSecure(e)) + "://" + NameForTApp(e) + "-"
  }

  function PeerTail(e: EtcdCluster): string {
    HostTail(e) + ":" + Decimal(PEER_PORT)
  }

  lemma PeerNodeURLParts(e: EtcdCluster, n: nat)
    ensures PeerNodeURL(e, n) == PeerHead(e) + Decimal(n) + PeerTail(e)
  {
  }

  /** The same object as far as names and URLs go; size, learners and templates may differ. */
  predicate SameIdentity(e: EtcdCluster, f: EtcdCluster) {
    && e.ns == f.ns
    && e.name == f.name
    && IsPeerSecure(e) == IsPeerSecure(f)
    && ClusterDomain(e) == ClusterDomain(f)
  }

  lemma SameNames(e: EtcdCluster, f: EtcdCluster, n: nat)
    requires SameIdentity(e, f)
    ensures PeerNodeURL(e, n) == PeerNodeURL(f, n)
    ensures PVCNameForEtcd(e, n) == PVCNameForEtcd(f, n)
  {
  }

  // ----- ordinals as map keys -----

  ghost predicate IsOrdinal(key: string, n: nat) {
    exists i: nat :: i < n && key == Decimal(i)
  }

  ghost function OrdinalOf(key: string, n: nat): (i: nat)
    requires IsOrdinal(key, n)
    ensures i < n && key == Decimal(i)
  {
    var i: nat :| i < n && key == Decimal(i);
    i
  }

  lemma OrdinalOfDecimal(i: nat, n: nat)
    requires i < n
    ensures IsOrdinal(Decimal(i), n) && OrdinalOf(Decimal(i), n) == i
  {
    assert IsOrdinal(Decimal(i), n);
    DecimalInjective(OrdinalOf(Decimal(i), n), i);
  }

  /** The learner the spec asks for is ordinal i. */
  predicate LearnerIs(e: EtcdCluster, i: nat) {
    e.learners != [] && e.learners[0] == Decimal(i)
  }

  /** strings.Split(name, "-"), last field: a generated member name gives its ordinal back, whatever dashes precede
      it. */
  lemma LastFieldIsOrdinal(appName: string, i: nat)
    ensures var f := Split(MemberName(appName, i), '-'); f[|f| - 1] == Decimal(i)
  {
    assert '-' !in Decimal(i);
    SplitAppend(appName, '-', Decimal(i));
    assert MemberName(appName, i) == appName + ['-'] + Decimal(i);
  }
}
