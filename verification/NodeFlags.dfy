/** What etcd is started with on each node, flag by flag, and how much of it reaches the pod template
    (ApplyEtcdNodeInitArgs and ApplyEtcdExtraArgs, pkg/controller/etcdcluster/tapp.go, lines 170-242). */
module NodeFlags {
  import opened Text
  import opened Flags
  import opened Cluster
  import opened NodeArgs

  /** The flags that ordinal i has: a token only the first node, files only with certificates, a directory only with a
      volume. */
  function FlagNames(e: EtcdCluster, i: nat): set<string> {
    {"name", "listen-client-urls", "advertise-client-urls", "initial-cluster-state", "initial-advertise-peer-urls",
     "initial-cluster", "listen-peer-urls"}
    + (if i == 0 then {"initial-cluster-token"} else {})
    + (if e.hasVolume then {"data-dir"} else {})
    + (if IsClientSecure(e) then {"trusted-ca-file", "cert-file", "key-file"} else {})
    + (if IsPeerSecure(e) then {"peer-trusted-ca-file", "peer-cert-file", "peer-key-file"} else {})
  }

  lemma {:induction false} FlagNamesExact(e: EtcdCluster, appName: string, i: nat)
    ensures ArgsOfNode(e, appName, i).Keys == FlagNames(e, i)
  {
    hide IsClientSecure, IsPeerSecure, MemberName, AdvertisedPeerURL, InitialCluster, AccessURL, Scheme, PrintInt,
      Decimal, ClientPort;
  }

  /** Start-up, storage and files. The first node founds the cluster under its own token, every later one joins. */
  lemma {:induction false} StartUpFlags(e: EtcdCluster, appName: string, i: nat)
    ensures var m := ArgsOfNode(e, appName, i);
            && m.Keys == FlagNames(e, i)
            && m["initial-cluster-state"] == (if i == 0 then "new" else "existing")
            && (i == 0 ==> m["initial-cluster-token"] == e.ns + "-" + e.name)
            && (e.hasVolume ==> m["data-dir"] == "/var/lib/etcd")
  {
    hide IsClientSecure, IsPeerSecure, MemberName, AdvertisedPeerURL, InitialCluster, AccessURL, Scheme, PrintInt,
      Decimal, ClientPort;
    FlagNamesExact(e, appName, i);
    hide FlagNames;
  }

  lemma {:induction false} FileFlags(e: EtcdCluster, appName: string, i: nat)
    ensures var m := ArgsOfNode(e, appName, i);
            && m.Keys == FlagNames(e, i)
            && (IsClientSecure(e) ==>
                  && m["trusted-ca-file"] == "/etc/etcd/pki/server/ca.pem"
                  && m["cert-file"] == "/etc/etcd/pki/server/server.pem"
                  && m["key-file"] == "/etc/etcd/pki/server/server-key.pem")
            && (IsPeerSecure(e) ==>
                  && m["peer-trusted-ca-file"] == "/etc/etcd/pki/peer/ca.pem"
                  && m["peer-cert-file"] == "/etc/etcd/pki/peer/peer.pem"
                  && m["peer-key-file"] == "/etc/etcd/pki/peer/peer-key.pem")
  {
    hide IsClientSecure, IsPeerSecure, MemberName, AdvertisedPeerURL, InitialCluster, AccessURL, Scheme, PrintInt,
      Decimal, ClientPort;
    FlagNamesExact(e, appName, i);
    hide FlagNames;
  }

  /** Name and URLs: a node listens for peers with the scheme and on the port under which it is known to them, and for
      clients with the scheme and on the port under which the service is. */
  lemma {:induction false} UrlFlags(e: EtcdCluster, i: nat, domain: string, port: int)
    requires DomainOf(e, domain) && PortOf(e, port)
    ensures var m := ArgsOfNode(e, NameForTApp(e), i);
            var client, peer := if IsClientSecure(e) then "https" else "http",
                                if IsPeerSecure(e) then "https" else "http";
            && m.Keys == FlagNames(e, i)
            && m["name"] == e.name + "-etcd-" + Decimal(i)
            && m["listen-client-urls"] == client + "://0.0.0.0:" + PrintInt(port)
            && m["advertise-client-urls"]
               == client + "://" + (e.name + "-etcd") + "." + e.ns + ".svc." + domain + ":" + PrintInt(port)
            && m["listen-peer-urls"] == peer + "://0.0.0.0:" + "2380"
            && m["initial-advertise-peer-urls"]
               == peer + "://" + (e.name + "-etcd-" + Decimal(i))
                  + ("." + (e.name + "-etcd-headless") + "." + e.ns + ".svc." + domain) + ":" + "2380"
  {
    hide IsClientSecure, IsPeerSecure, InitialCluster, PrintInt, Decimal;
    FlagNamesExact(e, NameForTApp(e), i);
    NamesInFull(e, i);
    URLsInFull(e, i, domain, port);
    PeerPortPrinted();
    assert ClientPort(e) == port;
    assert AdvertisedPeerURL(e, NameForTApp(e), i) == PeerNodeURL(e, i);
    hide FlagNames, NameForTApp, MemberName, AccessURL, PeerNodeURL, AdvertisedPeerURL, DomainOf, PortOf, ClientPort;
  }

  // ----- in the pod template -----

  /** Every flag has a value. */
  ghost predicate Valued(m: map<string, string>) {
    forall k :: k in m ==> m[k] != ""
  }

  lemma PutValued(m: map<string, string>, k: string, v: string)
    requires Valued(m) && v != ""
    ensures Valued(m[k := v])
  {
  }

  lemma GroupsValued(e: EtcdCluster, i: nat, m: map<string, string>)
    requires Valued(m)
    ensures Valued(WithClientTls(e, m)) && Valued(WithPeerTls(e, m)) && Valued(WithVolume(e, m))
    ensures Valued(WithState(e, i, m))
  {
    hide IsClientSecure, IsPeerSecure;
  }

  lemma {:induction false} NoEmptyFlag(e: EtcdCluster, appName: string, i: nat)
    requires ObjectName(appName)
    ensures Valued(ArgsOfNode(e, appName, i))
  {
    InitialClusterClean(e, appName, i);
    hide InitialCluster, ObjectName, Valued, WithClientTls, WithPeerTls, WithVolume, WithState, IsClientSecure,
      IsPeerSecure, Decimal, PrintInt, ClientPort, HostTail, ClusterDomain;
    var listenClient := Scheme(IsClientSecure(e)) + "://0.0.0.0:" + PrintInt(ClientPort(e));
    var listenPeer := Scheme(IsPeerSecure(e)) + "://0.0.0.0:" + Decimal(PEER_PORT);
    assert listenClient != "" && listenPeer != "" && AccessURL(e) != "" && AdvertisedPeerURL(e, appName, i) != "";
    assert MemberName(appName, i) != "";
    hide Scheme, AccessURL, AdvertisedPeerURL, MemberName;
    var m0 := map[NAME := MemberName(appName, i)];
    assert Valued(m0) by { OneValued(NAME, MemberName(appName, i)); }
    GroupsValued(e, i, m0);
    var m1 := WithClientTls(e, m0);
    PutValued(m1, "listen-client-urls", listenClient);
    PutValued(m1["listen-client-urls" := listenClient], "advertise-client-urls", AccessURL(e));
    var m2 := m1["listen-client-urls" := listenClient]["advertise-client-urls" := AccessURL(e)];
    GroupsValued(e, i, m2);
    var m3 := WithState(e, i, m2);
    PutValued(m3, ADVERTISED_PEERS, AdvertisedPeerURL(e, appName, i));
    var m4 := m3[ADVERTISED_PEERS := AdvertisedPeerURL(e, appName, i)];
    PutValued(m4, INITIAL_CLUSTER, InitialCluster(e, appName, i));
    var m5 := m4[INITIAL_CLUSTER := InitialCluster(e, appName, i)];
    GroupsValued(e, i, m5);
    PutValued(WithPeerTls(e, m5), "listen-peer-urls", listenPeer);
    GroupsValued(e, i, WithPeerTls(e, m5)["listen-peer-urls" := listenPeer]);
  }

  lemma OneValued(k: string, v: string)
    requires v != ""
    ensures Valued(map[k := v])
  {
  }

  /** The container of ordinal i is started with the node's flags and the user's, and with nothing else; where both name
      a flag, the user's value counts, and a user's flag without a value means true. */
  lemma {:induction false} TemplateFlags(e: EtcdCluster, app: TApp, i: nat, flags: map<string, string>,
                                         user: map<string, string>)
    requires NamedLikeObjects(e, app.name) && i < app.replicas && Decimal(i) in app.pool
    requires flags == Parse(WithArgs(e, app).pool[Decimal(i)].args, DASHES) && user == Parse(e.extraArgs, DASHES)
    ensures ArgsOfNode(e, app.name, i).Keys == FlagNames(e, i) && flags.Keys == FlagNames(e, i) + user.Keys
    ensures forall k :: k in flags ==>
              flags[k] == if k !in user then ArgsOfNode(e, app.name, i)[k]
                          else if user[k] == "" then "true" else user[k]
  {
    TemplateMeans(e, app, i, flags, user);
    hide ArgsOfNode, ObjectName, FlagNames, WithArgs, Normalized, Parse, Valued;
    FlagNamesExact(e, app.name, i);
    NoEmptyFlag(e, app.name, i) by { assert ObjectName(app.name); }
    OverlaidValues(ArgsOfNode(e, app.name, i), user);
  }

  lemma {:induction false} TemplateMeans(e: EtcdCluster, app: TApp, i: nat, flags: map<string, string>,
                                         user: map<string, string>)
    requires NamedLikeObjects(e, app.name) && i < app.replicas && Decimal(i) in app.pool
    requires flags == Parse(WithArgs(e, app).pool[Decimal(i)].args, DASHES) && user == Parse(e.extraArgs, DASHES)
    ensures flags == Normalized(ArgsOfNode(e, app.name, i) + user)
  {
    hide ArgsOfNode, ObjectName, WithArgs, Normalized, Key, Value;
    TemplateArgsParsed(e, app, i);
  }

  lemma {:induction false} OverlaidValues(own: map<string, string>, user: map<string, string>)
    requires Valued(own)
    ensures var r := Normalized(own + user);
            && r.Keys == own.Keys + user.Keys
            && forall k :: k in r ==> r[k] == if k !in user then own[k] else if user[k] == "" then "true" else user[k]
  {
  }

  /** What the pod of ordinal i starts with when the user overrides none of it: it keeps its data on the mounted volume
      exactly if there is one, founds the cluster exactly if it is the first, and is known by its own name. */
  lemma {:induction false} PodStartsAsNode(e: EtcdCluster, app: TApp, i: nat, flags: map<string, string>)
    requires NamedLikeObjects(e, app.name) && app.name == NameForTApp(e) && i < app.replicas && Decimal(i) in app.pool
    requires Parse(e.extraArgs, DASHES).Keys !! {"data-dir", "initial-cluster-state", "initial-cluster-token", "name"}
    requires flags == Parse(WithArgs(e, app).pool[Decimal(i)].args, DASHES)
    ensures "data-dir" in flags <==> e.hasVolume
    ensures "data-dir" in flags ==> flags["data-dir"] == "/var/lib/etcd"
    ensures "initial-cluster-state" in flags && "name" in flags
    ensures flags["initial-cluster-state"] == (if i == 0 then "new" else "existing")
    ensures "initial-cluster-token" in flags <==> i == 0
    ensures flags["name"] == e.name + "-etcd-" + Decimal(i)
  {
    hide ArgsOfNode, ObjectName, Parse, WithArgs, ClusterDomain, ClientPort, IsClientSecure, IsPeerSecure;
    TemplateFlags(e, app, i, flags, Parse(e.extraArgs, DASHES));
    StartUpFlags(e, app.name, i);
    UrlFlags(e, i, ClusterDomain(e), ClientPort(e)) by { DefaultsOf(e); }
    hide FlagNames;
    StartUpNames(e, i);
  }

  lemma DefaultsOf(e: EtcdCluster)
    ensures DomainOf(e, ClusterDomain(e)) && PortOf(e, ClientPort(e))
  {
  }

  lemma StartUpNames(e: EtcdCluster, i: nat)
    ensures "initial-cluster-state" in FlagNames(e, i) && "name" in FlagNames(e, i)
    ensures "data-dir" in FlagNames(e, i) <==> e.hasVolume
    ensures "initial-cluster-token" in FlagNames(e, i) <==> i == 0
  {
    hide IsClientSecure, IsPeerSecure;
  }
}
