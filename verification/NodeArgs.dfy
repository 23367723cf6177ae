/** The TApp's node templates (pkg/controller/etcdcluster/tapp.go) and their refresh
    (updateTAppTemplate, pkg/controller/etcdcluster/etcd.go). */
module NodeArgs {
  import opened Text
  import opened Flags
  import opened Cluster

  const DASHES := "--"

  // ----- initial-cluster -----

  function AdvertisedPeerURL(e: EtcdCluster, appName: string, i: nat): string {
    Scheme(IsPeerSecure(e)) + "://" + MemberName(appName, i) + HostTail(e) + ":" + Decimal(PEER_PORT)
  }

  function PeerEntry(e: EtcdCluster, appName: string, j: nat): string {
    MemberName(appName, j) + "=" + AdvertisedPeerURL(e, appName, j)
  }

  function PeerEntries(e: EtcdCluster, appName: string, n: nat): seq<string> {
    if n == 0 then [] else PeerEntries(e, appName, n - 1) + [PeerEntry(e, appName, n - 1)]
  }

  lemma {:induction false} PeerEntriesAt(e: EtcdCluster, appName: string, n: nat)
    ensures |PeerEntries(e, appName, n)| == n
    ensures forall j :: 0 <= j < n ==> PeerEntries(e, appName, n)[j] == PeerEntry(e, appName, j)
  {
    hide PeerEntry;
    if n > 0 {
      PeerEntriesAt(e, appName, n - 1);
    }
  }

  function InitialCluster(e: EtcdCluster, appName: string, i: nat): string {
    Join(PeerEntries(e, appName, i + 1), ",")
  }

  /** Each node's list is a proper prefix of the next node's list, which adds exactly that node. */
  lemma InitialClusterGrows(e: EtcdCluster, appName: string, i: nat)
    ensures InitialCluster(e, appName, i + 1) == InitialCluster(e, appName, i) + "," + PeerEntry(e, appName, i + 1)
    ensures InitialCluster(e, appName, i) < InitialCluster(e, appName, i + 1)
  {
    PeerEntriesAt(e, appName, i + 1);
    var front, all := PeerEntries(e, appName, i + 1), PeerEntries(e, appName, i + 2);
    assert all[..|all| - 1] == front && all[|all| - 1] == PeerEntry(e, appName, i + 1);
  }

  // ----- node arguments -----

  const NAME := "name"
  const INITIAL_CLUSTER := "initial-cluster"
  const STATE := "initial-cluster-state"
  const ADVERTISED_PEERS := "initial-advertise-peer-urls"

  function WithClientTls(e: EtcdCluster, m: map<string, string>): map<string, string> {
    if IsClientSecure(e) then
      m["trusted-ca-file" := "/etc/etcd/pki/server/ca.pem"]
       ["cert-file" := "/etc/etcd/pki/server/server.pem"]
       ["key-file" := "/etc/etcd/pki/server/server-key.pem"]
    else m
  }

  function WithState(e: EtcdCluster, i: nat, m: map<string, string>): map<string, string> {
    if i == 0 then m[STATE := "new"]["initial-cluster-token" := e.ns + "-" + e.name]
    else m[STATE := "existing"]
  }

  function WithPeerTls(e: EtcdCluster, m: map<string, string>): map<string, string> {
    if IsPeerSecure(e) then
      m["peer-trusted-ca-file" := "/etc/etcd/pki/peer/ca.pem"]
       ["peer-cert-file" := "/etc/etcd/pki/peer/peer.pem"]
       ["peer-key-file" := "/etc/etcd/pki/peer/peer-key.pem"]
    else m
  }

  function WithVolume(e: EtcdCluster, m: map<string, string>): map<string, string> {
    if e.hasVolume then m["data-dir" := "/var/lib/etcd"] else m
  }

  /** The arguments etcd is started with on ordinal i, before the user's extra arguments. */
  function ArgsOfNode(e: EtcdCluster, appName: string, i: nat): map<string, string> {
    var clientPart := WithClientTls(e, map[NAME := MemberName(appName, i)])
      ["listen-client-urls" := Scheme(IsClientSecure(e)) + "://0.0.0.0:" + PrintInt(ClientPort(e))]
      ["advertise-client-urls" := AccessURL(e)];
    var peerPart := WithState(e, i, clientPart)
      [ADVERTISED_PEERS := AdvertisedPeerURL(e, appName, i)]
      [INITIAL_CLUSTER := InitialCluster(e, appName, i)];
    WithVolume(e, WithPeerTls(e, peerPart)
      ["listen-peer-urls" := Scheme(IsPeerSecure(e)) + "://0.0.0.0:" + Decimal(PEER_PORT)])
  }

  /** The inner loop, which grows the peer list entry by entry. */
  method PeerList(e: EtcdCluster, appName: string, i: nat) returns (list: string)
    ensures list == InitialCluster(e, appName, i)
  {
    hide PeerEntry;
    list := "";
    for j := 0 to i + 1
      invariant list == Join(PeerEntries(e, appName, j), ",")
    {
      PeerEntriesAt(e, appName, j);
      assert PeerEntries(e, appName, j + 1)[..j] == PeerEntries(e, appName, j);
      if j > 0 {
        list := list + ",";
      }
      list := list + PeerEntry(e, appName, j);
    }
  }

  method NodeInitArgs(e: EtcdCluster, appName: string, i: nat) returns (args: map<string, string>)
    ensures args == ArgsOfNode(e, appName, i)
  {
    hide WithClientTls, WithState, WithPeerTls, WithVolume, MemberName, Scheme, PrintInt, AccessURL,
      AdvertisedPeerURL, InitialCluster, Decimal;
    args := map[NAME := MemberName(appName, i)];
    args := WithClientTls(e, args);
    args := args["listen-client-urls" := Scheme(IsClientSecure(e)) + "://0.0.0.0:" + PrintInt(ClientPort(e))];
    args := args["advertise-client-urls" := AccessURL(e)];
    args := WithState(e, i, args);
    args := args[ADVERTISED_PEERS := AdvertisedPeerURL(e, appName, i)];
    var list := PeerList(e, appName, i);
    args := args[INITIAL_CLUSTER := list];
    args := WithPeerTls(e, args);
    args := args["listen-peer-urls" := Scheme(IsPeerSecure(e)) + "://0.0.0.0:" + Decimal(PEER_PORT)];
    args := WithVolume(e, args);
  }

  /** The optional groups of arguments use keys of their own. */
  lemma GroupsApart(e: EtcdCluster, i: nat, m: map<string, string>, k: string)
    requires k in {NAME, STATE, ADVERTISED_PEERS, INITIAL_CLUSTER} && k in m
    ensures k in WithClientTls(e, m) && WithClientTls(e, m)[k] == m[k]
    ensures k in WithPeerTls(e, m) && WithPeerTls(e, m)[k] == m[k]
    ensures k in WithVolume(e, m) && WithVolume(e, m)[k] == m[k]
    ensures k != STATE ==> k in WithState(e, i, m) && WithState(e, i, m)[k] == m[k]
  {
    hide IsClientSecure, IsPeerSecure;
  }

  /** What the other nodes rely on: identity, peer URL, start-up state and peer list of ordinal i. */
  lemma NodeArgsValues(e: EtcdCluster, appName: string, i: nat)
    ensures var m := ArgsOfNode(e, appName, i);
            && NAME in m && m[NAME] == MemberName(appName, i)
            && ADVERTISED_PEERS in m && m[ADVERTISED_PEERS] == AdvertisedPeerURL(e, appName, i)
            && INITIAL_CLUSTER in m && m[INITIAL_CLUSTER] == InitialCluster(e, appName, i)
            && STATE in m && (m[STATE] == "new" <==> i == 0)
  {
    hide IsClientSecure, IsPeerSecure, MemberName, AdvertisedPeerURL, InitialCluster, AccessURL, Scheme, PrintInt,
      Decimal;
    hide WithClientTls, WithPeerTls, WithVolume;
    var m0 := map[NAME := MemberName(appName, i)];
    GroupsApart(e, i, m0, NAME);
    var m1 := WithClientTls(e, m0)
      ["listen-client-urls" := Scheme(IsClientSecure(e)) + "://0.0.0.0:" + PrintInt(ClientPort(e))]
      ["advertise-client-urls" := AccessURL(e)];
    assert NAME in m1 && m1[NAME] == MemberName(appName, i);
    GroupsApart(e, i, m1, NAME);
    var m2 := WithState(e, i, m1)
      [ADVERTISED_PEERS := AdvertisedPeerURL(e, appName, i)]
      [INITIAL_CLUSTER := InitialCluster(e, appName, i)];
    assert m2[STATE] == if i == 0 then "new" else "existing";
    forall k | k in {NAME, STATE, ADVERTISED_PEERS, INITIAL_CLUSTER}
      ensures var m := ArgsOfNode(e, appName, i); k in m2 && k in m && m[k] == m2[k]
    {
      GroupsApart(e, i, m2, k);
      var m3 := WithPeerTls(e, m2)["listen-peer-urls" := Scheme(IsPeerSecure(e)) + "://0.0.0.0:" + Decimal(PEER_PORT)];
      assert k in m3 && m3[k] == m2[k];
      GroupsApart(e, i, m3, k);
    }
    assert "new"[0] != "existing"[0];
  }

  // ----- the argument list survives printing and parsing -----

  /** The characters Kubernetes allows in object names. */
  predicate ObjectName(s: string) {
    s != "" && forall c :: c in s ==> 'a' <= c <= 'z' || '0' <= c <= '9' || c == '-' || c == '.'
  }

  predicate NamedLikeObjects(e: EtcdCluster, appName: string) {
    ObjectName(e.ns) && ObjectName(e.name) && ObjectName(appName)
  }

  lemma ObjectNameClean(s: string)
    requires ObjectName(s)
    ensures Trimmed(s) && ',' !in s && '=' !in s
  {
    assert s[0] in s && s[|s| - 1] in s;
  }

  lemma CleanConcat(a: string, b: string)
    requires a != "" && b != "" && StartsClean(a) && EndsClean(b)
    ensures Trimmed(a + b)
  {
  }

  lemma DecimalClean(n: nat)
    ensures Trimmed(Decimal(n)) && EndsClean(PrintInt(n))
  {
    var s := Decimal(n);
    assert s[0] in s && s[|s| - 1] in s;
  }

  lemma PortClean(n: int)
    ensures PrintInt(n) != "" && EndsClean(PrintInt(n))
  {
    if n < 0 {
      DecimalClean(-n);
      var s := Decimal(-n);
      assert PrintInt(n)[|s|] == s[|s| - 1];
    } else {
      DecimalClean(n);
    }
  }

  lemma PutPrintable(m: map<string, string>, k: string, v: string)
    requires Printable(m) && '=' !in k && EndsClean(k) && Trimmed(v)
    ensures Printable(m[k := v])
  {
  }

  lemma FixedGroupsPrintable(e: EtcdCluster, m: map<string, string>)
    requires Printable(m)
    ensures Printable(WithClientTls(e, m)) && Printable(WithPeerTls(e, m)) && Printable(WithVolume(e, m))
  {
    hide IsClientSecure, IsPeerSecure, Printable;
    PutPrintable(m, "trusted-ca-file", "/etc/etcd/pki/server/ca.pem");
    var a := m["trusted-ca-file" := "/etc/etcd/pki/server/ca.pem"];
    PutPrintable(a, "cert-file", "/etc/etcd/pki/server/server.pem");
    PutPrintable(a["cert-file" := "/etc/etcd/pki/server/server.pem"], "key-file",
        "/etc/etcd/pki/server/server-key.pem");
    PutPrintable(m, "peer-trusted-ca-file", "/etc/etcd/pki/peer/ca.pem");
    var b := m["peer-trusted-ca-file" := "/etc/etcd/pki/peer/ca.pem"];
    PutPrintable(b, "peer-cert-file", "/etc/etcd/pki/peer/peer.pem");
    PutPrintable(b["peer-cert-file" := "/etc/etcd/pki/peer/peer.pem"], "peer-key-file",
        "/etc/etcd/pki/peer/peer-key.pem");
    PutPrintable(m, "data-dir", "/var/lib/etcd");
  }

  lemma StatePrintable(e: EtcdCluster, appName: string, i: nat, m: map<string, string>)
    requires NamedLikeObjects(e, appName) && Printable(m)
    ensures Printable(WithState(e, i, m))
  {
    hide Printable, ObjectName;
    ObjectNameClean(e.ns);
    ObjectNameClean(e.name);
    assert ObjectName(e.ns) && ObjectName(e.name);
    CleanConcat(e.ns + "-", e.name) by { assert e.ns != ""
        && e.name != "" by { ObjectNameNonempty(e.ns); ObjectNameNonempty(e.name); } }
    PutPrintable(m, STATE, "new");
    PutPrintable(m[STATE := "new"], "initial-cluster-token", e.ns + "-" + e.name);
    PutPrintable(m, STATE, "existing");
  }

  lemma ObjectNameNonempty(s: string)
    requires ObjectName(s)
    ensures s != ""
  {
  }

  /** URLs start with their scheme and end with their port. */
  lemma URLsClean(e: EtcdCluster, appName: string, i: nat)
    ensures Trimmed(AccessURL(e)) && Trimmed(AdvertisedPeerURL(e, appName, i))
    ensures Trimmed(Scheme(IsClientSecure(e)) + "://0.0.0.0:" + PrintInt(ClientPort(e)))
    ensures Trimmed(Scheme(IsPeerSecure(e)) + "://0.0.0.0:" + Decimal(PEER_PORT))
    ensures AdvertisedPeerURL(e, appName, i) != ""
  {
    hide IsClientSecure, IsPeerSecure, HostTail, MemberName, ClusterDomain, PrintInt, Decimal;
    PortClean(ClientPort(e));
    DecimalClean(PEER_PORT);
    CleanConcat(Scheme(IsClientSecure(e)) + "://0.0.0.0:", PrintInt(ClientPort(e)));
    CleanConcat(Scheme(IsPeerSecure(e)) + "://0.0.0.0:", Decimal(PEER_PORT));
    CleanConcat(Scheme(IsClientSecure(e)) + "://" + NameForAccessService(e) + "." + e.ns + ".svc."
        + ClusterDomain(e) + ":", PrintInt(ClientPort(e)));
    CleanConcat(Scheme(IsPeerSecure(e)) + "://" + MemberName(appName, i) + HostTail(e) + ":", Decimal(PEER_PORT));
  }

  lemma MemberNameClean(appName: string, i: nat)
    requires ObjectName(appName)
    ensures Trimmed(MemberName(appName, i)) && MemberName(appName, i) != ""
  {
    ObjectNameClean(appName);
    DecimalClean(i);
    CleanConcat(appName + "-", Decimal(i));
  }

  lemma {:induction false} InitialClusterClean(e: EtcdCluster, appName: string, i: nat)
    requires ObjectName(appName)
    ensures Trimmed(InitialCluster(e, appName, i)) && InitialCluster(e, appName, i) != ""
  {
    hide AdvertisedPeerURL, MemberName, ObjectName;
    MemberNameClean(appName, i);
    URLsClean(e, appName, i);
    CleanConcat(MemberName(appName, i) + "=", AdvertisedPeerURL(e, appName, i));
    PeerEntriesAt(e, appName, i + 1);
    if i > 0 {
      InitialClusterClean(e, appName, i - 1);
      InitialClusterGrows(e, appName, i - 1);
      CleanConcat(InitialCluster(e, appName, i - 1) + ",", PeerEntry(e, appName, i));
    }
  }

  lemma ArgsPrintable(e: EtcdCluster, appName: string, i: nat)
    requires NamedLikeObjects(e, appName)
    ensures Printable(ArgsOfNode(e, appName, i))
  {
    hide Printable, ObjectName, MemberName, AccessURL, AdvertisedPeerURL, InitialCluster, WithClientTls,
      WithPeerTls, WithVolume, WithState;
    hide Scheme, PrintInt, Decimal, IsClientSecure, IsPeerSecure;
    MemberNameClean(appName, i);
    URLsClean(e, appName, i);
    InitialClusterClean(e, appName, i);
    var listenClient := Scheme(IsClientSecure(e)) + "://0.0.0.0:" + PrintInt(ClientPort(e));
    var listenPeer := Scheme(IsPeerSecure(e)) + "://0.0.0.0:" + Decimal(PEER_PORT);
    EmptyPrintable();
    PutPrintable(map[], NAME, MemberName(appName, i));
    var m0 := map[NAME := MemberName(appName, i)];
    assert m0 == (map[])[NAME := MemberName(appName, i)];
    FixedGroupsPrintable(e, m0);
    var m1 := WithClientTls(e, m0);
    PutPrintable(m1, "listen-client-urls", listenClient);
    PutPrintable(m1["listen-client-urls" := listenClient], "advertise-client-urls", AccessURL(e));
    var m2 := m1["listen-client-urls" := listenClient]["advertise-client-urls" := AccessURL(e)];
    StatePrintable(e, appName, i, m2);
    var m3 := WithState(e, i, m2);
    PutPrintable(m3, ADVERTISED_PEERS, AdvertisedPeerURL(e, appName, i));
    var m4 := m3[ADVERTISED_PEERS := AdvertisedPeerURL(e, appName, i)];
    PutPrintable(m4, INITIAL_CLUSTER, InitialCluster(e, appName, i));
    var m5 := m4[INITIAL_CLUSTER := InitialCluster(e, appName, i)];
    FixedGroupsPrintable(e, m5);
    PutPrintable(WithPeerTls(e, m5), "listen-peer-urls", listenPeer);
    FixedGroupsPrintable(e, WithPeerTls(e, m5)["listen-peer-urls" := listenPeer]);
  }

  lemma EmptyPrintable()
    ensures Printable(map[])
  {
  }

  // ----- templates -----

  /** ApplyEtcdNodeInitArgs: the arguments of ordinals 0..n-1 are rebuilt from scratch, other templates are left
      alone. */
  ghost function InitPool(e: EtcdCluster, appName: string, n: nat, pool: map<string, PodTemplate>): map<string,
                          PodTemplate> {
    map key | key in pool ::
      if IsOrdinal(key, n) then pool[key].(args := Printed(ArgsOfNode(e, appName, OrdinalOf(key, n)), DASHES))
          else pool[key]
  }

  /** ApplyEtcdExtraArgs: the user's arguments override every template's. */
  ghost function ExtraPool(e: EtcdCluster, pool: map<string, PodTemplate>): map<string, PodTemplate> {
    map key | key in pool :: pool[key].(args := Merged(pool[key].args, e.extraArgs, DASHES, DASHES))
  }

  ghost function WithArgs(e: EtcdCluster, app: TApp): TApp {
    app.(pool := ExtraPool(e, InitPool(e, app.name, app.replicas, app.pool)))
  }

  ghost function SettingsPool(e: EtcdCluster, pool: map<string, PodTemplate>): map<string, PodTemplate> {
    map key | key in pool :: pool[key].(settings := e.settings)
  }

  /** updateTAppTemplate: what the TApp should look like under the current spec. */
  ghost function Refreshed(e: EtcdCluster, app: TApp): TApp {
    WithArgs(e, app.(pool := SettingsPool(e, app.pool)))
  }

  /** The source indexes the pool with every ordinal below Replicas and stops with a panic if one is missing. */
  ghost predicate HasOrdinals(pool: map<string, PodTemplate>, n: nat) {
    forall i: nat :: i < n ==> Decimal(i) in pool
  }

  lemma WithArgsKeeps(e: EtcdCluster, app: TApp)
    ensures var r := WithArgs(e, app);
            && r.pool.Keys == app.pool.Keys
            && r.replicas == app.replicas && r.templates == app.templates && r.status == app.status
                && r.name == app.name
            && forall key :: key in app.pool ==> r.pool[key].labels == app.pool[key].labels
  {
  }

  lemma RefreshedKeeps(e: EtcdCluster, app: TApp)
    ensures var r := Refreshed(e, app);
            && r.pool.Keys == app.pool.Keys
            && r.replicas == app.replicas && r.templates == app.templates && r.status == app.status
                && r.name == app.name
            && forall key :: key in app.pool ==> r.pool[key].labels == app.pool[key].labels
  {
    WithArgsKeeps(e, app.(pool := SettingsPool(e, app.pool)));
  }

  /** The argument list of ordinal i, read back as a flag map: the node's own arguments overridden by the user's. */
  lemma TemplateArgsParsed(e: EtcdCluster, app: TApp, i: nat)
    requires NamedLikeObjects(e, app.name) && i < app.replicas && Decimal(i) in app.pool
    ensures Parse(WithArgs(e, app).pool[Decimal(i)].args, DASHES)
            == Normalized(ArgsOfNode(e, app.name, i) + Parse(e.extraArgs, DASHES))
  {
    hide ArgsOfNode, Printable, ObjectName, Normalized, Parse, Printed;
    OrdinalOfDecimal(i, app.replicas);
    var own := ArgsOfNode(e, app.name, i);
    var printed := Printed(own, DASHES);
    assert WithArgs(e, app).pool[Decimal(i)].args == Merged(printed, e.extraArgs, DASHES, DASHES);
    ArgsPrintable(e, app.name, i);
    assert IsFlagPrefix(DASHES);
    MergeOverlays(printed, e.extraArgs, DASHES);
    PrintParse(own, DASHES);
    NormalOverlay(own, Parse(e.extraArgs, DASHES));
  }

  lemma NormalOverlay(m: map<string, string>, n: map<string, string>)
    ensures Normalized(Normalized(m) + n) == Normalized(m + n)
  {
  }

  /** Unless the user overrides it, ordinal i's pod starts with the peer list of ordinals 0..i, which splits into one
      name=url entry per ordinal, in order, ending with its own. */
  lemma TemplateInitialCluster(e: EtcdCluster, app: TApp, i: nat)
    requires NamedLikeObjects(e, app.name) && app.name == NameForTApp(e) && ',' !in ClusterDomain(e)
    requires i < app.replicas && Decimal(i) in app.pool
    requires INITIAL_CLUSTER !in Parse(e.extraArgs, DASHES)
    ensures var flags := Parse(WithArgs(e, app).pool[Decimal(i)].args, DASHES);
            && INITIAL_CLUSTER in flags
            && var entries := Split(flags[INITIAL_CLUSTER], ',');
               && |entries| == i + 1
               && forall j: nat :: j <= i ==> entries[j] == MemberName(app.name, j) + "=" + PeerNodeURL(e, j)
  {
    hide ArgsOfNode, ObjectName, Parse, InitialCluster, Split, MemberName;
    TemplateArgsParsed(e, app, i);
    NodeArgsValues(e, app.name, i);
    InitialClusterClean(e, app.name, i);
    assert Parse(WithArgs(e, app).pool[Decimal(i)].args, DASHES)[INITIAL_CLUSTER] == InitialCluster(e, app.name, i);
    InitialClusterSplits(e, app.name, i);
  }

  lemma InitialClusterSplits(e: EtcdCluster, appName: string, i: nat)
    requires ObjectName(e.ns) && ObjectName(e.name) && ObjectName(appName) && ',' !in ClusterDomain(e)
    requires appName == NameForTApp(e)
    ensures var entries := Split(InitialCluster(e, appName, i), ',');
            && |entries| == i + 1
            && forall j: nat :: j <= i ==> entries[j] == MemberName(appName, j) + "=" + PeerNodeURL(e, j)
  {
    var parts := PeerEntries(e, appName, i + 1);
    PeerEntriesAt(e, appName, i + 1);
    forall p | p in parts ensures ',' !in p {
      var j: nat :| j < |parts| && parts[j] == p;
      PeerEntryNoComma(e, appName, j);
    }
    SplitJoin(parts, ',');
    assert "," == [','];
  }

  lemma PeerEntryNoComma(e: EtcdCluster, appName: string, j: nat)
    requires ObjectName(e.ns) && ObjectName(e.name) && ObjectName(appName) && ',' !in ClusterDomain(e)
    ensures ',' !in PeerEntry(e, appName, j)
  {
    hide ClusterDomain, ObjectName, IsPeerSecure, Decimal;
    ObjectNameClean(e.ns);
    ObjectNameClean(e.name);
    ObjectNameClean(appName);
    assert ',' !in MemberName(appName, j);
    hide MemberName;
    assert ',' !in NameForHeadlessService(e);
    assert ',' !in HostTail(e);
    hide HostTail;
    assert ',' !in Scheme(IsPeerSecure(e));
    hide Scheme;
    assert ',' !in AdvertisedPeerURL(e, appName, j);
  }

  /** Refreshing twice is refreshing once, exactly when every template outside 0..Replicas-1 has a value
      for each flag the user does not override. */
  lemma RefreshSettles(e: EtcdCluster, app: TApp)
    ensures Refreshed(e, Refreshed(e, app)) == Refreshed(e, app)
            <==> forall key :: key in app.pool && !IsOrdinal(key, app.replicas) ==> ArgsSettled(e, app.pool[key].args)
  {
    hide Parse, Printed, ArgsOfNode, IsOrdinal, ArgsSettled;
    var once := Refreshed(e, app);
    var twice := Refreshed(e, once);
    RefreshedKeeps(e, app);
    RefreshedKeeps(e, once);
    assert once.pool.Keys == twice.pool.Keys == app.pool.Keys;
    forall key | key in app.pool
      ensures twice.pool[key] == once.pool[key] <==> IsOrdinal(key, app.replicas) || ArgsSettled(e, app.pool[key].args)
    {
      RefreshedAt(e, app, key);
      RefreshedAt(e, once, key);
      if !IsOrdinal(key, app.replicas) {
        SettledExactly(e, app.pool[key].args);
      }
    }
    if twice == once {
      assert forall key :: key in app.pool ==> twice.pool[key] == once.pool[key];
    }
    if forall key :: key in app.pool && !IsOrdinal(key, app.replicas) ==> ArgsSettled(e, app.pool[key].args) {
      assert twice.pool == once.pool;
    }
  }

  ghost predicate ArgsSettled(e: EtcdCluster, args: seq<string>) {
    forall k :: k in Parse(args, DASHES) && k !in Parse(e.extraArgs, DASHES) ==> Parse(args, DASHES)[k] != ""
  }

  lemma SettledExactly(e: EtcdCluster, args: seq<string>)
    ensures var once := Merged(args, e.extraArgs, DASHES, DASHES);
            Merged(once, e.extraArgs, DASHES, DASHES) == once <==> ArgsSettled(e, args)
  {
    assert IsFlagPrefix(DASHES);
    MergeIdempotent(args, e.extraArgs, DASHES);
    var once := Merged(args, e.extraArgs, DASHES, DASHES);
    if Merged(once, e.extraArgs, DASHES, DASHES) == once {
      assert ArgsSettled(e, args);
    }
    if ArgsSettled(e, args) {
      assert Merged(once, e.extraArgs, DASHES, DASHES) == once;
    }
  }

  lemma RefreshedAt(e: EtcdCluster, app: TApp, key: string)
    requires key in app.pool
    ensures var r := Refreshed(e, app);
            && key in r.pool
            && r.pool[key] == PodTemplate(app.pool[key].labels, e.settings,
                 Merged(if IsOrdinal(key, app.replicas)
                     then Printed(ArgsOfNode(e, app.name, OrdinalOf(key, app.replicas)), DASHES)
                        else app.pool[key].args, e.extraArgs, DASHES, DASHES), app.pool[key].fixed)
  {
    hide Parse, Printed, ArgsOfNode, IsOrdinal;
  }

  // ----- the seed -----

  function VotingLabel(e: EtcdCluster, i: nat): string {
    if LearnerIs(e, i) then "false" else "true"
  }

  function DefaultTemplate(e: EtcdCluster): PodTemplate {
    PodTemplate(e.podLabels[CLUSTER_LABEL := e.name][VOTING_LABEL := "true"], e.settings, [], "")
  }

  ghost function SeedTApp(e: EtcdCluster): TApp {
    var tpl := DefaultTemplate(e);
    WithArgs(e, TApp(NameForTApp(e), 1,
      map[Decimal(0) := tpl.(labels := tpl.labels[VOTING_LABEL := VotingLabel(e, 0)])],
      map[Decimal(0) := Decimal(0)], PodCounts(0, 0)))
  }

  // ----- the TApp while it is being edited -----

  /** A deep copy of a TApp, edited in place before it is sent to the API server. */
  class TAppDraft {
    var name: string
    var replicas: nat
    var pool: map<string, PodTemplate>
    var templates: map<string, string>
    var status: PodCounts

    constructor DeepCopy(app: TApp)
      ensures Value() == app
    {
      name, replicas, pool, templates, status := app.name, app.replicas, app.pool, app.templates, app.status;
    }

    function Value(): TApp
      reads this
    {
      TApp(name, replicas, pool, templates, status)
    }

    method ApplyEtcdNodeInitArgs(e: EtcdCluster)
      requires HasOrdinals(pool, replicas)
      modifies this`pool
      ensures pool == InitPool(e, name, replicas, old(pool))
    {
      ghost var before := pool;
      InitPoolNone(e, name, before);
      for i := 0 to replicas
        invariant pool == InitPool(e, name, i, before)
      {
        var key := Decimal(i);
        var args := NodeInitArgs(e, name, i);
        var list := ToStringSlice(args, DASHES);
        InitPoolNext(e, name, i, before);
        pool := pool[key := pool[key].(args := list)];
      }
    }

    /** Whatever order the pool is walked in, each template is merged once. */
    method ApplyEtcdExtraArgs(e: EtcdCluster)
      modifies this`pool
      ensures pool == ExtraPool(e, old(pool))
    {
      hide Merged;
      ghost var before := pool;
      var todo := pool.Keys;
      while todo != {}
        invariant todo <= pool.Keys == before.Keys
        invariant forall key :: key in todo ==> pool[key] == before[key]
        invariant forall key :: key in pool && key !in todo ==> pool[key] == ExtraPool(e, before)[key]
        decreases |todo|
      {
        var key :| key in todo;
        var tpl := pool[key];
        var list := Merge(tpl.args, e.extraArgs, DASHES, DASHES);
        pool := pool[key := tpl.(args := list)];
        todo := todo - {key};
      }
    }

    method ApplySettings(e: EtcdCluster)
      modifies this`pool
      ensures pool == SettingsPool(e, old(pool))
    {
      ghost var before := pool;
      var todo := pool.Keys;
      while todo != {}
        invariant todo <= pool.Keys == before.Keys
        invariant forall key :: key in todo ==> pool[key] == before[key]
        invariant forall key :: key in pool && key !in todo ==> pool[key] == SettingsPool(e, before)[key]
        decreases |todo|
      {
        var key :| key in todo;
        pool := pool[key := pool[key].(settings := e.settings)];
        todo := todo - {key};
      }
    }
  }

  lemma InitPoolNone(e: EtcdCluster, appName: string, pool: map<string, PodTemplate>)
    ensures InitPool(e, appName, 0, pool) == pool
  {
  }

  lemma InitPoolNext(e: EtcdCluster, appName: string, i: nat, pool: map<string, PodTemplate>)
    requires Decimal(i) in pool
    ensures var p := InitPool(e, appName, i, pool);
            && Decimal(i) in p && p[Decimal(i)] == pool[Decimal(i)]
            && InitPool(e, appName, i + 1, pool)
               == p[Decimal(i) := pool[Decimal(i)].(args := Printed(ArgsOfNode(e, appName, i), DASHES))]
  {
    hide ArgsOfNode, Printed;
    OrdinalOfDecimal(i, i + 1);
    if IsOrdinal(Decimal(i), i) {
      DecimalInjective(i, OrdinalOf(Decimal(i), i));
    }
    forall key | key in pool && key != Decimal(i)
      ensures IsOrdinal(key, i) == IsOrdinal(key, i + 1)
      ensures IsOrdinal(key, i) ==> OrdinalOf(key, i) == OrdinalOf(key, i + 1)
    {
      if j: nat :| j < i && key == Decimal(j) {
        OrdinalOfDecimal(j, i);
        OrdinalOfDecimal(j, i + 1);
      }
    }
  }

  method NewSeedTApp(e: EtcdCluster) returns (draft: TAppDraft)
    ensures fresh(draft) && draft.Value() == SeedTApp(e)
  {
    draft := new TAppDraft.DeepCopy(TApp(NameForTApp(e), 1, map[], map[], PodCounts(0, 0)));
    for i := 0 to draft.replicas
      invariant draft.name == NameForTApp(e) && draft.replicas == 1 && draft.status == PodCounts(0, 0)
      invariant i == 0 ==> draft.pool == map[] && draft.templates == map[]
      invariant i == 1 ==> draft.templates == map[Decimal(0) := Decimal(0)]
      invariant i == 1 ==>
        draft.pool == map[Decimal(0) :=
          DefaultTemplate(e).(labels := DefaultTemplate(e).labels[VOTING_LABEL := VotingLabel(e, 0)])]
    {
      var tpl := DefaultTemplate(e);
      if |e.learners| != 0 && e.learners[0] == Decimal(i) {
        tpl := tpl.(labels := tpl.labels[VOTING_LABEL := "false"]);
      }
      assert VotingLabel(e, i) == "true" ==> tpl.labels == tpl.labels[VOTING_LABEL := "true"];
      draft.pool := draft.pool[Decimal(i) := tpl];
      draft.templates := draft.templates[Decimal(i) := Decimal(i)];
    }
    draft.ApplyEtcdNodeInitArgs(e);
    draft.ApplyEtcdExtraArgs(e);
  }
}
