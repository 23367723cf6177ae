/** Which secrets are mounted into the etcd pods (ApplyEtcdTLSOptions, pkg/controller/etcdcluster/tapp.go, lines
    244-352), against what etcd's arguments, the URL schemes and the admission checks assume about them. */
module TlsMounts {
  import opened Text
  import opened Cluster
  import opened NodeArgs
  import opened Certificates
  import opened Validation

  /** A volume with its mount: the certificate type names both; secret is what the volume shows. */
  datatype TlsVolume = TlsVolume(t: CertType, secret: string)

  function MountPath(t: CertType): string {
    match t
    case CACert => ""
    case ServerCert => "/etc/etcd/pki/server"
    case PeerCert => "/etc/etcd/pki/peer"
    case ClientCert => "/etc/etcd/pki/client"
  }

  function ExternalSecret(c: ExternalCerts, t: CertType): string {
    match t
    case CACert => ""
    case ServerCert => c.serverSecret
    case PeerCert => c.peerSecret
    case ClientCert => c.clientSecret
  }

  /** How often a secret is mounted for type t, and which. */
  function Mounts(volumes: seq<TlsVolume>, t: CertType): seq<string> {
    if volumes == [] then []
    else Mounts(volumes[..|volumes| - 1], t) + if volumes[|volumes| - 1].t == t
        then [volumes[|volumes| - 1].secret] else []
  }

  function WantedExternal(e: EtcdCluster, t: CertType): seq<string>
    requires e.tls.Some?
  {
    if e.tls.value.external.Some? && ExternalSecret(e.tls.value.external.value, t) != ""
    then [ExternalSecret(e.tls.value.external.value, t)] else []
  }

  function WantedGenerated(e: EtcdCluster, t: CertType): seq<string>
    requires e.tls.Some?
  {
    if e.tls.value.auto.Some? && Requested(e.tls.value.auto.value, t) then [NameForEtcdCertSecret(e.name, t)] else []
  }

  /** The secrets that the spec asks for: one from outside, one generated, or both, or none. */
  function Wanted(e: EtcdCluster, t: CertType): seq<string> {
    if e.tls.None? then [] else WantedExternal(e, t) + WantedGenerated(e, t)
  }

  lemma MountsAppend(volumes: seq<TlsVolume>, v: TlsVolume, t: CertType)
    ensures Mounts(volumes + [v], t) == Mounts(volumes, t) + if v.t == t then [v.secret] else []
  {
    assert (volumes + [v])[..|volumes|] == volumes;
  }

  method ApplyEtcdTLSOptions(e: EtcdCluster) returns (volumes: seq<TlsVolume>)
    ensures forall t :: Mounts(volumes, t) == Wanted(e, t)
  {
    hide Mounts, NameForEtcdCertSecret;
    volumes := [];
    NoMounts();
    if e.tls.None? {
      return;
    }
    volumes := ExternalVolumes(e);
    volumes := AutoVolumes(e, volumes);
  }

  lemma NoMounts()
    ensures forall t :: Mounts([], t) == []
  {
  }

  /** lines 256-298 */
  method ExternalVolumes(e: EtcdCluster) returns (volumes: seq<TlsVolume>)
    requires e.tls.Some?
    ensures forall t :: Mounts(volumes, t) == WantedExternal(e, t)
  {
    hide Mounts;
    NoMounts();
    volumes := [];
    var external := e.tls.value.external;
    if external.Some? && external.value.serverSecret != "" {
      volumes := Mounted(volumes, TlsVolume(ServerCert, external.value.serverSecret));
    }
    if external.Some? && external.value.peerSecret != "" {
      volumes := Mounted(volumes, TlsVolume(PeerCert, external.value.peerSecret));
    }
    if external.Some? && external.value.clientSecret != "" {
      volumes := Mounted(volumes, TlsVolume(ClientCert, external.value.clientSecret));
    }
  }

  /** lines 300-342 */
  method AutoVolumes(e: EtcdCluster, before: seq<TlsVolume>) returns (volumes: seq<TlsVolume>)
    requires e.tls.Some?
    ensures forall t :: Mounts(volumes, t) == Mounts(before, t) + WantedGenerated(e, t)
  {
    hide Mounts, NameForEtcdCertSecret;
    volumes := before;
    var auto := e.tls.value.auto;
    if auto.Some? && auto.value.server {
      volumes := Mounted(volumes, TlsVolume(ServerCert, NameForEtcdCertSecret(e.name, ServerCert)));
    }
    if auto.Some? && auto.value.peer {
      volumes := Mounted(volumes, TlsVolume(PeerCert, NameForEtcdCertSecret(e.name, PeerCert)));
    }
    if auto.Some? && auto.value.client {
      volumes := Mounted(volumes, TlsVolume(ClientCert, NameForEtcdCertSecret(e.name, ClientCert)));
    }
  }

  function Mounted(volumes: seq<TlsVolume>, v: TlsVolume): (r: seq<TlsVolume>)
    ensures forall t :: Mounts(r, t) == Mounts(volumes, t) + if v.t == t then [v.secret] else []
  {
    assert forall t :: Mounts(volumes + [v], t) == Mounts(volumes, t) + (if v.t == t then [v.secret] else []) by {
      forall t {
        MountsAppend(volumes, v, t);
      }
    }
    volumes + [v]
  }

  /** Admission accepts the certificate settings exactly when no mount path would be used twice. */
  lemma AcceptedMountsOnce(e: EtcdCluster)
    ensures CertErrors(e) == [] <==> forall t :: |Wanted(e, t)| <= 1
  {
    hide NameForEtcdCertSecret;
    if forall t :: |Wanted(e, t)| <= 1 {
      assert |Wanted(e, ServerCert)| <= 1 && |Wanted(e, PeerCert)| <= 1 && |Wanted(e, ClientCert)| <= 1;
    }
  }

  /** URL schemes agree with the mounts: clients are served https exactly when a server certificate is mounted, peers
      when a peer certificate is. */
  lemma SchemesMatchMounts(e: EtcdCluster)
    ensures IsClientSecure(e) <==> Wanted(e, ServerCert) != []
    ensures IsPeerSecure(e) <==> Wanted(e, PeerCert) != []
  {
    hide NameForEtcdCertSecret;
  }

  lemma MountPathsInFull()
    ensures MountPath(ServerCert) == "/etc/etcd/pki/server" && MountPath(PeerCert) == "/etc/etcd/pki/peer"
    ensures MountPath(ClientCert) == "/etc/etcd/pki/client"
  {
  }

  /** Flag k of m names file f under the mount path of type t. */
  predicate Names(m: map<string, string>, k: string, t: CertType, f: string) {
    k in m && m[k] == MountPath(t) + "/" + f
  }

  /** Every certificate flag of every node names a file of a mounted secret; a flag is there exactly when its secret
      is. */
  lemma CertificateFlags(e: EtcdCluster, appName: string, i: nat)
    ensures var m := ArgsOfNode(e, appName, i);
            && (if Wanted(e, ServerCert) != []
                then Names(m, "trusted-ca-file", ServerCert, CA_FILE)
                    && Names(m, "cert-file", ServerCert, CertFile(ServerCert))
                     && Names(m, "key-file", ServerCert, KeyFile(ServerCert))
                else "trusted-ca-file" !in m && "cert-file" !in m && "key-file" !in m)
            && (if Wanted(e, PeerCert) != []
                then Names(m, "peer-trusted-ca-file", PeerCert, CA_FILE)
                    && Names(m, "peer-cert-file", PeerCert, CertFile(PeerCert))
                     && Names(m, "peer-key-file", PeerCert, KeyFile(PeerCert))
                else "peer-trusted-ca-file" !in m && "peer-cert-file" !in m && "peer-key-file" !in m)
  {
    hide Wanted, IsClientSecure, IsPeerSecure, MemberName, AccessURL, AdvertisedPeerURL, InitialCluster, Scheme,
      PrintInt, Decimal;
    SchemesMatchMounts(e);
    var m0 := map[NAME := MemberName(appName, i)];
    var m1 := WithClientTls(e, m0)
      ["listen-client-urls" := Scheme(IsClientSecure(e)) + "://0.0.0.0:" + PrintInt(ClientPort(e))]
      ["advertise-client-urls" := AccessURL(e)];
    ClientTlsFiles(e, m0);
    var m2 := WithState(e, i, m1)
      [ADVERTISED_PEERS := AdvertisedPeerURL(e, appName, i)]
      [INITIAL_CLUSTER := InitialCluster(e, appName, i)];
    LaterGroups(e, i, m1);
    PeerTlsFiles(e, m2);
    var m3 := WithPeerTls(e, m2)["listen-peer-urls" := Scheme(IsPeerSecure(e)) + "://0.0.0.0:" + Decimal(PEER_PORT)];
    VolumeApart(e, m3);
  }

  const SERVER_FLAGS := {"trusted-ca-file", "cert-file", "key-file"}
  const PEER_FLAGS := {"peer-trusted-ca-file", "peer-cert-file", "peer-key-file"}

  lemma ServerPaths()
    ensures MountPath(ServerCert) + "/" + CA_FILE == "/etc/etcd/pki/server/ca.pem"
    ensures MountPath(ServerCert) + "/" + CertFile(ServerCert) == "/etc/etcd/pki/server/server.pem"
    ensures MountPath(ServerCert) + "/" + KeyFile(ServerCert) == "/etc/etcd/pki/server/server-key.pem"
  {
  }

  lemma PeerPaths()
    ensures MountPath(PeerCert) + "/" + CA_FILE == "/etc/etcd/pki/peer/ca.pem"
    ensures MountPath(PeerCert) + "/" + CertFile(PeerCert) == "/etc/etcd/pki/peer/peer.pem"
    ensures MountPath(PeerCert) + "/" + KeyFile(PeerCert) == "/etc/etcd/pki/peer/peer-key.pem"
  {
  }

  lemma ClientTlsFiles(e: EtcdCluster, m: map<string, string>)
    requires forall k :: k in SERVER_FLAGS + PEER_FLAGS ==> k !in m
    ensures var r := WithClientTls(e, m);
            && (forall k :: k in PEER_FLAGS ==> k !in r)
            && (if IsClientSecure(e)
                then Names(r, "trusted-ca-file", ServerCert, CA_FILE)
                    && Names(r, "cert-file", ServerCert, CertFile(ServerCert))
                     && Names(r, "key-file", ServerCert, KeyFile(ServerCert))
                else forall k :: k in SERVER_FLAGS ==> k !in r)
  {
    hide IsClientSecure, MountPath, CertFile, KeyFile;
    ServerPaths();
  }

  lemma PeerTlsFiles(e: EtcdCluster, m: map<string, string>)
    requires forall k :: k in PEER_FLAGS ==> k !in m
    ensures var r := WithPeerTls(e, m);
            && (forall k :: k in SERVER_FLAGS ==> (k in r <==> k in m) && (k in m ==> r[k] == m[k]))
            && (if IsPeerSecure(e)
                then Names(r, "peer-trusted-ca-file", PeerCert, CA_FILE)
                    && Names(r, "peer-cert-file", PeerCert, CertFile(PeerCert))
                     && Names(r, "peer-key-file", PeerCert, KeyFile(PeerCert))
                else forall k :: k in PEER_FLAGS ==> k !in r)
  {
    hide IsPeerSecure, MountPath, CertFile, KeyFile;
    PeerPaths();
  }

  lemma LaterGroups(e: EtcdCluster, i: nat, m: map<string, string>)
    ensures forall k :: k in SERVER_FLAGS + PEER_FLAGS ==>
              (k in WithState(e, i, m) <==> k in m) && (k in m ==> WithState(e, i, m)[k] == m[k])
  {
  }

  lemma VolumeApart(e: EtcdCluster, m: map<string, string>)
    ensures forall k :: k in SERVER_FLAGS + PEER_FLAGS ==>
        (k in WithVolume(e, m) <==> k in m) && (k in m ==> WithVolume(e, m)[k] == m[k])
  {
  }

  /** Three flags of a node, seen against secret s mounted for type t: they name files of s, which are the CA
      certificate, a certificate, and that certificate's private key. */
  ghost predicate Backed(m: map<string, string>, s: Secret, t: CertType, caFlag: string, certFlag: string,
                         keyFlag: string) {
    && Names(m, caFlag, t, CA_FILE) && File(s, CA_FILE).Certificate?
    && Names(m, certFlag, t, CertFile(t)) && File(s, CertFile(t)).Certificate?
    && Names(m, keyFlag, t, KeyFile(t)) && File(s, KeyFile(t)) == PrivateKey(File(s, CertFile(t)).id)
  }

  /** The generated secret of type t is the only one mounted for it, and the flags of node i are backed by it. */
  ghost predicate Served(m: Store, e: EtcdCluster, t: CertType, args: map<string, string>, caFlag: string,
                         certFlag: string,
                         keyFlag: string) {
    var key := NameForEtcdCertSecret(e.name, t);
    Wanted(e, t) == [key] && key in m && Backed(args, m[key], t, caFlag, certFlag, keyFlag)
  }

  /** After an error-free certificate pass over an admitted spec, every certificate flag of every node points into the
      one secret mounted at that path, at a file that this secret holds. */
  lemma {:induction false} FlagsBackedByStore(f: Fleet, m: Store, e: EtcdCluster, appName: string, i: nat)
    requires e.tls.Some? && e.tls.value.auto.Some? && CertErrors(e) == []
    requires forall t :: Requested(e.tls.value.auto.value, t) ==> Provided(f, m, e.name, t)
    requires forall t :: Requested(e.tls.value.auto.value, t) ==>
               NameForEtcdCertSecret(e.name, t) in m && m[NameForEtcdCertSecret(e.name, t)].owner.Some?
    ensures var auto, args := e.tls.value.auto.value, ArgsOfNode(e, appName, i);
            && (auto.server ==> Served(m, e, ServerCert, args, "trusted-ca-file", "cert-file", "key-file"))
            && (auto.peer ==> Served(m, e, PeerCert, args, "peer-trusted-ca-file", "peer-cert-file", "peer-key-file"))
  {
    hide ArgsOfNode, NameForEtcdCertSecret, Names, CertFile, KeyFile, CASecretName;
    CertificateFlags(e, appName, i);
    AcceptedMountsOnce(e);
    var auto := e.tls.value.auto.value;
    if auto.server {
      OnlyGenerated(e, ServerCert);
      assert Requested(auto, ServerCert);
    }
    if auto.peer {
      OnlyGenerated(e, PeerCert);
      assert Requested(auto, PeerCert);
    }
  }

  lemma {:induction false} OnlyGenerated(e: EtcdCluster, t: CertType)
    requires e.tls.Some? && e.tls.value.auto.Some? && Requested(e.tls.value.auto.value, t) && |Wanted(e, t)| <= 1
    ensures Wanted(e, t) == [NameForEtcdCertSecret(e.name, t)]
  {
    hide NameForEtcdCertSecret;
  }
}
