/** Certificate bootstrap: a CA secret per cluster and the secrets signed with it (ensureCert,
    pkg/controller/etcdcluster/etcd.go, lines 510-575; pkg/controller/etcdcluster/secure/certificate.go).
    Secrets are read from a lister that may lag, created one call at a time, and a pass may stop anywhere. */
module Certificates {
  import opened Cluster

  datatype CertType = CACert | ServerCert | PeerCert | ClientCert

  // ----- names -----

  function Suffix(t: CertType): string {
    match t
    case CACert => "-etcd-cacert"
    case ServerCert => "-etcd-server-cert"
    case PeerCert => "-etcd-peer-cert"
    case ClientCert => "-etcd-client-cert"
  }

  function NameForEtcdCertSecret(etcdName: string, t: CertType): string {
    etcdName + Suffix(t)
  }

  /** Clusters never share a secret name, nor do two secrets of one cluster. */
  lemma SecretNamesInjective(c: string, t: CertType, d: string, u: CertType)
    requires NameForEtcdCertSecret(c, t) == NameForEtcdCertSecret(d, u)
    ensures c == d && t == u
  {
    var s := NameForEtcdCertSecret(c, t);
    FromTheEnd(c, t);
    FromTheEnd(d, u);
    assert t == u;
    assert s[..|s| - |Suffix(t)|] == c && s[..|s| - |Suffix(u)|] == d;
  }

  /** The fifth, sixth and eighth character from the end tell the types apart. */
  lemma FromTheEnd(c: string, t: CertType)
    ensures var s := NameForEtcdCertSecret(c, t); var n := |s|;
            && n >= 12
            && (s[n - 5] == 'a' <==> t == CACert)
            && (s[n - 5] == '-' && s[n - 6] == 't' <==> t == ClientCert)
            && (s[n - 5] == '-' && s[n - 6] == 'r' && s[n - 8] == 'v' <==> t == ServerCert)
            && (s[n - 5] == '-' && s[n - 6] == 'r' && s[n - 8] == 'e' <==> t == PeerCert)
  {
    var s, x := NameForEtcdCertSecret(c, t), Suffix(t);
    assert s[|s| - 5] == x[|x| - 5] && s[|s| - 6] == x[|x| - 6] && s[|s| - 8] == x[|x| - 8];
    match t {
      case CACert => assert x[|x| - 5] == 'a';
      case ServerCert => assert x[|x| - 5] == '-' && x[|x| - 6] == 'r' && x[|x| - 8] == 'v';
      case PeerCert => assert x[|x| - 5] == '-' && x[|x| - 6] == 'r' && x[|x| - 8] == 'e';
      case ClientCert => assert x[|x| - 5] == '-' && x[|x| - 6] == 't';
    }
  }

  // ----- certificates and secrets -----

  /** What a PEM file says, cryptography aside: signer is the key pair whose private key made the signature. */
  datatype Pem = Blank | Certificate(id: nat, signer: nat) | PrivateKey(of: nat)

  datatype Secret = Secret(owner: Option<string>, data: map<string, Pem>)

  const CA_FILE := "ca.pem"
  const CA_KEY_FILE := "ca-key.pem"

  function CertFile(t: CertType): string {
    match t
    case CACert => "ca.pem"
    case ServerCert => "server.pem"
    case PeerCert => "peer.pem"
    case ClientCert => "client.pem"
  }

  function KeyFile(t: CertType): string {
    match t
    case CACert => "ca-key.pem"
    case ServerCert => "server-key.pem"
    case PeerCert => "peer-key.pem"
    case ClientCert => "client-key.pem"
  }

  /** Indexing a Go map: a missing file reads as empty. */
  function File(s: Secret, name: string): Pem {
    if name in s.data then s.data[name] else Blank
  }

  function NewEtcdCASecret(c: string, n: nat): Secret {
    Secret(Some(c), map[CA_FILE := Certificate(n, n), CA_KEY_FILE := PrivateKey(n)])
  }

  /** GenerateCertAndKey with a new key pair n; it fails on an empty or unreadable CA. */
  function GenerateCertAndKey(caCert: Pem, caKey: Pem, n: nat): Option<(Pem, Pem)> {
    if caCert.Certificate? && caKey.PrivateKey? then Some((Certificate(n, caKey.of), PrivateKey(n))) else None
  }

  function NewEtcdCertSecret(c: string, ca: Secret, t: CertType, n: nat): Option<Secret> {
    if t == CACert then None
    else
      match GenerateCertAndKey(File(ca, CA_FILE), File(ca, CA_KEY_FILE), n)
      case None => None
      case Some((cert, key)) =>
        Some(Secret(Some(c), map[CA_FILE := File(ca, CA_FILE), CertFile(t) := cert, KeyFile(t) := key]))
  }

  /** Secret s holds a certificate of type t made with ca, and ca's certificate beside it. */
  predicate SignedWith(s: Secret, ca: Secret, t: CertType) {
    && File(ca, CA_FILE).Certificate? && File(ca, CA_KEY_FILE).PrivateKey?
    && File(s, CA_FILE) == File(ca, CA_FILE)
    && File(s, CertFile(t)).Certificate? && File(s, CertFile(t)).signer == File(ca, CA_KEY_FILE).of
    && File(s, KeyFile(t)) == PrivateKey(File(s, CertFile(t)).id)
  }

  /** A client that trusts the CA certificate in s accepts the certificate in s. */
  predicate Verifies(s: Secret, t: CertType) {
    File(s, CA_FILE).Certificate? && File(s, CertFile(t)).Certificate?
        && File(s, CertFile(t)).signer == File(s, CA_FILE).id
  }

  /** A new secret is signed with the CA; it verifies if and only if the CA's key belongs to the CA's certificate,
      which it does in a CA the operator made. */
  lemma NewSecretSigned(c: string, ca: Secret, t: CertType, n: nat)
    ensures NewEtcdCertSecret(c, ca, t, n).Some?
        <==> t != CACert && File(ca, CA_FILE).Certificate? && File(ca, CA_KEY_FILE).PrivateKey?
    ensures NewEtcdCertSecret(c, ca, t, n).Some? ==>
              var s := NewEtcdCertSecret(c, ca, t, n).value;
              SignedWith(s, ca, t) && (Verifies(s, t) <==> File(ca, CA_KEY_FILE).of == File(ca, CA_FILE).id)
    ensures forall d, m :: ca == NewEtcdCASecret(d, m) && t != CACert ==>
              NewEtcdCertSecret(c, ca, t, n).Some? && Verifies(NewEtcdCertSecret(c, ca, t, n).value, t)
  {
  }

  /** The secrets' names and contents in full. */
  lemma {:induction false} SecretNamesInFull(c: string)
    ensures NameForEtcdCertSecret(c, CACert) == c + "-etcd-cacert"
    ensures NameForEtcdCertSecret(c, ServerCert) == c + "-etcd-server-cert"
    ensures NameForEtcdCertSecret(c, PeerCert) == c + "-etcd-peer-cert"
    ensures NameForEtcdCertSecret(c, ClientCert) == c + "-etcd-client-cert"
  {
  }

  lemma {:induction false} SecretInFull(c: string, ca: Secret, t: CertType, n: nat)
    ensures NewEtcdCASecret(c, n).owner == Some(c) && NewEtcdCASecret(c, n).data.Keys == {"ca.pem", "ca-key.pem"}
    ensures NewEtcdCertSecret(c, ca, t, n).Some? ==>
              var s := NewEtcdCertSecret(c, ca, t, n).value;
              && s.owner == Some(c) && "ca.pem" in s.data && s.data["ca.pem"] == File(ca, "ca.pem")
              && match t
                 case CACert => false
                 case ServerCert =>
                   && s.data.Keys == {"ca.pem", "server.pem", "server-key.pem"}
                   && Paired(s, "server.pem", "server-key.pem")
                 case PeerCert =>
                   && s.data.Keys == {"ca.pem", "peer.pem", "peer-key.pem"}
                   && Paired(s, "peer.pem", "peer-key.pem")
                 case ClientCert =>
                   && s.data.Keys == {"ca.pem", "client.pem", "client-key.pem"}
                   && Paired(s, "client.pem", "client-key.pem")
  {
    assert |"ca.pem"| == 6 && |"ca-key.pem"| == 10;
    assert |"server.pem"| == |"client.pem"| == 10 && |"peer.pem"| == 8;
    assert |"server-key.pem"| == |"client-key.pem"| == 14 && |"peer-key.pem"| == 12;
  }

  /** A certificate and its private key. */
  predicate Paired(s: Secret, certFile: string, keyFile: string) {
    File(s, certFile).Certificate? && File(s, keyFile) == PrivateKey(File(s, certFile).id)
  }

  // ----- what can happen to the secrets of a namespace -----

  /** The TLS settings of the clusters in the namespace, by cluster name. */
  type Fleet = map<string, AutoCerts>

  type Store = map<string, Secret>

  function CASecretName(c: string, auto: AutoCerts): string {
    if |auto.caSecret| == 0 then NameForEtcdCertSecret(c, CACert) else auto.caSecret
  }

  predicate Requested(auto: AutoCerts, t: CertType) {
    match t
    case CACert => false
    case ServerCert => auto.server
    case PeerCert => auto.peer
    case ClientCert => auto.client
  }

  datatype Action =
    | Foreign(key: string, secret: Secret)         // somebody else creates a secret
    | MakeCA(c: string, n: nat)                    // the runner of cluster c creates its CA
    | MakeCert(c: string, t: CertType, n: nat)     // the runner of cluster c creates a certificate

  function Key(a: Action): string {
    match a
    case Foreign(key, _) => key
    case MakeCA(c, _) => NameForEtcdCertSecret(c, CACert)
    case MakeCert(c, t, _) => NameForEtcdCertSecret(c, t)
  }

  predicate Enabled(f: Fleet, m: Store, a: Action) {
    && Key(a) !in m
    && match a
       case Foreign(_, secret) => secret.owner == None
       case MakeCA(c, _) => c in f && |f[c].caSecret| == 0
       case MakeCert(c, t, n) =>
         && c in f && Requested(f[c], t) && CASecretName(c, f[c]) in m
         && NewEtcdCertSecret(c, m[CASecretName(c, f[c])], t, n).Some?
  }

  function Made(f: Fleet, m: Store, a: Action): Secret
    requires Enabled(f, m, a)
  {
    match a
    case Foreign(_, secret) => secret
    case MakeCA(c, n) => NewEtcdCASecret(c, n)
    case MakeCert(c, t, n) => NewEtcdCertSecret(c, m[CASecretName(c, f[c])], t, n).value
  }

  function Apply(f: Fleet, m: Store, a: Action): Store
    requires Enabled(f, m, a)
  {
    m[Key(a) := Made(f, m, a)]
  }

  ghost predicate Runs(f: Fleet, m: Store, acts: seq<Action>)
    decreases |acts|
  {
    acts != [] ==> Enabled(f, m, acts[0]) && Runs(f, Apply(f, m, acts[0]), acts[1..])
  }

  ghost function Exec(f: Fleet, m: Store, acts: seq<Action>): Store
    requires Runs(f, m, acts)
    decreases |acts|
  {
    if acts == [] then m else Exec(f, Apply(f, m, acts[0]), acts[1..])
  }

  /** m extends l: whatever l holds is in m unchanged. */
  ghost predicate Extends(m: Store, l: Store) {
    forall key :: key in l ==> key in m && m[key] == l[key]
  }

  /** A secret that belongs to a cluster is its CA secret, or one that its settings ask for, signed with the one CA
      secret the cluster uses. */
  ghost predicate Sound(f: Fleet, m: Store, key: string)
    requires key in m && m[key].owner.Some?
  {
    var c := m[key].owner.value;
    c in f &&
    (|| (key == NameForEtcdCertSecret(c, CACert) && |f[c].caSecret| == 0 && exists n :: m[key] == NewEtcdCASecret(c, n))
     || (exists t :: t != CACert && key == NameForEtcdCertSecret(c, t) && Requested(f[c], t)
                     && CASecretName(c, f[c]) in m && SignedWith(m[key], m[CASecretName(c, f[c])], t)))
  }

  ghost predicate AllSound(f: Fleet, m: Store) {
    forall key :: key in m && m[key].owner.Some? ==> Sound(f, m, key)
  }

  lemma {:induction false} SoundInExtension(f: Fleet, l: Store, m: Store, key: string)
    requires Extends(m, l) && key in l && l[key].owner.Some? && Sound(f, l, key)
    ensures Sound(f, m, key)
  {
    hide SignedWith, NameForEtcdCertSecret, CASecretName;
  }

  lemma {:induction false} StepKeepsSound(f: Fleet, m: Store, a: Action)
    requires AllSound(f, m) && Enabled(f, m, a)
    ensures AllSound(f, Apply(f, m, a)) && Extends(Apply(f, m, a), m)
  {
    hide SignedWith, NameForEtcdCertSecret, CASecretName, Sound, NewEtcdCertSecret, NewEtcdCASecret;
    var t := Apply(f, m, a);
    forall key | key in t && t[key].owner.Some? ensures Sound(f, t, key) {
      if key == Key(a) {
        NewOneSound(f, m, a);
      } else {
        SoundInExtension(f, m, t, key);
      }
    }
  }

  lemma {:induction false} NewOneSound(f: Fleet, m: Store, a: Action)
    requires Enabled(f, m, a) && Made(f, m, a).owner.Some?
    ensures Sound(f, Apply(f, m, a), Key(a))
  {
    match a {
      case Foreign(_, _) =>
      case MakeCA(c, n) =>
        hide NameForEtcdCertSecret;
        assert Apply(f, m, a)[Key(a)] == NewEtcdCASecret(c, n);
      case MakeCert(c, t, n) =>
        var ca := m[CASecretName(c, f[c])];
        NewSecretSigned(c, ca, t, n);
        hide NameForEtcdCertSecret, SignedWith, CASecretName;
        assert SignedWith(Apply(f, m, a)[Key(a)], ca, t);
    }
  }

  lemma {:induction false} RunKeepsSound(f: Fleet, m: Store, acts: seq<Action>)
    requires AllSound(f, m) && Runs(f, m, acts)
    ensures AllSound(f, Exec(f, m, acts)) && Extends(Exec(f, m, acts), m)
    decreases |acts|
  {
    hide Enabled, Apply, AllSound;
    if acts != [] {
      StepKeepsSound(f, m, acts[0]);
      RunKeepsSound(f, Apply(f, m, acts[0]), acts[1..]);
    }
  }

  /** Whatever the runners of the namespace do and wherever they stop: a generated certificate under a cluster's name
      belongs to that cluster, which has asked for it, and carries and is signed with the one CA secret that the
      cluster uses. */
  lemma {:induction false} OneCAPerCluster(f: Fleet, m: Store, acts: seq<Action>, c: string, t: CertType)
    requires (forall key :: key in m ==> m[key].owner == None) && Runs(f, m, acts)
    requires c in f && t != CACert
    requires var s := Exec(f, m, acts); NameForEtcdCertSecret(c, t) in s && s[NameForEtcdCertSecret(c, t)].owner.Some?
    ensures var s := Exec(f, m, acts);
            && s[NameForEtcdCertSecret(c, t)].owner == Some(c) && Requested(f[c], t)
            && CASecretName(c, f[c]) in s && SignedWith(s[NameForEtcdCertSecret(c, t)], s[CASecretName(c, f[c])], t)
  {
    hide Runs, Exec, SignedWith;
    RunKeepsSound(f, m, acts);
    OwnSound(f, Exec(f, m, acts), c, t);
  }

  lemma {:induction false} OwnSound(f: Fleet, s: Store, c: string, t: CertType)
    requires AllSound(f, s) && c in f && t != CACert
    requires NameForEtcdCertSecret(c, t) in s && s[NameForEtcdCertSecret(c, t)].owner.Some?
    ensures && s[NameForEtcdCertSecret(c, t)].owner == Some(c) && Requested(f[c], t)
            && CASecretName(c, f[c]) in s && SignedWith(s[NameForEtcdCertSecret(c, t)], s[CASecretName(c, f[c])], t)
  {
    hide SignedWith, NameForEtcdCertSecret, CASecretName;
    var key := NameForEtcdCertSecret(c, t);
    assert Sound(f, s, key);
    var d := s[key].owner.value;
    forall u | key == NameForEtcdCertSecret(d, u) ensures d == c && u == t {
      SecretNamesInjective(d, u, c, t);
    }
  }

  /** Secrets must not be deleted: once a CA secret is, the next pass makes another and the old certificates stay. */
  lemma {:induction false} DeletedCAIsReplaced(f: Fleet, m: Store, c: string, t: CertType, n: nat)
    requires AllSound(f, m) && c in f && |f[c].caSecret| == 0 && t != CACert
    requires NameForEtcdCertSecret(c, t) in m && m[NameForEtcdCertSecret(c, t)].owner.Some?
    requires File(m[NameForEtcdCertSecret(c, t)], CA_FILE) != Certificate(n, n)
    ensures var lost := m - {NameForEtcdCertSecret(c, CACert)};
            && Enabled(f, lost, MakeCA(c, n))
            && !AllSound(f, Apply(f, lost, MakeCA(c, n)))
  {
    if NameForEtcdCertSecret(c, CACert) == NameForEtcdCertSecret(c, t) {
      SecretNamesInjective(c, CACert, c, t);
    }
    hide NameForEtcdCertSecret;
    var lost := m - {NameForEtcdCertSecret(c, CACert)};
    var s := Apply(f, lost, MakeCA(c, n));
    assert s[CASecretName(c, f[c])] == NewEtcdCASecret(c, n);
    if AllSound(f, s) {
      OwnSound(f, s, c, t);
      assert false;
    }
  }

  // ----- the code -----

  /** The API server's secrets and the lister's copy of them, used by the runners of all clusters in the namespace. */
  class Namespace {
    const fleet: Fleet
    var store: Store
    var cached: Store
    const calm: bool                // calls succeed, the lister is current and nobody else acts
    ghost const start: Store
    ghost var acts: seq<Action>

    ghost predicate Valid()
      reads this
    {
      && Runs(fleet, start, acts) && Exec(fleet, start, acts) == store && AllSound(fleet, store)
      && Extends(store, cached) && (calm ==> cached == store)
    }

    twostate predicate Continued()
      reads this
    {
      old(acts) <= acts && Extends(store, old(store))
    }

    constructor (fleet: Fleet, store: Store, calm: bool)
      requires forall key :: key in store ==> store[key].owner == None
      ensures Valid() && this.fleet == fleet && this.store == start == store && acts == [] && this.calm == calm
    {
      this.fleet, this.store, start, acts, this.calm := fleet, store, store, [], calm;
      cached := if calm then store else map[];
    }

    method Happen(a: Action)
      requires Valid() && Enabled(fleet, store, a)
      modifies this`store, this`acts, this`cached
      ensures Valid() && Continued() && acts == old(acts) + [a] && store == old(Apply(fleet, store, a))
      ensures cached == if calm then store else old(cached)
    {
      hide AllSound, Enabled, Apply;
      StepKeepsSound(fleet, store, a);
      OneMore(fleet, start, acts, a);
      store := Apply(fleet, store, a);
      cached := if calm then store else cached;
      acts := acts + [a];
    }

    /** Other runners and users create secrets, and the lister catches up, in any order. */
    method Others()
      requires Valid()
      modifies this
      ensures Valid() && Continued() && Extends(cached, old(cached))
      ensures calm ==> store == old(store) && acts == old(acts)
    {
      hide AllSound, Enabled, Runs, Exec;
      var n: nat := *;
      while n > 0 && !calm
        invariant Valid() && Continued() && Extends(cached, old(cached))
        invariant calm ==> store == old(store) && acts == old(acts)
        decreases n
      {
        var a: Action := *;
        var key: string := *;
        if * {
          if Enabled(fleet, store, a) {
            Happen(a);
          }
        } else if key in store {
          cached := cached[key := store[key]];
        }
        n := n - 1;
      }
    }

    method ListerGet(key: string) returns (found: Option<Secret>)
      requires Valid()
      modifies this
      ensures Valid() && Continued()
      ensures found.Some? ==> key in store && store[key] == found.value
      ensures calm ==> store == old(store) && found == if key in store then Some(store[key]) else None
    {
      hide AllSound, Runs, Exec;
      Others();
      found := if key in cached then Some(cached[key]) else None;
    }

    /** Create refuses a name that exists; it may also fail, before or after it has taken effect. */
    method Create(secret: Secret, a: Action) returns (ok: bool)
      requires Valid() && !a.Foreign?
      requires (Key(a) !in store ==> Enabled(fleet, store, a) && Made(fleet, store, a) == secret)
      requires a.MakeCert? ==> a.c in fleet && CASecretName(a.c, fleet[a.c]) in store
      modifies this
      ensures Valid() && Continued()
      ensures ok ==> Key(a) in store && store[Key(a)] == secret
      ensures calm && Key(a) !in old(store) ==> ok && store == old(store)[Key(a) := secret]
    {
      hide AllSound, Runs, Exec, NewEtcdCertSecret, NewEtcdCASecret, NameForEtcdCertSecret, CASecretName;
      Others();
      var reached: bool := *;
      if (!reached && !calm) || Key(a) in store {
        return false;
      }
      Happen(a);
      ok := *;
      ok := ok || calm;
    }
  }

  lemma {:induction false} OneMore(f: Fleet, m: Store, acts: seq<Action>, a: Action)
    requires Runs(f, m, acts) && Enabled(f, Exec(f, m, acts), a)
    ensures Runs(f, m, acts + [a]) && Exec(f, m, acts + [a]) == Apply(f, Exec(f, m, acts), a)
    decreases |acts|
  {
    hide Enabled, Apply;
    if acts != [] {
      assert (acts + [a])[1..] == acts[1..] + [a];
      OneMore(f, Apply(f, m, acts[0]), acts[1..], a);
    } else {
      assert acts + [a] == [a];
    }
  }

  /** lines 510-575. If it reports no error, every requested secret exists; those the operator made are signed with the
      cluster's CA secret. When nothing gets in the way it reports none exactly if what is requested can be provided.
      This holds for every order of the loop over the three types. */
  method EnsureCert(w: Namespace, e: EtcdCluster) returns (ok: bool)
    requires w.Valid()
    requires e.tls.Some? && e.tls.value.auto.Some? ==> e.name in w.fleet && w.fleet[e.name] == e.tls.value.auto.value
    modifies w
    ensures w.Valid() && w.Continued()
    ensures ok && e.tls.Some? && e.tls.value.auto.Some? ==>
              && CASecretName(e.name, e.tls.value.auto.value) in w.store
              && forall t :: Requested(e.tls.value.auto.value, t) ==> Provided(w.fleet, w.store, e.name, t)
    ensures w.calm ==> (ok <==> e.tls.Some? && e.tls.value.auto.Some? ==> CanProvide(w.fleet, old(w.store), e.name))
  {
    hide AllSound, Runs, Exec, Enabled, Apply, Provided;
    if e.tls.None? || e.tls.value.auto.None? {
      return true;
    }
    var auto := e.tls.value.auto.value;
    var caSecret;
    ghost var before := w.store;
    ok, caSecret := EnsureCA(w, e.name);
    if !ok {
      return;
    }
    if w.calm {
      OnlyCAAdded(w.fleet, before, w.store, e.name);
    }
    var todo := {PeerCert, ServerCert, ClientCert};
    while todo != {}
      invariant w.Valid() && w.Continued() && CACert !in todo
      invariant w.calm ==> OnTheWay(w.fleet, before, w.store, e.name, todo)
      invariant CASecretName(e.name, auto) in w.store && w.store[CASecretName(e.name, auto)] == caSecret
      invariant forall t :: Requested(auto, t) && t !in todo ==> Provided(w.fleet, w.store, e.name, t)
      decreases |todo|
    {
      var t :| t in todo;
      todo := todo - {t};
      if Requested(auto, t) {
        ghost var was := w.store;
        ok := EnsureOne(w, e.name, caSecret, t);
        if w.calm {
          OneFurther(w.fleet, before, was, w.store, e.name, todo + {t}, t, ok);
          assert todo + {t} - {t} == todo;
        }
        if !ok {
          return;
        }
        forall u | Provided(w.fleet, was, e.name, u) ensures Provided(w.fleet, w.store, e.name, u) {
          ProvidedInExtension(w.fleet, was, w.store, e.name, u);
        }
      }
    }
    ok := true;
  }

  /** The CA secret for cluster c, once there is one, can sign. A CA that the operator makes always can. */
  predicate CanSign(m: Store, key: string) {
    key in m ==> File(m[key], CA_FILE).Certificate? && File(m[key], CA_KEY_FILE).PrivateKey?
  }

  /** A CA named by the user is there, and whatever is requested exists already or can be signed. */
  predicate CanProvide(f: Fleet, m: Store, c: string)
    requires c in f
  {
    && (f[c].caSecret != "" ==> f[c].caSecret in m)
    && (CanSign(m, CASecretName(c, f[c]))
        || forall t :: Requested(f[c], t) ==> NameForEtcdCertSecret(c, t) in m)
  }

  /** The types in todo are as they were, the CA can sign if it could before, and every other requested type was there
      or could be signed. */
  ghost predicate OnTheWay(f: Fleet, before: Store, m: Store, c: string, todo: set<CertType>)
    requires c in f
  {
    && (f[c].caSecret != "" ==> f[c].caSecret in before)
    && (CanSign(m, CASecretName(c, f[c])) <==> CanSign(before, CASecretName(c, f[c])))
    && (forall t :: t in todo ==> (NameForEtcdCertSecret(c, t) in m <==> NameForEtcdCertSecret(c, t) in before))
    && forall t :: Requested(f[c], t) && t !in todo ==>
         CanSign(before, CASecretName(c, f[c])) || NameForEtcdCertSecret(c, t) in before
  }

  lemma {:induction false} OnlyCAAdded(f: Fleet, before: Store, m: Store, c: string)
    requires c in f && Extends(m, before) && (f[c].caSecret != "" ==> f[c].caSecret in before)
    requires forall key :: key in m ==> key in before || key == NameForEtcdCertSecret(c, CACert)
    requires CanSign(m, CASecretName(c, f[c])) <==> CanSign(before, CASecretName(c, f[c]))
    ensures OnTheWay(f, before, m, c, {PeerCert, ServerCert, ClientCert})
  {
    hide NameForEtcdCertSecret, CanSign, CASecretName;
    forall t | t != CACert ensures NameForEtcdCertSecret(c, t) != NameForEtcdCertSecret(c, CACert) {
      if NameForEtcdCertSecret(c, t) == NameForEtcdCertSecret(c, CACert) {
        SecretNamesInjective(c, t, c, CACert);
      }
    }
  }

  lemma {:induction false} OneFurther(f: Fleet, before: Store, l: Store, m: Store, c: string, todo: set<CertType>,
                                      t: CertType, ok: bool)
    requires c in f && OnTheWay(f, before, l, c, todo) && t in todo && Requested(f[c], t) && Extends(m, l)
    requires CASecretName(c, f[c]) in l
    requires forall key :: key in m ==> key in l || key == NameForEtcdCertSecret(c, t)
    requires ok <==> NameForEtcdCertSecret(c, t) in l || CanSign(l, CASecretName(c, f[c]))
    ensures if ok then OnTheWay(f, before, m, c, todo - {t}) else !CanProvide(f, before, c)
  {
    hide NameForEtcdCertSecret, CASecretName;
    forall u | u != t ensures NameForEtcdCertSecret(c, u) != NameForEtcdCertSecret(c, t) {
      if NameForEtcdCertSecret(c, u) == NameForEtcdCertSecret(c, t) {
        SecretNamesInjective(c, u, c, t);
      }
    }
  }

  /** A secret of type t exists, and if it belongs to a cluster, it is cluster c's and signed with c's CA secret. */
  ghost predicate Provided(f: Fleet, m: Store, c: string, t: CertType) {
    var key := NameForEtcdCertSecret(c, t);
    && key in m && c in f && CASecretName(c, f[c]) in m
    && (m[key].owner.Some? ==> m[key].owner == Some(c) && SignedWith(m[key], m[CASecretName(c, f[c])], t))
  }

  lemma {:induction false} ProvidedInExtension(f: Fleet, l: Store, m: Store, c: string, t: CertType)
    requires Extends(m, l) && Provided(f, l, c, t)
    ensures Provided(f, m, c, t)
  {
    hide SignedWith, NameForEtcdCertSecret, CASecretName;
  }

  /** lines 521-547 */
  method EnsureCA(w: Namespace, c: string) returns (ok: bool, caSecret: Secret)
    requires w.Valid() && c in w.fleet
    modifies w
    ensures w.Valid() && w.Continued()
    ensures ok ==> CASecretName(c, w.fleet[c]) in w.store && w.store[CASecretName(c, w.fleet[c])] == caSecret
    ensures w.calm ==>
              && (ok <==> w.fleet[c].caSecret != "" ==> w.fleet[c].caSecret in old(w.store))
              && (forall key :: key in w.store ==> key in old(w.store) || key == NameForEtcdCertSecret(c, CACert))
              && (CanSign(w.store, CASecretName(c, w.fleet[c])) <==> CanSign(old(w.store), CASecretName(c, w.fleet[c])))
  {
    hide AllSound, Runs, Exec;
    caSecret := Secret(None, map[]);
    if |w.fleet[c].caSecret| == 0 {
      var existCA := w.ListerGet(NameForEtcdCertSecret(c, CACert));
      if existCA.None? {
        var n: nat := *;
        caSecret := NewEtcdCASecret(c, n);
        ok := w.Create(caSecret, MakeCA(c, n));
      } else {
        ok, caSecret := true, existCA.value;
      }
    } else {
      var existCA := w.ListerGet(w.fleet[c].caSecret);
      if existCA.None? {
        return false, caSecret;
      }
      ok, caSecret := true, existCA.value;
    }
  }

  /** lines 556-572 */
  method EnsureOne(w: Namespace, c: string, caSecret: Secret, t: CertType) returns (ok: bool)
    requires w.Valid() && c in w.fleet && Requested(w.fleet[c], t)
    requires CASecretName(c, w.fleet[c]) in w.store && w.store[CASecretName(c, w.fleet[c])] == caSecret
    modifies w
    ensures w.Valid() && w.Continued()
    ensures ok ==> Provided(w.fleet, w.store, c, t)
    ensures w.calm ==>
              && (ok <==> NameForEtcdCertSecret(c, t) in old(w.store)
                          || CanSign(old(w.store), CASecretName(c, w.fleet[c])))
              && forall key :: key in w.store ==> key in old(w.store) || key == NameForEtcdCertSecret(c, t)
  {
    if CASecretName(c, w.fleet[c]) in w.store {
      NewSecretSigned(c, w.store[CASecretName(c, w.fleet[c])], t, 0);
    }
    hide AllSound, Runs, Exec, SignedWith, CASecretName, NameForEtcdCertSecret, NewEtcdCertSecret;
    var found := w.ListerGet(NameForEtcdCertSecret(c, t));
    ok := true;
    if found.None? {
      var n: nat := *;
      var certSecret := NewEtcdCertSecret(c, caSecret, t, n);
      if certSecret.None? {
        return false;
      }
      ok := w.Create(certSecret.value, MakeCert(c, t, n));
    }
    if ok && w.store[NameForEtcdCertSecret(c, t)].owner.Some? {
      OwnSound(w.fleet, w.store, c, t);
    }
  }
}
