/** The labels of the pod templates through every run, and whom the access service reaches because of them
    (DefaultTAppTemplateForEtcd and ApplyEtcdDefaultTemplate, pkg/controller/etcdcluster/tapp.go, lines 71-176; the new
    ordinal's template, pkg/controller/etcdcluster/etcd.go, lines 636-645). */
module PodLabels {
  import opened Text
  import opened Cluster
  import opened NodeArgs
  import opened Protocol
  import opened ProtocolSafety
  import opened ScalingTheorems
  import EditDiscipline
  import opened AccessService

  /** Beside the voting label, which is true or false, a template has the user's labels and the cluster's name, which
      wins where the user has set it too. */
  ghost predicate Carries(labels: map<string, string>, name: string, user: map<string, string>) {
    && VOTING_LABEL in labels && (labels[VOTING_LABEL] == "true" || labels[VOTING_LABEL] == "false")
    && CLUSTER_LABEL in labels && labels[CLUSTER_LABEL] == name
    && forall key :: key != VOTING_LABEL && key != CLUSTER_LABEL ==>
         (key in labels <==> key in user) && (key in user ==> labels[key] == user[key])
  }

  /** Two templates differ at most in their arguments and their voting label. */
  ghost predicate SameButVote(a: PodTemplate, b: PodTemplate) {
    && a.settings == b.settings && a.fixed == b.fixed
    && forall key :: key != VOTING_LABEL ==>
         (key in a.labels <==> key in b.labels) && (key in a.labels ==> a.labels[key] == b.labels[key])
  }

  // ----- single writes -----

  /** The first template: it votes unless the spec makes ordinal 0 the learner. */
  lemma {:induction false} SeedCarries(e: EtcdCluster)
    ensures var app := SeedTApp(e);
            && app.pool.Keys == {"0"}
            && Carries(app.pool["0"].labels, e.name, e.podLabels)
            && app.pool["0"].labels[VOTING_LABEL] == (if LearnerIs(e, 0) then "false" else "true")
  {
    hide LearnerIs, InitPool, ExtraPool;
    var tpl := DefaultTemplate(e);
    var raw := TApp(NameForTApp(e), 1, map[Decimal(0) := tpl.(labels := tpl.labels[VOTING_LABEL := VotingLabel(e, 0)])],
      map[Decimal(0) := Decimal(0)], PodCounts(0, 0));
    WithArgsKeeps(e, raw);
    assert Decimal(0) == "0";
    assert SeedTApp(e) == WithArgs(e, raw);
    LabelKeysDiffer();
  }

  lemma {:induction false} WithArgsKeepsTemplates(e: EtcdCluster, app: TApp, key: string)
    requires key in app.pool
    ensures key in WithArgs(e, app).pool
    ensures WithArgs(e, app).pool[key] == app.pool[key].(args := WithArgs(e, app).pool[key].args)
  {
  }

  /** The new ordinal's template is a copy of template "0" in all but the arguments, and does not vote if the ordinal is
      the learner; every other template keeps all but its arguments. */
  lemma {:induction false} NewOrdinalTemplate(e: EtcdCluster, app: TApp, spec: EtcdCluster)
    requires WellFormed(app, spec)
    ensures var up, last := ScaledUp(e, app), Decimal(app.replicas);
            && up == app.(replicas := app.replicas + 1, pool := up.pool, templates := app.templates[last := last])
            && "0" in app.pool && last !in app.pool && up.pool.Keys == app.pool.Keys + {last}
            && SameButVote(up.pool[last], app.pool["0"])
            && (if LearnerIs(e, app.replicas)
                then VOTING_LABEL in up.pool[last].labels && up.pool[last].labels[VOTING_LABEL] == "false"
                else up.pool[last].labels == app.pool["0"].labels)
            && forall key :: key in app.pool ==> up.pool[key] == app.pool[key].(args := up.pool[key].args)
  {
    hide LearnerIs, WithArgs, Decimal;
    FirstAndNext(app, spec);
    hide WellFormed;
    var raw := Extended(e, app);
    WithArgsKeeps(e, raw);
    ExtendedAt(e, app);
    hide Extended, NewTemplate;
    forall key | key in raw.pool
      ensures ScaledUp(e, app).pool[key] == raw.pool[key].(args := ScaledUp(e, app).pool[key].args)
    {
      WithArgsKeepsTemplates(e, raw, key);
    }
  }

  lemma {:induction false} FirstAndNext(app: TApp, spec: EtcdCluster)
    requires WellFormed(app, spec)
    ensures "0" in app.pool && Decimal(0) == "0" && Decimal(app.replicas) !in app.pool
  {
    OrdinalWithin(0, app.replicas);
    OrdinalWithin(app.replicas, app.replicas);
    assert Decimal(0) == "0";
  }

  lemma {:induction false} ExtendedAt(e: EtcdCluster, app: TApp)
    requires "0" in app.pool && Decimal(0) == "0" && Decimal(app.replicas) !in app.pool
    ensures var raw, last := Extended(e, app), Decimal(app.replicas);
            && raw == app.(replicas := app.replicas + 1, pool := raw.pool, templates := app.templates[last := last])
            && raw.pool.Keys == app.pool.Keys + {last}
            && (forall key :: key in app.pool ==> raw.pool[key] == app.pool[key])
            && SameButVote(raw.pool[last], app.pool["0"])
            && (if LearnerIs(e, app.replicas)
                then VOTING_LABEL in raw.pool[last].labels && raw.pool[last].labels[VOTING_LABEL] == "false"
                else raw.pool[last].labels == app.pool["0"].labels)
  {
    hide LearnerIs, Decimal;
  }

  /** Scaling down takes away the last ordinal's template and entry, and changes nothing else. */
  lemma {:induction false} LastOrdinalDropped(app: TApp)
    requires app.replicas > 0
    ensures var down, last := ScaledDown(app), Decimal(app.replicas - 1);
            && down == app.(replicas := app.replicas - 1, pool := down.pool, templates := down.templates)
            && down.pool.Keys == app.pool.Keys - {last} && down.templates.Keys == app.templates.Keys - {last}
            && (forall key :: key in down.pool ==> down.pool[key] == app.pool[key])
            && forall key :: key in down.templates ==> down.templates[key] == app.templates[key]
  {
    hide Decimal;
  }

  /** The label change makes every template vote, and changes nothing else. */
  lemma {:induction false} OnlyVotesChange(app: TApp)
    ensures var f := Flipped(app);
            && f == app.(pool := f.pool) && f.pool.Keys == app.pool.Keys
            && forall key :: key in app.pool ==>
                 && SameButVote(f.pool[key], app.pool[key]) && f.pool[key].args == app.pool[key].args
                 && VOTING_LABEL in f.pool[key].labels && f.pool[key].labels[VOTING_LABEL] == "true"
  {
  }

  // ----- every run -----

  ghost predicate AllCarry(s: State, name: string, user: map<string, string>) {
    forall v: nat :: v < |s.versions| ==> PoolCarries(s.versions[v], name, user)
  }

  ghost predicate PoolCarries(app: TApp, name: string, user: map<string, string>) {
    forall key :: key in app.pool ==> Carries(app.pool[key].labels, name, user)
  }

  lemma {:induction false} ScaledUpCarries(e: EtcdCluster, app: TApp, spec: EtcdCluster, name: string,
                                           user: map<string, string>)
    requires WellFormed(app, spec) && PoolCarries(app, name, user)
    ensures PoolCarries(ScaledUp(e, app), name, user)
  {
    NewOrdinalTemplate(e, app, spec);
    hide ScaledUp, LearnerIs, WellFormed, Decimal, Carries, SameButVote;
    var up, last := ScaledUp(e, app), Decimal(app.replicas);
    CopyCarries(up.pool[last], app.pool["0"], name, user) by { CarriesAt(app, "0", name, user); }
    hide PoolCarries;
    forall key | key in up.pool ensures Carries(up.pool[key].labels, name, user) {
      if key in app.pool {
        CarriesAt(app, key, name, user);
        assert up.pool[key].labels == app.pool[key].labels;
      }
    }
    EveryCarries(up, name, user);
  }

  lemma {:induction false} CarriesAt(app: TApp, key: string, name: string, user: map<string, string>)
    requires PoolCarries(app, name, user) && key in app.pool
    ensures Carries(app.pool[key].labels, name, user)
  {
    hide Carries;
  }

  lemma {:induction false} EveryCarries(app: TApp, name: string, user: map<string, string>)
    requires forall key :: key in app.pool ==> Carries(app.pool[key].labels, name, user)
    ensures PoolCarries(app, name, user)
  {
    hide Carries;
  }

  lemma {:induction false} CopyCarries(a: PodTemplate, b: PodTemplate, name: string, user: map<string, string>)
    requires SameButVote(a, b) && Carries(b.labels, name, user)
    requires a.labels == b.labels || (VOTING_LABEL in a.labels && a.labels[VOTING_LABEL] == "false")
    ensures Carries(a.labels, name, user)
  {
    LabelKeysDiffer();
  }

  lemma LabelKeysDiffer()
    ensures CLUSTER_LABEL != VOTING_LABEL
  {
    assert CLUSTER_LABEL[|CLUSTER_LABEL| - 1] != VOTING_LABEL[|VOTING_LABEL| - 1];
  }

  lemma {:induction false} RefreshedCarries(e: EtcdCluster, app: TApp, name: string, user: map<string, string>)
    requires PoolCarries(app, name, user)
    ensures PoolCarries(Refreshed(e, app), name, user)
  {
    RefreshedKeeps(e, app);
    hide Refreshed, Carries;
  }

  lemma {:induction false} FlippedCarries(app: TApp, name: string, user: map<string, string>)
    requires PoolCarries(app, name, user)
    ensures PoolCarries(Flipped(app), name, user)
  {
    LabelKeysDiffer();
    forall key | key in app.pool ensures Carries(Flipped(app).pool[key].labels, name, user) {
      assert Carries(app.pool[key].labels, name, user);
    }
  }

  lemma {:induction false} ScaledDownCarries(app: TApp, name: string, user: map<string, string>)
    requires PoolCarries(app, name, user) && app.replicas > 0
    ensures PoolCarries(ScaledDown(app), name, user)
  {
    hide Decimal, Carries;
  }

  lemma {:induction false} ReportedCarries(app: TApp, c: PodCounts, name: string, user: map<string, string>)
    requires PoolCarries(app, name, user)
    ensures PoolCarries(app.(status := c), name, user)
  {
    hide Carries;
  }

  /** What step a writes, if it writes. */
  ghost function Draft(s: State, a: Action): TApp
    requires Enabled(s, a)
  {
    match a
    case Report(c) => Current(s).(status := c)
    case SaveUp => ScaledUp(s.round.e, s.versions[s.round.v])
    case SaveDown => ScaledDown(s.versions[s.round.v])
    case SaveTemplates => Refreshed(s.round.e, s.versions[s.round.v])
    case FlipLabels => Flipped(s.versions[s.round.v])
    case _ => Current(s)
  }

  lemma {:induction false} WritesDraft(s: State, a: Action)
    requires Enabled(s, a)
    ensures Apply(s, a).versions == s.versions || Apply(s, a).versions == s.versions + [Draft(s, a)]
  {
    hide EditOk, ScaledUp, ScaledDown, Refreshed, Flipped, PeerNodeURL, LearnerIs, FindMember, WithoutMember, Promoted,
      AnyLearner, IsLearnerId, MemberName, PVCNameForEtcd, AllReady;
  }

  lemma {:induction false} StepCarries(s: State, a: Action, name: string, user: map<string, string>)
    requires Inv(s) && Enabled(s, a) && AllCarry(s, name, user)
    ensures AllCarry(Apply(s, a), name, user)
  {
    EditDiscipline.InvBounds(s);
    hide Inv, Enabled, Apply, PoolCarries, Draft;
    WritesDraft(s, a);
    DraftCarries(s, a, name, user);
  }

  lemma {:induction false} DraftCarries(s: State, a: Action, name: string, user: map<string, string>)
    requires Inv(s) && Enabled(s, a) && AllCarry(s, name, user) && s.versions != []
    ensures PoolCarries(Draft(s, a), name, user)
  {
    hide Inv, WellFormed, PoolCarries, Enabled, ScaledUp, ScaledDown, Refreshed, Flipped;
    assert PoolCarries(Current(s), name, user);
    if a == SaveUp || a == SaveDown || a == SaveTemplates || a == FlipLabels {
      VersionHeld(s, a);
      VersionShape(s, s.round.v);
      WrittenCarries(s, a, s.versions[s.round.v], name, user);
    } else if a.Report? {
      ReportedCarries(Current(s), a.counts, name, user);
    }
  }

  lemma {:induction false} WrittenCarries(s: State, a: Action, app: TApp, name: string, user: map<string, string>)
    requires Enabled(s, a) && HoldsVersion(s.round) && s.round.v < |s.versions| && app == s.versions[s.round.v]
    requires a == SaveUp || a == SaveDown || a == SaveTemplates || a == FlipLabels
    requires a == SaveDown ==> app.replicas > 0
    requires WellFormed(app, s.spec) && PoolCarries(app, name, user)
    ensures PoolCarries(Draft(s, a), name, user)
  {
    hide WellFormed, PoolCarries, Enabled, ScaledUp, ScaledDown, Refreshed, Flipped;
    match a {
      case SaveUp => ScaledUpCarries(s.round.e, app, s.spec, name, user);
      case SaveDown => ScaledDownCarries(app, name, user);
      case SaveTemplates => RefreshedCarries(s.round.e, app, name, user);
      case _ => FlippedCarries(app, name, user);
    }
  }

  lemma {:induction false} VersionHeld(s: State, a: Action)
    requires Enabled(s, a)
    ensures a == SaveUp || a == SaveDown || a == SaveTemplates || a == FlipLabels ==>
              HoldsVersion(s.round) && s.round.v < |s.versions|
    ensures a == SaveDown ==> s.versions[s.round.v].replicas > 0
  {
    hide EditOk, PeerNodeURL, AllReady, IsLearnerId;
  }

  lemma {:induction false} VersionShape(s: State, v: nat)
    requires Inv(s) && v < |s.versions|
    ensures WellFormed(s.versions[v], s.spec)
  {
    hide MembersInOrder, LagBounded, NamesInv, LabelsSafe, RoundInv, SpecInv, WellFormed;
  }

  lemma {:induction false} RunCarries(s: State, acts: seq<Action>, name: string, user: map<string, string>)
    requires Inv(s) && Runs(s, acts) && AllCarry(s, name, user)
    ensures AllCarry(Exec(s, acts), name, user) && Exec(s, acts).spec.name == s.spec.name
    decreases |acts|
  {
    hide Inv, Enabled, Apply, AllCarry;
    if acts != [] {
      StepKeeps(s, acts[0]);
      StepCarries(s, acts[0], name, user);
      NameStays(s, acts[0]);
      RunCarries(Apply(s, acts[0]), acts[1..], name, user);
    }
  }

  lemma {:induction false} NameStays(s: State, a: Action)
    requires Enabled(s, a)
    ensures Apply(s, a).spec.name == s.spec.name
  {
    hide ScaledUp, ScaledDown, Refreshed, Flipped, PeerNodeURL, LearnerIs, FindMember, WithoutMember, Promoted,
      AnyLearner, IsLearnerId, MemberName, PVCNameForEtcd, IsPeerSecure, ClusterDomain, SizeOk, LearnersOk;
  }

  /** In every run, every template of every version carries the cluster's name, a voting label, and exactly the labels
      that the user gave the pods when the cluster was created. Labels changed in the spec later reach no template. */
  lemma {:induction false} LabelsInEveryRun(s: State, acts: seq<Action>, v: nat, key: string)
    requires Init(s) && Runs(s, acts) && v < |Exec(s, acts).versions| && key in Exec(s, acts).versions[v].pool
    ensures Carries(Exec(s, acts).versions[v].pool[key].labels, Exec(s, acts).spec.name, s.spec.podLabels)
  {
    InitKeeps(s);
    SeedCarries(s.spec);
    hide Inv, Runs, Exec, SeedTApp, Carries;
    assert AllCarry(s, s.spec.name, s.spec.podLabels);
    RunCarries(s, acts, s.spec.name, s.spec.podLabels);
    assert PoolCarries(Exec(s, acts).versions[v], s.spec.name, s.spec.podLabels);
  }

  /** The access service that the operator makes for e sends clients to the pod of ordinal i. */
  ghost predicate Reaches(e: EtcdCluster, app: TApp, i: nat) {
    && Applied(e, NEW_SERVICE).Some? && Decimal(i) in app.pool
    && Selects(Applied(e, NEW_SERVICE).value, app.pool[Decimal(i)].labels)
  }

  /** It does exactly if the template votes, and never if the member is a learner. */
  ghost predicate ReachesVoter(t: State, i: nat)
    requires t.versions != []
  {
    && (Reaches(t.spec, Current(t), i) <==> HasVote(Current(t), i))
    && (i < |t.members| && t.members[i].isLearner ==> !Reaches(t.spec, Current(t), i))
  }

  /** So in every run an access service that the operator has made reaches exactly the pods of the templates that vote,
      and none of them is a learner's. */
  lemma {:induction false} ServiceReachesVoters(s: State, acts: seq<Action>, i: nat)
    requires Init(s) && Runs(s, acts) && Exec(s, acts).versions != [] && i < Committed(Exec(s, acts))
    requires ProviderOf(Exec(s, acts).spec).Some?
    ensures ReachesVoter(Exec(s, acts), i)
  {
    hide Init, Inv, Runs, Exec, ReachesVoter, ProviderOf, Decimal, Carries;
    InitKeeps(s);
    RunKeeps(s, acts);
    var t := Exec(s, acts);
    OrdinalInPool(t, i);
    LabelsInEveryRun(s, acts, |t.versions| - 1, Decimal(i));
    VoterReached(t, i, s.spec.podLabels);
  }

  lemma {:induction false} VoterReached(t: State, i: nat, user: map<string, string>)
    requires Inv(t) && t.versions != [] && i < Committed(t) && ProviderOf(t.spec).Some?
    requires Decimal(i) in Current(t).pool && Carries(Current(t).pool[Decimal(i)].labels, t.spec.name, user)
    ensures ReachesVoter(t, i)
  {
    hide Inv, Reaches, ProviderOf, Decimal, HasVote, Carries;
    ReachedOnceNamed(t.spec, Current(t), i, user);
    VotesSafe(t, i);
  }

  lemma {:induction false} ReachedOnceNamed(e: EtcdCluster, app: TApp, i: nat, user: map<string, string>)
    requires ProviderOf(e).Some? && Decimal(i) in app.pool && Carries(app.pool[Decimal(i)].labels, e.name, user)
    ensures Reaches(e, app, i) <==> HasVote(app, i)
  {
    hide Selects, ProviderOf, Decimal, HasVote, WithClientPort, WithOwner, WithSelector, WithEntry;
    assert Applied(e, NEW_SERVICE).Some?;
    hide Applied;
    ServesVoters(e, NEW_SERVICE, app, i);
  }

  lemma {:induction false} OrdinalInPool(t: State, i: nat)
    requires Inv(t) && t.versions != [] && i < Committed(t)
    ensures Decimal(i) in Current(t).pool
  {
    hide MembersInOrder, LagBounded, NamesInv, LabelsSafe, RoundInv, SpecInv;
    assert WellFormed(Current(t), t.spec);
    OrdinalWithin(i, Committed(t));
  }

  lemma {:induction false} VotesSafe(t: State, i: nat)
    requires Inv(t) && t.versions != [] && i < Committed(t)
    ensures i < |t.members| && t.members[i].isLearner ==> !HasVote(Current(t), i)
  {
    hide MembersInOrder, LagBounded, NamesInv, VersionsWellFormed, RoundInv, SpecInv, HasVote;
  }
}
