/** What every step of the scaling protocol keeps, and what follows for every run. */
module ProtocolSafety {
  import opened Text
  import opened Cluster
  import opened NodeArgs
  import opened Protocol

  // ----- the invariant -----

  function Ordinals(n: nat): set<string> {
    if n == 0 then {} else Ordinals(n - 1) + {Decimal(n - 1)}
  }

  /** Pool and template keys are exactly the decimals 0..Replicas-1, and every ordinal uses its own template. */
  ghost predicate WellFormed(app: TApp, e: EtcdCluster) {
    && app.name == NameForTApp(e)
    && 1 <= app.replicas <= 7
    && app.pool.Keys == Ordinals(app.replicas)
    && app.templates.Keys == Ordinals(app.replicas)
    && forall key :: key in app.templates ==> app.templates[key] == key
  }

  ghost predicate VersionsWellFormed(s: State) {
    forall v: nat :: v < |s.versions| ==> WellFormed(s.versions[v], s.spec)
  }

  /** The members are those of ordinals 0..k-1, in this order, under distinct non-zero ids. */
  ghost predicate MembersInOrder(members: seq<Member>, e: EtcdCluster) {
    && (forall i: nat :: i < |members| ==> members[i].id != 0 && members[i].peerURLs == [PeerNodeURL(e, i)])
    && (forall i, j :: 0 <= i < j < |members| ==> members[i].id != members[j].id)
  }

  /** Between the version last read and the current one there is at most one scaling step, and while that step is
      unobserved the membership agrees with the current TApp. */
  ghost predicate LagBounded(s: State)
    requires s.seen < |s.versions|
  {
    var f, r, k := Observed(s), Committed(s), |s.members|;
    && (forall v: nat :: s.seen <= v < |s.versions| ==> s.versions[v].replicas == f || s.versions[v].replicas == r)
    && (forall v: nat, w: nat :: s.seen <= v <= w < |s.versions| && s.versions[v].replicas == r ==>
        s.versions[w].replicas == r)
    && (f == r ==> r - 1 <= k <= r + 1)
    && (f != r ==> k == r && (f == r + 1 || f + 1 == r))
  }

  /** All members but the newest have started; all of them have while a removal is half-done; and ready pods mean
      started members. */
  ghost predicate NamesInv(s: State)
    requires s.seen < |s.versions|
  {
    && Named(s.members, |s.members| - 1)
    && (|s.members| < Committed(s) ==> Named(s.members, |s.members|))
    && forall v: nat :: s.seen <= v < |s.versions| && AllReady(s.versions[v]) ==>
        Named(s.members, s.versions[v].replicas)
  }

  /** No template that the access service selects belongs to a member that etcd counts as a learner. */
  ghost predicate LabelsSafe(s: State)
    requires s.versions != []
  {
    forall i: nat :: i < |s.members| && i < Committed(s) && s.members[i].isLearner ==> !HasVote(Current(s), i)
  }

  predicate Toward(s: State, e: EtcdCluster)
    requires s.seen < |s.versions|
  {
    && (|s.members| > Observed(s) ==> e.size >= Observed(s))
    && (|s.members| < Committed(s) && Observed(s) == Committed(s) ==> e.size <= Observed(s))
  }

  /** A learner whose template is not written yet will be recognised as one by a round that works with spec e. */
  predicate LearnerKnown(s: State, e: EtcdCluster)
    requires s.seen < |s.versions|
  {
    Observed(s) == Committed(s) && |s.members| == Committed(s) + 1 && s.members[Committed(s)].isLearner ==>
      LearnerIs(e, Committed(s)) || e.size <= Committed(s) || !HasVote(Current(s), 0)
  }

  /** What the round in flight may rely on. */
  ghost predicate RoundInv(s: State)
    requires s.seen < |s.versions|
  {
    var f, r, k := Observed(s), Committed(s), |s.members|;
    && (HoldsVersion(s.round) ==> s.round.v == s.seen)
    && (!s.round.Idle? ==> SameIdentity(s.spec, s.round.e) && 1 <= s.round.e.size <= 7)
    && match s.round
       case SpecRead(e) => Toward(s, e) && LearnerKnown(s, e)
       case Fetched(e, v) => Toward(s, e) && LearnerKnown(s, e)
       case UpListed(e, v, count) => e.size > f && count == k && AllReady(s.versions[v]) && Toward(s, e)
           && LearnerKnown(s, e)
       case UpJoined(e, v) => e.size > f && AllReady(s.versions[v]) && (f == r ==> k == f + 1) && LearnerKnown(s, e)
       case DownListed(e, v, id) => e.size < f && f - 1 <= k <= f && id == (if k == f then s.members[f - 1].id else 0)
       case DownLeft(e, v) => e.size < f && k == f - 1
       case DownSaved(e, v) => f == r + 1 && k == r
       case CheckListed(e, v, hasLearner, last) => hasLearner == AnyLearner(s.members)
       case CheckRecorded(e, v, hasLearner, last) => hasLearner == AnyLearner(s.members)
       case _ => true
  }

  ghost predicate SpecInv(s: State)
    requires s.seen < |s.versions|
  {
    Admitted(s.spec) && SizeOk(s, s.spec.size) && LearnersOk(s, s.spec)
  }

  ghost predicate Inv(s: State) {
    && s.seen < |s.versions|
    && VersionsWellFormed(s)
    && MembersInOrder(s.members, s.spec)
    && LagBounded(s)
    && NamesInv(s)
    && LabelsSafe(s)
    && RoundInv(s)
    && SpecInv(s)
  }

  // ----- ordinals as keys -----

  lemma {:induction false} OrdinalsExactly(n: nat, key: string)
    ensures key in Ordinals(n) <==> IsOrdinal(key, n)
  {
    if n > 0 {
      OrdinalsExactly(n - 1, key);
      if i: nat :| i < n && key == Decimal(i) {
        assert i == n - 1 || IsOrdinal(key, n - 1);
      }
    }
  }

  lemma OrdinalFresh(n: nat)
    ensures Decimal(n) !in Ordinals(n)
  {
    OrdinalsExactly(n, Decimal(n));
    if i: nat :| i < n && Decimal(n) == Decimal(i) {
      DecimalInjective(n, i);
    }
  }

  lemma OrdinalWithin(i: nat, n: nat)
    ensures Decimal(i) in Ordinals(n) <==> i < n
  {
    OrdinalsExactly(n, Decimal(i));
    if i < n {
      assert IsOrdinal(Decimal(i), n);
    } else if j: nat :| j < n && Decimal(i) == Decimal(j) {
      DecimalInjective(i, j);
    }
  }

  // ----- the writes keep the TApp well formed -----

  lemma SeedWellFormed(e: EtcdCluster)
    ensures WellFormed(SeedTApp(e), e)
    ensures SeedTApp(e).status == PodCounts(0, 0)
  {
    hide DefaultTemplate, VotingLabel, WithArgs, NameForTApp, Decimal;
    assert Ordinals(1) == Ordinals(0) + {Decimal(0)} == {Decimal(0)};
    var tpl := DefaultTemplate(e);
    WithArgsKeeps(e, TApp(NameForTApp(e), 1,
      map[Decimal(0) := tpl.(labels := tpl.labels[VOTING_LABEL := VotingLabel(e, 0)])],
      map[Decimal(0) := Decimal(0)], PodCounts(0, 0)));
  }

  lemma ScaledUpWellFormed(e: EtcdCluster, app: TApp, spec: EtcdCluster)
    requires WellFormed(app, spec) && app.replicas < 7
    ensures WellFormed(ScaledUp(e, app), spec)
    ensures var up := ScaledUp(e, app); up.replicas == app.replicas + 1 && up.status == app.status
    ensures forall i: nat :: i < app.replicas ==> HasVote(ScaledUp(e, app), i) == HasVote(app, i)
    ensures HasVote(ScaledUp(e, app), app.replicas) <==> !LearnerIs(e, app.replicas) && HasVote(app, 0)
  {
    hide LearnerIs;
    var key := Decimal(app.replicas);
    var ext := Extended(e, app);
    WithArgsKeeps(e, ext);
    hide WithArgs;
    OrdinalFresh(app.replicas);
    assert Ordinals(app.replicas + 1) == Ordinals(app.replicas) + {key};
    assert ext.pool.Keys == app.pool.Keys + {key} && ext.templates.Keys == app.templates.Keys + {key};
    forall i: nat | i < app.replicas ensures HasVote(ScaledUp(e, app), i) == HasVote(app, i) {
      OrdinalWithin(i, app.replicas);
      assert Decimal(i) != key;
    }
    OrdinalWithin(0, app.replicas);
    assert ext.pool[key] == NewTemplate(e, app);
    assert "false"[0] != "true"[0];
  }

  lemma ScaledDownWellFormed(app: TApp, spec: EtcdCluster)
    requires WellFormed(app, spec) && app.replicas > 1
    ensures WellFormed(ScaledDown(app), spec)
    ensures var down := ScaledDown(app); down.replicas == app.replicas - 1 && down.status == app.status
    ensures forall i: nat :: HasVote(ScaledDown(app), i) ==> HasVote(app, i)
  {
    var n := app.replicas - 1;
    OrdinalFresh(n);
    assert Ordinals(app.replicas) == Ordinals(n) + {Decimal(n)};
    assert ScaledDown(app).pool.Keys == app.pool.Keys - {Decimal(n)};
    assert ScaledDown(app).templates.Keys == app.templates.Keys - {Decimal(n)};
  }

  lemma RefreshedWellFormed(e: EtcdCluster, app: TApp, spec: EtcdCluster)
    requires WellFormed(app, spec)
    ensures WellFormed(Refreshed(e, app), spec)
    ensures var r := Refreshed(e, app); r.replicas == app.replicas && r.status == app.status
    ensures forall i: nat :: HasVote(Refreshed(e, app), i) == HasVote(app, i)
  {
    RefreshedKeeps(e, app);
  }

  lemma FlippedWellFormed(app: TApp, spec: EtcdCluster)
    requires WellFormed(app, spec)
    ensures WellFormed(Flipped(app), spec)
    ensures var r := Flipped(app); r.replicas == app.replicas && r.status == app.status
  {
    assert Flipped(app).pool.Keys == app.pool.Keys;
  }

  // ----- the membership -----

  /** The scale-down search finds ordinal i's member if it is there and nobody otherwise. */
  lemma FindInOrder(members: seq<Member>, e: EtcdCluster, i: nat)
    requires MembersInOrder(members, e)
    ensures FindMember(members, PeerNodeURL(e, i)) == if i < |members| then members[i].id else 0
  {
    FindFrom(members, e, i, 0);
    assert members[0..] == members;
  }

  lemma {:induction false} FindFrom(members: seq<Member>, e: EtcdCluster, i: nat, n: nat)
    requires MembersInOrder(members, e) && n <= |members|
    ensures FindMember(members[n..], PeerNodeURL(e, i)) == if n <= i < |members| then members[i].id else 0
    decreases |members| - n
  {
    hide PeerNodeURL;
    if n < |members| {
      assert members[n..][0] == members[n] && members[n..][1..] == members[n + 1..];
      if members[n].peerURLs == [PeerNodeURL(e, i)] {
        OrdinalNamesInjective(e, n, i);
      }
      FindFrom(members, e, i, n + 1);
    }
  }

  lemma {:induction false} WithoutNone(members: seq<Member>, id: nat)
    requires forall m :: m in members ==> m.id != id
    ensures WithoutMember(members, id) == members
  {
    if members != [] {
      WithoutNone(members[1..], id);
    }
  }

  lemma {:induction false} WithoutLast(members: seq<Member>)
    requires members != []
    requires forall i, j :: 0 <= i < j < |members| ==> members[i].id != members[j].id
    ensures WithoutMember(members, members[|members| - 1].id) == members[..|members| - 1]
  {
    var k := |members| - 1;
    if k > 0 {
      WithoutLast(members[1..]);
      assert members[1..][|members[1..]| - 1] == members[k];
      assert members[..k] == [members[0]] + members[1..][..k - 1];
    }
  }

  lemma OrderUnderSameIdentity(members: seq<Member>, e: EtcdCluster, f: EtcdCluster)
    requires MembersInOrder(members, e) && SameIdentity(e, f)
    ensures MembersInOrder(members, f)
  {
    forall i: nat | i < |members| ensures members[i].peerURLs == [PeerNodeURL(f, i)] {
      SameNames(e, f, i);
    }
  }

  // ----- every action keeps the invariant -----

  lemma UnreadySeed(e: EtcdCluster)
    ensures SeedTApp(e).replicas == 1 && !AllReady(SeedTApp(e))
  {
    SeedWellFormed(e);
  }

  lemma InitKeeps(s: State)
    requires Init(s)
    ensures Inv(s)
  {
    SeedWellFormed(s.spec);
    hide WellFormed, SeedTApp, PeerNodeURL, HasVote, LearnerIs;
    assert VersionsWellFormed(s) && MembersInOrder(s.members, s.spec);
    assert Committed(s) == 1 && !AllReady(Current(s)) by { UnreadySeed(s.spec); }
    assert LagBounded(s) && NamesInv(s) && LabelsSafe(s) && RoundInv(s) && SpecInv(s);
  }

  lemma EditKeeps(s: State, e: EtcdCluster)
    requires Inv(s) && Enabled(s, Edit(e))
    ensures Inv(Apply(s, Edit(e)))
  {
    hide PeerNodeURL, HasVote, MembersInOrder, LearnerIs, LagBounded, NamesInv, LabelsSafe, RoundInv, SpecInv,
      SizeOk, LearnersOk;
    var t := Apply(s, Edit(e));
    OrderUnderSameIdentity(s.members, s.spec, e);
    assert VersionsWellFormed(t);
    EditLeavesRest(s, e);
  }

  lemma EditLeavesRest(s: State, e: EtcdCluster)
    requires s.seen < |s.versions| && EditOk(s, e)
    requires LagBounded(s) && NamesInv(s) && LabelsSafe(s) && RoundInv(s)
    ensures var t := Edited(s, e);
            LagBounded(t) && NamesInv(t) && LabelsSafe(t) && RoundInv(t) && SpecInv(t)
  {
    hide PeerNodeURL, HasVote, ClusterDomain, IsPeerSecure, LearnerIs;
    var t := Edited(s, e);
    assert LagBounded(t);
    assert NamesInv(t);
    assert LabelsSafe(t);
    assert RoundInv(t);
    assert SpecInv(t);
  }

  lemma ReportKeeps(s: State, c: PodCounts)
    requires Inv(s) && Enabled(s, Report(c))
    ensures Inv(Apply(s, Report(c)))
  {
    hide PeerNodeURL, MembersInOrder, ClusterDomain, IsPeerSecure, LearnerIs;
    var t := Apply(s, Report(c));
    forall i: nat ensures HasVote(Current(t), i) == HasVote(Current(s), i) {
    }
    hide HasVote;
    AppendKeeps(s, t);
  }

  /** Accepting a version with unchanged Replicas. */
  lemma AppendKeeps(s: State, t: State)
    requires Inv(s) && t.versions != []
    requires t == s.(versions := s.versions + [Current(t)])
    requires WellFormed(Current(t), s.spec) && Committed(t) == Committed(s)
    requires AllReady(Current(t)) ==> Named(s.members, Committed(s))
    requires forall i: nat :: i < |s.members| && i < Committed(s) && s.members[i].isLearner ==> !HasVote(Current(t), i)
    requires LearnerPending(s) && HasVote(Current(t), 0) ==> HasVote(Current(s), 0)
    ensures Inv(t)
  {
    hide PeerNodeURL, MembersInOrder, LearnerIs, HasVote, WellFormed;
    assert Observed(t) == Observed(s);
    forall v: nat | v < |t.versions| ensures t.versions[v] == if v < |s.versions| then s.versions[v] else Current(t) {
    }
    assert VersionsWellFormed(t);
    assert LagBounded(t);
    assert NamesInv(t);
    assert RoundInv(t);
    assert SpecInv(t);
  }

  lemma StartKeeps(s: State, i: nat)
    requires Inv(s) && i < |s.members|
    ensures Inv(Started(s, i))
  {
    hide PeerNodeURL, HasVote, LearnerIs, WellFormed, Decimal, NameForTApp, ClusterDomain, IsPeerSecure, AllReady;
    var t := Started(s, i);
    assert MemberName(NameForTApp(s.spec), i) != "";
    RenamedOrder(s.members, s.spec, i, MemberName(NameForTApp(s.spec), i));
    hide MembersInOrder, MemberName;
    assert LagBounded(t) && NamesInv(t) && LabelsSafe(t);
    StartRound(s, t);
  }

  lemma RenamedOrder(members: seq<Member>, e: EtcdCluster, i: nat, name: string)
    requires MembersInOrder(members, e) && i < |members|
    ensures var renamed := members[i := members[i].(name := name)];
            MembersInOrder(renamed, e) && AnyLearner(renamed) == AnyLearner(members)
  {
    hide PeerNodeURL;
    SameLearners(members, members[i := members[i].(name := name)]);
  }

  /** Round and spec look at ids, learner flags and counts, never at names. */
  lemma StartRound(s: State, t: State)
    requires Inv(s) && t == s.(members := t.members) && |t.members| == |s.members|
    requires forall j :: 0 <= j < |s.members| ==>
        t.members[j].isLearner == s.members[j].isLearner && t.members[j].id == s.members[j].id
    ensures RoundInv(t) && SpecInv(t)
  {
    hide MembersInOrder, HasVote, LearnerIs, WellFormed, ClusterDomain, IsPeerSecure, AllReady, LagBounded,
      NamesInv, LabelsSafe, VersionsWellFormed;
    SameLearners(s.members, t.members);
    hide AnyLearner;
    assert RoundInv(t);
  }

  lemma SameLearners(a: seq<Member>, b: seq<Member>)
    requires |a| == |b| && forall j :: 0 <= j < |a| ==> a[j].isLearner == b[j].isLearner
    ensures AnyLearner(a) == AnyLearner(b)
  {
    if m :| m in a && m.isLearner {
      var j :| 0 <= j < |a| && a[j] == m;
      assert b[j] in b;
    }
    if m :| m in b && m.isLearner {
      var j :| 0 <= j < |b| && b[j] == m;
      assert a[j] in a;
    }
  }

  /** Moving the lister on to a later version. */
  lemma ObserveKeeps(s: State, v: nat)
    requires Inv(s) && s.seen <= v < |s.versions| && s.round == Idle
    ensures Inv(s.(seen := v))
  {
    hide PeerNodeURL, MembersInOrder, HasVote, LearnerIs, WellFormed;
    var t := s.(seen := v);
    assert LagBounded(t);
    assert SpecInv(t);
  }

  lemma ReadSpecKeeps(s: State)
    requires Inv(s) && s.round == Idle
    ensures Inv(SpecTaken(s))
  {
    hide PeerNodeURL, MembersInOrder, HasVote, LearnerIs, WellFormed, ClusterDomain, IsPeerSecure, AllReady;
    var t := SpecTaken(s);
    assert LagBounded(t) && NamesInv(t) && LabelsSafe(t);
    assert RoundInv(t);
    assert SpecInv(t);
  }

  lemma BeginKeeps(s: State, v: nat)
    requires Inv(s) && s.round.SpecRead? && s.seen <= v < |s.versions|
    ensures Inv(s.(seen := v, round := Fetched(s.round.e, v)))
  {
    hide PeerNodeURL, MembersInOrder, HasVote, LearnerIs, WellFormed, ClusterDomain, IsPeerSecure, AllReady;
    var t := s.(seen := v, round := Fetched(s.round.e, v));
    assert LagBounded(t);
    assert NamesInv(t) && LabelsSafe(t);
    assert RoundInv(t);
    assert SpecInv(t);
  }

  /** Steps that only move the round on to a point with no claims about membership. */
  lemma RoundOnlyKeeps(s: State, r: Round)
    requires Inv(s)
    requires r.Idle? || r.Checking? || r.Promoting? || r.CheckRead? || r.Refreshing?
        || ((r.CheckListed? || r.CheckRecorded?) && r.hasLearner == AnyLearner(s.members))
    requires HoldsVersion(r) ==> r.v == s.seen
    requires !r.Idle? ==> SameIdentity(s.spec, r.e) && 1 <= r.e.size <= 7
    ensures Inv(s.(round := r))
  {
    hide PeerNodeURL, MembersInOrder, HasVote, LearnerIs, WellFormed, ClusterDomain, IsPeerSecure;
    var t := s.(round := r);
    assert LagBounded(t) && NamesInv(t) && LabelsSafe(t) && RoundInv(t) && SpecInv(t);
  }

  lemma ListForUpKeeps(s: State)
    requires Inv(s) && Enabled(s, ListForUp)
    ensures Inv(Apply(s, ListForUp))
  {
    hide PeerNodeURL, MembersInOrder, HasVote, LearnerIs, WellFormed, ClusterDomain, IsPeerSecure;
    var t := Apply(s, ListForUp);
    assert LagBounded(t) && NamesInv(t) && LabelsSafe(t) && RoundInv(t) && SpecInv(t);
  }

  lemma AddMemberKeeps(s: State, id: nat)
    requires Inv(s) && s.round.UpListed? && Unused(s.members, id)
    ensures Inv(Added(s, id))
  {
    hide HasVote, LearnerIs, WellFormed, MembersInOrder;
    var f := Observed(s);
    if |s.members| == f {
      assert Committed(s) == f;
      JoinKeeps(s, Member(id, [PeerNodeURL(s.round.e, f)], "", LearnerIs(s.round.e, f)));
    } else {
      var t := Added(s, id);
      assert t.members == s.members;
      assert LagBounded(t) && NamesInv(t) && LabelsSafe(t) && RoundInv(t) && SpecInv(t);
    }
  }

  lemma JoinKeeps(s: State, m: Member)
    requires Inv(s) && s.round.UpListed? && |s.members| == Observed(s) == Committed(s)
    requires Unused(s.members, m.id) && m.peerURLs == [PeerNodeURL(s.round.e, |s.members|)] && m.name == ""
    requires m.isLearner == LearnerIs(s.round.e, |s.members|)
    ensures Inv(s.(members := s.members + [m], round := UpJoined(s.round.e, s.round.v)))
  {
    hide PeerNodeURL, HasVote, LearnerIs, WellFormed, ClusterDomain, IsPeerSecure;
    JoinOrder(s, m);
    hide MembersInOrder, Unused;
    var t := s.(members := s.members + [m], round := UpJoined(s.round.e, s.round.v));
    assert LagBounded(t);
    assert NamesInv(t);
    assert LabelsSafe(t);
    assert RoundInv(t);
    assert SpecInv(t);
  }

  lemma JoinOrder(s: State, m: Member)
    requires MembersInOrder(s.members, s.spec) && !s.round.Idle? && SameIdentity(s.spec, s.round.e)
    requires Unused(s.members, m.id) && m.peerURLs == [PeerNodeURL(s.round.e, |s.members|)]
    ensures MembersInOrder(s.members + [m], s.spec)
  {
    SameNames(s.spec, s.round.e, |s.members|);
    hide PeerNodeURL, ClusterDomain, IsPeerSecure;
    assert forall i :: 0 <= i < |s.members| ==> s.members[i] in s.members;
  }

  lemma SaveUpKeeps(s: State)
    requires Inv(s) && s.round.UpJoined?
    ensures Inv(SavedUp(s))
  {
    hide PeerNodeURL, MembersInOrder, HasVote, LearnerIs, WellFormed, ScaledUp, ClusterDomain, IsPeerSecure;
    if IsCurrent(s, s.seen) {
      SaveUpFacts(s);
      ScaleKeeps(s, ScaledUp(s.round.e, Current(s)), Refreshing(s.round.e, s.round.v));
    } else {
      RoundOnlyKeeps(s, Idle);
    }
  }

  lemma SaveUpFacts(s: State)
    requires Inv(s) && s.round.UpJoined? && IsCurrent(s, s.seen)
    ensures var up := ScaledUp(s.round.e, Current(s));
            && WellFormed(up, s.spec) && up.replicas == |s.members| == Committed(s) + 1 && !AllReady(up)
            && forall i: nat :: i < |s.members| && s.members[i].isLearner ==> !HasVote(up, i)
  {
    hide PeerNodeURL, MembersInOrder, HasVote, LearnerIs, WellFormed, ScaledUp, ClusterDomain, IsPeerSecure,
      NamesInv, SpecInv;
    assert WellFormed(Current(s), s.spec) && Committed(s) < 7;
    ScaledUpWellFormed(s.round.e, Current(s), s.spec);
  }

  /** Accepting a version one scaling step away brings the TApp in line with the membership. */
  lemma ScaleKeeps(s: State, app: TApp, next: Round)
    requires Inv(s) && IsCurrent(s, s.seen)
    requires WellFormed(app, s.spec)
    requires |s.members| == app.replicas && (app.replicas == Committed(s) + 1 || app.replicas + 1 == Committed(s))
    requires AllReady(app) ==> Named(s.members, |s.members|)
    requires forall i: nat :: i < |s.members| && s.members[i].isLearner ==> !HasVote(app, i)
    requires next.Refreshing? || (next.DownSaved? && app.replicas + 1 == Committed(s))
    requires next.v == s.seen && SameIdentity(s.spec, next.e) && 1 <= next.e.size <= 7
    ensures Inv(s.(versions := s.versions + [app], round := next))
  {
    hide PeerNodeURL, MembersInOrder, HasVote, LearnerIs, WellFormed, ClusterDomain, IsPeerSecure, AllReady;
    var t := s.(versions := s.versions + [app], round := next);
    forall v: nat | v < |t.versions| ensures t.versions[v] == if v < |s.versions| then s.versions[v] else app {
    }
    assert VersionsWellFormed(t);
    ScaleLag(s, t);
    hide LagBounded, VersionsWellFormed;
    assert NamesInv(t) by { ScaleNames(s, t); }
    assert LabelsSafe(t);
    assert RoundInv(t);
    assert SpecInv(t);
  }

  lemma ScaleLag(s: State, t: State)
    requires s.seen < |s.versions| && IsCurrent(s, s.seen)
    requires |t.versions| == |s.versions| + 1 && t.seen == s.seen && t.versions[..|s.versions|] == s.versions
    requires |t.members| == Committed(t) && (Committed(t) == Committed(s) + 1 || Committed(t) + 1 == Committed(s))
    ensures LagBounded(t)
  {
    assert t.versions[s.seen] == s.versions[s.seen];
  }

  lemma ScaleNames(s: State, t: State)
    requires s.seen < |s.versions| && IsCurrent(s, s.seen) && NamesInv(s)
    requires |t.versions| == |s.versions| + 1 && t.seen == s.seen && t.versions[..|s.versions|] == s.versions
    requires t.members == s.members && |t.members| == Committed(t)
    requires AllReady(Current(t)) ==> Named(s.members, |s.members|)
    ensures NamesInv(t)
  {
    assert t.versions[s.seen] == s.versions[s.seen];
  }

  lemma ListForDownKeeps(s: State)
    requires Inv(s) && s.round.Fetched? && s.round.e.size < Observed(s)
    ensures Inv(Searched(s))
  {
    hide WellFormed, LearnerIs, HasVote;
    var f := Observed(s);
    SameNames(s.spec, s.round.e, f - 1);
    FindInOrder(s.members, s.spec, f - 1);
    SearchKeeps(s, FindMember(s.members, PeerNodeURL(s.round.e, f - 1)));
  }

  lemma SearchKeeps(s: State, id: nat)
    requires Inv(s) && s.round.Fetched? && s.round.e.size < Observed(s)
    requires id == if Observed(s) <= |s.members| then s.members[Observed(s) - 1].id else 0
    ensures Inv(s.(round := DownListed(s.round.e, s.round.v, id)))
  {
    hide PeerNodeURL, MembersInOrder, HasVote, LearnerIs, WellFormed, ClusterDomain, IsPeerSecure, AllReady;
    var t := s.(round := DownListed(s.round.e, s.round.v, id));
    assert LagBounded(t) && NamesInv(t) && LabelsSafe(t);
    hide NamesInv, LabelsSafe, VersionsWellFormed;
    assert RoundInv(t);
    assert SpecInv(t);
  }

  lemma RemoveMemberKeeps(s: State)
    requires Inv(s) && s.round.DownListed?
    ensures Inv(Removed(s))
    ensures Removed(s).members == if |s.members| == Observed(s) then s.members[..|s.members| - 1] else s.members
  {
    hide PeerNodeURL, HasVote, LearnerIs, WellFormed, ClusterDomain, IsPeerSecure, AllReady, AnyLearner;
    if |s.members| == Observed(s) {
      assert s.round.id != 0;
      WithoutLast(s.members);
      LeaveKeeps(s);
    } else {
      var t := Removed(s);
      assert t.members == s.members;
      hide MembersInOrder;
      assert LagBounded(t) && NamesInv(t) && LabelsSafe(t) && RoundInv(t) && SpecInv(t);
    }
  }

  lemma LeaveKeeps(s: State)
    requires Inv(s) && s.round.DownListed? && |s.members| == Observed(s) && |s.members| > 0
    ensures Inv(s.(members := s.members[..|s.members| - 1], round := DownLeft(s.round.e, s.round.v)))
  {
    hide PeerNodeURL, HasVote, LearnerIs, WellFormed, ClusterDomain, IsPeerSecure, AnyLearner;
    var t := s.(members := s.members[..|s.members| - 1], round := DownLeft(s.round.e, s.round.v));
    assert MembersInOrder(t.members, t.spec);
    hide MembersInOrder;
    assert LagBounded(t);
    assert NamesInv(t);
    assert LabelsSafe(t);
    assert RoundInv(t);
    assert SpecInv(t);
  }

  lemma {:induction false} SaveDownKeeps(s: State)
    requires Inv(s) && s.round.DownLeft?
    ensures Inv(SavedDown(s))
  {
    hide Inv, ScaledDown, SameIdentity, AllReady, WellFormed;
    LeftPosition(s);
    if IsCurrent(s, s.seen) {
      var down := ScaledDown(Current(s));
      LeftFacts(s);
      ScaleKeeps(s, down, DownSaved(s.round.e, s.round.v));
    } else {
      RoundOnlyKeeps(s, Idle);
    }
  }

  lemma {:induction false} LeftPosition(s: State)
    requires Inv(s) && s.round.DownLeft?
    ensures s.round.v == s.seen < |s.versions| && s.versions[s.seen].replicas > 1
    ensures SameIdentity(s.spec, s.round.e) && 1 <= s.round.e.size <= 7
    ensures |s.members| == s.versions[s.seen].replicas - 1
  {
    hide MembersInOrder, LabelsSafe, NamesInv, SpecInv, LagBounded, WellFormed, SameIdentity;
  }

  lemma {:induction false} LeftFacts(s: State)
    requires Inv(s) && s.round.DownLeft? && IsCurrent(s, s.seen) && Committed(s) > 1
    ensures var down := ScaledDown(Current(s));
            && WellFormed(down, s.spec) && down.replicas + 1 == Committed(s) == |s.members| + 1
            && (AllReady(down) ==> Named(s.members, |s.members|))
            && forall i: nat :: i < |s.members| && s.members[i].isLearner ==> !HasVote(down, i)
  {
    hide PeerNodeURL, MembersInOrder, HasVote, WellFormed, ScaledDown, SpecInv;
    assert WellFormed(Current(s), s.spec);
    ScaledDownWellFormed(Current(s), s.spec);
  }

  lemma SaveIfChangedKeeps(s: State, app: TApp, next: Round)
    requires Inv(s) && HoldsVersion(s.round) && WellFormed(app, s.spec)
    requires app.replicas == s.versions[s.seen].replicas && app.status == s.versions[s.seen].status
    requires IsCurrent(s, s.seen) ==>
      forall i: nat :: i < |s.members| && i < Committed(s) && s.members[i].isLearner ==> !HasVote(app, i)
    requires IsCurrent(s, s.seen) && AnyLearner(s.members) && HasVote(app, 0) ==> HasVote(Current(s), 0)
    requires next.Idle? || ((next.Checking? || next.Promoting?) && SameIdentity(s.spec, next.e)
        && 1 <= next.e.size <= 7)
    ensures Inv(SaveIfChanged(s, s.seen, app, next))
  {
    hide PeerNodeURL, MembersInOrder, HasVote, LearnerIs, WellFormed, ClusterDomain, IsPeerSecure;
    if app == s.versions[s.seen] {
      RoundOnlyKeeps(s, next);
    } else if IsCurrent(s, s.seen) {
      var idle := s.(round := Idle);
      RoundOnlyKeeps(s, Idle);
      var t := idle.(versions := idle.versions + [app]);
      assert LearnerPending(idle) ==> s.members[Committed(s)] in s.members;
      AppendKeeps(idle, t);
      RoundOnlyKeeps(t, next);
      assert SaveIfChanged(s, s.seen, app, next) == t.(round := next);
    } else {
      RoundOnlyKeeps(s, Idle);
    }
  }

  lemma {:induction false} FlipLabelsKeeps(s: State)
    requires Inv(s) && s.round.CheckRecorded?
    ensures Inv(Relabelled(s))
  {
    hide Inv, Flipped, SameIdentity, WellFormed, AnyLearner, HasVote;
    CheckedPosition(s);
    var r := s.round;
    if r.e.learners == [] && !r.hasLearner {
      FlippedWellFormed(s.versions[r.v], s.spec);
      NobodyLearns(s.members);
      SaveIfChangedKeeps(s, Flipped(s.versions[r.v]), AfterCheck(r.e, r.last));
    } else {
      RoundOnlyKeeps(s, AfterCheck(r.e, r.last));
    }
  }

  lemma {:induction false} CheckedPosition(s: State)
    requires Inv(s) && (s.round.CheckListed? || s.round.CheckRecorded?)
    ensures s.round.v == s.seen < |s.versions| && WellFormed(s.versions[s.seen], s.spec)
    ensures SameIdentity(s.spec, s.round.e) && 1 <= s.round.e.size <= 7 && s.round.hasLearner == AnyLearner(s.members)
  {
    hide MembersInOrder, LabelsSafe, NamesInv, SpecInv, LagBounded, WellFormed, SameIdentity, AnyLearner;
  }

  lemma {:induction false} NobodyLearns(members: seq<Member>)
    requires !AnyLearner(members)
    ensures forall i :: 0 <= i < |members| ==> !members[i].isLearner
  {
    assert forall i :: 0 <= i < |members| ==> members[i] in members;
  }

  lemma ReadTAppKeeps(s: State, v: nat)
    requires Inv(s) && s.round.Checking? && s.seen <= v < |s.versions|
    ensures Inv(ReadForCheck(s, v))
  {
    hide PeerNodeURL, MembersInOrder, HasVote, LearnerIs, WellFormed, ClusterDomain, IsPeerSecure, LagBounded, NamesInv;
    var r := s.round;
    RoundOnlyKeeps(s, Idle);
    ObserveKeeps(s.(round := Idle), v);
    var t := s.(round := Idle).(seen := v);
    if s.versions[v].status.ready < 1 {
      RoundOnlyKeeps(t, AfterCheck(r.e, r.last));
      assert ReadForCheck(s, v) == t.(round := AfterCheck(r.e, r.last));
    } else {
      RoundOnlyKeeps(t, CheckRead(r.e, v, r.last));
      assert ReadForCheck(s, v) == t.(round := CheckRead(r.e, v, r.last));
    }
  }

  lemma PromoteMemberKeeps(s: State, id: nat)
    requires Inv(s) && s.round.Promoting?
    ensures Inv(PromotedIn(s, id))
  {
    hide PeerNodeURL, HasVote, LearnerIs, WellFormed, ClusterDomain, IsPeerSecure;
    var t := PromotedIn(s, id);
    assert MembersInOrder(t.members, t.spec);
    assert LagBounded(t);
    assert NamesInv(t);
    assert LabelsSafe(t);
    assert RoundInv(t);
    assert SpecInv(t);
  }

  lemma DeleteClaimKeeps(s: State)
    requires Inv(s) && s.round.DownSaved?
    ensures Inv(Unclaimed(s))
  {
    hide PeerNodeURL, MembersInOrder, HasVote, LearnerIs, WellFormed, ClusterDomain, IsPeerSecure, LagBounded, NamesInv;
    RoundOnlyKeeps(s, Refreshing(s.round.e, s.round.v));
    ClaimsKeep(s.(round := Refreshing(s.round.e, s.round.v)), Unclaimed(s).claims);
  }

  lemma ClaimsKeep(s: State, claims: set<string>)
    requires Inv(s)
    ensures Inv(s.(claims := claims))
  {
    hide PeerNodeURL, MembersInOrder, HasVote, LearnerIs, WellFormed, ClusterDomain, IsPeerSecure;
    var t := s.(claims := claims);
    assert LagBounded(t) && NamesInv(t) && LabelsSafe(t) && RoundInv(t) && SpecInv(t);
  }

  lemma RevisionKeeps(s: State, n: nat)
    requires Inv(s)
    ensures Inv(s.(revision := n))
  {
    hide PeerNodeURL, MembersInOrder, HasVote, LearnerIs, WellFormed, ClusterDomain, IsPeerSecure;
    var t := s.(revision := n);
    assert LagBounded(t) && NamesInv(t) && LabelsSafe(t) && RoundInv(t) && SpecInv(t);
  }

  /** Storing the member list, accepted or refused, or finding nothing to store. */
  lemma {:induction false} ListStoredKeeps(s: State)
    requires Inv(s) && s.round.CheckListed?
    ensures Inv(ListStored(s))
    ensures var r := s.round; Inv(s.(round := CheckRecorded(r.e, r.v, r.hasLearner, r.last)))
  {
    hide Inv, SameIdentity, WellFormed, AnyLearner;
    CheckedPosition(s);
    var r := s.round;
    var t := s.(round := CheckRecorded(r.e, r.v, r.hasLearner, r.last));
    RoundOnlyKeeps(s, t.round);
    RoundOnlyKeeps(s, Idle);
    RevisionKeeps(t, s.revision + 1);
  }

  lemma SaveTemplatesKeeps(s: State)
    requires Inv(s) && s.round.Refreshing?
    ensures Inv(SavedTemplates(s))
  {
    hide Refreshed, HasVote, WellFormed, MembersInOrder, LagBounded, NamesInv, SpecInv, LearnerIs, PeerNodeURL,
      ClusterDomain, IsPeerSecure;
    var app := Refreshed(s.round.e, s.versions[s.seen]);
    assert WellFormed(s.versions[s.seen], s.spec);
    RefreshedWellFormed(s.round.e, s.versions[s.seen], s.spec);
    assert IsCurrent(s, s.seen) ==> s.versions[s.seen] == Current(s);
    hide VersionsWellFormed;
    SaveIfChangedKeeps(s, app, Checking(s.round.e, false));
  }

  lemma EnvironmentKeeps(s: State, a: Action)
    requires Inv(s) && Enabled(s, a) && (a.Edit? || a.Touch? || a.Report? || a.Start? || a.Provision?)
    ensures Inv(Apply(s, a))
  {
    hide MembersInOrder, LearnerIs, LagBounded, NamesInv, LabelsSafe, SpecInv, RoundInv, VersionsWellFormed;
    match a
    case Edit(e) => EditKeeps(s, e);
    case Touch => RevisionKeeps(s, s.revision + 1);
    case Report(c) => ReportKeeps(s, c);
    case Start(i) => StartKeeps(s, i);
    case Provision(i) => ClaimsKeep(s, Apply(s, a).claims);
  }

  lemma ScalingKeeps(s: State, a: Action)
    requires Inv(s) && Enabled(s, a)
    requires a.AddMember? || a.SaveUp? || a.ListForDown? || a.RemoveMember? || a.SaveDown? || a.DeleteClaim?
    ensures Inv(Apply(s, a))
  {
    hide PeerNodeURL, MembersInOrder, LearnerIs, ClusterDomain, IsPeerSecure, LagBounded, NamesInv, LabelsSafe,
      SpecInv, VersionsWellFormed;
    match a
    case AddMember(id) => AddMemberKeeps(s, id);
    case SaveUp => SaveUpKeeps(s);
    case ListForDown => ListForDownKeeps(s);
    case RemoveMember => RemoveMemberKeeps(s);
    case SaveDown => SaveDownKeeps(s);
    case DeleteClaim => DeleteClaimKeeps(s);
  }

  lemma CheckingKeeps(s: State, a: Action)
    requires Inv(s) && Enabled(s, a)
    requires a.SaveTemplates? || a.ReadTApp? || a.ListForCheck? || a.StoreList? || a.KeepList? || a.FlipLabels?
             || a.PromoteMember?
    ensures Inv(Apply(s, a))
  {
    hide PeerNodeURL, MembersInOrder, LearnerIs, ClusterDomain, IsPeerSecure, LagBounded, NamesInv, LabelsSafe,
      SpecInv, VersionsWellFormed;
    match a
    case SaveTemplates => SaveTemplatesKeeps(s);
    case ReadTApp(v) => ReadTAppKeeps(s, v);
    case ListForCheck => RoundOnlyKeeps(s, CheckListed(s.round.e, s.round.v, AnyLearner(s.members), s.round.last));
    case StoreList => ListStoredKeeps(s);
    case KeepList => ListStoredKeeps(s);
    case FlipLabels => FlipLabelsKeeps(s);
    case PromoteMember(id) => PromoteMemberKeeps(s, id);
  }

  /** One step, whichever it is. */
  lemma StepKeeps(s: State, a: Action)
    requires Inv(s) && Enabled(s, a)
    ensures Inv(Apply(s, a))
  {
    hide PeerNodeURL, MembersInOrder, LearnerIs, ClusterDomain, IsPeerSecure, LagBounded, NamesInv, LabelsSafe,
      SpecInv, VersionsWellFormed;
    if a.Edit? || a.Touch? || a.Report? || a.Start? || a.Provision? {
      EnvironmentKeeps(s, a);
    } else if a.AddMember? || a.SaveUp? || a.ListForDown? || a.RemoveMember? || a.SaveDown? || a.DeleteClaim? {
      ScalingKeeps(s, a);
    } else if a.SaveTemplates? || a.ReadTApp? || a.ListForCheck? || a.StoreList? || a.KeepList? || a.FlipLabels?
              || a.PromoteMember? {
      CheckingKeeps(s, a);
    } else {
      match a
      case ReadSpec => ReadSpecKeeps(s);
      case Begin(v) => BeginKeeps(s, v);
      case Wait => RoundOnlyKeeps(s, Checking(s.round.e, false));
      case ListForUp => ListForUpKeeps(s);
      case KeepSize => RoundOnlyKeeps(s, Refreshing(s.round.e, s.round.v));
      case NothingToPromote => RoundOnlyKeeps(s, Idle);
      case Abort => RoundOnlyKeeps(s, Idle);
    }
  }

  /** Any number of steps, with any failures and any stale reads among them. */
  lemma {:induction false} RunKeeps(s: State, acts: seq<Action>)
    requires Inv(s) && Runs(s, acts)
    ensures Inv(Exec(s, acts))
    decreases |acts|
  {
    hide Inv, Enabled;
    if acts != [] {
      StepKeeps(s, acts[0]);
      RunKeeps(Apply(s, acts[0]), acts[1..]);
    }
  }
}
