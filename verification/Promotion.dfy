/** The end of a learner's life: once every member is a voter whose template the access service selects, and the spec
    names no learner, it stays that way (ensureMemberStatus and ensureLearner, pkg/controller/etcdcluster/etcd.go,
    lines 251-405). Undisturbed shows how it gets there. */
module Promotion {
  import opened Text
  import opened Cluster
  import opened NodeArgs
  import opened Protocol
  import opened ProtocolSafety
  import opened ScalingTheorems
  import opened Reachability
  import opened Convergence

  /** Every ordinal's template carries the voting label. */
  ghost predicate AllServed(app: TApp) {
    forall i: nat :: i < app.replicas ==> HasVote(app, i)
  }

  /** Everybody votes and is served. */
  ghost predicate Complete(s: State) {
    s.versions != [] && s.spec.learners == [] && !AnyLearner(s.members) && AllServed(Current(s))
  }

  // ----- what the label flip and the refresh do to the labels -----

  lemma {:induction false} FlippedServed(app: TApp)
    requires forall i: nat :: i < app.replicas ==> Decimal(i) in app.pool
    ensures AllServed(Flipped(app))
  {
    hide Decimal;
    forall i: nat | i < app.replicas ensures HasVote(Flipped(app), i) {
      assert Decimal(i) in Flipped(app).pool;
    }
  }

  // ----- promotion -----

  /** Learners that become voters are counted, and nobody else changes the count. */
  lemma {:induction false} VotersGrow(before: seq<Member>, now: seq<Member>)
    requires |before| == |now| && forall i :: 0 <= i < |now| ==> now[i].isLearner ==> before[i].isLearner
    ensures Voters(now) >= Voters(before)
    ensures (exists i :: 0 <= i < |now| && before[i].isLearner && !now[i].isLearner) ==> Voters(now) > Voters(before)
  {
    if now != [] {
      var k := |now| - 1;
      VotersGrow(before[..k], now[..k]);
      if i :| 0 <= i < |now| && before[i].isLearner && !now[i].isLearner {
        assert i < k ==> before[..k][i].isLearner && !now[..k][i].isLearner;
      }
    }
  }

  lemma {:induction false} PromotionAddsVoter(members: seq<Member>, id: nat)
    requires IsLearnerId(members, id)
    ensures Voters(Promoted(members, id)) > Voters(members)
  {
    var now := Promoted(members, id);
    var m :| m in members && m.id == id && m.isLearner;
    var i: nat :| i < |members| && members[i] == m;
    hide Promoted;
    assert members[i].isLearner && !now[i].isLearner;
    VotersGrow(members, now);
  }

  lemma {:induction false} VotersBound(members: seq<Member>)
    ensures Voters(members) <= |members|
    ensures Voters(members) == |members| ==> !AnyLearner(members)
  {
    if members != [] {
      var k := |members| - 1;
      VotersBound(members[..k]);
      if Voters(members) == |members| {
        forall m | m in members ensures !m.isLearner {
          assert m in members[..k] || m == members[k];
        }
      }
    }
  }

  lemma {:induction false} PoolOf(s: State)
    requires Inv(s)
    ensures s.seen < |s.versions| && forall i: nat :: i < Committed(s) ==> Decimal(i) in Current(s).pool
  {
    hide MembersInOrder, LagBounded, NamesInv, LabelsSafe, RoundInv, SpecInv;
    assert WellFormed(Current(s), s.spec);
    forall i: nat | i < Committed(s) ensures Decimal(i) in Current(s).pool {
      OrdinalWithin(i, Committed(s));
    }
  }

  // ----- nothing undoes it -----

  lemma {:induction false} CompleteStays(s: State, a: Action)
    requires Settling(s) && AtSize(s) && Complete(s) && Enabled(s, a) && !a.Edit?
    ensures Complete(Apply(s, a))
  {
    hide Inv, Enabled, Apply, AllServed, AnyLearner;
    SizeStays(s, a);
    AtSizeSound(s);
    AtSizeSound(Apply(s, a));
    StepApproaches(s, a);
    AcceptedWrites(s, a);
    NoNewLearner(s, a);
    StillServed(s, a);
  }

  lemma {:induction false} NoNewLearner(s: State, a: Action)
    requires Inv(s) && Enabled(s, a) && !a.Edit? && !AnyLearner(s.members) && |Apply(s, a).members| == |s.members|
    ensures !AnyLearner(Apply(s, a).members)
  {
    hide AnyLearner;
    SameLearnerFlags(s, a);
    NoLearnerAmong(s.members, Apply(s, a).members);
  }

  lemma {:induction false} NoLearnerAmong(before: seq<Member>, now: seq<Member>)
    requires |before| == |now| && forall i :: 0 <= i < |now| ==> now[i].isLearner ==> before[i].isLearner
    ensures AnyLearner(now) ==> AnyLearner(before)
  {
    if AnyLearner(now) {
      var m :| m in now && m.isLearner;
      var i: nat :| i < |now| && now[i] == m;
      assert before[i] in before;
    }
  }

  lemma {:induction false} SameLearnerFlags(s: State, a: Action)
    requires Inv(s) && Enabled(s, a) && !a.Edit? && |Apply(s, a).members| == |s.members|
    ensures forall i :: 0 <= i < |s.members| ==> Apply(s, a).members[i].isLearner ==> s.members[i].isLearner
  {
    hide Inv, PeerNodeURL, LearnerIs, EditOk, ScaledUp, Refreshed, Flipped, FindMember, WithoutMember, MemberName;
    if a.RemoveMember? {
      hide Enabled, Apply;
      RemovalTakesHighest(s);
    }
  }

  lemma {:induction false} StillServed(s: State, a: Action)
    requires Inv(s) && Enabled(s, a) && !a.Edit? && AllServed(Current(s)) && Apply(s, a).versions != []
    requires Committed(Apply(s, a)) == Committed(s)
    ensures AllServed(Current(Apply(s, a)))
  {
    hide MembersInOrder, NamesInv, LabelsSafe, SpecInv, VersionsWellFormed, PeerNodeURL, LearnerIs, EditOk,
      WellFormed, LagBounded;
    hide ScaledUp, Refreshed, Flipped, FindMember, WithoutMember, AllServed, Promoted;
    var cur := Current(s);
    match a {
      case Report(c) => ServedWithStatus(cur, c);
      case SaveTemplates =>
        RefreshedKeeps(s.round.e, s.versions[s.round.v]);
        ServedUnderRefresh(s.round.e, s.versions[s.round.v]);
      case FlipLabels =>
        PoolOf(s);
        FlippedReplicas(s.versions[s.round.v]);
        if IsCurrent(s, s.round.v) {
          FlippedServed(cur);
        }
      case SaveUp => ScaledUpReplicas(s.round.e, s.versions[s.round.v]);
      case _ =>
    }
  }

  lemma {:induction false} ServedWithStatus(app: TApp, c: PodCounts)
    ensures AllServed(app) ==> AllServed(app.(status := c))
  {
    hide Decimal;
    forall i: nat ensures HasVote(app.(status := c), i) == HasVote(app, i) {
    }
  }

  lemma {:induction false} ServedUnderRefresh(e: EtcdCluster, app: TApp)
    ensures AllServed(app) ==> AllServed(Refreshed(e, app))
  {
    RefreshedKeeps(e, app);
    hide Refreshed, Decimal;
    forall i: nat ensures HasVote(Refreshed(e, app), i) == HasVote(app, i) {
    }
  }

  /** With the spec left alone, every run keeps every member a voter and every template selectable. */
  lemma {:induction false} CompleteForEver(s: State, acts: seq<Action>)
    requires Settling(s) && AtSize(s) && Complete(s) && NoEdits(acts) && Runs(s, acts)
    ensures Complete(Exec(s, acts))
    decreases |acts|
  {
    hide Settling, Enabled, AtSize, Complete;
    if acts != [] {
      assert acts[0] in acts && forall a :: a in acts[1..] ==> a in acts;
      SettlingBounds(s);
      SizeStays(s, acts[0]);
      CompleteStays(s, acts[0]);
      SettlingBounds(Apply(s, acts[0]));
      CompleteForEver(Apply(s, acts[0]), acts[1..]);
    }
  }
}
