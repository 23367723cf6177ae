/** The spec edits the scaling protocol copes with, exactly: an edit that EditOk forbids can be followed by a run
    that leaves a gap in the membership or serves a learner, and one that it allows cannot. */
module EditDiscipline {
  import opened Text
  import opened Cluster
  import opened NodeArgs
  import opened Protocol
  import opened ProtocolSafety
  import opened ScalingTheorems
  import opened Reachability

  ghost predicate Safe(s: State) {
    s.versions != [] && MembershipSound(s) && LabelsSafe(s)
  }

  ghost predicate AlwaysSafe(s: State) {
    forall acts :: Runs(s, acts) ==> Safe(Exec(s, acts))
  }

  // ----- building blocks of the bad runs -----

  /** Between rounds, with membership in order under the spec of the moment. */
  ghost predicate Resting(s: State) {
    s.round.Idle? && s.seen < |s.versions| && MembersInOrder(s.members, s.spec)
  }

  lemma {:induction false} WithoutAt(members: seq<Member>, j: nat)
    requires j < |members|
    requires forall a, b :: 0 <= a < b < |members| ==> members[a].id != members[b].id
    ensures WithoutMember(members, members[j].id) == members[..j] + members[j + 1..]
  {
    if j == 0 {
      WithoutNone(members[1..], members[0].id);
    } else {
      WithoutAt(members[1..], j - 1);
      assert members[1..][j - 1] == members[j];
      assert members[..j] == [members[0]] + members[1..][..j - 1] && members[j + 1..] == members[1..][j..];
    }
  }

  /** A removal against a TApp that does not know the newest member takes out the one before it. */
  lemma ShrinkMakesGap(s: State)
    requires Resting(s) && |s.members| == Observed(s) + 1 && 1 <= s.spec.size < Observed(s)
    ensures exists t :: Reaches(s, t) && !Safe(t)
  {
    hide PeerNodeURL, LearnerIs, ClusterDomain, IsPeerSecure, EditOk, WellFormed;
    var f := Observed(s);
    FindInOrder(s.members, s.spec, f - 1);
    WithoutAt(s.members, f - 1);
    hide FindMember, WithoutMember;
    var s1 := Begun(s, s.seen);
    var s2 := s1.(round := DownListed(s.spec, s.seen, s.members[f - 1].id));
    assert Enabled(s1, ListForDown) && Apply(s1, ListForDown) == s2;
    var t := s2.(members := s.members[..f - 1] + s.members[f..], round := DownLeft(s.spec, s.seen));
    assert Enabled(s2, RemoveMember) && Apply(s2, RemoveMember) == t;
    Stay(t);
    After(s2, RemoveMember, t);
    After(s1, ListForDown, t);
    FetchRound(s, s.seen, t);
    GapIsUnsafe(s, t);
  }

  lemma GapIsUnsafe(s: State, t: State)
    requires MembersInOrder(s.members, s.spec) && t.spec == s.spec && |s.members| >= 2
    requires t.members == s.members[..|s.members| - 2] + s.members[|s.members| - 1..]
    ensures !Safe(t)
  {
    hide PeerNodeURL, LabelsSafe;
    var g := |s.members| - 2;
    if HasMember(t, g) {
      var m :| m in t.members && m.peerURLs == [PeerNodeURL(t.spec, g)];
      var j :| 0 <= j < |t.members| && t.members[j] == m;
      var i: nat := if j < g then j else g + 1;
      assert m == s.members[i];
      OrdinalNamesInjective(s.spec, i, g);
      assert false;
    }
  }

  /** All pods ready, then a scale-up round that finds a member count other than Replicas, so adds nobody. */
  lemma GrowBlindly(s: State) returns (t: State)
    requires Resting(s) && |s.members| != Committed(s) && s.spec.size > Committed(s) && Named(s.members, Committed(s))
    ensures Reaches(s, t) && t.members == s.members && t.spec == s.spec && t.versions != []
    ensures Current(t) == ScaledUp(s.spec, Current(s).(status := PodCounts(Committed(s), Committed(s))))
  {
    hide PeerNodeURL, LearnerIs, ClusterDomain, IsPeerSecure, EditOk, WellFormed, ScaledUp, MembersInOrder;
    var r := Committed(s);
    var ready := Current(s).(status := PodCounts(r, r));
    var v := |s.versions|;
    var id := SomeUnused(s.members);
    var s1 := s.(versions := s.versions + [ready]);
    assert Enabled(s, Report(PodCounts(r, r))) && Apply(s, Report(PodCounts(r, r))) == s1;
    assert s1.versions[v] == ready;
    var s2 := Begun(s1, v);
    var s3 := s2.(round := UpListed(s.spec, v, |s.members|));
    assert Enabled(s2, ListForUp) && Apply(s2, ListForUp) == s3;
    var s4 := s3.(round := UpJoined(s.spec, v));
    assert Enabled(s3, AddMember(id)) && Apply(s3, AddMember(id)) == s4;
    t := s4.(versions := s1.versions + [ScaledUp(s.spec, ready)], round := Refreshing(s.spec, v));
    assert Enabled(s4, SaveUp) && Apply(s4, SaveUp) == t;
    Stay(t);
    After(s4, SaveUp, t);
    After(s3, AddMember(id), t);
    After(s2, ListForUp, t);
    FetchRound(s1, v, t);
    After(s, Report(PodCounts(r, r)), t);
  }

  /** After a reversed removal the TApp runs two ordinals ahead of the membership. */
  lemma GrowOutrunsMembers(s: State)
    requires Resting(s) && |s.members| + 1 == Committed(s) < s.spec.size && Named(s.members, |s.members|)
    ensures exists t :: Reaches(s, t) && !Safe(t)
  {
    hide Reaches, PeerNodeURL, LearnerIs, WellFormed, MembersInOrder, HasMember;
    var t := GrowBlindly(s);
    var ready := Current(s).(status := PodCounts(Committed(s), Committed(s)));
    WithArgsKeeps(s.spec, Extended(s.spec, ready));
    assert Committed(t) == Committed(s) + 1;
    assert !MembershipSound(t);
  }

  lemma GrowServesLearner(s: State)
    requires Resting(s) && |s.members| == Committed(s) + 1 && s.members[Committed(s)].isLearner
    requires Named(s.members, Committed(s)) && WellFormed(Current(s), s.spec)
    requires Committed(s) < s.spec.size <= 7 && !LearnerIs(s.spec, Committed(s)) && HasVote(Current(s), 0)
    ensures exists t :: Reaches(s, t) && !Safe(t)
  {
    hide Reaches, PeerNodeURL, LearnerIs, MembersInOrder, HasMember;
    var t := GrowBlindly(s);
    var ready := Current(s).(status := PodCounts(Committed(s), Committed(s)));
    ScaledUpWellFormed(s.spec, ready, s.spec);
    hide ScaledUp;
    assert HasVote(Current(t), Committed(s)) && t.members[Committed(s)].isLearner;
    assert !LabelsSafe(t);
  }

  /** A round that has read a larger size, seen through until it has read the TApp with all pods ready. */
  lemma {:induction false} FetchUp(s: State, e: EtcdCluster) returns (t: State)
    requires Inv(s) && GrowPending(s) && s.round.SpecRead? && SameIdentity(s.spec, e)
    ensures Inv(t) && t.round.Fetched? && GrowPending(t) && t.round.e == s.round.e && t.spec == s.spec
    ensures Reaches(Edited(s, e), Edited(t, e))
    ensures Current(t) == Current(s).(status := PodCounts(Committed(s), Committed(s))) && |t.members| == |s.members|
  {
    hide Inv, SameIdentity, Reaches, MemberName, LearnerIs;
    var n := StartNewest(s, e);
    t := FetchReady(n, e);
    Transitive(Edited(s, e), Edited(n, e), Edited(t, e));
  }

  lemma {:induction false} StartNewest(s: State, e: EtcdCluster) returns (t: State)
    requires Inv(s) && GrowPending(s) && SameIdentity(s.spec, e)
    ensures Inv(t) && t == s.(members := t.members) && |t.members| == |s.members| && Named(t.members, |t.members|)
    ensures Reaches(Edited(s, e), Edited(t, e))
  {
    InvBounds(s);
    hide MembersInOrder, LabelsSafe, SpecInv, VersionsWellFormed, LagBounded, RoundInv, Reaches, LearnerIs, AllReady;
    var last := |s.members| - 1;
    if Named(s.members, |s.members|) {
      t := s;
      Stay(Edited(s, e));
    } else {
      hide MemberName, NameForTApp, SameIdentity, Started, EditOk;
      t := Started(s, last);
      StartKeeps(s, last);
      Stay(Edited(t, e));
      StartUnderEdit(s, e, last);
      After(Edited(s, e), Start(last), Edited(t, e));
      NewestNamed(s, last);
    }
  }

  lemma {:induction false} StartUnderEdit(s: State, e: EtcdCluster, i: nat)
    requires s.seen < |s.versions| && i < |s.members| && i < Committed(s) && SameIdentity(s.spec, e)
    requires HoldsVersion(s.round) ==> s.round.v < |s.versions|
    ensures Enabled(s, Start(i))
    ensures Enabled(Edited(s, e), Start(i)) && Apply(Edited(s, e), Start(i)) == Edited(Started(s, i), e)
  {
    AppNameUnder(s.spec, e);
    hide MemberName, NameForTApp, SameIdentity, EditOk;
  }

  lemma {:induction false} NewestNamed(s: State, i: nat)
    requires i + 1 == |s.members| && Named(s.members, i)
    ensures var t := Started(s, i);
            t == s.(members := t.members) && |t.members| == |s.members| && Named(t.members, |t.members|)
  {
    MemberNameGiven(s.spec, i);
    hide MemberName, NameForTApp;
  }

  lemma {:induction false} AppNameUnder(e: EtcdCluster, f: EtcdCluster)
    requires SameIdentity(e, f)
    ensures NameForTApp(e) == NameForTApp(f)
  {
  }

  lemma {:induction false} MemberNameGiven(e: EtcdCluster, i: nat)
    ensures MemberName(NameForTApp(e), i) != ""
  {
  }

  lemma {:induction false} FetchReady(s: State, e: EtcdCluster) returns (t: State)
    requires Inv(s) && GrowPending(s) && s.round.SpecRead? && Named(s.members, |s.members|)
    ensures Inv(t) && t.round.Fetched? && GrowPending(t)
    ensures t.round.e == s.round.e && t.spec == s.spec && t.members == s.members
    ensures Reaches(Edited(s, e), Edited(t, e))
    ensures Current(t) == Current(s).(status := PodCounts(Committed(s), Committed(s)))
  {
    hide Inv, Reaches, EditOk;
    InvBounds(s);
    var r, v, u := Committed(s), |s.versions|, Edited(s, e);
    var c := PodCounts(r, r);
    assert Enabled(s, Report(c));
    StepKeeps(s, Report(c));
    var s1 := Apply(s, Report(c));
    assert Enabled(s1, Begin(v));
    StepKeeps(s1, Begin(v));
    t := Apply(s1, Begin(v));
    assert Enabled(u, Report(c)) && Apply(u, Report(c)) == Edited(s1, e);
    assert Enabled(Edited(s1, e), Begin(v)) && Apply(Edited(s1, e), Begin(v)) == Edited(t, e);
    Stay(Edited(t, e));
    After(Edited(s1, e), Begin(v), Edited(t, e));
    After(u, Report(c), Edited(t, e));
  }

  /** A round that has read a smaller size, seen through until it has read the TApp. */
  lemma {:induction false} FetchDown(s: State, e: EtcdCluster) returns (t: State)
    requires Inv(s) && ShrinkPending(s) && s.round.SpecRead?
    ensures Inv(t) && t.round.Fetched? && ShrinkPending(t) && t.spec == s.spec
    ensures t.members == s.members && t.versions == s.versions
    ensures Reaches(Edited(s, e), Edited(t, e))
  {
    hide Inv, Reaches, EditOk;
    InvBounds(s);
    var v, u := |s.versions| - 1, Edited(s, e);
    assert Enabled(s, Begin(v));
    StepKeeps(s, Begin(v));
    t := Apply(s, Begin(v));
    assert Enabled(u, Begin(v)) && Apply(u, Begin(v)) == Edited(t, e);
    Stay(Edited(t, e));
    After(u, Begin(v), Edited(t, e));
  }

  /** Letting a pending addition happen and then stopping the round. */
  lemma {:induction false} FinishAddition(s: State, e: EtcdCluster) returns (t: State)
    requires Inv(s) && GrowPending(s) && SameIdentity(s.spec, e)
    ensures Reaches(Edited(s, e), t) && Resting(t) && t.spec == e && t.seen < |t.versions|
    ensures Observed(t) == Committed(t) == |s.members|
    ensures |t.members| == |s.members| + 1 && Named(t.members, |s.members|)
    ensures Current(t).(status := Current(s).status) == Current(s)
    ensures t.members[|s.members|].isLearner == LearnerIs(s.round.e, |s.members|)
  {
    hide Inv, SameIdentity, Reaches, LearnerIs;
    if s.round.SpecRead? {
      var u := FetchUp(s, e);
      IdentityKept(s, u, e);
      t := FinishDecided(u, e);
      Transitive(Edited(s, e), Edited(u, e), t);
    } else {
      t := FinishDecided(s, e);
    }
  }

  lemma {:induction false} IdentityKept(s: State, u: State, e: EtcdCluster)
    requires SameIdentity(s.spec, e) && u.spec == s.spec
    ensures SameIdentity(u.spec, e)
  {
  }

  lemma {:induction false} FinishDecided(s: State, e: EtcdCluster) returns (t: State)
    requires Inv(s) && GrowPending(s) && !s.round.SpecRead? && SameIdentity(s.spec, e)
    ensures Observed(s) == Committed(s) == |s.members| && Named(s.members, |s.members|)
    ensures Reaches(Edited(s, e), t) && Resting(t) && t == Edited(s, e).(members := t.members, round := Idle)
    ensures |t.members| == |s.members| + 1 && t.members[..|s.members|] == s.members
    ensures t.members[|s.members|].isLearner == LearnerIs(s.round.e, |s.members|)
  {
    hide SameIdentity, PeerNodeURL, LearnerIs, MembersInOrder, Reaches, Inv;
    GrowFacts(s);
    var id := SomeUnused(s.members);
    var m := Member(id, [PeerNodeURL(s.round.e, |s.members|)], "", LearnerIs(s.round.e, |s.members|));
    JoinOrder(s, m);
    OrderUnderSameIdentity(s.members + [m], s.spec, e);
    AdditionRun(Edited(s, e), m);
    t := Edited(s, e).(members := s.members + [m], round := Idle);
  }

  lemma {:induction false} GrowFacts(s: State)
    requires Inv(s) && GrowPending(s) && !s.round.SpecRead?
    ensures Observed(s) == Committed(s) == |s.members| && Named(s.members, |s.members|)
    ensures !s.round.Idle? && HoldsVersion(s.round) && s.round.v == s.seen < |s.versions|
    ensures s.round.UpListed? ==> s.round.count == |s.members|
    ensures SameIdentity(s.spec, s.round.e) && MembersInOrder(s.members, s.spec)
  {
    hide PeerNodeURL, LearnerIs, ClusterDomain, IsPeerSecure, WellFormed, LabelsSafe, SpecInv, MembersInOrder,
      VersionsWellFormed;
  }

  lemma AdditionRun(s: State, m: Member)
    requires s.seen < |s.versions| && GrowPending(s) && !s.round.SpecRead? && s.round.v == s.seen
    requires s.round.UpListed? ==> s.round.count == |s.members|
    requires Unused(s.members, m.id)
    requires m == Member(m.id, [PeerNodeURL(s.round.e, |s.members|)], "", LearnerIs(s.round.e, |s.members|))
    ensures Reaches(s, s.(members := s.members + [m], round := Idle))
  {
    hide PeerNodeURL, LearnerIs, EditOk, Unused;
    var r := s.round;
    var s2 := s.(round := UpListed(r.e, s.seen, |s.members|));
    var s3 := s2.(members := s.members + [m], round := UpJoined(r.e, s.seen));
    var t := s3.(round := Idle);
    assert Enabled(s2, AddMember(m.id)) && Apply(s2, AddMember(m.id)) == s3;
    GiveUp(s3);
    After(s2, AddMember(m.id), t);
    if s.round.Fetched? {
      assert Enabled(s, ListForUp) && Apply(s, ListForUp) == s2;
      After(s, ListForUp, t);
    } else {
      assert s == s2;
    }
  }

  /** Letting a pending removal happen and then stopping the round. */
  lemma {:induction false} FinishRemoval(s: State, e: EtcdCluster) returns (t: State)
    requires Inv(s) && ShrinkPending(s) && SameIdentity(s.spec, e)
    ensures Reaches(Edited(s, e), t) && Resting(t) && t.spec == e
    ensures Committed(t) == Committed(s) == |s.members| == |t.members| + 1 && Named(t.members, |t.members|)
  {
    hide Inv, SameIdentity, Reaches, Resting;
    if s.round.SpecRead? {
      var u := FetchDown(s, e);
      IdentityKept(s, u, e);
      t := FinishLeaving(u, e);
      Transitive(Edited(s, e), Edited(u, e), t);
    } else {
      t := FinishLeaving(s, e);
    }
  }

  lemma {:induction false} FinishLeaving(s: State, e: EtcdCluster) returns (t: State)
    requires Inv(s) && ShrinkPending(s) && !s.round.SpecRead? && SameIdentity(s.spec, e)
    ensures Reaches(Edited(s, e), t) && Resting(t) && t == Edited(s, e).(members := t.members, round := Idle)
    ensures |s.members| > 0 && t.members == s.members[..|s.members| - 1] && Named(t.members, |t.members|)
  {
    hide Inv, PeerNodeURL, SameIdentity, FindMember, WithoutMember, Reaches, MembersInOrder, Named;
    ShrinkFacts(s);
    var k := |s.members|;
    RemovalFacts(s);
    t := Edited(s, e).(members := s.members[..k - 1], round := Idle);
    PrefixInOrder(s.members, s.spec, e);
    RemovalRun(Edited(s, e));
  }

  lemma ShrinkFacts(s: State)
    requires Inv(s) && ShrinkPending(s) && !s.round.SpecRead?
    ensures Observed(s) == Committed(s) == |s.members| && |s.members| > 0 && s.round.v == s.seen < |s.versions|
    ensures SameIdentity(s.spec, s.round.e) && MembersInOrder(s.members, s.spec)
    ensures s.round.DownListed? ==> s.round.id == s.members[|s.members| - 1].id
    ensures Named(s.members[..|s.members| - 1], |s.members| - 1)
  {
    hide PeerNodeURL, LearnerIs, ClusterDomain, IsPeerSecure, WellFormed, LabelsSafe, SpecInv, MembersInOrder;
  }

  lemma RemovalFacts(s: State)
    requires MembersInOrder(s.members, s.spec) && |s.members| > 0 && !s.round.Idle? && SameIdentity(s.spec, s.round.e)
    ensures var last := s.members[|s.members| - 1].id;
            && last != 0
            && FindMember(s.members, PeerNodeURL(s.round.e, |s.members| - 1)) == last
            && WithoutMember(s.members, last) == s.members[..|s.members| - 1]
  {
    SameNames(s.spec, s.round.e, |s.members| - 1);
    FindInOrder(s.members, s.spec, |s.members| - 1);
    WithoutLast(s.members);
  }

  lemma PrefixInOrder(members: seq<Member>, e: EtcdCluster, f: EtcdCluster)
    requires MembersInOrder(members, e) && SameIdentity(e, f) && members != []
    ensures MembersInOrder(members[..|members| - 1], f)
  {
    OrderUnderSameIdentity(members, e, f);
    hide PeerNodeURL, SameIdentity;
  }

  lemma RemovalRun(s: State)
    requires s.seen < |s.versions| && ShrinkPending(s) && !s.round.SpecRead? && s.round.v == s.seen && |s.members| > 0
    requires s.round.DownListed? ==> s.round.id == s.members[|s.members| - 1].id
    requires s.members[|s.members| - 1].id != 0
    requires FindMember(s.members, PeerNodeURL(s.round.e, |s.members| - 1)) == s.members[|s.members| - 1].id
    requires WithoutMember(s.members, s.members[|s.members| - 1].id) == s.members[..|s.members| - 1]
    ensures Reaches(s, s.(members := s.members[..|s.members| - 1], round := Idle))
  {
    hide PeerNodeURL, LearnerIs, EditOk, FindMember, WithoutMember;
    var k, r := |s.members|, s.round;
    var s2 := s.(round := DownListed(r.e, s.seen, s.members[k - 1].id));
    var s3 := s2.(members := s.members[..k - 1], round := DownLeft(r.e, s.seen));
    var t := s3.(round := Idle);
    assert Enabled(s2, RemoveMember) && Apply(s2, RemoveMember) == s3;
    GiveUp(s3);
    After(s2, RemoveMember, t);
    if s.round.Fetched? {
      assert Enabled(s, ListForDown) && Apply(s, ListForDown) == s2;
      After(s, ListForDown, t);
    } else {
      assert s == s2;
    }
  }

  // ----- every forbidden edit has a bad run -----

  lemma ForbiddenSize(s: State, e: EtcdCluster)
    requires Inv(s) && SameIdentity(s.spec, e) && Admitted(e) && !SizeOk(s, e.size)
    ensures exists t :: Reaches(Edited(s, e), t) && !Safe(t)
  {
    var u := Edited(s, e);
    OrderUnderSameIdentity(s.members, s.spec, e);
    hide PeerNodeURL, LearnerIs, ClusterDomain, IsPeerSecure, WellFormed, LabelsSafe, SpecInv, Reaches, Safe,
      MembersInOrder;
    if GrowPending(s) && e.size < Committed(s) {
      var t := FinishAddition(s, e);
      ShrinkMakesGap(t);
      Chain(u, t);
    } else if ShrinkPending(s) && e.size > Committed(s) {
      var t := FinishRemoval(s, e);
      GrowOutrunsMembers(t);
      Chain(u, t);
    } else {
      GiveUp(u);
      var t := u.(round := Idle);
      assert Resting(t);
      if |s.members| > Observed(s) {
        ShrinkMakesGap(t);
      } else {
        GrowOutrunsMembers(t);
      }
      Chain(u, t);
    }
  }

  lemma Chain(u: State, t: State)
    requires Reaches(u, t) && exists w :: Reaches(t, w) && !Safe(w)
    ensures exists w :: Reaches(u, w) && !Safe(w)
  {
    hide Reaches, Safe;
    var w :| Reaches(t, w) && !Safe(w);
    Transitive(u, t, w);
  }

  lemma ForbiddenLearner(s: State, e: EtcdCluster)
    requires Inv(s) && SameIdentity(s.spec, e) && Admitted(e) && !LearnersOk(s, e)
    ensures exists t :: Reaches(Edited(s, e), t) && !Safe(t)
  {
    hide Inv, SameIdentity, LearnerIs, WellFormed, Reaches, Safe, HasVote, Resting;
    InvBounds(s);
    if GrowPending(s) && LearnerIs(s.round.e, Committed(s)) {
      TAppUnderSameIdentity(s, e);
      var t := FinishAddition(s, e);
      StatusIsNotLooked(Current(s), Current(t), e);
      LearnerRun(Edited(s, e), t);
    } else {
      HalfAddedLearner(s, e);
    }
  }

  lemma {:induction false} StatusIsNotLooked(a: TApp, b: TApp, e: EtcdCluster)
    requires b.(status := a.status) == a && WellFormed(a, e)
    ensures WellFormed(b, e) && HasVote(b, 0) == HasVote(a, 0)
  {
    hide Decimal, NameForTApp;
  }

  lemma InvBounds(s: State)
    requires Inv(s)
    ensures s.seen < |s.versions|
    ensures HoldsVersion(s.round) ==> s.round.v < |s.versions|
  {
  }

  lemma HalfAddedLearner(s: State, e: EtcdCluster)
    requires Inv(s) && SameIdentity(s.spec, e) && Admitted(e)
    requires |s.members| == Committed(s) + 1 && s.members[Committed(s)].isLearner
    requires !LearnerIs(e, Committed(s)) && e.size > Committed(s) && HasVote(Current(s), 0)
    ensures exists t :: Reaches(Edited(s, e), t) && !Safe(t)
  {
    hide Inv, SameIdentity, LearnerIs, WellFormed, Reaches, Safe, HasVote, Resting;
    TAppUnderSameIdentity(s, e);
    HalfAddedFacts(s, e);
    var t := Edited(s, e).(round := Idle);
    GiveUp(Edited(s, e));
    LearnerRun(Edited(s, e), t);
  }

  lemma LearnerRun(u: State, t: State)
    requires Reaches(u, t) && Resting(t) && |t.members| == Committed(t) + 1 && t.members[Committed(t)].isLearner
    requires Named(t.members, Committed(t)) && WellFormed(Current(t), t.spec)
    requires Committed(t) < t.spec.size <= 7 && !LearnerIs(t.spec, Committed(t)) && HasVote(Current(t), 0)
    ensures exists w :: Reaches(u, w) && !Safe(w)
  {
    hide LearnerIs, WellFormed, Reaches, Safe, HasVote, MembersInOrder;
    GrowServesLearner(t);
    Chain(u, t);
  }

  lemma HalfAddedFacts(s: State, e: EtcdCluster)
    requires Inv(s) && SameIdentity(s.spec, e) && |s.members| == Committed(s) + 1
    ensures s.seen < |s.versions| && Named(s.members, Committed(s)) && Resting(Edited(s, e).(round := Idle))
    ensures HoldsVersion(s.round) ==> s.round.v < |s.versions|
  {
    OrderUnderSameIdentity(s.members, s.spec, e);
    hide PeerNodeURL, LearnerIs, ClusterDomain, IsPeerSecure, WellFormed, LabelsSafe, SpecInv, MembersInOrder;
  }

  lemma TAppUnderSameIdentity(s: State, e: EtcdCluster)
    requires Inv(s) && SameIdentity(s.spec, e)
    ensures WellFormed(Current(s), e)
  {
    hide MembersInOrder, LagBounded, NamesInv, LabelsSafe, RoundInv, SpecInv;
    assert WellFormed(Current(s), s.spec);
  }

  /** In any state of a disciplined run, an edit within the admitted range never leads to a broken membership or a
      served learner if and only if EditOk allows it. */
  lemma EditExact(s: State, e: EtcdCluster)
    requires Inv(s) && SameIdentity(s.spec, e) && Admitted(e)
    ensures EditOk(s, e) <==> AlwaysSafe(Edited(s, e))
  {
    var u := Edited(s, e);
    if EditOk(s, e) {
      EditKeeps(s, e);
      forall acts | Runs(u, acts) ensures Safe(Exec(u, acts)) {
        SafeRun(u, acts);
      }
    } else {
      if SizeOk(s, e.size) {
        ForbiddenLearner(s, e);
      } else {
        ForbiddenSize(s, e);
      }
      hide Safe, Runs, Exec;
      var t :| Reaches(u, t) && !Safe(t);
    }
  }

  lemma SafeRun(s: State, acts: seq<Action>)
    requires Inv(s) && Runs(s, acts)
    ensures Safe(Exec(s, acts))
  {
    hide Runs, Exec, MembershipSound, LabelsSafe, MembersInOrder, LagBounded, NamesInv, RoundInv, SpecInv,
      VersionsWellFormed;
    RunKeeps(s, acts);
    InvMembership(Exec(s, acts));
  }

  // ----- what a user can see -----

  /** An edit judged by what anybody can look up: the spec it replaces, the current TApp and etcd's member list. It
      does not cross Replicas against a half-done step, nor against the step that the present spec may have set off;
      and it does not withdraw a learner that is, or may be, on its way in. */
  predicate VisibleOk(s: State, e: EtcdCluster)
    requires s.versions != []
  {
    var r, k, n := Committed(s), |s.members|, e.size;
    && SameIdentity(s.spec, e)
    && Admitted(e)
    && (k > r ==> n >= r)
    && (k < r ==> n <= r)
    && (k == r ==> n == r || (s.spec.size > r && n >= r) || (s.spec.size < r && s.spec.size <= n <= r))
    && (n <= r || LearnerIs(e, r) || !HasVote(Current(s), 0)
        || (k == r && s.spec.size > r && !LearnerIs(s.spec, r))
        || (k > r && !s.members[r].isLearner))
  }

  /** Such an edit is allowed wherever the reconciler is in its pass and whatever it has read so far. */
  lemma {:induction false} VisibleIsEnough(s: State, e: EtcdCluster)
    requires Inv(s) && VisibleOk(s, e)
    ensures EditOk(s, e)
  {
    hide PeerNodeURL, MembersInOrder, LearnerIs, WellFormed, ClusterDomain, IsPeerSecure, AllReady, NamesInv,
      LabelsSafe, HasVote, VersionsWellFormed;
  }

  /** At rest: no pass in flight works with another size, the lister has caught up, and TApp and etcd agree with the
      size. */
  ghost predicate AtRest(s: State) {
    && Inv(s)
    && (!s.round.Idle? ==> s.round.e.size == s.spec.size)
    && Observed(s) == Committed(s) == |s.members| == s.spec.size
  }

  /** At rest every admitted edit is allowed; Convergence.RestLasts says how long that is. */
  lemma {:induction false} AtRestEverythingGoes(s: State, e: EtcdCluster)
    requires AtRest(s) && SameIdentity(s.spec, e) && Admitted(e)
    ensures EditOk(s, e)
  {
    hide PeerNodeURL, MembersInOrder, LearnerIs, WellFormed, ClusterDomain, IsPeerSecure, AllReady, NamesInv,
      LabelsSafe, HasVote, VersionsWellFormed;
  }
}
