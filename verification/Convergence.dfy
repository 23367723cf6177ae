/** With the spec left alone, scaling only ever moves towards it, can always get there, and then leaves etcd alone. */
module Convergence {
  import opened Text
  import opened Cluster
  import opened NodeArgs
  import opened Protocol
  import opened ProtocolSafety
  import opened ScalingTheorems
  import opened Reachability
  import opened EditDiscipline

  /** How far the TApp is from the size asked for. */
  function Distance(s: State): nat
    requires s.versions != []
  {
    if s.spec.size >= Committed(s) then s.spec.size - Committed(s) else Committed(s) - s.spec.size
  }

  /** No round works with an outdated size, and a half-done step goes in the direction of the current one. Holds
      whenever membership and TApp agree and no round is in flight, see Quiescent. It leaves out the states that an
      allowed edit can get stuck in: Size set to Replicas while a step is half-done; see SizeReachableExactly. */
  ghost predicate Settling(s: State) {
    && Inv(s)
    && (!s.round.Idle? ==> s.round.e.size == s.spec.size)
    && (|s.members| > Committed(s) ==> s.spec.size > Committed(s))
    && (|s.members| < Committed(s) ==> s.spec.size < Committed(s))
  }

  lemma Quiescent(s: State)
    requires Inv(s) && s.round.Idle? && |s.members| == Committed(s)
    ensures Settling(s)
  {
  }

  /** Failed, stale and idle steps never move the TApp away from the size; a step that changes Replicas moves it
      closer. */
  lemma StepApproaches(s: State, a: Action)
    requires Settling(s) && Enabled(s, a) && !a.Edit?
    ensures var t := Apply(s, a);
            && Settling(t) && t.spec == s.spec && Distance(t) <= Distance(s)
            && (Distance(t) < Distance(s) <==> Committed(t) != Committed(s))
  {
    hide Inv, Enabled, Apply;
    StepKeeps(s, a);
    AcceptedWrites(s, a);
    StepSizes(s, a);
  }

  /** The size a round works with is the one it started with; only two actions change the number of members, each by
      one, from agreement with the TApp, and in the direction of that size. */
  predicate SizeStep(s: State, a: Action, t: State) {
    && s.versions != [] && t.versions != [] && t.spec == s.spec
    && (t.round.Idle? || t.round.e.size == if s.round.Idle? then s.spec.size else s.round.e.size)
    && (|t.members| == |s.members| || (a.AddMember? && GrewByOne(s, t)) || (a.RemoveMember? && ShrankByOne(s, t)))
  }

  predicate GrewByOne(s: State, t: State)
    requires s.versions != []
  {
    !s.round.Idle? && |t.members| == |s.members| + 1 == Committed(s) + 1 && s.round.e.size > Committed(s)
  }

  predicate ShrankByOne(s: State, t: State)
    requires s.versions != []
  {
    !s.round.Idle? && |t.members| == |s.members| - 1 == Committed(s) - 1 && s.round.e.size < Committed(s)
  }

  lemma StepSizes(s: State, a: Action)
    requires Inv(s) && Enabled(s, a) && !a.Edit?
    ensures SizeStep(s, a, Apply(s, a))
  {
    hide Inv, Enabled, Apply, SizeStep;
    if a.AddMember? || a.RemoveMember? {
      MemberStepSizes(s, a);
    } else {
      OtherStepSizes(s, a);
    }
  }

  lemma MemberStepSizes(s: State, a: Action)
    requires Inv(s) && Enabled(s, a) && (a.AddMember? || a.RemoveMember?)
    ensures SizeStep(s, a, Apply(s, a))
  {
    hide MembersInOrder, NamesInv, LabelsSafe, SpecInv, VersionsWellFormed, PeerNodeURL, LearnerIs, EditOk, HasVote,
      WellFormed;
    hide ScaledUp, Refreshed, Flipped, FindMember, WithoutMember;
    if a.RemoveMember? {
      RemoveMemberKeeps(s);
    }
  }

  lemma OtherStepSizes(s: State, a: Action)
    requires Inv(s) && Enabled(s, a) && !a.Edit? && !a.AddMember? && !a.RemoveMember?
    ensures SizeStep(s, a, Apply(s, a))
  {
    hide Inv, EditOk, PeerNodeURL, LearnerIs, FindMember, WithoutMember, ScaledUp, ScaledDown, Refreshed, Flipped,
      MemberName, PVCNameForEtcd, AnyLearner, IsLearnerId, AllReady;
  }

  lemma {:induction false} RunApproaches(s: State, acts: seq<Action>)
    requires Settling(s) && NoEdits(acts) && Runs(s, acts)
    ensures var t := Exec(s, acts); Settling(t) && t.spec == s.spec && Distance(t) <= Distance(s)
    decreases |acts|
  {
    hide Settling, Enabled, Distance;
    SettlingBounds(s);
    if acts != [] {
      assert acts[0] in acts && forall a :: a in acts[1..] ==> a in acts;
      StepApproaches(s, acts[0]);
      RunApproaches(Apply(s, acts[0]), acts[1..]);
    }
  }

  lemma SettlingBounds(s: State)
    requires Settling(s)
    ensures s.seen < |s.versions|
  {
  }

  ghost predicate AtSize(s: State)
    requires s.versions != []
  {
    Committed(s) == s.spec.size
  }

  function PeerURLs(members: seq<Member>): seq<seq<string>> {
    seq(|members|, i requires 0 <= i < |members| => members[i].peerURLs)
  }

  /** Once there, etcd has exactly the ordinals 0..Size-1, and no later round adds or removes anybody. */
  lemma SizeStays(s: State, a: Action)
    requires Settling(s) && AtSize(s) && Enabled(s, a) && !a.Edit?
    ensures MembershipSound(s) && |s.members| == s.spec.size
    ensures var t := Apply(s, a); Settling(t) && AtSize(t) && PeerURLs(t.members) == PeerURLs(s.members)
  {
    hide Inv, Enabled, Apply, MembershipSound, PeerURLs;
    AtSizeSound(s);
    StepApproaches(s, a);
    AtSizeSound(Apply(s, a));
    SameCountSameURLs(s, a);
  }

  lemma SameCountSameURLs(s: State, a: Action)
    requires Inv(s) && Enabled(s, a) && !a.Edit? && |Apply(s, a).members| == |s.members|
    ensures PeerURLs(Apply(s, a).members) == PeerURLs(s.members)
  {
    hide Inv;
    if a.RemoveMember? {
      hide Enabled, Apply;
      RemovalTakesHighest(s);
    } else {
      URLsKept(s, a);
    }
  }

  lemma URLsKept(s: State, a: Action)
    requires Enabled(s, a) && !a.RemoveMember? && |Apply(s, a).members| == |s.members|
    ensures PeerURLs(Apply(s, a).members) == PeerURLs(s.members)
  {
    hide EditOk, PeerNodeURL, LearnerIs, ScaledUp, ScaledDown, Refreshed, Flipped, FindMember, AnyLearner, IsLearnerId,
      AllReady, MemberName, PVCNameForEtcd;
    var t := Apply(s, a);
    assert forall i :: 0 <= i < |s.members| ==> t.members[i].peerURLs == s.members[i].peerURLs;
  }

  lemma {:induction false} SizeStaysForEver(s: State, acts: seq<Action>)
    requires Settling(s) && AtSize(s) && NoEdits(acts) && Runs(s, acts)
    ensures var t := Exec(s, acts);
            && t.versions != [] && AtSize(t) && |t.members| == t.spec.size == s.spec.size && MembershipSound(t)
            && PeerURLs(t.members) == PeerURLs(s.members)
    decreases |acts|
  {
    hide Settling, Enabled, AtSize, MembershipSound, PeerURLs;
    SettlingBounds(s);
    if acts == [] {
      AtSizeSound(s);
    } else {
      assert acts[0] in acts && forall a :: a in acts[1..] ==> a in acts;
      SizeStays(s, acts[0]);
      StepApproaches(s, acts[0]);
      SizeStaysForEver(Apply(s, acts[0]), acts[1..]);
    }
  }

  lemma AtSizeSound(s: State)
    requires Settling(s) && AtSize(s)
    ensures MembershipSound(s) && |s.members| == s.spec.size
  {
    InvMembership(s);
  }

  // ----- the size can always be reached -----

  /** Stop the round in flight and let the newest member's pod start. */
  lemma Rest(s: State) returns (t: State)
    requires Settling(s)
    ensures Reaches(s, t) && Settling(t) && t.round == Idle && t.spec == s.spec && t.versions == s.versions
    ensures Named(t.members, Committed(t)) && |t.members| == |s.members|
    ensures forall i :: 0 <= i < |t.members| ==> t.members[i].isLearner == s.members[i].isLearner
  {
    var i := s.(round := Idle);
    hide Inv, Reaches, Named;
    AtIdle(s);
    if Named(i.members, Committed(i)) {
      t := i;
    } else {
      t := RestStarted(i);
      Transitive(s, i, t);
    }
  }

  lemma {:induction false} AtIdle(s: State)
    requires Settling(s)
    ensures Reaches(s, s.(round := Idle)) && Settling(s.(round := Idle)) && s.seen < |s.versions|
  {
    RoundOnlyKeeps(s, Idle);
    GiveUp(s);
    hide MembersInOrder, LabelsSafe, SpecInv, VersionsWellFormed, LagBounded, NamesInv, RoundInv, Reaches;
  }

  /** Only the newest member can be without a name. */
  lemma {:induction false} RestStarted(s: State) returns (t: State)
    requires Settling(s) && s.round == Idle && s.seen < |s.versions| && !Named(s.members, Committed(s))
    ensures Reaches(s, t) && Settling(t) && t == s.(members := t.members) && |t.members| == |s.members|
    ensures Named(t.members, Committed(t))
    ensures forall i :: 0 <= i < |t.members| ==> t.members[i].isLearner == s.members[i].isLearner
  {
    hide MembersInOrder, LabelsSafe, SpecInv, VersionsWellFormed, PeerNodeURL, LearnerIs, EditOk, HasVote,
      WellFormed, Reaches, RoundInv;
    var last := |s.members| - 1;
    assert Enabled(s, Start(last));
    StartKeeps(s, last);
    t := Started(s, last);
    Stay(t);
    After(s, Start(last), t);
  }

  /** A scale-up round up to and including the membership side. */
  lemma GrowHalf(s: State) returns (t: State)
    requires Settling(s) && s.round == Idle && s.spec.size > Committed(s) && Named(s.members, Committed(s))
    ensures Reaches(s, t) && t.spec == s.spec && t.seen < |t.versions| && IsCurrent(t, t.seen)
    ensures t.round == UpJoined(s.spec, t.seen)
    ensures Current(t) == Current(s).(status := PodCounts(Committed(s), Committed(s)))
    ensures |t.members| == Committed(s) + 1 && s.members <= t.members
    ensures |s.members| == Committed(s) ==> t.members[|s.members|].isLearner == LearnerIs(s.spec, |s.members|)
  {
    hide MembersInOrder, LabelsSafe, SpecInv, VersionsWellFormed, PeerNodeURL, LearnerIs, EditOk, HasVote,
      WellFormed, NamesInv, RoundInv;
    var r := Committed(s);
    var ready := Current(s).(status := PodCounts(r, r));
    var v := |s.versions|;
    var id := SomeUnused(s.members);
    var s1 := s.(versions := s.versions + [ready]);
    assert Enabled(s, Report(PodCounts(r, r))) && Apply(s, Report(PodCounts(r, r))) == s1;
    assert s1.versions[v] == ready;
    var s2 := Begun(s1, v);
    var s3 := s2.(round := UpListed(s.spec, v, |s.members|));
    assert Enabled(s2, ListForUp) && Apply(s2, ListForUp) == s3;
    t := Added(s3, id);
    assert Enabled(s3, AddMember(id)) && Apply(s3, AddMember(id)) == t;
    Stay(t);
    After(s3, AddMember(id), t);
    After(s2, ListForUp, t);
    FetchRound(s1, v, t);
    After(s, Report(PodCounts(r, r)), t);
  }

  /** A round that goes through unharmed takes one scaling step up. */
  lemma GrowOnce(s: State) returns (t: State)
    requires Settling(s) && s.round == Idle && s.spec.size > Committed(s) && Named(s.members, Committed(s))
    ensures Reaches(s, t) && t.versions != [] && Committed(t) == Committed(s) + 1 == |t.members| && t.spec == s.spec
  {
    hide Settling, PeerNodeURL, LearnerIs, EditOk, ScaledUp, Reaches;
    var half := GrowHalf(s);
    t := SavedUp(half);
    assert Enabled(half, SaveUp) && Apply(half, SaveUp) == t;
    ScaledUpReplicas(s.spec, Current(half));
    Stay(t);
    After(half, SaveUp, t);
    Transitive(s, half, t);
  }

  lemma ScaledUpReplicas(e: EtcdCluster, app: TApp)
    ensures ScaledUp(e, app).replicas == app.replicas + 1
  {
    WithArgsKeeps(e, Extended(e, app));
  }

  /** ... or down, and leaves no claim of the ordinal it takes away. */
  lemma {:induction false} ShrinkOnce(s: State) returns (t: State)
    requires Settling(s) && s.round == Idle && s.spec.size < Committed(s) && 1 <= s.spec.size
    ensures Reaches(s, t) && t.versions != [] && Committed(t) == Committed(s) - 1 && t.spec == s.spec
    ensures PVCNameForEtcd(s.spec, Committed(t)) !in t.claims
  {
    hide Settling, EditOk, Reaches, PVCNameForEtcd, ScaledDown;
    var u := ShrinkMost(s);
    t := Unclaimed(u);
    assert Enabled(u, DeleteClaim) && Apply(u, DeleteClaim) == t;
    Stay(t);
    After(u, DeleteClaim, t);
    Transitive(s, u, t);
  }

  /** A scale-down round up to and including the write. */
  lemma {:induction false} ShrinkMost(s: State) returns (t: State)
    requires Settling(s) && s.round == Idle && s.spec.size < Committed(s) && 1 <= s.spec.size
    ensures Reaches(s, t) && t.spec == s.spec && t.seen < |t.versions| && |t.versions| == |s.versions| + 1
    ensures t.round == DownSaved(s.spec, |s.versions| - 1)
    ensures t.versions[|s.versions| - 1].replicas == Committed(s) && Committed(t) == Committed(s) - 1
  {
    hide Settling, EditOk, Reaches;
    var v := |s.versions| - 1;
    var u := ShrinkHalf(s);
    t := u.(versions := s.versions + [ScaledDown(Current(s))], round := DownSaved(s.spec, v));
    assert Enabled(u, SaveDown) && Apply(u, SaveDown) == t;
    Stay(t);
    After(u, SaveDown, t);
    Transitive(s, u, t);
  }

  /** A scale-down round up to and including the membership side. */
  lemma {:induction false} ShrinkHalf(s: State) returns (t: State)
    requires Settling(s) && s.round == Idle && s.spec.size < Committed(s) && 1 <= s.spec.size
    ensures Reaches(s, t) && t.spec == s.spec && t.versions == s.versions && t.seen == |s.versions| - 1
    ensures t.round == DownLeft(s.spec, |s.versions| - 1)
  {
    hide MembersInOrder, LabelsSafe, SpecInv, VersionsWellFormed, PeerNodeURL, LearnerIs, EditOk, HasVote,
      WellFormed, NamesInv, RoundInv, LagBounded, FindMember, WithoutMember, Reaches;
    var v := |s.versions| - 1;
    var s1 := Begun(s, v);
    var s2 := Searched(s1);
    assert Enabled(s1, ListForDown) && Apply(s1, ListForDown) == s2;
    t := Removed(s2);
    assert Enabled(s2, RemoveMember) && Apply(s2, RemoveMember) == t;
    Stay(t);
    After(s2, RemoveMember, t);
    After(s1, ListForDown, t);
    FetchRound(s, v, t);
  }

  lemma ReachesSettling(s: State, t: State)
    requires Settling(s) && Reaches(s, t)
    ensures Settling(t) && t.spec == s.spec
  {
    hide Settling, Runs, Exec, NoEdits;
    var acts :| NoEdits(acts) && Runs(s, acts) && Exec(s, acts) == t;
    RunApproaches(s, acts);
  }

  /** From any state that is settling, some run without edits reaches the size, with members and TApp in agreement. */
  lemma {:induction false} SizeReachable(s: State) returns (t: State)
    requires Settling(s)
    ensures Reaches(s, t) && Settling(t) && AtSize(t) && t.spec == s.spec
    ensures |t.members| == t.spec.size && t.round == Idle
    decreases Distance(s)
  {
    var u := Rest(s);
    hide MembersInOrder, LabelsSafe, VersionsWellFormed, LagBounded, NamesInv, RoundInv, Reaches, LearnersOk, SizeOk;
    if AtSize(u) {
      t := u;
    } else {
      var w: State;
      if u.spec.size > Committed(u) {
        w := GrowOnce(u);
      } else {
        w := ShrinkOnce(u);
      }
      ReachesSettling(u, w);
      var x := SizeReachable(w);
      Transitive(s, u, w);
      Transitive(s, w, x);
      t := x;
    }
  }

  // ----- from which states exactly -----

  /** The TApp has the size asked for, and etcd as many members. */
  ghost predicate Agreed(s: State) {
    s.versions != [] && AtSize(s) && |s.members| == s.spec.size
  }

  /** The round in flight can still finish the half-done addition. */
  predicate FinishingUp(s: State)
    requires s.seen < |s.versions|
  {
    |s.members| == Committed(s) + 1 &&
    (|| (s.round.SpecRead? && s.round.e.size > Committed(s))
     || (s.round.Fetched? && s.round.e.size > Committed(s) && IsCurrent(s, s.seen) && AllReady(Current(s)))
     || ((s.round.UpListed? || s.round.UpJoined?) && IsCurrent(s, s.seen)))
  }

  /** The round in flight can still finish the half-done removal. */
  predicate FinishingDown(s: State)
    requires s.seen < |s.versions|
  {
    |s.members| + 1 == Committed(s) &&
    (|| (s.round.SpecRead? && s.round.e.size < Committed(s))
     || (s.round.Fetched? && s.round.e.size < Committed(s) && IsCurrent(s, s.seen))
     || ((s.round.DownListed? || s.round.DownLeft?) && IsCurrent(s, s.seen)))
  }

  /** Membership and TApp agree, or the size still asks for a step, or the round in flight can finish the half-done
      one. */
  predicate CanSettle(s: State)
    requires s.seen < |s.versions|
  {
    |s.members| == Committed(s) || s.spec.size != Committed(s) || FinishingUp(s) || FinishingDown(s)
  }

  /** From a state of the protocol the size can be reached with matching membership, without further edits, if and
      only if CanSettle holds: an edit that sets Size to Replicas during a half-done step leaves a member too many or
      too few. */
  lemma {:induction false} SizeReachableExactly(s: State)
    requires Inv(s)
    ensures s.seen < |s.versions|
    ensures (exists t :: Reaches(s, t) && Agreed(t)) <==> CanSettle(s)
  {
    hide Inv, Reaches, CanSettle, Agreed;
    InvBounds(s);
    if CanSettle(s) {
      var t := SettleFrom(s);
    } else {
      forall t | Reaches(s, t) ensures !Agreed(t) {
        StuckNeverAgrees(s, t);
      }
    }
  }

  lemma {:induction false} SettleFrom(s: State) returns (t: State)
    requires Inv(s) && s.seen < |s.versions| && CanSettle(s)
    ensures Reaches(s, t) && Agreed(t)
  {
    hide Inv, Reaches, Agreed, FinishingUp, FinishingDown, AtSize;
    var u := s;
    Stay(s);
    if |s.members| != Committed(s) && s.spec.size == Committed(s) {
      if FinishingUp(s) {
        u := FinishUp(s);
      } else {
        u := FinishDown(s);
      }
    }
    var i := u.(round := Idle);
    IdleSettles(u);
    Transitive(s, u, i);
    t := SizeReachable(i);
    Transitive(s, i, t);
    SettlingBounds(t);
    AgreedThen(t);
  }

  lemma {:induction false} AgreedThen(t: State)
    requires t.versions != [] && AtSize(t) && |t.members| == t.spec.size
    ensures Agreed(t)
  {
  }

  lemma {:induction false} IdleSettles(s: State)
    requires Inv(s) && (|s.members| == Committed(s) || s.spec.size != Committed(s))
    ensures Reaches(s, s.(round := Idle)) && Settling(s.(round := Idle)) && s.versions != []
  {
    hide MembersInOrder, LabelsSafe, VersionsWellFormed, NamesInv, LearnersOk, Reaches;
    RoundOnlyKeeps(s, Idle);
    InvBounds(s);
    GiveUp(s);
  }

  lemma {:induction false} FinishUp(s: State) returns (t: State)
    requires Inv(s) && s.seen < |s.versions| && FinishingUp(s)
    ensures Reaches(s, t) && Inv(t) && t.versions != [] && |t.members| == Committed(t)
  {
    hide Inv, Reaches, EditOk, ScaledUp;
    var u := JoinedUp(s);
    UpPosition(u);
    t := SavedUp(u);
    assert Enabled(u, SaveUp) && Apply(u, SaveUp) == t;
    StepKeeps(u, SaveUp);
    ScaledUpReplicas(u.round.e, Current(u));
    OneStep(u, SaveUp);
    Transitive(s, u, t);
  }

  /** The membership side: nobody is added, for the count says it has been done. */
  lemma {:induction false} JoinedUp(s: State) returns (t: State)
    requires Inv(s) && s.seen < |s.versions| && FinishingUp(s)
    ensures Reaches(s, t) && Inv(t) && t.round.UpJoined? && t.seen < |t.versions| && IsCurrent(t, t.seen)
    ensures |t.members| == Committed(t) + 1
  {
    hide Inv, Reaches, EditOk;
    var u := ListedUp(s);
    if u.round.UpJoined? {
      t := u;
    } else {
      t := SkippedJoin(u);
      Transitive(s, u, t);
    }
  }

  lemma {:induction false} SkippedJoin(s: State) returns (t: State)
    requires Inv(s) && s.round.UpListed? && s.seen < |s.versions|
    requires IsCurrent(s, s.seen) && |s.members| == Committed(s) + 1
    ensures Reaches(s, t) && Inv(t) && t == s.(round := UpJoined(s.round.e, s.round.v))
  {
    hide Inv, Reaches, EditOk, LearnerIs, PeerNodeURL;
    UpPosition(s);
    t := s.(round := UpJoined(s.round.e, s.round.v));
    var id := SomeUnused(s.members);
    assert Enabled(s, AddMember(id)) && Apply(s, AddMember(id)) == t;
    StepKeeps(s, AddMember(id));
    OneStep(s, AddMember(id));
  }

  lemma {:induction false} ListedUp(s: State) returns (t: State)
    requires Inv(s) && s.seen < |s.versions| && FinishingUp(s)
    ensures Reaches(s, t) && Inv(t) && (t.round.UpListed? || t.round.UpJoined?)
    ensures t.seen < |t.versions| && IsCurrent(t, t.seen)
    ensures |t.members| == Committed(t) + 1
  {
    hide Inv, Reaches, EditOk;
    var u := s;
    Stay(s);
    if u.round.SpecRead? {
      u := ReadReady(s);
    }
    t := u;
    if u.round.Fetched? {
      t := u.(round := UpListed(u.round.e, u.seen, |u.members|));
      UpPosition(u);
      assert Enabled(u, ListForUp) && Apply(u, ListForUp) == t;
      StepKeeps(u, ListForUp);
      OneStep(u, ListForUp);
      Transitive(s, u, t);
    }
  }

  lemma {:induction false} OneStep(s: State, a: Action)
    requires Enabled(s, a) && !a.Edit?
    ensures Reaches(s, Apply(s, a))
  {
    hide Enabled, Apply, Reaches;
    Stay(Apply(s, a));
    After(s, a, Apply(s, a));
  }

  lemma {:induction false} UpPosition(s: State)
    requires Inv(s) && HoldsVersion(s.round)
    ensures s.round.v == s.seen < |s.versions|
    ensures s.round.UpListed? ==> s.round.count == |s.members|
    ensures s.versions[s.seen].replicas > 0
  {
    hide MembersInOrder, LabelsSafe, NamesInv, SpecInv, LagBounded;
    assert WellFormed(s.versions[s.seen], s.spec);
  }

  lemma {:induction false} ReadReady(s: State) returns (t: State)
    requires Inv(s) && s.seen < |s.versions| && FinishingUp(s) && s.round.SpecRead?
    ensures Reaches(s, t) && Inv(t) && t.seen < |t.versions| && FinishingUp(t) && t.round.Fetched?
  {
    hide Inv, Reaches, EditOk;
    StartedBelow(s);
    var r, v := Committed(s), |s.versions|;
    var c := PodCounts(r, r);
    var s1 := s.(versions := s.versions + [Current(s).(status := c)]);
    assert Enabled(s, Report(c)) && Apply(s, Report(c)) == s1;
    StepKeeps(s, Report(c));
    t := s1.(seen := v, round := Fetched(s.round.e, v));
    assert Enabled(s1, Begin(v)) && Apply(s1, Begin(v)) == t;
    StepKeeps(s1, Begin(v));
    OneStep(s, Report(c));
    OneStep(s1, Begin(v));
    Transitive(s, s1, t);
  }

  lemma {:induction false} StartedBelow(s: State)
    requires Inv(s)
    ensures Named(s.members, |s.members| - 1)
  {
    hide MembersInOrder, LabelsSafe, RoundInv, SpecInv, LagBounded, VersionsWellFormed;
  }

  lemma {:induction false} FinishDown(s: State) returns (t: State)
    requires Inv(s) && s.seen < |s.versions| && FinishingDown(s)
    ensures Reaches(s, t) && Inv(t) && t.versions != [] && |t.members| == Committed(t)
    decreases DownRank(s.round)
  {
    hide Inv, Enabled, Apply, Reaches, FinishingDown;
    InvBounds(s);
    var a := DownStep(s);
    StepKeeps(s, a);
    OneStep(s, a);
    InvBounds(Apply(s, a));
    if s.round.DownLeft? {
      t := Apply(s, a);
    } else {
      t := FinishDown(Apply(s, a));
      Transitive(s, Apply(s, a), t);
    }
  }

  function DownRank(r: Round): nat {
    if r.SpecRead? then 3 else if r.Fetched? then 2 else if r.DownListed? then 1 else 0
  }

  lemma {:induction false} DownStep(s: State) returns (a: Action)
    requires Inv(s) && s.seen < |s.versions| && FinishingDown(s)
    ensures !a.Edit? && Enabled(s, a)
    ensures var t := Apply(s, a);
            if s.round.DownLeft? then t.versions != [] && |t.members| == Committed(t)
            else t.seen < |t.versions| && FinishingDown(t) && DownRank(t.round) < DownRank(s.round)
  {
    hide Inv, EditOk, LearnerIs, PeerNodeURL, FindMember, WithoutMember;
    if s.round.SpecRead? {
      a := Begin(|s.versions| - 1);
    } else {
      UpPosition(s);
      if s.round.Fetched? {
        a := ListForDown;
      } else if s.round.DownListed? {
        DownPosition(s);
        a := RemoveMember;
      } else {
        a := SaveDown;
      }
    }
  }

  lemma {:induction false} DownPosition(s: State)
    requires Inv(s) && s.round.DownListed? && |s.members| + 1 == Committed(s) && IsCurrent(s, s.seen)
    ensures s.round.id == 0
  {
    hide MembersInOrder, LabelsSafe, NamesInv, SpecInv, LagBounded, VersionsWellFormed;
  }

  lemma {:induction false} StuckStays(s: State, a: Action)
    requires Inv(s) && s.seen < |s.versions| && !CanSettle(s) && Enabled(s, a) && !a.Edit?
    ensures Apply(s, a).seen < |Apply(s, a).versions| && !CanSettle(Apply(s, a))
  {
    hide Inv, Enabled, Apply, CanSettle;
    if a.Touch? || a.Report? || a.Start? || a.Provision? {
      StuckOutside(s, a);
    } else if a.ReadSpec? || a.Begin? || a.ReadTApp? {
      StuckReading(s, a);
    } else if a.Wait? || a.ListForUp? || a.AddMember? || a.SaveUp? || a.KeepSize? {
      StuckUp(s, a);
    } else if a.ListForDown? || a.RemoveMember? || a.SaveDown? || a.DeleteClaim? {
      StuckDown(s, a);
    } else {
      StuckChecking(s, a);
    }
  }

  lemma {:induction false} StuckOutside(s: State, a: Action)
    requires Inv(s) && s.seen < |s.versions| && !CanSettle(s) && Enabled(s, a)
    requires a.Touch? || a.Report? || a.Start? || a.Provision?
    ensures Apply(s, a).seen < |Apply(s, a).versions| && !CanSettle(Apply(s, a))
  {
    hide MembersInOrder, LabelsSafe, NamesInv, VersionsWellFormed, PeerNodeURL, LearnerIs, EditOk, HasVote,
      FindMember, WithoutMember;
    hide ScaledUp, ScaledDown, Refreshed, Flipped, PVCNameForEtcd, MemberName, Promoted, AnyLearner;
  }

  lemma {:induction false} StuckReading(s: State, a: Action)
    requires Inv(s) && s.seen < |s.versions| && !CanSettle(s) && Enabled(s, a)
    requires a.ReadSpec? || a.Begin? || a.ReadTApp?
    ensures Apply(s, a).seen < |Apply(s, a).versions| && !CanSettle(Apply(s, a))
  {
    hide MembersInOrder, LabelsSafe, NamesInv, VersionsWellFormed, PeerNodeURL, LearnerIs, EditOk, HasVote,
      FindMember, WithoutMember;
    hide ScaledUp, ScaledDown, Refreshed, Flipped, PVCNameForEtcd, MemberName, Promoted, AnyLearner;
  }

  lemma {:induction false} StuckUp(s: State, a: Action)
    requires Inv(s) && s.seen < |s.versions| && !CanSettle(s) && Enabled(s, a)
    requires a.Wait? || a.ListForUp? || a.AddMember? || a.SaveUp? || a.KeepSize?
    ensures Apply(s, a).seen < |Apply(s, a).versions| && !CanSettle(Apply(s, a))
  {
    hide MembersInOrder, LabelsSafe, NamesInv, VersionsWellFormed, PeerNodeURL, LearnerIs, EditOk, HasVote,
      FindMember, WithoutMember;
    hide ScaledUp, ScaledDown, Refreshed, Flipped, PVCNameForEtcd, MemberName, Promoted, AnyLearner;
  }

  lemma {:induction false} StuckDown(s: State, a: Action)
    requires Inv(s) && s.seen < |s.versions| && !CanSettle(s) && Enabled(s, a)
    requires a.ListForDown? || a.RemoveMember? || a.SaveDown? || a.DeleteClaim?
    ensures Apply(s, a).seen < |Apply(s, a).versions| && !CanSettle(Apply(s, a))
  {
    hide MembersInOrder, LabelsSafe, NamesInv, VersionsWellFormed, PeerNodeURL, LearnerIs, EditOk, HasVote,
      FindMember, WithoutMember;
    hide ScaledUp, ScaledDown, Refreshed, Flipped, PVCNameForEtcd, MemberName, Promoted, AnyLearner, SpecInv;
    if a.RemoveMember? {
      hide Inv, Enabled, Apply, Removed;
      RemovalIs(s);
      StuckRemoval(s);
    }
  }

  lemma {:induction false} StuckRemoval(s: State)
    requires Inv(s) && s.round.DownListed? && s.seen < |s.versions| && !CanSettle(s)
    ensures Removed(s).seen < |Removed(s).versions| && !CanSettle(Removed(s))
  {
    hide MembersInOrder, LabelsSafe, NamesInv, VersionsWellFormed, WithoutMember, AnyLearner, SpecInv;
    RemovalEffect(s);
  }

  lemma {:induction false} StuckChecking(s: State, a: Action)
    requires Inv(s) && s.seen < |s.versions| && !CanSettle(s) && Enabled(s, a)
    requires a.SaveTemplates? || a.ListForCheck? || a.StoreList? || a.KeepList? || a.FlipLabels? || a.PromoteMember?
             || a.NothingToPromote? || a.Abort?
    ensures Apply(s, a).seen < |Apply(s, a).versions| && !CanSettle(Apply(s, a))
  {
    hide Inv, Enabled, Apply;
    StepKeeps(s, a);
    InvBounds(Apply(s, a));
    AcceptedWrites(s, a);
    OtherStepSizes(s, a);
    RoundAfterChecking(s, a);
  }

  lemma {:induction false} RoundAfterChecking(s: State, a: Action)
    requires Enabled(s, a)
    requires a.SaveTemplates? || a.ListForCheck? || a.StoreList? || a.KeepList? || a.FlipLabels? || a.PromoteMember?
             || a.NothingToPromote? || a.Abort?
    ensures var r := Apply(s, a).round; r.Idle? || r.Checking? || r.CheckListed? || r.CheckRecorded? || r.Promoting?
  {
    hide EditOk, Refreshed, Flipped, Promoted, AnyLearner;
  }

  lemma {:induction false} FlippedReplicas(app: TApp)
    ensures Flipped(app).replicas == app.replicas
  {
  }

  lemma {:induction false} StuckForEver(s: State, acts: seq<Action>)
    requires Inv(s) && s.seen < |s.versions| && !CanSettle(s) && NoEdits(acts) && Runs(s, acts)
    ensures var t := Exec(s, acts); t.seen < |t.versions| && !CanSettle(t)
    decreases |acts|
  {
    hide Inv, Enabled, Apply, CanSettle;
    if acts != [] {
      assert acts[0] in acts && forall a :: a in acts[1..] ==> a in acts;
      StepKeeps(s, acts[0]);
      StuckStays(s, acts[0]);
      StuckForEver(Apply(s, acts[0]), acts[1..]);
    }
  }

  lemma {:induction false} StuckNeverAgrees(s: State, t: State)
    requires Inv(s) && s.seen < |s.versions| && !CanSettle(s) && Reaches(s, t)
    ensures !Agreed(t)
  {
    hide Inv, Runs, Exec, NoEdits;
    var acts :| NoEdits(acts) && Runs(s, acts) && Exec(s, acts) == t;
    hide FinishingUp, FinishingDown;
    StuckForEver(s, acts);
  }

  // ----- how long an edit stays free -----

  /** Once at rest, always at rest until the next edit. */
  lemma {:induction false} RestLasts(s: State, acts: seq<Action>)
    requires AtRest(s) && NoEdits(acts) && Runs(s, acts)
    ensures AtRest(Exec(s, acts))
    decreases |acts|
  {
    hide Inv, Enabled, Apply;
    if acts != [] {
      assert acts[0] in acts && forall a :: a in acts[1..] ==> a in acts;
      InvBounds(s);
      assert Settling(s) && AtSize(s);
      SizeStays(s, acts[0]);
      StepApproaches(s, acts[0]);
      AtSizeSound(Apply(s, acts[0]));
      InvBounds(Apply(s, acts[0]));
      ReadingKeepsUp(s, acts[0], Apply(s, acts[0]));
      RestLasts(Apply(s, acts[0]), acts[1..]);
    }
  }

  /** The lister never falls back to another size. */
  lemma {:induction false} ReadingKeepsUp(s: State, a: Action, t: State)
    requires Inv(s) && Enabled(s, a) && t == Apply(s, a) && t.seen < |t.versions|
    requires Observed(s) == Committed(s) == Committed(t)
    ensures Observed(t) == Committed(t)
  {
    hide MembersInOrder, LabelsSafe, NamesInv, VersionsWellFormed, PeerNodeURL, LearnerIs, EditOk, HasVote,
      FindMember, WithoutMember;
    hide ScaledUp, ScaledDown, Refreshed, Flipped, PVCNameForEtcd, MemberName, SpecInv;
  }

  /** One whole pass is enough: if it starts after the last edit, reads the TApp at the size asked for, and etcd has
      as many members, the cluster is at rest from then on. */
  lemma {:induction false} OnePassBringsRest(s: State)
    requires Inv(s) && s.round == Idle && s.spec.size == Committed(s) == |s.members|
    ensures var t := Begun(s, |s.versions| - 1);
            Reaches(s, t) && AtRest(t)
  {
    hide MembersInOrder, LabelsSafe, NamesInv, VersionsWellFormed, LearnerIs, Reaches, EditOk;
    var v := |s.versions| - 1;
    var read := SpecTaken(s);
    var t := Begun(s, v);
    assert Enabled(s, ReadSpec) && Apply(s, ReadSpec) == read;
    assert Enabled(read, Begin(v)) && Apply(read, Begin(v)) == t;
    hide Inv, Enabled, Apply;
    StepKeeps(s, ReadSpec);
    StepKeeps(read, Begin(v));
    Stay(t);
    FetchRound(s, v, t);
  }

  // ----- the edit discipline is needed -----

  lemma InitSettling(s: State)
    requires Init(s)
    ensures Settling(s) && Committed(s) == 1 && |s.members| == 1
  {
    InitKeeps(s);
    SeedWellFormed(s.spec);
    hide WellFormed, SeedTApp, Inv;
    UnreadySeed(s.spec);
  }

  /** A fresh cluster of size 3 gets, without any failure, to a state in which reducing the size to 1 breaks it:
      two ordinals in the TApp, a third member just added. */
  lemma ReversalCanBreak(s: State) returns (t: State)
    requires Init(s) && s.spec.size == 3
    ensures Reaches(s, t) && t.seen < |t.versions| && Committed(t) == 2 && |t.members| == 3
    ensures !EditOk(t, t.spec.(size := 1)) && !AlwaysSafe(Edited(t, t.spec.(size := 1)))
  {
    hide Settling, Reaches, EditOk, AlwaysSafe, Named;
    InitSettling(s);
    var a := Rest(s);
    var b := GrowOnce(a);
    ReachesSettling(a, b);
    var c := Rest(b);
    ReachesSettling(b, c);
    t := GrowHalf(c);
    ReachesSettling(c, t);
    Transitive(s, a, b);
    Transitive(s, b, c);
    Transitive(s, c, t);
    ReversalForbidden(t);
  }

  /** The same with nothing half-done at the time of the edit: two ordinals everywhere, but a pass has read Size 3 and
      not yet the TApp. Reducing the size to 1 at this moment breaks the membership. */
  lemma {:induction false} ReadingWindowCanBreak(s: State) returns (t: State)
    requires Init(s) && s.spec.size == 3
    ensures Reaches(s, t) && t.seen < |t.versions| && Committed(t) == |t.members| == 2 && t.round == SpecRead(t.spec)
    ensures !EditOk(t, t.spec.(size := 1)) && !AlwaysSafe(Edited(t, t.spec.(size := 1)))
  {
    hide Settling, Reaches, EditOk, AlwaysSafe, Named;
    InitSettling(s);
    var a := Rest(s);
    var b := GrowOnce(a);
    ReachesSettling(a, b);
    var c := Rest(b);
    ReachesSettling(b, c);
    SettlingBounds(c);
    t := ReadingWindow(c);
    ReachesSettling(c, t);
    Transitive(s, a, b);
    Transitive(s, b, c);
    Transitive(s, c, t);
    WindowForbidden(t);
  }

  lemma {:induction false} ReadingWindow(s: State) returns (t: State)
    requires s.round == Idle && s.seen < |s.versions|
    ensures Reaches(s, t) && t == SpecTaken(s)
  {
    hide EditOk, Reaches;
    t := SpecTaken(s);
    assert Enabled(s, ReadSpec) && Apply(s, ReadSpec) == t;
    OneStep(s, ReadSpec);
  }

  lemma {:induction false} WindowForbidden(t: State)
    requires Settling(t) && Committed(t) == |t.members| == 2 && t.round == SpecRead(t.spec) && t.spec.size == 3
    ensures !EditOk(t, t.spec.(size := 1)) && !AlwaysSafe(Edited(t, t.spec.(size := 1)))
  {
    hide AlwaysSafe;
    EditExact(t, t.spec.(size := 1));
  }

  lemma ReversalForbidden(t: State)
    requires Settling(t) && Observed(t) == 2 && |t.members| == 3
    ensures !EditOk(t, t.spec.(size := 1)) && !AlwaysSafe(Edited(t, t.spec.(size := 1)))
  {
    EditExact(t, t.spec.(size := 1));
  }

  /** A fresh cluster of size 2 with ordinal 1 as its learner gets, without any failure, to a state in which clearing
      the learner list makes the operator serve the learner: it has just been added, its template is still to be
      written. */
  lemma ClearingLearnersCanBreak(s: State) returns (t: State)
    requires Init(s) && s.spec.size == 2 && LearnerIs(s.spec, 1)
    ensures Reaches(s, t) && t.seen < |t.versions| && |t.members| == 2 && t.members[1].isLearner
    ensures !EditOk(t, t.spec.(learners := [])) && !AlwaysSafe(Edited(t, t.spec.(learners := [])))
  {
    hide Settling, Reaches, EditOk, AlwaysSafe, Named, SeedTApp, HasVote;
    InitSettling(s);
    var a := Rest(s);
    t := GrowHalf(a);
    ReachesSettling(s, a);
    ReachesSettling(a, t);
    Transitive(s, a, t);
    SeedVotes(s.spec);
    ClearingForbidden(t);
  }

  lemma SeedVotes(e: EtcdCluster)
    requires LearnerIs(e, 1)
    ensures HasVote(SeedTApp(e), 0)
    ensures forall c :: HasVote(SeedTApp(e).(status := c), 0)
  {
    assert Decimal(0)[0] == '0' && Decimal(1)[0] == '1';
  }

  lemma ClearingForbidden(t: State)
    requires Settling(t) && Observed(t) == Committed(t) == 1 && |t.members| == 2 && t.members[1].isLearner
    requires t.spec.size == 2 && HasVote(Current(t), 0)
    ensures !EditOk(t, t.spec.(learners := [])) && !AlwaysSafe(Edited(t, t.spec.(learners := [])))
  {
    EditExact(t, t.spec.(learners := []));
  }
}
