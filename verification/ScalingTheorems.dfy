/** What every run of the scaling protocol guarantees. */
module ScalingTheorems {
  import opened Text
  import opened Flags
  import opened Cluster
  import opened NodeArgs
  import opened Protocol
  import opened ProtocolSafety

  // ----- membership -----

  ghost predicate HasMember(s: State, i: nat) {
    exists m :: m in s.members && m.peerURLs == [PeerNodeURL(s.spec, i)]
  }

  /** The etcd members are exactly those of ordinals 0..k-1, each once, and k is within one of the TApp's Replicas. */
  ghost predicate MembershipSound(s: State)
    requires s.versions != []
  {
    && (forall i: nat :: i < |s.members| ==> HasMember(s, i))
    && (forall m :: m in s.members ==> exists i: nat :: i < |s.members| && m.peerURLs == [PeerNodeURL(s.spec, i)])
    && Committed(s) - 1 <= |s.members| <= Committed(s) + 1
  }

  lemma InvMembership(s: State)
    requires Inv(s)
    ensures MembershipSound(s)
  {
    hide PeerNodeURL, WellFormed, NamesInv, LabelsSafe, RoundInv, SpecInv;
    forall i: nat | i < |s.members| ensures HasMember(s, i) {
      assert s.members[i] in s.members;
    }
  }

  /** In every run, whatever fails and however stale the reads, membership has neither gaps nor duplicates. */
  lemma MembershipInEveryRun(s: State, acts: seq<Action>)
    requires Init(s) && Runs(s, acts)
    ensures var t := Exec(s, acts);
            && t.versions != [] && MembershipSound(t)
            && forall v: nat :: v < |t.versions| ==> WellFormed(t.versions[v], t.spec)
  {
    hide Init, Runs, Exec, MembershipSound, WellFormed, MembersInOrder, LagBounded, NamesInv, LabelsSafe, RoundInv,
      SpecInv;
    InitKeeps(s);
    RunKeeps(s, acts);
    InvMembership(Exec(s, acts));
  }

  /** While no lag hides a finished step, one member too many means an unfinished addition of ordinal Replicas, one too
      few an unfinished removal of ordinal Replicas-1; while a finished step is still unobserved, the counts agree. */
  lemma HalfDoneSteps(s: State)
    requires Inv(s)
    ensures |s.members| == Committed(s) + 1 ==> Observed(s) == Committed(s) && HasMember(s, Committed(s))
    ensures |s.members| + 1 == Committed(s) ==> Observed(s) == Committed(s) && !HasMember(s, Committed(s) - 1)
    ensures Observed(s) != Committed(s) ==> |s.members| == Committed(s)
  {
    hide HasMember, PeerNodeURL, WellFormed, NamesInv, LabelsSafe, RoundInv, SpecInv, MembersInOrder;
    MemberOrdinals(s, Committed(s));
    if Committed(s) > 0 {
      MemberOrdinals(s, Committed(s) - 1);
    }
  }

  lemma MemberOrdinals(s: State, i: nat)
    requires MembersInOrder(s.members, s.spec)
    ensures HasMember(s, i) <==> i < |s.members|
  {
    hide PeerNodeURL;
    if i < |s.members| {
      assert s.members[i] in s.members;
    }
    if HasMember(s, i) {
      var m :| m in s.members && m.peerURLs == [PeerNodeURL(s.spec, i)];
      var j: nat :| j < |s.members| && s.members[j] == m;
      OrdinalNamesInjective(s.spec, j, i);
    }
  }

  // ----- no lost or reverted scaling -----

  /** t follows s by a step that writes the TApp at most once, from the current version, and changes Replicas not at
      all, or by one towards the size of its round, to the count that the membership has already. */
  ghost predicate WriteAccepted(s: State, a: Action, t: State) {
    && s.versions != [] && s.versions <= t.versions && |t.versions| <= |s.versions| + 1
    && (t.versions != s.versions && !a.Report? ==> HoldsVersion(s.round) && IsCurrent(s, s.round.v))
    && (|| Committed(t) == Committed(s)
        || (a == SaveUp && s.round.UpJoined? && Committed(t) == Committed(s) + 1 == |s.members|
            && Committed(t) <= s.round.e.size)
        || (a == SaveDown && s.round.DownLeft? && Committed(t) == Committed(s) - 1 == |s.members|
            && Committed(t) >= s.round.e.size))
  }

  /** Every step is of this kind. */
  lemma {:induction false} AcceptedWrites(s: State, a: Action)
    requires Inv(s) && Enabled(s, a)
    ensures WriteAccepted(s, a, Apply(s, a))
  {
    hide PeerNodeURL, MembersInOrder, LearnerIs, ClusterDomain, IsPeerSecure, NamesInv, LabelsSafe, SpecInv, EditOk,
      WellFormed;
    match a {
      case SaveUp =>
        hide ScaledUp;
        if IsCurrent(s, s.round.v) {
          SaveUpFacts(s);
        }
      case SaveDown =>
      case SaveTemplates =>
        RefreshedKeeps(s.round.e, s.versions[s.round.v]);
        hide Refreshed;
      case FlipLabels =>
      case _ =>
    }
  }

  /** Nothing in the run makes the lister move on: it is still the same pass, before its status check. */
  ghost predicate SameReading(acts: seq<Action>) {
    forall a :: a in acts ==> !a.Begin? && !a.ReadTApp?
  }

  lemma {:induction false} SeenStays(s: State, acts: seq<Action>)
    requires Inv(s) && Runs(s, acts) && SameReading(acts)
    ensures Exec(s, acts).seen == s.seen && |Exec(s, acts).versions| >= |s.versions|
    decreases |acts|
  {
    hide Inv, Enabled, Apply;
    if acts != [] {
      assert acts[0] in acts && forall a :: a in acts[1..] ==> a in acts;
      StepKeeps(s, acts[0]);
      AcceptedWrites(s, acts[0]);
      SeenMoves(s, acts[0]);
      SeenStays(Apply(s, acts[0]), acts[1..]);
    }
  }

  lemma {:induction false} SeenMoves(s: State, a: Action)
    requires Enabled(s, a) && !a.Begin? && !a.ReadTApp?
    ensures Apply(s, a).seen == s.seen
  {
    hide PeerNodeURL, LearnerIs, EditOk, ScaledUp, ScaledDown, Refreshed, Flipped, FindMember, WithoutMember,
      PVCNameForEtcd;
  }

  /** Once a pass has had a scaling write accepted, its own template refresh, which still works on the TApp from
      before that write, is refused or finds nothing to write, whatever others do in between. */
  lemma {:induction false} RefreshNeverUndoes(s: State, a: Action, acts: seq<Action>)
    requires Inv(s) && Enabled(s, a) && (a == SaveUp || a == SaveDown) && Apply(s, a).versions != s.versions
    requires Runs(Apply(s, a), acts) && SameReading(acts) && Exec(Apply(s, a), acts).round.Refreshing?
    ensures var t := Exec(Apply(s, a), acts);
            Enabled(t, SaveTemplates) && Apply(t, SaveTemplates).versions == t.versions
  {
    hide Inv, Enabled, Apply, Runs, Exec;
    StepKeeps(s, a);
    WriteOutdatesReader(s, a);
    SeenStays(Apply(s, a), acts);
    RunKeeps(Apply(s, a), acts);
    RefusedWhenStale(Exec(Apply(s, a), acts));
  }

  lemma {:induction false} WriteOutdatesReader(s: State, a: Action)
    requires Inv(s) && Enabled(s, a) && (a == SaveUp || a == SaveDown) && Apply(s, a).versions != s.versions
    ensures Apply(s, a).seen + 1 < |Apply(s, a).versions|
  {
    hide PeerNodeURL, MembersInOrder, LearnerIs, NamesInv, LabelsSafe, SpecInv, EditOk, WellFormed, ScaledUp,
      ScaledDown, LagBounded;
  }

  lemma {:induction false} RefusedWhenStale(s: State)
    requires Inv(s) && s.round.Refreshing? && s.seen + 1 < |s.versions|
    ensures Enabled(s, SaveTemplates) && Apply(s, SaveTemplates).versions == s.versions
  {
    hide PeerNodeURL, MembersInOrder, LearnerIs, NamesInv, LabelsSafe, SpecInv, EditOk, WellFormed, Refreshed,
      LagBounded;
  }

  // ----- voting label -----

  /** Whenever a template carries the label the access service selects, its ordinal is not a learner in etcd. */
  lemma LearnersNotServed(s: State, acts: seq<Action>, m: Member, i: nat)
    requires Init(s) && Runs(s, acts)
    requires var t := Exec(s, acts);
             && m in t.members && m.peerURLs == [PeerNodeURL(t.spec, i)]
             && t.versions != [] && i < Committed(t) && HasVote(Current(t), i)
    ensures !m.isLearner
  {
    hide Init, Runs, Exec;
    InitKeeps(s);
    RunKeeps(s, acts);
    LabelOfMember(Exec(s, acts), m, i);
  }

  lemma LabelOfMember(s: State, m: Member, i: nat)
    requires Inv(s) && m in s.members && m.peerURLs == [PeerNodeURL(s.spec, i)]
    requires i < Committed(s) && HasVote(Current(s), i)
    ensures !m.isLearner
  {
    hide PeerNodeURL, HasVote, WellFormed, LagBounded, NamesInv, RoundInv, SpecInv;
    var j: nat :| j < |s.members| && s.members[j] == m;
    OrdinalNamesInjective(s.spec, i, j);
  }

  // ----- growth and quorum -----

  function Voters(members: seq<Member>): nat {
    if members == [] then 0 else Voters(members[..|members| - 1]) + (if members[|members| - 1].isLearner then 0 else 1)
  }

  /** A member is added only when member count, Replicas, status replicas and ready replicas are all equal, so every
      earlier member, in particular the last one added, has started. A new voter keeps the started voters a majority
      of all voters exactly when there were two of them before. */
  lemma GrowthKeepsQuorum(s: State, id: nat)
    requires Inv(s) && Enabled(s, AddMember(id))
    requires Apply(s, AddMember(id)).members != s.members
    ensures var t, app := Apply(s, AddMember(id)), s.versions[s.round.v];
            && |s.members| == app.replicas == app.status.replicas == app.status.ready == Committed(s)
            && (forall m :: m in s.members ==> m.name != "")
            && t.members[..|s.members|] == s.members && |t.members| == |s.members| + 1
            && t.members[|s.members|].peerURLs == [PeerNodeURL(s.spec, |s.members|)]
            && (t.members[|s.members|].isLearner ==> Voters(t.members) == Voters(s.members))
            && (!t.members[|s.members|].isLearner ==>
                (2 * Voters(s.members) > Voters(t.members) <==> Voters(s.members) >= 2))
  {
    SameNames(s.spec, s.round.e, |s.members|);
    hide PeerNodeURL, MembersInOrder, LearnerIs, ClusterDomain, IsPeerSecure, LabelsSafe, SpecInv, EditOk,
      WellFormed, HasVote;
    var t := Apply(s, AddMember(id));
    assert t.members[..|s.members|] == s.members;
    assert AllReady(s.versions[s.seen]);
  }

  // ----- scale-down and claims -----

  /** A removal takes the member of the highest ordinal of the observed TApp, or nobody if that ordinal has left
      already. */
  lemma {:induction false} RemovalTakesHighest(s: State)
    requires Inv(s) && Enabled(s, RemoveMember)
    ensures var t := Apply(s, RemoveMember);
            && (t.members == s.members || t.members == s.members[..|s.members| - 1])
            && |t.members| == Observed(s) - 1
            && !HasMember(t, Observed(s) - 1)
    ensures s.members != []
  {
    hide Inv, HasMember, MembersInOrder, Removed, Observed;
    RemovalIs(s);
    RemovalEffect(s);
    MemberOrdinals(Removed(s), Observed(s) - 1);
  }

  lemma {:induction false} RemovalIs(s: State)
    requires Enabled(s, RemoveMember)
    ensures s.seen < |s.versions| && s.round.DownListed? && Apply(s, RemoveMember) == Removed(s)
  {
    hide WithoutMember;
  }

  lemma {:induction false} RemovalEffect(s: State)
    requires Inv(s) && s.round.DownListed?
    ensures var t := Removed(s);
            && (t.members == s.members || t.members == s.members[..|s.members| - 1])
            && |t.members| == Observed(s) - 1
            && MembersInOrder(t.members, t.spec)
    ensures s.members != []
  {
    hide PeerNodeURL, LearnerIs, LabelsSafe, NamesInv, SpecInv, WellFormed, MembersInOrder, LagBounded,
      VersionsWellFormed, WithoutMember;
    RemoveMemberKeeps(s);
  }

  /** An ordinal is live while the TApp or the membership has it. */
  ghost predicate Live(s: State, i: nat)
    requires s.versions != []
  {
    i < Committed(s) || HasMember(s, i)
  }

  lemma ClaimsOfLiveOrdinals(s: State, a: Action, i: nat)
    requires Inv(s) && Enabled(s, a) && Live(s, i) && PVCNameForEtcd(s.spec, i) in s.claims
    ensures PVCNameForEtcd(Apply(s, a).spec, i) in Apply(s, a).claims
  {
    hide PeerNodeURL, LearnerIs, LabelsSafe, NamesInv, SpecInv, WellFormed, PVCNameForEtcd, MembersInOrder, HasMember;
    if a == DeleteClaim {
      var n := Observed(s) - 1;
      assert n == Committed(s) == |s.members|;
      SameNames(s.spec, s.round.e, n);
      OrdinalNamesInjective(s.spec, i, n);
      MemberOrdinals(s, i);
    } else if a.Edit? {
      SameNames(s.spec, a.e, i);
    }
  }

  ghost predicate LiveThroughout(s: State, acts: seq<Action>, i: nat)
    requires Runs(s, acts)
    decreases |acts|
  {
    s.versions != [] && Live(s, i) && (acts != [] ==> LiveThroughout(Apply(s, acts[0]), acts[1..], i))
  }

  /** No run deletes the claim of an ordinal that stays live throughout it. */
  lemma {:induction false} ClaimsSurvive(s: State, acts: seq<Action>, i: nat)
    requires Inv(s) && Runs(s, acts) && LiveThroughout(s, acts, i)
    requires PVCNameForEtcd(s.spec, i) in s.claims
    ensures PVCNameForEtcd(Exec(s, acts).spec, i) in Exec(s, acts).claims
    decreases |acts|
  {
    hide Inv, Enabled, Live, PVCNameForEtcd;
    if acts != [] {
      StepKeeps(s, acts[0]);
      ClaimsOfLiveOrdinals(s, acts[0], i);
      ClaimsSurvive(Apply(s, acts[0]), acts[1..], i);
    }
  }

  // ----- templates -----

  /** On a TApp of the protocol one refresh is enough, for every list of extra arguments: under the same spec the
      next one finds nothing to write. */
  lemma RefreshOnce(e: EtcdCluster, app: TApp, spec: EtcdCluster)
    requires WellFormed(app, spec)
    ensures Refreshed(e, Refreshed(e, app)) == Refreshed(e, app)
  {
    hide Refreshed, ArgsSettled;
    RefreshSettles(e, app);
    forall key | key in app.pool ensures IsOrdinal(key, app.replicas) {
      OrdinalsExactly(app.replicas, key);
    }
  }

  /** When ordinal R has just been added, the peer list its template is about to get names every etcd member of that
      moment, in order, each with the URL the member was added under, ending with R itself. */
  lemma JoinerSeesMembership(s: State)
    requires Inv(s) && s.round.UpJoined? && IsCurrent(s, s.seen)
    requires NamedLikeObjects(s.round.e, NameForTApp(s.round.e)) && ',' !in ClusterDomain(s.round.e)
    requires INITIAL_CLUSTER !in Parse(s.round.e.extraArgs, DASHES)
    ensures var n, up := Committed(s), ScaledUp(s.round.e, Current(s));
            && Decimal(n) in up.pool
            && var flags := Parse(up.pool[Decimal(n)].args, DASHES);
               && INITIAL_CLUSTER in flags
               && var entries := Split(flags[INITIAL_CLUSTER], ',');
                  && |entries| == |s.members| == n + 1
                  && forall j: nat :: j <= n ==>
                       [entries[j]] == [MemberName(up.name, j) + "=" + s.members[j].peerURLs[0]]
  {
    hide LearnerIs, LabelsSafe, NamesInv, SpecInv, IsPeerSecure, ObjectName, Parse, Split, ArgsOfNode, WithArgs,
      PeerNodeURL;
    var n, e := Committed(s), s.round.e;
    assert WellFormed(Current(s), s.spec);
    var ext := Extended(e, Current(s));
    WithArgsKeeps(e, ext);
    TemplateInitialCluster(e, ext, n);
    forall j: nat | j <= n ensures s.members[j].peerURLs == [PeerNodeURL(e, j)] {
      SameNames(s.spec, e, j);
    }
  }
}
