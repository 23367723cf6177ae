/** Undisturbed passes add up: however much else happens in between, enough of them bring the cluster to its size, and
    every learner to a served voter. */
module Progress {
  import opened Text
  import opened Cluster
  import opened NodeArgs
  import opened Protocol
  import opened ProtocolSafety
  import opened ScalingTheorems
  import opened Reachability
  import opened EditDiscipline
  import opened Convergence
  import opened Promotion
  import opened Undisturbed

  /** Anything but edits, failed and stale passes included, and then one undisturbed pass. */
  datatype Stage = Stage(before: seq<Action>, pass: seq<Action>)

  /** All pods have been reported ready if the size asks for another one, and some pod in any case. */
  ghost predicate PodsReady(s: State) {
    SomeReady(s) && (s.spec.size > Committed(s) ==> AllReady(Current(s)))
  }

  ghost predicate Campaign(s: State, stages: seq<Stage>)
    decreases |stages|
  {
    stages != [] ==>
      && NoEdits(stages[0].before) && Runs(s, stages[0].before)
      && var u := Exec(s, stages[0].before);
         && PodsReady(u) && OnePass(u, stages[0].pass)
         && Campaign(Exec(u, stages[0].pass), stages[1..])
  }

  ghost function End(s: State, stages: seq<Stage>): State
    requires Campaign(s, stages)
    decreases |stages|
  {
    if stages == [] then s
    else End(Exec(Exec(s, stages[0].before), stages[0].pass), stages[1..])
  }

  /** No pass in flight works with an older spec. */
  ghost predicate UpToDate(s: State) {
    Settling(s) && (!s.round.Idle? ==> s.round.e == s.spec)
  }

  function Learners(members: seq<Member>): (n: nat) {
    VotersBound(members);
    |members| - Voters(members)
  }

  // ----- runs without edits -----

  lemma {:induction false} StepUpToDate(s: State, a: Action)
    requires UpToDate(s) && Enabled(s, a) && !a.Edit?
    ensures UpToDate(Apply(s, a)) && Apply(s, a).spec == s.spec
  {
    hide Settling, Enabled, Apply;
    StepApproaches(s, a);
    RoundSpec(s, a);
  }

  lemma {:induction false} RoundSpec(s: State, a: Action)
    requires Enabled(s, a) && !a.Edit? && (!s.round.Idle? ==> s.round.e == s.spec)
    ensures var t := Apply(s, a); t.spec == s.spec && (!t.round.Idle? ==> t.round.e == t.spec)
  {
    hide EditOk, ScaledUp, ScaledDown, Refreshed, Flipped, FindMember, WithoutMember, PeerNodeURL, LearnerIs,
      PVCNameForEtcd, Promoted, AnyLearner, MemberName;
  }

  /** Without a learner in the spec, nobody becomes one. */
  lemma {:induction false} StepLearners(s: State, a: Action)
    requires UpToDate(s) && s.spec.learners == [] && Enabled(s, a) && !a.Edit?
    ensures Learners(Apply(s, a).members) <= Learners(s.members)
  {
    hide Inv, Voters, Settling, Enabled, Apply;
    SettlingInv(s);
    if a.RemoveMember? {
      RemovalTakesHighest(s);
      if Apply(s, a).members != s.members {
        LearnersOfPrefix(s.members);
      }
    } else if a.AddMember? {
      AdditionVotes(s, a.id);
    } else {
      OtherStepSizes(s, a);
      SameLearnerFlags(s, a);
      VotersGrow(s.members, Apply(s, a).members);
    }
  }

  lemma {:induction false} SettlingInv(s: State)
    requires Settling(s)
    ensures Inv(s)
  {
  }

  lemma {:induction false} LearnersOfPrefix(members: seq<Member>)
    ensures members != [] ==> Learners(members[..|members| - 1]) <= Learners(members)
  {
  }

  lemma {:induction false} AdditionVotes(s: State, id: nat)
    requires Enabled(s, AddMember(id)) && (!s.round.Idle? ==> s.round.e == s.spec) && s.spec.learners == []
    ensures Learners(Apply(s, AddMember(id)).members) == Learners(s.members)
  {
    hide PeerNodeURL, Voters, EditOk;
    var t := Apply(s, AddMember(id));
    if t.members != s.members {
      OneMoreVoter(s.members, t.members[|s.members|]);
    }
  }

  lemma {:induction false} OneMoreVoter(members: seq<Member>, m: Member)
    requires !m.isLearner
    ensures Learners(members + [m]) == Learners(members)
  {
    assert (members + [m])[..|members|] == members;
  }

  lemma {:induction false} RunUpToDate(s: State, acts: seq<Action>)
    requires UpToDate(s) && NoEdits(acts) && Runs(s, acts)
    ensures var t := Exec(s, acts);
            && UpToDate(t) && t.spec == s.spec && s.versions != [] && t.versions != [] && Distance(t) <= Distance(s)
            && (s.spec.learners == [] ==> Learners(t.members) <= Learners(s.members))
    decreases |acts|
  {
    hide Settling, Enabled, Apply, Learners, Distance;
    SettlingBounds(s);
    if acts != [] {
      assert acts[0] in acts && forall a :: a in acts[1..] ==> a in acts;
      StepUpToDate(s, acts[0]);
      StepApproaches(s, acts[0]);
      if s.spec.learners == [] {
        StepLearners(s, acts[0]);
      }
      RunUpToDate(Apply(s, acts[0]), acts[1..]);
    }
  }

  // ----- one stage -----

  /** What is left to do: one pass for every step of the size, one for every learner. */
  function Remaining(s: State): nat
    requires s.versions != []
  {
    Distance(s) + Learners(s.members)
  }

  lemma {:induction false} PassCounts(s: State, pass: seq<Action>)
    requires UpToDate(s) && PodsReady(s) && OnePass(s, pass)
    ensures var t := Exec(s, pass);
            && UpToDate(t) && t.spec == s.spec && t.versions != []
            && (Distance(s) > 0 ==> Distance(t) == Distance(s) - 1 && |t.members| == Committed(t))
            && (Distance(s) == 0 ==> Distance(t) == 0)
            && (s.spec.learners == [] ==> Learners(t.members) <= Learners(s.members))
            && (s.spec.learners == [] && Distance(s) == 0 && AnyLearner(s.members) ==>
                Learners(t.members) < Learners(s.members))
            && (s.spec.learners == [] && Distance(s) == 0 && !AnyLearner(s.members) ==> Complete(t))
  {
    hide Settling, Complete, AnyLearner, Voters, Inv, Quiet;
    SettlingInv(s);
    QuietRuns(s, pass);
    RunUpToDate(s, pass);
    PassScales(s, pass);
    if Distance(s) == 0 && s.spec.learners == [] {
      PassPromotes(s, pass);
      if !AnyLearner(s.members) {
        assert Learners(s.members) == 0 by { NoLearners(s.members); }
        VotersBound(Exec(s, pass).members);
      }
    }
  }

  lemma {:induction false} NoLearners(members: seq<Member>)
    requires !AnyLearner(members)
    ensures Learners(members) == 0
  {
    AllVote(members);
  }

  lemma {:induction false} AllVote(members: seq<Member>)
    requires !AnyLearner(members)
    ensures Voters(members) == |members|
  {
    if members != [] {
      var k := |members| - 1;
      assert members[k] in members && forall m :: m in members[..k] ==> m in members;
      AllVote(members[..k]);
    }
  }

  // ----- campaigns -----

  /** As many undisturbed passes with ready pods as the size is away bring the TApp to it, whatever happens in
      between. */
  lemma {:induction false} CampaignReachesSize(s: State, stages: seq<Stage>)
    requires UpToDate(s) && Campaign(s, stages) && s.versions != [] && |stages| >= Distance(s)
    ensures var t := End(s, stages);
            && UpToDate(t) && t.spec == s.spec && t.versions != [] && AtSize(t)
            && |t.members| == t.spec.size
    decreases |stages|
  {
    hide UpToDate, PodsReady, Quiet, Distance, Learners, AnyLearner, Complete;
    UpToDateBounds(s);
    if stages != [] {
      var u := Exec(s, stages[0].before);
      RunUpToDate(s, stages[0].before);
      PassCounts(u, stages[0].pass);
      CampaignReachesSize(Exec(u, stages[0].pass), stages[1..]);
    } else {
      SizeAndMembers(s);
    }
  }

  lemma {:induction false} UpToDateBounds(s: State)
    requires UpToDate(s)
    ensures s.seen < |s.versions| && Settling(s)
  {
  }

  lemma {:induction false} SizeAndMembers(s: State)
    requires UpToDate(s) && s.versions != [] && Distance(s) == 0
    ensures AtSize(s) && |s.members| == s.spec.size
  {
    hide Inv;
  }

  /** Without a learner in the spec, one more pass for each learner in etcd and a last one make every member a voter
      whose template the access service selects. */
  lemma {:induction false} CampaignCompletes(s: State, stages: seq<Stage>)
    requires UpToDate(s) && s.spec.learners == [] && Campaign(s, stages) && s.versions != [] && |stages| > Remaining(s)
    ensures var t := End(s, stages); UpToDate(t) && t.spec == s.spec && t.versions != [] && AtSize(t) && Complete(t)
    decreases |stages|
  {
    hide UpToDate, PodsReady, Quiet, Complete, AnyLearner, Learners, Distance, AtSize;
    var u := Exec(s, stages[0].before);
    RunUpToDate(s, stages[0].before);
    PassCounts(u, stages[0].pass);
    var w := Exec(u, stages[0].pass);
    if Distance(u) == 0 && !AnyLearner(u.members) {
      SizeAndMembers(w);
      CampaignKeeps(w, stages[1..]);
    } else {
      CampaignCompletes(w, stages[1..]);
    }
  }

  lemma {:induction false} CampaignKeeps(s: State, stages: seq<Stage>)
    requires UpToDate(s) && s.versions != [] && AtSize(s) && Complete(s) && Campaign(s, stages)
    ensures var t := End(s, stages); UpToDate(t) && t.spec == s.spec && t.versions != [] && AtSize(t) && Complete(t)
    decreases |stages|
  {
    hide UpToDate, PodsReady, Complete, AtSize, Quiet;
    if stages != [] {
      var u := Exec(s, stages[0].before);
      KeepsRunning(s, stages[0].before);
      QuietRuns(u, stages[0].pass);
      KeepsRunning(u, stages[0].pass);
      CampaignKeeps(Exec(u, stages[0].pass), stages[1..]);
    }
  }

  lemma {:induction false} KeepsRunning(s: State, acts: seq<Action>)
    requires UpToDate(s) && s.versions != [] && AtSize(s) && Complete(s) && NoEdits(acts) && Runs(s, acts)
    ensures var t := Exec(s, acts); UpToDate(t) && t.spec == s.spec && t.versions != [] && AtSize(t) && Complete(t)
  {
    hide UpToDate, Complete, AtSize, Runs, Exec, NoEdits;
    UpToDateBounds(s);
    RunUpToDate(s, acts);
    SizeStaysForEver(s, acts);
    CompleteForEver(s, acts);
  }

  // ----- and such campaigns exist -----

  /** What pods do by themselves: the newest one starts, and all of the TApp's replicas are reported ready. */
  lemma {:induction false} PodsCome(s: State) returns (acts: seq<Action>)
    requires UpToDate(s) && s.round == Idle
    ensures NoEdits(acts) && Runs(s, acts) && PodsReady(Exec(s, acts)) && Exec(s, acts).round == Idle
    ensures forall a :: a in acts ==> a.Start? || a == Report(PodCounts(Committed(s), Committed(s)))
    ensures SameSizes(s, Exec(s, acts))
  {
    hide Inv, EditOk;
    UpToDateBounds(s);
    var last := |s.members| - 1;
    var r := Committed(s);
    var u := s;
    var starts: seq<Action> := [];
    NewestUnnamed(s);
    if !Named(s.members, r) {
      u := Started(s, last);
      starts := [Start(last)];
      assert Enabled(s, Start(last)) && Apply(s, Start(last)) == u;
      SingleStep(s, Start(last));
    }
    var c := PodCounts(r, r);
    var t := u.(versions := u.versions + [Current(u).(status := c)]);
    assert Enabled(u, Report(c)) && Apply(u, Report(c)) == t;
    SingleStep(u, Report(c));
    hide Enabled, Apply;
    RunTwice(s, starts, [Report(c)]);
    acts := starts + [Report(c)];
  }

  /** Replicas and the members' roles are the same. */
  ghost predicate SameSizes(s: State, t: State) {
    && s.versions != [] && t.versions != [] && Committed(t) == Committed(s) && |t.members| == |s.members|
    && forall i :: 0 <= i < |s.members| ==> t.members[i].isLearner == s.members[i].isLearner
  }

  lemma {:induction false} NewestUnnamed(s: State)
    requires UpToDate(s) && s.seen < |s.versions|
    ensures Named(s.members, |s.members| - 1) && Committed(s) > 0
    ensures !Named(s.members, Committed(s)) ==> |s.members| > 0 && |s.members| <= Committed(s)
    ensures |s.members| > 0 ==> Named(Started(s, |s.members| - 1).members, |s.members|)
  {
    hide MembersInOrder, LabelsSafe, RoundInv, SpecInv;
    assert WellFormed(Current(s), s.spec);
  }

  /** What pods do by themselves, after a pass that was in flight has been given up. */
  lemma {:induction false} QuietStart(s: State) returns (acts: seq<Action>)
    requires UpToDate(s)
    ensures NoEdits(acts) && Runs(s, acts) && PodsReady(Exec(s, acts)) && Exec(s, acts).round == Idle
    ensures forall a :: a in acts ==> a == Abort || a.Start? || a == Report(PodCounts(Committed(s), Committed(s)))
  {
    hide UpToDate, PodsReady, EditOk, Runs, Exec;
    UpToDateBounds(s);
    if s.round.Idle? {
      acts := PodsCome(s);
    } else {
      AbortFirst(s);
      StepUpToDate(s, Abort);
      SingleStep(s, Abort);
      var rest := PodsCome(s.(round := Idle));
      RunTwice(s, [Abort], rest);
      acts := [Abort] + rest;
    }
  }

  lemma {:induction false} AbortFirst(s: State)
    requires UpToDate(s) && !s.round.Idle?
    ensures Enabled(s, Abort) && Apply(s, Abort) == s.(round := Idle)
  {
    hide MembersInOrder, LabelsSafe, SpecInv, LagBounded, NamesInv, VersionsWellFormed;
  }

  /** Stages in which nothing happens outside the passes but pods starting and being reported ready. */
  ghost predicate OnlyPods(stages: seq<Stage>) {
    forall i :: 0 <= i < |stages| ==>
      forall a :: a in stages[i].before ==>
          a == Abort || a.Start? || (a.Report? && 0 < a.counts.ready == a.counts.replicas)
  }

  /** The checks of the pass that k more follow find what finds(k) says. */
  ghost predicate Finding(s: State, stages: seq<Stage>, finds: nat -> Found)
    requires Campaign(s, stages)
    decreases |stages|
  {
    stages != [] ==>
      var u := Exec(s, stages[0].before);
      && Told(u, stages[0].pass, finds(|stages| - 1))
      && Finding(Exec(u, stages[0].pass), stages[1..], finds)
  }

  lemma {:induction false} SomeCampaign(s: State, n: nat, finds: nat -> Found) returns (stages: seq<Stage>)
    requires UpToDate(s)
    ensures |stages| == n && Campaign(s, stages) && OnlyPods(stages) && Finding(s, stages, finds)
    decreases n
  {
    hide UpToDate, PodsReady, Runs, Exec, NoEdits, Learners, Distance, Told;
    stages := [];
    if n > 0 {
      UpToDateBounds(s);
      PositiveReplicas(s);
      var before := QuietStart(s);
      RunUpToDate(s, before);
      var u := Exec(s, before);
      UpToDateInv(u);
      var pass := SomePass(u, finds(n - 1));
      RunUpToDateOverPass(u, pass);
      var rest := SomeCampaign(Exec(u, pass), n - 1, finds);
      stages := [Stage(before, pass)] + rest;
      assert stages[1..] == rest;
    }
  }

  lemma {:induction false} PositiveReplicas(s: State)
    requires UpToDate(s) && s.versions != []
    ensures Committed(s) > 0
  {
    hide MembersInOrder, LabelsSafe, SpecInv, LagBounded, NamesInv, RoundInv;
    assert WellFormed(Current(s), s.spec);
  }

  lemma {:induction false} UpToDateInv(s: State)
    requires UpToDate(s)
    ensures Inv(s)
  {
    hide Inv;
  }

  lemma {:induction false} RunUpToDateOverPass(s: State, pass: seq<Action>)
    requires UpToDate(s) && OnePass(s, pass)
    ensures UpToDate(Exec(s, pass))
  {
    hide UpToDate, Quiet, Learners, Distance;
    QuietRuns(s, pass);
    RunUpToDate(s, pass);
  }

  /** From every state in which no pass works with an older spec, with no learner in the spec: undisturbed passes,
      with pods starting in between, make the cluster complete at its size, whatever the checks find to store. */
  lemma {:induction false} EveryoneVotes(s: State, finds: nat -> Found) returns (stages: seq<Stage>)
    requires UpToDate(s) && s.spec.learners == []
    ensures Campaign(s, stages) && OnlyPods(stages) && Finding(s, stages, finds)
    ensures var t := End(s, stages); t.spec == s.spec && t.versions != [] && AtSize(t) && Complete(t)
  {
    hide UpToDate, Complete, AtSize, Campaign, OnlyPods, End, Finding;
    UpToDateBounds(s);
    stages := SomeCampaign(s, Remaining(s) + 1, finds);
    CampaignCompletes(s, stages);
  }

  // ----- the labels can lag one pass behind -----

  /** A fresh cluster of size 2 whose ordinal 1 is a learner grows without a failed call; the learner list is cleared,
      which is allowed; and the pods are ready. The pass that promotes the learner, finding something to store before
      and after, then ends without having made its template selectable. */
  lemma {:induction false} PromotionCanEndRefused(s: State) returns (u: State, t: State, pass: seq<Action>)
    requires Init(s) && s.spec.size == 2 && LearnerIs(s.spec, 1)
    ensures Reaches(s, u) && u.seen < |u.versions| && EditOk(u, u.spec.(learners := []))
    ensures Reaches(Edited(u, u.spec.(learners := [])), t) && PodsReady(t) && t.spec.learners == []
    ensures OnePass(t, pass) && Told(t, pass, Found(true, true))
    ensures var w := Exec(t, pass); !AnyLearner(w.members) && !Complete(w)
  {
    hide Settling, Reaches, OnePass, Told, Complete, UpToDate, PodsReady, EditOk, AnyLearner;
    u := GrownByLearner(s);
    var w := ClearingAllowed(u);
    var ready := PodsCome(w);
    t := Exec(w, ready);
    Came(w, ready);
    pass := SomePass(t, Found(true, true));
    OwnStoreRefused(t, pass);
  }

  /** Two members, the second a learner, and two replicas. */
  ghost predicate LearnerJoined(s: State) {
    s.versions != [] && Committed(s) == 2 == |s.members| && !s.members[0].isLearner && s.members[1].isLearner
  }

  lemma {:induction false} GrownByLearner(s: State) returns (u: State)
    requires Init(s) && s.spec.size == 2 && LearnerIs(s.spec, 1)
    ensures Reaches(s, u) && Settling(u) && u.round == Idle && u.spec == s.spec && LearnerJoined(u)
  {
    hide Settling, Reaches, SeedTApp, ScaledUp, Named, LearnerIs, EditOk;
    InitSettling(s);
    var a := Rest(s);
    var half := GrowHalf(a);
    assert half.members[0] == a.members[0];
    var full := SavedUp(half);
    ScaledUpReplicas(a.spec, Current(half));
    assert Enabled(half, SaveUp) && Apply(half, SaveUp) == full;
    hide Enabled, Apply;
    OneStep(half, SaveUp);
    GiveUp(full);
    u := full.(round := Idle);
    Transitive(s, a, half);
    Transitive(s, half, full);
    Transitive(s, full, u);
    ReachesSettling(s, u);
  }

  lemma {:induction false} ClearingAllowed(u: State) returns (w: State)
    requires Settling(u) && u.round == Idle && u.spec.size == 2 && LearnerJoined(u)
    ensures w == Edited(u, u.spec.(learners := [])) && EditOk(u, w.spec) && u.seen < |u.versions|
    ensures UpToDate(w) && LearnerJoined(w) && w.round == Idle
  {
    w := Edited(u, u.spec.(learners := []));
    SettlingBounds(u);
    assert VisibleOk(u, w.spec) by { SpecAdmitted(u); }
    VisibleIsEnough(u, w.spec);
    hide Inv, EditOk, VisibleOk;
    assert Enabled(u, Edit(w.spec)) && Apply(u, Edit(w.spec)) == w;
    StepKeeps(u, Edit(w.spec));
  }

  lemma {:induction false} SpecAdmitted(s: State)
    requires Inv(s)
    ensures Admitted(s.spec)
  {
    hide MembersInOrder, LabelsSafe, NamesInv, RoundInv, LagBounded, VersionsWellFormed;
  }

  lemma {:induction false} Came(w: State, ready: seq<Action>)
    requires UpToDate(w) && LearnerJoined(w) && w.spec.learners == [] && w.spec.size == 2
    requires NoEdits(ready) && Runs(w, ready) && PodsReady(Exec(w, ready)) && SameSizes(w, Exec(w, ready))
    ensures var t := Exec(w, ready);
            && Reaches(w, t) && Inv(t) && ReadyToPromote(t) && t.spec == w.spec
            && |t.members| == Committed(t) == Voters(t.members) + 1
  {
    hide Inv, Runs, Exec, NoEdits, SomeReady, AllReady;
    var t := Exec(w, ready);
    RunUpToDate(w, ready);
    assert t.members[..1][..0] == [];
    assert Voters(t.members[..1]) == 1;
  }
}
