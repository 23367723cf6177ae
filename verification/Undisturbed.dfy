/** What a pass does when every call gets through, the caches are current and nobody interferes. The code is shown to
    take exactly these passes in a calm world (Reconciler.SyncTApp); here every such pass is shown to make progress.
    One thing can still go wrong: the pass keeps its copy of the EtcdCluster after storing a member list, so when its
    second check has another list to store, the API server refuses it (etcd.go, lines 346-353 and 401). */
module Undisturbed {
  import opened Text
  import opened Cluster
  import opened NodeArgs
  import opened Protocol
  import opened ProtocolSafety
  import opened ScalingTheorems
  import opened Reachability
  import opened EditDiscipline
  import opened Convergence
  import opened Promotion

  // ----- undisturbed passes -----

  /** The reconciler's own step a: it reads current objects, does not give up, and overlooks no learner that it could
      promote (with no pod ready it does not look at the members, so it may). */
  ghost predicate Calm(s: State, a: Action)
    requires Enabled(s, a)
  {
    match a
    case Edit(_) => false
    case Touch => false
    case Report(_) => false
    case Start(_) => false
    case Provision(_) => false
    case Abort => false
    case Begin(v) => IsCurrent(s, v)
    case ReadTApp(v) => IsCurrent(s, v)
    case NothingToPromote => s.round.e.learners != [] || !AnyLearner(s.members) || Current(s).status.ready < 1
    case _ => true
  }

  ghost predicate Quiet(s: State, acts: seq<Action>)
    decreases |acts|
  {
    acts != [] ==> Enabled(s, acts[0]) && Calm(s, acts[0]) && Quiet(Apply(s, acts[0]), acts[1..])
  }

  lemma {:induction false} QuietRuns(s: State, acts: seq<Action>)
    requires Quiet(s, acts)
    ensures Runs(s, acts) && NoEdits(acts)
    decreases |acts|
  {
    hide Enabled, Apply;
    if acts != [] {
      QuietRuns(Apply(s, acts[0]), acts[1..]);
      assert acts == [acts[0]] + acts[1..];
    }
  }

  lemma {:induction false} QuietOneMore(s: State, acts: seq<Action>, a: Action)
    requires Quiet(s, acts) && Runs(s, acts) && Enabled(Exec(s, acts), a) && Calm(Exec(s, acts), a)
    ensures Quiet(s, acts + [a])
    decreases |acts|
  {
    hide Enabled, Apply, Calm;
    if acts == [] {
      assert acts + [a] == [a];
    } else {
      assert (acts + [a])[1..] == acts[1..] + [a];
      QuietOneMore(Apply(s, acts[0]), acts[1..], a);
    }
  }

  /** One whole pass, from reading the spec until the round is over. */
  ghost predicate OnePass(s: State, acts: seq<Action>) {
    && s.round == Idle && Quiet(s, acts) && Runs(s, acts) && Exec(s, acts).round == Idle
    && acts != [] && acts[0] == ReadSpec && ReadSpec !in acts[1..]
  }

  // ----- one pass takes one scaling step -----

  /** What a pass over s0 does to the size. */
  ghost predicate Stepped(s0: State, s: State)
    requires s0.versions != [] && s.versions != []
  {
    var r := Committed(s0);
    if s0.spec.size > r && AllReady(Current(s0)) then Committed(s) == r + 1 == |s.members|
    else if s0.spec.size < r then Committed(s) == r - 1 == |s.members|
    else Committed(s) == r && |s.members| == |s0.members|
  }

  ghost predicate Untouched(s0: State, s: State) {
    s.versions == s0.versions && s.members == s0.members
  }

  /** Where a pass over s0 has got to. */
  ghost predicate Reached(s0: State, s: State) {
    && s0.versions != [] && s.versions != [] && s.spec == s0.spec && (!s.round.Idle? ==> s.round.e == s0.spec)
    && var r, n := Committed(s0), s0.spec.size;
       match s.round
       case SpecRead(_) => Untouched(s0, s)
       case Fetched(_, v) => Untouched(s0, s) && IsCurrent(s, v)
       case UpListed(_, v, _) => Untouched(s0, s) && IsCurrent(s, v) && n > r && AllReady(Current(s0))
       case UpJoined(_, v) => s.versions == s0.versions && IsCurrent(s, v) && n > r && AllReady(Current(s0))
           && |s.members| == r + 1
       case DownListed(_, v, _) => Untouched(s0, s) && IsCurrent(s, v) && n < r
       case DownLeft(_, v) => s.versions == s0.versions && IsCurrent(s, v) && n < r && |s.members| == r - 1
       case _ => Stepped(s0, s)
  }

  /** Before a pass: members and TApp agree, or differ by a half-done step towards the size. */
  ghost predicate StartOk(s0: State) {
    && s0.versions != []
    && (s0.spec.size > Committed(s0) ==> |s0.members| == Committed(s0) || |s0.members| == Committed(s0) + 1)
  }

  lemma {:induction false} InvStartOk(s0: State)
    requires Inv(s0)
    ensures StartOk(s0)
  {
    hide MembersInOrder, LabelsSafe, NamesInv, VersionsWellFormed, RoundInv;
  }

  /** The second half of a pass, from the refresh on, leaves the size alone. */
  predicate LateRound(r: Round) {
    r.Refreshing? || r.Checking? || r.CheckRead? || r.CheckListed? || r.CheckRecorded? || r.Promoting?
  }

  lemma {:induction false} LateStep(s0: State, s: State, a: Action)
    requires Inv(s) && Reached(s0, s) && LateRound(s.round) && Enabled(s, a) && Calm(s, a)
    ensures Reached(s0, Apply(s, a))
  {
    hide Inv, Enabled, Apply, Calm, Reached;
    LateRounds(s, a);
    StepKeeps(s, a);
    InvBounds(s);
    InvBounds(Apply(s, a));
    AcceptedWrites(s, a);
    OtherStepSizes(s, a);
    ReachedCarries(s0, s, Apply(s, a));
  }

  lemma {:induction false} ReachedCarries(s0: State, s: State, t: State)
    requires Reached(s0, s) && LateRound(s.round) && t.versions != []
    requires Committed(t) == Committed(s) && |t.members| == |s.members| && t.spec == s.spec
    requires (LateRound(t.round) || t.round.Idle?) && (!t.round.Idle? ==> t.round.e == s.round.e)
    ensures Reached(s0, t)
  {
    hide AllReady;
  }

  lemma {:induction false} LateRounds(s: State, a: Action)
    requires Enabled(s, a) && Calm(s, a) && LateRound(s.round)
    ensures var t := Apply(s, a);
            (LateRound(t.round) || t.round.Idle?) && (!t.round.Idle? ==> t.round.e == s.round.e)
            && !a.Edit? && !a.AddMember? && !a.RemoveMember? && a != SaveUp && a != SaveDown
  {
    hide Refreshed, Flipped, Promoted, AnyLearner, EditOk;
  }

  lemma {:induction false} EarlyStep(s0: State, s: State, a: Action)
    requires Inv(s) && StartOk(s0) && Reached(s0, s) && !LateRound(s.round) && !s.round.Idle?
    requires Enabled(s, a) && Calm(s, a)
    ensures Reached(s0, Apply(s, a))
  {
    hide Inv;
    EarlyFacts(s);
    if a.RemoveMember? {
      hide Enabled, Apply, Removed;
      RemovalIs(s);
      RemovalReached(s0, s);
    } else {
      hide PeerNodeURL, LearnerIs, EditOk, FindMember, WithoutMember, ScaledUp, PVCNameForEtcd;
      if a == SaveUp {
        ScaledUpReplicas(s.round.e, s.versions[s.round.v]);
      }
    }
  }

  lemma {:induction false} RemovalReached(s0: State, s: State)
    requires Inv(s) && Reached(s0, s) && s.round.DownListed? && s.seen < |s.versions| && s.round.v == s.seen
    ensures Reached(s0, Removed(s))
  {
    hide Inv, WithoutMember, MembersInOrder;
    RemovalEffect(s);
  }

  lemma {:induction false} EarlyFacts(s: State)
    requires Inv(s)
    ensures s.seen < |s.versions| && (HoldsVersion(s.round) ==> s.round.v == s.seen)
    ensures s.round.UpListed? ==> s.round.count == |s.members|
    ensures forall v: nat :: v < |s.versions| ==> s.versions[v].replicas > 0
  {
    hide MembersInOrder, LabelsSafe, NamesInv, SpecInv, LagBounded;
  }

  lemma {:induction false} QuietReached(s0: State, s: State, acts: seq<Action>)
    requires StartOk(s0) && Inv(s) && Reached(s0, s) && Quiet(s, acts) && Runs(s, acts) && ReadSpec !in acts
    ensures Reached(s0, Exec(s, acts))
    decreases |acts|
  {
    hide Inv, Enabled, Apply, Calm, Reached, StartOk;
    if acts != [] {
      assert acts[0] in acts && forall a :: a in acts[1..] ==> a in acts;
      OnlyReadingAtIdle(s, acts[0]);
      assert !s.round.Idle?;
      StepKeeps(s, acts[0]);
      if LateRound(s.round) {
        LateStep(s0, s, acts[0]);
      } else {
        EarlyStep(s0, s, acts[0]);
      }
      QuietReached(s0, Apply(s, acts[0]), acts[1..]);
    }
  }

  lemma {:induction false} OnlyReadingAtIdle(s: State, a: Action)
    requires Enabled(s, a) && Calm(s, a)
    ensures s.round == Idle ==> a == ReadSpec
  {
    hide EditOk;
  }

  /** An undisturbed pass takes the one scaling step that the size asks for, once pods are ready for it, and otherwise
      leaves the size alone. */
  lemma {:induction false} PassScales(s: State, acts: seq<Action>)
    requires Inv(s) && OnePass(s, acts)
    ensures s.versions != [] && Exec(s, acts).versions != [] && Stepped(s, Exec(s, acts))
  {
    hide Inv, Stepped, AllReady;
    InvBounds(s);
    InvStartOk(s);
    var read := SpecTaken(s);
    FirstReading(s);
    StepKeeps(s, ReadSpec);
    QuietReached(s, read, acts[1..]);
  }

  lemma {:induction false} FirstReading(s: State)
    requires s.round == Idle && s.seen < |s.versions|
    ensures Enabled(s, ReadSpec) && Apply(s, ReadSpec) == SpecTaken(s)
  {
    hide EditOk;
  }

  // ----- one pass at the right size promotes -----

  /** How many member lists the checks of a run try to store. */
  function Stores(acts: seq<Action>): nat {
    if acts == [] then 0 else (if acts[0] == StoreList then 1 else 0) + Stores(acts[1..])
  }

  /** The copy of the EtcdCluster that the pass holds is not the stored one any more. */
  predicate Outdated(s: State) {
    s.held != s.revision
  }

  /** Where a pass over s0 has got to with the learners, when the size is right, the spec names no learner and some
      pod is ready. */
  ghost predicate Advanced(s0: State, s: State) {
    && s0.versions != [] && s.versions != [] && s.spec == s0.spec && (!s.round.Idle? ==> s.round.e == s0.spec)
    && |s.members| == |s0.members|
    && match s.round
       case SpecRead(_) => Untouched(s0, s) && !Outdated(s)
       case Fetched(_, v) => Untouched(s0, s) && IsCurrent(s, v) && !Outdated(s)
       case Refreshing(_, v) => Untouched(s0, s) && IsCurrent(s, v) && !Outdated(s)
       case Checking(_, last) => SomeReady(s) && Voted(s0, s, last) && (last || !Outdated(s))
       case CheckRead(_, v, last) => SomeReady(s) && Voted(s0, s, last) && IsCurrent(s, v) && (last || !Outdated(s))
       case CheckListed(_, v, _, last) =>
         SomeReady(s) && Voted(s0, s, last) && IsCurrent(s, v) && (last || !Outdated(s))
       case CheckRecorded(_, v, _, last) => SomeReady(s) && Voted(s0, s, last) && IsCurrent(s, v)
       case Promoting(_) => SomeReady(s) && s.members == s0.members
           && if AnyLearner(s.members) then SameService(s0, s) else Complete(s)
       case Idle =>
         SomeReady(s) && if AnyLearner(s0.members) then Voters(s.members) > Voters(s0.members) else Complete(s)
       case _ => false
  }

  predicate SomeReady(s: State) {
    s.versions != [] && Current(s).status.ready >= 1
  }

  /** The labels have neither become right nor stopped being right. */
  ghost predicate SameService(s0: State, s: State) {
    s0.versions != [] && s.versions != [] && (AllServed(Current(s)) <==> AllServed(Current(s0)))
  }

  ghost predicate Voted(s0: State, s: State, last: bool) {
    SameService(s0, s)
    && if last then AnyLearner(s0.members) && Voters(s.members) > Voters(s0.members) else s.members == s0.members
  }

  ghost predicate ReadyToPromote(s0: State) {
    s0.versions != [] && AtSize(s0) && s0.spec.learners == [] && SomeReady(s0)
  }

  lemma {:induction false} AdvancedStep(s0: State, s: State, a: Action)
    requires ReadyToPromote(s0) && Inv(s) && Advanced(s0, s) && !s.round.Idle? && Enabled(s, a) && Calm(s, a)
    ensures Advanced(s0, Apply(s, a))
  {
    hide Inv, ReadyToPromote, Enabled, Apply, Calm;
    AdvancedRounds(s0, s);
    hide Advanced;
    if s.round.CheckListed? {
      StoreStep(s0, s, a);
    } else if s.round.CheckRecorded? {
      FlipStep(s0, s, a);
    } else if s.round.Promoting? {
      PromoteStep(s0, s, a);
    } else if s.round.Refreshing? {
      RefreshStep(s0, s, a);
    } else if s.round.SpecRead? || s.round.Fetched? {
      FetchStep(s0, s, a);
    } else {
      CheckStep(s0, s, a);
    }
  }

  lemma {:induction false} AdvancedRounds(s0: State, s: State)
    requires Advanced(s0, s)
    ensures !s.round.UpListed? && !s.round.UpJoined? && !s.round.DownListed?
    ensures !s.round.DownLeft? && !s.round.DownSaved?
  {
    hide Complete, Voters, AnyLearner, SomeReady;
  }

  lemma {:induction false} FetchStep(s0: State, s: State, a: Action)
    requires ReadyToPromote(s0) && Advanced(s0, s)
    requires (s.round.SpecRead? || s.round.Fetched?) && Enabled(s, a) && Calm(s, a)
    ensures Advanced(s0, Apply(s, a))
  {
    hide Complete, Voters, AnyLearner, EditOk, FindMember, PeerNodeURL, SomeReady;
  }

  lemma {:induction false} CheckStep(s0: State, s: State, a: Action)
    requires ReadyToPromote(s0) && Advanced(s0, s)
    requires (s.round.Checking? || s.round.CheckRead?) && Enabled(s, a) && Calm(s, a)
    ensures Advanced(s0, Apply(s, a))
  {
    hide Complete, Voters, AnyLearner, EditOk, AtSize;
  }

  lemma {:induction false} RefreshStep(s0: State, s: State, a: Action)
    requires ReadyToPromote(s0) && Advanced(s0, s) && s.round.Refreshing? && Enabled(s, a) && Calm(s, a)
    ensures Advanced(s0, Apply(s, a))
  {
    hide Complete, Voters, AnyLearner, AtSize, Enabled, Apply, Calm;
    RefreshingSaves(s, a);
    SavedShape(s);
  }

  lemma {:induction false} RefreshingSaves(s: State, a: Action)
    requires Enabled(s, a) && Calm(s, a) && s.round.Refreshing?
    ensures a == SaveTemplates
  {
    hide EditOk, Refreshed, AnyLearner;
  }

  lemma {:induction false} SavedShape(s: State)
    requires Enabled(s, SaveTemplates) && IsCurrent(s, s.round.v) && s.versions != []
    ensures var t := Apply(s, SaveTemplates);
            && t.members == s.members && t.spec == s.spec && t.round == Checking(s.round.e, false)
            && t.versions != [] && Current(t).status == Current(s).status
            && t.held == s.held && t.revision == s.revision
            && (AllServed(Current(t)) <==> AllServed(Current(s)))
  {
    hide EditOk, Refreshed, AllServed;
    assert s.versions[s.round.v] == Current(s);
    RefreshedKeeps(s.round.e, Current(s));
    SameServiceAfterRefresh(s.round.e, Current(s));
  }

  lemma {:induction false} SameServiceAfterRefresh(e: EtcdCluster, app: TApp)
    ensures AllServed(Refreshed(e, app)) <==> AllServed(app)
  {
    RefreshedKeeps(e, app);
    hide Refreshed, Decimal;
    forall i: nat ensures HasVote(Refreshed(e, app), i) == HasVote(app, i) {
    }
  }

  /** Only the second check can find its list refused. */
  lemma {:induction false} StoreStep(s0: State, s: State, a: Action)
    requires ReadyToPromote(s0) && Advanced(s0, s) && s.round.CheckListed? && Enabled(s, a) && Calm(s, a)
    ensures Advanced(s0, Apply(s, a))
  {
    hide AnyLearner, AllServed, Complete, Voters, EditOk, AtSize;
  }

  lemma {:induction false} FlipStep(s0: State, s: State, a: Action)
    requires ReadyToPromote(s0) && Inv(s) && Advanced(s0, s) && s.round.CheckRecorded? && Enabled(s, a) && Calm(s, a)
    ensures Advanced(s0, Apply(s, a))
  {
    hide Inv, Voters, AnyLearner, AtSize, SomeReady, Complete, Enabled, Apply, Calm;
    CheckedFlips(s, a);
    FlipResult(s);
    hide AfterCheck;
    FlipAdvances(s0, s, Apply(s, a));
  }

  lemma {:induction false} FlipAdvances(s0: State, s: State, t: State)
    requires Advanced(s0, s) && s.round.CheckRecorded? && Flips(s, t)
    ensures Advanced(s0, t)
  {
    hide Voters, AnyLearner, SomeReady, Complete;
  }

  lemma {:induction false} CheckedFlips(s: State, a: Action)
    requires Enabled(s, a) && Calm(s, a) && s.round.CheckRecorded?
    ensures a == FlipLabels
  {
    hide EditOk, AnyLearner;
  }

  lemma {:induction false} FlipResult(s: State)
    requires Inv(s) && s.round.CheckRecorded? && IsCurrent(s, s.round.v) && s.round.e == s.spec && s.spec.learners == []
    requires Enabled(s, FlipLabels)
    ensures Flips(s, Apply(s, FlipLabels))
  {
    hide Inv, Enabled, Apply, AnyLearner, AllServed, Flipped;
    ListedFlag(s);
    PoolOf(s);
    FlippedServed(Current(s));
    FlippedRest(Current(s));
    FlipOutcome(s);
  }

  /** t follows s by the label flip of a check on the current TApp. */
  ghost predicate Flips(s: State, t: State)
    requires s.round.CheckRecorded?
  {
    && t.members == s.members && t.spec == s.spec && t.round == AfterCheck(s.round.e, s.round.last)
    && t.versions != [] && (SomeReady(s) ==> SomeReady(t))
    && (if AnyLearner(s.members) then t.versions == s.versions else Complete(t))
  }

  lemma {:induction false} FlipOutcome(s: State)
    requires Enabled(s, FlipLabels) && s.round.CheckRecorded? && IsCurrent(s, s.round.v) && s.versions != []
    requires s.round.e == s.spec && s.spec.learners == [] && s.round.hasLearner == AnyLearner(s.members)
    requires AllServed(Flipped(Current(s))) && Flipped(Current(s)).status == Current(s).status
    ensures Flips(s, Apply(s, FlipLabels))
  {
    hide AnyLearner, EditOk, AllServed, Flipped;
    assert s.versions[s.round.v] == Current(s);
  }

  lemma {:induction false} FlippedRest(app: TApp)
    ensures Flipped(app).status == app.status && Flipped(app).replicas == app.replicas
  {
  }

  lemma {:induction false} ListedFlag(s: State)
    requires Inv(s) && s.round.CheckRecorded?
    ensures s.round.hasLearner == AnyLearner(s.members)
  {
    hide MembersInOrder, LabelsSafe, NamesInv, SpecInv, LagBounded, VersionsWellFormed, AnyLearner;
  }

  lemma {:induction false} PromoteStep(s0: State, s: State, a: Action)
    requires ReadyToPromote(s0) && Advanced(s0, s) && s.round.Promoting? && Enabled(s, a) && Calm(s, a)
    ensures Advanced(s0, Apply(s, a))
  {
    hide Complete, Voters, AtSize, Enabled, Apply, Calm, AnyLearner, IsLearnerId, AllServed;
    PromotingActs(s, a);
    if a.PromoteMember? {
      PromotionShape(s, a.id);
      PromotionAddsVoter(s.members, a.id);
      SomeLearner(s.members, a.id);
      hide Promoted;
    } else {
      NothingLeft(s);
      CompleteWhenIdle(s);
    }
  }

  lemma {:induction false} SomeLearner(members: seq<Member>, id: nat)
    requires IsLearnerId(members, id)
    ensures AnyLearner(members)
  {
  }

  lemma {:induction false} PromotingActs(s: State, a: Action)
    requires Enabled(s, a) && Calm(s, a) && s.round.Promoting?
    ensures a.PromoteMember? || a == NothingToPromote
  {
    hide EditOk, AnyLearner, IsLearnerId;
  }

  lemma {:induction false} PromotionShape(s: State, id: nat)
    requires Enabled(s, PromoteMember(id))
    ensures s.round.Promoting? && IsLearnerId(s.members, id)
    ensures Apply(s, PromoteMember(id)) == s.(members := Promoted(s.members, id), round := Checking(s.round.e, true))
  {
    hide EditOk, Promoted, IsLearnerId;
  }

  lemma {:induction false} NothingLeft(s: State)
    requires Enabled(s, NothingToPromote) && Calm(s, NothingToPromote) && s.round.e.learners == [] && SomeReady(s)
    ensures !AnyLearner(s.members) && Apply(s, NothingToPromote) == s.(round := Idle)
  {
    hide EditOk, AnyLearner;
  }

  lemma {:induction false} CompleteWhenIdle(s: State)
    ensures Complete(s) ==> Complete(s.(round := Idle))
  {
    hide AnyLearner, AllServed;
  }

  lemma {:induction false} QuietAdvanced(s0: State, s: State, acts: seq<Action>)
    requires ReadyToPromote(s0) && Inv(s) && Advanced(s0, s) && Quiet(s, acts) && Runs(s, acts) && ReadSpec !in acts
    ensures Advanced(s0, Exec(s, acts))
    decreases |acts|
  {
    hide Inv, Enabled, Apply, Calm, Advanced, ReadyToPromote;
    if acts != [] {
      assert acts[0] in acts && forall a :: a in acts[1..] ==> a in acts;
      OnlyReadingAtIdle(s, acts[0]);
      StepKeeps(s, acts[0]);
      AdvancedStep(s0, s, acts[0]);
      QuietAdvanced(s0, Apply(s, acts[0]), acts[1..]);
    }
  }

  /** An undisturbed pass at the right size, with some pod ready and no learner in the spec, turns a learner into a
      voter if etcd has any; and if it has none, every template is selectable afterwards. */
  lemma {:induction false} PassPromotes(s: State, acts: seq<Action>)
    requires Inv(s) && OnePass(s, acts) && ReadyToPromote(s)
    ensures var t := Exec(s, acts);
            && |t.members| == |s.members| && t.spec == s.spec && SomeReady(t)
            && if AnyLearner(s.members) then Voters(t.members) > Voters(s.members) else Complete(t)
  {
    hide Inv, ReadyToPromote, Complete, AnyLearner, Voters, SomeReady;
    InvBounds(s);
    var read := SpecTaken(s);
    FirstReading(s);
    StepKeeps(s, ReadSpec);
    assert Advanced(s, read);
    QuietAdvanced(s, read, acts[1..]);
    assert Advanced(s, Exec(s, acts));
  }

  // ----- when such a pass leaves everything selectable -----

  /** The last step of the pass. If it is the store of a member list, that store was refused, and the label change that
      follows it in the code has not taken place. */
  lemma {:induction false} LastStep(s0: State, s: State, a: Action)
    requires ReadyToPromote(s0) && Inv(s) && Advanced(s0, s) && !s.round.Idle? && Enabled(s, a) && Calm(s, a)
    requires Apply(s, a).round == Idle
    ensures a == StoreList ==> Outdated(s)
    ensures var t := Apply(s, a); Complete(t) <==> !AnyLearner(t.members) && (a == StoreList ==> AllServed(Current(s0)))
  {
    hide Inv, ReadyToPromote, Enabled, Apply, Calm;
    AdvancedRounds(s0, s);
    hide Advanced;
    if s.round.CheckListed? {
      RefusedStore(s0, s, a);
    } else if s.round.CheckRecorded? {
      CheckedFlips(s, a);
      LastFlip(s0, s);
    } else if s.round.Promoting? {
      PromotingActs(s, a);
      LastLook(s0, s, a);
    } else {
      NotLast(s0, s, a);
    }
  }

  lemma {:induction false} RefusedStore(s0: State, s: State, a: Action)
    requires ReadyToPromote(s0) && Advanced(s0, s) && s.round.CheckListed? && Enabled(s, a) && Calm(s, a)
    requires Apply(s, a).round == Idle
    ensures Outdated(s)
    ensures var t := Apply(s, a); Complete(t) <==> !AnyLearner(t.members) && AllServed(Current(s0))
    ensures a == StoreList
  {
    hide AnyLearner, AllServed, Voters, EditOk, AtSize;
  }

  lemma {:induction false} LastFlip(s0: State, s: State)
    requires ReadyToPromote(s0) && Inv(s) && Advanced(s0, s) && s.round.CheckRecorded? && Enabled(s, FlipLabels)
    requires Apply(s, FlipLabels).round == Idle
    ensures var t := Apply(s, FlipLabels); Complete(t) <==> !AnyLearner(t.members)
  {
    hide Inv, Voters, AnyLearner, AllServed, Enabled, Apply;
    FlipResult(s);
  }

  lemma {:induction false} LastLook(s0: State, s: State, a: Action)
    requires ReadyToPromote(s0) && Advanced(s0, s) && s.round.Promoting? && Enabled(s, a) && Calm(s, a)
    requires a.PromoteMember? || a == NothingToPromote
    requires Apply(s, a).round == Idle
    ensures var t := Apply(s, a); Complete(t) <==> !AnyLearner(t.members)
  {
    hide Voters, AnyLearner, AllServed, EditOk, IsLearnerId, Promoted;
  }

  lemma {:induction false} NotLast(s0: State, s: State, a: Action)
    requires ReadyToPromote(s0) && Advanced(s0, s) && Enabled(s, a) && Calm(s, a)
    requires s.round.SpecRead? || s.round.Fetched? || s.round.Refreshing? || s.round.Checking? || s.round.CheckRead?
    ensures Apply(s, a).round != Idle
  {
    hide Voters, AnyLearner, AllServed, EditOk, Refreshed, PeerNodeURL, FindMember;
  }

  /** The same from any position in the middle of the pass: with an outdated copy in hand, one store has already been
      made. */
  lemma {:induction false} QuietCompletes(s0: State, s: State, acts: seq<Action>)
    requires ReadyToPromote(s0) && Inv(s) && Advanced(s0, s) && !s.round.Idle?
    requires Quiet(s, acts) && Runs(s, acts) && ReadSpec !in acts && Exec(s, acts).round == Idle
    ensures var t := Exec(s, acts);
            Complete(t) <==>
              !AnyLearner(t.members)
              && ((if Outdated(s) then 1 else 0) + Stores(acts) < 2 || AllServed(Current(s0)))
    decreases |acts|
  {
    hide Inv, Enabled, Apply, Calm, Advanced, ReadyToPromote, Outdated, Complete, AnyLearner, AllServed;
    assert acts != [];
    var a, rest := acts[0], acts[1..];
    assert a in acts && forall b :: b in rest ==> b in acts;
    StepKeeps(s, a);
    AdvancedStep(s0, s, a);
    if Apply(s, a).round == Idle {
      LastStep(s0, s, a);
      if rest != [] {
        OnlyReadingAtIdle(Apply(s, a), rest[0]);
        assert false;
      }
    } else {
      StoreOutdates(s, a);
      QuietCompletes(s0, Apply(s, a), rest);
    }
  }

  lemma {:induction false} StoreOutdates(s: State, a: Action)
    requires Enabled(s, a) && Calm(s, a) && a != ReadSpec && Apply(s, a).round != Idle
    ensures if a == StoreList then !Outdated(s) && Outdated(Apply(s, a)) else Outdated(Apply(s, a)) == Outdated(s)
  {
    hide AnyLearner, EditOk, Refreshed, Flipped, Promoted, ScaledUp, ScaledDown, PeerNodeURL, FindMember,
      WithoutMember, PVCNameForEtcd, IsLearnerId;
  }

  /** An undisturbed pass at the right size, with some pod ready and no learner in the spec, ends with everybody a voter
      whose template the service selects if and only if etcd has no learner left and, unless all templates were
      selectable before, at most one of its checks had a member list to store. The second store of a pass always comes
      with an outdated version and is refused, before the labels are changed. */
  lemma {:induction false} PassCompletes(s: State, acts: seq<Action>)
    requires Inv(s) && OnePass(s, acts) && ReadyToPromote(s)
    ensures var t := Exec(s, acts);
            Complete(t) <==> !AnyLearner(t.members) && (Stores(acts) < 2 || AllServed(Current(s)))
  {
    hide Inv, ReadyToPromote, Complete, AnyLearner, AllServed, SomeReady, AtSize;
    InvBounds(s);
    var read := SpecTaken(s);
    FirstReading(s);
    StepKeeps(s, ReadSpec);
    assert Advanced(s, read);
    hide Advanced;
    QuietCompletes(s, read, acts[1..]);
  }

  // ----- what the checks find -----

  /** Whether the lists that the two checks of a pass work out differ from the one in hand. */
  datatype Found = Found(first: bool, second: bool) {
    predicate Finds(last: bool) {
      if last then second else first
    }
  }

  ghost predicate Tells(s: State, a: Action, found: Found) {
    s.round.CheckListed? ==> a == if found.Finds(s.round.last) then StoreList else KeepList
  }

  ghost predicate Told(s: State, acts: seq<Action>, found: Found)
    requires Runs(s, acts)
    decreases |acts|
  {
    acts != [] ==> Tells(s, acts[0], found) && Told(Apply(s, acts[0]), acts[1..], found)
  }

  /** The stores that a pass with a learner to promote has still to make. */
  function StoresAhead(r: Round, found: Found): nat {
    var one, two := if found.first then 1 else 0, if found.second then 1 else 0;
    match r
    case Idle => 0
    case CheckRecorded(_, _, _, last) => if last then 0 else two
    case Promoting(_) => two
    case Checking(_, last) => if last then two else one + two
    case CheckRead(_, _, last) => if last then two else one + two
    case CheckListed(_, _, _, last) => if last then two else one + two
    case _ => one + two
  }

  lemma {:induction false} StoresAheadStep(s0: State, s: State, a: Action, found: Found)
    requires ReadyToPromote(s0) && Advanced(s0, s) && AnyLearner(s0.members) && !s.round.Idle?
    requires Enabled(s, a) && Calm(s, a) && Tells(s, a, found)
    ensures StoresAhead(s.round, found) == (if a == StoreList then 1 else 0) + StoresAhead(Apply(s, a).round, found)
  {
    hide Voters, AnyLearner, AllServed, Complete, EditOk, Refreshed, Flipped, PeerNodeURL, FindMember, IsLearnerId,
      Promoted;
  }

  lemma {:induction false} QuietTold(s0: State, s: State, acts: seq<Action>, found: Found)
    requires ReadyToPromote(s0) && Inv(s) && Advanced(s0, s) && AnyLearner(s0.members)
    requires Quiet(s, acts) && Runs(s, acts) && ReadSpec !in acts && Exec(s, acts).round == Idle && Told(s, acts, found)
    ensures Stores(acts) == StoresAhead(s.round, found)
    decreases |acts|
  {
    hide Inv, Enabled, Apply, Calm, Advanced, ReadyToPromote, AnyLearner, Tells;
    if acts != [] {
      assert acts[0] in acts && forall b :: b in acts[1..] ==> b in acts;
      OnlyReadingAtIdle(s, acts[0]);
      StepKeeps(s, acts[0]);
      AdvancedStep(s0, s, acts[0]);
      StoresAheadStep(s0, s, acts[0], found);
      QuietTold(s0, Apply(s, acts[0]), acts[1..], found);
    }
  }

  /** A pass that promotes makes exactly the stores for which its two checks find a reason. */
  lemma {:induction false} ToldStores(s: State, acts: seq<Action>, found: Found)
    requires Inv(s) && OnePass(s, acts) && ReadyToPromote(s) && AnyLearner(s.members) && Told(s, acts, found)
    ensures Stores(acts) == (if found.first then 1 else 0) + (if found.second then 1 else 0)
  {
    hide Inv, ReadyToPromote, AnyLearner, AllServed, SomeReady, AtSize, Complete;
    InvBounds(s);
    var read := SpecTaken(s);
    FirstReading(s);
    StepKeeps(s, ReadSpec);
    assert Advanced(s, read);
    hide Advanced;
    QuietTold(s, read, acts[1..], found);
  }

  // ----- passes exist -----

  function Rank(r: Round): nat {
    match r
    case Idle => 0
    case SpecRead(_) => 15
    case Fetched(_, _) => 14
    case UpListed(_, _, _) => 13
    case UpJoined(_, _) => 12
    case DownListed(_, _, _) => 13
    case DownLeft(_, _) => 12
    case DownSaved(_, _) => 11
    case Refreshing(_, _) => 10
    case Checking(_, last) => if last then 4 else 9
    case CheckRead(_, _, last) => if last then 3 else 8
    case CheckListed(_, _, _, last) => if last then 2 else 7
    case CheckRecorded(_, _, _, last) => if last then 1 else 6
    case Promoting(_) => 5
  }

  /** A pass is never stuck: in every position there is an undisturbed next step, and it is nearer to the end. */
  lemma {:induction false} NextStep(s: State, found: Found) returns (a: Action)
    requires Inv(s) && !s.round.Idle?
    ensures Enabled(s, a) && Calm(s, a) && a != ReadSpec && Rank(Apply(s, a).round) < Rank(s.round)
    ensures Tells(s, a, found)
  {
    hide Inv, Enabled, Apply, Calm, Rank;
    EarlyFacts(s);
    var id := SomeUnused(s.members);
    a := StepAt(s, id, found);
    if s.round.Promoting? {
      NextPromoting(s, id, found);
    } else if LateRound(s.round) {
      NextLate(s, id, found);
    } else {
      NextEarly(s, id, found);
    }
  }

  ghost predicate GoesOn(s: State, a: Action) {
    Enabled(s, a) && Calm(s, a) && a != ReadSpec && Rank(Apply(s, a).round) < Rank(s.round)
  }

  lemma {:induction false} NextEarly(s: State, id: nat, found: Found)
    requires s.seen < |s.versions| && (HoldsVersion(s.round) ==> s.round.v == s.seen) && Unused(s.members, id)
    requires s.versions[s.seen].replicas > 0 && !s.round.Idle? && !LateRound(s.round)
    ensures GoesOn(s, StepAt(s, id, found))
  {
    hide PeerNodeURL, LearnerIs, EditOk, FindMember, WithoutMember, ScaledUp, ScaledDown, PVCNameForEtcd,
      AnyLearner, Unused;
  }

  lemma {:induction false} NextLate(s: State, id: nat, found: Found)
    requires s.seen < |s.versions| && (HoldsVersion(s.round) ==> s.round.v == s.seen)
    requires LateRound(s.round) && !s.round.Promoting?
    ensures GoesOn(s, StepAt(s, id, found))
  {
    hide EditOk, Refreshed, Flipped, AnyLearner;
  }

  lemma {:induction false} NextPromoting(s: State, id: nat, found: Found)
    requires s.seen < |s.versions| && s.round.Promoting?
    ensures GoesOn(s, StepAt(s, id, found))
  {
    if s.round.e.learners == [] && AnyLearner(s.members) {
      PromotionEnabled(s, LearnerOf(s.members));
    }
    hide EditOk, AnyLearner, Promoted, IsLearnerId;
  }

  ghost function StepAt(s: State, id: nat, found: Found): Action
    requires s.versions != [] && (HoldsVersion(s.round) ==> s.round.v < |s.versions|)
  {
    var v := |s.versions| - 1;
    match s.round
    case Idle => ReadSpec
    case SpecRead(_) => Begin(v)
    case Fetched(e, w) =>
      if e.size == s.versions[w].replicas then KeepSize
      else if e.size < s.versions[w].replicas then ListForDown
      else if AllReady(s.versions[w]) then ListForUp
      else Wait
    case UpListed(_, _, _) => AddMember(id)
    case UpJoined(_, _) => SaveUp
    case DownListed(_, _, _) => RemoveMember
    case DownLeft(_, _) => SaveDown
    case DownSaved(_, _) => DeleteClaim
    case Refreshing(_, _) => SaveTemplates
    case Checking(_, _) => ReadTApp(v)
    case CheckRead(_, _, _) => ListForCheck
    case CheckListed(_, _, _, last) => if found.Finds(last) then StoreList else KeepList
    case CheckRecorded(_, _, _, _) => FlipLabels
    case Promoting(e) =>
      if e.learners == [] && AnyLearner(s.members) then PromoteMember(LearnerOf(s.members)) else NothingToPromote
  }

  ghost function LearnerOf(members: seq<Member>): (id: nat)
    requires AnyLearner(members)
    ensures IsLearnerId(members, id)
  {
    var m :| m in members && m.isLearner;
    m.id
  }

  lemma {:induction false} PromotionEnabled(s: State, id: nat)
    requires s.seen < |s.versions| && s.round.Promoting? && s.round.e.learners == [] && IsLearnerId(s.members, id)
    ensures Enabled(s, PromoteMember(id)) && Calm(s, PromoteMember(id))
    ensures Apply(s, PromoteMember(id)).round == Checking(s.round.e, true)
  {
    hide EditOk, Promoted;
  }

  lemma {:induction false} FinishPass(s: State, found: Found) returns (acts: seq<Action>)
    requires Inv(s)
    ensures Quiet(s, acts) && Runs(s, acts) && ReadSpec !in acts && Exec(s, acts).round == Idle
    ensures Told(s, acts, found)
    decreases Rank(s.round)
  {
    hide Inv, Enabled, Apply, Calm, Tells;
    if s.round == Idle {
      acts := [];
    } else {
      var a := NextStep(s, found);
      StepKeeps(s, a);
      var rest := FinishPass(Apply(s, a), found);
      acts := [a] + rest;
      assert acts[1..] == rest;
    }
  }

  /** Whatever the checks will find, there is an undisturbed pass in which they find it: the theorems about undisturbed
      passes leave none of the code's cases out. */
  lemma {:induction false} SomePass(s: State, found: Found) returns (acts: seq<Action>)
    requires Inv(s) && s.round == Idle
    ensures OnePass(s, acts) && Told(s, acts, found)
  {
    hide Inv, Enabled, Apply, Calm;
    InvBounds(s);
    FirstReading(s);
    StepKeeps(s, ReadSpec);
    ReadingIsCalm(s);
    var rest := FinishPass(Apply(s, ReadSpec), found);
    acts := [ReadSpec] + rest;
    assert acts[1..] == rest;
  }

  lemma {:induction false} ReadingIsCalm(s: State)
    requires Enabled(s, ReadSpec)
    ensures Calm(s, ReadSpec)
  {
  }

  // ----- the pass that gets in its own way -----

  /** Members and TApp agree, and one of the members is a learner: some template is not selectable. */
  lemma {:induction false} LearnersUnserved(s: State)
    requires Inv(s) && AnyLearner(s.members) && s.versions != [] && |s.members| <= Committed(s)
    ensures !AllServed(Current(s))
  {
    hide MembersInOrder, VersionsWellFormed, LagBounded, NamesInv, RoundInv, SpecInv, HasVote;
    var m :| m in s.members && m.isLearner;
    var i: nat :| i < |s.members| && s.members[i] == m;
    assert !HasVote(Current(s), i);
  }

  /** One learner is left, and both checks have a list to store. No call fails, nobody interferes, and the learner
      becomes a voter; but the second store is refused and its template stays out of the service. */
  lemma {:induction false} OwnStoreRefused(s: State, acts: seq<Action>)
    requires Inv(s) && ReadyToPromote(s) && |s.members| == Committed(s) == Voters(s.members) + 1
    requires OnePass(s, acts) && Told(s, acts, Found(true, true))
    ensures var t := Exec(s, acts); !AnyLearner(t.members) && !Complete(t)
  {
    hide Inv, Complete, AnyLearner, AllServed, Quiet, Told, ReadyToPromote;
    LearnerLeft(s.members);
    LearnersUnserved(s);
    ToldStores(s, acts, Found(true, true));
    PassPromotes(s, acts);
    PassCompletes(s, acts);
    VotersBound(Exec(s, acts).members);
  }

  lemma {:induction false} LearnerLeft(members: seq<Member>)
    requires Voters(members) < |members|
    ensures AnyLearner(members)
  {
    var k := |members| - 1;
    if members[k].isLearner {
      assert members[k] in members;
    } else {
      LearnerLeft(members[..k]);
      var m :| m in members[..k] && m.isLearner;
      assert m in members;
    }
  }

  /** The next undisturbed pass makes up for it: it starts with a new copy and has only one check. */
  lemma {:induction false} NextPassCompletes(s: State, acts: seq<Action>, more: seq<Action>)
    requires Inv(s) && ReadyToPromote(s) && OnePass(s, acts) && !AnyLearner(Exec(s, acts).members)
    requires OnePass(Exec(s, acts), more)
    ensures Complete(Exec(Exec(s, acts), more))
  {
    hide Inv, Complete, AnyLearner, Quiet, Voters, SomeReady, AllReady;
    var t := Exec(s, acts);
    RunKeeps(s, acts);
    PassPromotes(s, acts);
    PassScales(s, acts);
    PassPromotes(t, more);
  }
}
