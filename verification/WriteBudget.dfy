/** How often the operator writes the TApp while the spec stays as it is: the comparisons that guard its updates
    (pkg/controller/etcdcluster/etcd.go, lines 363 and 726) let through one write for every scaling step, one refresh
    of the templates and one change of the labels, whatever fails, however stale the reads, and however often pods
    report. */
module WriteBudget {
  import opened Text
  import opened Flags
  import opened Cluster
  import opened NodeArgs
  import opened Protocol
  import opened ProtocolSafety
  import opened ScalingTheorems
  import opened Reachability
  import opened EditDiscipline
  import opened Convergence

  // ----- fresh templates -----

  /** The arguments of ordinal i under spec e. */
  ghost function NodeList(e: EtcdCluster, appName: string, i: nat): seq<string> {
    Merged(Printed(ArgsOfNode(e, appName, i), DASHES), e.extraArgs, DASHES, DASHES)
  }

  /** Every ordinal's template has the settings and arguments that spec e asks for. */
  ghost predicate Fresh(e: EtcdCluster, app: TApp) {
    forall i: nat :: i < app.replicas ==> FreshAt(e, app, i)
  }

  ghost predicate FreshAt(e: EtcdCluster, app: TApp, i: nat) {
    && Decimal(i) in app.pool
    && app.pool[Decimal(i)].settings == e.settings
    && app.pool[Decimal(i)].args == NodeList(e, app.name, i)
  }

  lemma {:induction false} WithArgsAt(e: EtcdCluster, app: TApp, i: nat)
    requires i < app.replicas && Decimal(i) in app.pool
    ensures Decimal(i) in WithArgs(e, app).pool
    ensures WithArgs(e, app).pool[Decimal(i)] == app.pool[Decimal(i)].(args := NodeList(e, app.name, i))
  {
    hide ArgsOfNode, Printed, Parse, Decimal;
    OrdinalOfDecimal(i, app.replicas);
  }

  lemma {:induction false} RefreshedIsFresh(e: EtcdCluster, app: TApp, spec: EtcdCluster)
    requires WellFormed(app, spec)
    ensures Fresh(e, Refreshed(e, app))
  {
    hide NodeList, Decimal;
    var settled := app.(pool := SettingsPool(e, app.pool));
    WithArgsKeeps(e, settled);
    forall i: nat | i < app.replicas ensures FreshAt(e, Refreshed(e, app), i) {
      OrdinalWithin(i, app.replicas);
      WithArgsAt(e, settled, i);
    }
  }

  /** A refresh finds something to write if and only if some template is not fresh. */
  lemma {:induction false} RefreshWrites(e: EtcdCluster, app: TApp, spec: EtcdCluster)
    requires WellFormed(app, spec)
    ensures Refreshed(e, app) == app <==> Fresh(e, app)
  {
    hide Fresh, Decimal;
    RefreshedIsFresh(e, app, spec);
    RefreshedKeeps(e, app);
    if Fresh(e, app) {
      forall key | key in app.pool ensures Refreshed(e, app).pool[key] == app.pool[key] {
        OrdinalsExactly(app.replicas, key);
        FreshUnchanged(e, app, OrdinalOf(key, app.replicas));
      }
      hide Refreshed;
      assert Refreshed(e, app).pool == app.pool;
    }
  }

  lemma {:induction false} FreshUnchanged(e: EtcdCluster, app: TApp, i: nat)
    requires Fresh(e, app) && i < app.replicas
    ensures Decimal(i) in app.pool && Decimal(i) in Refreshed(e, app).pool
    ensures Refreshed(e, app).pool[Decimal(i)] == app.pool[Decimal(i)]
  {
    var settled := app.(pool := SettingsPool(e, app.pool));
    assert FreshAt(e, app, i);
    hide NodeList, WithArgs, Decimal, Fresh;
    WithArgsAt(e, settled, i);
  }

  lemma {:induction false} FreshAfterScaleUp(e: EtcdCluster, app: TApp, spec: EtcdCluster)
    requires WellFormed(app, spec) && Fresh(e, app)
    ensures Fresh(e, ScaledUp(e, app))
  {
    hide NodeList, Decimal, LearnerIs;
    var ext := Extended(e, app);
    WithArgsKeeps(e, ext);
    OrdinalWithin(0, app.replicas);
    forall i: nat | i < ext.replicas ensures FreshAt(e, ScaledUp(e, app), i) {
      if i == app.replicas {
        assert FreshAt(e, app, 0);
      } else {
        assert FreshAt(e, app, i);
        if Decimal(i) == Decimal(app.replicas) {
          DecimalInjective(i, app.replicas);
        }
      }
      WithArgsAt(e, ext, i);
    }
  }

  lemma {:induction false} FreshAfterScaleDown(e: EtcdCluster, app: TApp)
    requires app.replicas > 0 && Fresh(e, app)
    ensures Fresh(e, ScaledDown(app))
  {
    hide NodeList, Decimal;
    forall i: nat | i < app.replicas - 1 ensures FreshAt(e, ScaledDown(app), i) {
      assert FreshAt(e, app, i);
      if Decimal(i) == Decimal(app.replicas - 1) {
        DecimalInjective(i, app.replicas - 1);
      }
    }
  }

  lemma {:induction false} FreshAfterFlip(e: EtcdCluster, app: TApp)
    requires Fresh(e, app)
    ensures Fresh(e, Flipped(app))
  {
    hide NodeList, Decimal;
    forall i: nat | i < app.replicas ensures FreshAt(e, Flipped(app), i) {
      assert FreshAt(e, app, i);
    }
  }

  lemma {:induction false} FreshAfterReport(e: EtcdCluster, app: TApp, c: PodCounts)
    requires Fresh(e, app)
    ensures Fresh(e, app.(status := c))
  {
    hide NodeList, Decimal;
    forall i: nat | i < app.replicas ensures FreshAt(e, app.(status := c), i) {
      assert FreshAt(e, app, i);
    }
  }

  // ----- labels -----

  predicate Labelled(app: TApp) {
    forall key :: key in app.pool ==>
      VOTING_LABEL in app.pool[key].labels && app.pool[key].labels[VOTING_LABEL] == "true"
  }

  /** The label change finds something to write if and only if some template is not labelled as a voter's. */
  lemma {:induction false} FlipWrites(app: TApp)
    ensures Labelled(Flipped(app))
    ensures Flipped(app) == app <==> Labelled(app)
  {
    if Labelled(app) {
      forall key | key in app.pool ensures Flipped(app).pool[key] == app.pool[key] {
        assert app.pool[key].labels[VOTING_LABEL := "true"] == app.pool[key].labels;
      }
      assert Flipped(app).pool == app.pool;
    }
  }

  lemma {:induction false} LabelsElsewhere(e: EtcdCluster, app: TApp)
    requires Labelled(app)
    ensures Labelled(Refreshed(e, app))
    ensures app.replicas > 0 ==> Labelled(ScaledDown(app))
  {
    RefreshedKeeps(e, app);
    hide Refreshed;
  }

  lemma {:induction false} LabelsAfterScaleUp(e: EtcdCluster, app: TApp, spec: EtcdCluster)
    requires WellFormed(app, spec) && Labelled(app) && e.learners == []
    ensures Labelled(ScaledUp(e, app))
  {
    OrdinalWithin(0, app.replicas);
    WithArgsKeeps(e, Extended(e, app));
    hide WithArgs, Decimal;
  }

  // ----- the budget -----

  /** No pass in flight works with an older spec. */
  ghost predicate Synced(s: State) {
    Inv(s) && (!s.round.Idle? ==> s.round.e == s.spec)
  }

  function SizeDistance(e: EtcdCluster, app: TApp): nat {
    if e.size >= app.replicas then e.size - app.replicas else app.replicas - e.size
  }

  /** The writes that spec e may still take. */
  ghost function Cost(e: EtcdCluster, app: TApp): nat {
    SizeDistance(e, app) + (if Fresh(e, app) then 0 else 1) + (if e.learners == [] && !Labelled(app) then 1 else 0)
  }

  ghost function Budget(s: State): nat
    requires s.versions != []
  {
    Cost(s.spec, Current(s))
  }

  lemma {:induction false} CostOfScaleUp(e: EtcdCluster, app: TApp, spec: EtcdCluster)
    requires WellFormed(app, spec) && e.size > app.replicas
    ensures Cost(e, ScaledUp(e, app)) + 1 <= Cost(e, app)
  {
    hide Fresh, Labelled, ScaledUp;
    ScaledUpReplicas(e, app);
    if Fresh(e, app) {
      FreshAfterScaleUp(e, app, spec);
    }
    if e.learners == [] && Labelled(app) {
      LabelsAfterScaleUp(e, app, spec);
    }
  }

  lemma {:induction false} CostOfScaleDown(e: EtcdCluster, app: TApp)
    requires app.replicas > 0 && e.size < app.replicas
    ensures Cost(e, ScaledDown(app)) + 1 <= Cost(e, app)
  {
    hide Fresh, Labelled;
    if Fresh(e, app) {
      FreshAfterScaleDown(e, app);
    }
    if Labelled(app) {
      LabelsElsewhere(e, app);
    }
  }

  lemma {:induction false} CostOfRefresh(e: EtcdCluster, app: TApp, spec: EtcdCluster)
    requires WellFormed(app, spec) && Refreshed(e, app) != app
    ensures Cost(e, Refreshed(e, app)) + 1 <= Cost(e, app)
  {
    hide Fresh, Labelled, Refreshed;
    RefreshWrites(e, app, spec);
    RefreshedIsFresh(e, app, spec);
    RefreshedKeeps(e, app);
    if Labelled(app) {
      LabelsElsewhere(e, app);
    }
  }

  lemma {:induction false} CostOfFlip(e: EtcdCluster, app: TApp)
    requires e.learners == [] && Flipped(app) != app
    ensures Cost(e, Flipped(app)) + 1 <= Cost(e, app)
  {
    hide Fresh, Labelled, Flipped;
    FlipWrites(app);
    FlippedReplicas(app);
    if Fresh(e, app) {
      FreshAfterFlip(e, app);
    }
  }

  lemma {:induction false} CostOfReport(e: EtcdCluster, app: TApp, c: PodCounts)
    ensures Cost(e, app.(status := c)) <= Cost(e, app)
  {
    hide Fresh, Labelled;
    if Fresh(e, app) {
      FreshAfterReport(e, app, c);
    }
    if Labelled(app) {
      LabelsAfterReport(app, c);
    }
  }

  lemma {:induction false} LabelsAfterReport(app: TApp, c: PodCounts)
    requires Labelled(app)
    ensures Labelled(app.(status := c))
  {
  }

  /** Step a is an accepted write of the operator. */
  ghost predicate Writes(s: State, a: Action)
    requires Enabled(s, a)
  {
    !a.Edit? && !a.Report? && Apply(s, a).versions != s.versions
  }

  ghost function WriteCount(s: State, acts: seq<Action>): nat
    requires Runs(s, acts)
    decreases |acts|
  {
    if acts == [] then 0
    else (if Writes(s, acts[0]) then 1 else 0) + WriteCount(Apply(s, acts[0]), acts[1..])
  }

  ghost predicate Paid(s: State, a: Action)
    requires Enabled(s, a) && s.versions != [] && Apply(s, a).versions != []
  {
    Budget(Apply(s, a)) + (if Writes(s, a) then 1 else 0) <= Budget(s)
  }

  lemma {:induction false} StepPaid(s: State, a: Action)
    requires Synced(s) && Enabled(s, a) && !a.Edit?
    ensures s.versions != [] && Apply(s, a).versions != [] && Synced(Apply(s, a)) && Apply(s, a).spec == s.spec
    ensures Paid(s, a)
  {
    hide Inv, Enabled, Apply, Paid, Budget;
    InvBounds(s);
    StepKeeps(s, a);
    InvBounds(Apply(s, a));
    SyncedRound(s, a);
    match a {
      case Report(c) => ReportPaid(s, c);
      case SaveUp => SaveUpPaid(s);
      case SaveDown => SaveDownPaid(s);
      case SaveTemplates => RefreshPaid(s);
      case FlipLabels => FlipPaid(s);
      case _ =>
        NothingWritten(s, a);
        SameBudget(s, a);
    }
  }

  lemma {:induction false} SyncedRound(s: State, a: Action)
    requires Enabled(s, a) && !a.Edit? && (!s.round.Idle? ==> s.round.e == s.spec)
    ensures var t := Apply(s, a); t.spec == s.spec && (!t.round.Idle? ==> t.round.e == t.spec)
  {
    hide EditOk, ScaledUp, ScaledDown, Refreshed, Flipped, FindMember, WithoutMember, PeerNodeURL, LearnerIs,
      PVCNameForEtcd, Promoted, AnyLearner, MemberName;
  }

  lemma {:induction false} NothingWritten(s: State, a: Action)
    requires Enabled(s, a) && !a.Edit? && !a.Report?
    requires a != SaveUp && a != SaveDown && a != SaveTemplates && a != FlipLabels
    ensures Apply(s, a).versions == s.versions
  {
    hide EditOk, FindMember, WithoutMember, PeerNodeURL, LearnerIs, PVCNameForEtcd, Promoted, AnyLearner, MemberName;
  }

  lemma {:induction false} SameBudget(s: State, a: Action)
    requires Enabled(s, a) && s.versions != [] && Apply(s, a).versions == s.versions && Apply(s, a).spec == s.spec
    ensures Paid(s, a)
  {
    hide Enabled, Apply, Cost;
  }

  /** A step that at most appends app, and only if that pays. */
  lemma {:induction false} AppendPaid(s: State, a: Action, app: TApp)
    requires Enabled(s, a) && s.versions != [] && Apply(s, a).spec == s.spec
    requires Apply(s, a).versions == s.versions
             || (Apply(s, a).versions == s.versions + [app] && Cost(s.spec, app) + 1 <= Cost(s.spec, Current(s)))
    ensures Apply(s, a).versions != [] && Paid(s, a)
  {
    hide Enabled, Apply, Cost;
  }

  lemma {:induction false} ReportPaid(s: State, c: PodCounts)
    requires Enabled(s, Report(c)) && s.versions != []
    ensures Paid(s, Report(c))
  {
    hide EditOk, Cost;
    CostOfReport(s.spec, Current(s), c);
    assert Current(Apply(s, Report(c))) == Current(s).(status := c);
  }

  lemma {:induction false} SaveUpPaid(s: State)
    requires Synced(s) && Enabled(s, SaveUp) && s.versions != []
    ensures Paid(s, SaveUp)
  {
    hide Inv, Cost, EditOk, ScaledUp;
    CurrentWellFormed(s);
    EarlyPosition(s);
    var up := ScaledUp(s.spec, Current(s));
    assert Apply(s, SaveUp).versions == s.versions || Apply(s, SaveUp).versions == s.versions + [up];
    if IsCurrent(s, s.round.v) {
      CostOfScaleUp(s.spec, Current(s), s.spec);
    }
    AppendPaid(s, SaveUp, up);
  }

  lemma {:induction false} SaveDownPaid(s: State)
    requires Synced(s) && Enabled(s, SaveDown) && s.versions != []
    ensures Paid(s, SaveDown)
  {
    hide Inv, Cost, EditOk, ScaledDown;
    CurrentWellFormed(s);
    EarlyPosition(s);
    var down := ScaledDown(Current(s));
    assert Apply(s, SaveDown).versions == s.versions || Apply(s, SaveDown).versions == s.versions + [down];
    if IsCurrent(s, s.round.v) {
      CostOfScaleDown(s.spec, Current(s));
    }
    AppendPaid(s, SaveDown, down);
  }

  lemma {:induction false} RefreshPaid(s: State)
    requires Synced(s) && Enabled(s, SaveTemplates) && s.versions != []
    ensures Paid(s, SaveTemplates)
  {
    hide Inv, Cost, EditOk, Refreshed;
    CurrentWellFormed(s);
    EarlyPosition(s);
    var app := Refreshed(s.spec, Current(s));
    if IsCurrent(s, s.round.v) && app != Current(s) {
      CostOfRefresh(s.spec, Current(s), s.spec);
    }
    AppendPaid(s, SaveTemplates, app);
  }

  lemma {:induction false} FlipPaid(s: State)
    requires Synced(s) && Enabled(s, FlipLabels) && s.versions != []
    ensures Paid(s, FlipLabels)
  {
    hide Inv, Cost, EditOk, Flipped;
    EarlyPosition(s);
    var app := Flipped(Current(s));
    if s.spec.learners == [] && app != Current(s) {
      CostOfFlip(s.spec, Current(s));
    }
    AppendPaid(s, FlipLabels, app);
  }

  lemma {:induction false} CurrentWellFormed(s: State)
    requires Inv(s)
    ensures s.versions != [] && WellFormed(Current(s), s.spec) && Committed(s) > 0
  {
    hide MembersInOrder, LabelsSafe, SpecInv, LagBounded, NamesInv, RoundInv;
    assert WellFormed(Current(s), s.spec);
  }

  /** A scaling write is made by a pass whose size lies beyond the version it has read. */
  lemma {:induction false} EarlyPosition(s: State)
    requires Inv(s)
    ensures s.seen < |s.versions| && (HoldsVersion(s.round) ==> s.round.v == s.seen)
    ensures s.round.UpJoined? ==> s.round.e.size > s.versions[s.seen].replicas
    ensures s.round.DownLeft? ==> s.round.e.size < s.versions[s.seen].replicas
  {
    hide MembersInOrder, LabelsSafe, NamesInv, SpecInv, LagBounded, VersionsWellFormed;
  }

  /** A run without edits never writes the TApp more often than the budget it starts with. */
  lemma {:induction false} WritesWithinBudget(s: State, acts: seq<Action>)
    requires Synced(s) && NoEdits(acts) && Runs(s, acts)
    ensures s.versions != [] && Exec(s, acts).versions != []
    ensures WriteCount(s, acts) + Budget(Exec(s, acts)) <= Budget(s) <= Distance(s) + 2
    decreases |acts|
  {
    hide Enabled, Apply, Budget, Synced, Distance;
    SyncedBounds(s);
    if acts != [] {
      assert acts[0] in acts && forall a :: a in acts[1..] ==> a in acts;
      StepPaid(s, acts[0]);
      WritesWithinBudget(Apply(s, acts[0]), acts[1..]);
    }
  }

  lemma {:induction false} SyncedBounds(s: State)
    requires Synced(s)
    ensures s.versions != [] && Budget(s) <= Distance(s) + 2
  {
    hide Fresh, Labelled;
    InvBounds(s);
  }

  /** So once the size is reached, the templates are fresh and, without learners, labelled, no run writes again: the
      comparisons stop every write, whatever is reported in between. */
  lemma {:induction false} NoHotLoop(s: State, acts: seq<Action>)
    requires Synced(s) && NoEdits(acts) && Runs(s, acts)
    requires s.versions != [] && AtSize(s) && Fresh(s.spec, Current(s))
    requires (s.spec.learners == [] ==> Labelled(Current(s)))
    ensures WriteCount(s, acts) == 0
    ensures var t := Exec(s, acts); t.versions != [] && Fresh(t.spec, Current(t)) && AtSize(t) && t.spec == s.spec
  {
    WritesWithinBudget(s, acts);
    SpecStays(s, acts);
    hide Synced, Fresh, Labelled, Runs, Exec, WriteCount;
    assert Budget(s) == 0;
  }

  lemma {:induction false} SpecStays(s: State, acts: seq<Action>)
    requires Synced(s) && NoEdits(acts) && Runs(s, acts)
    ensures Exec(s, acts).spec == s.spec
    decreases |acts|
  {
    hide Enabled, Apply, Synced;
    if acts != [] {
      assert acts[0] in acts && forall a :: a in acts[1..] ==> a in acts;
      StepPaid(s, acts[0]);
      SpecStays(Apply(s, acts[0]), acts[1..]);
    }
  }

  // ----- with a pass in flight that works with an older spec -----

  /** What a pass in flight may add before it is over: its writes, and one step of the size in the wrong direction. */
  function Ahead(r: Round): nat {
    match r
    case Idle => 0
    case DownSaved(_, _) => 3
    case Refreshing(_, _) => 3
    case Checking(_, last) => if last then 1 else 2
    case CheckRead(_, _, last) => if last then 1 else 2
    case CheckListed(_, _, _, last) => if last then 1 else 2
    case CheckRecorded(_, _, _, last) => if last then 1 else 2
    case Promoting(_) => 1
    case _ => 5
  }

  /** In any state a run without edits writes at most two times more than the size is away, and five times more if a
      pass was in flight at its start: what an edit costs, wherever the pass was that it hit. */
  lemma {:induction false} WritesAfterEdit(s: State, acts: seq<Action>)
    requires Inv(s) && NoEdits(acts) && Runs(s, acts)
    ensures s.versions != [] && WriteCount(s, acts) <= Distance(s) + 2 + Ahead(s.round)
    decreases |acts|
  {
    hide Inv, Enabled, Apply, Distance, Budget, Writes;
    InvBounds(s);
    if s.round.Idle? {
      WritesWithinBudget(s, acts);
    } else if acts != [] {
      assert acts[0] in acts && forall a :: a in acts[1..] ==> a in acts;
      StepKeeps(s, acts[0]);
      InvBounds(Apply(s, acts[0]));
      StepAhead(s, acts[0]);
      WritesAfterEdit(Apply(s, acts[0]), acts[1..]);
    }
  }

  lemma {:induction false} StepAhead(s: State, a: Action)
    requires Inv(s) && !s.round.Idle? && Enabled(s, a) && !a.Edit?
    requires s.versions != [] && Apply(s, a).versions != []
    ensures var t := Apply(s, a);
            (if Writes(s, a) then 1 else 0) + Distance(t) + Ahead(t.round) <= Distance(s) + Ahead(s.round)
  {
    hide Inv, Enabled, Apply, Ahead;
    AcceptedWrites(s, a);
    RoundsGoOn(s, a);
  }

  /** The round's own steps bring its end nearer, and writes cost it more than that. */
  lemma {:induction false} RoundsGoOn(s: State, a: Action)
    requires Inv(s) && !s.round.Idle? && Enabled(s, a) && !a.Edit?
    ensures var t := Apply(s, a);
            && t.spec == s.spec
            && (if Writes(s, a) then if a == SaveUp || a == SaveDown then 2 else 1 else 0) + Ahead(t.round)
               <= Ahead(s.round)
  {
    hide Inv, EditOk, FindMember, WithoutMember, PeerNodeURL, LearnerIs, PVCNameForEtcd, Promoted, AnyLearner,
      MemberName, ScaledUp, ScaledDown, Refreshed, Flipped;
  }
}
