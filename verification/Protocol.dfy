/** Scaling as a crash-prone protocol between three stores that share no transaction: the TApp object on the
    API server, the etcd membership, and the volume claims (reconcileTApp, updateTAppTemplate,
    ensureMemberStatus, ensureLearner in pkg/controller/etcdcluster/etcd.go).

    The EtcdCluster itself counts as a fourth one, for its version: the member list is stored in its status.

    Each external call is one action. A round may stop after any action (Abort): a call that failed, a reply
    that got lost, a crash. The TApp is read from a lister that may lag but never goes back. */
module Protocol {
  import opened Text
  import opened Cluster
  import opened NodeArgs

  datatype State = State(
    spec: EtcdCluster,      // what the reconciler would read now
    versions: seq<TApp>,    // every TApp version the API server ever accepted, the last one current
    seen: nat,              // the newest version a lister read has returned
    members: seq<Member>,   // etcd members in the order they joined
    claims: set<string>,    // existing volume claims
    revision: nat,          // version of the EtcdCluster object: every write of it adds one
    held: nat,              // version of the copy that the pass in flight holds
    round: Round)

  /** Where the reconciler is in its round, with the round's own copies: spec e and TApp version v. */
  datatype Round =
    | Idle
    | SpecRead(e: EtcdCluster)                                        // spec read, TApp not read yet
    | Fetched(e: EtcdCluster, v: nat)                                 // entering reconcileTApp
    | UpListed(e: EtcdCluster, v: nat, count: nat)                    // scale-up, members listed
    | UpJoined(e: EtcdCluster, v: nat)                                // scale-up, membership side done
    | DownListed(e: EtcdCluster, v: nat, id: nat)                     // scale-down, victim looked up (0: none)
    | DownLeft(e: EtcdCluster, v: nat)                                // scale-down, membership side done
    | DownSaved(e: EtcdCluster, v: nat)                               // scale-down, TApp side done
    | Refreshing(e: EtcdCluster, v: nat)                              // entering updateTAppTemplate
    | Checking(e: EtcdCluster, last: bool)                            // entering ensureMemberStatus
    | CheckRead(e: EtcdCluster, v: nat, last: bool)                   // TApp read, pods ready
    | CheckListed(e: EtcdCluster, v: nat, hasLearner: bool, last: bool) // members listed
    | CheckRecorded(e: EtcdCluster, v: nat, hasLearner: bool, last: bool) // their list stored, or found unchanged
    | Promoting(e: EtcdCluster)                                       // entering ensureLearner

  datatype Action =
    // environment
    | Edit(e: EtcdCluster)          // the user changes the spec
    | Touch                         // somebody writes the EtcdCluster and leaves the spec alone
    | Report(counts: PodCounts)     // the TApp controller reports pod counts
    | Start(i: nat)                 // the pod of ordinal i starts etcd, which publishes its name
    | Provision(i: nat)             // the claim of ordinal i is created
    // reconciler
    | ReadSpec
    | Begin(v: nat)
    | Wait
    | ListForUp
    | AddMember(id: nat)
    | SaveUp
    | ListForDown
    | RemoveMember
    | SaveDown
    | DeleteClaim
    | KeepSize
    | SaveTemplates
    | ReadTApp(v: nat)
    | ListForCheck
    | StoreList
    | KeepList
    | FlipLabels
    | PromoteMember(id: nat)
    | NothingToPromote
    | Abort

  // ----- shorthands -----

  function Current(s: State): TApp
    requires s.versions != []
  {
    s.versions[|s.versions| - 1]
  }

  /** Replicas in the current TApp. */
  function Committed(s: State): nat
    requires s.versions != []
  {
    Current(s).replicas
  }

  /** Replicas in the TApp version the reconciler has last read. */
  function Observed(s: State): nat
    requires s.seen < |s.versions|
  {
    s.versions[s.seen].replicas
  }

  predicate IsCurrent(s: State, v: nat) {
    v + 1 == |s.versions|
  }

  /** The test at the top of the scale-up branch. */
  predicate AllReady(app: TApp) {
    app.replicas == app.status.replicas && app.status.ready == app.status.replicas
  }

  predicate Unused(members: seq<Member>, id: nat) {
    id != 0 && forall m :: m in members ==> m.id != id
  }

  predicate AnyLearner(members: seq<Member>) {
    exists m :: m in members && m.isLearner
  }

  predicate IsLearnerId(members: seq<Member>, id: nat) {
    exists m :: m in members && m.id == id && m.isLearner
  }

  /** The loop over MemberList at lines 665-671: the first member listening on url, 0 if there is none. */
  function FindMember(members: seq<Member>, url: string): nat {
    if members == [] then 0
    else if url in members[0].peerURLs then members[0].id
    else FindMember(members[1..], url)
  }

  function WithoutMember(members: seq<Member>, id: nat): seq<Member> {
    if members == [] then []
    else if members[0].id == id then WithoutMember(members[1..], id)
    else [members[0]] + WithoutMember(members[1..], id)
  }

  // ----- the writes -----

  /** The template of a new ordinal starts as a copy of template "0". */
  function NewTemplate(e: EtcdCluster, app: TApp): PodTemplate {
    var tpl := if Decimal(0) in app.pool then app.pool[Decimal(0)] else PodTemplate(map[], e.settings, [], "");
    if LearnerIs(e, app.replicas) then tpl.(labels := tpl.labels[VOTING_LABEL := "false"]) else tpl
  }

  function Extended(e: EtcdCluster, app: TApp): TApp {
    var key := Decimal(app.replicas);
    app.(replicas := app.replicas + 1, pool := app.pool[key := NewTemplate(e, app)],
        templates := app.templates[key := key])
  }

  ghost function ScaledUp(e: EtcdCluster, app: TApp): TApp {
    WithArgs(e, Extended(e, app))
  }

  function ScaledDown(app: TApp): TApp
    requires app.replicas > 0
  {
    var key := Decimal(app.replicas - 1);
    app.(replicas := app.replicas - 1, pool := app.pool - {key}, templates := app.templates - {key})
  }

  function Flipped(app: TApp): TApp {
    app.(pool := map key | key in app.pool :: app.pool[key].(labels := app.pool[key].labels[VOTING_LABEL := "true"]))
  }

  /** An update carries the version it was computed from; the API server accepts it only if that is the current one. */
  ghost function Save(s: State, v: nat, app: TApp, next: Round): State {
    if IsCurrent(s, v) then s.(versions := s.versions + [app], round := next) else s.(round := Idle)
  }

  /** reflect.DeepEqual guards the refresh and the label flip: an unchanged object is not sent. */
  ghost function SaveIfChanged(s: State, v: nat, app: TApp, next: Round): State
    requires v < |s.versions|
  {
    if app == s.versions[v] then s.(round := next) else Save(s, v, app, next)
  }

  function AfterCheck(e: EtcdCluster, last: bool): Round {
    if last then Idle else Promoting(e)
  }

  // ----- what users may change, and when -----

  predicate Admitted(e: EtcdCluster) {
    1 <= e.size <= 7 && |e.learners| <= 1
  }

  /** The round in flight may still add a member: it has decided to, or it has read a larger size and will decide when
      it reads the TApp. */
  predicate GrowPending(s: State)
    requires s.seen < |s.versions|
  {
    |s.members| == Committed(s) &&
    (|| (s.round.SpecRead? && s.round.e.size > Committed(s))
     || (s.round.UpListed? && Observed(s) == Committed(s))
     || (s.round.Fetched? && Observed(s) == Committed(s) && s.round.e.size > Observed(s)
         && AllReady(s.versions[s.seen])))
  }

  /** The round in flight may still remove a member. */
  predicate ShrinkPending(s: State)
    requires s.seen < |s.versions|
  {
    |s.members| == Committed(s) &&
    (|| (s.round.SpecRead? && s.round.e.size < Committed(s))
     || (s.round.DownListed? && Observed(s) == Committed(s))
     || (s.round.Fetched? && Observed(s) == Committed(s) && s.round.e.size < Observed(s)))
  }

  /** Size n does not reverse a scaling step that is under way: while a member has been (or may yet be) added that the
      TApp does not count, n is not below it; while one has been (or may yet be) removed that the TApp still counts,
      n is not above it. */
  predicate SizeOk(s: State, n: int)
    requires s.seen < |s.versions|
  {
    && (|s.members| > Observed(s) ==> n >= Observed(s))
    && (GrowPending(s) ==> n >= Committed(s))
    && (|s.members| < Committed(s) && Observed(s) == Committed(s) ==> n <= Committed(s))
    && (ShrinkPending(s) ==> n <= Committed(s))
  }

  /** A learner that has joined, or may yet join, before its template was written. */
  predicate LearnerPending(s: State)
    requires s.seen < |s.versions|
  {
    || (Observed(s) == Committed(s) && |s.members| == Committed(s) + 1 && s.members[Committed(s)].isLearner)
    || (GrowPending(s) && LearnerIs(s.round.e, Committed(s)))
  }

  /** The template of ordinal i carries the label that the access service selects. */
  predicate HasVote(app: TApp, i: nat) {
    Decimal(i) in app.pool && VOTING_LABEL in app.pool[Decimal(i)].labels
        && app.pool[Decimal(i)].labels[VOTING_LABEL] == "true"
  }

  /** While a learner's template is still to be written, spec e still names it as the learner, or does not ask for the
      write, or the template it would be copied from does not carry the voting label. */
  predicate LearnersOk(s: State, e: EtcdCluster)
    requires s.seen < |s.versions|
  {
    LearnerPending(s) ==> LearnerIs(e, Committed(s)) || e.size <= Committed(s) || !HasVote(Current(s), 0)
  }

  /** Edits that can never break the membership or serve a learner. EditDiscipline shows that the last two conditions
      are exactly what this takes; Convergence says which of them may still leave the cluster short of its size. */
  predicate EditOk(s: State, e: EtcdCluster)
    requires s.seen < |s.versions|
  {
    && SameIdentity(s.spec, e)
    && Admitted(e)
    && SizeOk(s, e.size)
    && LearnersOk(s, e)
  }

  // ----- the effects that change more than the round -----

  function Edited(s: State, e: EtcdCluster): State {
    s.(spec := e, revision := s.revision + 1)
  }

  /** The pass begins with a copy of the EtcdCluster, spec and version. */
  function SpecTaken(s: State): State {
    s.(held := s.revision, round := SpecRead(s.spec))
  }

  /** UpdateStatus with a new member list, lines 346-353: the API server refuses it if the EtcdCluster is no longer at
      the version that the pass holds. If it accepts, the pass goes on with its own copy, whose version is now out of
      date. */
  function ListStored(s: State): State
    requires s.round.CheckListed?
  {
    var r := s.round;
    if s.held == s.revision
    then s.(revision := s.revision + 1, round := CheckRecorded(r.e, r.v, r.hasLearner, r.last))
    else s.(round := Idle)
  }

  function Started(s: State, i: nat): State
    requires i < |s.members|
  {
    s.(members := s.members[i := s.members[i].(name := MemberName(NameForTApp(s.spec), i))])
  }

  /** MemberAdd or MemberAddAsLearner, unless the member count says an earlier round already did it. */
  function Added(s: State, id: nat): State
    requires s.round.UpListed? && s.round.v < |s.versions|
  {
    var e, app := s.round.e, s.versions[s.round.v];
    var joined := if s.round.count == app.replicas
                  then s.members + [Member(id, [PeerNodeURL(e, app.replicas)], "", LearnerIs(e, app.replicas))]
                  else s.members;
    s.(members := joined, round := UpJoined(e, s.round.v))
  }

  ghost function SavedUp(s: State): State
    requires s.round.UpJoined? && s.round.v < |s.versions|
  {
    Save(s, s.round.v, ScaledUp(s.round.e, s.versions[s.round.v]), Refreshing(s.round.e, s.round.v))
  }

  function Searched(s: State): State
    requires s.round.Fetched? && s.round.v < |s.versions| && s.versions[s.round.v].replicas > 0
  {
    var e, v := s.round.e, s.round.v;
    s.(round := DownListed(e, v, FindMember(s.members, PeerNodeURL(e, s.versions[v].replicas - 1))))
  }

  function Removed(s: State): State
    requires s.round.DownListed?
  {
    var id := s.round.id;
    s.(members := if id != 0 then WithoutMember(s.members, id) else s.members, round := DownLeft(s.round.e, s.round.v))
  }

  ghost function SavedDown(s: State): State
    requires s.round.DownLeft? && s.round.v < |s.versions| && s.versions[s.round.v].replicas > 0
  {
    Save(s, s.round.v, ScaledDown(s.versions[s.round.v]), DownSaved(s.round.e, s.round.v))
  }

  function Unclaimed(s: State): State
    requires s.round.DownSaved? && s.round.v < |s.versions| && s.versions[s.round.v].replicas > 0
  {
    s.(claims := s.claims - {PVCNameForEtcd(s.round.e, s.versions[s.round.v].replicas - 1)},
       round := Refreshing(s.round.e, s.round.v))
  }

  ghost function SavedTemplates(s: State): State
    requires s.round.Refreshing? && s.round.v < |s.versions|
  {
    SaveIfChanged(s, s.round.v, Refreshed(s.round.e, s.versions[s.round.v]), Checking(s.round.e, false))
  }

  function ReadForCheck(s: State, v: nat): State
    requires s.round.Checking? && v < |s.versions|
  {
    var e, last := s.round.e, s.round.last;
    s.(seen := v, round := if s.versions[v].status.ready < 1 then AfterCheck(e, last) else CheckRead(e, v, last))
  }

  /** ensureMemberStatus, from line 356: once nobody is or should be a learner, every template becomes a voter's. */
  ghost function Relabelled(s: State): State
    requires s.round.CheckRecorded? && s.round.v < |s.versions|
  {
    var e, next := s.round.e, AfterCheck(s.round.e, s.round.last);
    if e.learners == [] && !s.round.hasLearner
    then SaveIfChanged(s, s.round.v, Flipped(s.versions[s.round.v]), next)
    else s.(round := next)
  }

  function PromotedIn(s: State, id: nat): State
    requires s.round.Promoting?
  {
    s.(members := Promoted(s.members, id), round := Checking(s.round.e, true))
  }

  function Promoted(members: seq<Member>, id: nat): (r: seq<Member>)
    ensures |r| == |members|
    ensures forall i :: 0 <= i < |r| ==>
        r[i] == (if members[i].id == id then members[i].(isLearner := false) else members[i])
  {
    if members == [] then []
    else [if members[0].id == id then members[0].(isLearner := false) else members[0]] + Promoted(members[1..], id)
  }

  // ----- the transition system -----

  predicate HoldsVersion(r: Round) {
    !r.Idle? && !r.SpecRead? && !r.Checking? && !r.Promoting?
  }

  ghost predicate Enabled(s: State, a: Action) {
    && s.seen < |s.versions|
    && (HoldsVersion(s.round) ==> s.round.v < |s.versions|)
    && match a
       case Edit(e) => EditOk(s, e)
       case Touch => true
       case Report(c) => c.replicas == c.ready == Committed(s) ==> Named(s.members, Committed(s))
       case Start(i) => i < |s.members| && i < Committed(s)
       case Provision(i) => i < Committed(s)
       case ReadSpec => s.round.Idle?
       case Begin(v) => s.round.SpecRead? && s.seen <= v < |s.versions|
       case Wait => s.round.Fetched? && s.round.e.size > s.versions[s.round.v].replicas
           && !AllReady(s.versions[s.round.v])
       case ListForUp => s.round.Fetched? && s.round.e.size > s.versions[s.round.v].replicas
           && AllReady(s.versions[s.round.v])
       case AddMember(id) => s.round.UpListed? && Unused(s.members, id)
       case SaveUp => s.round.UpJoined?
       case ListForDown => s.round.Fetched? && s.round.e.size < s.versions[s.round.v].replicas
           && s.versions[s.round.v].replicas > 0
       case RemoveMember => s.round.DownListed?
       case SaveDown => s.round.DownLeft? && s.versions[s.round.v].replicas > 0
       case DeleteClaim => s.round.DownSaved? && s.versions[s.round.v].replicas > 0
       case KeepSize => s.round.Fetched? && s.round.e.size == s.versions[s.round.v].replicas
       case SaveTemplates => s.round.Refreshing?
       case ReadTApp(v) => s.round.Checking? && s.seen <= v < |s.versions|
       case ListForCheck => s.round.CheckRead?
       case StoreList => s.round.CheckListed?
       case KeepList => s.round.CheckListed?
       case FlipLabels => s.round.CheckRecorded?
       case PromoteMember(id) => s.round.Promoting? && s.round.e.learners == [] && IsLearnerId(s.members, id)
       case NothingToPromote => s.round.Promoting?
       case Abort => !s.round.Idle?
  }

  /** The members of ordinals below n have published their names. */
  predicate Named(members: seq<Member>, n: int) {
    forall i :: 0 <= i < n && i < |members| ==> members[i].name != ""
  }

  ghost function Apply(s: State, a: Action): State
    requires Enabled(s, a)
  {
    var r := s.round;
    match a
    case Edit(e) => Edited(s, e)
    case Touch => s.(revision := s.revision + 1)
    case Report(c) => s.(versions := s.versions + [Current(s).(status := c)])
    case Start(i) => Started(s, i)
    case Provision(i) => s.(claims := s.claims + {PVCNameForEtcd(s.spec, i)})
    case ReadSpec => SpecTaken(s)
    case Begin(v) => s.(seen := v, round := Fetched(r.e, v))
    case Wait => s.(round := Checking(r.e, false))
    case ListForUp => s.(round := UpListed(r.e, r.v, |s.members|))
    case AddMember(id) => Added(s, id)
    case SaveUp => SavedUp(s)
    case ListForDown => Searched(s)
    case RemoveMember => Removed(s)
    case SaveDown => SavedDown(s)
    case DeleteClaim => Unclaimed(s)
    case KeepSize => s.(round := Refreshing(r.e, r.v))
    case SaveTemplates => SavedTemplates(s)
    case ReadTApp(v) => ReadForCheck(s, v)
    case ListForCheck => s.(round := CheckListed(r.e, r.v, AnyLearner(s.members), r.last))
    case StoreList => ListStored(s)
    case KeepList => s.(round := CheckRecorded(r.e, r.v, r.hasLearner, r.last))
    case FlipLabels => Relabelled(s)
    case PromoteMember(id) => PromotedIn(s, id)
    case NothingToPromote => s.(round := Idle)
    case Abort => s.(round := Idle)
  }

  ghost predicate Runs(s: State, acts: seq<Action>)
    decreases |acts|
  {
    acts != [] ==> Enabled(s, acts[0]) && Runs(Apply(s, acts[0]), acts[1..])
  }

  ghost function Exec(s: State, acts: seq<Action>): State
    requires Runs(s, acts)
    decreases |acts|
  {
    if acts == [] then s else Exec(Apply(s, acts[0]), acts[1..])
  }

  /** A freshly created TApp and the single member etcd bootstraps from it. */
  ghost predicate Init(s: State) {
    && Admitted(s.spec)
    && s.versions == [SeedTApp(s.spec)]
    && s.seen == 0
    && |s.members| == 1
    && s.members[0].id != 0 && s.members[0].peerURLs == [PeerNodeURL(s.spec, 0)] && !s.members[0].isLearner
    && (s.members[0].name == "" || s.members[0].name == MemberName(NameForTApp(s.spec), 0))
    && s.round == Idle
  }
}
