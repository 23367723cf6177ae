/** The reconciler's code (pkg/controller/etcdcluster/etcd.go, lines 171-405 and 577-733), step by step, against an
    outside world whose calls may fail, take effect without a reply, or find that others have acted in between. Every
    execution is a run of the scaling protocol; in a calm world every pass is an undisturbed one. */
module Reconciler {
  import opened Text
  import opened Cluster
  import opened NodeArgs
  import opened Protocol
  import opened ProtocolSafety
  import opened ScalingTheorems
  import opened Reachability
  import opened MemberStatus
  import opened StatusTheorems
  import opened Convergence
  import opened Promotion
  import opened Undisturbed

  /** The same members, learners and all; names may differ. */
  ghost predicate SameFlags(a: seq<Member>, b: seq<Member>) {
    |a| == |b| && forall i :: 0 <= i < |a| ==> a[i].id == b[i].id && a[i].isLearner == b[i].isLearner
  }

  /** From s to t only users and pods have acted. */
  ghost predicate OnlyOthers(s: State, t: State) {
    && t.round == s.round && t.seen == s.seen && t.held == s.held && SameFlags(s.members, t.members)
    && s.revision <= t.revision
    && s.versions != [] && s.versions <= t.versions && Current(t).(status := Current(s).status) == Current(s)
  }

  /** A prefix of a pass that started in state base. */
  ghost predicate PassSoFar(base: State, recent: seq<Action>, now: State) {
    && base.round == Idle && Quiet(base, recent) && Runs(base, recent) && Exec(base, recent) == now
    && (recent != [] ==> recent[0] == ReadSpec && ReadSpec !in recent[1..])
  }

  /** The write a round may make at its present position, given the version it has read, and where it goes on
      afterwards. */
  ghost predicate Writing(r: Round, read: TApp, app: TApp, next: Round, a: Action)
    requires HoldsVersion(r)
  {
    || (r.UpJoined? && app == ScaledUp(r.e, read) && next == Refreshing(r.e, r.v) && a == SaveUp)
    || (r.DownLeft? && read.replicas > 0 && app == ScaledDown(read) && next == DownSaved(r.e, r.v) && a == SaveDown)
    || (r.Refreshing? && app == Refreshed(r.e, read) != read && next == Checking(r.e, false) && a == SaveTemplates)
    || (r.CheckRecorded? && r.e.learners == [] && !r.hasLearner && app == Flipped(read) != read
        && next == AfterCheck(r.e, r.last) && a == FlipLabels)
  }

  /** API server, etcd and listers, together with the position of the one reconciler that uses them. */
  class World {
    var spec: EtcdCluster
    var versions: seq<TApp>
    var seen: nat
    var members: seq<Member>
    var claims: set<string>
    var revision: nat                 // version of the EtcdCluster object; no two writes get the same
    var held: nat                     // version of the copy in c.etcd
    var round: Round
    var lists: seq<seq<EtcdMember>>   // every member list the EtcdCluster's status has held
    var calm: bool                    // for the time being calls succeed, caches are current and nobody else acts
    ghost var start: State
    ghost var acts: seq<Action>
    ghost var base: State             // where the present pass began
    ghost var recent: seq<Action>     // the present pass so far

    /** The TApp has just been created and its first member has bootstrapped etcd. */
    constructor (s: State)
      requires Init(s)
      ensures Valid() && Now() == start == s && acts == [] && !calm
    {
      hide Init, Inv, NamesGenerated, PassSoFar;
      InitNames(s);
      NoStepsYet(s);
      lists, calm := [[]], false;
      spec, versions, seen, members, claims, round := s.spec, s.versions, s.seen, s.members, s.claims, s.round;
      revision, held := s.revision, s.held;
      start, acts, base, recent := s, [], s, [];
    }

    function Now(): State
      reads this
    {
      State(spec, versions, seen, members, claims, revision, held, round)
    }

    /** What happened since start is a run of the protocol to state s and its invariant holds; no stored list has an
        id twice; and while the world is calm, the present pass is undisturbed. */
    ghost predicate Follows(s: State)
      reads `start, `acts, `lists, `calm, `base, `recent
    {
      && Runs(start, acts) && Exec(start, acts) == s && Inv(s) && NamesGenerated(s) && ListsUnique()
      && (calm ==> PassSoFar(base, recent, s))
    }

    ghost predicate Valid()
      reads this
    {
      Follows(Now())
    }

    lemma PassNow()
      requires Valid() && calm
      ensures PassSoFar(base, recent, Now())
    {
    }

    lemma Bounds()
      requires Valid()
      ensures Inv(Now()) && NamesGenerated(Now()) && seen < |versions|
      ensures HoldsVersion(round) ==> round.v == seen
      ensures forall v: nat :: v < |versions| ==> versions[v].replicas > 0
    {
      hide Runs, Exec, Inv, NamesGenerated, PassSoFar;
      SeenBound(Now());
    }

    ghost predicate ListsUnique()
      reads `lists
    {
      |lists| > 0 && forall i :: 0 <= i < |lists| ==> UniqueIds(lists[i])
    }

    /** The run so far has only been continued. */
    twostate predicate Prolonged()
      reads this
    {
      && start == old(start) && old(acts) <= acts && old(versions) <= versions
      && base == old(base) && calm == old(calm) && (old(recent) != [] ==> recent != [])
    }

    /** ... and nobody has stored a member list. */
    twostate predicate Continued()
      reads this
    {
      && Prolonged() && lists == old(lists)
      && (calm ==> Stores(recent) == Stores(old(recent)) && held == old(held) && revision == old(revision))
    }

    /** A check with list was in hand worked out list now. If that is another one, it has tried to store it, and has
        succeeded in a calm world exactly if the pass had not stored one before. */
    twostate predicate Checked(was: seq<EtcdMember>, now: seq<EtcdMember>)
      reads this
    {
      && Prolonged()
      && (calm ==>
            var stored := now != was && old(held) == old(revision);
            && held == old(held) && revision == old(revision) + (if stored then 1 else 0)
            && lists == old(lists) + (if stored then [now] else [])
            && Stores(recent) == Stores(old(recent)) + (if now != was then 1 else 0))
    }

    /** Between two passes the world may turn calm, or turn rough. */
    method Turn(quiet: bool)
      requires Valid() && round == Idle
      modifies this`calm, this`base, this`recent
      ensures Valid() && calm == quiet && base == Now() && recent == []
    {
      hide Inv, Runs, Exec, NamesGenerated, UniqueIds, PassSoFar;
      calm, base, recent := quiet, Now(), [];
      NothingYet(base);
    }

    /** The fields have just been brought to where action a leads from before. */
    ghost method Record(before: State, a: Action)
      requires Follows(before) && Enabled(before, a) && Apply(before, a) == Now()
      requires calm ==> Calm(before, a) && (a == ReadSpec ==> recent == [])
      modifies this`acts, this`recent
      ensures Valid() && start == old(start) && acts == old(acts) + [a]
      ensures recent == if calm then old(recent) + [a] else old(recent)
      ensures calm ==> Stores(recent) == Stores(old(recent)) + if a == StoreList then 1 else 0
    {
      hide Enabled, Apply, Calm, Inv, NamesGenerated, UniqueIds, PassSoFar;
      StoresMore(recent, a);
      StepKeeps(before, a);
      StepKeepsNames(before, a);
      SingleStep(before, a);
      RunTwice(start, acts, [a]);
      acts := acts + [a];
      if calm {
        PassGoesOn(base, recent, before, a);
        recent := recent + [a];
      }
    }

    /** Users edit the spec, pods start and report, claims appear: any number of times, in any order. */
    method Others()
      requires Valid()
      modifies this
      ensures Valid() && Continued() && OnlyOthers(old(Now()), Now())
      ensures calm ==> Now() == old(Now()) && lists == old(lists) && recent == old(recent)
    {
      hide Inv, Follows, NamesGenerated, UniqueIds;
      Bounds();
      var n: nat := *;
      while n > 0 && !calm
        invariant Valid() && Continued() && OnlyOthers(old(Now()), Now())
        invariant calm ==> Now() == old(Now()) && lists == old(lists) && recent == old(recent)
        decreases n
      {
        ghost var between := Now();
        var e: EtcdCluster := *;
        var c: PodCounts := *;
        var i: nat := *;
        OneOther(e, c, i);
        OthersChain(old(Now()), between, Now());
        n := n - 1;
      }
    }

    method OneOther(e: EtcdCluster, c: PodCounts, i: nat)
      requires Valid() && !calm
      modifies this
      ensures Valid() && Continued() && OnlyOthers(old(Now()), Now())
    {
      hide SameIdentity, SizeOk, LearnersOk, Inv, PVCNameForEtcd, MemberName, Follows, NamesGenerated, UniqueIds;
      ghost var before := Now();
      Bounds();
      if * {
        if EditOk(Now(), e) {
          spec, revision := e, revision + 1;
          Record(before, Edit(e));
        }
      } else if * {
        revision := revision + 1;
        Record(before, Touch);
      } else if * {
        var cur := versions[|versions| - 1];
        if c.replicas == c.ready == cur.replicas ==> Named(members, cur.replicas) {
          versions := versions + [cur.(status := c)];
          Record(before, Report(c));
        }
      } else if * {
        if i < |members| && i < versions[|versions| - 1].replicas {
          members := members[i := members[i].(name := MemberName(NameForTApp(spec), i))];
          Record(before, Start(i));
        }
      } else {
        if i < versions[|versions| - 1].replicas {
          claims := claims + {PVCNameForEtcd(spec, i)};
          Record(before, Provision(i));
        }
      }
    }

    /** A call failed, or the process stopped: the round is over. */
    method GiveUpRound()
      requires Valid() && !round.Idle? && !calm
      modifies this
      ensures Valid() && Continued() && Now() == old(Now()).(round := Idle)
    {
      hide Inv, Follows, NamesGenerated, UniqueIds;
      ghost var before := Now();
      Bounds();
      round := Idle;
      Record(before, Abort);
    }

    /** Steps of the reconciler that touch nothing outside. */
    method MoveOn(next: Round, ghost a: Action)
      requires Valid() && !a.Edit? && a != ReadSpec && a != StoreList
      requires Enabled(Now(), a) && Apply(Now(), a) == Now().(round := next)
      requires calm ==> Calm(Now(), a)
      modifies this
      ensures Valid() && Continued() && Now() == old(Now()).(round := next)
    {
      hide Enabled, Apply, Calm, Inv, Follows, NamesGenerated, UniqueIds;
      ghost var before := Now();
      round := next;
      Record(before, a);
    }

    /** lines 185-192: the lister's EtcdCluster. */
    method ReadEtcdCluster() returns (e: EtcdCluster)
      requires Valid() && round == Idle && (calm ==> recent == [])
      modifies this
      ensures Valid() && Prolonged() && lists == old(lists) && e == spec && round == SpecRead(e)
      ensures members == old(members) && held == revision
      ensures calm ==> Now() == old(Now()).(round := round, held := revision) && recent != []
      ensures calm ==> Stores(recent) == Stores(old(recent))
    {
      hide Inv, Follows, EditOk, NamesGenerated, UniqueIds;
      ghost var before := Now();
      Bounds();
      e := spec;
      held, round := revision, SpecRead(e);
      Record(before, ReadSpec);
    }

    /** lines 199-224: status phase, pause, services and certificates come first; each may fail, end the pass or take
        long. */
    method SurroundingsReady() returns (ok: bool)
      requires Valid() && round.SpecRead?
      modifies this
      ensures Valid() && Continued()
      ensures if ok then OnlyOthers(old(Now()), Now()) else round == Idle
      ensures calm ==> ok && Now() == old(Now()) && lists == old(lists)
    {
      hide Inv, Follows, EditOk, NamesGenerated, UniqueIds;
      Others();
      ok := *;
      if !ok {
        if calm {
          ok := true;
        } else {
          GiveUpRound();
        }
      }
    }

    /** The lister's TApp: any version from the last one read to the current one. */
    method FetchTApp() returns (v: nat)
      requires Valid() && round.SpecRead?
      modifies this
      ensures Valid() && Continued() && v == seen < |versions| && round == Fetched(old(round).e, v)
      ensures members == old(members) && versions == old(versions) && lists == old(lists)
    {
      hide Inv, Follows, EditOk, NamesGenerated, UniqueIds;
      ghost var before := Now();
      Bounds();
      v := *;
      if !(seen <= v < |versions|) || calm {
        v := |versions| - 1;
      }
      seen, round := v, Fetched(round.e, v);
      Record(before, Begin(v));
    }

    /** The lister's TApp again, for ensureMemberStatus. */
    method RereadTApp() returns (v: nat)
      requires Valid() && round.Checking?
      modifies this
      ensures Valid() && Continued() && v == seen < |versions| && SameFlags(old(members), members)
      ensures round == if versions[v].status.ready < 1 then AfterCheck(old(round).e, old(round).last)
                       else CheckRead(old(round).e, v, old(round).last)
      ensures calm ==> v + 1 == |versions| && versions == old(versions)
    {
      hide Inv, Follows, EditOk, NamesGenerated, UniqueIds;
      Bounds();
      Others();
      ghost var before := Now();
      Bounds();
      v := *;
      if !(seen <= v < |versions|) || calm {
        v := |versions| - 1;
      }
      seen, round := v, if versions[v].status.ready < 1 then AfterCheck(round.e, round.last)
          else CheckRead(round.e, v, round.last);
      Record(before, Action.ReadTApp(v));
    }

    /** etcd's MemberList; it changes nothing. */
    method MemberList() returns (ok: bool, list: seq<Listing>)
      requires Valid()
      modifies this
      ensures Valid() && Continued() && OnlyOthers(old(Now()), Now())
      ensures ok ==> MembersOf(list) == members
      ensures calm ==> ok && Now() == old(Now()) && lists == old(lists)
    {
      hide Inv, Follows, NamesGenerated, UniqueIds, MembersOf, PassSoFar;
      Others();
      ok := *;
      ok := ok || calm;
      list := Listings(members);
    }

    /** The member list in the EtcdCluster that the lister returns: any list it ever held. */
    method ReadStatus() returns (known: seq<EtcdMember>)
      requires Valid()
      ensures UniqueIds(known) && |lists| > 0
      ensures calm ==> known == lists[|lists| - 1]
    {
      hide Inv, Runs, Exec, NamesGenerated, UniqueIds, PassSoFar;
      var i: int := *;
      known := if 0 <= i < |lists| && !calm then lists[i] else lists[|lists| - 1];
    }

    /** UpdateStatus of the EtcdCluster with a new member list, lines 346-353. The API server refuses it unless the copy
        in c.etcd has the stored version; c.etcd keeps its version afterwards. */
    method UpdateStatus(list: seq<EtcdMember>) returns (ok: bool)
      requires Valid() && UniqueIds(list) && round.CheckListed?
      modifies this
      ensures Valid() && Prolonged() && SameFlags(old(members), members)
      ensures seen == old(seen) && held == old(held)
      ensures var r := old(round);
              round == if ok then CheckRecorded(r.e, r.v, r.hasLearner, r.last) else Idle
      ensures lists == old(lists) + [list] || (!ok && lists == old(lists))
      ensures old(held) < old(revision) ==> !ok && lists == old(lists)
      ensures calm ==>
                && (ok <==> old(held) == old(revision)) && members == old(members) && versions == old(versions)
                && lists == (if ok then old(lists) + [list] else old(lists))
                && revision == old(revision) + (if ok then 1 else 0)
                && Stores(recent) == Stores(old(recent)) + 1
    {
      hide Inv, Follows, NamesGenerated, UniqueIds, EditOk;
      Bounds();
      Others();
      var reached: bool := *;
      if !reached && !calm {
        GiveUpRound();
        return false;
      }
      ok := StoreStatus(list);
      if ok {
        ok := *;
        ok := ok || calm;
        if !ok {
          GiveUpRound();
        }
      }
    }

    /** The status update arrives. */
    method StoreStatus(list: seq<EtcdMember>) returns (accepted: bool)
      requires Valid() && UniqueIds(list) && round.CheckListed?
      modifies this
      ensures Valid() && Prolonged() && accepted == (old(held) == old(revision))
      ensures Now() == ListStored(old(Now()))
      ensures lists == if accepted then old(lists) + [list] else old(lists)
      ensures calm ==> Stores(recent) == Stores(old(recent)) + 1
    {
      hide Inv, Runs, Exec, NamesGenerated, UniqueIds, PassSoFar, EditOk;
      ghost var before := Now();
      Bounds();
      accepted := held == revision;
      if accepted {
        lists, revision := lists + [list], revision + 1;
        round := CheckRecorded(round.e, round.v, round.hasLearner, round.last);
      } else {
        round := Idle;
      }
      Record(before, StoreList);
    }

    /** etcd's MemberAdd (learner false) or MemberAddAsLearner (learner true). */
    method MemberAdd(urls: seq<string>, learner: bool) returns (ok: bool)
      requires Valid() && round.UpListed? && round.count == versions[round.v].replicas
      requires urls == [PeerNodeURL(round.e, versions[round.v].replicas)]
      requires learner == LearnerIs(round.e, versions[round.v].replicas)
      modifies this
      ensures Valid() && Continued() && seen == old(seen)
      ensures round == if ok then UpJoined(old(round).e, old(round).v) else Idle
    {
      hide PeerNodeURL, LearnerIs, Inv, EditOk, Follows, NamesGenerated, UniqueIds;
      Bounds();
      Others();
      var reached: bool := *;
      if !reached && !calm {
        GiveUpRound();
        return false;
      }
      var id := NewId(members);
      ghost var before := Now();
      Bounds();
      members := members + [Member(id, urls, "", learner)];
      round := UpJoined(round.e, round.v);
      Record(before, AddMember(id));
      ok := *;
      ok := ok || calm;
      if !ok {
        GiveUpRound();
      }
    }

    /** etcd's MemberRemove. */
    method MemberRemove(id: nat) returns (ok: bool)
      requires Valid() && round.DownListed? && round.id == id != 0
      modifies this
      ensures Valid() && Continued() && seen == old(seen)
      ensures round == if ok then DownLeft(old(round).e, old(round).v) else Idle
    {
      hide PeerNodeURL, LearnerIs, Inv, EditOk, Follows, NamesGenerated, UniqueIds;
      Bounds();
      Others();
      var reached: bool := *;
      if !reached && !calm {
        GiveUpRound();
        return false;
      }
      ghost var before := Now();
      Bounds();
      members := WithoutMember(members, id);
      round := DownLeft(round.e, round.v);
      Record(before, RemoveMember);
      ok := *;
      ok := ok || calm;
      if !ok {
        GiveUpRound();
      }
    }

    /** etcd's MemberPromote. */
    method MemberPromote(id: nat) returns (ok: bool)
      requires Valid() && round.Promoting? && round.e.learners == [] && IsLearnerId(members, id)
      modifies this
      ensures Valid() && Continued() && seen == old(seen)
      ensures round == if ok then Checking(old(round).e, true) else Idle
      ensures SameFlags(Promoted(old(members), id), members) || (!ok && SameFlags(old(members), members))
      ensures calm ==> ok && versions == old(versions)
    {
      hide IsLearnerId, Promoted;
      hide PeerNodeURL, LearnerIs, Inv, EditOk, Follows, NamesGenerated, UniqueIds;
      Bounds();
      ghost var first := members;
      Others();
      FlagsOfLearner(first, members, id);
      var reached: bool := *;
      if !reached && !calm {
        GiveUpRound();
        return false;
      }
      hide OnlyOthers, SameFlags;
      PromotionArrives(id);
      ok := *;
      ok := ok || calm;
      if !ok {
        GiveUpRound();
      }
    }

    method PromotionArrives(id: nat)
      requires Valid() && round.Promoting? && round.e.learners == [] && IsLearnerId(members, id)
      modifies this
      ensures Valid() && Continued() && Now() == PromotedIn(old(Now()), id)
    {
      hide IsLearnerId, Promoted;
      hide PeerNodeURL, LearnerIs, Inv, EditOk, Follows, NamesGenerated, UniqueIds;
      ghost var before := Now();
      Bounds();
      members := Promoted(members, id);
      round := Checking(round.e, true);
      Record(before, PromoteMember(id));
    }

    /** The API server's Update of the TApp: refused unless it was computed from the current version. */
    method UpdateTApp(app: TApp, next: Round, ghost a: Action) returns (ok: bool)
      requires Valid() && HoldsVersion(round) && round.v == seen < |versions|
      requires Writing(round, versions[round.v], app, next, a)
      modifies this
      ensures Valid() && Continued() && seen == old(seen) < |versions| && SameFlags(old(members), members)
      ensures round == if ok then next else Idle
      ensures versions[|versions| - 1].pool == old(versions[|versions| - 1].pool) || versions[|versions| - 1] == app
      ensures ok ==> versions[|versions| - 1] == app
    {
      hide PeerNodeURL, LearnerIs, Inv, EditOk, Follows, NamesGenerated, UniqueIds;
      hide Writing;
      Bounds();
      ghost var first := Now();
      Others();
      PoolKept(first, Now());
      hide OnlyOthers;
      var reached: bool := *;
      if !reached && !calm {
        GiveUpRound();
        return false;
      }
      Bounds();
      ok := StoreTApp(app, next, a);
      if ok {
        ok := *;
        ok := ok || calm;
        if !ok && !round.Idle? {
          GiveUpRound();
        }
      }
    }

    /** The update arrives. */
    method StoreTApp(app: TApp, next: Round, ghost a: Action) returns (accepted: bool)
      requires Valid() && HoldsVersion(round) && round.v == seen < |versions|
      requires Writing(round, versions[round.v], app, next, a)
      modifies this
      ensures Valid() && Continued() && seen == old(seen) && members == old(members)
      ensures round == if accepted then next else Idle
      ensures versions == if accepted then old(versions) + [app] else old(versions)
    {
      hide PeerNodeURL, LearnerIs, Inv, EditOk, Follows, NamesGenerated, UniqueIds;
      hide ScaledUp, ScaledDown, Refreshed, Flipped;
      ghost var before := Now();
      accepted := round.v + 1 == |versions|;
      if accepted {
        versions := versions + [app];
        round := next;
      } else {
        round := Idle;
      }
      Record(before, a);
    }

    /** Get and Delete of the claim of the ordinal that was scaled away. */
    method DeletePVC(name: string) returns (ok: bool)
      requires Valid() && round.DownSaved? && round.v == seen < |versions| && versions[round.v].replicas > 0
      requires name == PVCNameForEtcd(round.e, versions[round.v].replicas - 1)
      modifies this
      ensures Valid() && Continued() && seen == old(seen)
      ensures round == if ok then Refreshing(old(round).e, old(round).v) else Idle
    {
      hide PVCNameForEtcd, PeerNodeURL, LearnerIs, Inv, EditOk, Follows, NamesGenerated, UniqueIds;
      Bounds();
      Others();
      var reached: bool := *;
      if !reached && !calm {
        GiveUpRound();
        return false;
      }
      ghost var before := Now();
      Bounds();
      claims := claims - {name};
      round := Refreshing(round.e, round.v);
      Record(before, DeleteClaim);
      ok := *;
      ok := ok || calm;
      if !ok {
        GiveUpRound();
      }
    }
  }

  lemma {:induction false} SeenBound(s: State)
    requires Inv(s)
    ensures s.seen < |s.versions|
    ensures HoldsVersion(s.round) ==> s.round.v == s.seen
    ensures forall v: nat :: v < |s.versions| ==> s.versions[v].replicas > 0
  {
  }

  /** lines 665-671 */
  method FindByPeerURL(list: seq<Member>, url: string) returns (memberID: nat)
    ensures memberID == FindMember(list, url)
  {
    memberID := 0;
    for n := 0 to |list|
      invariant memberID == 0 && FindMember(list, url) == FindMember(list[n..], url)
    {
      assert list[n..][0] == list[n] && list[n..][1..] == list[n + 1..];
      if url in list[n].peerURLs {
        memberID := list[n].id;
        break;
      }
    }
  }

  /** lines 603-702: one pass over the TApp that was read as version v. On an error the round is over. */
  method ReconcileTApp(world: World, e: EtcdCluster, v: nat) returns (ok: bool)
    requires world.Valid() && world.round == Fetched(e, v)
    modifies world
    ensures world.Valid() && world.Continued() && world.seen == old(world.seen)
    ensures world.round == if ok then Checking(e, false) else Idle
  {
    hide World.Follows, NamesGenerated, UniqueIds, Inv, Enabled, Apply, ScaledUp, Refreshed;
    world.Bounds();
    var app := world.versions[v];
    if e.size > app.replicas {
      // wait until the existing pods are running
      if app.replicas != app.status.replicas || app.status.ready != app.status.replicas {
        world.Bounds();
        CanWait(world.Now());
        world.MoveOn(Checking(e, false), Wait);
        return true;
      }
      ok := ScaleUp(world, e, v);
    } else if e.size < app.replicas {
      ok := ScaleDown(world, e, v);
    } else {
      world.Bounds();
      CanKeep(world.Now());
      world.MoveOn(Refreshing(e, v), KeepSize);
      ok := true;
    }
    if ok {
      ok := UpdateTAppTemplate(world, e, v);
    }
  }

  /** lines 607-650 */
  method ScaleUp(world: World, e: EtcdCluster, v: nat) returns (ok: bool)
    requires world.Valid() && world.round == Fetched(e, v) && v < |world.versions|
    requires e.size > world.versions[v].replicas && AllReady(world.versions[v])
    modifies world
    ensures world.Valid() && world.Continued() && world.seen == old(world.seen)
    ensures world.round == if ok then Refreshing(e, v) else Idle
  {
    hide World.Follows, NamesGenerated, UniqueIds, Inv, Enabled, Apply, ScaledUp, AllReady;
    ok := EnsureMemberAdded(world, e, v);
    if !ok {
      return false;
    }
    // modify size and templates
    world.Bounds();
    PoolComplete(world.Now(), v);
    var newApp := ExtendedDraft(e, world.versions[v]);
    world.Bounds();
    ok := world.UpdateTApp(newApp, Refreshing(e, v), SaveUp);
  }

  /** lines 612-634 */
  method EnsureMemberAdded(world: World, e: EtcdCluster, v: nat) returns (ok: bool)
    requires world.Valid() && world.round == Fetched(e, v) && v < |world.versions|
    requires e.size > world.versions[v].replicas && AllReady(world.versions[v])
    modifies world
    ensures world.Valid() && world.Continued() && world.seen == old(world.seen)
    ensures world.round == if ok then UpJoined(e, v) else Idle
  {
    hide World.Follows, NamesGenerated, UniqueIds, Inv, Enabled, Apply, PeerNodeURL, AllReady;
    var app := world.versions[v];
    var listed, m := world.MemberList();
    if !listed {
      world.GiveUpRound();
      return false;
    }
    world.Bounds();
    CanListForUp(world.Now());
    world.MoveOn(UpListed(e, v, |m|), ListForUp);
    ok := JoinMember(world, e, v, |m|);
  }

  /** lines 622-634 */
  method JoinMember(world: World, e: EtcdCluster, v: nat, count: nat) returns (ok: bool)
    requires world.Valid() && world.round == UpListed(e, v, count) && v < |world.versions|
    modifies world
    ensures world.Valid() && world.Continued() && world.seen == old(world.seen)
    ensures world.round == if ok then UpJoined(e, v) else Idle
  {
    hide World.Follows, NamesGenerated, UniqueIds, Inv, Enabled, Apply, PeerNodeURL;
    var replicas := world.versions[v].replicas;
    if count == replicas {
      if |e.learners| != 0 && e.learners[0] == Decimal(replicas) {
        ok := world.MemberAdd([PeerNodeURL(e, replicas)], true);
      } else {
        ok := world.MemberAdd([PeerNodeURL(e, replicas)], false);
      }
    } else {
      var id := SomeUnused(world.members);
      world.Bounds();
      CanSkipAdd(world.Now(), id);
      world.MoveOn(UpJoined(e, v), AddMember(id));
      ok := true;
    }
  }

  /** lines 636-646: modify size and templates */
  method ExtendedDraft(e: EtcdCluster, app: TApp) returns (newApp: TApp)
    requires HasOrdinals(app.pool, app.replicas) && app.replicas > 0
    ensures newApp == ScaledUp(e, app)
  {
    hide InitPool, ExtraPool;
    var draft := new TAppDraft.DeepCopy(app);
    draft.replicas := draft.replicas + 1;
    var newTpl := draft.pool[Decimal(0)];
    if |e.learners| != 0 && e.learners[0] == Decimal(app.replicas) {
      newTpl := newTpl.(labels := newTpl.labels[VOTING_LABEL := "false"]);
    }
    draft.pool := draft.pool[Decimal(app.replicas) := newTpl];
    draft.templates := draft.templates[Decimal(app.replicas) := Decimal(app.replicas)];
    assert draft.Value() == Extended(e, app);
    draft.ApplyEtcdNodeInitArgs(e);
    draft.ApplyEtcdExtraArgs(e);
    newApp := draft.Value();
  }

  /** lines 652-698 */
  method ScaleDown(world: World, e: EtcdCluster, v: nat) returns (ok: bool)
    requires world.Valid() && world.round == Fetched(e, v) && v < |world.versions|
    requires e.size < world.versions[v].replicas
    modifies world
    ensures world.Valid() && world.Continued() && world.seen == old(world.seen)
    ensures world.round == if ok then Refreshing(e, v) else Idle
  {
    hide World.Follows, NamesGenerated, UniqueIds, Inv, Enabled, Apply;
    world.Bounds();
    ok := EnsureMemberRemoved(world, e, v);
    if ok {
      ok := DropOrdinal(world, e, v);
    }
  }

  /** lines 678-698 */
  method DropOrdinal(world: World, e: EtcdCluster, v: nat) returns (ok: bool)
    requires world.Valid() && world.round == DownLeft(e, v)
    modifies world
    ensures world.Valid() && world.Continued() && world.seen == old(world.seen)
    ensures world.round == if ok then Refreshing(e, v) else Idle
  {
    hide World.Follows, NamesGenerated, UniqueIds, Inv, Enabled, Apply, ScaledDown, PVCNameForEtcd;
    world.Bounds();
    var app := world.versions[v];
    // modify size and templates
    var newApp := ReducedDraft(app);
    ok := world.UpdateTApp(newApp, DownSaved(e, v), SaveDown);
    if !ok {
      return false;
    }
    // remove the volume claim
    world.Bounds();
    ok := world.DeletePVC(PVCNameForEtcd(e, app.replicas - 1));
  }

  /** lines 654-676 */
  method EnsureMemberRemoved(world: World, e: EtcdCluster, v: nat) returns (ok: bool)
    requires world.Valid() && world.round == Fetched(e, v) && v < |world.versions|
    requires e.size < world.versions[v].replicas && world.versions[v].replicas > 0
    modifies world
    ensures world.Valid() && world.Continued() && world.seen == old(world.seen)
    ensures world.round == if ok then DownLeft(e, v) else Idle
  {
    hide World.Follows, NamesGenerated, UniqueIds, Inv, Enabled, Apply, PeerNodeURL, FindMember;
    var app := world.versions[v];
    var listed, m := world.MemberList();
    if !listed {
      world.GiveUpRound();
      return false;
    }
    var memberID := FindByPeerURL(MembersOf(m), PeerNodeURL(e, app.replicas - 1));
    world.Bounds();
    CanListForDown(world.Now());
    world.MoveOn(DownListed(e, v, memberID), ListForDown);
    ok := LeaveMember(world, e, v, memberID);
  }

  /** lines 672-676 */
  method LeaveMember(world: World, e: EtcdCluster, v: nat, memberID: nat) returns (ok: bool)
    requires world.Valid() && world.round == DownListed(e, v, memberID) && v < |world.versions|
    modifies world
    ensures world.Valid() && world.Continued() && world.seen == old(world.seen)
    ensures world.round == if ok then DownLeft(e, v) else Idle
  {
    hide World.Follows, NamesGenerated, UniqueIds, Inv, Enabled, Apply, PeerNodeURL;
    if memberID != 0 {
      ok := world.MemberRemove(memberID);
    } else {
      world.Bounds();
      CanSkipRemove(world.Now());
      world.MoveOn(DownLeft(e, v), RemoveMember);
      ok := true;
    }
  }

  /** lines 679-682 */
  method ReducedDraft(app: TApp) returns (newApp: TApp)
    requires app.replicas > 0
    ensures newApp == ScaledDown(app)
  {
    var draft := new TAppDraft.DeepCopy(app);
    draft.replicas := draft.replicas - 1;
    draft.pool := draft.pool - {Decimal(app.replicas - 1)};
    draft.templates := draft.templates - {Decimal(app.replicas - 1)};
    newApp := draft.Value();
  }

  /** lines 704-733 */
  method UpdateTAppTemplate(world: World, e: EtcdCluster, v: nat) returns (ok: bool)
    requires world.Valid() && world.round == Refreshing(e, v)
    modifies world
    ensures world.Valid() && world.Continued() && world.seen == old(world.seen)
    ensures world.round == if ok then Checking(e, false) else Idle
  {
    hide World.Follows, NamesGenerated, UniqueIds, Inv, Enabled, Apply, Refreshed;
    world.Bounds();
    PoolComplete(world.Now(), v);
    var app := world.versions[v];
    var newApp := RefreshedDraft(e, app);
    if newApp != app {
      ok := world.UpdateTApp(newApp, Checking(e, false), SaveTemplates);
    } else {
      world.Bounds();
      CanSkipRefresh(world.Now());
      world.MoveOn(Checking(e, false), SaveTemplates);
      ok := true;
    }
  }

  method RefreshedDraft(e: EtcdCluster, app: TApp) returns (newApp: TApp)
    requires HasOrdinals(app.pool, app.replicas)
    ensures newApp == Refreshed(e, app)
  {
    hide InitPool, ExtraPool;
    var draft := new TAppDraft.DeepCopy(app);
    draft.ApplySettings(e);
    draft.ApplyEtcdNodeInitArgs(e);
    draft.ApplyEtcdExtraArgs(e);
    newApp := draft.Value();
  }

  /** List records every member that etcd counts as a learner as one, unless its own answer says otherwise. */
  ghost predicate RecordsLearners(list: seq<EtcdMember>, members: seq<Member>, answers: nat -> Option<Answer>) {
    forall i :: 0 <= i < |members| && members[i].isLearner && !Denies(LastAnswer(answers, |members|, members[i].id)) ==>
      IsRecorded(list, members[i].id)
  }

  predicate Denies(a: Option<Answer>) {
    a.Some? && !a.value.isLearner
  }

  ghost predicate IsRecorded(list: seq<EtcdMember>, id: nat) {
    exists k :: 0 <= k < |list| && list[k].id == id && list[k].role == Learner
  }

  /** The nodes know whether they are learners. */
  predicate Honest(replies: map<nat, Answer>, members: seq<Member>) {
    forall i :: i in replies ==> forall k :: 0 <= k < |members| ==>
      replies[i].header == Some(members[k].id) ==> replies[i].isLearner == members[k].isLearner
  }

  /** lines 251-372; known: the member list in c.etcd, which the method brings up to date. last: called from
      EnsureLearner. Without an error, and unless no pod was ready, the list afterwards records etcd's learners. */
  method EnsureMemberStatus(world: World, e: EtcdCluster, known: seq<EtcdMember>, last: bool)
    returns (ok: bool, now: seq<EtcdMember>, ghost looked: bool, ghost answers: nat -> Option<Answer>)
    requires world.Valid() && world.round == Checking(e, last) && UniqueIds(known)
    modifies world
    ensures world.Valid() && world.Checked(known, now) && UniqueIds(now)
    ensures SameFlags(old(world.members), world.members)
    ensures world.round == if ok then AfterCheck(e, last) else Idle
    ensures world.calm && now != known && old(world.held) != old(world.revision) ==>
              !ok && world.versions == old(world.versions)
    ensures ok && looked ==> RecordsLearners(now, world.members, answers)
    ensures !looked ==> now == known
    ensures world.calm && ok && looked ==> HonestAnswers(answers, world.members)
    ensures world.calm && !looked ==> |world.versions| > 0 && world.versions[|world.versions| - 1].status.ready < 1
    ensures world.calm && looked ==>
              old(|world.versions|) > 0 && old(world.versions[|world.versions| - 1].status.ready) >= 1
  {
    hide World.Follows, NamesGenerated, UniqueIds, Inv, Enabled, Apply, AnyLearner, FollowsOrdinals,
      RecordsLearners, HonestAnswers, SameFlags;
    ghost var start := world.members;
    FlagsSame(start);
    world.Bounds();
    now, looked, answers := known, false, _ => None;
    var v := world.RereadTApp();
    if world.versions[v].status.ready < 1 {
      return true, now, false, answers;
    }
    looked := true;
    ghost var reread := world.members;
    ok, now, answers := CheckMembers(world, e, v, known, last);
    FlagsCompose(start, reread, world.members);
  }

  /** lines 266-372, once a pod is ready */
  method CheckMembers(world: World, e: EtcdCluster, v: nat, known: seq<EtcdMember>, last: bool)
    returns (ok: bool, now: seq<EtcdMember>, ghost answers: nat -> Option<Answer>)
    requires world.Valid() && world.round == CheckRead(e, v, last) && UniqueIds(known)
    modifies world
    ensures world.Valid() && world.Checked(known, now) && UniqueIds(now)
    ensures SameFlags(old(world.members), world.members)
    ensures world.round == if ok then AfterCheck(e, last) else Idle
    ensures world.calm && now != known && old(world.held) != old(world.revision) ==>
              !ok && world.versions == old(world.versions)
    ensures ok ==> RecordsLearners(now, world.members, answers)
    ensures world.calm && ok ==> HonestAnswers(answers, world.members)
  {
    hide World.Follows, NamesGenerated, UniqueIds, Inv, Enabled, Apply, AnyLearner, FollowsOrdinals,
      RecordsLearners, HonestAnswers, SameFlags;
    ghost var start := world.members;
    now, answers := known, _ => None;
    var hasLearner, memberStatus;
    ok, hasLearner, memberStatus, answers := RefreshedStatus(world, known);
    ghost var first := world.members;
    if !ok {
      world.GiveUpRound();
      return;
    }
    now := memberStatus;
    ok := RecordStatus(world, e, v, known, hasLearner, memberStatus, last);
    FlagsCompose(start, first, world.members);
    RecordedUnderSameFlags(memberStatus, first, world.members, answers);
  }

  /** lines 346-369 */
  method RecordStatus(world: World, e: EtcdCluster, v: nat, known: seq<EtcdMember>, hasLearner: bool,
                      memberStatus: seq<EtcdMember>, last: bool) returns (ok: bool)
    requires world.Valid() && world.round == CheckRead(e, v, last) && UniqueIds(memberStatus)
    requires hasLearner == AnyLearner(world.members)
    modifies world
    ensures world.Valid() && world.Checked(known, memberStatus) && SameFlags(old(world.members), world.members)
    ensures world.round == if ok then AfterCheck(e, last) else Idle
    ensures world.calm && known != memberStatus && old(world.held) != old(world.revision) ==>
              !ok && world.versions == old(world.versions)
  {
    hide World.Follows, NamesGenerated, UniqueIds, Inv, Enabled, Apply, Flipped, AnyLearner, SameFlags;
    ghost var first := world.members;
    ok := StoreNews(world, e, v, known, hasLearner, memberStatus, last);
    if ok {
      ghost var recorded := world.members;
      world.Bounds();
      ok := RelabelTemplates(world, e, v, hasLearner, last);
      FlagsCompose(first, recorded, world.members);
    }
  }

  /** lines 266-354: the members have been listed and the new list worked out. */
  method StoreNews(world: World, e: EtcdCluster, v: nat, known: seq<EtcdMember>, hasLearner: bool,
                   memberStatus: seq<EtcdMember>, last: bool) returns (ok: bool)
    requires world.Valid() && world.round == CheckRead(e, v, last) && UniqueIds(memberStatus)
    requires hasLearner == AnyLearner(world.members)
    modifies world
    ensures world.Valid() && world.Checked(known, memberStatus) && SameFlags(old(world.members), world.members)
    ensures world.round == if ok then CheckRecorded(e, v, hasLearner, last) else Idle
    ensures world.calm ==>
              && (ok <==> known == memberStatus || old(world.held) == old(world.revision))
              && world.versions == old(world.versions)
  {
    hide World.Follows, NamesGenerated, UniqueIds, Inv, Enabled, Apply, AnyLearner, SameFlags;
    world.Bounds();
    CanListForCheck(world.Now());
    world.MoveOn(CheckListed(e, v, hasLearner, last), ListForCheck);
    ok := StoreListed(world, e, v, known, hasLearner, memberStatus, last);
  }

  /** lines 346-354 */
  method StoreListed(world: World, e: EtcdCluster, v: nat, known: seq<EtcdMember>, hasLearner: bool,
                     memberStatus: seq<EtcdMember>, last: bool) returns (ok: bool)
    requires world.Valid() && world.round == CheckListed(e, v, hasLearner, last) && UniqueIds(memberStatus)
    modifies world
    ensures world.Valid() && world.Checked(known, memberStatus) && SameFlags(old(world.members), world.members)
    ensures world.round == if ok then CheckRecorded(e, v, hasLearner, last) else Idle
    ensures world.calm ==>
              && (ok <==> known == memberStatus || old(world.held) == old(world.revision))
              && world.versions == old(world.versions)
  {
    hide World.Follows, NamesGenerated, UniqueIds, Inv, Enabled, Apply, SameFlags;
    FlagsSame(world.members);
    if known != memberStatus {
      ok := world.UpdateStatus(memberStatus);
    } else {
      world.Bounds();
      CanKeepList(world.Now());
      world.MoveOn(CheckRecorded(e, v, hasLearner, last), KeepList);
      ok := true;
    }
  }

  ghost predicate HonestAnswers(answers: nat -> Option<Answer>, members: seq<Member>) {
    forall i, k :: 0 <= k < |members| && answers(i).Some? && answers(i).value.header == Some(members[k].id) ==>
      answers(i).value.isLearner == members[k].isLearner
  }

  lemma {:induction false} RecordedUnderSameFlags(list: seq<EtcdMember>, a: seq<Member>, b: seq<Member>,
                                                  answers: nat -> Option<Answer>)
    requires SameFlags(a, b)
    ensures RecordsLearners(list, a, answers) ==> RecordsLearners(list, b, answers)
    ensures HonestAnswers(answers, a) ==> HonestAnswers(answers, b)
  {
    hide IsRecorded, Denies, LastAnswer;
  }

  /** lines 266-344: entry i of the new list is the member of ordinal i */
  method RefreshedStatus(world: World, known: seq<EtcdMember>)
    returns (ok: bool, hasLearner: bool, memberStatus: seq<EtcdMember>, ghost answers: nat -> Option<Answer>)
    requires world.Valid() && world.round.CheckRead? && UniqueIds(known)
    modifies world
    ensures world.Valid() && world.Continued() && OnlyOthers(old(world.Now()), world.Now())
    ensures world.calm ==> ok && world.Now() == old(world.Now()) && HonestAnswers(answers, world.members)
    ensures ok ==> hasLearner == AnyLearner(world.members) && UniqueIds(memberStatus)
                   && FollowsOrdinals(memberStatus, world.members)
                       && RecordsLearners(memberStatus, world.members, answers)
  {
    hide World.Follows, NamesGenerated, UniqueIds, Inv, Enabled, Apply, MembersOf, AnyLearner, FollowsOrdinals,
      Refreshes, RecordsLearners, Honest, HonestAnswers;
    var m;
    ok, m := world.MemberList();
    hasLearner, memberStatus, answers := false, [], _ => None;
    if ok {
      var replies: map<nat, Answer> := *;
      if world.calm && !Honest(replies, world.members) {
        replies := map[];
      }
      var replied := (i: nat) => if i in replies then Some(replies[i]) else None;
      answers := replied;
      HonestyOf(replies, world.members, replied);
      memberStatus, hasLearner := RefreshMembers(m, known, replied);
      world.Bounds();
      ListedStatus(world.Now(), m, known, replied, memberStatus);
    }
  }

  lemma {:induction false} HonestyOf(replies: map<nat, Answer>, members: seq<Member>, answers: nat -> Option<Answer>)
    requires forall i: nat :: answers(i) == if i in replies then Some(replies[i]) else None
    ensures Honest(replies, members) || replies == map[] ==> HonestAnswers(answers, members)
  {
  }

  ghost predicate FollowsOrdinals(list: seq<EtcdMember>, members: seq<Member>) {
    |list| == |members| && forall i :: 0 <= i < |list| ==> SameMember(list[i], members[i])
  }

  lemma {:induction false} ListedStatus(s: State, listed: seq<Listing>, known: seq<EtcdMember>,
                                        answers: nat -> Option<Answer>,
                                        r: seq<EtcdMember>)
    requires Inv(s) && NamesGenerated(s) && MembersOf(listed) == s.members
    requires UniqueIds(known) && Refreshes(r, listed, known, answers)
    ensures UniqueIds(r) && FollowsOrdinals(r, s.members) && RecordsLearners(r, s.members, answers)
  {
    hide Inv, NamesGenerated, Refreshes, MembersOf, UniqueIds, InNameOrder, RecordsLearners, DistinctMembers;
    assert Lists(listed, s);
    StatusFollowsOrdinals(s, listed, known, answers, r);
    ListsUsable(s, listed);
    LearnersRecorded(listed, known, answers, r, s.members);
  }

  lemma {:induction false} LearnersRecorded(listed: seq<Listing>, known: seq<EtcdMember>,
                                            answers: nat -> Option<Answer>,
                                            r: seq<EtcdMember>, members: seq<Member>)
    requires Refreshes(r, listed, known, answers) && DistinctMembers(MembersOf(listed)) && MembersOf(listed) == members
    requires UniqueIds(known)
    ensures UniqueIds(r) && RecordsLearners(r, members, answers)
  {
    hide Refreshes, LastAnswer, UniqueIds, DistinctMembers, InNameOrder;
    RefreshRefinesMemberList(r, listed, known, answers);
    forall n: nat | n < |members| && members[n].isLearner && !Denies(LastAnswer(answers, |members|, members[n].id))
      ensures IsRecorded(r, members[n].id)
    {
      RowRecorded(listed, known, answers, r, n);
    }
  }

  lemma {:induction false} RowRecorded(listed: seq<Listing>, known: seq<EtcdMember>, answers: nat -> Option<Answer>,
                                       r: seq<EtcdMember>, n: nat)
    requires Refreshes(r, listed, known, answers) && DistinctMembers(MembersOf(listed)) && |r| == |listed|
    requires n < |listed| && listed[n].member.isLearner && !Denies(LastAnswer(answers, |listed|, listed[n].member.id))
    requires exists i :: 0 <= i < |r| && Reports(r[i], listed[n])
    ensures IsRecorded(r, listed[n].member.id)
  {
    hide Refreshes, LastAnswer, DistinctMembers, MembersOf;
    var i :| 0 <= i < |r| && Reports(r[i], listed[n]);
    LearnerEntry(listed, known, answers, r, i, n);
  }

  lemma {:induction false} LearnerEntry(listed: seq<Listing>, known: seq<EtcdMember>, answers: nat -> Option<Answer>,
                                        r: seq<EtcdMember>, i: nat, n: nat)
    requires Refreshes(r, listed, known, answers) && DistinctMembers(MembersOf(listed)) && |r| == |listed|
    requires i < |r| && n < |listed| && Reports(r[i], listed[n]) && listed[n].member.isLearner
    requires !Denies(LastAnswer(answers, |r|, r[i].id))
    ensures r[i].role == Learner
  {
    hide Refreshes, MembersOf, DistinctMembers, LastAnswer;
    if LastAnswer(answers, |r|, r[i].id).Some? {
      EntryTold(r, listed, known, answers, i);
    } else {
      SilentEntries(r, listed, known, answers, i);
      var k :| 0 <= k < |listed| && CarriedOver(r[i], listed[k], known);
      SameRow(listed, k, n, r[i]);
    }
  }

  /** The rows of MemberList with client URLs that nodes have announced. */
  method Listings(members: seq<Member>) returns (list: seq<Listing>)
    ensures MembersOf(list) == members
  {
    list := [];
    for n := 0 to |members|
      invariant MembersOf(list) == members[..n]
    {
      var urls: seq<string> := *;
      var longer := list + [Listing(members[n], urls)];
      assert longer[..|longer| - 1] == list;
      list := longer;
    }
  }

  /** lines 356-369: labels change only when the spec names no learner and etcd has none; then every template of the
      version that was read ends up with the voting label. */
  method RelabelTemplates(world: World, e: EtcdCluster, v: nat, hasLearner: bool, last: bool) returns (ok: bool)
    requires world.Valid() && world.round == CheckRecorded(e, v, hasLearner, last) && v < |world.versions|
    modifies world
    ensures world.Valid() && world.Continued() && world.seen == old(world.seen)
    ensures SameFlags(old(world.members), world.members)
    ensures world.round == if ok then AfterCheck(e, last) else Idle
    ensures e.learners != [] || hasLearner ==> ok && world.Now() == old(world.Now()).(round := world.round)
    ensures ok && e.learners == [] && !hasLearner ==>
              var app := old(world.versions[v]);
              Flipped(app) == app || world.versions[|world.versions| - 1] == Flipped(app)
  {
    hide World.Follows, NamesGenerated, UniqueIds, Inv, Enabled, Apply;
    world.Bounds();
    var app := world.versions[v];
    var newApp := app;
    if |e.learners| == 0 && !hasLearner {
      newApp := FlippedDraft(app);
    }
    hide Flipped;
    if newApp != app {
      ok := world.UpdateTApp(newApp, AfterCheck(e, last), FlipLabels);
    } else {
      world.Bounds();
      CanSkipFlip(world.Now());
      world.MoveOn(AfterCheck(e, last), FlipLabels);
      ok := true;
    }
  }

  /** A member id that is not in use. */
  method NewId(members: seq<Member>) returns (id: nat)
    ensures Unused(members, id)
  {
    id := 1;
    for n := 0 to |members|
      invariant id > 0 && forall j :: 0 <= j < n ==> members[j].id < id
    {
      if members[n].id >= id {
        id := members[n].id + 1;
      }
    }
  }

  method FlippedDraft(app: TApp) returns (newApp: TApp)
    ensures newApp == Flipped(app)
  {
    var draft := new TAppDraft.DeepCopy(app);
    var todo := draft.pool.Keys;
    while todo != {}
      invariant draft.Value() == app.(pool := draft.pool)
      invariant todo <= draft.pool.Keys == app.pool.Keys
      invariant forall key :: key in todo ==> draft.pool[key] == app.pool[key]
      invariant forall key :: key in draft.pool && key !in todo ==> draft.pool[key] == Flipped(app).pool[key]
      decreases |todo|
    {
      var key :| key in todo;
      draft.pool := draft.pool[key := draft.pool[key].(labels := draft.pool[key].labels[VOTING_LABEL := "true"])];
      todo := todo - {key};
    }
    newApp := draft.Value();
  }

  /** Entry n of the list is a recorded learner that etcd still counts as one. */
  predicate Promotable(known: seq<EtcdMember>, members: seq<Member>, n: nat)
    requires n < |known|
  {
    known[n].role == Learner && IsLearnerId(members, known[n].id)
  }

  /** What ensureLearner does to etcd: the first promotable entry's member becomes a voter, nobody else changes. */
  ghost predicate PromotesFirst(known: seq<EtcdMember>, before: seq<Member>, after: seq<Member>) {
    if exists n :: 0 <= n < |known| && Promotable(known, before, n)
    then exists n :: 0 <= n < |known| && Promotable(known, before, n) && SameFlags(Promoted(before, known[n].id), after)
                     && forall k :: 0 <= k < n ==> !Promotable(known, before, k)
    else SameFlags(before, after)
  }

  /** lines 374-405; known: the member list in c.etcd. Without an error and without a learner in the spec, the first
      recorded learner that etcd still counts as one has become a voter; nobody else's role in etcd ever changes. */
  method EnsureLearner(world: World, e: EtcdCluster, known: seq<EtcdMember>)
    returns (ok: bool, ghost later: seq<EtcdMember>)
    requires world.Valid() && world.round == Promoting(e) && UniqueIds(known)
    requires world.calm ==> FindsLearners(known, e, world.Now())
    modifies world
    ensures world.Valid() && world.Checked(known, later) && world.round == Idle
    ensures e.learners == [] && ok ==> PromotesFirst(known, old(world.members), world.members)
    ensures SameFlags(old(world.members), world.members)
            || (e.learners == [] && PromotesFirst(known, old(world.members), world.members))
  {
    hide World.Follows, NamesGenerated, UniqueIds, Inv, Enabled, Apply, IsLearnerId, Promoted, Calm, PromotesFirst,
      SameFlags, FindsLearners;
    ghost var first := world.members;
    FlagsSame(first);
    later := known;
    for n := 0 to |known|
      invariant world.Valid() && world.Continued() && world.round == Promoting(e) && SameFlags(first, world.members)
      invariant later == known
      invariant world.calm ==> FindsLearners(known, e, world.Now())
      invariant e.learners == [] ==> forall k :: 0 <= k < n ==> !Promotable(known, first, k)
    {
      if known[n].role == Learner && |e.learners| == 0 {
        ghost var before := world.members;
        FlagsOfLearner(first, before, known[n].id);
        var done;
        ok, done, later := PromoteEntry(world, e, known, n);
        FlagsCompose(first, before, world.members);
        FlagsCompose(Promoted(first, known[n].id), Promoted(before, known[n].id), world.members);
        if done {
          PromotedChain(first, known, n, world.members, ok);
          return;
        }
      }
    }
    world.Bounds();
    CanStop(world.Now());
    if world.calm {
      NobodyOverlooked(known, e, first, world.Now());
    }
    NobodyPromoted(known, first, world.members);
    world.MoveOn(Idle, NothingToPromote);
    ok := true;
  }

  /** lines 383-402, for one recorded learner: done unless etcd no longer counts it as one. */
  method PromoteEntry(world: World, e: EtcdCluster, known: seq<EtcdMember>, n: nat)
    returns (ok: bool, done: bool, ghost later: seq<EtcdMember>)
    requires world.Valid() && world.round == Promoting(e) && UniqueIds(known) && n < |known| && e.learners == []
    modifies world
    ensures world.Valid() && world.Checked(known, later)
    ensures done ==> world.round == Idle
    ensures !done ==> later == known && world.Continued()
    ensures !done ==> world.round == Promoting(e) && SameFlags(old(world.members), world.members)
    ensures !done ==> !IsLearnerId(old(world.members), known[n].id) && (world.calm ==> world.Now() == old(world.Now()))
    ensures done && ok ==> IsLearnerId(old(world.members), known[n].id)
    ensures done ==>
              || (!ok && SameFlags(old(world.members), world.members))
              || (IsLearnerId(old(world.members), known[n].id)
                  && SameFlags(Promoted(old(world.members), known[n].id), world.members))
  {
    hide World.Follows, NamesGenerated, UniqueIds, Inv, Enabled, Apply, IsLearnerId, Promoted, Calm,
      RecordsLearners, HonestAnswers;
    later := known;
    var listed, m := world.MemberList();
    if !listed {
      world.GiveUpRound();
      return false, true, later;
    }
    ghost var first := world.members;
    FlagsOfLearner(old(world.members), first, known[n].id);
    if !IsLearnerId(MembersOf(m), known[n].id) {
      return true, false, later;
    }
    done := true;
    ok := world.MemberPromote(known[n].id);
    FlagsCompose(Promoted(old(world.members), known[n].id), Promoted(first, known[n].id), world.members);
    FlagsCompose(old(world.members), first, world.members);
    if ok {
      ghost var promoted := world.members;
      var now;
      ghost var looked, answers;
      ok, now, looked, answers := EnsureMemberStatus(world, e, known, true);
      later := now;
      FlagsCompose(Promoted(old(world.members), known[n].id), promoted, world.members);
    }
  }

  /** The list shows every learner that a pass could promote. */
  ghost predicate FindsLearners(known: seq<EtcdMember>, e: EtcdCluster, s: State) {
    && s.round == Promoting(e) && s.versions != []
    && (|| e.learners != []
        || Current(s).status.ready < 1
        || forall i :: 0 <= i < |s.members| && s.members[i].isLearner ==> IsRecorded(known, s.members[i].id))
  }

  /** lines 171-240, as far as they concern the TApp and the members. The spec is read first, the TApp only after
      services and certificates have been seen to. In a calm world this is one undisturbed pass; known, first and later
      are the member lists that it has in hand at its start, after its first and after its second check. The first of
      them that is news is stored, and there is an end to the pass if the other one is news as well. */
  method SyncTApp(world: World)
    returns (ok: bool, ghost known: seq<EtcdMember>, ghost first: seq<EtcdMember>, ghost later: seq<EtcdMember>)
    requires world.Valid() && world.round == Idle && (world.calm ==> world.recent == [] && world.base == world.Now())
    modifies world
    ensures world.Valid() && world.Prolonged() && world.round == Idle
    ensures world.calm ==>
              OnePass(old(world.Now()), world.recent) && Exec(old(world.Now()), world.recent) == world.Now()
    ensures world.calm ==> Gained(old(world.Now()), world.Now(), known != first && first != later)
    ensures world.calm ==> old(|world.lists|) > 0 && known == old(world.lists[|world.lists| - 1])
    ensures world.calm ==>
              world.lists == old(world.lists) + Stored(known, first, later)
  {
    hide World.Follows, NamesGenerated, UniqueIds, Inv, Enabled, Apply, Quiet, FindsLearners, RecordsLearners,
      HonestAnswers, Gained;
    world.Bounds();
    ghost var before := world.Now();
    ok, known, first, later := SyncUnmarked(world);
    if world.calm {
      world.PassNow();
      WholePass(world.base, world.recent, world.Now());
      PassGains(before, world.recent);
    }
  }

  /** What a pass stores of the lists that it has in hand one after the other: the first that is news. */
  function Stored(known: seq<EtcdMember>, first: seq<EtcdMember>, later: seq<EtcdMember>): seq<seq<EtcdMember>> {
    if first != known then [first] else if later != first then [later] else []
  }

  /** What an undisturbed pass achieves: the scaling step the size asks for, and at the right size a learner's
      promotion. Everything is selectable afterwards if nobody is a learner any more, unless both checks had a list to
      store (twice), which stops the pass before it can change the labels. */
  ghost predicate Gained(s: State, t: State, twice: bool) {
    && s.versions != [] && t.versions != [] && Stepped(s, t)
    && (ReadyToPromote(s) ==>
          && (AnyLearner(s.members) ==> Voters(t.members) > Voters(s.members))
          && (Complete(t) <==> !AnyLearner(t.members) && (!twice || AllServed(Current(s)))))
  }

  lemma {:induction false} PassGains(s: State, acts: seq<Action>)
    requires Inv(s) && OnePass(s, acts)
    ensures Gained(s, Exec(s, acts), Stores(acts) >= 2)
  {
    hide Inv, OnePass, Stepped, ReadyToPromote, AnyLearner, Complete, Voters, AllServed;
    PassRuns(s, acts);
    PassScales(s, acts);
    if ReadyToPromote(s) {
      PassPromotes(s, acts);
      PassCompletes(s, acts);
    }
  }

  lemma {:induction false} PassRuns(s: State, acts: seq<Action>)
    requires OnePass(s, acts)
    ensures Runs(s, acts)
  {
  }

  method SyncUnmarked(world: World)
    returns (ok: bool, ghost known: seq<EtcdMember>, ghost first: seq<EtcdMember>, ghost later: seq<EtcdMember>)
    requires world.Valid() && world.round == Idle && (world.calm ==> world.recent == [])
    modifies world
    ensures world.Valid() && world.Prolonged() && world.round == Idle && (world.calm ==> world.recent != [])
    ensures world.calm ==>
              && world.lists == old(world.lists) + Stored(known, first, later)
              && Stores(world.recent) == (if first != known then 1 else 0) + (if later != first then 1 else 0)
              && old(|world.lists|) > 0 && known == old(world.lists[|world.lists| - 1])
  {
    hide World.Follows, NamesGenerated, UniqueIds, Inv, Enabled, Apply, Quiet, FindsLearners, RecordsLearners,
      HonestAnswers;
    var e, v, list;
    ok, e, v, list := ReadAll(world);
    known, first, later := list, list, list;
    if !ok {
      return;
    }
    ok := ReconcileTApp(world, e, v);
    if !ok {
      return;
    }
    ok, first, later := SyncMembers(world, e, list);
  }

  /** lines 185-224 and 577-588: the spec, then everything that comes before the TApp, then the TApp. */
  method ReadAll(world: World) returns (ok: bool, e: EtcdCluster, v: nat, known: seq<EtcdMember>)
    requires world.Valid() && world.round == Idle && (world.calm ==> world.recent == [])
    modifies world
    ensures world.Valid() && world.Prolonged() && UniqueIds(known) && (world.calm ==> world.recent != [])
    ensures world.calm ==> world.lists == old(world.lists) && Stores(world.recent) == 0 && world.held == world.revision
    ensures world.calm ==> |world.lists| > 0 && known == world.lists[|world.lists| - 1]
    ensures world.round == if ok then Fetched(e, v) else Idle
  {
    hide World.Follows, NamesGenerated, UniqueIds, Inv, Enabled, Apply, Quiet;
    world.Others();
    e := world.ReadEtcdCluster();
    known := world.ReadStatus();
    v := 0;
    ok := world.SurroundingsReady();
    if ok {
      v := world.FetchTApp();
    }
  }

  /** lines 232-240 */
  method SyncMembers(world: World, e: EtcdCluster, known: seq<EtcdMember>)
    returns (ok: bool, ghost first: seq<EtcdMember>, ghost later: seq<EtcdMember>)
    requires world.Valid() && world.round == Checking(e, false) && UniqueIds(known)
    requires world.calm ==> world.held == world.revision
    modifies world
    ensures world.Valid() && world.Prolonged() && world.round == Idle
    ensures world.calm ==>
              && world.lists == old(world.lists) + Stored(known, first, later)
              && Stores(world.recent) == Stores(old(world.recent))
                                         + (if first != known then 1 else 0) + (if later != first then 1 else 0)
  {
    hide World.Follows, NamesGenerated, UniqueIds, Inv, Enabled, Apply, Quiet, FindsLearners, RecordsLearners,
      HonestAnswers;
    var now;
    ghost var looked, answers;
    ok, now, looked, answers := EnsureMemberStatus(world, e, known, false);
    first, later := now, now;
    if !ok {
      return;
    }
    world.Bounds();
    if world.calm {
      ListedLearners(now, e, world.Now(), looked, answers);
    }
    ok, later := EnsureLearner(world, e, now);
  }

  // ----- members and passes -----

  lemma {:induction false} OthersChain(s: State, t: State, u: State)
    requires OnlyOthers(s, t) && OnlyOthers(t, u)
    ensures OnlyOthers(s, u)
  {
  }

  lemma {:induction false} PoolKept(s: State, t: State)
    requires OnlyOthers(s, t)
    ensures t.versions != [] && Current(t).pool == Current(s).pool
    ensures t.round == s.round && t.seen == s.seen && SameFlags(s.members, t.members) && s.versions <= t.versions
  {
  }

  lemma {:induction false} FlagsOfLearner(a: seq<Member>, b: seq<Member>, id: nat)
    requires SameFlags(a, b)
    ensures IsLearnerId(a, id) == IsLearnerId(b, id)
    ensures SameFlags(Promoted(a, id), Promoted(b, id))
  {
    LearnerOnBoth(a, b, id);
    hide SameFlags;
    LearnerOnBoth(b, a, id);
    PromotedOnBoth(a, b, id);
  }

  lemma {:induction false} LearnerOnBoth(a: seq<Member>, b: seq<Member>, id: nat)
    requires SameFlags(a, b)
    ensures IsLearnerId(a, id) ==> IsLearnerId(b, id)
    ensures SameFlags(b, a)
  {
    if IsLearnerId(a, id) {
      var m :| m in a && m.id == id && m.isLearner;
      var i :| 0 <= i < |a| && a[i] == m;
      assert b[i] in b;
    }
  }

  lemma {:induction false} PromotedOnBoth(a: seq<Member>, b: seq<Member>, id: nat)
    requires SameFlags(a, b)
    ensures SameFlags(Promoted(a, id), Promoted(b, id))
  {
  }

  lemma {:induction false} FlagsSame(a: seq<Member>)
    ensures SameFlags(a, a)
  {
  }

  lemma {:induction false} FlagsCompose(a: seq<Member>, b: seq<Member>, c: seq<Member>)
    ensures SameFlags(a, b) && SameFlags(b, c) ==> SameFlags(a, c)
  {
  }

  /** The first promotable entry was tried: either it was promoted, or the attempt failed and changed nothing. */
  lemma {:induction false} PromotedChain(first: seq<Member>, known: seq<EtcdMember>, n: nat, after: seq<Member>,
                                         ok: bool)
    requires n < |known| && known[n].role == Learner && forall k :: 0 <= k < n ==> !Promotable(known, first, k)
    requires (!ok && SameFlags(first, after))
             || (IsLearnerId(first, known[n].id) && SameFlags(Promoted(first, known[n].id), after))
    ensures PromotesFirst(known, first, after) || (!ok && SameFlags(first, after))
  {
    hide IsLearnerId, Promoted;
    if IsLearnerId(first, known[n].id) {
      assert Promotable(known, first, n);
    }
  }

  lemma {:induction false} NobodyPromoted(known: seq<EtcdMember>, first: seq<Member>, after: seq<Member>)
    requires SameFlags(first, after)
    ensures (forall k :: 0 <= k < |known| ==> !Promotable(known, first, k)) ==> PromotesFirst(known, first, after)
  {
    hide SameFlags, Promotable, Promoted;
  }

  lemma {:induction false} StoresMore(acts: seq<Action>, a: Action)
    ensures Stores(acts + [a]) == Stores(acts) + if a == StoreList then 1 else 0
  {
    if acts != [] {
      assert (acts + [a])[1..] == acts[1..] + [a];
      StoresMore(acts[1..], a);
    }
  }

  lemma {:induction false} NoStepsYet(s: State)
    ensures Runs(s, []) && Exec(s, []) == s
  {
  }

  lemma {:induction false} NothingYet(s: State)
    requires s.round == Idle
    ensures PassSoFar(s, [], s)
  {
    assert Runs(s, []) && Exec(s, []) == s;
  }

  lemma {:induction false} PassGoesOn(base: State, recent: seq<Action>, s: State, a: Action)
    requires PassSoFar(base, recent, s) && Enabled(s, a) && Calm(s, a) && (a == ReadSpec ==> recent == [])
    ensures PassSoFar(base, recent + [a], Apply(s, a))
  {
    hide Enabled, Apply, Calm;
    OnlyReadingAtIdle(s, a);
    QuietOneMore(base, recent, a);
    SingleStep(s, a);
    RunTwice(base, recent, [a]);
    if recent == [] {
      assert Exec(base, []) == base;
      assert (recent + [a])[1..] == [];
    } else {
      assert (recent + [a])[1..] == recent[1..] + [a];
    }
  }

  lemma {:induction false} WholePass(base: State, recent: seq<Action>, now: State)
    requires PassSoFar(base, recent, now) && now.round == Idle && recent != []
    ensures OnePass(base, recent) && Exec(base, recent) == now
  {
    hide Quiet, Runs, Exec;
  }

  /** Honest answers and a list that records learners leave nobody out. */
  lemma {:induction false} ListedLearners(known: seq<EtcdMember>, e: EtcdCluster, s: State, looked: bool,
                                          answers: nat -> Option<Answer>)
    requires s.round == Promoting(e) && s.versions != []
    requires !looked ==> Current(s).status.ready < 1
    requires looked ==> RecordsLearners(known, s.members, answers) && HonestAnswers(answers, s.members)
    ensures FindsLearners(known, e, s)
  {
    hide IsRecorded;
    if looked {
      forall i | 0 <= i < |s.members| && s.members[i].isLearner ensures IsRecorded(known, s.members[i].id) {
        var a := LastAnswer(answers, |s.members|, s.members[i].id);
        if a.Some? {
          LastAnswerGiven(answers, |s.members|, s.members[i].id);
        }
      }
    }
  }

  /** If no entry was promotable, there was nobody to promote, or nobody could be. */
  lemma {:induction false} NobodyOverlooked(known: seq<EtcdMember>, e: EtcdCluster, first: seq<Member>, s: State)
    requires FindsLearners(known, e, s) && SameFlags(first, s.members) && Enabled(s, NothingToPromote)
    requires e.learners == [] ==> forall k :: 0 <= k < |known| ==> !Promotable(known, first, k)
    ensures Calm(s, NothingToPromote)
  {
    if e.learners == [] && Current(s).status.ready >= 1 && AnyLearner(s.members) {
      var m :| m in s.members && m.isLearner;
      var i :| 0 <= i < |s.members| && s.members[i] == m;
      assert IsRecorded(known, m.id);
      var k :| 0 <= k < |known| && known[k].id == m.id && known[k].role == Learner;
      assert first[i] in first && first[i].id == m.id && first[i].isLearner;
      assert Promotable(known, first, k);
      assert false;
    }
  }

  // ----- which protocol step each quiet move is -----

  lemma {:induction false} CanWait(s: State)
    requires Inv(s) && s.round.Fetched? && s.round.v < |s.versions|
    requires s.round.e.size > s.versions[s.round.v].replicas && !AllReady(s.versions[s.round.v])
    ensures Enabled(s, Wait) && Apply(s, Wait) == s.(round := Checking(s.round.e, false))
  {
    hide Inv, EditOk;
    SeenBound(s);
  }

  lemma {:induction false} CanKeep(s: State)
    requires Inv(s) && s.round.Fetched? && s.round.v < |s.versions| && s.round.e.size == s.versions[s.round.v].replicas
    ensures Enabled(s, KeepSize) && Apply(s, KeepSize) == s.(round := Refreshing(s.round.e, s.round.v))
  {
    hide Inv, EditOk;
    SeenBound(s);
  }

  lemma {:induction false} CanListForUp(s: State)
    requires Inv(s) && s.round.Fetched? && s.round.v < |s.versions|
    requires s.round.e.size > s.versions[s.round.v].replicas && AllReady(s.versions[s.round.v])
    ensures Enabled(s, ListForUp) && Apply(s, ListForUp) == s.(round := UpListed(s.round.e, s.round.v, |s.members|))
  {
    hide Inv, EditOk;
    SeenBound(s);
  }

  lemma {:induction false} CanSkipAdd(s: State, id: nat)
    requires Inv(s) && s.round.UpListed? && s.round.v < |s.versions|
    requires s.round.count != s.versions[s.round.v].replicas && Unused(s.members, id)
    ensures Enabled(s, AddMember(id)) && Apply(s, AddMember(id)) == s.(round := UpJoined(s.round.e, s.round.v))
  {
    hide Inv, EditOk;
    SeenBound(s);
  }

  lemma {:induction false} CanListForDown(s: State)
    requires Inv(s) && s.round.Fetched? && s.round.v < |s.versions|
    requires 0 < s.versions[s.round.v].replicas && s.round.e.size < s.versions[s.round.v].replicas
    ensures Enabled(s, ListForDown)
    ensures Apply(s, ListForDown)
            == s.(round := DownListed(s.round.e, s.round.v,
                FindMember(s.members, PeerNodeURL(s.round.e, s.versions[s.round.v].replicas - 1))))
  {
    hide Inv, EditOk, FindMember, PeerNodeURL;
    SeenBound(s);
  }

  lemma {:induction false} CanSkipRemove(s: State)
    requires Inv(s) && s.round.DownListed? && s.round.id == 0
    ensures Enabled(s, RemoveMember) && Apply(s, RemoveMember) == s.(round := DownLeft(s.round.e, s.round.v))
  {
    hide Inv, EditOk;
    SeenBound(s);
  }

  lemma {:induction false} CanSkipRefresh(s: State)
    requires Inv(s) && s.round.Refreshing? && s.round.v < |s.versions|
    requires Refreshed(s.round.e, s.versions[s.round.v]) == s.versions[s.round.v]
    ensures Enabled(s, SaveTemplates) && Apply(s, SaveTemplates) == s.(round := Checking(s.round.e, false))
  {
    hide Inv, EditOk, Refreshed;
    SeenBound(s);
  }

  lemma {:induction false} CanListForCheck(s: State)
    requires Inv(s) && s.round.CheckRead?
    ensures Enabled(s, ListForCheck)
    ensures Apply(s, ListForCheck)
        == s.(round := CheckListed(s.round.e, s.round.v, AnyLearner(s.members), s.round.last))
  {
    hide Inv, EditOk, AnyLearner;
    SeenBound(s);
  }

  lemma {:induction false} CanKeepList(s: State)
    requires Inv(s) && s.round.CheckListed?
    ensures Enabled(s, KeepList)
    ensures Apply(s, KeepList)
        == s.(round := CheckRecorded(s.round.e, s.round.v, s.round.hasLearner, s.round.last))
  {
    hide Inv, EditOk;
    SeenBound(s);
  }

  lemma {:induction false} CanSkipFlip(s: State)
    requires Inv(s) && s.round.CheckRecorded? && s.round.v < |s.versions|
    requires s.round.e.learners == [] && !s.round.hasLearner ==> Flipped(s.versions[s.round.v]) == s.versions[s.round.v]
    ensures Enabled(s, FlipLabels) && Apply(s, FlipLabels) == s.(round := AfterCheck(s.round.e, s.round.last))
  {
    hide Inv, EditOk, Flipped;
    SeenBound(s);
  }

  lemma {:induction false} CanStop(s: State)
    requires Inv(s) && s.round.Promoting?
    ensures Enabled(s, NothingToPromote) && Apply(s, NothingToPromote) == s.(round := Idle)
  {
    hide Inv, EditOk;
    SeenBound(s);
  }

  lemma {:induction false} PoolComplete(s: State, v: nat)
    requires Inv(s) && v < |s.versions|
    ensures s.versions[v].replicas > 0 && HasOrdinals(s.versions[v].pool, s.versions[v].replicas)
  {
    hide MembersInOrder, LagBounded, NamesInv, LabelsSafe, RoundInv, SpecInv;
    assert WellFormed(s.versions[v], s.spec);
    forall i: nat | i < s.versions[v].replicas ensures Decimal(i) in s.versions[v].pool {
      OrdinalWithin(i, s.versions[v].replicas);
    }
  }
}
