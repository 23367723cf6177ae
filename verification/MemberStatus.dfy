/** The member list in the EtcdCluster's status, rebuilt in every round from etcd's MemberList, the list of the previous
    round and what the single nodes answer (ensureMemberStatus, pkg/controller/etcdcluster/etcd.go, lines 272-344). */
module MemberStatus {
  import opened Text
  import opened Cluster
  import opened Protocol

  datatype Role = NoRole | Leader | Follower | Learner

  datatype Health = UnStarted | Running | Unknown | UnHealthy

  datatype EtcdMember = EtcdMember(id: nat, name: string, role: Role, version: string, endpoint: string, health: Health,
                                   clientURLs: seq<string>)

  /** One row of MemberList. */
  datatype Listing = Listing(member: Member, clientURLs: seq<string>)

  /** A node's reply to a status request; the header may be missing. */
  datatype Answer = Answer(header: Option<nat>, leader: nat, isLearner: bool, version: string)

  // ----- the join of MemberList with the list of the previous round -----

  function HealthOf(name: string): Health {
    if name == "" then UnStarted else Running
  }

  function Updated(esm: EtcdMember, mm: Listing): EtcdMember {
    esm.(name := mm.member.name, clientURLs := mm.clientURLs, health := HealthOf(mm.member.name),
         role := if mm.member.isLearner then Learner else esm.role)
  }

  function FirstSeen(mm: Listing): EtcdMember {
    EtcdMember(mm.member.id, mm.member.name, if mm.member.isLearner then Learner else NoRole, "", "",
               HealthOf(mm.member.name), mm.clientURLs)
  }

  function Matches(mm: Listing, known: seq<EtcdMember>): seq<EtcdMember> {
    if known == [] then []
    else
      var esm := known[|known| - 1];
      Matches(mm, known[..|known| - 1]) + if esm.id == mm.member.id then [Updated(esm, mm)] else []
  }

  function EntriesFor(mm: Listing, known: seq<EtcdMember>): seq<EtcdMember> {
    var found := Matches(mm, known);
    if found == [] then [FirstSeen(mm)] else found
  }

  function Joined(listed: seq<Listing>, known: seq<EtcdMember>): seq<EtcdMember> {
    if listed == [] then []
    else Joined(listed[..|listed| - 1], known) + EntriesFor(listed[|listed| - 1], known)
  }

  function MembersOf(listed: seq<Listing>): (r: seq<Member>)
    ensures |r| == |listed| && forall i :: 0 <= i < |r| ==> r[i] == listed[i].member
  {
    if listed == [] then [] else MembersOf(listed[..|listed| - 1]) + [listed[|listed| - 1].member]
  }

  method Join(listed: seq<Listing>, known: seq<EtcdMember>) returns (memberStatus: seq<EtcdMember>, hasLearner: bool)
    ensures memberStatus == Joined(listed, known)
    ensures hasLearner == AnyLearner(MembersOf(listed))
  {
    hide EntriesFor, AnyLearner;
    hasLearner, memberStatus := false, [];
    for n := 0 to |listed|
      invariant memberStatus == Joined(listed[..n], known)
      invariant hasLearner <==> exists k :: 0 <= k < n && listed[k].member.isLearner
    {
      assert listed[..n + 1][..n] == listed[..n];
      var entries, learner := JoinOne(listed[n], known);
      memberStatus := memberStatus + entries;
      hasLearner := hasLearner || learner;
    }
    assert listed[..|listed|] == listed;
    LearnerAmong(listed);
  }

  /** The body of the outer loop: what is appended for one row, and whether it sets hasLearner. */
  method JoinOne(mm: Listing, known: seq<EtcdMember>) returns (entries: seq<EtcdMember>, learner: bool)
    ensures entries == EntriesFor(mm, known)
    ensures learner == mm.member.isLearner
  {
    var found := false;
    entries, learner := [], false;
    for k := 0 to |known|
      invariant entries == Matches(mm, known[..k])
      invariant found == (entries != [])
      invariant learner == (found && mm.member.isLearner)
    {
      assert known[..k + 1][..k] == known[..k];
      var esm := known[k];
      if esm.id == mm.member.id {
        esm := esm.(name := mm.member.name, clientURLs := mm.clientURLs);
        if mm.member.isLearner {
          esm := esm.(role := Learner);
          learner := true;
        }
        if mm.member.name == "" {
          esm := esm.(health := UnStarted);
        } else {
          esm := esm.(health := Running);
        }
        entries := entries + [esm];
        found := true;
      }
    }
    assert known[..|known|] == known;
    if !found {
      var nm := EtcdMember(mm.member.id, mm.member.name, NoRole, "", "", UnStarted, mm.clientURLs);
      if mm.member.isLearner {
        nm := nm.(role := Learner);
        learner := true;
      }
      if nm.name != "" {
        nm := nm.(health := Running);
      }
      entries := [nm];
    }
  }

  lemma LearnerAmong(listed: seq<Listing>)
    ensures AnyLearner(MembersOf(listed)) <==> exists k :: 0 <= k < |listed| && listed[k].member.isLearner
  {
    if k: nat :| k < |listed| && listed[k].member.isLearner {
      assert MembersOf(listed)[k] in MembersOf(listed);
    }
  }

  // ----- one entry per member -----

  ghost predicate UniqueIds(list: seq<EtcdMember>) {
    forall i, j :: 0 <= i < j < |list| ==> list[i].id != list[j].id
  }

  ghost predicate DistinctMembers(members: seq<Member>) {
    forall i, j :: 0 <= i < j < |members| ==> members[i].id != members[j].id
  }

  function TimesKnown(id: nat, known: seq<EtcdMember>): nat {
    if known == [] then 0
    else TimesKnown(id, known[..|known| - 1]) + if known[|known| - 1].id == id then 1 else 0
  }

  lemma {:induction false} MatchCount(mm: Listing, known: seq<EtcdMember>)
    ensures |Matches(mm, known)| == TimesKnown(mm.member.id, known)
    ensures forall x :: x in Matches(mm, known) ==> x.id == mm.member.id && Reports(x, mm)
  {
    if known != [] {
      MatchCount(mm, known[..|known| - 1]);
    }
  }

  /** Entry x carries what MemberList says about its member. */
  predicate Reports(x: EtcdMember, mm: Listing) {
    && x.id == mm.member.id && x.name == mm.member.name && x.clientURLs == mm.clientURLs
    && x.health == HealthOf(mm.member.name)
  }

  /** Every entry reports a listed member: nobody who has left stays on the list. */
  lemma {:induction false} NoneDeparted(listed: seq<Listing>, known: seq<EtcdMember>)
    ensures forall x :: x in Joined(listed, known) ==> exists n :: 0 <= n < |listed| && Reports(x, listed[n])
  {
    if listed != [] {
      var m := |listed| - 1;
      NoneDeparted(listed[..m], known);
      MatchCount(listed[m], known);
      forall x | x in Joined(listed, known) ensures exists n :: 0 <= n < |listed| && Reports(x, listed[n]) {
        if x in Joined(listed[..m], known) {
          var n :| 0 <= n < m && Reports(x, listed[..m][n]);
          assert Reports(x, listed[n]);
        } else {
          assert Reports(x, listed[m]);
        }
      }
    }
  }

  lemma {:induction false} JoinedLongEnough(listed: seq<Listing>, known: seq<EtcdMember>)
    ensures |Joined(listed, known)| >= |listed|
  {
    if listed != [] {
      JoinedLongEnough(listed[..|listed| - 1], known);
    }
  }

  /** Exactly one entry for each row of MemberList, in its order. */
  ghost predicate OneEach(entries: seq<EtcdMember>, listed: seq<Listing>) {
    |entries| == |listed| && forall n :: 0 <= n < |listed| ==> Reports(entries[n], listed[n])
  }

  /** The result has one entry per row if and only if the previous list held none of the listed members twice. */
  lemma {:induction false} OneEntryPerMember(listed: seq<Listing>, known: seq<EtcdMember>)
    ensures OneEach(Joined(listed, known), listed)
        <==> (forall n :: 0 <= n < |listed| ==> TimesKnown(listed[n].member.id, known) <= 1)
  {
    hide OneEach, EntriesFor, Joined, TimesKnown;
    if listed == [] {
      NothingListed(listed, known);
    } else {
      var m := |listed| - 1;
      OneEntryPerMember(listed[..m], known);
      OneMoreRow(listed, known);
      assert forall n :: 0 <= n < m ==> listed[..m][n] == listed[n];
    }
  }

  lemma {:induction false} NothingListed(listed: seq<Listing>, known: seq<EtcdMember>)
    requires listed == []
    ensures OneEach(Joined(listed, known), listed)
  {
  }

  lemma {:induction false} OneMoreRow(listed: seq<Listing>, known: seq<EtcdMember>)
    requires listed != []
    ensures OneEach(Joined(listed, known), listed)
            <==> OneEach(Joined(listed[..|listed| - 1], known), listed[..|listed| - 1])
                 && TimesKnown(listed[|listed| - 1].member.id, known) <= 1
  {
    hide TimesKnown, Reports, OneEach;
    var m := |listed| - 1;
    var rest, last := listed[..m], listed[m];
    assert rest + [last] == listed;
    MatchCount(last, known);
    JoinedLongEnough(rest, known);
    var back := EntriesFor(last, known);
    FirstSeenReports(last);
    assert |back| == 1 ==> back[0] == FirstSeen(last) || back[0] in Matches(last, known);
    OneEachSplit(Joined(rest, known), back, rest, last);
  }

  lemma {:induction false} OneEachSplit(front: seq<EtcdMember>, back: seq<EtcdMember>, rest: seq<Listing>,
                                        last: Listing)
    requires |front| >= |rest| && |back| >= 1 && (|back| == 1 ==> Reports(back[0], last))
    ensures OneEach(front + back, rest + [last]) <==> OneEach(front, rest) && |back| == 1
  {
    hide Reports;
    var all, listed := front + back, rest + [last];
    if OneEach(all, listed) {
      forall n | 0 <= n < |rest| ensures Reports(front[n], rest[n]) {
        assert all[n] == front[n] && listed[n] == rest[n];
      }
    }
  }

  lemma FirstSeenReports(mm: Listing)
    ensures Reports(FirstSeen(mm), mm)
  {
  }

  lemma {:induction false} KnownOnce(known: seq<EtcdMember>, id: nat)
    requires UniqueIds(known)
    ensures TimesKnown(id, known) <= 1
    ensures TimesKnown(id, known) == 1 <==> exists k :: 0 <= k < |known| && known[k].id == id
  {
    if known != [] {
      var k := |known| - 1;
      KnownOnce(known[..k], id);
      if j :| 0 <= j < k && known[j].id == id {
        assert known[..k][j].id == id;
      }
    }
  }

  // ----- sort by name -----

  /** The comparison function given to sort.Slice. */
  predicate Before(x: string, y: string) {
    if x == "" || y == "" then y == "" else Less(x, y)
  }

  ghost predicate AtMostOneUnnamed(list: seq<EtcdMember>) {
    forall i, j :: 0 <= i < j < |list| ==> list[i].name != "" || list[j].name != ""
  }

  /** What sort.Slice asks of the comparison, on the positions of a list. */
  ghost predicate OrdersStrictly(list: seq<EtcdMember>) {
    && (forall i, j :: 0 <= i < |list| && 0 <= j < |list| && i != j && Before(list[i].name, list[j].name) ==>
        !Before(list[j].name, list[i].name))
    && (forall i, j, k ::
          (0 <= i < |list| && 0 <= j < |list| && 0 <= k < |list| && i != j && j != k && i != k
           && !Before(list[i].name, list[j].name) && !Before(list[j].name, list[k].name))
          ==> !Before(list[i].name, list[k].name))
  }

  lemma NotBeforeTransitive(x: string, y: string, z: string)
    requires !Before(x, y) && !Before(y, z)
    ensures !Before(x, z)
  {
    if x != "" && Less(x, z) {
      LessTotal(x, y);
      LessTotal(y, z);
      if Less(y, x) {
        LessTransitive(y, x, z);
      }
    }
  }

  lemma NotBothWays(x: string, y: string)
    ensures Before(x, y) && Before(y, x) <==> x == "" && y == ""
  {
    if x != "" && y != "" && Less(x, y) && Less(y, x) {
      LessTransitive(x, y, x);
      LessIrreflexive(x);
    }
  }

  /** The comparison is a strict order on the list if and only if at most one member has not published its name. */
  lemma ComparisonUsable(list: seq<EtcdMember>)
    ensures OrdersStrictly(list) <==> AtMostOneUnnamed(list)
  {
    forall i, j | 0 <= i < |list| && 0 <= j < |list|
      ensures Before(list[i].name, list[j].name) && Before(list[j].name, list[i].name)
          <==> list[i].name == "" && list[j].name == ""
    {
      NotBothWays(list[i].name, list[j].name);
    }
    forall i, j, k | 0 <= i < |list| && 0 <= j < |list| && 0 <= k < |list|
      && !Before(list[i].name, list[j].name) && !Before(list[j].name, list[k].name)
      ensures !Before(list[i].name, list[k].name)
    {
      NotBeforeTransitive(list[i].name, list[j].name, list[k].name);
    }
  }

  /** Sorted by name, an unnamed member last. */
  ghost predicate InNameOrder(list: seq<EtcdMember>) {
    forall i, j :: 0 <= i < j < |list| ==> !Before(list[j].name, list[i].name)
  }

  /** Insertion sort, which sort.Slice uses on short slices. */
  method SortByName(a: array<EtcdMember>)
    modifies a
    ensures multiset(a[..]) == multiset(old(a[..]))
    ensures AtMostOneUnnamed(old(a[..])) ==> InNameOrder(a[..])
  {
    hide Before, AtMostOneUnnamed;
    ghost var usable := AtMostOneUnnamed(a[..]);
    for i := 0 to a.Length
      invariant multiset(a[..]) == multiset(old(a[..]))
      invariant usable ==> AtMostOneUnnamed(a[..]) && InNameOrder(a[..i])
    {
      Sink(a, i);
    }
    assert a[..a.Length] == a[..];
  }

  /** Positions 0..i-1 are in order; entry i is moved to its place among them. */
  method Sink(a: array<EtcdMember>, i: nat)
    requires i < a.Length
    modifies a
    ensures multiset(a[..]) == multiset(old(a[..]))
    ensures AtMostOneUnnamed(old(a[..])) && InNameOrder(old(a[..i])) ==>
        AtMostOneUnnamed(a[..]) && InNameOrder(a[..i + 1])
  {
    hide Before, AtMostOneUnnamed, InNameOrder;
    ghost var usable := AtMostOneUnnamed(a[..]) && InNameOrder(a[..i]);
    var j := i;
    assert usable ==> InOrderExcept(a[..], i, i) by {
      SinkStart(a[..], i);
    }
    while j > 0 && Before(a[j].name, a[j - 1].name)
      invariant 0 <= j <= i
      invariant multiset(a[..]) == multiset(old(a[..]))
      invariant usable ==> AtMostOneUnnamed(a[..]) && InOrderExcept(a[..], i, j)
    {
      ghost var was := a[..];
      a[j], a[j - 1] := a[j - 1], a[j];
      assert a[..] == was[j := was[j - 1]][j - 1 := was[j]];
      if usable {
        SinkStep(was, a[..], i, j);
      }
      j := j - 1;
    }
    if usable {
      SinkEnd(a[..], i, j);
    }
  }

  /** The first i+1 entries are in order, but nothing is said about what precedes entry j. */
  ghost predicate InOrderExcept(s: seq<EtcdMember>, i: nat, j: nat) {
    i < |s| && forall p, q :: 0 <= p < q <= i && q != j ==> !Before(s[q].name, s[p].name)
  }

  lemma SinkStart(s: seq<EtcdMember>, i: nat)
    requires i < |s|
    ensures InNameOrder(s[..i]) ==> InOrderExcept(s, i, i)
  {
    hide Before;
    if InNameOrder(s[..i]) {
      forall p, q | 0 <= p < q < i ensures !Before(s[q].name, s[p].name) {
        assert s[..i][q] == s[q] && s[..i][p] == s[p];
      }
    }
  }

  lemma SinkStep(s: seq<EtcdMember>, t: seq<EtcdMember>, i: nat, j: nat)
    requires 0 < j <= i < |s| && t == s[j := s[j - 1]][j - 1 := s[j]]
    requires AtMostOneUnnamed(s) && InOrderExcept(s, i, j) && Before(s[j].name, s[j - 1].name)
    ensures AtMostOneUnnamed(t) && InOrderExcept(t, i, j - 1)
  {
    hide Before;
    NotBothWays(s[j].name, s[j - 1].name);
  }

  lemma SinkEnd(s: seq<EtcdMember>, i: nat, j: nat)
    requires j <= i && InOrderExcept(s, i, j) && (j > 0 ==> !Before(s[j].name, s[j - 1].name))
    ensures InNameOrder(s[..i + 1])
  {
    hide Before;
    forall p, q | 0 <= p < q <= i ensures !Before(s[q].name, s[p].name) {
      if q == j && p < j - 1 {
        NotBeforeTransitive(s[j].name, s[j - 1].name, s[p].name);
      }
    }
  }

  // ----- roles -----

  /** What an answer makes of the entry it belongs to. */
  function Told(m: EtcdMember, a: Answer): EtcdMember {
    m.(version := a.version, role := if a.isLearner then Learner else if a.leader == m.id then Leader else Follower)
  }

  /** The last answer that member id gave when the nodes of ordinals 0..n-1 were asked. */
  function LastAnswer(answers: nat -> Option<Answer>, n: nat, id: nat): Option<Answer> {
    if n == 0 then None
    else if answers(n - 1).Some? && answers(n - 1).value.header == Some(id) then answers(n - 1)
    else LastAnswer(answers, n - 1, id)
  }

  function Heard(m: EtcdMember, answers: nat -> Option<Answer>, n: nat): EtcdMember {
    match LastAnswer(answers, n, m.id)
    case Some(a) => Told(m, a)
    case None => m
  }

  /** answers(i) is the reply of ordinal i: none if its pod is not running or the request failed. */
  method UpdateRoles(a: array<EtcdMember>, answers: nat -> Option<Answer>)
    modifies a
    ensures forall k :: 0 <= k < a.Length ==> a[k] == Heard(old(a[k]), answers, a.Length)
  {
    for i := 0 to a.Length
      invariant forall k :: 0 <= k < a.Length ==> a[k] == Heard(old(a[k]), answers, i)
    {
      if answers(i).None? {
        continue;
      }
      var status := answers(i).value;
      for j := 0 to a.Length
        invariant forall k :: 0 <= k < a.Length ==> a[k] == Heard(old(a[k]), answers, if k < j then i + 1 else i)
      {
        if status.header.Some? && status.header.value == a[j].id {
          a[j] := a[j].(version := status.version);
          if status.isLearner {
            a[j] := a[j].(role := Learner);
          } else if status.leader == a[j].id {
            a[j] := a[j].(role := Leader);
          } else {
            a[j] := a[j].(role := Follower);
          }
        }
      }
    }
  }

  /** r is what the refresh makes of MemberList, the previous list and the answers. */
  ghost predicate Refreshes(r: seq<EtcdMember>, listed: seq<Listing>, known: seq<EtcdMember>,
                            answers: nat -> Option<Answer>) {
    exists order :: SortedJoin(order, listed, known) && r == HeardAll(order, answers, |order|)
  }

  ghost predicate SortedJoin(order: seq<EtcdMember>, listed: seq<Listing>, known: seq<EtcdMember>) {
    && multiset(order) == multiset(Joined(listed, known))
    && (AtMostOneUnnamed(Joined(listed, known)) ==> InNameOrder(order))
  }

  function HeardAll(list: seq<EtcdMember>, answers: nat -> Option<Answer>, n: nat): seq<EtcdMember> {
    seq(|list|, i requires 0 <= i < |list| => Heard(list[i], answers, n))
  }

  method RefreshMembers(listed: seq<Listing>, known: seq<EtcdMember>, answers: nat -> Option<Answer>)
    returns (memberStatus: seq<EtcdMember>, hasLearner: bool)
    ensures Refreshes(memberStatus, listed, known, answers)
    ensures hasLearner == AnyLearner(MembersOf(listed))
  {
    hide Joined, Heard, AtMostOneUnnamed, InNameOrder, AnyLearner;
    var joined;
    joined, hasLearner := Join(listed, known);
    var a := new EtcdMember[|joined|](i requires 0 <= i < |joined| => joined[i]);
    assert a[..] == joined;
    SortByName(a);
    ghost var order := a[..];
    UpdateRoles(a, answers);
    memberStatus := a[..];
    assert memberStatus == HeardAll(order, answers, |order|);
    assert SortedJoin(order, listed, known);
  }
}
