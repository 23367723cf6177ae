/** What the refreshed member list says about the cluster, and why its sort is usable: the scaling protocol never lets
    two members be unnamed at the same time. */
module StatusTheorems {
  import opened Text
  import opened Cluster
  import opened NodeArgs
  import opened Protocol
  import opened ProtocolSafety
  import opened ScalingTheorems
  import opened MemberStatus

  // ----- permutations -----

  lemma {:induction false} CountedTwice<T>(s: seq<T>, x: T)
    ensures multiset(s)[x] >= 2 <==> exists i, j :: 0 <= i < j < |s| && s[i] == x && s[j] == x
  {
    if s != [] {
      var m := |s| - 1;
      assert s == s[..m] + [s[m]];
      CountedTwice(s[..m], x);
      if i, j :| 0 <= i < j < |s| && s[i] == x && s[j] == x {
        if j < m {
          assert s[..m][i] == x && s[..m][j] == x;
        } else {
          assert s[..m][i] == x;
        }
      }
      if multiset(s)[x] >= 2 && multiset(s[..m])[x] < 2 {
        assert x in s[..m];
        var i :| 0 <= i < m && s[..m][i] == x;
        assert s[i] == x && s[m] == x;
      }
    }
  }

  ghost predicate NoRepeats<T>(s: seq<T>) {
    forall i, j :: 0 <= i < j < |s| ==> s[i] != s[j]
  }

  lemma {:induction false} NoRepeatsPermuted<T>(a: seq<T>, b: seq<T>)
    requires multiset(a) == multiset(b) && NoRepeats(a)
    ensures NoRepeats(b) && |a| == |b|
    ensures forall x :: x in a <==> x in b
  {
    assert |multiset(a)| == |a| && |multiset(b)| == |b|;
    forall x ensures x in a <==> x in b {
      assert x in a <==> x in multiset(a);
      assert x in b <==> x in multiset(b);
    }
    forall i, j | 0 <= i < j < |b| ensures b[i] != b[j] {
      if b[i] == b[j] {
        CountedTwice(b, b[i]);
        CountedTwice(a, b[i]);
        assert false;
      }
    }
  }

  lemma {:induction false} UniquePermuted(a: seq<EtcdMember>, b: seq<EtcdMember>)
    requires multiset(a) == multiset(b) && UniqueIds(a)
    ensures UniqueIds(b) && |a| == |b|
    ensures forall x :: x in a <==> x in b
  {
    NoRepeatsPermuted(a, b);
    forall i, j | 0 <= i < j < |b| ensures b[i].id != b[j].id {
      assert b[i] in a && b[j] in a;
    }
  }

  // ----- the list refines MemberList -----

  ghost predicate OneUnnamedListed(listed: seq<Listing>) {
    forall i, j :: 0 <= i < j < |listed| ==> listed[i].member.name != "" || listed[j].member.name != ""
  }

  /** If ids were unique before, the refreshed list has exactly one entry for every listed member and none for anybody
      else, so ids stay unique from round to round; with at most one unnamed member it is sorted by name. */
  lemma {:induction false} RefreshRefinesMemberList(r: seq<EtcdMember>, listed: seq<Listing>, known: seq<EtcdMember>,
                                                    answers: nat -> Option<Answer>)
    requires Refreshes(r, listed, known, answers) && DistinctMembers(MembersOf(listed)) && UniqueIds(known)
    ensures |r| == |listed| && UniqueIds(r)
    ensures forall i :: 0 <= i < |r| ==> exists n :: 0 <= n < |listed| && Reports(r[i], listed[n])
    ensures forall n :: 0 <= n < |listed| ==> exists i :: 0 <= i < |r| && Reports(r[i], listed[n])
    ensures OneUnnamedListed(listed) ==> InNameOrder(r)
  {
    hide SortedJoin, HeardAll, InNameOrder, OneUnnamedListed, Reports, DistinctMembers, UniqueIds, MembersOf;
    var order :| SortedJoin(order, listed, known) && r == HeardAll(order, answers, |order|);
    EntriesUnique(order, r, listed, known, answers);
    forall i: nat | i < |r| ensures exists n :: 0 <= n < |listed| && Reports(r[i], listed[n]) {
      RowOfEntry(order, r, listed, known, answers, i);
    }
    forall n: nat | n < |listed| ensures exists i :: 0 <= i < |r| && Reports(r[i], listed[n]) {
      EntryOfRow(order, r, listed, known, answers, n);
    }
  }

  /** r is order, a sorted join, after the answers. */
  ghost predicate FromOrder(order: seq<EtcdMember>, r: seq<EtcdMember>, listed: seq<Listing>, known: seq<EtcdMember>,
                            answers: nat -> Option<Answer>) {
    && SortedJoin(order, listed, known) && r == HeardAll(order, answers, |order|)
    && DistinctMembers(MembersOf(listed)) && UniqueIds(known)
  }

  lemma {:induction false} EntriesUnique(order: seq<EtcdMember>, r: seq<EtcdMember>, listed: seq<Listing>,
                                         known: seq<EtcdMember>, answers: nat -> Option<Answer>)
    requires FromOrder(order, r, listed, known, answers)
    ensures |r| == |listed| && UniqueIds(r)
    ensures OneUnnamedListed(listed) ==> InNameOrder(r)
  {
    hide Joined, InNameOrder, AtMostOneUnnamed, OneUnnamedListed, HeardAll, Reports, DistinctMembers, UniqueIds,
         MembersOf;
    JoinUnique(listed, known);
    UniquePermuted(Joined(listed, known), order);
    HeardKeeps(order, answers, |order|);
    IdsHeard(order, r);
  }

  lemma {:induction false} IdsHeard(order: seq<EtcdMember>, r: seq<EtcdMember>)
    requires UniqueIds(order) && |r| == |order| && forall i :: 0 <= i < |r| ==> r[i].id == order[i].id
    ensures UniqueIds(r)
  {
  }

  lemma {:induction false} RowOfEntry(order: seq<EtcdMember>, r: seq<EtcdMember>, listed: seq<Listing>,
                                      known: seq<EtcdMember>, answers: nat -> Option<Answer>, i: nat)
    requires FromOrder(order, r, listed, known, answers) && i < |r|
    ensures exists n :: 0 <= n < |listed| && Reports(r[i], listed[n])
  {
    hide Joined, InNameOrder, AtMostOneUnnamed, OneUnnamedListed, HeardAll, Reports, DistinctMembers, UniqueIds,
         MembersOf;
    var joined := Joined(listed, known);
    JoinUnique(listed, known);
    UniquePermuted(joined, order);
    HeardKeeps(order, answers, |order|);
    var n := IndexIn(joined, order[i]);
    assert Reports(order[i], listed[n]);
  }

  lemma {:induction false} EntryOfRow(order: seq<EtcdMember>, r: seq<EtcdMember>, listed: seq<Listing>,
                                      known: seq<EtcdMember>, answers: nat -> Option<Answer>, n: nat)
    requires FromOrder(order, r, listed, known, answers) && n < |listed|
    ensures exists i :: 0 <= i < |r| && Reports(r[i], listed[n])
  {
    hide Joined, InNameOrder, AtMostOneUnnamed, OneUnnamedListed, HeardAll, Reports, DistinctMembers, UniqueIds,
         MembersOf;
    var joined := Joined(listed, known);
    JoinUnique(listed, known);
    UniquePermuted(joined, order);
    HeardKeeps(order, answers, |order|);
    assert joined[n] in joined;
    var i := IndexIn(order, joined[n]);
    assert Reports(order[i], listed[n]);
  }

  ghost function IndexIn<T>(s: seq<T>, x: T): (i: nat)
    requires x in s
    ensures i < |s| && s[i] == x
  {
    var i: nat :| i < |s| && s[i] == x;
    i
  }

  /** Answers change versions and roles, nothing else. */
  lemma {:induction false} HeardKeeps(order: seq<EtcdMember>, answers: nat -> Option<Answer>, n: nat)
    ensures var r := HeardAll(order, answers, n);
            && |r| == |order|
            && (forall i :: 0 <= i < |r| ==> r[i] == order[i].(version := r[i].version, role := r[i].role))
            && (forall i, mm :: 0 <= i < |r| ==> (Reports(r[i], mm) <==> Reports(order[i], mm)))
            && (InNameOrder(order) ==> InNameOrder(r))
  {
    hide LastAnswer, Before;
    var r := HeardAll(order, answers, n);
    forall i | 0 <= i < |r| ensures r[i] == order[i].(version := r[i].version, role := r[i].role) {
    }
  }

  lemma {:induction false} JoinUnique(listed: seq<Listing>, known: seq<EtcdMember>)
    requires DistinctMembers(MembersOf(listed)) && UniqueIds(known)
    ensures var joined := Joined(listed, known);
            && |joined| == |listed| && UniqueIds(joined)
            && (forall n :: 0 <= n < |listed| ==> Reports(joined[n], listed[n]))
            && (OneUnnamedListed(listed) ==> AtMostOneUnnamed(joined))
  {
    hide Joined;
    forall n | 0 <= n < |listed| ensures TimesKnown(listed[n].member.id, known) <= 1 {
      KnownOnce(known, listed[n].member.id);
    }
    OneEntryPerMember(listed, known);
    var joined := Joined(listed, known);
    forall i, j | 0 <= i < j < |joined| ensures joined[i].id != joined[j].id {
      assert MembersOf(listed)[i].id != MembersOf(listed)[j].id;
    }
  }

  // ----- roles -----

  ghost predicate AllAnswered(r: seq<EtcdMember>, answers: nat -> Option<Answer>) {
    forall i :: 0 <= i < |r| ==> LastAnswer(answers, |r|, r[i].id).Some?
  }

  ghost predicate Agree(answers: nat -> Option<Answer>, n: nat, leader: nat) {
    forall i :: 0 <= i < n && answers(i).Some? ==> answers(i).value.leader == leader
  }

  lemma {:induction false} LastAnswerGiven(answers: nat -> Option<Answer>, n: nat, id: nat)
    requires LastAnswer(answers, n, id).Some?
    ensures exists i :: 0 <= i < n && answers(i) == LastAnswer(answers, n, id) && answers(i).value.header == Some(id)
  {
    if !(answers(n - 1).Some? && answers(n - 1).value.header == Some(id)) {
      LastAnswerGiven(answers, n - 1, id);
    }
  }

  /** If every member has answered, each entry has the version and the role of its member's own answer, and if the
      answers agree on the leader, exactly that member's entry says Leader, unless it answered as a learner. */
  lemma {:induction false} RolesAsAnswered(r: seq<EtcdMember>, listed: seq<Listing>, known: seq<EtcdMember>,
                                           answers: nat -> Option<Answer>, leader: nat)
    requires Refreshes(r, listed, known, answers) && AllAnswered(r, answers)
    ensures forall i :: 0 <= i < |r| ==> r[i] == Told(r[i], LastAnswer(answers, |r|, r[i].id).value)
    ensures Agree(answers, |r|, leader) ==>
              forall i :: 0 <= i < |r| ==>
                (r[i].role == Leader <==> r[i].id == leader && !LastAnswer(answers, |r|, r[i].id).value.isLearner)
    ensures Agree(answers, |r|, leader) && UniqueIds(r) ==>
              forall i, j :: 0 <= i < |r| && 0 <= j < |r| && r[i].role == r[j].role == Leader ==> i == j
  {
    hide Joined, SortedJoin, InNameOrder;
    var order :| SortedJoin(order, listed, known) && r == HeardAll(order, answers, |order|);
    forall i | 0 <= i < |r| ensures r[i] == Told(r[i], LastAnswer(answers, |r|, r[i].id).value) {
      assert r[i] == Heard(order[i], answers, |r|);
    }
    if Agree(answers, |r|, leader) {
      forall i | 0 <= i < |r| ensures LastAnswer(answers, |r|, r[i].id).value.leader == leader {
        LastAnswerGiven(answers, |r|, r[i].id);
      }
    }
  }

  /** A member whose node has answered is shown as that answer says: a learner, the leader if it named itself, a
      follower otherwise, with the version that it runs. */
  lemma {:induction false} AnsweredEntries(r: seq<EtcdMember>, listed: seq<Listing>, known: seq<EtcdMember>,
                                           answers: nat -> Option<Answer>, i: nat, a: Answer)
    requires Refreshes(r, listed, known, answers) && i < |r| && LastAnswer(answers, |r|, r[i].id) == Some(a)
    ensures r[i].version == a.version
    ensures r[i].role == Learner <==> a.isLearner
    ensures r[i].role == Leader <==> !a.isLearner && a.leader == r[i].id
    ensures r[i].role == Follower <==> !a.isLearner && a.leader != r[i].id
  {
    hide SortedJoin, LastAnswer;
    var order :| SortedJoin(order, listed, known) && r == HeardAll(order, answers, |order|);
    assert r[i] == Heard(order[i], answers, |r|);
  }

  /** A member is shown as running exactly when it has published its name, and as not started otherwise. */
  lemma {:induction false} HealthShown(r: seq<EtcdMember>, listed: seq<Listing>, known: seq<EtcdMember>,
                                       answers: nat -> Option<Answer>, i: nat)
    requires Refreshes(r, listed, known, answers) && i < |r|
    ensures r[i].health == Running <==> r[i].name != ""
    ensures r[i].health == UnStarted <==> r[i].name == ""
  {
    hide Joined, InNameOrder, AtMostOneUnnamed, LastAnswer;
    var order :| SortedJoin(order, listed, known) && r == HeardAll(order, answers, |order|);
    assert r[i] == Heard(order[i], answers, |r|);
    assert order[i] in multiset(order);
    EntryOrigin(listed, known, order[i]);
    var n :| 0 <= n < |listed| && CarriedOver(order[i], listed[n], known);
  }

  /** What entry x of a member that gave no answer says beyond name and URLs: a learner is shown as one; otherwise role,
      version and endpoint are those of the previous list, or empty for a newcomer. */
  ghost predicate CarriedOver(x: EtcdMember, mm: Listing, known: seq<EtcdMember>) {
    && Reports(x, mm)
    && (mm.member.isLearner ==> x.role == Learner)
    && (|| (exists k :: 0 <= k < |known| && Inherits(x, known[k], mm.member.isLearner))
        || (TimesKnown(x.id, known) == 0 && x.version == "" && x.endpoint == ""
            && (!mm.member.isLearner ==> x.role == NoRole)))
  }

  predicate Inherits(x: EtcdMember, esm: EtcdMember, learner: bool) {
    esm.id == x.id && x.version == esm.version && x.endpoint == esm.endpoint && (!learner ==> x.role == esm.role)
  }

  ghost predicate RecordedLeader(known: seq<EtcdMember>, id: nat) {
    exists k :: 0 <= k < |known| && known[k].id == id && known[k].role == Leader
  }

  lemma {:induction false} SilentEntries(r: seq<EtcdMember>, listed: seq<Listing>, known: seq<EtcdMember>,
                                         answers: nat -> Option<Answer>, i: nat)
    requires Refreshes(r, listed, known, answers) && i < |r| && LastAnswer(answers, |r|, r[i].id) == None
    ensures exists n :: 0 <= n < |listed| && CarriedOver(r[i], listed[n], known)
  {
    hide Joined, InNameOrder, AtMostOneUnnamed, CarriedOver;
    var order :| SortedJoin(order, listed, known) && r == HeardAll(order, answers, |order|);
    assert r[i] == order[i];
    assert order[i] in multiset(order);
    EntryOrigin(listed, known, order[i]);
  }

  lemma {:induction false} EntryOrigin(listed: seq<Listing>, known: seq<EtcdMember>, x: EtcdMember)
    requires x in Joined(listed, known)
    ensures exists n :: 0 <= n < |listed| && CarriedOver(x, listed[n], known)
  {
    hide CarriedOver, EntriesFor;
    var m := |listed| - 1;
    if x in Joined(listed[..m], known) {
      EntryOrigin(listed[..m], known, x);
      var n :| 0 <= n < m && CarriedOver(x, listed[..m][n], known);
      assert CarriedOver(x, listed[n], known);
    } else {
      RowOrigin(listed[m], known, x);
    }
  }

  lemma {:induction false} RowOrigin(mm: Listing, known: seq<EtcdMember>, x: EtcdMember)
    requires x in EntriesFor(mm, known)
    ensures CarriedOver(x, mm, known)
  {
    MatchCount(mm, known);
    if x in Matches(mm, known) {
      MatchOrigin(mm, known, x);
    }
  }

  lemma {:induction false} MatchOrigin(mm: Listing, known: seq<EtcdMember>, x: EtcdMember)
    requires x in Matches(mm, known)
    ensures exists k :: 0 <= k < |known| && known[k].id == mm.member.id && x == Updated(known[k], mm)
  {
    hide Updated;
    var m := |known| - 1;
    if x in Matches(mm, known[..m]) {
      MatchOrigin(mm, known[..m], x);
      var k :| 0 <= k < m && known[..m][k].id == mm.member.id && x == Updated(known[..m][k], mm);
      assert known[k] == known[..m][k];
    } else {
      assert known[m].id == mm.member.id && x == Updated(known[m], mm);
    }
  }

  // ----- how many leaders the list shows -----

  /** The input makes the entry of row mm say Leader: its member's own answer says so, or it is silent, no learner,
      and the old list says so. */
  ghost predicate LeadsAfter(mm: Listing, known: seq<EtcdMember>, answers: nat -> Option<Answer>, n: nat) {
    match LastAnswer(answers, n, mm.member.id)
    case Some(a) => !a.isLearner && a.leader == mm.member.id
    case None => !mm.member.isLearner && RecordedLeader(known, mm.member.id)
  }

  ghost predicate OneLeader(r: seq<EtcdMember>) {
    forall i, j :: 0 <= i < j < |r| ==> r[i].role != Leader || r[j].role != Leader
  }

  ghost predicate OneLeads(listed: seq<Listing>, known: seq<EtcdMember>, answers: nat -> Option<Answer>) {
    forall i, j :: 0 <= i < j < |listed| ==>
      !LeadsAfter(listed[i], known, answers, |listed|) || !LeadsAfter(listed[j], known, answers, |listed|)
  }

  /** With unique ids, the list shows at most one Leader if and only if the input makes at most one listed member
      lead. */
  lemma {:induction false} LeadersExact(r: seq<EtcdMember>, listed: seq<Listing>, known: seq<EtcdMember>,
                                        answers: nat -> Option<Answer>)
    requires Refreshes(r, listed, known, answers) && DistinctMembers(MembersOf(listed)) && UniqueIds(known)
    ensures OneLeader(r) <==> OneLeads(listed, known, answers)
  {
    hide Refreshes, OneLeader, OneLeads, UniqueIds, DistinctMembers, InNameOrder, OneUnnamedListed;
    RefreshRefinesMemberList(r, listed, known, answers);
    if OneLeader(r) {
      RowsFromEntries(r, listed, known, answers);
    }
    if OneLeads(listed, known, answers) {
      EntriesFromRows(r, listed, known, answers);
    }
  }

  lemma {:induction false} RowsFromEntries(r: seq<EtcdMember>, listed: seq<Listing>, known: seq<EtcdMember>,
                                           answers: nat -> Option<Answer>)
    requires Refreshes(r, listed, known, answers) && DistinctMembers(MembersOf(listed)) && UniqueIds(known)
    requires |r| == |listed| && OneLeader(r)
    requires forall n :: 0 <= n < |listed| ==> exists i :: 0 <= i < |r| && Reports(r[i], listed[n])
    ensures OneLeads(listed, known, answers)
  {
    hide Refreshes, LeadsAfter, UniqueIds, DistinctMembers;
    forall i, j | 0 <= i < j < |listed|
      ensures !LeadsAfter(listed[i], known, answers, |listed|) || !LeadsAfter(listed[j], known, answers, |listed|)
    {
      var x :| 0 <= x < |r| && Reports(r[x], listed[i]);
      var y :| 0 <= y < |r| && Reports(r[y], listed[j]);
      RowsDiffer(listed, i, j);
      EntryLeads(r, listed, known, answers, x, i);
      EntryLeads(r, listed, known, answers, y, j);
    }
  }

  lemma {:induction false} EntriesFromRows(r: seq<EtcdMember>, listed: seq<Listing>, known: seq<EtcdMember>,
                                           answers: nat -> Option<Answer>)
    requires Refreshes(r, listed, known, answers)
    requires DistinctMembers(MembersOf(listed)) && UniqueIds(known) && UniqueIds(r)
    requires |r| == |listed| && OneLeads(listed, known, answers)
    requires forall i :: 0 <= i < |r| ==> exists n :: 0 <= n < |listed| && Reports(r[i], listed[n])
    ensures OneLeader(r)
  {
    hide Refreshes, LeadsAfter, UniqueIds, DistinctMembers;
    forall x, y | 0 <= x < y < |r| ensures r[x].role != Leader || r[y].role != Leader {
      var i :| 0 <= i < |listed| && Reports(r[x], listed[i]);
      var j :| 0 <= j < |listed| && Reports(r[y], listed[j]);
      IdsDiffer(r, x, y);
      EntryLeads(r, listed, known, answers, x, i);
      EntryLeads(r, listed, known, answers, y, j);
    }
  }

  lemma {:induction false} RowsDiffer(listed: seq<Listing>, i: nat, j: nat)
    requires DistinctMembers(MembersOf(listed)) && i < j < |listed|
    ensures listed[i].member.id != listed[j].member.id
  {
    assert MembersOf(listed)[i].id != MembersOf(listed)[j].id;
  }

  lemma {:induction false} IdsDiffer(r: seq<EtcdMember>, x: nat, y: nat)
    requires UniqueIds(r) && x < y < |r|
    ensures r[x].id != r[y].id
  {
  }

  /** Whether an entry says Leader is decided by the input for its row. */
  lemma {:induction false} EntryLeads(r: seq<EtcdMember>, listed: seq<Listing>, known: seq<EtcdMember>,
                                      answers: nat -> Option<Answer>, x: nat, i: nat)
    requires Refreshes(r, listed, known, answers) && DistinctMembers(MembersOf(listed)) && UniqueIds(known)
    requires |r| == |listed| && x < |r| && i < |listed| && Reports(r[x], listed[i])
    ensures r[x].role == Leader <==> LeadsAfter(listed[i], known, answers, |listed|)
  {
    hide Refreshes, MembersOf, UniqueIds, DistinctMembers;
    if LastAnswer(answers, |r|, r[x].id).Some? {
      hide LastAnswer;
      EntryTold(r, listed, known, answers, x);
    } else {
      SilentEntries(r, listed, known, answers, x);
      var n :| 0 <= n < |listed| && CarriedOver(r[x], listed[n], known);
      SameRow(listed, n, i, r[x]);
      SilentLeads(r[x], listed[i], known);
      hide LastAnswer, CarriedOver;
    }
  }

  lemma {:induction false} EntryTold(r: seq<EtcdMember>, listed: seq<Listing>, known: seq<EtcdMember>,
                                     answers: nat -> Option<Answer>, x: nat)
    requires Refreshes(r, listed, known, answers) && x < |r| && LastAnswer(answers, |r|, r[x].id).Some?
    ensures r[x] == Told(r[x], LastAnswer(answers, |r|, r[x].id).value)
  {
    hide SortedJoin, LastAnswer;
    var order :| SortedJoin(order, listed, known) && r == HeardAll(order, answers, |order|);
    assert r[x] == Heard(order[x], answers, |r|);
  }

  lemma {:induction false} SameRow(listed: seq<Listing>, n: nat, i: nat, x: EtcdMember)
    requires DistinctMembers(MembersOf(listed)) && n < |listed|
    requires i < |listed| && Reports(x, listed[n]) && Reports(x, listed[i])
    ensures n == i
  {
    if n < i {
      RowsDiffer(listed, n, i);
    } else if i < n {
      RowsDiffer(listed, i, n);
    }
  }

  lemma {:induction false} SilentLeads(x: EtcdMember, mm: Listing, known: seq<EtcdMember>)
    requires CarriedOver(x, mm, known) && UniqueIds(known)
    ensures x.role == Leader <==> !mm.member.isLearner && RecordedLeader(known, mm.member.id)
  {
    hide TimesKnown;
    KnownOnce(known, x.id);
  }

  /** Without an answer from everybody a deposed leader keeps its entry, and the list shows two. */
  lemma {:induction false} SilentMemberKeepsLeader()
    returns (r: seq<EtcdMember>, listed: seq<Listing>, known: seq<EtcdMember>, answers: nat -> Option<Answer>)
    ensures Refreshes(r, listed, known, answers) && DistinctMembers(MembersOf(listed)) && UniqueIds(known)
    ensures Agree(answers, |r|, 2) && answers(1).Some?
    ensures |r| == 2 && r[0].role == Leader && r[1].role == Leader
  {
    hide Joined, MembersOf, LastAnswer;
    var mm1, mm2 := Listing(Member(1, [], "a", false), []), Listing(Member(2, [], "b", false), []);
    var e1, e2 := EtcdMember(1, "a", Leader, "", "", Running, []), EtcdMember(2, "b", Follower, "", "", Running, []);
    listed, known := [mm1, mm2], [e1, e2];
    answers := (i: nat) => if i == 1 then Some(Answer(Some(2), 2, false, "3")) else None;
    r := [e1, e2.(role := Leader, version := "3")];
    JoinOfTwo(mm1, mm2, e1, e2);
    MembersOfTwo(listed);
    OnlySecondAnswers(answers);
    assert Less("a", "b");
    assert SortedJoin(known, listed, known);
    assert r == HeardAll(known, answers, 2);
  }

  lemma {:induction false} OnlySecondAnswers(answers: nat -> Option<Answer>)
    requires answers(0) == None && answers(1).Some? && answers(1).value.header == Some(2)
    ensures LastAnswer(answers, 2, 1) == None && LastAnswer(answers, 2, 2) == answers(1)
  {
    assert LastAnswer(answers, 1, 1) == None;
  }

  /** Two known members are joined in the order in which they are listed. */
  lemma {:induction false} JoinOfTwo(mm1: Listing, mm2: Listing, e1: EtcdMember, e2: EtcdMember)
    requires e1.id == mm1.member.id != mm2.member.id == e2.id
    ensures Joined([mm1, mm2], [e1, e2]) == [Updated(e1, mm1), Updated(e2, mm2)]
  {
    hide Updated;
    var listed, known := [mm1, mm2], [e1, e2];
    assert known[..1] == [e1] && known[..1][..0] == [] && listed[..1] == [mm1] && listed[..1][..0] == [];
    assert Matches(mm1, []) == Matches(mm2, []) == [];
    assert Matches(mm1, known[..1]) == [Updated(e1, mm1)] && Matches(mm2, known[..1]) == [];
    assert EntriesFor(mm1, known) == [Updated(e1, mm1)] && EntriesFor(mm2, known) == [Updated(e2, mm2)];
    assert Joined(listed[..0], known) == [];
    assert Joined(listed[..1], known) == [Updated(e1, mm1)];
  }

  lemma {:induction false} MembersOfTwo(listed: seq<Listing>)
    requires |listed| == 2 && listed[0].member.id != listed[1].member.id
    ensures DistinctMembers(MembersOf(listed))
  {
  }

  // ----- in every state of the scaling protocol -----

  /** listed is what MemberList returns in state s, in some order. */
  ghost predicate Lists(listed: seq<Listing>, s: State) {
    multiset(MembersOf(listed)) == multiset(s.members)
  }

  /** A started member has the name of its ordinal. */
  ghost predicate NamesGenerated(s: State) {
    forall i: nat :: i < |s.members| ==>
        s.members[i].name == "" || s.members[i].name == MemberName(NameForTApp(s.spec), i)
  }

  lemma {:induction false} StepKeepsNames(s: State, a: Action)
    requires Inv(s) && Enabled(s, a) && NamesGenerated(s)
    ensures NamesGenerated(Apply(s, a))
  {
    hide Inv, Enabled, Apply, NamesGenerated;
    match a {
      case Edit(e) => NamesUnderEdit(s, e);
      case RemoveMember => NamesAfterRemoval(s);
      case Start(i) => NamesAfterStart(s, i);
      case AddMember(id) => NamesAfterAddition(s, id);
      case PromoteMember(id) => NamesAfterPromotion(s, id);
      case _ =>
        MembersLeftAlone(s, a);
        SameMembersSameNames(s, Apply(s, a));
    }
  }

  lemma {:induction false} NamesUnderEdit(s: State, e: EtcdCluster)
    requires Enabled(s, Edit(e)) && NamesGenerated(s)
    ensures NamesGenerated(Apply(s, Edit(e)))
  {
    hide SizeOk, LearnersOk, MemberName;
    AppNameUnderSameIdentity(s.spec, e);
    hide NameForTApp;
  }

  lemma {:induction false} NamesAfterRemoval(s: State)
    requires Inv(s) && Enabled(s, RemoveMember) && NamesGenerated(s)
    ensures NamesGenerated(Apply(s, RemoveMember))
  {
    hide Inv, Enabled, Apply, MemberName, NameForTApp;
    RemovalTakesHighest(s);
    RemovalKeepsSpec(s);
  }

  lemma {:induction false} NamesAfterStart(s: State, i: nat)
    requires Enabled(s, Start(i)) && NamesGenerated(s)
    ensures NamesGenerated(Apply(s, Start(i)))
  {
    hide NamesGenerated, Started;
    NamedByStart(s, i);
  }

  lemma {:induction false} NamesAfterAddition(s: State, id: nat)
    requires Enabled(s, AddMember(id)) && NamesGenerated(s)
    ensures NamesGenerated(Apply(s, AddMember(id)))
  {
    hide NamesGenerated, Added;
    UnnamedWhenAdded(s, id);
  }

  lemma {:induction false} NamesAfterPromotion(s: State, id: nat)
    requires Enabled(s, PromoteMember(id)) && NamesGenerated(s)
    ensures NamesGenerated(Apply(s, PromoteMember(id)))
  {
    hide NamesGenerated, PromotedIn;
    NamesUnderPromotion(s, id);
  }

  lemma {:induction false} SameMembersSameNames(s: State, t: State)
    requires NamesGenerated(s) && t.members == s.members && t.spec == s.spec
    ensures NamesGenerated(t)
  {
    hide MemberName, NameForTApp;
  }

  lemma {:induction false} AppNameUnderSameIdentity(e: EtcdCluster, f: EtcdCluster)
    requires SameIdentity(e, f)
    ensures NameForTApp(e) == NameForTApp(f)
  {
  }

  lemma {:induction false} RemovalKeepsSpec(s: State)
    requires Enabled(s, RemoveMember)
    ensures Apply(s, RemoveMember).spec == s.spec
  {
  }

  lemma {:induction false} NamedByStart(s: State, i: nat)
    requires NamesGenerated(s) && i < |s.members|
    ensures NamesGenerated(Started(s, i))
  {
    hide MemberName, NameForTApp;
  }

  lemma {:induction false} UnnamedWhenAdded(s: State, id: nat)
    requires NamesGenerated(s) && s.round.UpListed? && s.round.v < |s.versions|
    ensures NamesGenerated(Added(s, id))
  {
    hide MemberName, NameForTApp, PeerNodeURL, LearnerIs;
  }

  lemma {:induction false} NamesUnderPromotion(s: State, id: nat)
    requires NamesGenerated(s) && s.round.Promoting?
    ensures NamesGenerated(PromotedIn(s, id))
  {
    hide MemberName, NameForTApp;
  }

  lemma {:induction false} MembersLeftAlone(s: State, a: Action)
    requires Enabled(s, a)
    requires !a.Edit? && !a.RemoveMember? && !a.Start? && !a.AddMember? && !a.PromoteMember?
    ensures Apply(s, a).members == s.members && Apply(s, a).spec == s.spec
  {
    hide MemberName, PeerNodeURL, LearnerIs, ScaledUp, ScaledDown, Refreshed, Flipped, EditOk, FindMember,
      PVCNameForEtcd, Named, AnyLearner;
  }

  lemma {:induction false} RunKeepsNames(s: State, acts: seq<Action>)
    requires Inv(s) && Runs(s, acts) && NamesGenerated(s)
    ensures NamesGenerated(Exec(s, acts))
    decreases |acts|
  {
    hide Inv, Enabled, Apply, NamesGenerated;
    if acts != [] {
      StepKeeps(s, acts[0]);
      StepKeepsNames(s, acts[0]);
      RunKeepsNames(Apply(s, acts[0]), acts[1..]);
    }
  }

  /** Whatever MemberList returns in a state of the protocol, its ids are distinct and at most one member, the newest,
      is unnamed. */
  lemma {:induction false} ListsUsable(s: State, listed: seq<Listing>)
    requires Inv(s) && Lists(listed, s)
    ensures |listed| == |s.members| && DistinctMembers(MembersOf(listed)) && OneUnnamedListed(listed)
    ensures forall m :: m in MembersOf(listed) <==> m in s.members
  {
    hide WellFormed, PeerNodeURL, LagBounded, LabelsSafe, RoundInv, SpecInv, MembersOf;
    var all := MembersOf(listed);
    NoRepeatsPermuted(s.members, all);
    forall i, j | 0 <= i < j < |all| ensures all[i].id != all[j].id && (all[i].name != "" || all[j].name != "") {
      assert all[i] in s.members && all[j] in s.members;
      var p :| 0 <= p < |s.members| && s.members[p] == all[i];
      var q :| 0 <= q < |s.members| && s.members[q] == all[j];
      assert p != q;
    }
  }

  lemma {:induction false} IncreasingIsIdentity(o: seq<nat>, k: nat)
    requires |o| == k && forall i :: 0 <= i < k ==> o[i] < k
    requires forall i, j :: 0 <= i < j < k ==> o[i] < o[j]
    ensures forall i :: 0 <= i < k ==> o[i] == i
  {
    if k > 0 {
      if o[k - 1] < k - 1 {
        var top := o[k - 1];
        assert forall i :: 0 <= i < k - 1 ==> o[i] < top;
        IncreasingTooMany(o[..k - 1], top);
        assert false;
      }
      var rest := o[..k - 1];
      assert forall i :: 0 <= i < k - 1 ==> rest[i] == o[i] < o[k - 1];
      IncreasingIsIdentity(rest, k - 1);
    }
  }

  lemma {:induction false} IncreasingTooMany(o: seq<nat>, bound: nat)
    requires forall i :: 0 <= i < |o| ==> o[i] < bound
    requires forall i, j :: 0 <= i < j < |o| ==> o[i] < o[j]
    ensures |o| <= bound
  {
    if o != [] {
      IncreasingTooMany(o[..|o| - 1], o[|o| - 1]);
    }
  }

  lemma {:induction false} DigitNamesOrdered(app: string, i: nat, j: nat)
    requires i < 10 && j < 10
    ensures Less(MemberName(app, i), MemberName(app, j)) <==> i < j
  {
    assert MemberName(app, i) == (app + "-") + [Digit(i)];
    assert MemberName(app, j) == (app + "-") + [Digit(j)];
    LessPrefix(app + "-", [Digit(i)], [Digit(j)]);
  }

  /** In every reachable state, whatever order MemberList uses, entry i of the refreshed list is the member of ordinal
      i. */
  lemma {:induction false} StatusFollowsOrdinals(s: State, listed: seq<Listing>, known: seq<EtcdMember>,
                                                 answers: nat -> Option<Answer>, r: seq<EtcdMember>)
    requires Inv(s) && NamesGenerated(s) && Lists(listed, s)
    requires UniqueIds(known) && Refreshes(r, listed, known, answers)
    ensures |r| == |s.members|
    ensures forall i :: 0 <= i < |r| ==> r[i].id == s.members[i].id && r[i].name == s.members[i].name
  {
    hide Inv, NamesGenerated, Refreshes, OneUnnamedListed, MembersOf;
    ListsUsable(s, listed);
    RefreshRefinesMemberList(r, listed, known, answers);
    hide Reports, InNameOrder, UniqueIds, DistinctMembers;
    forall i | 0 <= i < |r| ensures exists p: nat :: p < |s.members| && SameMember(r[i], s.members[p]) {
      EntryHasMember(s, listed, r[i]);
    }
    var o := seq(|r|, i requires 0 <= i < |r| => PositionOf(r[i], s.members));
    forall i, j | 0 <= i < j < |o| ensures o[i] < o[j] {
      OrderedPositions(s, r, i, j, o[i], o[j]);
    }
    IncreasingIsIdentity(o, |r|);
    forall i | 0 <= i < |r| ensures SameMember(r[i], s.members[i]) {
      assert o[i] == i;
    }
  }

  /** The same for every run, whatever fails and however stale the reads; the list is sorted by name. */
  lemma {:induction false} StatusInEveryRun(s: State, acts: seq<Action>, listed: seq<Listing>, known: seq<EtcdMember>,
                                            answers: nat -> Option<Answer>, r: seq<EtcdMember>)
    requires Init(s) && Runs(s, acts) && Lists(listed, Exec(s, acts))
    requires UniqueIds(known) && Refreshes(r, listed, known, answers)
    ensures var t := Exec(s, acts);
            && |r| == |t.members| && UniqueIds(r) && InNameOrder(r)
            && forall i :: 0 <= i < |r| ==> r[i].id == t.members[i].id && r[i].name == t.members[i].name
  {
    hide Init, Runs, Exec, Inv, NamesGenerated, Lists, Refreshes, UniqueIds, InNameOrder;
    InitNames(s);
    RunKeeps(s, acts);
    RunKeepsNames(s, acts);
    var t := Exec(s, acts);
    StatusFollowsOrdinals(t, listed, known, answers, r);
    ListsUsable(t, listed);
    RefreshRefinesMemberList(r, listed, known, answers);
  }

  /** In every run the list shows the member of ordinal i as running exactly when it has started. */
  lemma {:induction false} HealthInEveryRun(s: State, acts: seq<Action>, listed: seq<Listing>, known: seq<EtcdMember>,
                                            answers: nat -> Option<Answer>, r: seq<EtcdMember>, i: nat)
    requires Init(s) && Runs(s, acts) && Lists(listed, Exec(s, acts))
    requires UniqueIds(known) && Refreshes(r, listed, known, answers) && i < |Exec(s, acts).members|
    ensures |r| == |Exec(s, acts).members|
    ensures r[i].health == Running <==> Exec(s, acts).members[i].name != ""
    ensures r[i].health == UnStarted <==> Exec(s, acts).members[i].name == ""
  {
    hide Init, Runs, Exec, Lists, Refreshes, UniqueIds, InNameOrder;
    StatusInEveryRun(s, acts, listed, known, answers, r);
    HealthShown(r, listed, known, answers, i);
  }

  lemma {:induction false} InitNames(s: State)
    requires Init(s)
    ensures Inv(s) && NamesGenerated(s)
  {
    InitKeeps(s);
    hide Inv, MemberName;
  }

  predicate SameMember(x: EtcdMember, m: Member) {
    x.id == m.id && x.name == m.name
  }

  ghost function PositionOf(x: EtcdMember, members: seq<Member>): (p: nat)
    requires exists p: nat :: p < |members| && SameMember(x, members[p])
    ensures p < |members| && SameMember(x, members[p])
  {
    var p: nat :| p < |members| && SameMember(x, members[p]);
    p
  }

  lemma {:induction false} EntryHasMember(s: State, listed: seq<Listing>, x: EtcdMember)
    requires forall m :: m in MembersOf(listed) <==> m in s.members
    requires exists n :: 0 <= n < |listed| && Reports(x, listed[n])
    ensures exists p: nat :: p < |s.members| && SameMember(x, s.members[p])
  {
    var n :| 0 <= n < |listed| && Reports(x, listed[n]);
    assert MembersOf(listed)[n] in s.members;
    var p: nat :| p < |s.members| && s.members[p] == listed[n].member;
    assert SameMember(x, s.members[p]);
  }

  lemma {:induction false} AtMostEight(s: State)
    requires Inv(s)
    ensures |s.members| <= 8
  {
    hide PeerNodeURL, MembersInOrder, NamesInv, LabelsSafe, RoundInv, SpecInv;
    assert WellFormed(Current(s), s.spec);
  }

  lemma {:induction false} OrderedPositions(s: State, r: seq<EtcdMember>, i: nat, j: nat, p: nat, q: nat)
    requires Inv(s) && NamesGenerated(s) && UniqueIds(r) && InNameOrder(r)
    requires i < j < |r| && p < |s.members| && q < |s.members|
    requires SameMember(r[i], s.members[p]) && SameMember(r[j], s.members[q])
    ensures p < q
  {
    hide WellFormed, PeerNodeURL, LabelsSafe, RoundInv, SpecInv, MemberName;
    AtMostEight(s);
    assert p != q && !Before(r[j].name, r[i].name);
    assert p < |s.members| - 1 ==> s.members[p].name != "";
    assert q < |s.members| - 1 ==> s.members[q].name != "";
    DigitNamesOrdered(NameForTApp(s.spec), q, p);
  }

  /** Generated names sort in the order of their ordinals as long as there are at most ten of them, and no longer. */
  lemma {:induction false} NameOrderIsOrdinalOrder(app: string, n: nat)
    ensures (forall i: nat, j: nat :: i < j < n ==> Less(MemberName(app, i), MemberName(app, j))) <==> n <= 10
  {
    forall i: nat, j: nat | i < j < 10 ensures Less(MemberName(app, i), MemberName(app, j)) {
      DigitNamesOrdered(app, i, j);
    }
    if n > 10 {
      assert Decimal(10) == Decimal(1) + [Digit(0)] == [Digit(1), Digit(0)];
      assert Decimal(2) == [Digit(2)];
      assert MemberName(app, 2) == (app + "-") + Decimal(2);
      assert MemberName(app, 10) == (app + "-") + Decimal(10);
      LessPrefix(app + "-", Decimal(2), Decimal(10));
      assert !Less(MemberName(app, 2), MemberName(app, 10));
    }
  }
}
