/** When a check of the members has a list to store: the comparison in front of UpdateStatus (etcd.go, line 346) in
    terms of what etcd lists, what the nodes answer, and the list in hand. Undisturbed.PassCompletes says why it
    matters: of two stores in one pass the second is refused. */
module StatusNews {
  import opened Text
  import opened Cluster
  import opened Protocol
  import opened ProtocolSafety
  import opened MemberStatus
  import opened StatusTheorems

  /** Entry x says all that row mm and the last answer of its member, if there is one, have to say. */
  predicate UpToDate(x: EtcdMember, mm: Listing, answer: Option<Answer>) {
    && Reports(x, mm)
    && match answer
       case Some(a) => Told(x, a) == x
       case None => mm.member.isLearner ==> x.role == Learner
  }

  /** Entry i of list is the one of the member of ordinal i, and up to date. */
  ghost predicate NoNewsAt(list: seq<EtcdMember>, listed: seq<Listing>, s: State, answers: nat -> Option<Answer>,
                           i: nat)
    requires i < |list| && i < |s.members|
  {
    exists n :: 0 <= n < |listed| && listed[n].member == s.members[i]
                && UpToDate(list[i], listed[n], LastAnswer(answers, |listed|, list[i].id))
  }

  /** In every state of the protocol a check stores nothing if and only if the list in hand has one entry for each
      ordinal, in this order, and each of them is up to date. */
  lemma {:induction false} NothingToStore(s: State, listed: seq<Listing>, known: seq<EtcdMember>,
                                          answers: nat -> Option<Answer>, r: seq<EtcdMember>)
    requires Inv(s) && NamesGenerated(s) && Lists(listed, s)
    requires UniqueIds(known) && Refreshes(r, listed, known, answers)
    ensures r == known <==>
              |known| == |s.members| && forall i :: 0 <= i < |known| ==> NoNewsAt(known, listed, s, answers, i)
  {
    hide Inv, NamesGenerated, Lists, UniqueIds, Refreshes, MembersOf, NoNewsAt;
    StatusFollowsOrdinals(s, listed, known, answers, r);
    ListsUsable(s, listed);
    DistinctInState(s);
    forall i | 0 <= i < |r| ensures NoNewsAt(r, listed, s, answers, i) {
      EntryUpToDate(s, listed, known, answers, r, i);
    }
    if |known| == |s.members| && forall i :: 0 <= i < |known| ==> NoNewsAt(known, listed, s, answers, i) {
      forall i: nat | i < |r| ensures r[i] == known[i] {
        EntryKept(s, listed, known, answers, r, i);
      }
    }
  }

  lemma {:induction false} DistinctInState(s: State)
    requires Inv(s)
    ensures DistinctMembers(s.members)
  {
    hide VersionsWellFormed, LagBounded, NamesInv, LabelsSafe, RoundInv, SpecInv;
  }

  /** What a check works out is up to date. */
  lemma {:induction false} EntryUpToDate(s: State, listed: seq<Listing>, known: seq<EtcdMember>,
                                         answers: nat -> Option<Answer>, r: seq<EtcdMember>, i: nat)
    requires Refreshes(r, listed, known, answers) && |r| == |listed| == |s.members| && i < |r|
    requires DistinctMembers(s.members) && (forall m :: m in MembersOf(listed) <==> m in s.members)
    requires r[i].id == s.members[i].id
    ensures NoNewsAt(r, listed, s, answers, i)
  {
    hide Refreshes, LastAnswer, MembersOf;
    var x, n := EntryFrom(listed, known, answers, r, i);
    hide CarriedOver;
    assert MembersOf(listed)[n] in s.members;
    var p :| 0 <= p < |s.members| && s.members[p] == listed[n].member;
    assert p == i;
    assert UpToDate(r[i], listed[n], LastAnswer(answers, |listed|, r[i].id)) by {
      FreshEntry(x, listed[n], known, answers, |listed|);
    }
  }

  /** Entry i before the answers, and the row it comes from. */
  lemma {:induction false} EntryFrom(listed: seq<Listing>, known: seq<EtcdMember>, answers: nat -> Option<Answer>,
                                     r: seq<EtcdMember>, i: nat)
    returns (x: EtcdMember, n: nat)
    requires Refreshes(r, listed, known, answers) && i < |r|
    ensures n < |listed| && CarriedOver(x, listed[n], known) && r[i] == Heard(x, answers, |r|)
    ensures r[i].id == x.id == listed[n].member.id
  {
    hide Joined, InNameOrder, AtMostOneUnnamed, LastAnswer;
    var order :| SortedJoin(order, listed, known) && r == HeardAll(order, answers, |order|);
    x := order[i];
    assert x in multiset(order);
    EntryOrigin(listed, known, x);
    n :| n < |listed| && CarriedOver(x, listed[n], known);
  }

  lemma {:induction false} FreshEntry(x: EtcdMember, mm: Listing, known: seq<EtcdMember>,
                                      answers: nat -> Option<Answer>, k: nat)
    requires CarriedOver(x, mm, known)
    ensures UpToDate(Heard(x, answers, k), mm, LastAnswer(answers, k, x.id))
  {
    hide LastAnswer;
  }

  /** An entry that is up to date is worked out again. */
  lemma {:induction false} EntryKept(s: State, listed: seq<Listing>, known: seq<EtcdMember>,
                                     answers: nat -> Option<Answer>, r: seq<EtcdMember>, i: nat)
    requires Refreshes(r, listed, known, answers) && UniqueIds(known) && DistinctMembers(MembersOf(listed))
    requires |r| == |listed| == |s.members| == |known| && i < |r| && r[i].id == s.members[i].id
    requires NoNewsAt(known, listed, s, answers, i)
    ensures r[i] == known[i]
  {
    hide Refreshes, LastAnswer, MembersOf, DistinctMembers, UniqueIds, CarriedOver, UpToDate;
    var x, n := EntryFrom(listed, known, answers, r, i);
    var p :| 0 <= p < |listed| && listed[p].member == s.members[i]
             && UpToDate(known[i], listed[p], LastAnswer(answers, |listed|, known[i].id));
    if p < n {
      RowsDiffer(listed, p, n);
    } else if n < p {
      RowsDiffer(listed, n, p);
    }
    SameEntry(x, listed[n], known, answers, |listed|, i);
  }

  lemma {:induction false} SameEntry(x: EtcdMember, mm: Listing, known: seq<EtcdMember>,
                                     answers: nat -> Option<Answer>, k: nat, i: nat)
    requires CarriedOver(x, mm, known) && UniqueIds(known) && i < |known|
    requires UpToDate(known[i], mm, LastAnswer(answers, k, known[i].id))
    ensures Heard(x, answers, k) == known[i]
  {
    hide LastAnswer, TimesKnown;
    KnownOnce(known, x.id);
    assert known[i].id == x.id;
  }

  /** The endpoint recorded for a member stays, whatever it answers; nobody else's is taken. */
  lemma {:induction false} EndpointsKept(r: seq<EtcdMember>, listed: seq<Listing>, known: seq<EtcdMember>,
                                         answers: nat -> Option<Answer>, i: nat)
    requires Refreshes(r, listed, known, answers) && UniqueIds(known) && i < |r|
    ensures forall k :: 0 <= k < |known| && known[k].id == r[i].id ==> r[i].endpoint == known[k].endpoint
    ensures (forall k :: 0 <= k < |known| ==> known[k].id != r[i].id) ==> r[i].endpoint == ""
  {
    hide Refreshes, LastAnswer, TimesKnown;
    var x, n := EntryFrom(listed, known, answers, r, i);
    KnownOnce(known, x.id);
    assert r[i].endpoint == x.endpoint;
  }

  // ----- a promotion is news -----

  /** A recorded learner that etcd no longer lists as one and that answers as a voter: the list in hand is out of
      date. So after a promotion the second check of the pass always has something to store once the new voter
      answers. */
  lemma {:induction false} PromotionIsNews(listed: seq<Listing>, known: seq<EtcdMember>,
                                           answers: nat -> Option<Answer>, r: seq<EtcdMember>, k: nat)
    requires Refreshes(r, listed, known, answers)
    requires k < |known| && known[k].role == Learner
    requires LastAnswer(answers, |known|, known[k].id).Some?
    requires !LastAnswer(answers, |known|, known[k].id).value.isLearner
    ensures r != known
  {
    hide Refreshes, LastAnswer;
    if r == known {
      EntryTold(r, listed, known, answers, k);
    }
  }

  /** Two checks around a promotion, both with a list to store: the learner's name has just appeared, and after its
      promotion it answers. */
  lemma {:induction false} BothChecksStore()
    returns (known: seq<EtcdMember>, before: seq<Listing>, first: seq<EtcdMember>, after: seq<Listing>,
             second: seq<EtcdMember>, answers: nat -> Option<Answer>)
    ensures UniqueIds(known) && DistinctMembers(MembersOf(before))
    ensures MembersOf(after) == Promoted(MembersOf(before), 2)
    ensures Refreshes(first, before, known, Nobody) && Refreshes(second, after, first, answers)
    ensures known != first && first != second
  {
    hide Joined, MembersOf, LastAnswer, Promoted;
    var mm1, mm2 := Listing(Member(1, [], "a", false), []), Listing(Member(2, [], "b", true), []);
    var e1, e2 := EtcdMember(1, "a", Leader, "3", "", Running, []), EtcdMember(2, "b", Learner, "", "", Running, []);
    before, after := [mm1, mm2], [mm1, mm2.(member := mm2.member.(isLearner := false))];
    known, first := [e1, e2.(name := "", health := UnStarted)], [e1, e2];
    second := [e1, e2.(role := Follower, version := "3")];
    answers := (i: nat) => if i == 1 then Some(Answer(Some(2), 1, false, "3")) else None;
    assert !Before("b", "a");
    FirstCheck(mm1, mm2, known[0], known[1], first);
    JoinOfTwo(mm1, after[1], e1, e2);
    OnlySecondAnswers(answers);
    assert SortedJoin(first, after, first);
    assert second == HeardAll(first, answers, 2);
    TwoMembers(before, after);
  }

  lemma {:induction false} FirstCheck(mm1: Listing, mm2: Listing, e1: EtcdMember, e2: EtcdMember,
                                      first: seq<EtcdMember>)
    requires e1.id == mm1.member.id != mm2.member.id == e2.id && first == [Updated(e1, mm1), Updated(e2, mm2)]
    requires !Before(mm2.member.name, mm1.member.name)
    ensures Refreshes(first, [mm1, mm2], [e1, e2], Nobody)
  {
    hide Joined, LastAnswer, Before;
    JoinOfTwo(mm1, mm2, e1, e2);
    assert Joined([mm1, mm2], [e1, e2]) == first;
    assert InNameOrder(first);
    assert SortedJoin(first, [mm1, mm2], [e1, e2]);
    NobodyAnswered(2, e1.id);
    NobodyAnswered(2, e2.id);
    assert first == HeardAll(first, Nobody, 2);
  }

  function Nobody(i: nat): Option<Answer> {
    None
  }

  lemma {:induction false} NobodyAnswered(n: nat, id: nat)
    ensures LastAnswer(Nobody, n, id) == None
  {
    if n > 0 {
      NobodyAnswered(n - 1, id);
    }
  }

  lemma {:induction false} TwoMembers(before: seq<Listing>, after: seq<Listing>)
    requires |before| == |after| == 2 && before[0] == after[0] && before[0].member.id == 1 && before[1].member.id == 2
    requires after[1].member == before[1].member.(isLearner := false)
    ensures DistinctMembers(MembersOf(before)) && MembersOf(after) == Promoted(MembersOf(before), 2)
  {
    hide Promoted;
  }
}
