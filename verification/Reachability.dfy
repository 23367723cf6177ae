/** States that runs without spec edits lead to. */
module Reachability {
  import opened Cluster
  import opened Protocol

  ghost predicate NoEdits(acts: seq<Action>) {
    forall a :: a in acts ==> !a.Edit?
  }

  ghost predicate Reaches(s: State, t: State) {
    exists acts :: NoEdits(acts) && Runs(s, acts) && Exec(s, acts) == t
  }

  lemma Stay(s: State)
    ensures Reaches(s, s)
  {
    assert NoEdits([]) && Runs(s, []) && Exec(s, []) == s;
  }

  lemma {:induction false} SingleStep(s: State, a: Action)
    requires Enabled(s, a)
    ensures Runs(s, [a]) && Exec(s, [a]) == Apply(s, a)
  {
    hide Enabled, Apply;
    assert [a][0] == a && [a][1..] == [];
    assert Runs(Apply(s, a), []) && Exec(Apply(s, a), []) == Apply(s, a);
  }

  /** Putting a step in front of a run. */
  lemma After(s: State, a: Action, t: State)
    requires !a.Edit? && Enabled(s, a) && Reaches(Apply(s, a), t)
    ensures Reaches(s, t)
  {
    hide Enabled, Apply;
    var acts :| NoEdits(acts) && Runs(Apply(s, a), acts) && Exec(Apply(s, a), acts) == t;
    assert ([a] + acts)[1..] == acts;
    assert NoEdits([a] + acts) && Runs(s, [a] + acts) && Exec(s, [a] + acts) == t;
  }

  lemma {:induction false} RunTwice(s: State, acts: seq<Action>, more: seq<Action>)
    requires Runs(s, acts) && Runs(Exec(s, acts), more)
    ensures Runs(s, acts + more) && Exec(s, acts + more) == Exec(Exec(s, acts), more)
    decreases |acts|
  {
    hide Enabled, Apply;
    if acts == [] {
      assert acts + more == more;
    } else {
      assert (acts + more)[1..] == acts[1..] + more;
      RunTwice(Apply(s, acts[0]), acts[1..], more);
    }
  }

  /** A round that has just read the spec and version v of the TApp. */
  function Begun(s: State, v: nat): State {
    s.(seen := v, held := s.revision, round := Fetched(s.spec, v))
  }

  /** Starting a round: the spec is read, then the TApp. */
  lemma {:induction false} FetchRound(s: State, v: nat, t: State)
    requires s.round == Idle && s.seen <= v < |s.versions|
    requires Reaches(Begun(s, v), t)
    ensures Reaches(s, t)
  {
    hide EditOk, Reaches;
    var read := SpecTaken(s);
    assert Enabled(s, ReadSpec) && Apply(s, ReadSpec) == read;
    assert Enabled(read, Begin(v)) && Apply(read, Begin(v)) == Begun(s, v);
    After(read, Begin(v), t);
    After(s, ReadSpec, t);
  }

  lemma Transitive(s: State, t: State, u: State)
    requires Reaches(s, t) && Reaches(t, u)
    ensures Reaches(s, u)
  {
    hide Runs, Exec;
    var acts :| NoEdits(acts) && Runs(s, acts) && Exec(s, acts) == t;
    var more :| NoEdits(more) && Runs(t, more) && Exec(t, more) == u;
    assert NoEdits(acts + more);
    RunTwice(s, acts, more);
  }

  lemma GiveUp(s: State)
    requires s.seen < |s.versions| && (HoldsVersion(s.round) ==> s.round.v < |s.versions|)
    ensures Reaches(s, s.(round := Idle))
  {
    Stay(s.(round := Idle));
    if !s.round.Idle? {
      assert Enabled(s, Abort);
      After(s, Abort, s.(round := Idle));
    }
  }

  lemma {:induction false} SomeUnused(members: seq<Member>) returns (id: nat)
    ensures Unused(members, id)
  {
    id := 1;
    for n := 0 to |members|
      invariant id > 0 && forall j :: 0 <= j < n ==> members[j].id < id
    {
      if members[n].id >= id {
        id := members[n].id + 1;
      }
    }
  }
}
