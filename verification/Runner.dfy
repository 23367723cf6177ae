/** One goroutine per EtcdCluster: its wake-up channel and stop channel (pkg/controller/etcdcluster/etcd.go, lines
    102-169 and 839-850), and the controller's table of them (etcdcluster_controller.go, lines 162-211). */
module Runner {

  // ----- one runner -----

  /** Where the goroutine that executes Run is. */
  datatype Position =
    | Launched    // go Run() has been issued
    | Selecting   // at the select statement
    | Woken       // entered sync, the lister not read yet
    | Syncing     // has read the lister
    | Reporting   // in syncStatus, which the status ticker starts
    | Pausing     // in the sleep that ends every pass
    | Returned

  /** tokens: the contents of eventCh; closes: how often stopCh has been closed. */
  datatype Channels = Channels(tokens: nat, closes: nat, pos: Position)

  datatype Event =
    | Update        // somebody's call of Update, from entry to return
    | Stop
    | Begin         // the goroutine reaches the select statement for the first time
    | TakeToken
    | Tick          // the reconcile ticker
    | StatusTick    // the status ticker
    | ReadLister
    | Finish        // sync or syncStatus returns
    | Resume        // the sleep is over
    | Return        // stopCh was seen closed

  predicate CanDo(s: Channels, e: Event) {
    match e
    case Update => true
    case Stop => s.closes == 0
    case Begin => s.pos == Launched
    case TakeToken => s.pos == Selecting && s.tokens > 0
    case Tick => s.pos == Selecting
    case StatusTick => s.pos == Selecting
    case ReadLister => s.pos == Woken
    case Finish => s.pos == Syncing || s.pos == Reporting
    case Resume => s.pos == Pausing
    case Return => s.pos == Selecting && s.closes > 0
  }

  /** Update's send has a default branch: with a full buffer it does nothing. */
  function Do(s: Channels, e: Event): Channels
    requires CanDo(s, e)
  {
    match e
    case Update => s.(tokens := if s.tokens < 1 then s.tokens + 1 else s.tokens)
    case Stop => s.(closes := s.closes + 1)
    case Begin => s.(pos := Selecting)
    case TakeToken => s.(tokens := s.tokens - 1, pos := Woken)
    case Tick => s.(pos := Woken)
    case StatusTick => s.(pos := Reporting)
    case ReadLister => s.(pos := Syncing)
    case Finish => s.(pos := Pausing)
    case Resume => s.(pos := Selecting)
    case Return => s.(pos := Returned)
  }

  const FRESH := Channels(0, 0, Launched)

  ghost predicate Happens(s: Channels, events: seq<Event>)
    decreases |events|
  {
    events != [] ==> CanDo(s, events[0]) && Happens(Do(s, events[0]), events[1..])
  }

  ghost function After(s: Channels, events: seq<Event>): Channels
    requires Happens(s, events)
    decreases |events|
  {
    if events == [] then s else After(Do(s, events[0]), events[1..])
  }

  /** A read of the lister is still to come for whatever was updated before now, unless the runner has been stopped. */
  predicate ReadDue(s: Channels) {
    s.tokens == 1 || s.pos == Woken || s.pos == Returned
  }

  ghost predicate ReadAfter(events: seq<Event>, k: nat) {
    exists j :: k < j < |events| && events[j] == ReadLister
  }

  /** In every interleaving: once an Update has returned, either the lister has been read since, or a token is
      pending, or the runner is about to read (or has been stopped and returned). */
  lemma {:induction false} NoWakeUpLost(s: Channels, events: seq<Event>, k: nat)
    requires Happens(s, events) && s.tokens <= 1 && k < |events| && events[k] == Update
    ensures ReadAfter(events, k) || ReadDue(After(s, events))
    decreases k
  {
    var rest := events[1..];
    if k > 0 {
      NoWakeUpLost(Do(s, events[0]), rest, k - 1);
      if ReadAfter(rest, k - 1) {
        var j :| k - 1 < j < |rest| && rest[j] == ReadLister;
        assert events[j + 1] == ReadLister;
      }
    } else {
      DueUntilRead(Do(s, Update), rest);
      if j :| 0 <= j < |rest| && rest[j] == ReadLister {
        assert events[j + 1] == ReadLister;
      }
    }
  }

  lemma {:induction false} DueUntilRead(s: Channels, events: seq<Event>)
    requires Happens(s, events) && s.tokens <= 1 && ReadDue(s)
    ensures (exists j :: 0 <= j < |events| && events[j] == ReadLister) || ReadDue(After(s, events))
    decreases |events|
  {
    if events != [] && events[0] != ReadLister {
      DueUntilRead(Do(s, events[0]), events[1..]);
      if j :| 0 <= j < |events[1..]| && events[1..][j] == ReadLister {
        assert events[j + 1] == ReadLister;
      }
    } else if events != [] {
      assert events[0] == ReadLister;
    }
  }

  function Count(events: seq<Event>, e: Event): nat {
    if events == [] then 0 else (if events[0] == e then 1 else 0) + Count(events[1..], e)
  }

  function One(b: bool): nat {
    if b then 1 else 0
  }

  /** Conservation: tokens are neither invented nor lost except in a full buffer, and every wake-up reads the lister
      exactly once before the runner can do anything else. */
  lemma {:induction false} WakeUpsAndReads(s: Channels, events: seq<Event>)
    requires Happens(s, events) && s.tokens <= 1
    ensures var t := After(s, events);
            && t.tokens <= 1
            && t.tokens + Count(events, TakeToken) <= s.tokens + Count(events, Update)
            && Count(events, TakeToken) + Count(events, Tick) + One(s.pos == Woken) == Count(events, ReadLister)
                + One(t.pos == Woken)
    decreases |events|
  {
    if events != [] {
      WakeUpsAndReads(Do(s, events[0]), events[1..]);
    }
  }

  /** The channel of a runner that starts fresh is closed at most once; one that has returned was closed, and stays
      returned. */
  lemma {:induction false} ClosedAtMostOnce(s: Channels, events: seq<Event>)
    requires Happens(s, events) && s.closes <= 1 && (s.pos == Returned ==> s.closes == 1)
    ensures var t := After(s, events);
            && t.closes <= 1
            && s.closes + Count(events, Stop) == t.closes
            && (t.pos == Returned ==> t.closes == 1)
            && (s.pos == Returned ==> t.pos == Returned && Count(events, ReadLister) == 0)
    decreases |events|
  {
    if events != [] {
      ClosedAtMostOnce(Do(s, events[0]), events[1..]);
    }
  }

  // ----- the objects -----

  class ClusterRunner {
    const uid: string
    var eventCh: nat
    var closes: nat
    var pos: Position
    ghost var events: seq<Event>

    function Now(): Channels
      reads this
    {
      Channels(eventCh, closes, pos)
    }

    ghost predicate Valid()
      reads this
    {
      && Happens(FRESH, events) && After(FRESH, events) == Now()
      && eventCh <= 1 && closes <= 1 && (pos == Returned ==> closes == 1)
    }

    constructor (uid: string)
      ensures Valid() && this.uid == uid && Now() == FRESH && events == []
    {
      this.uid := uid;
      eventCh, closes, pos := 0, 0, Launched;
      events := [];
    }

    ghost method Record(before: Channels, e: Event)
      requires Happens(FRESH, events) && After(FRESH, events) == before
      requires before.tokens <= 1 && before.closes <= 1 && (before.pos == Returned ==> before.closes == 1)
      requires CanDo(before, e) && Do(before, e) == Now()
      modifies this`events
      ensures Valid() && events == old(events) + [e]
    {
      OneMore(FRESH, events, e);
      events := events + [e];
    }

    /** lines 839-845 */
    method Update()
      requires Valid()
      modifies this
      ensures Valid() && events == old(events) + [Event.Update] && closes == old(closes)
      ensures eventCh == 1 && pos == old(pos)
    {
      ghost var before := Now();
      if eventCh < 1 {
        eventCh := eventCh + 1;
      }
      Record(before, Event.Update);
    }

    /** lines 848-850; closing a closed channel panics. */
    method Stop()
      requires Valid() && closes == 0
      modifies this
      ensures Valid() && events == old(events) + [Event.Stop]
      ensures closes == 1 && eventCh == old(eventCh) && pos == old(pos)
    {
      ghost var before := Now();
      closes := closes + 1;
      Record(before, Event.Stop);
    }

    /** The next step of the goroutine that executes Run, lines 132-167. At the select statement, choice is the ready
        case that the runtime picks; if it is not ready, the goroutine waits. */
    method Step(choice: Event)
      requires Valid()
      modifies this
      ensures Valid() && closes == old(closes)
      ensures events == old(events) + OwnSteps(old(Now()), choice)
    {
      ghost var before := Now();
      match pos
      case Launched =>
        pos := Selecting;
        Record(before, Begin);
      case Selecting =>
        match choice {
          case Return =>
            if closes > 0 {
              pos := Returned;
              Record(before, Return);
            }
          case TakeToken =>
            if eventCh > 0 {
              eventCh, pos := eventCh - 1, Woken;
              Record(before, TakeToken);
            }
          case Tick =>
            pos := Woken;
            Record(before, Tick);
          case StatusTick =>
            pos := Reporting;
            Record(before, StatusTick);
          case _ =>
        }
      case Woken =>
        pos := Syncing;
        Record(before, ReadLister);
      case Syncing =>
        pos := Pausing;
        Record(before, Finish);
      case Reporting =>
        pos := Pausing;
        Record(before, Finish);
      case Pausing =>
        pos := Selecting;
        Record(before, Resume);
      case Returned =>
    }
  }

  /** The cases of the select statement. */
  predicate SelectCase(e: Event) {
    e == Return || e == TakeToken || e == Tick || e == StatusTick
  }

  /** What the goroutine does next by itself. */
  function OwnSteps(s: Channels, choice: Event): seq<Event> {
    match s.pos
    case Launched => [Begin]
    case Selecting => if SelectCase(choice) && CanDo(s, choice) then [choice] else []
    case Woken => [ReadLister]
    case Syncing => [Finish]
    case Reporting => [Finish]
    case Pausing => [Resume]
    case Returned => []
  }

  /** The goroutine's own steps up to the select statement; there are at most three, and none is a case of it. */
  function ToSelect(pos: Position): seq<Event> {
    match pos
    case Launched => [Begin]
    case Selecting => []
    case Woken => [ReadLister, Finish, Resume]
    case Syncing => [Finish, Resume]
    case Reporting => [Finish, Resume]
    case Pausing => [Resume]
    case Returned => []
  }

  lemma {:induction false} SelectReached(s: Channels, events: seq<Event>)
    requires s.pos != Returned
    ensures Happens(s, ToSelect(s.pos) + events) <==> Happens(s.(pos := Selecting), events)
    ensures Happens(s.(pos := Selecting), events) ==>
              After(s, ToSelect(s.pos) + events) == After(s.(pos := Selecting), events)
    decreases |ToSelect(s.pos)|
  {
    var own := ToSelect(s.pos);
    if s.pos == Selecting {
      assert own + events == events;
    } else {
      var t := Do(s, own[0]);
      assert ToSelect(t.pos) == own[1..];
      assert (own + events)[0] == own[0] && (own + events)[1..] == own[1..] + events;
      SelectReached(t, events);
    }
  }

  /** A runner never gets stuck: from wherever it is, its own steps lead to another reading of the lister for a pending
      wake-up, and to its return once it has been told to stop. */
  lemma {:induction false} NeverStuck(s: Channels)
    requires s.pos != Returned
    ensures s.tokens > 0 ==> Happens(s, ToSelect(s.pos) + [TakeToken, ReadLister])
    ensures s.closes > 0 ==>
              Happens(s, ToSelect(s.pos) + [Return]) && After(s, ToSelect(s.pos) + [Return]).pos == Returned
    ensures |ToSelect(s.pos)| <= 3
  {
    var t := s.(pos := Selecting);
    if s.tokens > 0 {
      var u := Do(t, TakeToken);
      assert [TakeToken, ReadLister][1..] == [ReadLister] && [ReadLister][1..] == [];
      assert Happens(u, [ReadLister]);
      SelectReached(s, [TakeToken, ReadLister]);
    }
    if s.closes > 0 {
      assert [Return][1..] == [];
      assert Happens(t, [Return]) && After(t, [Return]) == Do(t, Return);
      SelectReached(s, [Return]);
    }
  }

  lemma {:induction false} OneMore(s: Channels, events: seq<Event>, e: Event)
    requires Happens(s, events) && CanDo(After(s, events), e)
    ensures Happens(s, events + [e]) && After(s, events + [e]) == Do(After(s, events), e)
    decreases |events|
  {
    if events != [] {
      assert (events + [e])[1..] == events[1..] + [e];
      OneMore(Do(s, events[0]), events[1..], e);
    }
  }

  // ----- the controller's table -----

  class Controller {
    var clusters: map<string, ClusterRunner>
    ghost var made: set<ClusterRunner>      // every runner ever created

    /** The table holds exactly the runners that have not been stopped, each under its own UID. */
    ghost predicate Valid()
      reads this, made
    {
      && (forall key :: key in clusters ==> clusters[key] in made)
      && (forall r :: r in made ==> r.Valid() && (r.closes == 0 <==> r.uid in clusters && clusters[r.uid] == r))
      && (forall key :: key in clusters ==> clusters[key].uid == key)
    }

    constructor ()
      ensures Valid() && clusters == map[] && made == {}
    {
      clusters, made := map[], {};
    }

    /** lines 162-198; the calls that the code starts as goroutines are made by Interleave. */
    method UpdateEtcdCluster(uid: string) returns (r: ClusterRunner)
      requires Valid()
      modifies this
      ensures Valid() && uid in clusters && clusters[uid] == r && r.closes == 0
      ensures uid in old(clusters) ==> clusters == old(clusters) && made == old(made)
      ensures uid !in old(clusters) ==> fresh(r) && clusters == old(clusters)[uid := r] && made == old(made) + {r}
    {
      if uid in clusters {
        r := clusters[uid];
      } else {
        r := new ClusterRunner(uid);
        clusters := clusters[uid := r];
        made := made + {r};
      }
    }

    /** lines 201-211 */
    method StopControl(uid: string)
      requires Valid()
      modifies this, made
      ensures Valid() && made == old(made) && clusters == old(clusters) - {uid}
      ensures uid in old(clusters) ==> old(clusters[uid]).closes == 1
      ensures forall r :: r in made && (uid !in old(clusters) || r != old(clusters)[uid]) ==> unchanged(r)
    {
      if uid in clusters {
        var mc := clusters[uid];
        mc.Stop();
        clusters := clusters - {uid};
      }
    }
  }

  /** Never two runners for one UID, unless at most one of them has not been told to stop. */
  lemma AtMostOneActive(c: Controller, r: ClusterRunner, q: ClusterRunner)
    requires c.Valid() && r in c.made && q in c.made && r.uid == q.uid && r != q
    ensures r.closes == 1 || q.closes == 1
  {
    assert r.Valid() && q.Valid();
  }

  /** No wake-up of any runner the controller ever made is lost. */
  lemma {:induction false} EveryWakeUpServed(c: Controller, r: ClusterRunner, k: nat)
    requires c.Valid() && r in c.made && k < |r.events| && r.events[k] == Event.Update
    ensures ReadAfter(r.events, k) || ReadDue(r.Now())
  {
    assert r.Valid();
    NoWakeUpLost(FRESH, r.events, k);
  }

  method WakeUp(c: Controller, r: ClusterRunner)
    requires c.Valid() && r in c.made
    modifies c.made
    ensures c.Valid()
  {
    hide Happens, After;
    r.Update();
  }

  method Proceed(c: Controller, r: ClusterRunner)
    requires c.Valid() && r in c.made
    modifies c.made
    ensures c.Valid()
  {
    hide Happens, After;
    var choice: Event := *;
    r.Step(choice);
  }

  /** Anything that can happen, in any order: informer events, the goroutines they start, and the runners' own steps,
      those of stopped runners included. */
  method Interleave(c: Controller, known: seq<ClusterRunner>, n: nat)
    requires c.Valid() && forall i :: 0 <= i < |known| ==> known[i] in c.made
    modifies c, c.made
    ensures c.Valid() && old(c.made) <= c.made && fresh(c.made - old(c.made))
  {
    hide Happens, After;
    var runners, calls := known, [];
    for k := 0 to n
      invariant c.Valid() && old(c.made) <= c.made && fresh(c.made - old(c.made))
      invariant forall i :: 0 <= i < |runners| ==> runners[i] in c.made
      invariant forall i :: 0 <= i < |calls| ==> calls[i] in c.made
    {
      var uid: string := *;
      var i: int := *;
      if * {
        var r := c.UpdateEtcdCluster(uid);
        runners, calls := runners + [r], calls + [r];      // go r.Run() if it is new, go r.Update()
      } else if * {
        c.StopControl(uid);
      } else if * {
        if 0 <= i < |calls| {
          WakeUp(c, calls[i]);
          calls := calls[..i] + calls[i + 1..];
        }
      } else if 0 <= i < |runners| {
        Proceed(c, runners[i]);
      }
    }
  }
}
