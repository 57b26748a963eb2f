/** Which events make a session late: the engine will make its next report only after the
    session has got past its end. */
module TripPunctuality {
  import opened Wrappers
  import opened TripModel
  import opened TripRuns
  import opened TripAccounts
  import opened TripTiming

  /** The session with this id, if there is one, is punctual. */
  ghost predicate PunctualFor(b: Batching, id: nat) {
    forall t :: t in b.trips && t.id == id ==> Punctual(t, b.world)
  }

  lemma InTimeIsAllPunctual(b: Batching)
    ensures InTime(b) <==> forall id :: PunctualFor(b, id)
  {
    if forall id :: PunctualFor(b, id) {
      forall t | t in b.trips
        ensures Punctual(t, b.world)
      {
        assert PunctualFor(b, t.id);
      }
    }
  }

  /** The session among these that is not past its end has less to go than this distance. */
  ghost predicate TooFar(trips: seq<Trip>, id: nat, w: World, distance: U32) {
    exists t :: t in trips && t.id == id && IsTooFar(t, w, distance)
  }

  predicate IsTooFar(t: Trip, w: World, distance: U32) {
    Travelled(w, t.id) <= t.distance < Travelled(w, t.id) + distance
  }

  /** The engine as it is will not report the new session in time. */
  predicate TooLateFor(w: World, distance: U32) {
    !(w.engine.Running? && w.engine.distance <= distance + Counted(w))
  }

  /** The events that make one session late, told from what is there before: the engine is
      started for more than it still has to go; or is not started for one that joins and
      needed it; or is lost. */
  ghost predicate Delays(b: Batching, e: Event, id: nat) {
    match e
    case Travel(_) => false
    case Report(k, ok) =>
      var c := AfterSweep(b, k);
      Swept(b, |b.trips|, k).done != [] && Restarts(c, k, ok) && TooFar(c.trips, id, b.world, AskedDistance(c, k))
    case Join(_, distance, _, queried, captured, ok) =>
      b.trips != [] &&
      if ForcesRestart(b, e) && ok then id != e.id && TooFar(b.trips, id, b.world, Lesser(distance, LeftToCount(b, e)))
      else id == e.id && queried && TooLateFor(b.world, distance)
    case Leave(gone, k, ok) =>
      var c := AfterErase(b, gone);
      Has(b.trips, gone) && Restarts(c, k, ok) && TooFar(c.trips, id, b.world, AskedDistance(c, k))
    case EngineUp(ok) =>
      if ok then TooFar(b.trips, id, b.world, Scanned(b.trips, |b.trips|).distance)
      else exists t :: t in b.trips && t.id == id && Travelled(b.world, t.id) <= t.distance
  }

  // ------------------------------------------------------------------ single events

  lemma TravelKeepsPunctual(b: Batching, far: nat, id: nat)
    requires Ordered(b) && PunctualFor(b, id)
    ensures PunctualFor(Step(b, Travel(far)), id)
  {
    var c := Step(b, Travel(far));
    forall t | t in c.trips && t.id == id
      ensures Punctual(t, c.world)
    {
      assert Joins(t, b.world) && Punctual(t, b.world);
    }
  }

  /** An engine that starts to count anew for this distance. */
  predicate StartedFor(w: World, v: World, distance: U32) {
    CountsAnew(w, v) && v.engine.Running? && v.engine.distance == distance
  }

  lemma StartedIsPunctualIff(t: Trip, u: Trip, w: World, v: World, distance: U32)
    requires StartedFor(w, v, distance) && u.id == t.id && u.distance == t.distance
    ensures Punctual(u, v) <==> !IsTooFar(t, w, distance)
  {
  }

  /** Of sessions that stay, in any order, while the engine starts anew. */
  lemma AllStartedIff(trips: seq<Trip>, n: Batching, w: World, distance: U32, id: nat)
    requires |n.trips| == |trips| && StartedFor(w, n.world, distance)
    requires forall i :: 0 <= i < |trips| ==> n.trips[i].id == trips[i].id && n.trips[i].distance == trips[i].distance
    ensures PunctualFor(n, id) <==> !TooFar(trips, id, w, distance)
  {
    hide Punctual, IsTooFar, StartedFor;
    forall i | 0 <= i < |trips|
      ensures Punctual(n.trips[i], n.world) <==> !IsTooFar(trips[i], w, distance)
    {
      StartedIsPunctualIff(trips[i], n.trips[i], w, n.world, distance);
    }
    assert forall i :: 0 <= i < |trips| ==> trips[i] in trips && n.trips[i] in n.trips;
    if TooFar(trips, id, w, distance) {
      var t :| t in trips && t.id == id && IsTooFar(t, w, distance);
      var i :| 0 <= i < |trips| && trips[i] == t;
      assert !Punctual(n.trips[i], n.world);
    }
  }

  lemma RestartPunctualIff(c: Batching, k: U32, ok: bool, id: nat)
    requires PunctualFor(c, id)
    ensures PunctualFor(Restart(c, k, ok), id) <==>
      !(Restarts(c, k, ok) && TooFar(c.trips, id, c.world, AskedDistance(c, k)))
  {
    hide Restart, Restarts, AskedDistance, Punctual, IsTooFar, Accumulated;
    RestartsOrNot(c, k, ok);
    if Restarts(c, k, ok) {
      RestartedState(c, k);
      AllStartedIff(c.trips, Restart(c, k, ok), c.world, AskedDistance(c, k), id);
    }
  }

  lemma SweepKeepsPunctual(b: Batching, k: U32, id: nat)
    requires PunctualFor(b, id)
    ensures PunctualFor(AfterSweep(b, k), id)
  {
    hide Swept, Punctual;
    forall u | u in AfterSweep(b, k).trips && u.id == id
      ensures Punctual(u, b.world)
    {
      SweepKeeps(b, |b.trips|, k, u);
      var i :| 0 <= i < |b.trips| && u == Refreshed(b.trips[i], k);
      assert b.trips[i] in b.trips;
      RefreshedAlike(b.trips[i], k, b.world);
    }
  }

  lemma LeavePunctualIff(b: Batching, gone: nat, k: U32, ok: bool, id: nat)
    requires Ordered(b) && PunctualFor(b, id)
    ensures PunctualFor(Step(b, Leave(gone, k, ok)), id) <==> !Delays(b, Leave(gone, k, ok), id)
  {
    hide Restart, Restarts, AskedDistance, Punctual, IsTooFar, TooFar;
    var c := AfterErase(b, gone);
    EraseFacts(b.trips, gone);
    RestartPunctualIff(c, k, ok, id);
    if c.trips == [] {
      NoTripsNoRestart(c, k, ok);
      assert c.trips == [] && Has(b.trips, gone) ==> Step(b, Leave(gone, k, ok)).trips == [];
    }
  }

  lemma EngineUpPunctualIff(b: Batching, ok: bool, id: nat)
    requires Ordered(b) && PunctualFor(b, id)
    ensures PunctualFor(Step(b, EngineUp(ok)), id) <==> !Delays(b, EngineUp(ok), id)
  {
    hide Scanned, IsTooFar;
    var n := Step(b, EngineUp(ok));
    if ok && b.trips != [] {
      AllStartedIff(b.trips, n, b.world, Scanned(b.trips, |b.trips|).distance, id);
    } else if b.trips != [] {
      forall t | t in b.trips
        ensures Punctual(t, n.world) <==> !(Travelled(b.world, t.id) <= t.distance)
      {
      }
    }
  }

  /** A session that joins while the engine goes on as it does. */
  lemma JoinedPunctualIff(b: Batching, e: Event, id: nat, n: Batching)
    requires Ordered(b) && PunctualFor(b, id) && e.Join? && !Has(b.trips, e.id)
    requires var j := Joined(b, e.id, e.distance, e.tbf, e.queried, e.captured);
      n.world == j.world && |n.trips| == |j.trips|
      && forall i :: 0 <= i < |j.trips| ==> n.trips[i].id == j.trips[i].id && n.trips[i].distance == j.trips[i].distance
    ensures PunctualFor(n, id) <==> !(id == e.id && e.queried && TooLateFor(b.world, e.distance))
  {
    hide Put;
    var j := Joined(b, e.id, e.distance, e.tbf, e.queried, e.captured);
    NotThereIsRight(b, e.id);
    JoinedIsFairIff(b, e, e.id);
    forall i | 0 <= i < |j.trips| && j.trips[i].id == id
      ensures Punctual(n.trips[i], n.world) <==> !(id == e.id && e.queried && TooLateFor(b.world, e.distance))
    {
      assert j.trips[i] in j.trips;
    }
    forall t | t in j.trips
      ensures exists i :: 0 <= i < |j.trips| && j.trips[i] == t && n.trips[i] in n.trips
    {
      var i :| 0 <= i < |j.trips| && j.trips[i] == t;
    }
  }

  /** A session that joins while the engine starts anew. */
  lemma ForcedPunctualIff(b: Batching, e: Event, id: nat)
    requires Ordered(b) && e.Join? && !Has(b.trips, e.id) && ForcesRestart(b, e) && e.ok
    ensures PunctualFor(Step(b, e), id) <==> !Delays(b, e, id)
  {
    hide Put, NewDistance, IsTooFar, Counted, ForcesRestart;
    var j, n := Joined(b, e.id, e.distance, e.tbf, e.queried, e.captured), Step(b, e);
    var asked := Lesser(e.distance, LeftToCount(b, e));
    ForcedMeans(b, e);
    NewDistanceIs(b, e);
    NotThereIsRight(b, e.id);
    JoinedIsFairIff(b, e, e.id);
    assert StartedFor(j.world, n.world, asked);
    AllStartedIff(j.trips, n, j.world, asked, id);
    ForcedTooFarIff(b, e, id, asked);
  }

  lemma ForcedTooFarIff(b: Batching, e: Event, id: nat, asked: U32)
    requires Ordered(b) && e.Join? && !Has(b.trips, e.id)
    ensures var j := Joined(b, e.id, e.distance, e.tbf, e.queried, e.captured);
      TooFar(j.trips, id, j.world, asked) <==>
        if id == e.id then e.queried && e.distance < asked else TooFar(b.trips, id, b.world, asked)
  {
    hide Put;
    var j, t := Joined(b, e.id, e.distance, e.tbf, e.queried, e.captured), Trip(e.id, e.captured, 0, 0, e.distance, e.tbf);
    NotThereIsRight(b, e.id);
    JoinedIsFairIff(b, e, e.id);
    assert forall u :: u in b.trips ==> Travelled(j.world, u.id) == Travelled(b.world, u.id);
    if e.queried {
      assert Travelled(j.world, e.id) == 0 && t in j.trips;
    }
  }

  lemma JoinPunctualIff(b: Batching, e: Event, id: nat)
    requires Ordered(b) && PunctualFor(b, id) && e.Join? && !Has(b.trips, e.id)
    ensures PunctualFor(Step(b, e), id) <==> !Delays(b, e, id)
  {
    hide PunctualFor, Ordered, Put, NewDistance;
    if b.trips == [] {
      FirstIsPunctual(b, e, id);
    } else if ForcesRestart(b, e) && e.ok {
      ForcedPunctualIff(b, e, id);
    } else {
      NewDistanceIs(b, e);
      JoinedPunctualIff(b, e, id, Step(b, e));
    }
  }

  lemma FirstIsPunctual(b: Batching, e: Event, id: nat)
    requires e.Join? && b.trips == []
    ensures PunctualFor(Step(b, e), id)
  {
  }

  /** Of every event and every session: a session that is punctual goes on so exactly if the
      event does not delay it, whatever the engine reports and the accounts are. */
  lemma StepPunctualIff(b: Batching, e: Event, id: nat)
    requires Ordered(b) && PunctualFor(b, id) && FreshId(b, e)
    ensures PunctualFor(Step(b, e), id) <==> !Delays(b, e, id)
  {
    hide Ordered, PunctualFor, OnLeave, FirstTrip, AnotherTrip, Restarts, Restart, Swept, OnEngineUp, ForcesRestart, AskedDistance, TooFar;
    match e
    case Travel(far) => TravelKeepsPunctual(b, far, id);
    case Report(k, ok) =>
      SweepKeepsPunctual(b, k, id);
      RestartPunctualIff(AfterSweep(b, k), k, ok, id);
    case Join(_, _, _, _, _, _) => JoinPunctualIff(b, e, id);
    case Leave(gone, k, ok) => LeavePunctualIff(b, gone, k, ok, id);
    case EngineUp(ok) => EngineUpPunctualIff(b, ok, id);
  }

  /** A session that joins others is punctual exactly if the engine is started again for it,
      and obeys, or as it runs will report in time. */
  lemma NewcomerIsPunctualIff(b: Batching, e: Event)
    requires Ordered(b) && FreshId(b, e) && e.Join? && e.queried && b.trips != []
    ensures Has(Step(b, e).trips, e.id)
    ensures PunctualFor(Step(b, e), e.id) <==> (ForcesRestart(b, e) && e.ok) || !TooLateFor(b.world, e.distance)
  {
    hide Step, Ordered, ForcesRestart, TooLateFor;
    NobodyIsPunctual(b, e.id);
    StepPunctualIff(b, e, e.id);
    NewcomerIsThere(b, e);
  }

  lemma NobodyIsPunctual(b: Batching, id: nat)
    requires !Has(b.trips, id)
    ensures PunctualFor(b, id)
  {
    HasIsMember(b.trips, id);
  }

  lemma NewcomerIsThere(b: Batching, e: Event)
    requires Ordered(b) && FreshId(b, e) && e.Join? && e.queried && b.trips != []
    ensures Has(Step(b, e).trips, e.id)
  {
    hide Put, NewDistance;
    var t := Trip(e.id, e.captured, 0, 0, e.distance, e.tbf);
    PutFacts(b.trips, t);
    var i :| 0 <= i < |Put(b.trips, t)| && Put(b.trips, t)[i] == t;
    assert Step(b, e).trips[i].id == e.id;
  }

  /** So with an engine that runs for the distance the program holds, has not counted past it,
      is queried and obeys, every session that joins is punctual from the beginning. */
  lemma NewcomerIsPunctual(b: Batching, e: Event)
    requires Ordered(b) && FreshId(b, e) && e.Join? && e.queried && e.ok && Current(b, e.captured) && b.trips != []
    requires b.world.engine.Running? && b.world.engine.distance == b.distance && Counted(b.world) <= b.distance
    ensures PunctualFor(Step(b, e), e.id)
  {
    hide Step, Ordered, PunctualFor;
    NewcomerIsPunctualIff(b, e);
  }

  /** It is started again for a session that is sooner at its end. */
  lemma NearerSessionRestarts()
    ensures var run := [Join(1, 5000, 60, true, 0, true), Join(2, 1000, 60, true, 0, true)];
      At(run, 1).world.engine == Running(5000, 60) && At(run, 2).world.engine == Running(1000, 60)
  {
    var run := [Join(1, 5000, 60, true, 0, true), Join(2, 1000, 60, true, 0, true)];
    assert At(run, 0) == INITIAL;
    assert At(run, 1) == Batching([Trip(1, 0, 0, 0, 5000, 60)], 5000, 60, false, false, World(0, 0, map[1 := 0], Running(5000, 60)));
    JoinAsks(At(run, 1), run[1]);
  }

  // ------------------------------------------------------------------ runs

  /** After the first i events of a run the session is punctual. */
  ghost predicate PunctualAt(run: seq<Event>, i: nat, id: nat)
    requires i <= |run|
  {
    PunctualFor(At(run, i), id)
  }

  /** The next event delays it. */
  ghost predicate DelaysAt(run: seq<Event>, i: nat, id: nat)
    requires i < |run|
  {
    Delays(At(run, i), run[i], id)
  }

  lemma {:induction false} EveryRunIsPunctualIf(run: seq<Event>, n: nat, id: nat)
    requires n <= |run| && (forall i :: 0 <= i < n ==> FreshId(At(run, i), run[i])) && forall i: nat :: i < n ==> !DelaysAt(run, i, id)
    ensures PunctualAt(run, n, id)
  {
    hide Step, Delays, PunctualFor, Ordered, FreshId;
    if n == 0 {
      NobodyIsLate(INITIAL);
      InTimeIsAllPunctual(INITIAL);
    } else {
      assert At(run, n) == Step(At(run, n - 1), run[n - 1]) && !DelaysAt(run, n - 1, id);
      EveryRunIsPunctualIf(run, n - 1, id);
      EveryRunIsOrdered(run, n - 1);
      StepPunctualIff(At(run, n - 1), run[n - 1], id);
    }
  }

  /** On every run, whatever becomes of the others: one session is punctual at any time up to
      an event exactly if no event before delays it. */
  lemma EveryRunIsPunctualIff(run: seq<Event>, n: nat, id: nat)
    requires n <= |run| && forall i :: 0 <= i < n ==> FreshId(At(run, i), run[i])
    ensures (forall i: nat :: i <= n ==> PunctualAt(run, i, id)) <==>
            forall i: nat :: i < n ==> !DelaysAt(run, i, id)
  {
    hide Step, Delays, PunctualFor, Ordered, FreshId;
    if forall i: nat :: i < n ==> !DelaysAt(run, i, id) {
      forall i: nat | i <= n
        ensures PunctualAt(run, i, id)
      {
        EveryRunIsPunctualIf(run, i, id);
      }
    }
    if forall i: nat :: i <= n ==> PunctualAt(run, i, id) {
      forall i: nat | i < n
        ensures !DelaysAt(run, i, id)
      {
        assert PunctualAt(run, i, id) && PunctualAt(run, i + 1, id);
        EveryRunIsOrdered(run, i);
        StepPunctualIff(At(run, i), run[i], id);
      }
    }
  }

  // ------------------------------------------------------------------ runs that make a session late

  const REPORT_RUN := [
    Join(1, 1000, 120, true, 0, true), Travel(400), Report(400, true), Join(2, 5000, 60, true, 400, true),
    Join(3, 800, 200, true, 0, true), Travel(100), Leave(2, 100, true), Travel(500), Report(500, true)]

  /** A stop has the engine count to the same distance again; the report that completes the
      trip this delays starts it once more for the interval alone, and still for that
      distance: three times what the third session has to go. */
  lemma ReportMakesLate()
    ensures var b, n := At(REPORT_RUN, 8), At(REPORT_RUN, 9);
      && Law(b) && NoWrap(b) && n == Step(b, Report(Counter(b.world), true))
      && PunctualFor(b, 3) && !PunctualFor(n, 3) && !AsksForNearest(n)
  {
    hide Step, AsksForNearest;
    var run := REPORT_RUN;
    assert At(run, 0) == INITIAL;
    OneOnTheWay();
    assert At(run, 3) == OnTheWay() by {
      assert At(run, 2) == Step(Step(INITIAL, run[0]), run[1]);
    }
    QuickerJoins();
    assert At(run, 4) == WithQuicker();
    ThirdJoins();
    assert At(run, 6) == Step(Step(WithQuicker(), run[4]), run[5]);
    QuickerLeaves();
    assert At(run, 8) == Step(Step(WithThird(), run[6]), run[7]);
    FirstCompletes();
    assert At(run, 9) == Step(Arrived(), run[8]);
    ThirdIsLate();
  }

  function OnTheWay(): Batching {
    Batching([Trip(1, 0, 400, 0, 1000, 120)], 1000, 120, false, false, World(400, 0, map[1 := 0], Running(1000, 120)))
  }

  function WithQuicker(): Batching {
    Batching([Trip(1, 0, 400, 400, 1000, 120), Trip(2, 0, 0, 0, 5000, 60)], 600, 60, false, false,
             World(400, 400, map[1 := 0, 2 := 400], Running(600, 60)))
  }

  function WithThird(): Batching {
    Batching([Trip(1, 0, 400, 400, 1000, 120), Trip(2, 0, 0, 0, 5000, 60), Trip(3, 0, 0, 0, 800, 200)], 600, 60, false, false,
             World(500, 400, map[1 := 0, 2 := 400, 3 := 400], Running(600, 60)))
  }

  function Arrived(): Batching {
    Batching([Trip(1, 0, 500, 500, 1000, 120), Trip(3, 0, 100, 100, 800, 200)], 600, 120, true, false,
             World(1000, 500, map[1 := 0, 2 := 400, 3 := 400], Running(600, 120)))
  }

  function ThirdAlone(): Batching {
    Batching([Trip(3, 0, 600, 600, 800, 200)], 600, 200, true, false,
             World(1000, 1000, map[1 := 0, 2 := 400, 3 := 400], Running(600, 200)))
  }

  lemma OneOnTheWay()
    ensures Step(Step(Step(INITIAL, Join(1, 1000, 120, true, 0, true)), Travel(400)), Report(400, true)) == OnTheWay()
  {
    var b := Step(Step(INITIAL, Join(1, 1000, 120, true, 0, true)), Travel(400));
    assert Swept(b, 0, 400) == Sweep([], [], false, false);
    assert Swept(b, 1, 400) == Sweep([Trip(1, 0, 400, 0, 1000, 120)], [], false, false);
  }

  lemma QuickerJoins()
    ensures Step(OnTheWay(), Join(2, 5000, 60, true, 400, true)) == WithQuicker()
  {
    var b, z := OnTheWay(), Trip(2, 400, 0, 0, 5000, 60);
    assert b.trips[1..] == [] && Put([], z) == [z];
    assert Put(b.trips, z) == [b.trips[0], z];
    var n := Step(b, Join(2, 5000, 60, true, 400, true));
    assert n.trips == [RebasedStale(b.trips[0]), RebasedStale(z)];
  }

  lemma ThirdJoins()
    ensures Step(Step(WithQuicker(), Join(3, 800, 200, true, 0, true)), Travel(100)) == WithThird()
  {
    var b, y := WithQuicker(), Trip(3, 0, 0, 0, 800, 200);
    assert b.trips[1..] == [b.trips[1]] && [b.trips[1]][1..] == [];
    assert Put([], y) == [y] && Put([b.trips[1]], y) == [b.trips[1], y];
    assert Put(b.trips, y) == [b.trips[0], b.trips[1], y];
  }

  lemma QuickerLeaves()
    ensures Step(Step(WithThird(), Leave(2, 100, true)), Travel(500)) == Arrived()
  {
    hide Swept, Find, Erase;
    var b := WithThird();
    EraseSecond(b);
    var c := AfterErase(b, 2);
    var a, y := b.trips[0], b.trips[2];
    assert c.trips == [a, y];
    assert Scanned(c.trips, 0) == Scan(0, 0) && Scanned(c.trips, 1) == Scan(600, 120);
    assert Scanned(c.trips, 2) == Scan(600, 120);
    var n := Restart(c, 100, true);
    assert n.trips == [Rebased(a, 100), Rebased(y, 100)];
    assert Step(b, Leave(2, 100, true)) == n;
  }

  lemma EraseSecond(b: Batching)
    requires |b.trips| == 3 && b.trips[0].id == 1 && b.trips[1].id == 2 && b.trips[2].id == 3
    ensures Erase(b.trips, 2) == [b.trips[0], b.trips[2]] && Find(b.trips, 2) == Some(b.trips[1])
  {
    var a, z, y := b.trips[0], b.trips[1], b.trips[2];
    assert b.trips[1..] == [z, y] && [z, y][1..] == [y] && [y][1..] == [];
    assert Erase([], 2) == [] && Erase([y], 2) == [y] && Erase([z, y], 2) == [y];
    assert Find([z, y], 2) == Some(z);
  }

  lemma FirstCompletes()
    ensures Step(Arrived(), Report(500, true)) == ThirdAlone()
  {
    var b := Arrived();
    assert Swept(b, 0, 500) == Sweep([], [], true, false);
    assert Swept(b, 1, 500) == Sweep([], [1], true, false);
    var y := Trip(3, 0, 600, 100, 800, 200);
    assert Swept(b, 2, 500) == Sweep([y], [1], true, false);
    var c := AfterSweep(b, 500);
    assert Scanned(c.trips, 0) == Scan(0, 0) && Scanned(c.trips, 1) == Scan(200, 200);
    var n := Restart(c, 500, true);
    assert n.trips == [Rebased(y, 500)];
  }

  lemma ThirdIsLate()
    ensures Law(Arrived()) && NoWrap(Arrived()) && Counter(Arrived().world) == 500
    ensures PunctualFor(Arrived(), 3) && !PunctualFor(ThirdAlone(), 3) && !AsksForNearest(ThirdAlone())
  {
    var n := ThirdAlone();
    assert n.trips[0] in n.trips && ToGo(n, 0) == 200;
  }

  /** The engine comes up anew, and is asked for what the session had to go when its distance
      was brought up to date last: it is late, and what the engine had counted is lost. */
  lemma EngineUpMakesLate()
    ensures var run := [Join(1, 1000, 60, true, 0, true), Travel(100), EngineUp(true)];
      && Law(At(run, 2)) && PunctualFor(At(run, 2), 1)
      && !RightFor(At(run, 3), 1) && !PunctualFor(At(run, 3), 1)
  {
    var run := [Join(1, 1000, 60, true, 0, true), Travel(100), EngineUp(true)];
    OneTrip(run);
    var t := Trip(1, 0, 0, 0, 1000, 60);
    assert Scanned([t], 0) == Scan(0, 0) && Scanned([t], 1) == Scan(1000, 60);
    assert At(run, 3) == Batching([t], 1000, 60, false, false, World(100, 100, map[1 := 0], Running(1000, 60)));
    assert At(run, 3).trips[0] == t;
  }

  /** The engine refuses to start for a session with less to go, which is late from the
      beginning. */
  lemma RefusedJoinIsLate()
    ensures var run := [Join(1, 2000, 60, true, 0, true), Join(2, 1000, 60, true, 0, false)];
      PunctualFor(At(run, 1), 2) && !PunctualFor(At(run, 2), 2)
  {
    var run := [Join(1, 2000, 60, true, 0, true), Join(2, 1000, 60, true, 0, false)];
    assert At(run, 0) == INITIAL;
    var b1 := At(run, 1);
    assert b1 == Batching([Trip(1, 0, 0, 0, 2000, 60)], 2000, 60, false, false, World(0, 0, map[1 := 0], Running(2000, 60)));
    var z := Trip(2, 0, 0, 0, 1000, 60);
    assert b1.trips[1..] == [] && Put([], z) == [z] && Put(b1.trips, z) == [b1.trips[0], z];
    assert At(run, 2).trips[1] == z;
  }
}
