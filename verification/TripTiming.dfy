/** When the engine reports, and how often: what the sessions get of what they ask for. */
module TripTiming {
  import opened Wrappers
  import opened TripModel
  import opened TripRuns

  // ------------------------------------------------------------------ the scan

  /** The least of the first n numbers, as a scan finds it for which 0 is nothing yet. */
  function Scan0(xs: seq<nat>, n: nat): nat
    requires n <= |xs|
  {
    if n == 0 then 0
    else
      var r := Scan0(xs, n - 1);
      if r == 0 || r > xs[n - 1] then xs[n - 1] else r
  }

  ghost predicate IsLeast(x: nat, xs: seq<nat>) {
    x in xs && forall y :: y in xs ==> x <= y
  }

  lemma {:induction false} ScanPositive(xs: seq<nat>, n: nat)
    requires 0 < n <= |xs| && forall i :: 0 <= i < n ==> xs[i] > 0
    ensures var r := Scan0(xs, n);
      r > 0 && (exists i :: 0 <= i < n && xs[i] == r) && forall i :: 0 <= i < n ==> r <= xs[i]
  {
    if n > 1 {
      ScanPositive(xs, n - 1);
    }
  }

  /** The scan comes back empty-handed exactly from a list that ends in 0. */
  lemma ScanIsZeroIff(xs: seq<nat>)
    requires xs != []
    ensures Scan0(xs, |xs|) == 0 <==> xs[|xs| - 1] == 0
  {
  }

  /** The scan finds the least number if and only if there is no 0, or there is one at the
      end. */
  lemma ScanIsLeastIff(xs: seq<nat>)
    requires xs != []
    ensures IsLeast(Scan0(xs, |xs|), xs) <==> 0 !in xs || xs[|xs| - 1] == 0
  {
    ScanIsZeroIff(xs);
    if 0 !in xs {
      ScanPositive(xs, |xs|);
    }
  }

  function Remainings(trips: seq<Trip>): seq<nat> {
    seq(|trips|, i requires 0 <= i < |trips| => Remaining(trips[i]))
  }

  function Intervals(trips: seq<Trip>): seq<nat> {
    seq(|trips|, i requires 0 <= i < |trips| => trips[i].tbf)
  }

  lemma {:induction false} ScannedIsScan0(trips: seq<Trip>, n: nat)
    requires n <= |trips|
    ensures Scanned(trips, n) == Scan(Scan0(Remainings(trips), n), Scan0(Intervals(trips), n))
  {
    hide Remaining;
    if n > 0 {
      ScannedIsScan0(trips, n - 1);
    }
  }

  /** The loop over the sessions finds the smallest remaining distance if and only if no
      session has come exactly to its end, or the last one has. */
  lemma NearestIsLeastIff(trips: seq<Trip>)
    requires trips != []
    ensures IsLeast(Scanned(trips, |trips|).distance, Remainings(trips)) <==>
      (forall t :: t in trips ==> Remaining(t) > 0) || Remaining(trips[|trips| - 1]) == 0
  {
    hide Remaining, Scanned;
    ScannedIsScan0(trips, |trips|);
    ScanIsLeastIff(Remainings(trips));
    assert forall i :: 0 <= i < |trips| ==> trips[i] in trips && Remainings(trips)[i] in Remainings(trips);
  }

  /** And the smallest interval if and only if no session asks for 0, or the last one does. */
  lemma QuickestIsLeastIff(trips: seq<Trip>)
    requires trips != []
    ensures IsLeast(Scanned(trips, |trips|).tbf, Intervals(trips)) <==>
      (forall t :: t in trips ==> t.tbf > 0) || trips[|trips| - 1].tbf == 0
  {
    hide Remaining, Scanned;
    ScannedIsScan0(trips, |trips|);
    ScanIsLeastIff(Intervals(trips));
    assert forall i :: 0 <= i < |trips| ==> trips[i] in trips && Intervals(trips)[i] in Intervals(trips);
  }

  // ------------------------------------------------------------------ reporting in time

  /** What the engine has counted since it last started, in full. */
  function Counted(w: World): nat {
    if w.started <= w.odometer then w.odometer - w.started else 0
  }

  /** Unless the session is past its end already, the engine will have counted what it was
      asked for before it gets there. */
  predicate Punctual(t: Trip, w: World) {
    Travelled(w, t.id) <= t.distance ==>
      w.engine.Running? && Travelled(w, t.id) + w.engine.distance <= t.distance + Counted(w)
  }

  ghost predicate InTime(b: Batching) {
    forall t :: t in b.trips ==> Punctual(t, b.world)
  }

  /** What a restart has the engine count to. */
  function AskedDistance(c: Batching, captured: U32): U32 {
    if Nearer(c, captured) then Scanned(c.trips, |c.trips|).distance else c.distance
  }

  lemma RestartedState(c: Batching, captured: U32)
    requires Restarts(c, captured, true)
    ensures var n := Restart(c, captured, true);
      && |n.trips| == |c.trips|
      && (forall i :: 0 <= i < |c.trips| ==> n.trips[i] == Rebased(c.trips[i], captured))
      && n.world.engine.Running? && n.world.engine.distance == n.distance == AskedDistance(c, captured)
      && n.world.engine.tbf == n.tbf
      && CountsAnew(c.world, n.world) && Counted(n.world) == 0
  {
    hide Accumulated, Scanned;
  }

  /** A restart of the engine is in time exactly if what it is asked for is no more than any
      unfinished session still has to go. */
  lemma RestartInTimeIff(c: Batching)
    requires Law(c) && NoWrap(c) && Restarts(c, Counter(c.world), true)
    ensures var k := Counter(c.world);
      InTime(Restart(c, k, true)) <==>
        forall t :: t in c.trips && Accumulated(t, k) <= t.distance ==>
          Accumulated(t, k) + AskedDistance(c, k) <= t.distance
  {
    hide Accumulated, Scanned, Restart, Restarts, AskedDistance, Law, NoWrap;
    var k := Counter(c.world);
    var n := Restart(c, k, true);
    RestartedState(c, k);
    forall i | 0 <= i < |c.trips|
      ensures Accumulated(c.trips[i], k) == Travelled(n.world, n.trips[i].id)
      ensures n.trips[i].distance == c.trips[i].distance
    {
      TrueOf(c, c.trips[i]);
    }
    InTimeAt(n);
    assert forall i :: 0 <= i < |c.trips| ==> c.trips[i] in c.trips;
  }

  lemma TrueOf(b: Batching, t: Trip)
    requires Law(b) && NoWrap(b) && t in b.trips
    ensures Accumulated(t, Counter(b.world)) == Travelled(b.world, t.id)
  {
    TrueDistance(t, b.world);
  }

  /** In time, by places in the list. */
  lemma InTimeAt(b: Batching)
    ensures InTime(b) <==> forall i :: 0 <= i < |b.trips| ==> Punctual(b.trips[i], b.world)
  {
    assert forall i :: 0 <= i < |b.trips| ==> b.trips[i] in b.trips;
  }

  /** A stop is in time exactly if, starting the engine again, it asks for no more than any
      unfinished session still has to go; not starting it, if it was so for all others
      before. */
  lemma LeaveInTimeIff(b: Batching, id: nat, ok: bool)
    requires Law(b) && NoWrap(b) && Has(b.trips, id)
    ensures var k, c := Counter(b.world), AfterErase(b, id);
      InTime(Step(b, Leave(id, k, ok))) <==>
        if Restarts(c, k, ok) then
          forall t :: t in c.trips && Accumulated(t, k) <= t.distance ==>
            Accumulated(t, k) + AskedDistance(c, k) <= t.distance
        else forall t :: t in b.trips && t.id != id ==> Punctual(t, b.world)
  {
    hide Accumulated, Restart, Restarts, AskedDistance, InTime, Punctual;
    var k, c := Counter(b.world), AfterErase(b, id);
    EraseKeepsLaw(b, id);
    EraseFacts(b.trips, id) by {
      LawIsSorted(b);
    }
    LawOfWorld(b.(trips := Erase(b.trips, id)), c);
    RestartsOrNot(c, k, ok);
    OthersInTimeIff(b, id);
    if Restarts(c, k, ok) {
      RestartInTimeIff(c);
    } else if c.trips == [] {
      NobodyIsLate(c);
      NobodyIsLate(Step(b, Leave(id, k, ok)));
    }
  }

  lemma NobodyIsLate(b: Batching)
    requires b.trips == []
    ensures InTime(b)
  {
  }

  /** The law is about sessions and the world alone. */
  lemma LawOfWorld(b: Batching, c: Batching)
    requires Law(b) && c.trips == b.trips && c.world == b.world
    ensures Law(c) && (NoWrap(b) ==> NoWrap(c))
  {
  }

  lemma RestartsOrNot(c: Batching, k: U32, ok: bool)
    ensures Restarts(c, k, ok) ==> ok && Restarts(c, k, true) && c.trips != []
    ensures c.trips != [] && !Restarts(c, k, ok) ==> Restart(c, k, ok) == c
    ensures c.trips == [] ==> Restart(c, k, ok).trips == []
  {
  }

  /** A session taken out makes nobody late, and nobody punctual. */
  lemma OthersInTimeIff(b: Batching, id: nat)
    requires Sorted(b.trips)
    ensures InTime(AfterErase(b, id)) <==> forall t :: t in b.trips && t.id != id ==> Punctual(t, b.world)
  {
    hide Punctual;
    EraseFacts(b.trips, id);
    if !Has(b.trips, id) {
      assert forall t :: t in b.trips ==> t.id != id by {
        forall t | t in b.trips
          ensures t.id != id
        {
          HasMember(b.trips, t);
        }
      }
    }
  }

  // ------------------------------------------------------------------ reports

  /** Every session's distance is up to date, and it still has some way to go. */
  ghost predicate UpToDate(c: Batching, k: U32) {
    forall t :: t in c.trips ==> t.thisTrip == Accumulated(t, k) == Travelled(c.world, t.id) < t.distance
  }

  lemma SweptIsUpToDate(b: Batching)
    requires Law(b) && NoWrap(b)
    ensures var c := AfterSweep(b, Counter(b.world)); Law(c) && NoWrap(c) && UpToDate(c, Counter(b.world))
  {
    hide Law, Accumulated, Swept;
    var k := Counter(b.world);
    var c := AfterSweep(b, k);
    SweepKeepsLaw(b, k);
    forall t | t in c.trips
      ensures Travelled(c.world, t.id) < WRAP && t.thisTrip == Accumulated(t, k) == Travelled(c.world, t.id) < t.distance
    {
      SweepKeeps(b, |b.trips|, k, t);
      RefreshedAgain(b, k, t);
      var i :| 0 <= i < |b.trips| && t == Refreshed(b.trips[i], k);
      TrueOf(b, b.trips[i]);
    }
  }

  lemma RefreshedAgain(b: Batching, k: U32, t: Trip)
    requires Continues(b, |b.trips|, k, t)
    ensures t.thisTrip == Accumulated(t, k)
  {
    var i :| 0 <= i < |b.trips| && t == Refreshed(b.trips[i], k);
  }

  /** Nobody's end is closer than the nearest, and somebody's is there. */
  lemma NearestOf(c: Batching, k: U32)
    requires UpToDate(c, k) && c.trips != []
    ensures var d := Scanned(c.trips, |c.trips|).distance;
      && d > 0
      && (forall t :: t in c.trips ==> t.thisTrip + d <= t.distance)
      && (exists t :: t in c.trips && t.thisTrip + d == t.distance)
  {
    hide Scanned, Accumulated;
    var d := Scanned(c.trips, |c.trips|).distance;
    assert forall t :: t in c.trips ==> Remaining(t) == t.distance - t.thisTrip;
    NearestIsLeastIff(c.trips);
    var rs := Remainings(c.trips);
    assert d in rs;
    var i :| 0 <= i < |rs| && rs[i] == d;
    assert c.trips[i] in c.trips;
    forall t | t in c.trips
      ensures d <= Remaining(t)
    {
      var j :| 0 <= j < |c.trips| && c.trips[j] == t;
      assert rs[j] in rs;
    }
  }

  /** A report that completes trips is in time exactly if, starting the engine again, it
      counts distances anew, or keeps one that is no more than the nearest end; not starting
      it, if it was so for the unfinished before. */
  lemma ReportInTimeIff(b: Batching, ok: bool)
    requires Law(b) && NoWrap(b) && Swept(b, |b.trips|, Counter(b.world)).done != []
    ensures var k := Counter(b.world);
      var c := AfterSweep(b, k);
      InTime(Step(b, Report(k, ok))) <==>
        if Restarts(c, k, ok) then Nearer(c, k) || c.distance <= Scanned(c.trips, |c.trips|).distance
        else forall t :: t in b.trips && Travelled(b.world, t.id) < t.distance ==> Punctual(t, b.world)
  {
    hide Accumulated, Restart, Restarts, InTime, Law, NoWrap, Swept, Scanned, Nearer, Punctual, Travelled;
    var k := Counter(b.world);
    var c := AfterSweep(b, k);
    SweptIsUpToDate(b);
    RestartsOrNot(c, k, ok);
    UnfinishedInTimeIff(b);
    if Restarts(c, k, ok) {
      RestartInTimeIff(c);
      NearestOf(c, k);
    } else if c.trips == [] {
      NobodyIsLate(c);
      NobodyIsLate(Step(b, Report(k, ok)));
    }
  }

  /** The report itself leaves the unfinished, as punctual as they were. */
  lemma UnfinishedInTimeIff(b: Batching)
    requires Law(b) && NoWrap(b)
    ensures InTime(AfterSweep(b, Counter(b.world))) <==>
      forall t :: t in b.trips && Travelled(b.world, t.id) < t.distance ==> Punctual(t, b.world)
  {
    hide Accumulated, Law, NoWrap, Swept, Travelled, Punctual;
    var k, n := Counter(b.world), |b.trips|;
    var c := AfterSweep(b, k);
    SweptIsUpToDate(b);
    forall u | u in c.trips
      ensures exists t :: t in b.trips && Travelled(b.world, t.id) < t.distance && (Punctual(t, b.world) <==> Punctual(u, b.world))
    {
      SweepKeeps(b, n, k, u);
      var i :| 0 <= i < n && u == Refreshed(b.trips[i], k);
      assert b.trips[i] in b.trips;
      RefreshedAlike(b.trips[i], k, b.world);
    }
    forall t | t in b.trips && Travelled(b.world, t.id) < t.distance
      ensures Refreshed(t, k) in c.trips && (Punctual(t, b.world) <==> Punctual(Refreshed(t, k), b.world))
    {
      TrueOf(b, t);
      SweepKeeps(b, n, k, Refreshed(t, k));
      RefreshedAlike(t, k, b.world);
    }
  }

  lemma RefreshedAlike(t: Trip, k: U32, w: World)
    ensures Punctual(t, w) <==> Punctual(Refreshed(t, k), w)
  {
  }

  /** How far the i-th session still has to go. */
  function ToGo(b: Batching, i: nat): int
    requires i < |b.trips|
  {
    b.trips[i].distance - Travelled(b.world, b.trips[i].id)
  }

  /** The engine, just started, will make its next report exactly when the first session
      gets to its end. */
  ghost predicate AsksForNearest(b: Batching) {
    && b.world.engine.Running? && Counted(b.world) == 0
    && (forall i :: 0 <= i < |b.trips| ==> ToGo(b, i) >= b.world.engine.distance)
    && (exists i :: 0 <= i < |b.trips| && ToGo(b, i) == b.world.engine.distance)
  }

  /** A report that starts the engine again has it count to the end nearest exactly if it
      counts distances anew, or the distance it keeps happens to be that. */
  lemma ReportAsksForNearestIff(b: Batching)
    requires Law(b) && NoWrap(b) && Swept(b, |b.trips|, Counter(b.world)).done != []
    requires Restarts(AfterSweep(b, Counter(b.world)), Counter(b.world), true)
    ensures var k := Counter(b.world);
      var c := AfterSweep(b, k);
      AsksForNearest(Step(b, Report(k, true))) <==>
        Nearer(c, k) || c.distance == Scanned(c.trips, |c.trips|).distance
  {
    hide Accumulated, Restart, Restarts, Law, NoWrap, Swept, Scanned, Nearer, Travelled;
    var k := Counter(b.world);
    var c := AfterSweep(b, k);
    var n := Step(b, Report(k, true));
    SweptIsUpToDate(b);
    RestartsOrNot(c, k, true);
    RestartedState(c, k);
    NearestOf(c, k);
    var d := Scanned(c.trips, |c.trips|).distance;
    forall i | 0 <= i < |c.trips|
      ensures ToGo(n, i) == c.trips[i].distance - c.trips[i].thisTrip >= d
    {
      assert c.trips[i] in c.trips && n.trips[i] == Rebased(c.trips[i], k);
      SameTravelled(c.world, n.world, c.trips[i].id);
    }
    var t :| t in c.trips && t.thisTrip + d == t.distance;
    var i :| 0 <= i < |c.trips| && c.trips[i] == t;
    assert ToGo(n, i) == d;
  }

  lemma SameTravelled(w: World, v: World, id: nat)
    requires CountsAnew(w, v)
    ensures Travelled(v, id) == Travelled(w, id)
  {
  }

  /** What makes a restart count distances anew: the distance asked for is reached, its
      session is gone, or somebody's end is nearer. */
  lemma NearerIff(c: Batching, k: U32)
    requires UpToDate(c, k) && c.trips != []
    ensures Nearer(c, k) <==>
      c.distanceDropped || k == c.distance || Scanned(c.trips, |c.trips|).distance < Minus(c.distance, k)
  {
    hide Scanned, Accumulated;
    NearestOf(c, k);
  }

  // ------------------------------------------------------------------ late reports

  /** The last event of a run, which keeps the law throughout, makes somebody late. */
  ghost predicate MakesLate(run: seq<Event>) {
    && run != []
    && (forall i :: 0 <= i < |run| ==> FreshId(At(run, i), run[i]) && Faithful(At(run, i), run[i]))
    && InTime(At(run, |run| - 1)) && !InTime(At(run, |run|))
  }

  /** Two sessions and some way: as the engine was started for the nearer or the quicker. */
  lemma TwoTrips(run: seq<Event>, d1: U32, t1: U32, d2: U32, t2: U32, far: U32)
    requires |run| >= 3 && run[0] == Join(1, d1, t1, true, 0, true) && run[1] == Join(2, d2, t2, true, 0, true)
    requires run[2] == Travel(far) && far <= d1 <= d2
    ensures var tbf := if t2 < t1 then t2 else t1;
      At(run, 3) == Batching([Trip(1, 0, 0, 0, d1, t1), Trip(2, 0, 0, 0, d2, t2)], d1, tbf, false, false,
                             World(far, 0, map[1 := 0, 2 := 0], Running(d1, tbf)))
    ensures forall i :: 0 <= i < 3 ==> FreshId(At(run, i), run[i]) && Faithful(At(run, i), run[i])
    ensures InTime(At(run, 3))
  {
    var a, z := Trip(1, 0, 0, 0, d1, t1), Trip(2, 0, 0, 0, d2, t2);
    var tbf := if t2 < t1 then t2 else t1;
    assert At(run, 0) == INITIAL;
    var b1 := At(run, 1);
    assert b1 == Batching([a], d1, t1, false, false, World(0, 0, map[1 := 0], Running(d1, t1)));
    SecondJoin(b1, run[1], d1, t1);
    var b2 := At(run, 2);
    assert b2 == Batching([a, z], d1, tbf, false, false, World(0, 0, map[1 := 0, 2 := 0], Running(d1, tbf)));
  }

  lemma SecondJoin(b: Batching, e: Event, d1: U32, t1: U32)
    requires e.Join? && e.id == 2 && e.queried && e.captured == 0 && e.ok && d1 <= e.distance
    requires b == Batching([Trip(1, 0, 0, 0, d1, t1)], d1, t1, false, false, World(0, 0, map[1 := 0], Running(d1, t1)))
    ensures var tbf := if e.tbf < t1 then e.tbf else t1;
      Step(b, e) == Batching([b.trips[0], Trip(2, 0, 0, 0, e.distance, e.tbf)], d1, tbf, false, false,
                             World(0, 0, map[1 := 0, 2 := 0], Running(d1, tbf)))
    ensures FreshId(b, e) && Faithful(b, e)
  {
    var z := Trip(2, 0, 0, 0, e.distance, e.tbf);
    assert b.trips[1..] == [] && Put([], z) == [z];
    assert Put(b.trips, z) == [b.trips[0], z];
    var n := Step(b, e);
    assert n.trips == [b.trips[0], z];
  }

  /** A stop starts the engine again for a distance that is not up to date: what the other
      session had to go when the engine was started last. */
  lemma StaleStopIsLate()
    ensures exists run: seq<Event> :: MakesLate(run)
  {
    hide Step, InTime, Faithful, FreshId;
    var run := [Join(1, 600, 60, true, 0, true), Join(2, 1000, 60, true, 0, true), Travel(500), Leave(1, 500, true)];
    TwoTrips(run, 600, 60, 1000, 60, 500);
    StaleStop(At(run, 3));
    assert MakesLate(run);
  }

  lemma StaleStop(b: Batching)
    requires b == Batching([Trip(1, 0, 0, 0, 600, 60), Trip(2, 0, 0, 0, 1000, 60)], 600, 60, false, false,
                           World(500, 0, map[1 := 0, 2 := 0], Running(600, 60)))
    ensures var e := Leave(1, 500, true); FreshId(b, e) && Faithful(b, e) && !InTime(Step(b, e))
  {
    hide Swept, Find, Erase, Scanned, Accumulated;
    var z := Trip(2, 0, 0, 0, 1000, 60);
    LeaveOfTwo(b, 1, 500, z);
    var n := Step(b, Leave(1, 500, true));
    assert n.trips == [Rebased(z, 500)];
    assert n.trips[0] in n.trips;
  }

  /** A stop starts the engine again for the interval alone, and has it count to the same
      distance from zero, though all distances are up to date. */
  lemma QuickStopIsLate()
    ensures exists run: seq<Event> :: MakesLate(run) && UpToDateBeforeLast(run)
  {
    hide Step, InTime, Faithful, FreshId, UpToDate;
    var run := [Join(1, 1000, 120, true, 0, true), Join(2, 5000, 60, true, 0, true), Travel(300), Report(300, true),
                Leave(2, 300, true)];
    TwoTrips(run, 1000, 120, 5000, 60, 300);
    ReportOnTheWay(At(run, 3));
    QuickStop(At(run, 4));
    assert MakesLate(run) && UpToDateBeforeLast(run);
  }

  /** Before its last event all distances were up to date. */
  ghost predicate UpToDateBeforeLast(run: seq<Event>) {
    run != [] && var b := At(run, |run| - 1); UpToDate(b, Counter(b.world))
  }

  lemma ReportOnTheWay(b: Batching)
    requires b == Batching([Trip(1, 0, 0, 0, 1000, 120), Trip(2, 0, 0, 0, 5000, 60)], 1000, 60, false, false,
                           World(300, 0, map[1 := 0, 2 := 0], Running(1000, 60)))
    ensures var e := Report(300, true);
      FreshId(b, e) && Faithful(b, e)
      && Step(b, e) == b.(trips := [Trip(1, 0, 300, 0, 1000, 120), Trip(2, 0, 300, 0, 5000, 60)])
  {
    assert Swept(b, 0, 300) == Sweep([], [], false, false);
    assert Swept(b, 1, 300) == Sweep([Trip(1, 0, 300, 0, 1000, 120)], [], false, false);
    assert Swept(b, 2, 300).kept == [Trip(1, 0, 300, 0, 1000, 120), Trip(2, 0, 300, 0, 5000, 60)];
  }

  lemma QuickStop(b: Batching)
    requires b == Batching([Trip(1, 0, 300, 0, 1000, 120), Trip(2, 0, 300, 0, 5000, 60)], 1000, 60, false, false,
                           World(300, 0, map[1 := 0, 2 := 0], Running(1000, 60)))
    ensures var e := Leave(2, 300, true);
      FreshId(b, e) && Faithful(b, e) && InTime(b) && UpToDate(b, Counter(b.world)) && !InTime(Step(b, e))
  {
    hide Swept, Find, Erase, Scanned;
    var a := Trip(1, 0, 300, 0, 1000, 120);
    LeaveOfTwo(b, 2, 300, a);
    var n := Step(b, Leave(2, 300, true));
    assert n.trips == [Rebased(a, 300)];
    assert n.trips[0] in n.trips;
  }

  /** One of two sessions stops. */
  lemma LeaveOfTwo(b: Batching, id: nat, k: U32, left: Trip)
    requires |b.trips| == 2 && b.trips[0].id == 1 && b.trips[1].id == 2 && 1 <= id <= 2
    requires left == b.trips[2 - id]
    ensures var c := AfterErase(b, id);
      && c.trips == [left] && Scanned(c.trips, 1) == Scan(Remaining(left), left.tbf)
      && c.distance == b.distance && c.tbf == b.tbf && c.world == b.world
      && c.distanceDropped == (b.distanceDropped || b.trips[id - 1].distance == b.distance)
      && c.tbfDropped == (b.tbfDropped || b.trips[id - 1].tbf == b.tbf)
      && OnLeave(b, id, k, true) == Restart(c, k, true)
      && Has(b.trips, id)
      && Restart(c, k, true).trips == [if Restarts(c, k, true) then Rebased(left, k) else left]
  {
    var a, z := b.trips[0], b.trips[1];
    assert b.trips == [a, z] && b.trips[1..] == [z] && [z][1..] == [];
    assert Erase([], id) == [];
    assert Erase([z], id) == if id == 2 then [] else [z];
    assert Erase(b.trips, id) == [left];
    assert Find([z], id) == if id == 2 then Some(z) else None;
    assert Find(b.trips, id) == Some(b.trips[id - 1]);
    assert Scanned([left], 0) == Scan(0, 0);
    var r := Restart(AfterErase(b, id), k, true);
    assert r.trips == [if Restarts(AfterErase(b, id), k, true) then Rebased(left, k) else left];
  }

  // ------------------------------------------------------------------ a session left at its end

  /** A run, lawful throughout, that leaves a session with nothing to go, and the scan not
      finding it: a stop is handled before the report of the session that has arrived. */
  lemma SessionLeftAtItsEnd()
    ensures exists run: seq<Event> ::
      && (forall i :: 0 <= i < |run| ==> FreshId(At(run, i), run[i]) && Faithful(At(run, i), run[i]))
      && MissesLeast(At(run, |run|))
  {
    hide Step, InTime, Faithful, FreshId, MissesLeast;
    var run := [Join(1, 600, 60, true, 0, true), Join(2, 1000, 60, true, 0, true), Travel(600),
                Join(3, 5000, 60, true, 600, true), Leave(3, 600, true)];
    TwoTrips(run, 600, 60, 1000, 60, 600);
    ThirdJoin(At(run, 3));
    ThirdLeave(At(run, 4));
  }

  ghost predicate MissesLeast(b: Batching) {
    b.trips != [] && !IsLeast(Scanned(b.trips, |b.trips|).distance, Remainings(b.trips))
  }

  lemma ThirdJoin(b: Batching)
    requires b == Batching([Trip(1, 0, 0, 0, 600, 60), Trip(2, 0, 0, 0, 1000, 60)], 600, 60, false, false,
                           World(600, 0, map[1 := 0, 2 := 0], Running(600, 60)))
    ensures var e := Join(3, 5000, 60, true, 600, true);
      FreshId(b, e) && Faithful(b, e)
      && Step(b, e) == b.(trips := b.trips + [Trip(3, 600, 0, 0, 5000, 60)],
                          world := b.world.(joined := map[1 := 0, 2 := 0, 3 := 600]))
  {
    var a, z, y := b.trips[0], b.trips[1], Trip(3, 600, 0, 0, 5000, 60);
    assert b.trips[1..] == [z] && [z][1..] == [];
    assert Put([], y) == [y] && Put([z], y) == [z, y];
    assert Put(b.trips, y) == [a, z, y];
  }

  lemma ThirdLeave(b: Batching)
    requires b == Batching([Trip(1, 0, 0, 0, 600, 60), Trip(2, 0, 0, 0, 1000, 60), Trip(3, 600, 0, 0, 5000, 60)],
                           600, 60, false, false, World(600, 0, map[1 := 0, 2 := 0, 3 := 600], Running(600, 60)))
    ensures var e := Leave(3, 600, true); FreshId(b, e) && Faithful(b, e) && MissesLeast(Step(b, e))
  {
    hide Swept, Restart, Find, Erase;
    EraseThird(b);
    var a, z := b.trips[0], b.trips[1];
    var c := AfterErase(b, 3);
    var n := Step(b, Leave(3, 600, true));
    assert Scanned(c.trips, 1) == Scan(600, 60) && Scanned(c.trips, 2) == Scan(600, 60);
    RestartedState(c, 600);
    assert n == Restart(c, 600, true);
    assert n.trips == [Trip(1, 0, 600, 600, 600, 60), Trip(2, 0, 600, 600, 1000, 60)];
    NearestIsLeastIff(n.trips);
    assert n.trips[0] in n.trips && Remaining(n.trips[0]) == 0 && Remaining(n.trips[1]) == 400;
  }

  lemma EraseThird(b: Batching)
    requires |b.trips| == 3 && b.trips[0].id == 1 && b.trips[1].id == 2 && b.trips[2].id == 3
    ensures Erase(b.trips, 3) == b.trips[..2] && Find(b.trips, 3) == Some(b.trips[2])
  {
    var a, z, y := b.trips[0], b.trips[1], b.trips[2];
    assert b.trips[1..] == [z, y] && [z, y][1..] == [y] && [y][1..] == [];
    assert Erase([], 3) == [] && Erase([y], 3) == [] && Erase([z, y], 3) == [z];
    assert Find([y], 3) == Some(y) && Find([z, y], 3) == Some(y);
    assert b.trips[..2] == [a, z];
  }
}
