/** The distance accounting of trips: the law that restarts of the engine keep, and where
    they do not. */
module TripRuns {
  import opened Wrappers
  import opened TripModel

  ghost predicate Sorted(trips: seq<Trip>) {
    forall i, j :: 0 <= i < j < |trips| ==> trips[i].id < trips[j].id
  }

  lemma {:induction false} PutMembers(trips: seq<Trip>, t: Trip)
    requires Sorted(trips)
    ensures forall u :: u in Put(trips, t) <==> (u.id != t.id && u in trips) || u == t
  {
    if trips != [] {
      assert Sorted(trips[1..]);
      PutMembers(trips[1..], t);
      assert trips == [trips[0]] + trips[1..];
      assert forall u :: u in trips[1..] ==> trips[0].id < u.id;
    }
  }

  lemma SortedCons(t: Trip, rest: seq<Trip>)
    requires Sorted(rest) && forall u :: u in rest ==> t.id < u.id
    ensures Sorted([t] + rest)
  {
  }

  lemma {:induction false} PutFacts(trips: seq<Trip>, t: Trip)
    requires Sorted(trips)
    ensures Sorted(Put(trips, t))
    ensures forall u :: u in Put(trips, t) <==> (u.id != t.id && u in trips) || u == t
  {
    PutMembers(trips, t);
    if trips != [] {
      assert Sorted(trips[1..]) && forall u :: u in trips[1..] ==> trips[0].id < u.id;
      if trips[0].id == t.id {
        SortedCons(t, trips[1..]);
      } else if t.id < trips[0].id {
        SortedCons(t, trips);
      } else {
        PutFacts(trips[1..], t);
        SortedCons(trips[0], Put(trips[1..], t));
      }
    }
  }

  lemma {:induction false} EraseFacts(trips: seq<Trip>, id: nat)
    requires Sorted(trips)
    ensures Sorted(Erase(trips, id))
    ensures forall u :: u in Erase(trips, id) <==> u.id != id && u in trips
  {
    if trips != [] {
      EraseFacts(trips[1..], id);
      assert trips == [trips[0]] + trips[1..];
      var rest := Erase(trips[1..], id);
      forall i | 0 <= i < |rest|
        ensures trips[0].id < rest[i].id
      {
        assert rest[i] in rest;
      }
    }
  }

  // ------------------------------------------------------------------ the law

  /** How far a session has really come since it joined. */
  function Travelled(w: World, id: nat): nat {
    if id in w.joined && w.joined[id] <= w.odometer then w.odometer - w.joined[id] else 0
  }

  predicate Accounted(t: Trip, w: World) {
    && t.id in w.joined && w.joined[t.id] <= w.odometer
    && Accumulated(t, Counter(w)) == Travelled(w, t.id) % WRAP
  }

  /** For every session: what it had at the last restart, plus what the engine has counted
      since it joined or since then, is what it has travelled, in 32 bits. */
  ghost predicate Law(b: Batching) {
    && Sorted(b.trips)
    && b.world.started <= b.world.odometer
    && forall t :: t in b.trips ==> Accounted(t, b.world)
  }

  /** The captured counter was current at the reset. */
  predicate Current(b: Batching, captured: U32) {
    captured == Counter(b.world)
  }

  lemma AccountedAsSum(t: Trip, w: World)
    requires w.started <= w.odometer && t.id in w.joined && w.joined[t.id] <= w.odometer
    ensures Accounted(t, w) <==> (t.onRestart - t.ongoing - w.started + w.joined[t.id]) % WRAP == 0
  {
    Congruent(t.onRestart, t.ongoing, w.odometer - w.started, w.odometer - w.joined[t.id]);
  }

  lemma Congruent(r: U32, o: U32, counted: nat, travelled: nat)
    ensures Plus(r, Minus(counted % WRAP, o)) == travelled % WRAP <==> (r - o + counted - travelled) % WRAP == 0
  {
    Unwrapped(r, o, counted);
    SameModulo(r - o + counted, travelled);
  }

  lemma Unwrapped(r: U32, o: U32, counted: nat)
    ensures Plus(r, Minus(counted % WRAP, o)) == (r - o + counted) % WRAP
  {
  }

  lemma SameModulo(x: int, y: int)
    ensures x % WRAP == y % WRAP <==> (x - y) % WRAP == 0
  {
  }

  /** Travelling changes nothing in the balance. */
  lemma TravelKeepsLaw(b: Batching, far: nat)
    requires Law(b)
    ensures Law(Step(b, Travel(far)))
  {
    var c := Step(b, Travel(far));
    forall t | t in c.trips
      ensures Accounted(t, c.world)
    {
      AccountedAsSum(t, b.world);
      AccountedAsSum(t, c.world);
    }
  }

  lemma SameSum(r: U32, o: U32, a: U32, b: U32)
    ensures Plus(r, Minus(a, o)) == Plus(r, Minus(b, o)) <==> a == b
  {
  }

  /** The engine has started to count anew. */
  predicate CountsAnew(w: World, v: World) {
    v.odometer == v.started == w.odometer && v.joined == w.joined
  }

  /** Rebasing on a captured counter keeps a session's account exactly if the counter was
      current. */
  lemma RebasedAccounted(t: Trip, w: World, v: World, captured: U32)
    requires Accounted(t, w) && w.started <= w.odometer && CountsAnew(w, v)
    ensures Accounted(Rebased(t, captured), v) <==> captured == Counter(w)
  {
    SameSum(t.onRestart, t.ongoing, captured, Counter(w));
    assert Minus(0, 0) == 0 && Counter(v) == 0;
  }

  /** A restart of the engine keeps the law exactly if it counted from the counter as it
      was; the engine refusing, nothing changes. */
  lemma RestartKeepsLawIff(b: Batching, captured: U32, ok: bool)
    requires Law(b)
    ensures Law(Restart(b, captured, ok)) <==> !Restarts(b, captured, ok) || Current(b, captured)
  {
    var c := Restart(b, captured, ok);
    if Restarts(b, captured, ok) {
      assert forall i :: 0 <= i < |b.trips| ==> c.trips[i] == Rebased(b.trips[i], captured);
      forall i | 0 <= i < |b.trips|
        ensures Accounted(c.trips[i], c.world) <==> Current(b, captured)
      {
        assert b.trips[i] in b.trips;
        RebasedAccounted(b.trips[i], b.world, c.world, captured);
      }
      assert c.trips[0] in c.trips;
    }
  }

  predicate Restarts(b: Batching, captured: U32, ok: bool) {
    var nearest := Scanned(b.trips, |b.trips|);
    && b.trips != [] && ok
    && (Nearer(b, captured)
        || nearest.tbf < b.tbf || (nearest.tbf != b.tbf && b.tbfDropped))
  }

  /** The sessions there are ask for a report sooner than the engine would make one. */
  predicate Nearer(b: Batching, captured: U32) {
    var nearest := Scanned(b.trips, |b.trips|);
    if !b.distanceDropped && Minus(b.distance, captured) != 0
    then nearest.distance < Minus(b.distance, captured)
    else nearest.distance != 0
  }

  // ------------------------------------------------------------------ the sweep

  /** One of the first n trips, brought up to date, and not yet at its distance. */
  ghost predicate Continues(b: Batching, n: nat, captured: U32, u: Trip)
    requires n <= |b.trips|
  {
    u.thisTrip < u.distance && exists i :: 0 <= i < n && u == Refreshed(b.trips[i], captured)
  }

  /** One of the first n trips is at its distance. */
  ghost predicate Completed(b: Batching, n: nat, captured: U32, id: nat)
    requires n <= |b.trips|
  {
    exists i :: 0 <= i < n && b.trips[i].id == id && b.trips[i].distance <= Accumulated(b.trips[i], captured)
  }

  /** The sweep keeps exactly the trips that continue. */
  lemma {:induction false} SweepKeeps(b: Batching, n: nat, captured: U32, u: Trip)
    requires n <= |b.trips|
    ensures u in Swept(b, n, captured).kept <==> Continues(b, n, captured, u)
  {
    hide Accumulated;
    if n > 0 {
      SweepKeeps(b, n - 1, captured, u);
    }
  }

  /** And reports exactly the completed ones. */
  lemma {:induction false} SweepReports(b: Batching, n: nat, captured: U32, id: nat)
    requires n <= |b.trips|
    ensures id in Swept(b, n, captured).done <==> Completed(b, n, captured, id)
  {
    hide Accumulated;
    if n > 0 {
      SweepReports(b, n - 1, captured, id);
    }
  }

  /** In order, and each at most once. */
  lemma SweepSorted(b: Batching, n: nat, captured: U32)
    requires n <= |b.trips| && Sorted(b.trips)
    ensures var s := Swept(b, n, captured);
      && Sorted(s.kept) && (forall u :: u in s.kept ==> n > 0 && u.id <= b.trips[n - 1].id)
      && (forall i, j :: 0 <= i < j < |s.done| ==> s.done[i] < s.done[j])
  {
    hide Swept;
    SweepKeepsOrder(b, n, captured);
    SweepReportsInOrder(b, n, captured);
  }

  lemma {:induction false} SweepKeepsOrder(b: Batching, n: nat, captured: U32)
    requires n <= |b.trips| && Sorted(b.trips)
    ensures var s := Swept(b, n, captured);
      Sorted(s.kept) && forall u :: u in s.kept ==> n > 0 && u.id <= b.trips[n - 1].id
  {
    hide Accumulated;
    if n > 0 {
      SweepKeepsOrder(b, n - 1, captured);
      if n > 1 {
        assert b.trips[n - 2].id < b.trips[n - 1].id;
      }
    }
  }

  /** Ids in order, none above the last of the first n trips. */
  ghost predicate InOrder(b: Batching, n: nat, ids: seq<nat>)
    requires n <= |b.trips|
  {
    && (forall i, j :: 0 <= i < j < |ids| ==> ids[i] < ids[j])
    && (forall i :: 0 <= i < |ids| ==> n > 0 && ids[i] <= b.trips[n - 1].id)
  }

  lemma {:induction false} SweepReportsInOrder(b: Batching, n: nat, captured: U32)
    requires n <= |b.trips| && Sorted(b.trips)
    ensures InOrder(b, n, Swept(b, n, captured).done)
  {
    hide Accumulated;
    if n > 0 {
      SweepReportsInOrder(b, n - 1, captured);
      var done, next := Swept(b, n - 1, captured).done, Swept(b, n, captured).done;
      assert InOrder(b, n - 1, done);
      assert next == done || next == done + [b.trips[n - 1].id];
      assert n > 1 ==> b.trips[n - 2].id < b.trips[n - 1].id;
    }
  }

  /** What the sweep leaves, before any restart. */
  function AfterSweep(b: Batching, captured: U32): Batching {
    var s := Swept(b, |b.trips|, captured);
    b.(trips := s.kept, tbfDropped := s.tbfDropped, distanceDropped := s.distanceDropped)
  }

  lemma SweepKeepsLaw(b: Batching, captured: U32)
    requires Law(b)
    ensures Law(AfterSweep(b, captured))
  {
    hide Swept;
    var c := AfterSweep(b, captured);
    SweepSorted(b, |b.trips|, captured);
    forall u | u in c.trips
      ensures Accounted(u, c.world)
    {
      SweepKeeps(b, |b.trips|, captured, u);
      var i :| 0 <= i < |b.trips| && u == Refreshed(b.trips[i], captured);
      assert b.trips[i] in b.trips;
    }
  }

  /** A report keeps the law exactly if the engine is not started again, or its counter was
      current. */
  lemma ReportKeepsLawIff(b: Batching, captured: U32, ok: bool)
    requires Law(b)
    ensures Law(Step(b, Report(captured, ok))) <==>
      || Swept(b, |b.trips|, captured).done == []
      || !Restarts(AfterSweep(b, captured), captured, ok)
      || Current(b, captured)
  {
    hide Law, Restarts, Swept, Restart;
    SweepKeepsLaw(b, captured);
    RestartKeepsLawIff(AfterSweep(b, captured), captured, ok);
  }

  /** No session has travelled as far as 32 bits can tell. */
  ghost predicate NoWrap(b: Batching) {
    forall t :: t in b.trips ==> Travelled(b.world, t.id) < WRAP
  }

  /** A session whose account is right, brought up to date, has its true distance. */
  lemma TrueDistance(t: Trip, w: World)
    requires Accounted(t, w) && Travelled(w, t.id) < WRAP
    ensures Accumulated(t, Counter(w)) == Travelled(w, t.id)
  {
  }

  /** If the account of a trip is right, whatever those of the others are, a report completes
      it exactly if it has travelled its distance, in 32 bits; if not, leaves it, and only it
      under its id, with what it has travelled; and reports no trip twice. */
  lemma ReportCompletesExactly(b: Batching, t: Trip)
    requires Sorted(b.trips) && t in b.trips && Accounted(t, b.world)
    ensures var s, far := Swept(b, |b.trips|, Counter(b.world)), Travelled(b.world, t.id) % WRAP;
      && (t.id in s.done <==> t.distance <= far)
      && (forall u: Trip :: u in s.kept && u.id == t.id <==> far < t.distance && u == t.(thisTrip := far))
      && (forall i, j :: 0 <= i < j < |s.done| ==> s.done[i] != s.done[j])
  {
    hide Swept, Accumulated;
    var n, c := |b.trips|, Counter(b.world);
    SweepSorted(b, n, c);
    SweepReports(b, n, c, t.id);
    var k :| 0 <= k < n && b.trips[k] == t;
    assert forall i :: 0 <= i < n && b.trips[i].id == t.id ==> i == k;
    forall u: Trip | u.id == t.id
      ensures u in Swept(b, n, c).kept <==> Continues(b, n, c, u)
    {
      SweepKeeps(b, n, c, u);
    }
    assert Refreshed(t, c) == t.(thisTrip := Travelled(b.world, t.id) % WRAP);
  }

  lemma LawIsSorted(b: Batching)
    requires Law(b)
    ensures Sorted(b.trips)
  {
  }

  // ------------------------------------------------------------------ joining and leaving

  lemma FirstJoinKeepsLaw(b: Batching, e: Event)
    requires Law(b) && e.Join? && b.trips == []
    ensures Law(Step(b, e))
  {
  }

  /** What the engine is still to count, as far as that is known. */
  function LeftToCount(b: Batching, e: Event): U32
    requires e.Join?
  {
    if e.queried then Minus(b.distance, e.captured) else b.distance
  }

  function Lesser(a: U32, b: U32): U32 {
    if a < b then a else b
  }

  /** The new session asks for positions more often, or for a report sooner, than the others
      do: then the adapter restarts the engine. */
  predicate ForcesRestart(b: Batching, e: Event)
    requires e.Join?
  {
    b.trips != [] && (e.tbf < b.tbf || e.distance < LeftToCount(b, e))
  }

  /** The program finds exactly that, and asks for the lesser of both. */
  lemma NewDistanceIs(b: Batching, e: Event)
    requires e.Join? && b.trips != []
    ensures NewDistance(b, e.distance, e.tbf, e.queried, e.captured) ==
      (if ForcesRestart(b, e) then Lesser(e.distance, LeftToCount(b, e)) else b.distance, ForcesRestart(b, e))
  {
  }

  /** A forced restart that is obeyed has the engine run for the lesser distance, of the new
      session and what is left to count, and the lesser interval; refused, or not forced, it
      goes on as it was. */
  lemma JoinAsks(b: Batching, e: Event)
    requires e.Join? && b.trips != []
    ensures var n := Step(b, e);
      && n.world.engine == (if ForcesRestart(b, e) && e.ok
                            then Running(Lesser(e.distance, LeftToCount(b, e)), Lesser(e.tbf, b.tbf))
                            else b.world.engine)
      && n.distance == (if ForcesRestart(b, e) then Lesser(e.distance, LeftToCount(b, e)) else b.distance)
      && n.tbf == (if ForcesRestart(b, e) then Lesser(e.tbf, b.tbf) else b.tbf)
  {
    hide Put, NewDistance, ForcesRestart;
    NewDistanceIs(b, e);
  }

  lemma JoinedKeepsLawIff(b: Batching, e: Event)
    requires Law(b) && e.Join? && !Has(b.trips, e.id)
    ensures Law(Joined(b, e.id, e.distance, e.tbf, e.queried, e.captured)) <==> !e.queried || Current(b, e.captured)
  {
    if e.queried {
      var t := Trip(e.id, e.captured, 0, 0, e.distance, e.tbf);
      var j := Joined(b, e.id, e.distance, e.tbf, e.queried, e.captured);
      hide Accounted, Put;
      PutFacts(b.trips, t);
      NewAccounted(t, j.world);
      forall u | u in b.trips
        ensures Accounted(u, j.world)
      {
        HasMember(b.trips, u);
        AccountedMeans(u, b.world);
        OthersAccounted(u, b.world, j.world);
      }
      assert t in j.trips;
    }
  }

  lemma NewAccounted(t: Trip, w: World)
    requires t.onRestart == 0 && t.id in w.joined && w.joined[t.id] == w.odometer
    ensures Accounted(t, w) <==> t.ongoing == Counter(w)
  {
    SameSum(0, t.ongoing, Counter(w), t.ongoing);
  }

  lemma OthersAccounted(u: Trip, w: World, v: World)
    requires Accounted(u, w) && v.odometer == w.odometer && v.started == w.started
    requires u.id in w.joined && u.id in v.joined && v.joined[u.id] == w.joined[u.id]
    ensures Accounted(u, v)
  {
  }

  lemma HasMember(trips: seq<Trip>, t: Trip)
    requires t in trips
    ensures Has(trips, t.id)
  {
    var i :| 0 <= i < |trips| && trips[i] == t;
  }

  /** A session that joins without a restart keeps the law exactly if the counter it starts
      from is current. */
  lemma QuietJoinKeepsLawIff(b: Batching, e: Event)
    requires Law(b) && e.Join? && b.trips != [] && !Has(b.trips, e.id) && !ForcesRestart(b, e)
    ensures Law(Step(b, e)) <==> !e.queried || Current(b, e.captured)
  {
    JoinedKeepsLawIff(b, e);
  }

  /** The other sessions as the forced restart leaves them, and the new one: still what they
      have come to. The engine obeying, they must be up to date; otherwise it counts on, and
      they must be what they were when it started, it having counted nothing for a session
      that is new. */
  predicate SurvivesForcedRestart(b: Batching, e: Event)
    requires e.Join?
  {
    if e.ok then forall t :: t in b.trips ==> t.thisTrip == Accumulated(t, Counter(b.world))
    else (e.queried ==> Counter(b.world) == 0) && forall t :: t in b.trips ==> t.thisTrip == Minus(t.onRestart, t.ongoing)
  }

  /** The restart that a new session forces does not bring the other sessions up to date
      first, and takes nothing back if the engine refuses: exactly when the law survives. */
  lemma ForcedRestartKeepsLawIff(b: Batching, e: Event)
    requires Law(b) && e.Join? && !Has(b.trips, e.id) && ForcesRestart(b, e)
    ensures Law(Step(b, e)) <==> SurvivesForcedRestart(b, e)
  {
    hide Accumulated, Travelled, Put, NewDistance, Accounted, Step, ForcesRestart;
    var t := Trip(e.id, e.captured, 0, 0, e.distance, e.tbf);
    var j := Joined(b, e.id, e.distance, e.tbf, e.queried, e.captured);
    var n := Step(b, e);
    PutFacts(b.trips, t);
    ForcedState(b, e);
    forall u | u in b.trips
      ensures u in j.trips
      ensures Accounted(RebasedStale(u), n.world) <==>
        u.thisTrip == if e.ok then Accumulated(u, Counter(b.world)) else Minus(u.onRestart, u.ongoing)
    {
      HasMember(b.trips, u);
      AccountedMeans(u, b.world);
      if e.ok {
        StaleAfterStart(u, b.world, n.world);
      } else {
        StaleWhileCounting(u, b.world, n.world);
      }
    }
    if e.queried {
      NewStale(t, n.world);
    }
    StaleMembers(j.trips, n.trips);
  }

  lemma ForcedMeans(b: Batching, e: Event)
    requires e.Join? && ForcesRestart(b, e)
    ensures b.trips != [] && NewDistance(b, e.distance, e.tbf, e.queried, e.captured).1
  {
    NewDistanceIs(b, e);
  }

  lemma ForcedState(b: Batching, e: Event)
    requires e.Join? && ForcesRestart(b, e) && b.world.started <= b.world.odometer
    ensures var j, n := Joined(b, e.id, e.distance, e.tbf, e.queried, e.captured), Step(b, e);
      && |n.trips| == |j.trips| && (forall i :: 0 <= i < |j.trips| ==> n.trips[i] == RebasedStale(j.trips[i]))
      && n.world.odometer == b.world.odometer && n.world.joined == j.world.joined
      && n.world.started == (if e.ok then b.world.odometer else b.world.started)
      && Counter(n.world) == if e.ok then 0 else Counter(b.world)
  {
    hide Put, NewDistance, ForcesRestart;
    ForcedMeans(b, e);
  }

  lemma AccountedMeans(u: Trip, w: World)
    requires Accounted(u, w)
    ensures u.id in w.joined && w.joined[u.id] <= w.odometer
  {
  }

  lemma StaleMembers(trips: seq<Trip>, rebased: seq<Trip>)
    requires |rebased| == |trips| && forall i :: 0 <= i < |trips| ==> rebased[i] == RebasedStale(trips[i])
    ensures forall u :: u in trips ==> RebasedStale(u) in rebased
    ensures forall u :: u in rebased ==> exists v :: v in trips && u == RebasedStale(v)
    ensures Sorted(trips) ==> Sorted(rebased)
  {
    forall u | u in trips
      ensures RebasedStale(u) in rebased
    {
      var i :| 0 <= i < |trips| && trips[i] == u;
      assert rebased[i] == RebasedStale(u);
    }
  }

  lemma StaleAfterStart(u: Trip, w: World, v: World)
    requires Accounted(u, w) && w.started <= w.odometer
    requires v.odometer == v.started == w.odometer && u.id in v.joined && v.joined[u.id] == w.joined[u.id]
    ensures Accounted(RebasedStale(u), v) <==> u.thisTrip == Accumulated(u, Counter(w))
  {
  }

  lemma StaleWhileCounting(u: Trip, w: World, v: World)
    requires Accounted(u, w) && w.started <= w.odometer
    requires v.odometer == w.odometer && v.started == w.started
    requires u.id in v.joined && v.joined[u.id] == w.joined[u.id]
    ensures Accounted(RebasedStale(u), v) <==> u.thisTrip == Minus(u.onRestart, u.ongoing)
  {
    SameOffset(u.thisTrip, u.onRestart, u.ongoing, Counter(w));
  }

  lemma SameOffset(thisTrip: U32, r: U32, o: U32, counted: U32)
    ensures Plus(thisTrip, Minus(counted, 0)) == Plus(r, Minus(counted, o)) <==> thisTrip == Minus(r, o)
  {
    assert Minus(counted, 0) == counted;
    Shifted(r, o, counted);
    SamePlus(thisTrip, Minus(r, o), counted);
  }

  lemma Shifted(r: U32, o: U32, c: U32)
    ensures Plus(r, Minus(c, o)) == Plus(Minus(r, o), c)
  {
    assert Plus(r, Minus(c, o)) == (r + c - o) % WRAP;
  }

  lemma SamePlus(a: U32, b: U32, c: U32)
    ensures Plus(a, c) == Plus(b, c) <==> a == b
  {
  }

  lemma NewStale(t: Trip, w: World)
    requires t.thisTrip == 0 && t.id in w.joined && w.joined[t.id] == w.odometer
    ensures Accounted(RebasedStale(t), w) <==> Counter(w) == 0
  {
  }

  lemma EraseKeepsLaw(b: Batching, id: nat)
    requires Law(b)
    ensures Law(b.(trips := Erase(b.trips, id)))
  {
    EraseFacts(b.trips, id);
  }

  /** The session is taken out, before any restart. */
  function AfterErase(b: Batching, id: nat): Batching {
    match Find(b.trips, id)
    case None => b
    case Some(t) =>
      b.(trips := Erase(b.trips, id),
         tbfDropped := b.tbfDropped || t.tbf == b.tbf,
         distanceDropped := b.distanceDropped || t.distance == b.distance)
  }

  lemma LeaveKeepsLawIff(b: Batching, id: nat, captured: U32, ok: bool)
    requires Law(b) && Has(b.trips, id)
    ensures Law(Step(b, Leave(id, captured, ok))) <==>
      !Restarts(AfterErase(b, id), captured, ok) || Current(b, captured)
  {
    hide Restart, Restarts, Accounted;
    EraseKeepsLaw(b, id);
    RestartKeepsLawIff(AfterErase(b, id), captured, ok);
    if AfterErase(b, id).trips == [] {
      NoTripsNoRestart(AfterErase(b, id), captured, ok);
    }
  }

  lemma NoTripsNoRestart(b: Batching, captured: U32, ok: bool)
    requires b.trips == []
    ensures !Restarts(b, captured, ok)
  {
  }

  lemma AnewAccounted(t: Trip, w: World, v: World)
    requires Accounted(t, w) && w.started <= w.odometer && CountsAnew(w, v)
    ensures Accounted(t, v) <==> Counter(w) == 0
  {
    SameSum(t.onRestart, t.ongoing, 0, Counter(w));
  }

  /** When the engine comes up anew, the sessions go on as if it still counted: the law is
      kept exactly if it had counted nothing. */
  lemma EngineUpKeepsLawIff(b: Batching, ok: bool)
    requires Law(b)
    ensures Law(Step(b, EngineUp(ok))) <==> b.trips == [] || Counter(b.world) == 0
  {
    hide Accounted, Counter, Scanned;
    if b.trips != [] {
      var n := Step(b, EngineUp(ok));
      forall t | t in b.trips
        ensures Accounted(t, n.world) <==> Counter(b.world) == 0
      {
        AnewAccounted(t, b.world, n.world);
      }
      assert b.trips[0] in b.trips;
    }
  }

  // ------------------------------------------------------------------ runs

  function At(run: seq<Event>, n: nat): Batching
    requires n <= |run|
  {
    if n == 0 then INITIAL else Step(At(run, n - 1), run[n - 1])
  }

  /** New sessions have new ids. */
  predicate FreshId(b: Batching, e: Event) {
    e.Join? ==> !Has(b.trips, e.id)
  }

  /** Where an event keeps the law: captured counters are current where they are used, forced
      restarts find the sessions as they should be, and the engine does not come up anew
      having counted. */
  predicate Faithful(b: Batching, e: Event) {
    match e
    case Travel(_) => true
    case Report(captured, ok) =>
      || Swept(b, |b.trips|, captured).done == []
      || !Restarts(AfterSweep(b, captured), captured, ok)
      || Current(b, captured)
    case Join(_, _, _, queried, captured, _) =>
      || b.trips == []
      || (if ForcesRestart(b, e) then SurvivesForcedRestart(b, e) else queried ==> Current(b, captured))
    case Leave(id, captured, ok) =>
      || !Has(b.trips, id) || !Restarts(AfterErase(b, id), captured, ok) || Current(b, captured)
    case EngineUp(_) => b.trips == [] || Counter(b.world) == 0
  }

  /** Of every event: it keeps the law exactly then. */
  lemma StepKeepsLawIff(b: Batching, e: Event)
    requires Law(b) && FreshId(b, e)
    ensures Law(Step(b, e)) <==> Faithful(b, e)
  {
    hide Law, OnReport, FirstTrip, AnotherTrip, Restarts, Swept, OnEngineUp, SurvivesForcedRestart, ForcesRestart;
    match e
    case Travel(far) => TravelKeepsLaw(b, far);
    case Report(captured, ok) => ReportKeepsLawIff(b, captured, ok);
    case Join(_, _, _, _, _, _) =>
      if b.trips == [] {
        FirstJoinKeepsLaw(b, e);
      } else if ForcesRestart(b, e) {
        ForcedRestartKeepsLawIff(b, e);
      } else {
        QuietJoinKeepsLawIff(b, e);
      }
    case Leave(id, captured, ok) =>
      if Has(b.trips, id) {
        LeaveKeepsLawIff(b, id, captured, ok);
      }
    case EngineUp(ok) => EngineUpKeepsLawIff(b, ok);
  }

  /** The law holds after every run of such events, for every live trip. */
  lemma {:induction false} EveryRunKeepsLaw(run: seq<Event>, n: nat)
    requires n <= |run|
    requires forall i :: 0 <= i < n ==> FreshId(At(run, i), run[i]) && Faithful(At(run, i), run[i])
    ensures Law(At(run, n))
  {
    hide Step, Faithful, FreshId;
    if n > 0 {
      EveryRunKeepsLaw(run, n - 1);
      StepKeepsLawIff(At(run, n - 1), run[n - 1]);
    }
  }

  /** And the first event that is not of this kind ends it. */
  lemma FirstFaultEndsLaw(run: seq<Event>, n: nat)
    requires n < |run| && FreshId(At(run, n), run[n]) && !Faithful(At(run, n), run[n])
    requires forall i :: 0 <= i < n ==> FreshId(At(run, i), run[i]) && Faithful(At(run, i), run[i])
    ensures !Law(At(run, n + 1))
  {
    hide Step, Faithful, FreshId, Law;
    EveryRunKeepsLaw(run, n);
    StepKeepsLawIff(At(run, n), run[n]);
  }

  /** A run on which a new session forces a restart, and one that was under way loses the
      distance it had come. */
  lemma ForcedRestartLosesDistance()
    ensures exists run: seq<Event>, t: Trip ::
      t in At(run, |run|).trips && !Accounted(t, At(run, |run|).world)
  {
    var run := [Join(1, 1000, 60, true, 0, true), Travel(100), Join(2, 500, 60, true, 100, true)];
    var b2, b3 := At(run, 2), At(run, 3);
    var t := Trip(1, 0, 0, 0, 1000, 60);
    OneTrip(run);
    assert AnotherTrip(b2, run[2]) == b3;
    assert b3.trips[0] == t;
    assert b3.world == World(100, 100, map[1 := 0, 2 := 100], Running(500, 60));
    assert t in b3.trips && !Accounted(t, b3.world);
  }

  /** And one on which the engine refuses, and the new session is credited what it has not
      come. */
  lemma RefusedRestartCreditsDistance()
    ensures exists run: seq<Event>, t: Trip ::
      && t in At(run, |run|).trips
      && Travelled(At(run, |run|).world, t.id) == 0
      && Accumulated(t, Counter(At(run, |run|).world)) == 100
  {
    var run := [Join(1, 1000, 60, true, 0, true), Travel(100), Join(2, 500, 60, true, 100, false)];
    var b2, b3 := At(run, 2), At(run, 3);
    var t := Trip(2, 0, 0, 0, 500, 60);
    OneTrip(run);
    assert AnotherTrip(b2, run[2]) == b3;
    assert b3.trips[1] == t;
    assert b3.world == World(100, 0, map[1 := 0, 2 := 100], Running(1000, 60));
    assert t in b3.trips;
  }

  lemma OneTrip(run: seq<Event>)
    requires |run| == 3 && run[0] == Join(1, 1000, 60, true, 0, true) && run[1] == Travel(100)
    ensures At(run, 2) ==
      Batching([Trip(1, 0, 0, 0, 1000, 60)], 1000, 60, false, false, World(100, 0, map[1 := 0], Running(1000, 60)))
  {
    assert At(run, 0) == INITIAL;
    assert At(run, 1) ==
      Batching([Trip(1, 0, 0, 0, 1000, 60)], 1000, 60, false, false, World(0, 0, map[1 := 0], Running(1000, 60)));
  }

  /** And one on which a report is handled after the engine has counted on: the session that
      stays loses what it has come in between. */
  lemma LateReportLosesDistance()
    ensures var run := [Join(1, 1000, 60, true, 0, true), Join(2, 5000, 60, true, 0, true), Travel(1010), Report(1000, true)];
      && Law(At(run, 3)) && |At(run, 4).trips| == 1
      && Travelled(At(run, 4).world, 2) == 1010 && Accumulated(At(run, 4).trips[0], Counter(At(run, 4).world)) == 1000
  {
    hide Step;
    var run := [Join(1, 1000, 60, true, 0, true), Join(2, 5000, 60, true, 0, true), Travel(1010), Report(1000, true)];
    assert At(run, 0) == INITIAL;
    TwoJoin();
    assert At(run, 3) == Step(At(run, 2), run[2]) && At(run, 2) == Step(At(run, 1), run[1]);
    LateReport();
    assert At(run, 4) == Step(At(run, 3), run[3]);
  }

  /** Two sessions under way. */
  function Both(): Batching {
    Batching([Trip(1, 0, 0, 0, 1000, 60), Trip(2, 0, 0, 0, 5000, 60)], 1000, 60, false, false,
             World(1010, 0, map[1 := 0, 2 := 0], Running(1000, 60)))
  }

  lemma TwoJoin()
    ensures Step(Step(Step(INITIAL, Join(1, 1000, 60, true, 0, true)), Join(2, 5000, 60, true, 0, true)), Travel(1010)) == Both()
    ensures Law(Both())
  {
    var a, z := Trip(1, 0, 0, 0, 1000, 60), Trip(2, 0, 0, 0, 5000, 60);
    assert [a][1..] == [] && Put([], z) == [z] && Put([a], z) == [a, z];
  }

  lemma LateReport()
    ensures var n := Step(Both(), Report(1000, true));
      && n.trips == [Trip(2, 0, 1000, 1000, 5000, 60)] && n.world.odometer == n.world.started == 1010
      && n.world.joined == map[1 := 0, 2 := 0]
  {
    var b, z := Both(), Trip(2, 0, 1000, 0, 5000, 60);
    assert Swept(b, 0, 1000) == Sweep([], [], false, false);
    assert Swept(b, 1, 1000) == Sweep([], [1], true, true);
    assert Swept(b, 2, 1000) == Sweep([z], [1], true, true);
    var c := AfterSweep(b, 1000);
    assert Scanned(c.trips, 0) == Scan(0, 0) && Scanned(c.trips, 1) == Scan(4000, 60);
    var n := Restart(c, 1000, true);
    assert n.trips == [Rebased(z, 1000)];
  }
}
