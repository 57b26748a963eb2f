/** Every session through every event: whether it is there, with what it asked for, and the
    distance it is said to have come. And the engine, when nobody is left. */
module TripSessions {
  import opened Wrappers
  import opened TripModel
  import opened TripRuns
  import opened TripAccounts

  // ------------------------------------------------------------------ the session map

  lemma {:induction false} FindPut(trips: seq<Trip>, t: Trip, id: nat)
    ensures Find(Put(trips, t), id) == if id == t.id then Some(t) else Find(trips, id)
  {
    if trips == [] {
      assert [t][1..] == [];
    } else if trips[0].id == t.id {
      assert ([t] + trips[1..])[1..] == trips[1..];
    } else if t.id < trips[0].id {
      assert ([t] + trips)[1..] == trips;
    } else {
      assert ([trips[0]] + Put(trips[1..], t))[1..] == Put(trips[1..], t);
      FindPut(trips[1..], t, id);
    }
  }

  lemma {:induction false} FindErase(trips: seq<Trip>, gone: nat, id: nat)
    ensures Find(Erase(trips, gone), id) == if id == gone then None else Find(trips, id)
  {
    if trips != [] {
      FindErase(trips[1..], gone, id);
      if trips[0].id != gone {
        assert ([trips[0]] + Erase(trips[1..], gone))[1..] == Erase(trips[1..], gone);
      }
    }
  }

  /** What makes trips of trips one by one, ids unchanged, is found as it is made. */
  lemma {:induction false} FindMade(trips: seq<Trip>, made: seq<Trip>, make: Trip -> Trip, id: nat)
    requires |made| == |trips| && forall i :: 0 <= i < |trips| ==> made[i] == make(trips[i]) && made[i].id == trips[i].id
    ensures match Find(trips, id)
      case None => Find(made, id) == None
      case Some(t) => Find(made, id) == Some(make(t))
  {
    if trips != [] && trips[0].id != id {
      FindMade(trips[1..], made[1..], make, id);
    }
  }

  lemma FindSwept(b: Batching, k: U32, id: nat)
    requires Sorted(b.trips)
    ensures Sorted(AfterSweep(b, k).trips)
    ensures Find(AfterSweep(b, k).trips, id) ==
      match Find(b.trips, id)
      case None => None
      case Some(t) => if t.distance <= Accumulated(t, k) then None else Some(Refreshed(t, k))
  {
    hide Swept, Accumulated;
    var kept := AfterSweep(b, k).trips;
    SweepSorted(b, |b.trips|, k);
    forall u | u in kept
      ensures exists t :: t in b.trips && u == Refreshed(t, k) && u.thisTrip < u.distance
    {
      SweepKeeps(b, |b.trips|, k, u);
      var i :| 0 <= i < |b.trips| && u == Refreshed(b.trips[i], k);
      assert b.trips[i] in b.trips;
    }
    if Find(b.trips, id).Some? {
      var t := Find(b.trips, id).value;
      SweepKeeps(b, |b.trips|, k, Refreshed(t, k));
      var i :| 0 <= i < |b.trips| && b.trips[i] == t;
      if Refreshed(t, k) in kept {
        HasMember(kept, Refreshed(t, k));
      }
    }
    if Find(kept, id).Some? {
      var u := Find(kept, id).value;
      var t :| t in b.trips && u == Refreshed(t, k);
      OneOfId(b.trips, t);
    }
  }

  lemma FindRestarted(c: Batching, k: U32, ok: bool, id: nat)
    ensures Find(Restart(c, k, ok).trips, id) ==
      match Find(c.trips, id)
      case None => None
      case Some(t) => Some(if Restarts(c, k, ok) then Rebased(t, k) else t)
  {
    hide Scanned, Accumulated, Find;
    var n := Restart(c, k, ok);
    if Restarts(c, k, ok) {
      assert |n.trips| == |c.trips| && forall i :: 0 <= i < |c.trips| ==> n.trips[i] == Rebased(c.trips[i], k);
      FindMade(c.trips, n.trips, t => Rebased(t, k), id);
    } else {
      assert n.trips == c.trips;
      FindMade(c.trips, c.trips, t => t, id);
    }
  }

  // ------------------------------------------------------------------ events

  /** The session is there after the event: it was, and is neither at its end when a report
      says so nor stopped; or it joins, as the first if the engine starts, as another if that
      can be queried. */
  predicate ThereAfter(b: Batching, e: Event, id: nat) {
    match e
    case Report(k, _) => Has(b.trips, id) && Accumulated(Find(b.trips, id).value, k) < Find(b.trips, id).value.distance
    case Join(j, _, _, queried, _, ok) => Has(b.trips, id) || (id == j && if b.trips == [] then ok else queried)
    case Leave(gone, _, _) => Has(b.trips, id) && id != gone
    case _ => Has(b.trips, id)
  }

  /** It is brought up to date by every report, and by a stop that has the engine start
      again. */
  function DistanceAfter(b: Batching, e: Event, t: Trip): U32 {
    match e
    case Report(k, _) => Accumulated(t, k)
    case Leave(gone, k, ok) =>
      if Has(b.trips, gone) && Restarts(AfterErase(b, gone), k, ok) then Accumulated(t, k) else t.thisTrip
    case _ => t.thisTrip
  }

  /** Of every event and every session. */
  lemma StepTripIs(b: Batching, e: Event, id: nat)
    requires Sorted(b.trips) && FreshId(b, e)
    ensures var now := Find(Step(b, e).trips, id);
      && (now.Some? <==> ThereAfter(b, e, id))
      && (now.Some? ==>
            match Find(b.trips, id)
            case Some(t) =>
              now.value.distance == t.distance && now.value.tbf == t.tbf && now.value.thisTrip == DistanceAfter(b, e, t)
            case None =>
              && e.Join? && id == e.id
              && now.value.distance == e.distance && now.value.tbf == e.tbf && now.value.thisTrip == 0)
  {
    hide Find, Erase, Put, Swept, Restart, Restarts, Accumulated, Scanned, NewDistance, AnotherTrip;
    FoundIff(b.trips, id);
    match e
    case Travel(_) =>
    case Report(k, ok) =>
      FindSwept(b, k, id);
      FindRestarted(AfterSweep(b, k), k, ok, id);
      SweptTwice(b, k, id);
    case Join(_, _, _, _, _, _) =>
      if b.trips == [] {
        FirstFound(b, e, id);
      } else {
        AnotherFound(b, e, id);
      }
    case Leave(gone, k, ok) =>
      FindErase(b.trips, gone, id);
      FindRestarted(AfterErase(b, gone), k, ok, id);
      LastLeft(b, gone, k, ok, id);
    case EngineUp(_) => SameTrips(b, e);
  }

  lemma FoundIff(trips: seq<Trip>, id: nat)
    ensures Find(trips, id).Some? <==> Has(trips, id)
  {
  }

  /** Brought up to date twice by the same report it is what it was once. */
  lemma SweptTwice(b: Batching, k: U32, id: nat)
    ensures forall t: Trip :: Rebased(Refreshed(t, k), k).thisTrip == Accumulated(t, k) == Refreshed(t, k).thisTrip
  {
  }

  lemma FirstFound(b: Batching, e: Event, id: nat)
    requires e.Join? && b.trips == []
    ensures Find(b.trips, id) == None && !Has(b.trips, id)
    ensures Find(Step(b, e).trips, id) ==
      if e.ok && id == e.id then Some(Trip(e.id, 0, 0, 0, e.distance, e.tbf)) else None
  {
    assert forall t: Trip :: [t][1..] == [];
  }

  lemma AnotherFound(b: Batching, e: Event, id: nat)
    requires e.Join? && b.trips != [] && !Has(b.trips, e.id)
    ensures var comes := Trip(e.id, e.captured, 0, 0, e.distance, e.tbf);
      var restart := NewDistance(b, e.distance, e.tbf, e.queried, e.captured).1;
      Find(Step(b, e).trips, id) ==
        if id == e.id then if e.queried then Some(if restart then RebasedStale(comes) else comes) else None
        else match Find(b.trips, id)
             case None => None
             case Some(t) => Some(if restart then RebasedStale(t) else t)
  {
    hide Put, NewDistance, Find;
    var comes := Trip(e.id, e.captured, 0, 0, e.distance, e.tbf);
    var j := Joined(b, e.id, e.distance, e.tbf, e.queried, e.captured);
    FoundIff(b.trips, e.id);
    FindPut(b.trips, comes, id);
    var n := Step(b, e);
    if NewDistance(b, e.distance, e.tbf, e.queried, e.captured).1 {
      FindMade(j.trips, n.trips, RebasedStale, id);
    } else {
      assert n.trips == j.trips;
    }
  }

  lemma LastLeft(b: Batching, gone: nat, k: U32, ok: bool, id: nat)
    ensures Has(b.trips, gone) && AfterErase(b, gone).trips == [] ==>
      Step(b, Leave(gone, k, ok)).trips == [] && !Restarts(AfterErase(b, gone), k, ok)
      && Restart(AfterErase(b, gone), k, ok).trips == []
  {
    hide Erase;
  }

  lemma SameTrips(b: Batching, e: Event)
    requires e.EngineUp?
    ensures Step(b, e).trips == b.trips
  {
    hide Scanned;
  }

  /** The engine coming up anew is asked for what the loop finds, and all sessions stay; if it
      refuses, the program asks for nothing any more although they are there. */
  lemma EngineUpAsks(b: Batching, ok: bool)
    ensures var n, found := Step(b, EngineUp(ok)), Scanned(b.trips, |b.trips|);
      && n.trips == b.trips
      && (b.trips == [] ==> n == b)
      && (b.trips != [] && ok ==>
            n.distance == found.distance && n.tbf == found.tbf && n.world.engine == Running(found.distance, found.tbf))
      && (b.trips != [] && !ok ==> n.distance == 0 && n.tbf == 0 && n.world.engine == Idle)
  {
    hide Scanned;
  }

  // ------------------------------------------------------------------ nobody left

  /** When the last session goes, at its end or stopped, the engine stops if it obeys, and
      the program asks for nothing any more. */
  lemma LastOneStops(b: Batching, e: Event)
    requires b.trips != [] && Step(b, e).trips == []
    ensures e.Report? || e.Leave?
    ensures var n := Step(b, e);
      && n.distance == 0 && n.tbf == 0
      && n.world.engine == if e.ok then Idle else b.world.engine
  {
    hide Swept, Erase, Put, Scanned, Accumulated, NewDistance;
    match e
    case Report(k, _) => SomebodyFinished(b, k);
    case Join(_, _, _, _, _, _) => NobodyGoes(b, e);
    case _ =>
  }

  lemma SomebodyFinished(b: Batching, k: U32)
    requires b.trips != [] && AfterSweep(b, k).trips == []
    ensures Swept(b, |b.trips|, k).done != []
  {
    hide Swept, Accumulated;
    var t := b.trips[0];
    SweepKeeps(b, |b.trips|, k, Refreshed(t, k));
    SweepReports(b, |b.trips|, k, t.id);
  }

  lemma {:induction false} PutIsSome(trips: seq<Trip>, t: Trip)
    ensures Put(trips, t) != []
  {
  }

  lemma NobodyGoes(b: Batching, e: Event)
    requires e.Join? && b.trips != []
    ensures Step(b, e).trips != []
  {
    hide Put, NewDistance;
    PutIsSome(b.trips, Trip(e.id, e.captured, 0, 0, e.distance, e.tbf));
  }

  /** On every run with an engine that obeys whenever it is to stop: while nobody is there it
      does not run. */
  lemma {:induction false} IdleWithoutTrips(run: seq<Event>, n: nat)
    requires n <= |run| && forall i :: 0 <= i < n && (run[i].Report? || run[i].Leave?) ==> run[i].ok
    ensures At(run, n).trips == [] ==> At(run, n).world.engine == Idle
  {
    hide Step;
    if n > 0 {
      IdleWithoutTrips(run, n - 1);
      var b, e := At(run, n - 1), run[n - 1];
      if Step(b, e).trips == [] {
        if b.trips != [] {
          LastOneStops(b, e);
        } else {
          StaysIdle(b, e);
        }
      }
    }
  }

  lemma StaysIdle(b: Batching, e: Event)
    requires b.trips == [] && Step(b, e).trips == []
    ensures Step(b, e).world.engine == b.world.engine || Step(b, e).world.engine == Idle
  {
    hide Scanned;
  }
}
