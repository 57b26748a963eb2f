/** The accounts of single trips: what one is worth does not depend on what has become of
    the others. */
module TripAccounts {
  import opened Wrappers
  import opened TripModel
  import opened TripRuns

  /** What the program keeps whatever happens. */
  ghost predicate Ordered(b: Batching) {
    && Sorted(b.trips) && b.world.started <= b.world.odometer
    && forall t :: t in b.trips ==> Joins(t, b.world)
  }

  predicate Joins(t: Trip, w: World) {
    t.id in w.joined && w.joined[t.id] <= w.odometer
  }

  /** The account of the session with this id, if there is one, is right. */
  ghost predicate RightFor(b: Batching, id: nat) {
    forall t :: t in b.trips && t.id == id ==> Accounted(t, b.world)
  }

  /** The law is that all accounts are right. */
  lemma LawIsAllRight(b: Batching)
    ensures Law(b) <==> Ordered(b) && forall id :: RightFor(b, id)
  {
    if Ordered(b) && forall id :: RightFor(b, id) {
      forall t | t in b.trips
        ensures Accounted(t, b.world)
      {
        assert RightFor(b, t.id);
      }
    }
  }

  /** A forced restart leaves a session that was there what it is: the engine obeying, its
      distance was up to date; otherwise it was what it had been when the engine started. */
  predicate StaleIsRight(u: Trip, w: World, ok: bool) {
    u.thisTrip == if ok then Accumulated(u, Counter(w)) else Minus(u.onRestart, u.ongoing)
  }

  /** The events that leave the account of one session right, told from what is there
      before: the counter is current where the session is rebased on it, or joins with it; a
      forced restart finds it as it should be; the engine does not come up anew having
      counted for it. What happens to others does not matter. */
  predicate FairTo(b: Batching, e: Event, id: nat) {
    match e
    case Travel(_) => true
    case Report(captured, ok) =>
      || Swept(b, |b.trips|, captured).done == []
      || !Restarts(AfterSweep(b, captured), captured, ok)
      || Current(b, captured) || !Has(AfterSweep(b, captured).trips, id)
    case Join(_, _, _, queried, captured, ok) =>
      || b.trips == []
      || if ForcesRestart(b, e)
         then (if id == e.id then queried && !ok ==> Counter(b.world) == 0
               else Has(b.trips, id) ==> StaleIsRight(Find(b.trips, id).value, b.world, ok))
         else id == e.id && queried ==> Current(b, captured)
    case Leave(gone, captured, ok) =>
      || !Has(b.trips, gone) || !Restarts(AfterErase(b, gone), captured, ok)
      || Current(b, captured) || id == gone || !Has(b.trips, id)
    case EngineUp(_) => Counter(b.world) == 0 || !Has(b.trips, id)
  }

  // ------------------------------------------------------------------ single events

  lemma HasIsMember(trips: seq<Trip>, id: nat)
    ensures Has(trips, id) <==> exists t :: t in trips && t.id == id
  {
    if t :| t in trips && t.id == id {
      HasMember(trips, t);
    }
    assert forall i :: 0 <= i < |trips| ==> trips[i] in trips;
  }

  lemma TravelIsFair(b: Batching, far: nat, id: nat)
    requires Ordered(b) && RightFor(b, id)
    ensures Ordered(Step(b, Travel(far))) && RightFor(Step(b, Travel(far)), id)
  {
    var c := Step(b, Travel(far));
    forall t | t in c.trips && t.id == id
      ensures Accounted(t, c.world)
    {
      AccountedAsSum(t, b.world);
      AccountedAsSum(t, c.world);
    }
  }

  lemma RestartIsFairIff(c: Batching, k: U32, ok: bool, id: nat)
    requires Ordered(c) && RightFor(c, id)
    ensures Ordered(Restart(c, k, ok))
    ensures RightFor(Restart(c, k, ok), id) <==> !Restarts(c, k, ok) || Current(c, k) || !Has(c.trips, id)
  {
    hide Scanned, Accounted;
    var n := Restart(c, k, ok);
    if Restarts(c, k, ok) {
      assert |n.trips| == |c.trips| && CountsAnew(c.world, n.world);
      assert forall i :: 0 <= i < |c.trips| ==> c.trips[i] in c.trips && n.trips[i] == Rebased(c.trips[i], k);
      forall i | 0 <= i < |c.trips| && c.trips[i].id == id
        ensures Accounted(n.trips[i], n.world) <==> Current(c, k)
      {
        RebasedAccounted(c.trips[i], c.world, n.world, k);
      }
      if Has(c.trips, id) {
        var i :| 0 <= i < |c.trips| && c.trips[i].id == id;
        assert n.trips[i] in n.trips && n.trips[i].id == id;
      }
    }
  }

  lemma SweepIsFair(b: Batching, k: U32, id: nat)
    requires Ordered(b) && RightFor(b, id)
    ensures Ordered(AfterSweep(b, k)) && RightFor(AfterSweep(b, k), id)
  {
    hide Swept;
    SweepSorted(b, |b.trips|, k);
    forall u | u in AfterSweep(b, k).trips
      ensures Joins(u, b.world) && (u.id == id ==> Accounted(u, b.world))
    {
      SweepKeeps(b, |b.trips|, k, u);
      var i :| 0 <= i < |b.trips| && u == Refreshed(b.trips[i], k);
      assert b.trips[i] in b.trips;
    }
  }

  lemma EraseIsFair(b: Batching, gone: nat, id: nat)
    requires Ordered(b) && RightFor(b, id)
    ensures var c := AfterErase(b, gone);
      Ordered(c) && RightFor(c, id) && (Has(b.trips, gone) ==> (Has(c.trips, id) <==> Has(b.trips, id) && id != gone))
  {
    EraseFacts(b.trips, gone);
    HasIsMember(b.trips, id);
    HasIsMember(AfterErase(b, gone).trips, id);
  }

  lemma LeaveIsFairIff(b: Batching, gone: nat, k: U32, ok: bool, id: nat)
    requires Ordered(b) && RightFor(b, id)
    ensures Ordered(Step(b, Leave(gone, k, ok)))
    ensures RightFor(Step(b, Leave(gone, k, ok)), id) <==> FairTo(b, Leave(gone, k, ok), id)
  {
    hide Restart, Restarts, RightFor, Ordered, Counter;
    EraseIsFair(b, gone, id);
    var c := AfterErase(b, gone);
    RestartIsFairIff(c, k, ok, id);
    if Has(b.trips, gone) && c.trips == [] {
      var n := Step(b, Leave(gone, k, ok));
      assert n.trips == [];
      NoTripsAreRight(n, id);
      NoTripsNoRestart(c, k, ok);
    }
  }

  lemma NoTripsAreRight(n: Batching, id: nat)
    requires n.trips == []
    ensures RightFor(n, id) && (n.world.started <= n.world.odometer ==> Ordered(n))
  {
  }

  lemma JoinedIsFairIff(b: Batching, e: Event, id: nat)
    requires Ordered(b) && RightFor(b, id) && e.Join? && !Has(b.trips, e.id)
    ensures var j := Joined(b, e.id, e.distance, e.tbf, e.queried, e.captured);
      && Ordered(j) && j.world.started == b.world.started && j.world.odometer == b.world.odometer
      && (RightFor(j, id) <==> (id == e.id && e.queried ==> Current(b, e.captured)))
      && (forall t :: t in j.trips && t.id != e.id ==> t in b.trips && (t.id == id ==> Accounted(t, j.world)))
      && (forall t :: t in b.trips ==> t in j.trips && t.id != e.id)
      && (e.queried ==> j.world.joined == b.world.joined[e.id := b.world.odometer])
      && (e.queried ==> Trip(e.id, e.captured, 0, 0, e.distance, e.tbf) in j.trips)
      && (forall t :: t in j.trips && t.id == e.id ==> e.queried && t == Trip(e.id, e.captured, 0, 0, e.distance, e.tbf))
  {
    hide Accounted, Put;
    forall t | t in b.trips
      ensures t.id != e.id
    {
      HasMember(b.trips, t);
    }
    if e.queried {
      var t := Trip(e.id, e.captured, 0, 0, e.distance, e.tbf);
      var j := Joined(b, e.id, e.distance, e.tbf, e.queried, e.captured);
      PutFacts(b.trips, t);
      NewAccounted(t, j.world);
      forall u | u in b.trips && u.id == id
        ensures Accounted(u, j.world)
      {
        OthersAccounted(u, b.world, j.world);
      }
      assert t in j.trips;
    }
  }

  /** The restart that a new session forces, for that session. */
  lemma ForcedForItselfIff(b: Batching, e: Event)
    requires Ordered(b) && e.Join? && !Has(b.trips, e.id) && ForcesRestart(b, e)
    ensures Ordered(Step(b, e))
    ensures RightFor(Step(b, e), e.id) <==> (e.queried && !e.ok ==> Counter(b.world) == 0)
  {
    hide Accumulated, Travelled, Put, NewDistance, Accounted, Step, ForcesRestart, Counter;
    var j, n := Joined(b, e.id, e.distance, e.tbf, e.queried, e.captured), Step(b, e);
    var t := Trip(e.id, e.captured, 0, 0, e.distance, e.tbf);
    NotThereIsRight(b, e.id);
    JoinedIsFairIff(b, e, e.id);
    ForcedState(b, e);
    StaleMembers(j.trips, n.trips);
    if e.queried {
      NewStale(t, n.world);
      assert RebasedStale(t) in n.trips && RebasedStale(t).id == e.id;
    }
  }

  /** And for one of the others. */
  lemma ForcedForOtherIff(b: Batching, e: Event, u: Trip)
    requires Ordered(b) && RightFor(b, u.id) && e.Join? && !Has(b.trips, e.id) && ForcesRestart(b, e)
    requires u in b.trips
    ensures RightFor(Step(b, e), u.id) <==> StaleIsRight(u, b.world, e.ok)
  {
    hide Accumulated, Travelled, Put, NewDistance, Accounted, Step, ForcesRestart, Counter;
    var j, n := Joined(b, e.id, e.distance, e.tbf, e.queried, e.captured), Step(b, e);
    JoinedIsFairIff(b, e, u.id);
    ForcedState(b, e);
    StaleMembers(j.trips, n.trips);
    assert RebasedStale(u) in n.trips;
    forall v | v in n.trips && v.id == u.id
      ensures v == RebasedStale(u)
    {
      var w :| w in j.trips && v == RebasedStale(w);
      OneOfId(b.trips, u);
      OneOfId(b.trips, w);
    }
    if e.ok {
      StaleAfterStart(u, b.world, n.world);
    } else {
      StaleWhileCounting(u, b.world, n.world);
    }
  }

  lemma ForcedIsFairIff(b: Batching, e: Event, id: nat)
    requires Ordered(b) && RightFor(b, id) && e.Join? && !Has(b.trips, e.id) && ForcesRestart(b, e)
    ensures Ordered(Step(b, e))
    ensures RightFor(Step(b, e), id) <==> FairTo(b, e, id)
  {
    hide StaleIsRight, RightFor, NewDistance, ForcesRestart, Step;
    ForcedForItselfIff(b, e);
    ForcesWithTrips(b, e);
    if id != e.id {
      if Has(b.trips, id) {
        ForcedForOtherIff(b, e, Find(b.trips, id).value);
      } else {
        NoNewTrips(b, e, id);
      }
    }
  }

  lemma ForcesWithTrips(b: Batching, e: Event)
    requires e.Join? && ForcesRestart(b, e)
    ensures b.trips != []
  {
  }

  lemma NoNewTrips(b: Batching, e: Event, id: nat)
    requires Ordered(b) && e.Join? && !Has(b.trips, e.id) && ForcesRestart(b, e) && !Has(b.trips, id) && id != e.id
    ensures RightFor(Step(b, e), id)
  {
    hide Accounted, Put, NewDistance, Step, ForcesRestart, Counter;
    var j, n := Joined(b, e.id, e.distance, e.tbf, e.queried, e.captured), Step(b, e);
    NotThereIsRight(b, id);
    JoinedIsFairIff(b, e, id);
    ForcedState(b, e);
    StaleMembers(j.trips, n.trips);
    HasIsMember(b.trips, id);
  }

  lemma OneOfId(trips: seq<Trip>, u: Trip)
    requires Sorted(trips) && u in trips
    ensures Find(trips, u.id) == Some(u)
  {
    HasMember(trips, u);
    var v := Find(trips, u.id).value;
    var i :| 0 <= i < |trips| && trips[i] == u;
    var j :| 0 <= j < |trips| && trips[j] == v;
    assert i == j;
  }

  lemma JoinIsFairIff(b: Batching, e: Event, id: nat)
    requires Ordered(b) && RightFor(b, id) && e.Join? && !Has(b.trips, e.id)
    ensures Ordered(Step(b, e))
    ensures RightFor(Step(b, e), id) <==> FairTo(b, e, id)
  {
    hide RightFor, Ordered, ForcesRestart;
    if b.trips == [] {
      FirstIsFair(b, e, id);
    } else if ForcesRestart(b, e) {
      ForcedIsFairIff(b, e, id);
    } else {
      JoinedIsFairIff(b, e, id);
      QuietIsJoined(b, e);
    }
  }

  lemma QuietIsJoined(b: Batching, e: Event)
    requires e.Join? && b.trips != [] && !ForcesRestart(b, e)
    ensures Step(b, e) == Joined(b, e.id, e.distance, e.tbf, e.queried, e.captured)
  {
    hide Put;
  }

  lemma FirstIsFair(b: Batching, e: Event, id: nat)
    requires Ordered(b) && e.Join? && b.trips == []
    ensures Ordered(Step(b, e)) && RightFor(Step(b, e), id)
  {
  }

  lemma EngineUpIsFairIff(b: Batching, ok: bool, id: nat)
    requires Ordered(b) && RightFor(b, id)
    ensures Ordered(Step(b, EngineUp(ok)))
    ensures RightFor(Step(b, EngineUp(ok)), id) <==> FairTo(b, EngineUp(ok), id)
  {
    hide Accounted, Counter, Scanned;
    HasIsMember(b.trips, id);
    if b.trips != [] {
      var n := Step(b, EngineUp(ok));
      forall t | t in b.trips && t.id == id
        ensures Accounted(t, n.world) <==> Counter(b.world) == 0
      {
        AnewAccounted(t, b.world, n.world);
      }
    }
  }

  /** Of every event and every session: its account, right before, is right afterwards
      exactly if the event is fair to it. */
  lemma StepKeepsAccountIff(b: Batching, e: Event, id: nat)
    requires Ordered(b) && RightFor(b, id) && FreshId(b, e)
    ensures Ordered(Step(b, e))
    ensures RightFor(Step(b, e), id) <==> FairTo(b, e, id)
  {
    hide Ordered, RightFor, OnLeave, FirstTrip, AnotherTrip, Restarts, Restart, Swept, OnEngineUp, ForcesRestart, Counter;
    match e
    case Travel(far) => TravelIsFair(b, far, id);
    case Report(captured, ok) =>
      SweepIsFair(b, captured, id);
      RestartIsFairIff(AfterSweep(b, captured), captured, ok, id);
    case Join(_, _, _, _, _, _) => JoinIsFairIff(b, e, id);
    case Leave(gone, captured, ok) => LeaveIsFairIff(b, gone, captured, ok, id);
    case EngineUp(ok) => EngineUpIsFairIff(b, ok, id);
  }

  /** So the law goes on exactly if the event is fair to all. */
  lemma FaithfulIsFairToAll(b: Batching, e: Event)
    requires Law(b) && FreshId(b, e)
    ensures Faithful(b, e) <==> forall id :: FairTo(b, e, id)
  {
    hide Step, Law, Faithful, FairTo, RightFor, Ordered, FreshId;
    LawIsAllRight(b);
    LawIsAllRight(Step(b, e));
    StepKeepsLawIff(b, e);
    forall id
      ensures Ordered(Step(b, e)) && (RightFor(Step(b, e), id) <==> FairTo(b, e, id))
    {
      StepKeepsAccountIff(b, e, id);
    }
    StepKeepsAccountIff(b, e, 0);
  }

  /** A session that has the engine start again, and the engine obeying, starts right,
      whatever it makes of the others. */
  lemma ForcerStartsRight(b: Batching, e: Event)
    requires Ordered(b) && FreshId(b, e) && e.Join? && e.queried && e.ok && ForcesRestart(b, e)
    ensures Has(Step(b, e).trips, e.id) && RightFor(Step(b, e), e.id)
  {
    hide Step, ForcesRestart, Accounted;
    var j, n := Joined(b, e.id, e.distance, e.tbf, e.queried, e.captured), Step(b, e);
    NotThereIsRight(b, e.id);
    StepKeepsAccountIff(b, e, e.id);
    JoinedIsFairIff(b, e, e.id);
    ForcedState(b, e);
    StaleMembers(j.trips, n.trips);
    HasMember(n.trips, RebasedStale(Trip(e.id, e.captured, 0, 0, e.distance, e.tbf)));
  }

  lemma NotThereIsRight(b: Batching, id: nat)
    requires !Has(b.trips, id)
    ensures RightFor(b, id)
  {
    HasIsMember(b.trips, id);
  }

  // ------------------------------------------------------------------ runs

  lemma {:induction false} EveryRunIsOrdered(run: seq<Event>, n: nat)
    requires n <= |run| && forall i :: 0 <= i < n ==> FreshId(At(run, i), run[i])
    ensures Ordered(At(run, n))
  {
    hide Step, Ordered, FreshId;
    if n == 0 {
      NoTripsAreRight(INITIAL, 0);
    } else {
      EveryRunIsOrdered(run, n - 1);
      StepKeepsOrder(At(run, n - 1), run[n - 1]);
    }
  }

  /** After the first i events of a run the account of the session is right. */
  ghost predicate RightAt(run: seq<Event>, i: nat, id: nat)
    requires i <= |run|
  {
    RightFor(At(run, i), id)
  }

  /** The next event is fair to it. */
  ghost predicate FairAt(run: seq<Event>, i: nat, id: nat)
    requires i < |run|
  {
    FairTo(At(run, i), run[i], id)
  }

  lemma {:induction false} EveryRunKeepsAccountIf(run: seq<Event>, n: nat, id: nat)
    requires n <= |run| && (forall i :: 0 <= i < n ==> FreshId(At(run, i), run[i])) && forall i: nat :: i < n ==> FairAt(run, i, id)
    ensures RightAt(run, n, id)
  {
    hide Step, FairTo, RightFor, Ordered, FreshId;
    if n == 0 {
      NoTripsAreRight(INITIAL, id);
    } else {
      assert At(run, n) == Step(At(run, n - 1), run[n - 1]) && FairAt(run, n - 1, id);
      EveryRunKeepsAccountIf(run, n - 1, id);
      EveryRunIsOrdered(run, n - 1);
      StepKeepsAccountIff(At(run, n - 1), run[n - 1], id);
    }
  }

  /** On every run, whatever becomes of the other sessions: the account of one is right at
      any time up to an event exactly if every event before is fair to it. */
  lemma EveryRunKeepsAccountIff(run: seq<Event>, n: nat, id: nat)
    requires n <= |run| && forall i :: 0 <= i < n ==> FreshId(At(run, i), run[i])
    ensures (forall i: nat :: i <= n ==> RightAt(run, i, id)) <==>
            forall i: nat :: i < n ==> FairAt(run, i, id)
  {
    hide Step, FairTo, RightFor, Ordered, FreshId;
    if forall i: nat :: i < n ==> FairAt(run, i, id) {
      forall i: nat | i <= n
        ensures RightAt(run, i, id)
      {
        EveryRunKeepsAccountIf(run, i, id);
      }
    }
    if forall i: nat :: i <= n ==> RightAt(run, i, id) {
      forall i: nat | i < n
        ensures FairAt(run, i, id)
      {
        assert RightAt(run, i, id) && RightAt(run, i + 1, id);
        EveryRunIsOrdered(run, i);
        StepKeepsAccountIff(At(run, i), run[i], id);
      }
    }
  }

  lemma StepKeepsOrder(b: Batching, e: Event)
    requires Ordered(b) && FreshId(b, e)
    ensures Ordered(Step(b, e))
  {
    hide Step;
    var id := if b.trips == [] then 0 else b.trips[|b.trips| - 1].id + 1;
    assert !Has(b.trips, id);
    NotThereIsRight(b, id);
    StepKeepsAccountIff(b, e, id);
  }
}
