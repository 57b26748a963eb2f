/** How often the engine reports positions: the intervals that sessions ask for, and what the
    program and the engine make of them. */
module TripIntervals {
  import opened Wrappers
  import opened TripModel
  import opened TripRuns
  import opened TripTiming

  /** What the program holds as the interval is no longer than any session asks for; 0
      also stands for an engine that refused to start. */
  ghost predicate QuickEnough(b: Batching) {
    forall i :: 0 <= i < |b.trips| ==> b.tbf <= b.trips[i].tbf
  }

  /** The scan for the smallest interval misses one of 0, as the last is not. */
  ghost predicate MissesZero(trips: seq<Trip>) {
    trips != [] && trips[|trips| - 1].tbf != 0 && exists i :: 0 <= i < |trips| && trips[i].tbf == 0
  }

  /** The restart sets the interval to what the scan found. */
  predicate SetsInterval(c: Batching, captured: U32, ok: bool) {
    var tbf := Scanned(c.trips, |c.trips|).tbf;
    Restarts(c, captured, ok) && (tbf < c.tbf || (tbf != c.tbf && c.tbfDropped))
  }

  /** The events that make the program hold too long an interval, told from the sessions
      there are: it is set by a scan that misses a 0. */
  ghost predicate Misscans(b: Batching, e: Event) {
    match e
    case Report(k, ok) =>
      Swept(b, |b.trips|, k).done != [] && SetsInterval(AfterSweep(b, k), k, ok) && MissesZero(AfterSweep(b, k).trips)
    case Leave(id, k, ok) =>
      Has(b.trips, id) && SetsInterval(AfterErase(b, id), k, ok) && MissesZero(AfterErase(b, id).trips)
    case EngineUp(ok) => ok && MissesZero(b.trips)
    case _ => false
  }

  // ------------------------------------------------------------------ what the program holds

  lemma ScannedIntervalIff(trips: seq<Trip>)
    ensures (forall i :: 0 <= i < |trips| ==> Scanned(trips, |trips|).tbf <= trips[i].tbf) <==> !MissesZero(trips)
  {
    hide Scanned, Scan0;
    if trips != [] {
      var s := Scanned(trips, |trips|).tbf;
      ScannedIsScan0(trips, |trips|);
      ScanIsZeroIff(Intervals(trips));
      QuickestIsLeastIff(trips);
      assert forall i :: 0 <= i < |trips| ==> trips[i] in trips && Intervals(trips)[i] in Intervals(trips);
    }
  }

  lemma RestartQuickIff(c: Batching, captured: U32, ok: bool)
    requires QuickEnough(c)
    ensures QuickEnough(Restart(c, captured, ok)) <==> !(SetsInterval(c, captured, ok) && MissesZero(c.trips))
  {
    hide Accumulated, Remaining, Minus, Scanned, MissesZero;
    ScannedIntervalIff(c.trips);
    RestartIntervals(c, captured, ok);
    RestartHolds(c, captured, ok);
  }

  lemma RestartHolds(c: Batching, captured: U32, ok: bool)
    ensures c.trips != [] ==>
      Restart(c, captured, ok).tbf == if SetsInterval(c, captured, ok) then Scanned(c.trips, |c.trips|).tbf else c.tbf
    ensures c.trips == [] ==> !SetsInterval(c, captured, ok)
  {
    hide Accumulated, Scanned;
  }

  lemma RestartIntervals(c: Batching, captured: U32, ok: bool)
    ensures var n := Restart(c, captured, ok);
      |n.trips| == |c.trips| && forall i :: 0 <= i < |c.trips| ==> n.trips[i].tbf == c.trips[i].tbf
  {
    hide Accumulated, Scanned;
  }

  /** Where an interval comes from: it was there, or is that of the session that joins. */
  ghost predicate Known(b: Batching, e: Event, tbf: U32) {
    || (exists j :: 0 <= j < |b.trips| && b.trips[j].tbf == tbf)
    || (e.Join? && (b.trips == [] || e.queried) && tbf == e.tbf)
  }

  ghost predicate AllKnown(b: Batching, e: Event, trips: seq<Trip>) {
    forall i :: 0 <= i < |trips| ==> Known(b, e, trips[i].tbf)
  }

  lemma PartIsQuick(b: Batching, e: Event, c: Batching)
    requires QuickEnough(b) && !e.Join? && AllKnown(b, e, c.trips) && c.tbf == b.tbf
    ensures QuickEnough(c)
  {
    forall i | 0 <= i < |c.trips|
      ensures c.tbf <= c.trips[i].tbf
    {
      assert Known(b, e, c.trips[i].tbf);
    }
  }

  lemma {:induction false} EraseIsPart(trips: seq<Trip>, id: nat)
    ensures forall t :: t in Erase(trips, id) ==> t in trips
  {
    if trips != [] {
      EraseIsPart(trips[1..], id);
    }
  }

  lemma {:induction false} PutIsPart(trips: seq<Trip>, u: Trip)
    ensures forall t :: t in Put(trips, u) ==> t in trips || t == u
    ensures u in Put(trips, u) && |Put(trips, u)| >= |trips|
  {
    if trips != [] {
      PutIsPart(trips[1..], u);
    }
  }

  lemma SweptIntervals(b: Batching, e: Event, k: U32)
    ensures AllKnown(b, e, AfterSweep(b, k).trips)
  {
    hide Swept, Accumulated;
    var c := AfterSweep(b, k);
    forall i | 0 <= i < |c.trips|
      ensures Known(b, e, c.trips[i].tbf)
    {
      SweepKeeps(b, |b.trips|, k, c.trips[i]);
    }
  }

  lemma LeftIntervals(b: Batching, e: Event, id: nat)
    ensures AllKnown(b, e, AfterErase(b, id).trips)
  {
    hide Erase;
    EraseIsPart(b.trips, id);
    var c := AfterErase(b, id);
    assert forall i :: 0 <= i < |c.trips| ==> c.trips[i] in c.trips;
  }

  lemma JoinedIntervals(b: Batching, e: Event)
    requires e.Join?
    ensures var n := AnotherTrip(b, e);
      && AllKnown(b, e, n.trips)
      && (e.queried ==> exists i :: 0 <= i < |n.trips| && n.trips[i].tbf == e.tbf)
  {
    hide Put, NewDistance;
    var u := Trip(e.id, e.captured, 0, 0, e.distance, e.tbf);
    var j, n := Joined(b, e.id, e.distance, e.tbf, e.queried, e.captured), AnotherTrip(b, e);
    PutIsPart(b.trips, u);
    assert |n.trips| == |j.trips| && forall i :: 0 <= i < |j.trips| ==> n.trips[i].tbf == j.trips[i].tbf && j.trips[i] in j.trips;
    if e.queried {
      var i :| 0 <= i < |j.trips| && j.trips[i] == u;
      assert n.trips[i].tbf == e.tbf;
    }
  }

  lemma ReportQuickIff(b: Batching, k: U32, ok: bool)
    requires QuickEnough(b)
    ensures QuickEnough(OnReport(b, k, ok)) <==> !Misscans(b, Report(k, ok))
  {
    hide QuickEnough, Swept, Restart, SetsInterval, MissesZero;
    SweptIntervals(b, Report(k, ok), k);
    PartIsQuick(b, Report(k, ok), AfterSweep(b, k));
    RestartQuickIff(AfterSweep(b, k), k, ok);
  }

  lemma LeaveQuickIff(b: Batching, id: nat, k: U32, ok: bool)
    requires QuickEnough(b)
    ensures QuickEnough(OnLeave(b, id, k, ok)) <==> !Misscans(b, Leave(id, k, ok))
  {
    hide Restart, Erase, SetsInterval;
    var c := AfterErase(b, id);
    LeftIntervals(b, Leave(id, k, ok), id);
    PartIsQuick(b, Leave(id, k, ok), c);
    RestartQuickIff(c, k, ok);
    RestartHolds(c, k, ok);
  }

  lemma AnotherIsQuick(b: Batching, e: Event)
    requires QuickEnough(b) && e.Join?
    ensures QuickEnough(AnotherTrip(b, e))
  {
    hide Put, Minus, Plus;
    PutIsPart(b.trips, Trip(e.id, e.captured, 0, 0, e.distance, e.tbf));
    var j := Joined(b, e.id, e.distance, e.tbf, e.queried, e.captured);
    forall i | 0 <= i < |j.trips|
      ensures (if b.tbf > e.tbf then e.tbf else b.tbf) <= j.trips[i].tbf
    {
      assert j.trips[i] in j.trips;
    }
  }

  lemma EngineUpQuickIff(b: Batching, ok: bool)
    requires QuickEnough(b)
    ensures QuickEnough(OnEngineUp(b, ok)) <==> !(ok && MissesZero(b.trips))
  {
    hide Scanned, MissesZero;
    ScannedIntervalIff(b.trips);
  }

  /** Of every event: the interval the program holds stays short enough for all sessions
      exactly if it is not set by a scan that misses a 0. */
  lemma StepIsQuickIff(b: Batching, e: Event)
    requires QuickEnough(b)
    ensures QuickEnough(Step(b, e)) <==> !Misscans(b, e)
  {
    hide OnReport, OnLeave, AnotherTrip, OnEngineUp, Misscans;
    match e
    case Travel(_) => NeverMisscans(b, e);
    case Report(captured, ok) => ReportQuickIff(b, captured, ok);
    case Join(_, _, _, _, _, _) =>
      NeverMisscans(b, e);
      if b.trips != [] {
        AnotherIsQuick(b, e);
      }
    case Leave(id, captured, ok) => LeaveQuickIff(b, id, captured, ok);
    case EngineUp(ok) =>
      EngineUpQuickIff(b, ok);
      EngineUpMisscans(b, ok);
  }

  lemma NeverMisscans(b: Batching, e: Event)
    requires e.Travel? || e.Join?
    ensures !Misscans(b, e)
  {
  }

  lemma EngineUpMisscans(b: Batching, ok: bool)
    ensures Misscans(b, EngineUp(ok)) <==> ok && MissesZero(b.trips)
  {
  }

  lemma NobodyAsks()
    ensures QuickEnough(INITIAL) && Positive(INITIAL.trips)
  {
  }

  /** After the first i events of a run the interval held is short enough. */
  ghost predicate QuickAt(run: seq<Event>, i: nat)
    requires i <= |run|
  {
    QuickEnough(At(run, i))
  }

  /** The next event misscans. */
  ghost predicate MisscansAt(run: seq<Event>, i: nat)
    requires i < |run|
  {
    Misscans(At(run, i), run[i])
  }

  lemma {:induction false} EveryRunIsQuickIf(run: seq<Event>, n: nat)
    requires n <= |run| && forall i: nat :: i < n ==> !MisscansAt(run, i)
    ensures QuickAt(run, n)
  {
    hide Step, Misscans, QuickEnough;
    if n == 0 {
      NobodyAsks();
    } else {
      assert At(run, n) == Step(At(run, n - 1), run[n - 1]) && !MisscansAt(run, n - 1);
      EveryRunIsQuickIf(run, n - 1);
      StepIsQuickIff(At(run, n - 1), run[n - 1]);
    }
  }

  /** On every run, whatever the engine answers: the interval held is no longer than any
      live session asks for at any time up to an event exactly if none before misscans. */
  lemma EveryRunIsQuickIff(run: seq<Event>, n: nat)
    requires n <= |run|
    ensures (forall i: nat :: i <= n ==> QuickAt(run, i)) <==>
            forall i: nat :: i < n ==> !MisscansAt(run, i)
  {
    hide Step, Misscans, QuickEnough;
    if forall i: nat :: i < n ==> !MisscansAt(run, i) {
      forall i: nat | i <= n
        ensures QuickAt(run, i)
      {
        EveryRunIsQuickIf(run, i);
      }
    }
    if forall i: nat :: i <= n ==> QuickAt(run, i) {
      forall i: nat | i < n
        ensures !MisscansAt(run, i)
      {
        assert QuickAt(run, i) && QuickAt(run, i + 1);
        StepIsQuickIff(At(run, i), run[i]);
      }
    }
  }

  // ------------------------------------------------------------------ positive intervals

  ghost predicate Positive(trips: seq<Trip>) {
    forall i :: 0 <= i < |trips| ==> trips[i].tbf > 0
  }

  lemma KnownIsPositive(b: Batching, e: Event, trips: seq<Trip>)
    requires Positive(b.trips) && (e.Join? ==> e.tbf > 0) && AllKnown(b, e, trips)
    ensures Positive(trips)
  {
    forall i | 0 <= i < |trips|
      ensures trips[i].tbf > 0
    {
      assert Known(b, e, trips[i].tbf);
    }
  }

  /** All intervals after an event are known, and a session that joins is there if the
      engine could be queried. */
  lemma IntervalsAfter(b: Batching, e: Event)
    ensures AllKnown(b, e, Step(b, e).trips)
    ensures e.Join? && e.queried && b.trips != [] ==>
      exists i :: 0 <= i < |Step(b, e).trips| && Step(b, e).trips[i].tbf == e.tbf
  {
    hide Restart, Swept, Accumulated, Put, Erase, AnotherTrip, Scanned;
    match e
    case Travel(_) =>
    case EngineUp(_) =>
    case Report(k, ok) =>
      SweptIntervals(b, e, k);
      RestartIntervals(AfterSweep(b, k), k, ok);
    case Leave(id, k, ok) =>
      LeftIntervals(b, e, id);
      RestartIntervals(AfterErase(b, id), k, ok);
    case Join(_, _, _, _, _, _) => JoinedIntervals(b, e);
  }

  lemma PositiveStep(b: Batching, e: Event)
    requires Positive(b.trips) && (e.Join? ==> e.tbf > 0)
    ensures Positive(Step(b, e).trips) && !Misscans(b, e)
  {
    hide Swept, SetsInterval, Step, Positive;
    IntervalsAfter(b, e);
    KnownIsPositive(b, e, Step(b, e).trips);
    match e
    case Report(k, ok) =>
      SweptIntervals(b, e, k);
      KnownIsPositive(b, e, AfterSweep(b, k).trips);
      PositiveHasNoZero(AfterSweep(b, k).trips);
    case Leave(id, k, ok) =>
      LeftIntervals(b, e, id);
      KnownIsPositive(b, e, AfterErase(b, id).trips);
      PositiveHasNoZero(AfterErase(b, id).trips);
    case _ => PositiveHasNoZero(b.trips);
  }

  lemma PositiveHasNoZero(trips: seq<Trip>)
    requires Positive(trips)
    ensures !MissesZero(trips)
  {
  }

  /** Where all sessions ask for positive intervals, no event misscans. */
  lemma {:induction false} PositiveRunIsQuick(run: seq<Event>, n: nat)
    requires n <= |run| && forall i :: 0 <= i < n && run[i].Join? ==> run[i].tbf > 0
    ensures Positive(At(run, n).trips) && QuickEnough(At(run, n))
  {
    hide Step, Positive, QuickEnough, Misscans;
    if n == 0 {
      NobodyAsks();
    } else {
      PositiveRunIsQuick(run, n - 1);
      PositiveStep(At(run, n - 1), run[n - 1]);
      StepIsQuickIff(At(run, n - 1), run[n - 1]);
    }
  }

  // ------------------------------------------------------------------ what the engine does

  /** The engine itself reports positions at least as often as every session asks. */
  ghost predicate EngineIsQuick(b: Batching) {
    b.trips != [] ==>
      b.world.engine.Running? && forall i :: 0 <= i < |b.trips| ==> b.world.engine.tbf <= b.trips[i].tbf
  }

  /** The event has the engine start, and it obeys. */
  predicate Obeyed(b: Batching, e: Event) {
    match e
    case Travel(_) => false
    case Report(k, ok) => Swept(b, |b.trips|, k).done != [] && Restarts(AfterSweep(b, k), k, ok)
    case Join(_, _, _, _, _, ok) => ok && (b.trips == [] || ForcesRestart(b, e))
    case Leave(id, k, ok) => Has(b.trips, id) && Restarts(AfterErase(b, id), k, ok)
    case EngineUp(ok) => ok && b.trips != []
  }

  /** The engine is lost, or does not start for a session that asks for more than it gives. */
  predicate Lags(b: Batching, e: Event) {
    match e
    case Join(_, _, tbf, queried, _, _) =>
      b.trips != [] && queried && !Obeyed(b, e) && b.world.engine.Running? && tbf < b.world.engine.tbf
    case EngineUp(ok) => b.trips != [] && !ok
    case _ => false
  }

  /** An engine that obeys is quick enough, whatever it was before, unless the scan misses
      a 0. */
  lemma ObeyedIsQuickIff(b: Batching, e: Event)
    requires QuickEnough(b) && Obeyed(b, e)
    ensures EngineIsQuick(Step(b, e)) <==> !Misscans(b, e)
  {
    hide OnReport, OnLeave, AnotherTrip, OnEngineUp, Restart, Restarts, Swept, Misscans, Obeyed, Step;
    StepIsQuickIff(b, e);
    EngineHoldsWhatIsHeld(b, e);
  }

  /** Once it has obeyed, the engine does what the program holds. */
  lemma EngineHoldsWhatIsHeld(b: Batching, e: Event)
    requires Obeyed(b, e)
    ensures Step(b, e).world.engine == Running(Step(b, e).distance, Step(b, e).tbf)
  {
    hide Swept, Scanned, Accumulated, Put, Erase;
    match e
    case Report(k, ok) => RestartedState(AfterSweep(b, k), k);
    case Leave(id, k, ok) => RestartedState(AfterErase(b, id), k);
    case _ =>
  }

  /** Otherwise it does what it did, or has been lost or stopped. */
  lemma EngineElse(b: Batching, e: Event)
    requires !Obeyed(b, e) && Step(b, e).trips != []
    ensures Step(b, e).world.engine == if e.EngineUp? then Idle else b.world.engine
  {
    hide Swept, Scanned, Accumulated, Put, Erase;
  }

  lemma NobodyComes(b: Batching, e: Event)
    requires !Obeyed(b, e) && b.trips == []
    ensures Step(b, e).trips == []
  {
    hide Restarts, Scanned;
  }

  lemma MisscansObeyed(b: Batching, e: Event)
    requires Misscans(b, e)
    ensures Obeyed(b, e)
  {
    hide Swept, Scanned;
  }

  /** Of every event: it keeps the engine quick enough exactly if it does not lag, and
      nothing is misscanned. */
  lemma EngineIsQuickIff(b: Batching, e: Event)
    requires QuickEnough(b) && EngineIsQuick(b)
    ensures EngineIsQuick(Step(b, e)) <==> !Lags(b, e) && !Misscans(b, e)
  {
    hide OnReport, OnLeave, AnotherTrip, OnEngineUp, Restarts, Swept, ForcesRestart, Step, Misscans;
    var n := Step(b, e);
    if Misscans(b, e) {
      MisscansObeyed(b, e);
    }
    if Obeyed(b, e) {
      ObeyedIsQuickIff(b, e);
    } else if b.trips == [] {
      NobodyComes(b, e);
    } else if n.trips != [] {
      EngineElse(b, e);
      IntervalsAfter(b, e);
      SlowIff(b, e, n);
    } else {
      TripsAfter(b, e);
    }
  }

  /** The engine going on as it was, it is the session that joins that decides. */
  lemma SlowIff(b: Batching, e: Event, n: Batching)
    requires EngineIsQuick(b) && b.trips != [] && n.trips != [] && !Obeyed(b, e)
    requires n.world.engine == if e.EngineUp? then Idle else b.world.engine
    requires AllKnown(b, e, n.trips)
    requires e.Join? && e.queried ==> exists i :: 0 <= i < |n.trips| && n.trips[i].tbf == e.tbf
    ensures EngineIsQuick(n) <==> !Lags(b, e)
  {
    hide Obeyed;
    if e.EngineUp? {
      EngineUpObeyed(b, e);
    }
  }

  lemma EngineUpObeyed(b: Batching, e: Event)
    requires e.EngineUp? && b.trips != []
    ensures Obeyed(b, e) <==> e.ok
  {
  }

  /** No session goes when one joins or the engine comes up. */
  lemma TripsAfter(b: Batching, e: Event)
    ensures b.trips != [] && (e.Join? || e.EngineUp?) ==> Step(b, e).trips != []
  {
    hide Restarts, Scanned, Accumulated, Put, NewDistance;
    if e.Join? {
      PutIsPart(b.trips, Trip(e.id, e.captured, 0, 0, e.distance, e.tbf));
    }
  }

  /** On every run the engine is quick enough from any start it has obeyed on, the interval
      held being so then, as long as nothing lags and nothing is misscanned. */
  lemma {:induction false} EngineIsQuickSince(run: seq<Event>, k: nat, n: nat)
    requires k < n <= |run| && QuickEnough(At(run, k)) && Obeyed(At(run, k), run[k])
    requires forall i :: k <= i < n ==> !Misscans(At(run, i), run[i])
    requires forall i :: k < i < n ==> !Lags(At(run, i), run[i])
    ensures QuickEnough(At(run, n)) && EngineIsQuick(At(run, n))
  {
    hide Step, Obeyed, Lags, Misscans, QuickEnough, EngineIsQuick;
    if n == k + 1 {
      StepIsQuickIff(At(run, k), run[k]);
      ObeyedIsQuickIff(At(run, k), run[k]);
    } else {
      EngineIsQuickSince(run, k, n - 1);
      StepIsQuickIff(At(run, n - 1), run[n - 1]);
      EngineIsQuickIff(At(run, n - 1), run[n - 1]);
    }
  }

  // ------------------------------------------------------------------ slowing down again

  /** The flags that a report puts up: the distance or interval asked for was that of a
      session it completes. */
  lemma SweptFlags(b: Batching, k: U32)
    ensures var c := AfterSweep(b, k);
      && (c.tbfDropped <==> b.tbfDropped || exists i: nat :: Finishes(b, |b.trips|, k, i) && b.trips[i].tbf == b.tbf)
      && (c.distanceDropped <==> b.distanceDropped || exists i: nat :: Finishes(b, |b.trips|, k, i) && b.trips[i].distance == b.distance)
  {
    SweptFlagsUpTo(b, |b.trips|, k);
  }

  /** The i-th of the first n sessions has come to its end. */
  predicate Finishes(b: Batching, n: nat, k: U32, i: nat)
    requires n <= |b.trips|
  {
    i < n && b.trips[i].distance <= Accumulated(b.trips[i], k)
  }

  lemma {:induction false} SweptFlagsUpTo(b: Batching, n: nat, k: U32)
    requires n <= |b.trips|
    ensures var s := Swept(b, n, k);
      && (s.tbfDropped <==> b.tbfDropped || exists i: nat :: Finishes(b, n, k, i) && b.trips[i].tbf == b.tbf)
      && (s.distanceDropped <==> b.distanceDropped || exists i: nat :: Finishes(b, n, k, i) && b.trips[i].distance == b.distance)
  {
    hide Accumulated;
    if n > 0 {
      SweptFlagsUpTo(b, n - 1, k);
      assert forall i: nat :: Finishes(b, n, k, i) ==> Finishes(b, n - 1, k, i) || i == n - 1;
      assert forall i: nat :: Finishes(b, n - 1, k, i) ==> Finishes(b, n, k, i);
      assert Finishes(b, n, k, n - 1) <==> b.trips[n - 1].distance <= Accumulated(b.trips[n - 1], k);
    }
  }

  /** And a session that stops. */
  lemma LeaveFlags(b: Batching, id: nat)
    requires Sorted(b.trips)
    ensures var c := AfterErase(b, id);
      && (c.tbfDropped <==> b.tbfDropped || exists t :: t in b.trips && t.id == id && t.tbf == b.tbf)
      && (c.distanceDropped <==> b.distanceDropped || exists t :: t in b.trips && t.id == id && t.distance == b.distance)
  {
    hide Erase;
    if t :| t in b.trips && t.id == id {
      forall u | u in b.trips && u.id == id
        ensures Find(b.trips, id) == Some(u)
      {
        FoundIs(b.trips, u);
      }
    }
  }

  lemma FoundIs(trips: seq<Trip>, u: Trip)
    requires Sorted(trips) && u in trips
    ensures Find(trips, u.id) == Some(u)
  {
    HasMember(trips, u);
    var v := Find(trips, u.id).value;
    var i :| 0 <= i < |trips| && trips[i] == u;
    var j :| 0 <= j < |trips| && trips[j] == v;
    assert i == j;
  }

  /** Once a session that set the interval has gone, a restart that is obeyed leaves the
      interval, of the program and of an engine that kept to it, at exactly the least of
      those that stay, longer or not. */
  lemma SlowsDownAgain(c: Batching, k: U32)
    requires c.trips != [] && c.tbfDropped && !MissesZero(c.trips)
    ensures var n := Restart(c, k, true);
      && IsLeast(n.tbf, Intervals(n.trips))
      && (c.world.engine.Running? && c.world.engine.tbf == c.tbf ==> n.world.engine.Running? && n.world.engine.tbf == n.tbf)
  {
    hide Accumulated, Scanned, MissesZero, Scan0, Remaining;
    var n, least := Restart(c, k, true), Scanned(c.trips, |c.trips|).tbf;
    RestartHolds(c, k, true);
    RestartIntervals(c, k, true);
    assert Intervals(n.trips) == Intervals(c.trips);
    QuickestIsLeastIff(c.trips);
    ZeroMissed(c.trips);
    if Restarts(c, k, true) {
      RestartedState(c, k);
    }
  }

  lemma ZeroMissed(trips: seq<Trip>)
    requires trips != []
    ensures MissesZero(trips) <==> !((forall t :: t in trips ==> t.tbf > 0) || trips[|trips| - 1].tbf == 0)
  {
    assert forall i :: 0 <= i < |trips| ==> trips[i] in trips;
  }

  /** So it is after a report that completes a session of that interval. */
  lemma ReportSlowsDown(b: Batching, k: U32, i: nat)
    requires Finishes(b, |b.trips|, k, i) && b.trips[i].tbf == b.tbf
    requires AfterSweep(b, k).trips != [] && !MissesZero(AfterSweep(b, k).trips)
    requires b.world.engine.Running? && b.world.engine.tbf == b.tbf
    ensures var n := Step(b, Report(k, true));
      IsLeast(n.tbf, Intervals(n.trips)) && n.world.engine.Running? && n.world.engine.tbf == n.tbf
  {
    hide Swept, Restart, MissesZero, Accumulated;
    SweptFlags(b, k);
    SweepReports(b, |b.trips|, k, b.trips[i].id);
    SlowsDownAgain(AfterSweep(b, k), k);
  }

  /** And after a stop of one. */
  lemma LeaveSlowsDown(b: Batching, k: U32, t: Trip)
    requires Sorted(b.trips) && t in b.trips && t.tbf == b.tbf
    requires AfterErase(b, t.id).trips != [] && !MissesZero(AfterErase(b, t.id).trips)
    requires b.world.engine.Running? && b.world.engine.tbf == b.tbf
    ensures var n := Step(b, Leave(t.id, k, true));
      IsLeast(n.tbf, Intervals(n.trips)) && n.world.engine.Running? && n.world.engine.tbf == n.tbf
  {
    hide Restart, MissesZero, Erase;
    LeaveFlags(b, t.id);
    HasMember(b.trips, t);
    SlowsDownAgain(AfterErase(b, t.id), k);
  }

  // ------------------------------------------------------------------ runs on which it is too slow

  /** The engine refuses to start for a quick session, and goes on for the slow one, while
      the program holds the quick interval. */
  lemma RefusedStartIsSlow()
    ensures var run := [Join(1, 1000, 60, true, 0, true), Join(2, 2000, 30, true, 0, false)];
      QuickEnough(At(run, 2)) && EngineIsQuick(At(run, 1)) && !EngineIsQuick(At(run, 2))
  {
    var run := [Join(1, 1000, 60, true, 0, true), Join(2, 2000, 30, true, 0, false)];
    assert At(run, 0) == INITIAL;
    var b1 := At(run, 1);
    assert b1 == Batching([Trip(1, 0, 0, 0, 1000, 60)], 1000, 60, false, false, World(0, 0, map[1 := 0], Running(1000, 60)));
    assert forall i :: 0 <= i < 2 && run[i].Join? ==> run[i].tbf > 0;
    PositiveRunIsQuick(run, 2);
    EngineIsQuickIff(b1, run[1]);
  }

  /** A session that asks for 0 between two others: as the engine comes up anew the scan
      forgets it, and the first as well. */
  lemma ForgottenIntervalIsSlow()
    ensures var run := [Join(1, 1000, 60, true, 0, true), Join(2, 1000, 0, true, 0, true), Join(3, 1000, 70, true, 0, true),
                        EngineUp(true)];
      QuickEnough(At(run, 3)) && !QuickEnough(At(run, 4)) && At(run, 4).tbf == 70
  {
    hide Step, QuickEnough, Misscans;
    var run := [Join(1, 1000, 60, true, 0, true), Join(2, 1000, 0, true, 0, true), Join(3, 1000, 70, true, 0, true),
                EngineUp(true)];
    assert At(run, 0) == INITIAL;
    OneJoins();
    ZeroJoins();
    LastJoins();
    assert At(run, 2) == Step(At(run, 1), run[1]);
    forall i: nat | i < 3
      ensures !MisscansAt(run, i)
    {
      NeverMisscans(At(run, i), run[i]);
    }
    EveryRunIsQuickIf(run, 3);
    var b := At(run, 3);
    assert b == Step(At(run, 2), run[2]) && At(run, 4) == Step(b, run[3]);
    assert b.trips == [Trip(1, 0, 0, 0, 1000, 60), Trip(2, 0, 0, 0, 1000, 0), Trip(3, 0, 0, 0, 1000, 70)];
    assert b.trips[1].tbf == 0;
    EngineUpMisscans(b, true);
    StepIsQuickIff(b, run[3]);
    FoundInterval(b);
  }

  lemma OneJoins()
    ensures Step(INITIAL, Join(1, 1000, 60, true, 0, true)) ==
      Batching([Trip(1, 0, 0, 0, 1000, 60)], 1000, 60, false, false, World(0, 0, map[1 := 0], Running(1000, 60)))
  {
  }

  lemma ZeroJoins()
    ensures
      var b := Batching([Trip(1, 0, 0, 0, 1000, 60)], 1000, 60, false, false, World(0, 0, map[1 := 0], Running(1000, 60)));
      Step(b, Join(2, 1000, 0, true, 0, true)) ==
        Batching([Trip(1, 0, 0, 0, 1000, 60), Trip(2, 0, 0, 0, 1000, 0)], 1000, 0, false, false,
                 World(0, 0, map[1 := 0, 2 := 0], Running(1000, 0)))
  {
    var a, z := Trip(1, 0, 0, 0, 1000, 60), Trip(2, 0, 0, 0, 1000, 0);
    assert [a][1..] == [] && Put([], z) == [z] && Put([a], z) == [a, z];
    var b := Batching([a], 1000, 60, false, false, World(0, 0, map[1 := 0], Running(1000, 60)));
    assert Step(b, Join(2, 1000, 0, true, 0, true)).trips == [a, z];
  }

  lemma LastJoins()
    ensures
      var b := Batching([Trip(1, 0, 0, 0, 1000, 60), Trip(2, 0, 0, 0, 1000, 0)], 1000, 0, false, false,
                        World(0, 0, map[1 := 0, 2 := 0], Running(1000, 0)));
      Step(b, Join(3, 1000, 70, true, 0, true)).trips ==
        [Trip(1, 0, 0, 0, 1000, 60), Trip(2, 0, 0, 0, 1000, 0), Trip(3, 0, 0, 0, 1000, 70)]
  {
    var a, z, y := Trip(1, 0, 0, 0, 1000, 60), Trip(2, 0, 0, 0, 1000, 0), Trip(3, 0, 0, 0, 1000, 70);
    assert [a, z][1..] == [z] && [z][1..] == [] && Put([], y) == [y] && Put([z], y) == [z, y] && Put([a, z], y) == [a, z, y];
  }

  lemma FoundInterval(b: Batching)
    requires b.trips == [Trip(1, 0, 0, 0, 1000, 60), Trip(2, 0, 0, 0, 1000, 0), Trip(3, 0, 0, 0, 1000, 70)]
    ensures Step(b, EngineUp(true)).tbf == 70
  {
    hide Remaining;
    assert Scanned(b.trips, 0).tbf == 0 && Scanned(b.trips, 1).tbf == 60;
    assert Scanned(b.trips, 2).tbf == 0 && Scanned(b.trips, 3).tbf == 70;
  }
}
