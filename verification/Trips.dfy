/** The trip part of BatchingAdapter, proved against TripModel. */
module Trips {
  import opened Wrappers
  import opened TripModel

  class BatchingAdapter {
    /** mTripSessions, in id order. */
    var trips: seq<Trip>
    var ongoingTripDistance: U32
    var ongoingTripTbfInterval: U32
    var tripWithOngoingTbfDropped: bool
    var tripWithOngoingDistanceDropped: bool
    ghost var world: World

    ghost function Abs(): Batching
      reads this
    {
      Batching(trips, ongoingTripDistance, ongoingTripTbfInterval,
               tripWithOngoingTbfDropped, tripWithOngoingDistanceDropped, world)
    }

    constructor ()
      ensures Abs() == INITIAL
    {
      trips := [];
      ongoingTripDistance, ongoingTripTbfInterval := 0, 0;
      tripWithOngoingTbfDropped, tripWithOngoingDistanceDropped := false, false;
      world := World(0, 0, map[], Idle);
    }

    /** The smallest remaining distance and interval of the sessions. */
    method ScanTrips() returns (minRemainingDistance: U32, minTbfInterval: U32)
      ensures Scan(minRemainingDistance, minTbfInterval) == Scanned(trips, |trips|)
    {
      minRemainingDistance, minTbfInterval := 0, 0;
      for i := 0 to |trips|
        invariant Scan(minRemainingDistance, minTbfInterval) == Scanned(trips, i)
      {
        var t := trips[i];
        if minRemainingDistance == 0 || minRemainingDistance > Minus(t.distance, t.thisTrip) {
          minRemainingDistance := Minus(t.distance, t.thisTrip);
        }
        if minTbfInterval == 0 || minTbfInterval > t.tbf {
          minTbfInterval := t.tbf;
        }
      }
    }

    /** The engine has accepted to start again: the sessions count from here. */
    method Rebase(accumulatedDistance: U32)
      modifies `trips
      ensures trips == seq(|old(trips)|, i requires 0 <= i < |old(trips)| => Rebased(old(trips)[i], accumulatedDistance))
    {
      for i := 0 to |trips|
        invariant |trips| == |old(trips)|
        invariant forall k :: 0 <= k < i ==> trips[k] == Rebased(old(trips)[k], accumulatedDistance)
        invariant forall k :: i <= k < |trips| ==> trips[k] == old(trips)[k]
      {
        var t := trips[i];
        t := t.(thisTrip := Plus(t.onRestart, Minus(accumulatedDistance, t.ongoing)));
        t := t.(ongoing := 0, onRestart := t.thisTrip);
        trips := trips[i := t];
      }
    }

    method RestartTripBatching(accumulatedDistance: U32, ok: bool)
      modifies this
      ensures Abs() == Restart(old(Abs()), accumulatedDistance, ok)
    {
      if trips == [] {
        world := EngineStopped(world, ok);
        ongoingTripDistance, ongoingTripTbfInterval := 0, 0;
        return;
      }
      var minRemainingDistance, minTbfInterval := ScanTrips();
      var needsRestart := false;
      var distance, interval := ongoingTripDistance, ongoingTripTbfInterval;
      if !tripWithOngoingDistanceDropped && Minus(distance, accumulatedDistance) != 0 {
        if minRemainingDistance < Minus(distance, accumulatedDistance) {
          distance := minRemainingDistance;
          needsRestart := true;
        }
      } else if minRemainingDistance != 0 {
        distance := minRemainingDistance;
        needsRestart := true;
      }
      if minTbfInterval < interval || (minTbfInterval != interval && tripWithOngoingTbfDropped) {
        interval := minTbfInterval;
        needsRestart := true;
      }
      if needsRestart && ok {
        world := EngineStarted(world, distance, interval);
        Rebase(accumulatedDistance);
        ongoingTripDistance, ongoingTripTbfInterval := distance, interval;
      }
    }

    /** Sorts out the completed trips and reports them. */
    method ReportCompletedTrips(accumulatedDistance: U32, ok: bool) returns (completed: seq<nat>)
      modifies this
      ensures completed == Swept(old(Abs()), |old(trips)|, accumulatedDistance).done
      ensures Abs() == Step(old(Abs()), Report(accumulatedDistance, ok))
    {
      completed := [];
      var kept, all := [], trips;
      ghost var before := Abs();
      for i := 0 to |all|
        invariant ongoingTripDistance == before.distance && ongoingTripTbfInterval == before.tbf
        invariant world == before.world && trips == before.trips == all
        invariant Swept(before, i, accumulatedDistance)
               == Sweep(kept, completed, tripWithOngoingTbfDropped, tripWithOngoingDistanceDropped)
      {
        var t := all[i];
        t := t.(thisTrip := Plus(t.onRestart, Minus(accumulatedDistance, t.ongoing)));
        if t.distance <= t.thisTrip {
          completed := completed + [t.id];
          if t.tbf == ongoingTripTbfInterval {
            tripWithOngoingTbfDropped := true;
          }
          if t.distance == ongoingTripDistance {
            tripWithOngoingDistanceDropped := true;
          }
        } else {
          kept := kept + [t];
        }
      }
      trips := kept;
      if |completed| > 0 {
        RestartTripBatching(accumulatedDistance, ok);
      }
    }

    /** A new session; distance is what the engine answers when asked how far it has
        counted, and queried whether it answers. */
    method StartTripBatchingMultiplex(id: nat, minDistance: U32, minInterval: U32, queried: bool, distance: U32, ok: bool)
      modifies this
      ensures Abs() == Step(old(Abs()), Join(id, minDistance, minInterval, queried, distance, ok))
    {
      if |trips| == 0 {
        trips := [Trip(id, 0, 0, 0, minDistance, minInterval)];
        if ok {
          world := EngineStarted(world, minDistance, minInterval).(joined := world.joined[id := world.odometer]);
          ongoingTripDistance, ongoingTripTbfInterval := minDistance, minInterval;
        } else {
          trips := [];
        }
      } else {
        StartAnother(id, minDistance, minInterval, queried, distance, ok);
      }
    }

    method StartAnother(id: nat, minDistance: U32, minInterval: U32, queried: bool, distance: U32, ok: bool)
      requires trips != []
      modifies this
      ensures Abs() == AnotherTrip(old(Abs()), Join(id, minDistance, minInterval, queried, distance, ok))
    {
      var tripDistance, tripInterval := ongoingTripDistance, ongoingTripTbfInterval;
      var needsRestart := false;
      if tripInterval > minInterval {
        tripInterval := minInterval;
        needsRestart := true;
      }
      if !queried {
        if minDistance < tripDistance {
          tripDistance := minDistance;
          needsRestart := true;
        }
      } else {
        var remaining := Minus(tripDistance, distance);
        if minDistance < remaining {
          tripDistance := minDistance;
          needsRestart := true;
        } else if needsRestart {
          tripDistance := remaining;
        }
        trips := Put(trips, Trip(id, distance, 0, 0, minDistance, minInterval));
        world := world.(joined := world.joined[id := world.odometer]);
      }
      if needsRestart {
        ongoingTripDistance, ongoingTripTbfInterval := tripDistance, tripInterval;
        RebaseStale();
        if ok {
          world := EngineStarted(world, tripDistance, tripInterval);
        }
      }
    }

    method RebaseStale()
      modifies `trips
      ensures trips == seq(|old(trips)|, i requires 0 <= i < |old(trips)| => RebasedStale(old(trips)[i]))
    {
      for i := 0 to |trips|
        invariant |trips| == |old(trips)|
        invariant forall k :: 0 <= k < i ==> trips[k] == RebasedStale(old(trips)[k])
        invariant forall k :: i <= k < |trips| ==> trips[k] == old(trips)[k]
      {
        var t := trips[i];
        trips := trips[i := t.(ongoing := 0, onRestart := t.thisTrip)];
      }
    }

    method StopTripBatchingMultiplex(id: nat, accumulatedDistance: U32, ok: bool)
      modifies this
      ensures Abs() == Step(old(Abs()), Leave(id, accumulatedDistance, ok))
    {
      var session := Find(trips, id);
      if session.Some? {
        if session.value.tbf == ongoingTripTbfInterval {
          tripWithOngoingTbfDropped := true;
        }
        if session.value.distance == ongoingTripDistance {
          tripWithOngoingDistanceDropped := true;
        }
        trips := Erase(trips, id);
        if |trips| == 0 {
          world := EngineStopped(world, ok);
          ongoingTripDistance, ongoingTripTbfInterval := 0, 0;
        } else {
          RestartTripBatching(accumulatedDistance, ok);
        }
      }
    }

    method RestartSessions(ok: bool)
      modifies this
      ensures Abs() == Step(old(Abs()), EngineUp(ok))
    {
      if |trips| > 0 {
        ongoingTripDistance, ongoingTripTbfInterval := ScanTrips();
        world := EngineStarted(world, ongoingTripDistance, ongoingTripTbfInterval);
        if !ok {
          world := world.(engine := Idle);
          ongoingTripDistance, ongoingTripTbfInterval := 0, 0;
        }
      }
    }
  }
}
