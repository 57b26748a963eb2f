/** Trips of many clients on the one outdoor trip batch of the engine: the transition of
    every event, with distances counted in 32 bits. */
module TripModel {
  import opened Wrappers

  const WRAP: nat := 0x1_0000_0000

  type U32 = x: int | 0 <= x < WRAP

  function Plus(a: U32, b: U32): U32 { (a + b) % WRAP }
  function Minus(a: U32, b: U32): U32 { (a - b) % WRAP }

  /** A session, as mTripSessions holds it under its id. */
  datatype Trip = Trip(id: nat, ongoing: U32, thisTrip: U32, onRestart: U32, distance: U32, tbf: U32)

  /** What the engine was last started for, and does. */
  datatype Engine = Idle | Running(distance: U32, tbf: U32)

  /** What the program cannot see: the distance travelled since the beginning, how much of
      it before the engine last started counting, and before each session joined; and the
      engine. */
  datatype World = World(odometer: nat, started: nat, joined: map<nat, nat>, engine: Engine)

  /** The sessions in id order, and what the engine was asked for. */
  datatype Batching = Batching(
    trips: seq<Trip>,
    distance: U32,
    tbf: U32,
    tbfDropped: bool,
    distanceDropped: bool,
    world: World)

  /** captured is a distance that the engine reported; ok, that it then obeyed. */
  datatype Event =
    | Travel(far: nat)
    | Report(captured: U32, ok: bool)
    | Join(id: nat, distance: U32, tbf: U32, queried: bool, captured: U32, ok: bool)
    | Leave(id: nat, captured: U32, ok: bool)
    | EngineUp(ok: bool)

  const INITIAL := Batching([], 0, 0, false, false, World(0, 0, map[], Idle))

  /** What the engine has counted since it last started. */
  function Counter(w: World): U32 {
    if w.odometer < w.started then 0 else (w.odometer - w.started) % WRAP
  }

  function EngineStarted(w: World, distance: U32, tbf: U32): World {
    w.(started := w.odometer, engine := Running(distance, tbf))
  }

  function EngineStopped(w: World, ok: bool): World {
    if ok then w.(engine := Idle) else w
  }

  // ------------------------------------------------------------------ the session map

  predicate Has(trips: seq<Trip>, id: nat) {
    exists i :: 0 <= i < |trips| && trips[i].id == id
  }

  function Find(trips: seq<Trip>, id: nat): (r: Option<Trip>)
    ensures r.Some? <==> Has(trips, id)
    ensures r.Some? ==> r.value in trips && r.value.id == id
  {
    if trips == [] then None
    else if trips[0].id == id then Some(trips[0])
    else
      assert Has(trips, id) <==> Has(trips[1..], id) by {
        assert forall i :: 0 < i < |trips| ==> trips[i] == trips[1..][i - 1];
      }
      Find(trips[1..], id)
  }

  function Put(trips: seq<Trip>, t: Trip): seq<Trip> {
    if trips == [] then [t]
    else if trips[0].id == t.id then [t] + trips[1..]
    else if t.id < trips[0].id then [t] + trips
    else [trips[0]] + Put(trips[1..], t)
  }

  function Erase(trips: seq<Trip>, id: nat): seq<Trip> {
    if trips == [] then []
    else if trips[0].id == id then Erase(trips[1..], id)
    else [trips[0]] + Erase(trips[1..], id)
  }

  // ------------------------------------------------------------------ distances

  /** The distance of a session once the engine has counted that far. */
  function Accumulated(t: Trip, captured: U32): U32 {
    Plus(t.onRestart, Minus(captured, t.ongoing))
  }

  function Refreshed(t: Trip, captured: U32): Trip {
    t.(thisTrip := Accumulated(t, captured))
  }

  /** The engine counts from zero again, having counted that far. */
  function Rebased(t: Trip, captured: U32): Trip {
    t.(thisTrip := Accumulated(t, captured), ongoing := 0, onRestart := Accumulated(t, captured))
  }

  /** The engine counts from zero again, the session's distance not being brought up to date. */
  function RebasedStale(t: Trip): Trip {
    t.(ongoing := 0, onRestart := t.thisTrip)
  }

  function Remaining(t: Trip): U32 {
    Minus(t.distance, t.thisTrip)
  }

  datatype Scan = Scan(distance: U32, tbf: U32)

  /** The smallest remaining distance and interval of the first n trips, as the loop
      computes them: 0 means that none has been found. */
  function Scanned(trips: seq<Trip>, n: nat): Scan
    requires n <= |trips|
  {
    if n == 0 then Scan(0, 0)
    else
      var r, t := Scanned(trips, n - 1), trips[n - 1];
      Scan(if r.distance == 0 || r.distance > Remaining(t) then Remaining(t) else r.distance,
           if r.tbf == 0 || r.tbf > t.tbf then t.tbf else r.tbf)
  }

  // ------------------------------------------------------------------ events

  datatype Sweep = Sweep(kept: seq<Trip>, done: seq<nat>, tbfDropped: bool, distanceDropped: bool)

  /** The first n trips brought up to date, those completed taken out. */
  function Swept(b: Batching, n: nat, captured: U32): Sweep
    requires n <= |b.trips|
  {
    if n == 0 then Sweep([], [], b.tbfDropped, b.distanceDropped)
    else
      var r, t := Swept(b, n - 1, captured), Refreshed(b.trips[n - 1], captured);
      if t.distance <= t.thisTrip
      then Sweep(r.kept, r.done + [t.id],
                 r.tbfDropped || t.tbf == b.tbf, r.distanceDropped || t.distance == b.distance)
      else r.(kept := r.kept + [t])
  }

  /** Starts the engine again if the sessions there are ask for more than it was asked. */
  function Restart(b: Batching, captured: U32, ok: bool): Batching {
    if b.trips == [] then b.(distance := 0, tbf := 0, world := EngineStopped(b.world, ok))
    else
      var nearest := Scanned(b.trips, |b.trips|);
      var open := !b.distanceDropped && Minus(b.distance, captured) != 0;
      var nearer := if open then nearest.distance < Minus(b.distance, captured) else nearest.distance != 0;
      var quicker := nearest.tbf < b.tbf || (nearest.tbf != b.tbf && b.tbfDropped);
      var distance := if nearer then nearest.distance else b.distance;
      var tbf := if quicker then nearest.tbf else b.tbf;
      if (nearer || quicker) && ok then
        b.(trips := seq(|b.trips|, i requires 0 <= i < |b.trips| => Rebased(b.trips[i], captured)),
           distance := distance,
           tbf := tbf,
           world := EngineStarted(b.world, distance, tbf))
      else b
  }

  function OnReport(b: Batching, captured: U32, ok: bool): Batching {
    var s := Swept(b, |b.trips|, captured);
    var c := b.(trips := s.kept, tbfDropped := s.tbfDropped, distanceDropped := s.distanceDropped);
    if s.done == [] then c else Restart(c, captured, ok)
  }

  function FirstTrip(b: Batching, id: nat, distance: U32, tbf: U32, ok: bool): Batching {
    if ok then
      b.(trips := [Trip(id, 0, 0, 0, distance, tbf)], distance := distance, tbf := tbf,
         world := EngineStarted(b.world, distance, tbf).(joined := b.world.joined[id := b.world.odometer]))
    else b
  }

  /** What a new session makes of the distance asked for, and whether it needs a restart. */
  function NewDistance(b: Batching, distance: U32, tbf: U32, queried: bool, captured: U32): (U32, bool) {
    var quicker := b.tbf > tbf;
    if !queried then
      if distance < b.distance then (distance, true) else (b.distance, quicker)
    else
      var remaining := Minus(b.distance, captured);
      if distance < remaining then (distance, true)
      else if quicker then (remaining, true)
      else (b.distance, false)
  }

  function Joined(b: Batching, id: nat, distance: U32, tbf: U32, queried: bool, captured: U32): Batching {
    if !queried then b
    else b.(trips := Put(b.trips, Trip(id, captured, 0, 0, distance, tbf)),
            world := b.world.(joined := b.world.joined[id := b.world.odometer]))
  }

  function AnotherTrip(b: Batching, e: Event): Batching
    requires e.Join?
  {
    var j := Joined(b, e.id, e.distance, e.tbf, e.queried, e.captured);
    var (distance, restart) := NewDistance(b, e.distance, e.tbf, e.queried, e.captured);
    var tbf := if b.tbf > e.tbf then e.tbf else b.tbf;
    if restart then
      j.(trips := seq(|j.trips|, i requires 0 <= i < |j.trips| => RebasedStale(j.trips[i])),
         distance := distance,
         tbf := tbf,
         world := if e.ok then EngineStarted(j.world, distance, tbf) else j.world)
    else j
  }

  function OnLeave(b: Batching, id: nat, captured: U32, ok: bool): Batching {
    match Find(b.trips, id)
    case None => b
    case Some(t) =>
      var c := b.(trips := Erase(b.trips, id),
                  tbfDropped := b.tbfDropped || t.tbf == b.tbf,
                  distanceDropped := b.distanceDropped || t.distance == b.distance);
      if c.trips == [] then c.(distance := 0, tbf := 0, world := EngineStopped(c.world, ok)) else Restart(c, captured, ok)
  }

  /** The engine has come up anew: it is started again, the sessions staying as they are. */
  function OnEngineUp(b: Batching, ok: bool): Batching {
    if b.trips == [] then b
    else
      var nearest := Scanned(b.trips, |b.trips|);
      var w := EngineStarted(b.world, nearest.distance, nearest.tbf);
      b.(distance := if ok then nearest.distance else 0,
         tbf := if ok then nearest.tbf else 0,
         world := if ok then w else w.(engine := Idle))
  }

  function Step(b: Batching, e: Event): Batching {
    match e
    case Travel(far) => b.(world := b.world.(odometer := b.world.odometer + far))
    case Report(captured, ok) => OnReport(b, captured, ok)
    case Join(id, distance, tbf, queried, captured, ok) =>
      if b.trips == [] then FirstTrip(b, id, distance, tbf, ok) else AnotherTrip(b, e)
    case Leave(id, captured, ok) => OnLeave(b, id, captured, ok)
    case EngineUp(ok) => OnEngineUp(b, ok)
  }
}
