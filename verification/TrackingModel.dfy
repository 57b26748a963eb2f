/** Many time-based tracking sessions multiplexed onto the one session of the engine:
    the transition of every command, with the engine's answer. */
module TrackingModel {
  import opened Wrappers

  /** Ordered by id, then by client, as LocationSessionKey is. */
  datatype SessionKey = SessionKey(client: nat, id: nat)

  /** size 0 marks options that have not been set; powerMode 0 is the invalid mode. */
  datatype Options = Options(size: nat, minInterval: nat, minDistance: nat, powerMode: nat, tbm: nat)

  datatype Session = Session(key: SessionKey, options: Options)

  datatype Engine = Stopped | Running(options: Options)

  datatype Config = Config(distanceSupported: bool, tbmThreshold: nat)

  /** The two session maps (in key order), the engine, and the nHz flags. */
  datatype Tracker = Tracker(
    config: Config,
    timeBased: seq<Session>,
    distanceBased: seq<Session>,
    engine: Engine,
    nHzNeeded: bool,
    atHighestInterval: bool)

  /** ok says whether the engine does what it is asked on the command, if anything. */
  datatype Command =
    | Start(key: SessionKey, options: Options, hasCallbacks: bool, ok: bool)
    | Update(key: SessionKey, options: Options, ok: bool)
    | Stop(key: SessionKey, ok: bool)
    | SuspendAndRestart(ok: bool)
    | SetNHz(needed: bool, ok: bool)

  const MIN_TRACKING_INTERVAL: nat := 100
  const M2: nat := 2
  const M4: nat := 4
  const UNSET := Options(0, 0, 0, 0, 0)

  function Initial(config: Config): Tracker {
    Tracker(config, [], [], Stopped, false, false)
  }

  // ------------------------------------------------------------------ session maps

  predicate Before(a: SessionKey, b: SessionKey) {
    a.id < b.id || (a.id == b.id && a.client < b.client)
  }

  predicate Has(m: seq<Session>, k: SessionKey) {
    exists i :: 0 <= i < |m| && m[i].key == k
  }

  function Find(m: seq<Session>, k: SessionKey): (r: Option<Options>)
    ensures r.Some? <==> Has(m, k)
    ensures r.Some? ==> Session(k, r.value) in m
  {
    if m == [] then None
    else if m[0].key == k then Some(m[0].options)
    else
      assert Has(m, k) <==> Has(m[1..], k) by {
        assert forall i :: 0 < i < |m| ==> m[i] == m[1..][i - 1];
      }
      Find(m[1..], k)
  }

  /** map[k] = o */
  function Put(m: seq<Session>, k: SessionKey, o: Options): seq<Session> {
    if m == [] then [Session(k, o)]
    else if m[0].key == k then [Session(k, o)] + m[1..]
    else if Before(k, m[0].key) then [Session(k, o)] + m
    else [m[0]] + Put(m[1..], k, o)
  }

  /** map.erase(k) */
  function Erase(m: seq<Session>, k: SessionKey): seq<Session> {
    if m == [] then []
    else if m[0].key == k then Erase(m[1..], k)
    else [m[0]] + Erase(m[1..], k)
  }

  // ------------------------------------------------------------------ multiplexing

  datatype Muxed = Muxed(options: Options, powerMode: nat)

  /** The options of the first session with the smallest interval, and the smallest power
      mode as the loop computes it, over the first n sessions other than skip. */
  function Mux(m: seq<Session>, n: nat, skip: Option<SessionKey>): Muxed
    requires n <= |m|
  {
    if n == 0 then Muxed(UNSET, 0)
    else
      var r, s := Mux(m, n - 1, skip), m[n - 1];
      if skip == Some(s.key) then r
      else Muxed(
        if r.options.size == 0 || s.options.minInterval < r.options.minInterval then s.options else r.options,
        if r.powerMode == 0 || s.options.powerMode < r.powerMode then s.options.powerMode else r.powerMode)
  }

  /** The options of the session with the highest power, over the first n sessions. */
  function HighestPower(m: seq<Session>, n: nat): Options
    requires n <= |m|
  {
    if n == 0 then UNSET
    else
      var r, o := HighestPower(m, n - 1), m[n - 1].options;
      if r.size == 0 || (o.powerMode != 0 && o.powerMode < r.powerMode) then o else r
  }

  /** What has become of the tracker, and whether the engine has refused a start. */
  datatype Launched = Launched(next: Tracker, refused: bool)

  /** Asks the engine to run with these options, unless it already runs at the highest
      rate for an nHz client. The flag goes up before the engine answers. */
  function Launch(t: Tracker, o: Options, ok: bool): Launched {
    if t.nHzNeeded && t.atHighestInterval then Launched(t, false)
    else
      var raise := t.nHzNeeded && o.minInterval > MIN_TRACKING_INTERVAL;
      var asked := if raise then o.(minInterval := MIN_TRACKING_INTERVAL) else o;
      Launched(t.(engine := if ok then Running(asked) else t.engine,
                  atHighestInterval := t.atHighestInterval || raise), !ok)
  }

  function Halt(t: Tracker, ok: bool): Tracker {
    t.(engine := if ok then Stopped else t.engine, atHighestInterval := false)
  }

  function StartMux(t: Tracker, o: Options, ok: bool): Launched {
    if t.timeBased == [] then Launch(t, o, ok)
    else
      var mux := Mux(t.timeBased, |t.timeBased|, None);
      if o.minInterval < mux.options.minInterval || o.powerMode < mux.powerMode
      then Launch(t, Overlay(mux, o), ok) else Launched(t, false)
  }

  /** The multiplexed options with the new session's interval and power where smaller. */
  function Overlay(mux: Muxed, o: Options): Options {
    var a := if o.minInterval < mux.options.minInterval then mux.options.(minInterval := o.minInterval) else mux.options;
    if o.powerMode < mux.powerMode then a.(powerMode := o.powerMode) else a
  }

  function UpdateMux(t: Tracker, k: SessionKey, o: Options, ok: bool): Launched {
    match Find(t.timeBased, k)
    case None => Launched(t, false)
    case Some(was) =>
      if was.minInterval == o.minInterval && was.powerMode == o.powerMode then Launched(t, false)
      else
        var mux := Mux(t.timeBased, |t.timeBased|, Some(k));
        if |t.timeBased| == 1 then Launch(t, o, ok)
        else if o.minInterval < mux.options.minInterval || o.powerMode < mux.powerMode
        then Launch(t, Overlay(mux, o), ok) else Launched(t, false)
  }

  function StopMux(t: Tracker, k: SessionKey, ok: bool): Launched {
    if |t.timeBased| == 1 then Launched(Halt(t, ok), false)
    else
      match Find(t.timeBased, k)
      case None => Launched(t, false)
      case Some(was) =>
        var mux := Mux(t.timeBased, |t.timeBased|, Some(k));
        if was.minInterval < mux.options.minInterval || was.powerMode < mux.powerMode
        then Launch(t, mux.options.(powerMode := mux.powerMode), ok) else Launched(t, false)
  }

  /** The session is taken off the engine and off the map. */
  function StopTimeBased(t: Tracker, k: SessionKey, ok: bool): Launched {
    var l := StopMux(t, k, ok);
    l.(next := l.next.(timeBased := Erase(l.next.timeBased, k)))
  }

  /** The engine is started again for the sessions there are. */
  function RestartTimeBased(t: Tracker, ok: bool): Tracker {
    if t.timeBased == [] then t
    else
      var smallest := Mux(t.timeBased, |t.timeBased|, None).options;
      var highest := HighestPower(t.timeBased, |t.timeBased|);
      Launch(t, highest.(minInterval := smallest.minInterval, minDistance := smallest.minDistance), ok).next
  }

  function Restart(t: Tracker, ok: bool): Tracker {
    RestartTimeBased(t.(atHighestInterval := false), ok)
  }

  function SaveSession(t: Tracker, k: SessionKey, o: Options): Tracker {
    if o.minDistance > 0 && t.config.distanceSupported
    then t.(distanceBased := Put(t.distanceBased, k, o))
    else t.(timeBased := Put(t.timeBased, k, o))
  }

  function ClampInterval(o: Options): Options {
    if o.minInterval < MIN_TRACKING_INTERVAL then o.(minInterval := MIN_TRACKING_INTERVAL) else o
  }

  /** Background power with a long time between measurements falls back to M2. */
  function ClampPower(o: Options, threshold: nat): Options {
    if o.powerMode == M4 && o.tbm > threshold then o.(powerMode := M2) else o
  }

  // ------------------------------------------------------------------ commands

  function Step(t: Tracker, c: Command): Tracker {
    match c
    case Start(k, o, hasCallbacks, ok) =>
      if !hasCallbacks || o.size == 0 then t else OnStart(t, k, ClampInterval(o), ok)
    case Update(k, o, ok) =>
      if (!Has(t.timeBased, k) && !Has(t.distanceBased, k)) || o.size == 0 then t
      else OnUpdate(t, k, ClampInterval(ClampPower(o, t.config.tbmThreshold)), ok)
    case Stop(k, ok) => OnStop(t, k, ok)
    case SuspendAndRestart(ok) => Restart(if t.timeBased == [] then t else Halt(t, true), ok)
    case SetNHz(needed, ok) => if t.nHzNeeded == needed then t else Restart(t.(nHzNeeded := needed), ok)
  }

  /** The session is saved at once, and erased when the engine answers that it refuses. */
  function OnStart(t: Tracker, k: SessionKey, o: Options, ok: bool): Tracker {
    if o.minDistance > 0 && t.config.distanceSupported then
      var s := SaveSession(t, k, o);
      if ok then s else EraseSession(s, k)
    else StartTimeBased(t, k, ClampPower(o, t.config.tbmThreshold), ok)
  }

  function StartTimeBased(t: Tracker, k: SessionKey, o: Options, ok: bool): Tracker {
    var l := StartMux(t, o, ok);
    var s := SaveSession(l.next, k, o);
    if l.refused then EraseSession(s, k) else s
  }

  /** A refusal erases the session, by its key, wherever it is then; or gives it back the
      options it had. */
  function OnUpdate(t: Tracker, k: SessionKey, o: Options, ok: bool): Tracker {
    var isTime, isDistance := Has(t.timeBased, k), Has(t.distanceBased, k);
    if isTime && o.minDistance > 0 then SwitchToDistance(t, k, o, ok)
    else if isDistance && o.minDistance == 0 then StartTimeBased(EraseSession(t, k), k, o, ok)
    else if isTime then UpdateTimeBased(t, k, o, ok)
    else if ok then SaveSession(t, k, o)
    else t
  }

  function SwitchToDistance(t: Tracker, k: SessionKey, o: Options, ok: bool): Tracker {
    var l := StopTimeBased(t, k, ok);
    var s := SaveSession(l.next, k, o);
    if l.refused then EraseSession(s, k) else s
  }

  function UpdateTimeBased(t: Tracker, k: SessionKey, o: Options, ok: bool): Tracker {
    var l := UpdateMux(t, k, o, ok);
    var s := SaveSession(l.next, k, o);
    match Find(t.timeBased, k)
    case None => s
    case Some(was) => if l.refused then SaveSession(s, k, was) else s
  }

  function EraseSession(t: Tracker, k: SessionKey): Tracker {
    if Has(t.timeBased, k) then t.(timeBased := Erase(t.timeBased, k))
    else t.(distanceBased := Erase(t.distanceBased, k))
  }

  function OnStop(t: Tracker, k: SessionKey, ok: bool): Tracker {
    if Has(t.timeBased, k) then
      var l := StopTimeBased(t, k, ok);
      if l.refused then EraseSession(l.next, k) else l.next
    else if Has(t.distanceBased, k) && ok then t.(distanceBased := Erase(t.distanceBased, k))
    else t
  }
}
