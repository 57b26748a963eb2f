/** Where every session is after a command, and with which options. */
module TrackingPlaces {
  import opened Wrappers
  import opened TrackingModel
  import opened TrackingSessions
  import opened TrackingSteps
  import opened TrackingRuns
  import opened TrackingPace
  import opened TrackingLosses

  // ------------------------------------------------------------------ the maps

  lemma {:induction false} FindPut(m: seq<Session>, k: SessionKey, o: Options, j: SessionKey)
    ensures Find(Put(m, k, o), j) == if j == k then Some(o) else Find(m, j)
  {
    if m == [] {
      assert [Session(k, o)][1..] == [];
    } else if m[0].key == k {
      assert ([Session(k, o)] + m[1..])[1..] == m[1..];
    } else if Before(k, m[0].key) {
      assert ([Session(k, o)] + m)[1..] == m;
    } else {
      assert ([m[0]] + Put(m[1..], k, o))[1..] == Put(m[1..], k, o);
      FindPut(m[1..], k, o, j);
    }
  }

  lemma {:induction false} FindErase(m: seq<Session>, k: SessionKey, j: SessionKey)
    ensures Find(Erase(m, k), j) == if j == k then None else Find(m, j)
  {
    if m != [] {
      FindErase(m[1..], k, j);
      if m[0].key != k {
        assert ([m[0]] + Erase(m[1..], k))[1..] == Erase(m[1..], k);
      }
    }
  }

  /** The two maps hold the same for this key. */
  predicate Same(t: Tracker, n: Tracker, j: SessionKey) {
    Find(n.timeBased, j) == Find(t.timeBased, j) && Find(n.distanceBased, j) == Find(t.distanceBased, j)
  }

  lemma SavedElsewhere(t: Tracker, k: SessionKey, o: Options, j: SessionKey)
    requires j != k
    ensures Same(t, SaveSession(t, k, o), j) && Same(t, EraseSession(t, k), j)
    ensures Same(t, t.(timeBased := Erase(t.timeBased, k)), j) && Same(t, t.(distanceBased := Erase(t.distanceBased, k)), j)
  {
    hide Find, Put, Erase;
    FindPut(t.timeBased, k, o, j);
    FindPut(t.distanceBased, k, o, j);
    FindErase(t.timeBased, k, j);
    FindErase(t.distanceBased, k, j);
  }

  lemma AskedSame(t: Tracker, n: Tracker, j: SessionKey)
    requires Asked(t, n)
    ensures Same(t, n, j)
  {
  }

  // ------------------------------------------------------------------ the sessions of others

  /** The command is about this session. */
  predicate IsFor(c: Command, j: SessionKey) {
    (c.Start? || c.Update? || c.Stop?) && c.key == j
  }

  /** Of every command in every state: whatever becomes of its own session, all others stay
      where they are, with their options. */
  lemma OthersStay(t: Tracker, c: Command, j: SessionKey)
    requires !IsFor(c, j)
    ensures Same(t, Step(t, c), j)
  {
    hide OnStart, OnUpdate, OnStop, RestartTimeBased, Same;
    match c
    case Start(k, o, _, ok) =>
      SameSelf(t, j);
      OthersStayOnStart(t, k, ClampInterval(o), ok, j);
    case Update(k, o, ok) =>
      SameSelf(t, j);
      OthersStayOnUpdate(t, k, AdmittedOptions(t, o), ok, j);
    case Stop(k, ok) => OthersStayOnStop(t, k, ok, j);
    case SuspendAndRestart(ok) => RestartedSame(t, if t.timeBased == [] then t else Halt(t, true), ok, j);
    case SetNHz(needed, ok) =>
      SameSelf(t, j);
      RestartedSame(t, t.(nHzNeeded := needed), ok, j);
  }

  lemma SameSelf(t: Tracker, j: SessionKey)
    ensures Same(t, t, j)
  {
  }

  lemma RestartedSame(t: Tracker, u: Tracker, ok: bool, j: SessionKey)
    requires u.timeBased == t.timeBased && u.distanceBased == t.distanceBased
    ensures Same(t, Restart(u, ok), j)
  {
    hide RestartTimeBased;
    MuxAsks(u.(atHighestInterval := false), j, UNSET, ok);
  }

  lemma StartedSame(t: Tracker, k: SessionKey, o: Options, ok: bool, j: SessionKey)
    requires j != k
    ensures Same(t, StartTimeBased(t, k, o, ok), j)
  {
    hide StartMux, SaveSession, EraseSession, Find;
    MuxAsks(t, k, o, ok);
    var l := StartMux(t, o, ok);
    AskedSame(t, l.next, j);
    SavedElsewhere(l.next, k, o, j);
    SavedElsewhere(SaveSession(l.next, k, o), k, o, j);
  }

  lemma OthersStayOnStart(t: Tracker, k: SessionKey, o: Options, ok: bool, j: SessionKey)
    requires j != k
    ensures Same(t, OnStart(t, k, o, ok), j)
  {
    hide StartTimeBased, SaveSession, EraseSession, Find;
    StartedSame(t, k, ClampPower(o, t.config.tbmThreshold), ok, j);
    SavedElsewhere(t, k, o, j);
    SavedElsewhere(SaveSession(t, k, o), k, o, j);
  }

  lemma StoppedSame(t: Tracker, k: SessionKey, ok: bool, j: SessionKey)
    requires j != k
    ensures Same(t, StopTimeBased(t, k, ok).next, j)
  {
    hide StopMux, Find, Erase;
    MuxAsks(t, k, UNSET, ok);
    AskedSame(t, StopMux(t, k, ok).next, j);
    SavedElsewhere(StopMux(t, k, ok).next, k, UNSET, j);
  }

  lemma OthersStayOnUpdate(t: Tracker, k: SessionKey, o: Options, ok: bool, j: SessionKey)
    requires j != k
    ensures Same(t, OnUpdate(t, k, o, ok), j)
  {
    hide StartTimeBased, StopTimeBased, UpdateMux, SaveSession, EraseSession, Find;
    SavedElsewhere(t, k, o, j);
    StartedSame(EraseSession(t, k), k, o, ok, j);
    var l := StopTimeBased(t, k, ok);
    StoppedSame(t, k, ok, j);
    SavedElsewhere(l.next, k, o, j);
    SavedElsewhere(SaveSession(l.next, k, o), k, o, j);
    UpdatedSame(t, k, o, ok, j);
  }

  lemma UpdatedSame(t: Tracker, k: SessionKey, o: Options, ok: bool, j: SessionKey)
    requires j != k
    ensures Same(t, UpdateTimeBased(t, k, o, ok), j)
  {
    hide UpdateMux, SaveSession, Find;
    MuxAsks(t, k, o, ok);
    var l := UpdateMux(t, k, o, ok);
    AskedSame(t, l.next, j);
    SavedElsewhere(l.next, k, o, j);
    if Find(t.timeBased, k).Some? {
      SavedElsewhere(SaveSession(l.next, k, o), k, Find(t.timeBased, k).value, j);
    }
  }

  lemma OthersStayOnStop(t: Tracker, k: SessionKey, ok: bool, j: SessionKey)
    requires j != k
    ensures Same(t, OnStop(t, k, ok), j)
  {
    hide StopTimeBased, EraseSession, Find, Erase;
    StoppedSame(t, k, ok, j);
    SavedElsewhere(StopTimeBased(t, k, ok).next, k, UNSET, j);
    SavedElsewhere(t, k, UNSET, j);
  }

  // ------------------------------------------------------------------ the session of the command

  datatype Place = Nowhere | TimeBased(options: Options) | DistanceBased(options: Options)

  /** Where a session is; both maps have it only if something has gone wrong. */
  predicate IsAt(t: Tracker, k: SessionKey, p: Place) {
    match p
    case Nowhere => Find(t.timeBased, k) == None && Find(t.distanceBased, k) == None
    case TimeBased(o) => Find(t.timeBased, k) == Some(o) && Find(t.distanceBased, k) == None
    case DistanceBased(o) => Find(t.timeBased, k) == None && Find(t.distanceBased, k) == Some(o)
  }

  /** The engine is asked, and refuses; for an nHz client it is not asked again. */
  predicate Refuses(t: Tracker, ok: bool) {
    !ok && !(t.nHzNeeded && t.atHighestInterval)
  }

  /** Updating a time-based session has the engine started again. */
  predicate UpdateLaunches(t: Tracker, k: SessionKey, was: Options, o: Options) {
    && (was.minInterval != o.minInterval || was.powerMode != o.powerMode)
    && (|t.timeBased| == 1 || o.minInterval < FastestOther(t, k)
        || o.powerMode < Mux(t.timeBased, |t.timeBased|, Some(k)).powerMode)
  }

  /** What is kept of what is asked for: no interval is below 100 milliseconds. */
  function KeptOptions(o: Options, powerMode: nat): Options {
    Options(o.size, if o.minInterval > 100 then o.minInterval else 100, o.minDistance, powerMode, o.tbm)
  }

  /** Background power, which is mode 4, is not for long times between measurements. */
  function KeptMode(config: Config, o: Options): nat {
    if o.powerMode == 4 && config.tbmThreshold < o.tbm then 2 else o.powerMode
  }

  /** Where the session of a command is after it, from where it was. A session that starts
      distance-based keeps the mode it asks for. */
  function PlaceAfter(t: Tracker, c: Command, from: Place): Place {
    match c
    case Start(k, o, hasCallbacks, ok) =>
      var p := KeptOptions(o, KeptMode(t.config, o));
      if !hasCallbacks || o.size == 0 then from
      else if !TimeKind(t.config, o) then if ok then DistanceBased(KeptOptions(o, o.powerMode)) else Nowhere
      else if Refuses(t, ok) && StartLaunches(t, p) then Nowhere
      else TimeBased(p)
    case Update(k, o, ok) =>
      var p := KeptOptions(o, KeptMode(t.config, o));
      if from.Nowhere? || o.size == 0 then from
      else if from.TimeBased? && o.minDistance == 0 then
        if Refuses(t, ok) && UpdateLaunches(t, k, from.options, p) then from else TimeBased(p)
      else if from.TimeBased? then
        if Refuses(t, ok) && |t.timeBased| >= 2 && LaunchesWithout(t, k, from.options) then Nowhere
        else if t.config.distanceSupported then DistanceBased(p) else TimeBased(p)
      else if o.minDistance == 0 then
        if Refuses(t, ok) && StartLaunches(t, p) then Nowhere else TimeBased(p)
      else if ok then DistanceBased(p) else from
    case Stop(k, ok) => if from.DistanceBased? && !ok then from else Nowhere
    case _ => from
  }

  /** Taking the session off has the engine started again for the others. */
  predicate LaunchesWithout(t: Tracker, k: SessionKey, was: Options) {
    was.minInterval < FastestOther(t, k) || was.powerMode < Mux(t.timeBased, |t.timeBased|, Some(k)).powerMode
  }

  /** Of every command: where its own session is afterwards, and with which options. A start
      is given a new key. */
  lemma StepMoves(t: Tracker, c: Command, from: Place)
    requires Kept(t) && FreshKey(t, c) && (c.Start? || c.Update? || c.Stop?) && IsAt(t, c.key, from)
    ensures IsAt(Step(t, c), c.key, PlaceAfter(t, c, from))
  {
    hide OnStart, OnUpdate, OnStop, IsAt, StartLaunches, UpdateLaunches, LaunchesWithout, Kept;
    match c
    case Start(k, o, hasCallbacks, ok) =>
      if hasCallbacks && o.size != 0 {
        StartMoves(t, k, o, ok, from);
      }
    case Update(k, o, ok) =>
      PlaceHas(t, k, from);
      if !from.Nowhere? && o.size != 0 {
        UpdateMoves(t, k, o, ok, from);
      }
    case Stop(k, ok) => StopMoves(t, k, ok, from);
  }

  /** In whichever order the two limits are taken. */
  lemma OptionsAreKept(t: Tracker, o: Options)
    ensures AdmittedOptions(t, o) == StartOptions(t, o) == KeptOptions(o, KeptMode(t.config, o))
    ensures ClampInterval(o) == KeptOptions(o, o.powerMode)
  {
  }

  lemma PlaceHas(t: Tracker, k: SessionKey, p: Place)
    requires IsAt(t, k, p)
    ensures Has(t.timeBased, k) <==> p.TimeBased?
    ensures Has(t.distanceBased, k) <==> p.DistanceBased?
    ensures p.TimeBased? ==> Find(t.timeBased, k) == Some(p.options)
  {
    assert Find(t.timeBased, k).Some? <==> Has(t.timeBased, k);
    assert Find(t.distanceBased, k).Some? <==> Has(t.distanceBased, k);
  }

  /** Saved where it belongs, in place of nothing. */
  lemma SavedAt(t: Tracker, k: SessionKey, o: Options)
    requires IsAt(t, k, Nowhere)
    ensures IsAt(SaveSession(t, k, o), k, if TimeKind(t.config, o) then TimeBased(o) else DistanceBased(o))
    ensures IsAt(EraseSession(SaveSession(t, k, o), k), k, Nowhere)
  {
    hide Find, Put, Erase;
    var s := SaveSession(t, k, o);
    FindPut(t.timeBased, k, o, k);
    FindPut(t.distanceBased, k, o, k);
    FindErase(s.timeBased, k, k);
    FindErase(s.distanceBased, k, k);
    PlaceHas(s, k, if TimeKind(t.config, o) then TimeBased(o) else DistanceBased(o));
  }

  /** Erased, it is nowhere. */
  lemma ErasedAt(t: Tracker, k: SessionKey, p: Place)
    requires IsAt(t, k, p)
    ensures IsAt(EraseSession(t, k), k, Nowhere)
  {
    hide Find, Erase;
    PlaceHas(t, k, p);
    FindErase(t.timeBased, k, k);
    FindErase(t.distanceBased, k, k);
  }

  lemma AskedAt(t: Tracker, n: Tracker, k: SessionKey, p: Place)
    requires Asked(t, n) && IsAt(t, k, p)
    ensures IsAt(n, k, p)
  {
  }

  lemma StartedAt(t: Tracker, k: SessionKey, o: Options, ok: bool)
    requires IsAt(t, k, Nowhere) && TimeKind(t.config, o)
    ensures IsAt(StartTimeBased(t, k, o, ok), k, if Refuses(t, ok) && StartLaunches(t, o) then Nowhere else TimeBased(o))
  {
    hide StartMux, SaveSession, EraseSession, StartLaunches, IsAt;
    MuxAsks(t, k, o, ok);
    StartRefusesIff(t, o, ok);
    var l := StartMux(t, o, ok);
    AskedAt(t, l.next, k, Nowhere);
    SavedAt(l.next, k, o);
  }

  lemma StartMoves(t: Tracker, k: SessionKey, o: Options, ok: bool, from: Place)
    requires IsAt(t, k, from) && !Has(t.timeBased, k) && !Has(t.distanceBased, k) && o.size != 0
    ensures IsAt(Step(t, Start(k, o, true, ok)), k, PlaceAfter(t, Start(k, o, true, ok), from))
  {
    hide StartTimeBased, SaveSession, EraseSession, StartLaunches, IsAt, UpdateLaunches, LaunchesWithout;
    PlaceHas(t, k, from);
    OptionsAreKept(t, o);
    var p := StartOptions(t, o);
    if TimeKind(t.config, o) {
      StartedAt(t, k, p, ok);
    } else {
      SavedAt(t, k, ClampInterval(o));
    }
  }

  lemma UpdateMoves(t: Tracker, k: SessionKey, o: Options, ok: bool, from: Place)
    requires Kept(t) && IsAt(t, k, from) && !from.Nowhere? && o.size != 0
    ensures IsAt(Step(t, Update(k, o, ok)), k, PlaceAfter(t, Update(k, o, ok), from))
  {
    hide Kept, StartTimeBased, SwitchToDistance, UpdateTimeBased, SaveSession, EraseSession, StartLaunches, IsAt, UpdateLaunches, LaunchesWithout;
    var p := AdmittedOptions(t, o);
    OptionsAreKept(t, o);
    PlaceHas(t, k, from);
    if from.TimeBased? && o.minDistance == 0 {
      UpdatedAt(t, k, p, ok, from);
    } else if from.TimeBased? {
      SwitchedAt(t, k, p, ok, from);
    } else if o.minDistance == 0 {
      ErasedAt(t, k, from);
      ErasedConfig(t, k);
      ErasedRefuses(t, k, p, ok);
      StartedAt(EraseSession(t, k), k, p, ok);
    } else {
      ResavedAt(t, k, p, from);
    }
  }

  lemma ErasedRefuses(t: Tracker, k: SessionKey, o: Options, ok: bool)
    requires !Has(t.timeBased, k)
    ensures var u := EraseSession(t, k); Refuses(u, ok) == Refuses(t, ok) && StartLaunches(u, o) == StartLaunches(t, o)
  {
    hide Mux;
  }

  lemma UpdatedAt(t: Tracker, k: SessionKey, o: Options, ok: bool, from: Place)
    requires Kept(t) && IsAt(t, k, from) && from.TimeBased? && TimeKind(t.config, o)
    ensures IsAt(UpdateTimeBased(t, k, o, ok), k,
                 if Refuses(t, ok) && UpdateLaunches(t, k, from.options, o) then from else TimeBased(o))
  {
    hide UpdateMux, Find, Put, UpdateLaunches;
    MuxAsks(t, k, o, ok);
    UpdateRefusesIff(t, k, o, ok, from.options);
    var l, was := UpdateMux(t, k, o, ok), from.options;
    WasTimeKind(t, k, was);
    FindPut(t.timeBased, k, o, k);
    FindPut(Put(t.timeBased, k, o), k, was, k);
  }

  lemma WasTimeKind(t: Tracker, k: SessionKey, was: Options)
    requires Kept(t) && Find(t.timeBased, k) == Some(was)
    ensures TimeKind(t.config, was)
  {
  }

  lemma UpdateRefusesIff(t: Tracker, k: SessionKey, o: Options, ok: bool, was: Options)
    requires Find(t.timeBased, k) == Some(was)
    ensures UpdateMux(t, k, o, ok).refused <==> Refuses(t, ok) && UpdateLaunches(t, k, was, o)
  {
    hide Mux;
  }

  lemma SwitchedAt(t: Tracker, k: SessionKey, o: Options, ok: bool, from: Place)
    requires IsAt(t, k, from) && from.TimeBased? && o.minDistance > 0
    ensures IsAt(SwitchToDistance(t, k, o, ok), k,
                 if Refuses(t, ok) && |t.timeBased| >= 2 && LaunchesWithout(t, k, from.options) then Nowhere
                 else if t.config.distanceSupported then DistanceBased(o) else TimeBased(o))
  {
    hide StopMux, SaveSession, EraseSession, Erase, Mux;
    PlaceHas(t, k, from);
    MuxAsks(t, k, o, ok);
    StopRefusesIff(t, k, ok);
    var l := StopTimeBased(t, k, ok);
    FindErase(t.timeBased, k, k);
    assert IsAt(l.next, k, Nowhere);
    SavedAt(l.next, k, o);
  }

  lemma ResavedAt(t: Tracker, k: SessionKey, o: Options, from: Place)
    requires Kept(t) && IsAt(t, k, from) && from.DistanceBased? && o.minDistance > 0
    ensures IsAt(SaveSession(t, k, o), k, DistanceBased(o))
  {
    hide Put;
    PlaceHas(t, k, from);
    FindPut(t.distanceBased, k, o, k);
  }

  lemma StopMoves(t: Tracker, k: SessionKey, ok: bool, from: Place)
    requires IsAt(t, k, from)
    ensures IsAt(Step(t, Stop(k, ok)), k, PlaceAfter(t, Stop(k, ok), from))
  {
    hide StopMux, Erase, Find;
    PlaceHas(t, k, from);
    MuxAsks(t, k, UNSET, ok);
    FindErase(t.timeBased, k, k);
    FindErase(t.distanceBased, k, k);
  }
}
