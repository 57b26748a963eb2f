/** What the single operations on sessions and engine do to an engine that serves them and a
    flag that tells the truth. */
module TrackingSteps {
  import opened Wrappers
  import opened TrackingModel
  import opened TrackingSessions

  // ------------------------------------------------------------------ the invariant

  /** The engine runs fast enough for these sessions, and for nHz clients. */
  ghost predicate Fast(t: Tracker, m: seq<Session>) {
    && t.engine.Running? && Serves(t.engine.options.minInterval, m)
    && (t.nHzNeeded ==> t.engine.options.minInterval <= MIN_TRACKING_INTERVAL)
  }

  /** The flag is up only when the engine does run at the nHz interval. */
  predicate FlagHonest(t: Tracker) {
    t.atHighestInterval ==> t.nHzNeeded && t.engine.Running? && t.engine.options.minInterval <= MIN_TRACKING_INTERVAL
  }

  /** A session that belongs among the time-based ones. */
  predicate TimeKind(c: Config, o: Options) {
    !(o.minDistance > 0 && c.distanceSupported)
  }

  /** The sessions are those let through, and in the map they belong in. */
  ghost predicate WellKept(t: Tracker) {
    && Admitted(t.timeBased) && (forall s :: s in t.timeBased ==> TimeKind(t.config, s.options))
    && Sorted(t.distanceBased) && (t.distanceBased != [] ==> t.config.distanceSupported)
  }

  /** The engine serves every time-based session there is, and nHz clients. */
  ghost predicate Serving(t: Tracker) {
    && WellKept(t)
    && (t.timeBased != [] ==> Fast(t, t.timeBased))
    && FlagHonest(t)
  }

  ghost predicate Disjoint(t: Tracker) {
    forall s, d :: s in t.timeBased && d in t.distanceBased ==> s.key != d.key
  }

  /** And it runs only while there are time-based sessions. */
  ghost predicate Good(t: Tracker) {
    Serving(t) && Disjoint(t) && (t.engine.Running? ==> t.timeBased != [])
  }

  ghost predicate Exact(t: Tracker) {
    Good(t) && !t.nHzNeeded && (t.engine.Running? ==> IsFastest(t.engine.options.minInterval, t.timeBased))
  }

  predicate Valid(o: Options) {
    o.size > 0 && o.minInterval >= MIN_TRACKING_INTERVAL
  }

  /** What the engine and the flags are apart from, a start leaves alone. */
  predicate SameRest(t: Tracker, n: Tracker) {
    n.config == t.config && n.timeBased == t.timeBased && n.distanceBased == t.distanceBased && n.nHzNeeded == t.nHzNeeded
  }

  // ------------------------------------------------------------------ starting the engine

  /** A refusal would leave the flag up for an engine that does not run at that interval. */
  predicate Lies(t: Tracker, o: Options) {
    && t.nHzNeeded && !t.atHighestInterval && o.minInterval > MIN_TRACKING_INTERVAL
    && !(t.engine.Running? && t.engine.options.minInterval <= MIN_TRACKING_INTERVAL)
  }

  /** An engine that does not refuse serves; one that does goes on as it was. */
  lemma LaunchServes(t: Tracker, o: Options, ok: bool, m: seq<Session>)
    requires FlagHonest(t) && Admitted(m) && Serves(o.minInterval, m)
    ensures var l := Launch(t, o, ok);
      && SameRest(t, l.next) && (l.refused ==> !ok)
      && (!l.refused ==> Fast(l.next, m) && FlagHonest(l.next))
      && (l.refused ==> l.next.engine == t.engine && (FlagHonest(l.next) <==> !Lies(t, o)))
      && (!t.nHzNeeded ==> l.refused == !ok && (ok ==> l.next.engine == Running(o)))
      && (!t.nHzNeeded && l.refused ==> l.next == t)
  {
  }

  /** An engine that serves sessions makes the flag true, whatever it refuses. */
  lemma NobodyLies(t: Tracker, o: Options)
    requires Serving(t) && t.timeBased != []
    ensures !Lies(t, o)
  {
  }

  /** Starting for one more session: served, unless refused. */
  lemma StartMuxServes(t: Tracker, k: SessionKey, o: Options, ok: bool)
    requires Serving(t) && Valid(o)
    ensures var l := StartMux(t, o, ok);
      && SameRest(t, l.next)
      && (!l.refused ==> Fast(l.next, Put(t.timeBased, k, o)) && FlagHonest(l.next))
      && (l.refused ==> !ok && l.next.engine == t.engine && (FlagHonest(l.next) <==> !(t.timeBased == [] && Lies(t, o))))
      && (l.refused && !t.nHzNeeded ==> l.next == t)
      && (!ok && t.timeBased == [] ==> l.refused || (t.nHzNeeded && t.atHighestInterval))
  {
    hide Admitted, Launch, Mux;
    var m, put := t.timeBased, Put(t.timeBased, k, o);
    AdmittedPut(m, k, o);
    EraseFacts(m, k) by {
      AdmittedIsSorted(m);
    }
    if m == [] {
      LaunchServes(t, o, ok, put);
      LaunchAnswer(t, o, ok);
    } else {
      var mux := Mux(m, |m|, None);
      MuxOfAll(m);
      if o.minInterval < mux.options.minInterval || o.powerMode < mux.powerMode {
        LaunchServes(t, Overlay(mux, o), ok, put);
        NobodyLies(t, Overlay(mux, o));
      }
    }
  }

  lemma AdmittedIsSorted(m: seq<Session>)
    requires Admitted(m)
    ensures Sorted(m)
  {
  }

  lemma LaunchAnswer(t: Tracker, o: Options, ok: bool)
    ensures Launch(t, o, ok).refused <==> !ok && !(t.nHzNeeded && t.atHighestInterval)
  {
  }

  /** The only start that does harm: nobody is served yet, and the refusal leaves a flag up
      that is a lie. */
  predicate StartFails(t: Tracker, o: Options, ok: bool) {
    !ok && t.timeBased == [] && Lies(t, o)
  }

  lemma StartServesIff(t: Tracker, k: SessionKey, o: Options, ok: bool)
    requires Serving(t) && Valid(o) && TimeKind(t.config, o)
    ensures Serving(StartTimeBased(t, k, o, ok)) <==> !StartFails(t, o, ok)
    ensures Good(t) && !Has(t.timeBased, k) && !Has(t.distanceBased, k) && !StartFails(t, o, ok)
      ==> Good(StartTimeBased(t, k, o, ok))
    ensures Exact(t) && !Has(t.timeBased, k) && !Has(t.distanceBased, k) ==> Exact(StartTimeBased(t, k, o, ok))
  {
    hide StartMux, Put, Erase;
    var m, put := t.timeBased, Put(t.timeBased, k, o);
    var l := StartMux(t, o, ok);
    StartMuxServes(t, k, o, ok);
    AdmittedPut(m, k, o);
    PutFacts(m, k, o);
    EraseFacts(put, k);
    KeyOfMember(put, Session(k, o));
    if !Has(m, k) {
      ErasePut(m, k, o);
      NoneHasKey(m, k);
    }
    if !Has(t.distanceBased, k) {
      NoneHasKey(t.distanceBased, k);
    }
    if Exact(t) && !Has(m, k) && !l.refused {
      StartIsExact(t, k, o, ok);
    }
  }

  /** Refused as the first, for nHz clients, it leaves nothing behind but the flag. */
  lemma RefusedFirstStart(t: Tracker, k: SessionKey, o: Options, ok: bool)
    requires StartFails(t, o, ok) && TimeKind(t.config, o)
    ensures StartTimeBased(t, k, o, ok) == t.(atHighestInterval := true)
  {
    var s := [Session(k, o)];
    assert Put([], k, o) == s && s[0].key == k && s[1..] == [];
    assert Erase(s, k) == [];
  }

  lemma StartIsExact(t: Tracker, k: SessionKey, o: Options, ok: bool)
    requires Exact(t) && Valid(o) && !Has(t.timeBased, k) && !StartMux(t, o, ok).refused
    ensures IsFastest(StartMux(t, o, ok).next.engine.options.minInterval, Put(t.timeBased, k, o))
  {
    hide Launch;
    var m, put := t.timeBased, Put(t.timeBased, k, o);
    StartMuxServes(t, k, o, ok);
    PutFacts(m, k, o);
    AdmittedPut(m, k, o);
    NoneHasKey(m, k);
    assert Session(k, o) in put;
    if m == [] {
      LaunchServes(t, o, ok, put);
    } else {
      var mux := Mux(m, |m|, None);
      MuxOfAll(m);
      if o.minInterval < mux.options.minInterval || o.powerMode < mux.powerMode {
        EraseFacts(m, k);
        LaunchServes(t, Overlay(mux, o), ok, put);
      }
      var fast :| fast in m && fast.options.minInterval == mux.options.minInterval;
      assert fast in put;
    }
  }

  // ------------------------------------------------------------------ stopping

  /** Whatever the engine answers, the others stay served. A refusal leaves it as it was. */
  lemma StopServes(t: Tracker, k: SessionKey, ok: bool)
    requires Serving(t) && Has(t.timeBased, k)
    ensures var l := StopTimeBased(t, k, ok);
      && Serving(l.next)
      && l.next.timeBased == Erase(t.timeBased, k) && SameRest(t, l.next.(timeBased := t.timeBased))
      && (l.refused ==> l.next.engine == t.engine && !ok && |t.timeBased| >= 2)
      && (|t.timeBased| >= 2 ==> l.next.timeBased != [])
      && (|t.timeBased| == 1 ==> l.next.timeBased == [] && l.next.engine == if ok then Stopped else t.engine)
      && (|t.timeBased| >= 2 ==> l.next.engine.Running?)
  {
    hide Launch, Mux, Erase, Admitted;
    var m, others := t.timeBased, Erase(t.timeBased, k);
    ErasedPart(m, k);
    if |m| == 1 {
      EraseLast(m, k);
    } else {
      StopMuxServes(t, k, ok);
    }
  }

  lemma EraseLast(m: seq<Session>, k: SessionKey)
    requires |m| == 1 && Has(m, k)
    ensures Erase(m, k) == []
  {
    assert m == [m[0]] && m[1..] == [];
  }

  lemma ErasedPart(m: seq<Session>, k: SessionKey)
    requires Admitted(m)
    ensures Admitted(Erase(m, k)) && |Erase(m, k)| >= |m| - 1
    ensures forall s :: s in Erase(m, k) ==> s in m && s.key != k
  {
    EraseFacts(m, k);
  }

  lemma StopMuxServes(t: Tracker, k: SessionKey, ok: bool)
    requires Serving(t) && Has(t.timeBased, k) && |t.timeBased| >= 2
    ensures var l := StopMux(t, k, ok);
      && SameRest(t, l.next) && Fast(l.next, Erase(t.timeBased, k)) && FlagHonest(l.next)
      && (l.refused ==> l.next.engine == t.engine && !ok)
  {
    hide Launch, Mux;
    var m, others := t.timeBased, Erase(t.timeBased, k);
    ErasedPart(m, k);
    var was, mux := Find(m, k).value, Mux(m, |m|, Some(k));
    MuxOfOthers(m, k);
    if was.minInterval < mux.options.minInterval || was.powerMode < mux.powerMode {
      LaunchServes(t, mux.options.(powerMode := mux.powerMode), ok, others);
      NobodyLies(t, mux.options.(powerMode := mux.powerMode));
    }
  }

  /** The engine keeps running for nobody: it refuses to stop for the last session. */
  predicate RefusesToHalt(t: Tracker, k: SessionKey, ok: bool) {
    !ok && |t.timeBased| == 1 && Has(t.timeBased, k)
  }

  lemma ErasedIsThere(m: seq<Session>, k: SessionKey)
    ensures Erase(m, k) != [] ==> m != []
  {
  }

  lemma OnStopServes(t: Tracker, k: SessionKey, ok: bool)
    requires Serving(t)
    ensures Serving(OnStop(t, k, ok))
    ensures Good(t) ==> (Good(OnStop(t, k, ok)) <==> !RefusesToHalt(t, k, ok))
  {
    hide StopTimeBased, Erase, Admitted;
    EraseFacts(t.distanceBased, k);
    ErasedIsThere(t.distanceBased, k);
    if Has(t.timeBased, k) {
      StopServes(t, k, ok);
      ErasedPart(t.timeBased, k);
      NotHas(Erase(t.timeBased, k), k);
    }
  }

  // ------------------------------------------------------------------ updating

  /** A refusal gives the session its old options back; a session already there is served
      as it was. */
  lemma UpdateServes(t: Tracker, k: SessionKey, o: Options, ok: bool)
    requires Serving(t) && Has(t.timeBased, k) && Valid(o) && TimeKind(t.config, o)
    ensures Serving(UpdateTimeBased(t, k, o, ok))
    ensures Good(t) ==> Good(UpdateTimeBased(t, k, o, ok))
  {
    hide UpdateMux, Put;
    var m, put := t.timeBased, Put(t.timeBased, k, o);
    var was := Find(m, k).value;
    UpdateMuxServes(t, k, o, ok);
    AdmittedPut(m, k, o);
    PutFacts(m, k, o);
    PutBack(m, k, o, was);
    if Good(t) {
      assert Session(k, was) in m;
    }
  }

  lemma UpdateMuxServes(t: Tracker, k: SessionKey, o: Options, ok: bool)
    requires Serving(t) && Has(t.timeBased, k) && Valid(o)
    ensures var l := UpdateMux(t, k, o, ok);
      && SameRest(t, l.next)
      && (!l.refused ==> Fast(l.next, Put(t.timeBased, k, o)) && FlagHonest(l.next))
      && (l.refused ==> l.next.engine == t.engine && FlagHonest(l.next))
  {
    hide Launch, Put;
    var m, put, others := t.timeBased, Put(t.timeBased, k, o), Erase(t.timeBased, k);
    var was := Find(m, k).value;
    AdmittedPut(m, k, o);
    EraseFacts(m, k);
    if was.minInterval == o.minInterval && was.powerMode == o.powerMode {
    } else if |m| == 1 {
      assert m == [Session(k, was)];
      assert others == [];
      LaunchServes(t, o, ok, put);
      NobodyLies(t, o);
    } else {
      var mux := Mux(m, |m|, Some(k));
      MuxOfOthers(m, k);
      if o.minInterval < mux.options.minInterval || o.powerMode < mux.powerMode {
        LaunchServes(t, Overlay(mux, o), ok, put);
        NobodyLies(t, Overlay(mux, o));
      }
    }
  }

  // ------------------------------------------------------------------ switching to distance

  /** A time-based session asks for a distance the platform does not support: it stays
      time-based, and the engine, told to stop for it, is not told that. It is not served,
      unless the engine refuses to start again, which erases it; or goes on fast enough. */
  predicate SwitchFails(t: Tracker, k: SessionKey, o: Options, ok: bool)
    requires Has(t.timeBased, k)
  {
    && !t.config.distanceSupported
    && var l := StopTimeBased(t, k, ok);
       && !l.refused
       && !(&& l.next.engine.Running? && l.next.engine.options.minInterval <= o.minInterval
            && (t.nHzNeeded ==> l.next.engine.options.minInterval <= MIN_TRACKING_INTERVAL))
  }

  lemma SwitchServesIff(t: Tracker, k: SessionKey, o: Options, ok: bool)
    requires Serving(t) && Has(t.timeBased, k) && Valid(o) && o.minDistance > 0
    ensures Serving(SwitchToDistance(t, k, o, ok)) <==> !SwitchFails(t, k, o, ok)
    ensures Good(t) && !SwitchFails(t, k, o, ok) ==>
      (Good(SwitchToDistance(t, k, o, ok)) <==> !(t.config.distanceSupported && RefusesToHalt(t, k, ok)))
  {
    hide StopTimeBased, Put, Erase, Admitted;
    var l := StopTimeBased(t, k, ok);
    StopServes(t, k, ok);
    EraseFacts(t.timeBased, k) by {
      AdmittedIsSorted(t.timeBased);
    }
    if t.config.distanceSupported {
      SavedAsDistance(l.next, k, o);
    } else {
      SavedAsTimeIff(l.next, k, o);
    }
  }

  /** Saved as distance-based, and possibly erased again, a session is out of the engine's
      way. */
  lemma SavedAsDistance(s: Tracker, k: SessionKey, o: Options)
    requires Serving(s) && o.minDistance > 0 && s.config.distanceSupported && forall u :: u in s.timeBased ==> u.key != k
    ensures var n := SaveSession(s, k, o);
      && Serving(n) && Serving(EraseSession(n, k))
      && n.timeBased == s.timeBased == EraseSession(n, k).timeBased
      && n.engine == s.engine == EraseSession(n, k).engine
      && (Disjoint(s) ==> Disjoint(n) && Disjoint(EraseSession(n, k)))
  {
    var d := Put(s.distanceBased, k, o);
    PutFacts(s.distanceBased, k, o);
    EraseFacts(d, k);
  }

  /** Saved as time-based without a word to the engine, it is served exactly if the engine
      runs, and fast enough; erased again, nothing has happened. */
  lemma SavedAsTimeIff(s: Tracker, k: SessionKey, o: Options)
    requires Serving(s) && Valid(o) && !s.config.distanceSupported && forall u :: u in s.timeBased ==> u.key != k
    ensures var n := SaveSession(s, k, o);
      && (Serving(n) <==>
            && s.engine.Running? && s.engine.options.minInterval <= o.minInterval
            && (s.nHzNeeded ==> s.engine.options.minInterval <= MIN_TRACKING_INTERVAL))
      && n.timeBased != [] && (Disjoint(s) ==> Disjoint(n))
      && EraseSession(n, k) == s
  {
    var m, put := s.timeBased, Put(s.timeBased, k, o);
    AdmittedPut(m, k, o);
    PutFacts(m, k, o);
    EraseFacts(m, k);
    KeyOfMember(put, Session(k, o));
    assert !Has(m, k);
    ErasePut(m, k, o);
    assert Session(k, o) in put;
  }

  // ------------------------------------------------------------------ restarting

  /** Restarting serves whatever sessions there are, unless it is refused and the engine as
      it is does not. */
  lemma RestartServesIff(t: Tracker, ok: bool)
    requires WellKept(t)
    ensures Serving(Restart(t, ok)) <==> ok || t.timeBased == [] || Fast(t, t.timeBased)
    ensures Restart(t, ok).timeBased == t.timeBased && Restart(t, ok).distanceBased == t.distanceBased
    ensures t.timeBased != [] && ok ==> Restart(t, ok).engine.Running?
    ensures t.timeBased == [] || !ok ==> Restart(t, ok).engine == t.engine
    ensures ok && !t.nHzNeeded && t.timeBased != [] ==>
      Serving(Restart(t, ok)) && IsFastest(Restart(t, ok).engine.options.minInterval, t.timeBased)
  {
    hide Launch, Mux, HighestPower;
    var m, u := t.timeBased, t.(atHighestInterval := false);
    if m != [] {
      MuxOfAll(m);
      var smallest, highest := Mux(m, |m|, None).options, HighestPower(m, |m|);
      var o := highest.(minInterval := smallest.minInterval, minDistance := smallest.minDistance);
      LaunchServes(u, o, ok, m);
      LaunchAnswer(u, o, ok);
      LaunchEngine(u, o, ok);
    }
  }

  lemma LaunchEngine(t: Tracker, o: Options, ok: bool)
    requires !t.atHighestInterval
    ensures var n := Launch(t, o, ok).next;
      && (!ok ==> n.engine == t.engine) && (ok ==> n.engine.Running?)
      && (!ok ==> n.atHighestInterval == (t.nHzNeeded && o.minInterval > MIN_TRACKING_INTERVAL))
  {
  }

  // ------------------------------------------------------------------ commands

  /** What a session asks for, once admitted. */
  function AdmittedOptions(t: Tracker, o: Options): Options {
    ClampInterval(ClampPower(o, t.config.tbmThreshold))
  }

  function StartOptions(t: Tracker, o: Options): Options {
    ClampPower(ClampInterval(o), t.config.tbmThreshold)
  }

  /** The commands after which somebody is not served, told from what is there before. */
  predicate Fails(t: Tracker, c: Command) {
    match c
    case Start(k, o, hasCallbacks, ok) =>
      hasCallbacks && o.size != 0 && TimeKind(t.config, o) && StartFails(t, StartOptions(t, o), ok)
    case Update(k, o, ok) =>
      var p := AdmittedOptions(t, o);
      && o.size != 0
      && (if Has(t.timeBased, k) && p.minDistance > 0 then SwitchFails(t, k, p, ok)
          else Has(t.distanceBased, k) && p.minDistance == 0 && StartFails(EraseSession(t, k), p, ok))
    case Stop(k, ok) => false
    case SuspendAndRestart(ok) => !ok && t.timeBased != []
    case SetNHz(needed, ok) =>
      && needed && !t.nHzNeeded && !ok && t.timeBased != []
      && t.engine.Running? && t.engine.options.minInterval > MIN_TRACKING_INTERVAL
  }

  lemma StartCommandIff(t: Tracker, c: Command)
    requires Serving(t) && c.Start?
    ensures Serving(Step(t, c)) <==> !Fails(t, c)
    ensures Good(t) && FreshKey(t, c) && !Fails(t, c) ==> Good(Step(t, c))
    ensures Exact(t) && FreshKey(t, c) ==> Exact(Step(t, c))
  {
    hide StartTimeBased, StartFails, Put, Erase;
    if c.hasCallbacks && c.options.size != 0 {
      var o := ClampInterval(c.options);
      if o.minDistance > 0 && t.config.distanceSupported {
        DistanceStartServes(t, c.key, o);
      } else {
        StartServesIff(t, c.key, StartOptions(t, c.options), c.ok);
      }
    }
  }

  lemma DistanceStartServes(t: Tracker, k: SessionKey, o: Options)
    requires Serving(t) && o.minDistance > 0 && t.config.distanceSupported
    ensures var n := SaveSession(t, k, o);
      && Serving(n) && Serving(EraseSession(n, k))
      && (Good(t) && !Has(t.timeBased, k) ==> Good(n) && Good(EraseSession(n, k)))
      && (Exact(t) && !Has(t.timeBased, k) ==> Exact(n) && Exact(EraseSession(n, k)))
  {
    if !Has(t.timeBased, k) {
      NoneHasKey(t.timeBased, k);
      SavedAsDistance(t, k, o);
    } else {
      PutFacts(t.distanceBased, k, o);
      EraseFacts(t.timeBased, k);
    }
  }

  lemma ErasedServes(t: Tracker, k: SessionKey)
    requires Serving(t)
    ensures Serving(EraseSession(t, k))
    ensures Good(t) && Has(t.distanceBased, k) ==>
      Good(EraseSession(t, k)) && !Has(EraseSession(t, k).timeBased, k) && !Has(EraseSession(t, k).distanceBased, k)
  {
    EraseFacts(t.timeBased, k);
    EraseFacts(t.distanceBased, k);
    if Good(t) && Has(t.distanceBased, k) {
      ApartKeys(t, k);
      assert !Has(EraseSession(t, k).distanceBased, k) by {
        NotHas(EraseSession(t, k).distanceBased, k);
      }
    }
  }

  lemma ApartKeys(t: Tracker, k: SessionKey)
    requires Disjoint(t) && Has(t.distanceBased, k)
    ensures !Has(t.timeBased, k)
  {
    var j :| 0 <= j < |t.distanceBased| && t.distanceBased[j].key == k;
    forall i | 0 <= i < |t.timeBased|
      ensures t.timeBased[i].key != k
    {
      assert t.timeBased[i] in t.timeBased && t.distanceBased[j] in t.distanceBased;
    }
  }

  lemma NotHas(m: seq<Session>, k: SessionKey)
    requires forall s :: s in m ==> s.key != k
    ensures !Has(m, k)
  {
  }

  lemma UpdateCommandIff(t: Tracker, c: Command)
    requires Serving(t) && c.Update?
    ensures Serving(Step(t, c)) <==> !Fails(t, c)
    ensures Good(t) && !Fails(t, c) ==> (Good(Step(t, c)) <==> !RunsForNobody(t, c))
  {
    hide Serving, Good, StartTimeBased, SwitchToDistance, UpdateTimeBased, EraseSession, StartFails, SwitchFails, Put;
    var k, o := c.key, AdmittedOptions(t, c.options);
    var isTime, isDistance := Has(t.timeBased, k), Has(t.distanceBased, k);
    if c.options.size != 0 && (isTime || isDistance) {
      if isTime && o.minDistance > 0 {
        SwitchServesIff(t, k, o, c.ok);
      } else if isDistance && o.minDistance == 0 {
        ErasedServes(t, k);
        ErasedConfig(t, k);
        StartServesIff(EraseSession(t, k), k, o, c.ok);
      } else if isTime {
        UpdateServes(t, k, o, c.ok);
      } else {
        DistancesAreSupported(t, k);
        DistanceStartServes(t, k, o);
      }
    }
  }

  lemma ErasedConfig(t: Tracker, k: SessionKey)
    ensures EraseSession(t, k).config == t.config
  {
  }

  lemma DistancesAreSupported(t: Tracker, k: SessionKey)
    requires Serving(t) && Has(t.distanceBased, k)
    ensures t.config.distanceSupported
  {
  }

  /** A key that a start is given is new. */
  predicate FreshKey(t: Tracker, c: Command) {
    c.Start? ==> !Has(t.timeBased, c.key) && !Has(t.distanceBased, c.key)
  }

  /** The engine goes on without a session: it refuses to stop when the last one is stopped,
      or becomes distance-based. */
  predicate RunsForNobody(t: Tracker, c: Command) {
    match c
    case Stop(k, ok) => RefusesToHalt(t, k, ok)
    case Update(k, o, ok) =>
      o.size != 0 && o.minDistance > 0 && t.config.distanceSupported && RefusesToHalt(t, k, ok)
    case _ => false
  }

  /** Of every command: the engine goes on serving every session exactly if it is none of
      those that fail. */
  lemma StepServesIff(t: Tracker, c: Command)
    requires Serving(t)
    ensures Serving(Step(t, c)) <==> !Fails(t, c)
  {
    hide OnStart, OnUpdate, OnStop, Restart, StartTimeBased, SwitchFails, StartFails;
    match c
    case Start(_, _, _, _) => StartCommandIff(t, c);
    case Update(_, _, _) => UpdateCommandIff(t, c);
    case Stop(k, ok) => OnStopServes(t, k, ok);
    case SuspendAndRestart(ok) => RestartServesIff(if t.timeBased == [] then t else Halt(t, true), ok);
    case SetNHz(needed, ok) =>
      if t.nHzNeeded != needed {
        RestartServesIff(t.(nHzNeeded := needed), ok);
      }
  }

  /** And it goes on running only while there are sessions exactly if besides it does not
      refuse to stop for the last one. */
  lemma StepIsGoodIff(t: Tracker, c: Command)
    requires Good(t) && FreshKey(t, c)
    ensures Good(Step(t, c)) <==> !Fails(t, c) && !RunsForNobody(t, c)
  {
    hide OnStart, OnUpdate, OnStop, Restart, StartTimeBased, SwitchFails, StartFails, Serving;
    StepServesIff(t, c);
    ServingKeeps(t);
    if !Fails(t, c) {
      match c
      case Start(_, _, _, _) => StartCommandIff(t, c);
      case Update(_, _, _) => UpdateCommandIff(t, c);
      case Stop(k, ok) => OnStopServes(t, k, ok);
      case SuspendAndRestart(ok) => RestartIsGood(if t.timeBased == [] then t else Halt(t, true), ok);
      case SetNHz(needed, ok) =>
        if t.nHzNeeded != needed {
          RestartIsGood(t.(nHzNeeded := needed), ok);
        }
    }
  }

  lemma ServingKeeps(t: Tracker)
    requires Serving(t)
    ensures WellKept(t)
  {
  }

  lemma RestartIsGood(t: Tracker, ok: bool)
    requires WellKept(t)
    requires Serving(Restart(t, ok)) && Disjoint(t) && (t.engine.Running? ==> t.timeBased != [])
    ensures Good(Restart(t, ok))
  {
    hide Restart;
    RestartServesIff(t, ok);
  }

  lemma StepKeepsConfig(t: Tracker, c: Command)
    ensures Step(t, c).config == t.config
  {
    hide OnStart, OnUpdate, OnStop, Restart;
    match c
    case Start(k, o, _, ok) => OnStartKeepsConfig(t, k, ClampInterval(o), ok);
    case Update(k, o, ok) => OnUpdateKeepsConfig(t, k, AdmittedOptions(t, o), ok);
    case Stop(k, ok) => OnStopKeepsConfig(t, k, ok);
    case SuspendAndRestart(ok) => RestartKeepsRest(if t.timeBased == [] then t else Halt(t, true), ok);
    case SetNHz(needed, ok) => RestartKeepsRest(t.(nHzNeeded := needed), ok);
  }

  lemma StartTimeBasedKeepsConfig(t: Tracker, k: SessionKey, o: Options, ok: bool)
    ensures StartTimeBased(t, k, o, ok).config == t.config
  {
    hide StartMux, Put, Erase;
    StartMuxKeepsConfig(t, o, ok);
  }

  lemma OnStartKeepsConfig(t: Tracker, k: SessionKey, o: Options, ok: bool)
    ensures OnStart(t, k, o, ok).config == t.config
  {
    hide StartTimeBased, Put, Erase;
    StartTimeBasedKeepsConfig(t, k, ClampPower(o, t.config.tbmThreshold), ok);
  }

  lemma OnStopKeepsConfig(t: Tracker, k: SessionKey, ok: bool)
    ensures OnStop(t, k, ok).config == t.config && StopTimeBased(t, k, ok).next.config == t.config
  {
    hide StopMux, Put, Erase;
    StopMuxKeepsConfig(t, k, ok);
  }

  lemma OnUpdateKeepsConfig(t: Tracker, k: SessionKey, o: Options, ok: bool)
    ensures OnUpdate(t, k, o, ok).config == t.config
  {
    hide StartTimeBased, StopTimeBased, UpdateMux, Find, Put, Erase;
    StartTimeBasedKeepsConfig(EraseSession(t, k), k, o, ok);
    OnStopKeepsConfig(t, k, ok);
    UpdateMuxKeepsConfig(t, k, o, ok);
  }

  lemma StartMuxKeepsConfig(t: Tracker, o: Options, ok: bool)
    ensures StartMux(t, o, ok).next.config == t.config
  {
    hide Mux;
  }

  lemma UpdateMuxKeepsConfig(t: Tracker, k: SessionKey, o: Options, ok: bool)
    ensures UpdateMux(t, k, o, ok).next.config == t.config
  {
    hide Mux, Find;
  }

  lemma StopMuxKeepsConfig(t: Tracker, k: SessionKey, ok: bool)
    ensures StopMux(t, k, ok).next.config == t.config
  {
    hide Mux, Find;
  }

  lemma RestartKeepsRest(t: Tracker, ok: bool)
    ensures Restart(t, ok).config == t.config && Restart(t, ok).nHzNeeded == t.nHzNeeded
  {
    hide Mux, HighestPower;
  }

  // ------------------------------------------------------------------ told from the sessions

  /** The smallest interval of the sessions other than k, as the loop finds it. */
  function FastestOther(t: Tracker, k: SessionKey): nat {
    Mux(t.timeBased, |t.timeBased|, Some(k)).options.minInterval
  }

  /** Taking the session off the engine has it started again for the others. */
  predicate StopRelaunches(t: Tracker, k: SessionKey)
    requires Has(t.timeBased, k)
  {
    var was := Find(t.timeBased, k).value;
    was.minInterval < FastestOther(t, k) || was.powerMode < Mux(t.timeBased, |t.timeBased|, Some(k)).powerMode
  }

  /** When the switch to a distance that is not supported fails, told from the sessions: the
      session is alone and the engine stops, or goes on too slowly; or others are there, and
      their interval, or the engine's as it was, is longer, and no nHz client needs less. */
  lemma SwitchFailsIff(t: Tracker, k: SessionKey, o: Options, ok: bool)
    requires Serving(t) && Has(t.timeBased, k) && !t.config.distanceSupported && Valid(o)
    ensures SwitchFails(t, k, o, ok) <==>
      if |t.timeBased| == 1 then ok || t.engine.options.minInterval > o.minInterval
      else if t.nHzNeeded then false
      else if StopRelaunches(t, k) then ok && FastestOther(t, k) > o.minInterval
      else t.engine.options.minInterval > o.minInterval
  {
    hide Mux, Erase;
  }

  /** The update slows down the session that set the pace, and asks for no more power. */
  predicate Slows(t: Tracker, k: SessionKey, o: Options)
    requires Has(t.timeBased, k)
  {
    && |t.timeBased| >= 2
    && Find(t.timeBased, k).value.minInterval < FastestOther(t, k) <= o.minInterval
    && o.powerMode >= Mux(t.timeBased, |t.timeBased|, Some(k)).powerMode
  }

  /** Exactly when an update leaves the engine at the smallest interval, refused or not:
      unless it slows down the pace-setter, which leaves the engine faster than anyone
      asks. */
  lemma UpdateIsExactIff(t: Tracker, k: SessionKey, o: Options, ok: bool)
    requires Exact(t) && Has(t.timeBased, k) && Valid(o) && TimeKind(t.config, o)
    ensures Exact(UpdateTimeBased(t, k, o, ok)) <==> !Slows(t, k, o)
  {
    hide UpdateMux, Put, Erase;
    var m, put, others := t.timeBased, Put(t.timeBased, k, o), Erase(t.timeBased, k);
    var was := Find(m, k).value;
    UpdateServes(t, k, o, ok);
    UpdateMuxServes(t, k, o, ok);
    AdmittedPut(m, k, o);
    PutFacts(m, k, o);
    PutBack(m, k, o, was);
    UpdatedInterval(t, k, o, ok);
  }

  lemma UpdatedInterval(t: Tracker, k: SessionKey, o: Options, ok: bool)
    requires Exact(t) && Has(t.timeBased, k) && Valid(o)
    ensures var l := UpdateMux(t, k, o, ok);
      && !l.next.nHzNeeded && (l.refused ==> l.next == t && !Slows(t, k, o))
      && (!l.refused ==> l.next.engine.Running?)
      && (!l.refused ==>
            (IsFastest(l.next.engine.options.minInterval, Put(t.timeBased, k, o)) <==> !Slows(t, k, o)))
  {
    hide Launch, Mux, Put, Admitted;
    UpdateMuxServes(t, k, o, ok);
    if |t.timeBased| == 1 {
      AloneUpdated(t, k, o, ok);
    } else {
      OthersUpdated(t, k, o, ok);
    }
  }

  lemma AloneUpdated(t: Tracker, k: SessionKey, o: Options, ok: bool)
    requires Exact(t) && Has(t.timeBased, k) && Valid(o) && |t.timeBased| == 1
    ensures var l := UpdateMux(t, k, o, ok);
      && !l.next.nHzNeeded && (l.refused ==> l.next == t)
      && (!l.refused ==> IsFastest(l.next.engine.options.minInterval, Put(t.timeBased, k, o)))
  {
    hide Launch, Mux;
    var m, put := t.timeBased, Put(t.timeBased, k, o);
    var was := Find(m, k).value;
    assert m == [Session(k, was)];
    assert put == [Session(k, o)];
    assert Session(k, o) in put;
    LaunchServes(t, o, ok, []);
    assert Session(k, was) in m;
  }

  lemma OthersUpdated(t: Tracker, k: SessionKey, o: Options, ok: bool)
    requires Exact(t) && Has(t.timeBased, k) && Valid(o) && |t.timeBased| >= 2
    ensures var l := UpdateMux(t, k, o, ok);
      && !l.next.nHzNeeded && (l.refused ==> l.next == t && !Slows(t, k, o))
      && (!l.refused ==>
            (IsFastest(l.next.engine.options.minInterval, Put(t.timeBased, k, o)) <==> !Slows(t, k, o)))
  {
    hide Launch, Mux, Put, Erase;
    var m, put, others := t.timeBased, Put(t.timeBased, k, o), Erase(t.timeBased, k);
    var was, mux := Find(m, k).value, Mux(m, |m|, Some(k));
    MuxOfOthers(m, k);
    PutFastest(m, k, o, mux.options.minInterval);
    AllFastest(m, k, was, mux.options.minInterval, t.engine.options.minInterval);
    LaunchServes(t, Overlay(mux, o), ok, []);
  }

  /** The fastest of a map with one session put in, from the fastest of the others. */
  lemma PutFastest(m: seq<Session>, k: SessionKey, o: Options, others: nat)
    requires Sorted(m) && IsFastest(others, Erase(m, k))
    ensures forall i: nat :: IsFastest(i, Put(m, k, o)) <==> i == if o.minInterval < others then o.minInterval else others
  {
    PutFacts(m, k, o);
    EraseFacts(m, k);
    var s :| s in Erase(m, k) && s.options.minInterval == others;
    assert s in Put(m, k, o) && Session(k, o) in Put(m, k, o);
    forall i: nat
      ensures IsFastest(i, Put(m, k, o)) <==> i == if o.minInterval < others then o.minInterval else others
    {
      if IsFastest(i, Put(m, k, o)) {
        var u :| u in Put(m, k, o) && u.options.minInterval == i;
      }
    }
  }

  lemma AllFastest(m: seq<Session>, k: SessionKey, was: Options, others: nat, all: nat)
    requires Sorted(m) && Session(k, was) in m && IsFastest(others, Erase(m, k)) && IsFastest(all, m)
    ensures all == if was.minInterval < others then was.minInterval else others
  {
    PutFastest(m, k, was, others);
    PutSame(m, k, was);
  }

  lemma PutSame(m: seq<Session>, k: SessionKey, was: Options)
    requires Sorted(m) && Session(k, was) in m
    ensures Put(m, k, was) == m
  {
    PutFacts(m, k, was);
    forall s | s in m && s.key == k
      ensures s == Session(k, was)
    {
      FindIs(m, k, was);
      FindIs(m, k, s.options);
    }
    SameSessions(Put(m, k, was), m);
  }
}
