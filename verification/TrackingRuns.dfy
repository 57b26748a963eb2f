/** The engine serves every session: what runs of tracking commands keep, and which single
    commands end it. */
module TrackingRuns {
  import opened Wrappers
  import opened TrackingModel
  import opened TrackingSessions
  import opened TrackingSteps

  // ------------------------------------------------------------------ being served

  /** Every session there is gets what it asks for, and nHz clients what they need; of the
      flag only that it is for them. */
  ghost predicate Served(t: Tracker) {
    && WellKept(t) && (t.atHighestInterval ==> t.nHzNeeded)
    && (t.timeBased != [] ==> Fast(t, t.timeBased))
  }

  /** The flag is up for an engine that does not run at that interval. */
  predicate FlagLies(t: Tracker) {
    t.nHzNeeded && t.atHighestInterval && !(t.engine.Running? && t.engine.options.minInterval <= MIN_TRACKING_INTERVAL)
  }

  /** The command starts a time-based session that was none. */
  predicate StartsTimeBased(t: Tracker, c: Command) {
    match c
    case Start(_, o, hasCallbacks, _) => hasCallbacks && o.size != 0 && TimeKind(t.config, o)
    case Update(k, o, _) =>
      o.size != 0 && o.minDistance == 0 && Has(t.distanceBased, k)
    case _ => false
  }

  /** The sessions that will be there when it starts. */
  function SessionsBefore(t: Tracker, c: Command): seq<Session> {
    if c.Update? then EraseSession(t, c.key).timeBased else t.timeBased
  }

  /** The commands after which somebody is not served, told from what is there before: the
      first session starts under a flag that lies; one switches to a distance that is not
      supported; a restart, or a change to nHz, is refused and was needed. */
  predicate Harms(t: Tracker, c: Command) {
    || (StartsTimeBased(t, c) && SessionsBefore(t, c) == [] && FlagLies(t))
    || (c.Update? && c.options.size != 0 && c.options.minDistance > 0 && Has(t.timeBased, c.key)
        && SwitchFails(t, c.key, AdmittedOptions(t, c.options), c.ok))
    || (c.SuspendAndRestart? && !c.ok && t.timeBased != [])
    || (c.SetNHz? && c.needed && !t.nHzNeeded && !c.ok && t.timeBased != []
        && t.engine.Running? && t.engine.options.minInterval > MIN_TRACKING_INTERVAL)
  }

  lemma ServingIsServed(t: Tracker)
    ensures Serving(t) <==> Served(t) && FlagHonest(t)
    ensures Served(t) && t.timeBased != [] ==> Serving(t)
    ensures Served(t) ==> (FlagHonest(t) <==> !FlagLies(t))
  {
  }

  /** With a flag that tells the truth, what fails is what harms, or a first nHz start that
      is refused, which harms nobody yet. */
  lemma FailsIsHarms(t: Tracker, c: Command)
    requires Serving(t)
    ensures Harms(t, c) ==> Fails(t, c) && t.timeBased != []
    ensures Fails(t, c) && !Harms(t, c) ==> StartsTimeBased(t, c) && SessionsBefore(t, c) == [] && !c.ok
  {
    hide SwitchFails;
  }

  /** The sessions a command that harms leaves: some, and those are not served. */
  lemma HarmedSessions(t: Tracker, c: Command)
    requires Serving(t) && Harms(t, c)
    ensures Step(t, c).timeBased != []
  {
    hide SwitchFails, Restart, Put, StopTimeBased, OnStart, OnStop, Harms;
    HarmKinds(t, c);
    match c
    case SuspendAndRestart(ok) => RestartServesIff(Halt(t, true), ok);
    case SetNHz(needed, ok) => RestartServesIff(t.(nHzNeeded := needed), ok);
    case Update(k, o, ok) =>
      var p := AdmittedOptions(t, o);
      StopServes(t, k, ok);
      ErasedPart(t.timeBased, k);
      SavedAsTimeIff(StopTimeBased(t, k, ok).next, k, p);
  }

  lemma HarmKinds(t: Tracker, c: Command)
    requires Serving(t) && Harms(t, c)
    ensures c.Update? || c.SuspendAndRestart? || c.SetNHz?
    ensures t.timeBased != []
    ensures c.SetNHz? ==> c.needed && !t.nHzNeeded
    ensures c.Update? ==>
      && c.options.size != 0 && c.options.minDistance > 0 && Has(t.timeBased, c.key) && !t.config.distanceSupported
      && !StopTimeBased(t, c.key, c.ok).refused
  {
    hide StopTimeBased;
  }

  /** A refused first start leaves things as they were, but for the flag. */
  lemma HarmlessRefusal(t: Tracker, c: Command)
    requires Serving(t) && Fails(t, c) && !Harms(t, c)
    ensures var u := if c.Update? then EraseSession(t, c.key) else t;
      && Step(t, c) == u.(atHighestInterval := true) && u.timeBased == [] && u.nHzNeeded && Serving(u)
      && (Good(t) && FreshKey(t, c) ==> Good(u) && u.engine.Stopped?)
  {
    hide SwitchFails, StartTimeBased, StopTimeBased, UpdateTimeBased, SwitchToDistance, Put, Erase;
    FailsIsHarms(t, c);
    match c
    case Start(k, o, _, ok) => RefusedFirstStart(t, k, StartOptions(t, o), ok);
    case Update(k, o, ok) =>
      var u := EraseSession(t, k);
      ErasedServes(t, k);
      ErasedConfig(t, k);
      NotTimeBased(t, c);
      RefusedFirstStart(u, k, AdmittedOptions(t, o), ok);
  }

  lemma NotTimeBased(t: Tracker, c: Command)
    requires Serving(t) && Fails(t, c) && !Harms(t, c) && c.Update?
    ensures c.options.size != 0 && c.options.minDistance == 0 && Has(t.distanceBased, c.key)
    ensures StartFails(EraseSession(t, c.key), AdmittedOptions(t, c.options), c.ok)
    ensures EraseSession(t, c.key).nHzNeeded
  {
    hide SwitchFails;
  }

  // ------------------------------------------------------------------ idle, under a flag that lies

  /** Nobody is there, and the flag lies: nothing is asked of the engine until a restart. */
  predicate Misled(t: Tracker) {
    t.timeBased == [] && FlagLies(t)
  }

  /** Somebody who starts now is saved, and the engine not asked. */
  lemma MisledStart(t: Tracker, c: Command)
    requires Misled(t) && StartsTimeBased(t, c)
    ensures Step(t, c).timeBased != [] && Step(t, c).nHzNeeded && Step(t, c).engine == t.engine
  {
    assert forall k, o :: Put([], k, o) == [Session(k, o)];
  }

  /** Anything else does what it does under a flag that is down. */
  lemma MisledElse(t: Tracker, c: Command)
    requires Misled(t) && !StartsTimeBased(t, c)
    ensures var u, n := t.(atHighestInterval := false), Step(t, c);
      && n == Step(u, c).(atHighestInterval := n.atHighestInterval)
      && (n.atHighestInterval ==> n.nHzNeeded)
  {
    hide Put, StartMux, UpdateMux, StopMux;
  }

  // ------------------------------------------------------------------ every command

  /** Of every command: everybody goes on being served exactly if it is none of those that
      harm. */
  lemma StepServedIff(t: Tracker, c: Command)
    requires Served(t)
    ensures Served(Step(t, c)) <==> !Harms(t, c)
  {
    hide Serving, Step, Harms, Fails, WellKept, Misled, StartsTimeBased;
    ServingIsServed(t);
    var n := Step(t, c);
    ServingIsServed(n);
    if FlagHonest(t) {
      StepServesIff(t, c);
      FailsIsHarms(t, c);
      if Harms(t, c) {
        HarmedSessions(t, c);
      } else if Fails(t, c) {
        HarmlessRefusal(t, c);
        var u := if c.Update? then EraseSession(t, c.key) else t;
        ServingIsServed(u);
        FlagOnly(u, n);
      }
    } else {
      MisledServedIff(t, c);
    }
  }

  lemma FlagOnly(u: Tracker, n: Tracker)
    requires Served(u) && n == u.(atHighestInterval := n.atHighestInterval) && (n.atHighestInterval ==> n.nHzNeeded)
    ensures Served(n)
  {
  }

  lemma MisledServedIff(t: Tracker, c: Command)
    requires Served(t) && !FlagHonest(t)
    ensures Served(Step(t, c)) <==> !Harms(t, c)
  {
    hide Step;
    MisledHarms(t, c);
    if StartsTimeBased(t, c) {
      MisledStart(t, c);
    } else {
      MisledElse(t, c);
      var u := t.(atHighestInterval := false);
      ServingIsServed(u);
      StepServesIff(u, c);
      MisledFails(u, c);
      ServingIsServed(Step(u, c));
      FlagOnly(Step(u, c), Step(t, c));
    }
  }

  lemma MisledHarms(t: Tracker, c: Command)
    requires Served(t) && !FlagHonest(t)
    ensures Misled(t) && (Harms(t, c) <==> StartsTimeBased(t, c))
  {
    hide SwitchFails;
    ServingIsServed(t);
    if c.Update? {
      assert !Has(t.timeBased, c.key);
    }
  }

  lemma MisledFails(u: Tracker, c: Command)
    requires u.timeBased == [] && !StartsTimeBased(u, c)
    ensures !Fails(u, c)
  {
    hide StartFails, SwitchFails;
    if c.Update? {
      assert !Has(u.timeBased, c.key);
    }
  }

  /** The engine runs only while there are sessions, and no session is in both maps. */
  ghost predicate Proper(t: Tracker) {
    Served(t) && Disjoint(t) && (t.engine.Running? ==> t.timeBased != [])
  }

  lemma GoodIsProper(t: Tracker)
    ensures Good(t) <==> Proper(t) && FlagHonest(t)
    ensures Proper(t) && (t.timeBased != [] || !t.nHzNeeded) ==> Good(t)
  {
  }

  /** Of every command: it goes on so exactly if besides the engine does not refuse to stop
      for the last session. */
  lemma StepIsProperIff(t: Tracker, c: Command)
    requires Proper(t) && FreshKey(t, c)
    ensures Proper(Step(t, c)) <==> !Harms(t, c) && !RunsForNobody(t, c)
  {
    hide Served, Good, Disjoint, Step, Harms, Fails, RunsForNobody, FreshKey, Misled, StartsTimeBased;
    GoodIsProper(t);
    StepServedIff(t, c);
    GoodIsServing(t);
    GoodIsServing(Step(t, c));
    if FlagHonest(t) {
      GoodIsProper(Step(t, c));
      FailsIsHarms(t, c);
      if !Fails(t, c) {
        StepServesIff(t, c);
        StepIsGoodIff(t, c);
      } else if !Harms(t, c) {
        HarmlessRefusal(t, c);
        RefusalIsForNobody(t, c);
        ProperUnderFlag(if c.Update? then EraseSession(t, c.key) else t, Step(t, c));
      }
    } else {
      MisledProperIff(t, c);
    }
  }

  lemma GoodIsServing(t: Tracker)
    ensures Good(t) ==> Serving(t)
    ensures Serving(t) ==> FlagHonest(t)
    ensures Proper(t) ==> Served(t)
  {
  }

  lemma RefusalIsForNobody(t: Tracker, c: Command)
    requires Fails(t, c) && !Harms(t, c) && Serving(t)
    ensures !RunsForNobody(t, c)
  {
    hide SwitchFails, StartFails;
  }

  lemma ProperUnderFlag(u: Tracker, n: Tracker)
    requires Good(u) && n == u.(atHighestInterval := n.atHighestInterval) && Served(n)
    ensures Proper(n)
  {
  }

  lemma MisledProperIff(t: Tracker, c: Command)
    requires Proper(t) && !FlagHonest(t) && FreshKey(t, c)
    ensures Proper(Step(t, c)) <==> !Harms(t, c) && !RunsForNobody(t, c)
  {
    hide Step, Harms, Served, Fails, StartsTimeBased, Misled;
    ServingIsServed(t);
    GoodIsServing(t);
    MisledHarms(t, c);
    StepServedIff(t, c);
    if !Harms(t, c) {
      var u, n := t.(atHighestInterval := false), Step(t, c);
      MisledElse(t, c);
      MisledUntold(t, c);
      StepIsGoodIff(u, c);
      MisledFails(u, c);
      SameProper(Step(u, c), n);
    }
  }

  lemma MisledUntold(t: Tracker, c: Command)
    requires Proper(t) && !FlagHonest(t) && FreshKey(t, c) && !StartsTimeBased(t, c)
    ensures var u := t.(atHighestInterval := false);
      Good(u) && FreshKey(u, c) && !StartsTimeBased(u, c) && u.timeBased == [] && !RunsForNobody(u, c) && !RunsForNobody(t, c)
  {
    ServingIsServed(t);
    assert t.timeBased == [];
  }

  lemma SameProper(v: Tracker, n: Tracker)
    requires n == v.(atHighestInterval := n.atHighestInterval) && Served(n) && Good(v)
    ensures Proper(n)
  {
  }

  // ------------------------------------------------------------------ runs

  function At(config: Config, run: seq<Command>, n: nat): Tracker
    requires n <= |run|
  {
    if n == 0 then Initial(config) else Step(At(config, run, n - 1), run[n - 1])
  }

  /** There is a session that the engine does not run for, or not fast enough for it or for
      nHz clients. */
  ghost predicate SomebodyWaits(t: Tracker) {
    exists s :: s in t.timeBased && !Fast(t, [s])
  }

  /** What the program keeps whatever happens: only whether the sessions are served can go
      wrong. */
  ghost predicate Kept(t: Tracker) {
    WellKept(t) && (t.atHighestInterval ==> t.nHzNeeded)
  }

  lemma ServedIff(t: Tracker)
    ensures Served(t) <==> Kept(t) && !SomebodyWaits(t)
  {
    var m := t.timeBased;
    if m != [] && !Fast(t, m) {
      if t.engine.Running? && !Serves(t.engine.options.minInterval, m) {
        var s :| s in m && t.engine.options.minInterval > s.options.minInterval;
        assert s in [s] && !Fast(t, [s]);
      } else {
        assert m[0] in m && !Fast(t, [m[0]]);
      }
    } else if m != [] {
      assert forall s :: s in m ==> Fast(t, [s]);
    }
  }

  /** Of every command: nobody waits after it exactly if it does not harm. */
  lemma StepWaitsIff(t: Tracker, c: Command)
    requires Kept(t) && !SomebodyWaits(t)
    ensures !SomebodyWaits(Step(t, c)) <==> !Harms(t, c)
  {
    hide Step, Harms, SomebodyWaits, Kept;
    StepKeeps(t, c);
    ServedIff(t);
    ServedIff(Step(t, c));
    StepServedIff(t, c);
  }

  /** Somebody waits after the first i commands of a run. */
  ghost predicate WaitingAt(config: Config, run: seq<Command>, i: nat)
    requires i <= |run|
  {
    SomebodyWaits(At(config, run, i))
  }

  /** The next command of the run harms. */
  ghost predicate HarmsAt(config: Config, run: seq<Command>, i: nat)
    requires i < |run|
  {
    Harms(At(config, run, i), run[i])
  }

  lemma {:induction false} EveryRunServesIf(config: Config, run: seq<Command>, n: nat)
    requires n <= |run| && forall i: nat :: i < n ==> !HarmsAt(config, run, i)
    ensures !WaitingAt(config, run, n)
  {
    hide Step, Harms, SomebodyWaits, Kept;
    if n == 0 {
      InitialIsServed(config);
      ServedIff(Initial(config));
    } else {
      assert At(config, run, n) == Step(At(config, run, n - 1), run[n - 1]) && !HarmsAt(config, run, n - 1);
      EveryRunServesIf(config, run, n - 1);
      EveryRunKeeps(config, run, n - 1);
      StepWaitsIff(At(config, run, n - 1), run[n - 1]);
    }
  }

  /** On every run, whatever the engine answers: nobody waits at any time up to a command
      exactly if no command before it harms. */
  lemma EveryRunServesIff(config: Config, run: seq<Command>, n: nat)
    requires n <= |run|
    ensures (forall i: nat :: i <= n ==> !WaitingAt(config, run, i)) <==>
            forall i: nat :: i < n ==> !HarmsAt(config, run, i)
  {
    hide Step, Harms, SomebodyWaits, Kept;
    if forall i: nat :: i < n ==> !HarmsAt(config, run, i) {
      forall i: nat | i <= n
        ensures !WaitingAt(config, run, i)
      {
        EveryRunServesIf(config, run, i);
      }
    }
    if forall i: nat :: i <= n ==> !WaitingAt(config, run, i) {
      forall i: nat | i < n
        ensures !HarmsAt(config, run, i)
      {
        assert !WaitingAt(config, run, i) && !WaitingAt(config, run, i + 1);
        EveryRunKeeps(config, run, i);
        StepWaitsIff(At(config, run, i), run[i]);
      }
    }
  }

  lemma {:induction false} EveryRunKeeps(config: Config, run: seq<Command>, n: nat)
    requires n <= |run|
    ensures Kept(At(config, run, n))
  {
    hide Step, Kept;
    if n == 0 {
      InitialIsServed(config);
      ServedIff(Initial(config));
    } else {
      EveryRunKeeps(config, run, n - 1);
      StepKeeps(At(config, run, n - 1), run[n - 1]);
    }
  }

  lemma InitialIsServed(config: Config)
    ensures Proper(Initial(config)) && Good(Initial(config)) && Exact(Initial(config))
    ensures Served(Initial(config))
  {
  }

  /** That nobody waits: the engine runs while there are time-based sessions, as fast as
      every one of them asks, and at the nHz interval while that is needed. */
  lemma NobodyWaitsIff(t: Tracker)
    ensures !SomebodyWaits(t) <==>
      && (forall s :: s in t.timeBased ==> t.engine.Running? && t.engine.options.minInterval <= s.options.minInterval)
      && (t.nHzNeeded && t.timeBased != [] ==> t.engine.Running? && t.engine.options.minInterval <= MIN_TRACKING_INTERVAL)
  {
    if !SomebodyWaits(t) && t.timeBased != [] {
      assert forall s :: s in t.timeBased ==> Fast(t, [s]) && s in [s];
      assert t.timeBased[0] in t.timeBased;
    }
  }

  /** Suspending and restarting with an engine that obeys serves everybody again, however
      many had to wait before. */
  lemma RestartMends(t: Tracker)
    requires Kept(t)
    ensures !SomebodyWaits(Step(t, SuspendAndRestart(true)))
  {
    hide Restart, SomebodyWaits;
    var u := if t.timeBased == [] then t else Halt(t, true);
    RestartServesIff(u, true);
    ServingIsServed(Restart(u, true));
    ServedIff(Restart(u, true));
  }

  // ------------------------------------------------------------------ what is always kept

  lemma SaveKeeps(t: Tracker, k: SessionKey, o: Options)
    requires Kept(t) && Valid(o)
    ensures Kept(SaveSession(t, k, o))
  {
    if TimeKind(t.config, o) {
      AdmittedPut(t.timeBased, k, o);
      PutFacts(t.timeBased, k, o);
    } else {
      PutFacts(t.distanceBased, k, o);
    }
  }

  lemma EraseKeeps(t: Tracker, k: SessionKey)
    requires Kept(t)
    ensures Kept(EraseSession(t, k)) && Kept(t.(timeBased := Erase(t.timeBased, k)))
    ensures Kept(t.(distanceBased := Erase(t.distanceBased, k)))
  {
    EraseFacts(t.timeBased, k);
    EraseFacts(t.distanceBased, k);
    ErasedIsThere(t.distanceBased, k);
  }

  /** All the engine is asked by: starting, or stopping, touches no session. */
  predicate Asked(t: Tracker, n: Tracker) {
    SameRest(t, n) && (n.atHighestInterval ==> t.atHighestInterval || t.nHzNeeded)
  }

  lemma AskedKeeps(t: Tracker, n: Tracker)
    requires Kept(t) && Asked(t, n)
    ensures Kept(n)
  {
  }

  lemma MuxAsks(t: Tracker, k: SessionKey, o: Options, ok: bool)
    ensures Asked(t, StartMux(t, o, ok).next) && Asked(t, UpdateMux(t, k, o, ok).next)
    ensures Asked(t, StopMux(t, k, ok).next) && Asked(t, RestartTimeBased(t, ok))
  {
    hide Mux, HighestPower, Find;
  }

  lemma StartTimeBasedKeeps(t: Tracker, k: SessionKey, o: Options, ok: bool)
    requires Kept(t) && Valid(o)
    ensures Kept(StartTimeBased(t, k, o, ok))
  {
    hide Kept, StartMux, SaveSession, EraseSession;
    MuxAsks(t, k, o, ok);
    var l := StartMux(t, o, ok);
    AskedKeeps(t, l.next);
    SaveKeeps(l.next, k, o);
    EraseKeeps(SaveSession(l.next, k, o), k);
  }

  lemma OnStartKeeps(t: Tracker, k: SessionKey, o: Options, ok: bool)
    requires Kept(t) && Valid(o)
    ensures Kept(OnStart(t, k, o, ok))
  {
    hide Kept, StartTimeBased, SaveSession, EraseSession;
    StartTimeBasedKeeps(t, k, ClampPower(o, t.config.tbmThreshold), ok);
    SaveKeeps(t, k, o);
    EraseKeeps(SaveSession(t, k, o), k);
  }

  lemma StopTimeBasedKeeps(t: Tracker, k: SessionKey, ok: bool)
    requires Kept(t)
    ensures Kept(StopTimeBased(t, k, ok).next)
  {
    hide Kept, StopMux, Erase;
    MuxAsks(t, k, UNSET, ok);
    AskedKeeps(t, StopMux(t, k, ok).next);
    EraseKeeps(StopMux(t, k, ok).next, k);
  }

  lemma UpdateTimeBasedKeeps(t: Tracker, k: SessionKey, o: Options, ok: bool)
    requires Kept(t) && Valid(o)
    ensures Kept(UpdateTimeBased(t, k, o, ok))
  {
    hide Kept, UpdateMux, SaveSession;
    MuxAsks(t, k, o, ok);
    var l := UpdateMux(t, k, o, ok);
    AskedKeeps(t, l.next);
    SaveKeeps(l.next, k, o);
    if Has(t.timeBased, k) {
      FoundIsValid(t, k);
      SaveKeeps(SaveSession(l.next, k, o), k, Find(t.timeBased, k).value);
    }
  }

  lemma FoundIsValid(t: Tracker, k: SessionKey)
    requires Kept(t) && Has(t.timeBased, k)
    ensures Valid(Find(t.timeBased, k).value)
  {
  }

  lemma OnUpdateKeeps(t: Tracker, k: SessionKey, o: Options, ok: bool)
    requires Kept(t) && Valid(o)
    ensures Kept(OnUpdate(t, k, o, ok))
  {
    hide Kept, StartTimeBased, StopTimeBased, UpdateTimeBased, SaveSession, EraseSession;
    EraseKeeps(t, k);
    StartTimeBasedKeeps(EraseSession(t, k), k, o, ok);
    UpdateTimeBasedKeeps(t, k, o, ok);
    SaveKeeps(t, k, o);
    var l := StopTimeBased(t, k, ok);
    StopTimeBasedKeeps(t, k, ok);
    SaveKeeps(l.next, k, o);
    EraseKeeps(SaveSession(l.next, k, o), k);
  }

  lemma OnStopKeeps(t: Tracker, k: SessionKey, ok: bool)
    requires Kept(t)
    ensures Kept(OnStop(t, k, ok))
  {
    hide Kept, StopTimeBased, EraseSession, Erase;
    StopTimeBasedKeeps(t, k, ok);
    EraseKeeps(StopTimeBased(t, k, ok).next, k);
    EraseKeeps(t, k);
  }

  lemma StepKeeps(t: Tracker, c: Command)
    requires Kept(t)
    ensures Kept(Step(t, c))
  {
    hide OnStart, OnUpdate, OnStop, RestartTimeBased;
    match c
    case Start(k, o, _, ok) =>
      if o.size != 0 {
        OnStartKeeps(t, k, ClampInterval(o), ok);
      }
    case Update(k, o, ok) =>
      if o.size != 0 {
        OnUpdateKeeps(t, k, AdmittedOptions(t, o), ok);
      }
    case Stop(k, ok) => OnStopKeeps(t, k, ok);
    case SuspendAndRestart(ok) =>
      MuxAsks((if t.timeBased == [] then t else Halt(t, true)).(atHighestInterval := false), NO_KEY, UNSET, ok);
    case SetNHz(needed, ok) => MuxAsks(t.(nHzNeeded := needed, atHighestInterval := false), NO_KEY, UNSET, ok);
  }

  const NO_KEY := SessionKey(0, 0)

  // ------------------------------------------------------------------ an engine that obeys

  /** After the first i commands of a run everybody is served, and the engine runs for somebody. */
  ghost predicate ProperAt(config: Config, run: seq<Command>, i: nat)
    requires i <= |run|
  {
    Proper(At(config, run, i))
  }

  /** The next command neither harms nor has the engine refuse to stop for the last session. */
  ghost predicate FineAt(config: Config, run: seq<Command>, i: nat)
    requires i < |run|
  {
    !Harms(At(config, run, i), run[i]) && !RunsForNobody(At(config, run, i), run[i])
  }

  lemma {:induction false} EveryRunIsProperIf(config: Config, run: seq<Command>, n: nat)
    requires n <= |run| && (forall i :: 0 <= i < n ==> FreshKey(At(config, run, i), run[i])) && forall i: nat :: i < n ==> (FineAt(config, run, i))
    ensures ProperAt(config, run, n)
  {
    hide Step, Harms, RunsForNobody, Proper, FreshKey;
    if n == 0 {
      InitialIsServed(config);
    } else {
      assert At(config, run, n) == Step(At(config, run, n - 1), run[n - 1]) && FineAt(config, run, n - 1);
      EveryRunIsProperIf(config, run, n - 1);
      StepIsProperIff(At(config, run, n - 1), run[n - 1]);
    }
  }

  /** On every run whose starts are given new keys: everybody is served, and the engine runs
      only while there is somebody, exactly if no command harms, or has the engine refuse to
      stop for the last session. */
  lemma EveryRunIsProperIff(config: Config, run: seq<Command>, n: nat)
    requires n <= |run| && forall i :: 0 <= i < n ==> FreshKey(At(config, run, i), run[i])
    ensures (forall i: nat :: i <= n ==> ProperAt(config, run, i)) <==>
      forall i: nat :: i < n ==> FineAt(config, run, i)
  {
    hide Step, Harms, RunsForNobody, Proper, FreshKey;
    if forall i: nat :: i < n ==> FineAt(config, run, i) {
      forall i: nat | i <= n
        ensures ProperAt(config, run, i)
      {
        EveryRunIsProperIf(config, run, i);
      }
    }
    if forall i: nat :: i <= n ==> ProperAt(config, run, i) {
      forall i: nat | i < n
        ensures FineAt(config, run, i)
      {
        assert ProperAt(config, run, i) && ProperAt(config, run, i + 1);
        StepIsProperIff(At(config, run, i), run[i]);
      }
    }
  }

  /** Where distances are supported and the engine does as it is told, no command harms: it
      runs exactly while there are time-based sessions, and serves them all. */
  lemma {:induction false} ObedientRunServes(config: Config, run: seq<Command>, n: nat)
    requires n <= |run| && config.distanceSupported && forall i :: 0 <= i < n ==> run[i].ok
    requires forall i :: 0 <= i < n ==> FreshKey(At(config, run, i), run[i])
    ensures Good(At(config, run, n)) && At(config, run, n).config == config
    ensures At(config, run, n).engine.Running? <==> At(config, run, n).timeBased != []
  {
    hide Step, Good, FreshKey, Fails;
    if n == 0 {
      InitialIsServed(config);
    } else {
      ObedientRunServes(config, run, n - 1);
      ObedientStep(At(config, run, n - 1), run[n - 1]);
    }
    RunsForSomebody(At(config, run, n));
  }

  lemma RunsForSomebody(t: Tracker)
    requires Good(t)
    ensures t.engine.Running? <==> t.timeBased != []
  {
  }

  lemma ObedientStep(t: Tracker, c: Command)
    requires Good(t) && t.config.distanceSupported && c.ok && FreshKey(t, c)
    ensures Good(Step(t, c)) && Step(t, c).config == t.config
  {
    StepIsGoodIff(t, c);
    StepKeepsConfig(t, c);
    assert !Fails(t, c) && !RunsForNobody(t, c) by {
      hide Step;
    }
  }
}
