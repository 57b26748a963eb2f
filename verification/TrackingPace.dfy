/** Without nHz clients the engine runs at exactly the smallest interval its sessions ask for:
    which commands keep that. */
module TrackingPace {
  import opened Wrappers
  import opened TrackingModel
  import opened TrackingSessions
  import opened TrackingSteps
  import opened TrackingRuns

  /** The session is faster than all the others. */
  predicate SetsPace(t: Tracker, k: SessionKey)
    requires Has(t.timeBased, k)
  {
    Find(t.timeBased, k).value.minInterval < FastestOther(t, k)
  }

  /** The engine refuses to stop for its only session, or to slow down to the others. */
  predicate RefusesToLeave(t: Tracker, k: SessionKey, ok: bool)
    requires Has(t.timeBased, k)
  {
    !ok && (|t.timeBased| == 1 || SetsPace(t, k))
  }

  /** A time-based session asks for a distance that is not supported. Alone, it keeps the
      engine only if that refuses to stop, and is asked the same interval. With others, the
      engine is left at their interval, which must be short enough for it; unless starting
      again is refused, which erases it. */
  predicate SwitchStrays(t: Tracker, k: SessionKey, o: Options, ok: bool)
    requires Has(t.timeBased, k)
  {
    if |t.timeBased| == 1 then ok || Find(t.timeBased, k).value.minInterval != o.minInterval
    else if StopRelaunches(t, k) && !ok then SetsPace(t, k)
    else FastestOther(t, k) > o.minInterval
  }

  /** The commands after which the engine runs for nobody, or not at exactly the smallest
      interval, told from the sessions there are. */
  predicate Strays(t: Tracker, c: Command) {
    match c
    case Start(_, _, _, _) => false
    case Update(k, o, ok) =>
      && o.size != 0 && Has(t.timeBased, k)
      && if o.minDistance == 0 then Slows(t, k, AdmittedOptions(t, o))
         else if t.config.distanceSupported then RefusesToLeave(t, k, ok)
         else SwitchStrays(t, k, AdmittedOptions(t, o), ok)
    case Stop(k, ok) => Has(t.timeBased, k) && RefusesToLeave(t, k, ok)
    case SuspendAndRestart(ok) => !ok && t.timeBased != []
    case SetNHz(_, _) => false
  }

  // ------------------------------------------------------------------ taking a session off

  /** What the engine is left at by a stop, with others there. */
  lemma StoppedInterval(t: Tracker, k: SessionKey, ok: bool)
    requires Exact(t) && Has(t.timeBased, k) && |t.timeBased| >= 2
    ensures var l := StopTimeBased(t, k, ok);
      && Serving(l.next) && l.next.timeBased == Erase(t.timeBased, k) != [] && l.next.engine.Running?
      && SameRest(t, l.next.(timeBased := t.timeBased)) && !l.next.atHighestInterval
      && (l.refused <==> StopRelaunches(t, k) && !ok)
      && IsFastest(FastestOther(t, k), l.next.timeBased)
      && (!l.refused ==> l.next.engine.options.minInterval == FastestOther(t, k))
      && (l.refused ==> l.next.engine == t.engine)
      && t.engine.options.minInterval == (if SetsPace(t, k) then Find(t.timeBased, k).value.minInterval else FastestOther(t, k))
  {
    hide Mux, Erase, Admitted, Launch;
    var m, was := t.timeBased, Find(t.timeBased, k).value;
    StopServes(t, k, ok);
    MuxOfOthers(m, k);
    AllFastest(m, k, was, FastestOther(t, k), t.engine.options.minInterval) by {
      AdmittedIsSorted(m);
    }
    var mux := Mux(m, |m|, Some(k));
    LaunchLeaves(t, mux.options.(powerMode := mux.powerMode), ok);
  }

  /** Without nHz, what a launch leaves. */
  lemma LaunchLeaves(t: Tracker, o: Options, ok: bool)
    requires !t.nHzNeeded
    ensures Launch(t, o, ok) == Launched(if ok then t.(engine := Running(o)) else t, !ok)
  {
  }

  lemma AloneStopped(t: Tracker, k: SessionKey, ok: bool)
    requires Exact(t) && Has(t.timeBased, k) && |t.timeBased| == 1
    ensures var l := StopTimeBased(t, k, ok);
      && Serving(l.next) && l.next.timeBased == [] && !l.refused && !l.next.atHighestInterval
      && SameRest(t, l.next.(timeBased := t.timeBased)) && l.next.engine == (if ok then Stopped else t.engine)
      && t.engine.Running? && t.engine.options.minInterval == Find(t.timeBased, k).value.minInterval
  {
    hide Erase;
    StopServes(t, k, ok);
    assert t.timeBased == [Session(k, Find(t.timeBased, k).value)];
  }

  lemma FastestIsOne(m: seq<Session>, a: nat, b: nat)
    requires IsFastest(a, m)
    ensures IsFastest(b, m) <==> a == b
  {
    var s :| s in m && s.options.minInterval == a;
    if IsFastest(b, m) {
      var u :| u in m && u.options.minInterval == b;
    }
  }

  /** Of a session taken off: what is left is exact unless the engine refuses to let it go. */
  lemma StopIsExactIff(t: Tracker, k: SessionKey, ok: bool)
    requires Exact(t) && Has(t.timeBased, k)
    ensures Exact(StopTimeBased(t, k, ok).next) <==> !RefusesToLeave(t, k, ok)
    ensures !Has(StopTimeBased(t, k, ok).next.timeBased, k)
  {
    hide StopTimeBased, StopRelaunches, Erase, Admitted, FastestOther;
    var l := StopTimeBased(t, k, ok);
    ErasedPart(t.timeBased, k);
    StopServes(t, k, ok);
    NotHas(l.next.timeBased, k);
    if |t.timeBased| == 1 {
      AloneStopped(t, k, ok);
    } else {
      StoppedInterval(t, k, ok);
      if SetsPace(t, k) {
        PaceRelaunches(t, k);
      }
      FastestIsOne(l.next.timeBased, FastestOther(t, k), l.next.engine.options.minInterval);
    }
  }

  lemma PaceRelaunches(t: Tracker, k: SessionKey)
    requires Has(t.timeBased, k) && SetsPace(t, k)
    ensures StopRelaunches(t, k)
  {
  }

  // ------------------------------------------------------------------ switching to distance

  /** Where distances are supported, a switch leaves the engine as a stop would. */
  lemma SupportedSwitchIsExactIff(t: Tracker, k: SessionKey, o: Options, ok: bool)
    requires Exact(t) && Has(t.timeBased, k) && o.minDistance > 0 && t.config.distanceSupported
    ensures Exact(SwitchToDistance(t, k, o, ok)) <==> !RefusesToLeave(t, k, ok)
  {
    hide StopTimeBased, Put, Erase, Admitted, IsFastest;
    var l := StopTimeBased(t, k, ok);
    StopServes(t, k, ok);
    StopIsExactIff(t, k, ok);
    ErasedPart(t.timeBased, k);
    SavedAsDistance(l.next, k, o);
  }

  /** Where they are not, the session is put back among the others, unless a refusal erases
      it. */
  lemma UnsupportedSwitchIsExactIff(t: Tracker, k: SessionKey, o: Options, ok: bool)
    requires Exact(t) && Has(t.timeBased, k) && Valid(o) && o.minDistance > 0 && !t.config.distanceSupported
    ensures Exact(SwitchToDistance(t, k, o, ok)) <==> !SwitchStrays(t, k, o, ok)
  {
    hide StopTimeBased, StopRelaunches, Put, Erase, Admitted, IsFastest, FastestOther;
    var l := StopTimeBased(t, k, ok);
    StopServes(t, k, ok);
    ErasedPart(t.timeBased, k);
    SavedAsTimeIff(l.next, k, o);
    if |t.timeBased| == 1 {
      AloneStopped(t, k, ok);
      PutAlone(k, o, if l.next.engine.Running? then l.next.engine.options.minInterval else 0);
    } else {
      StoppedInterval(t, k, ok);
      if l.refused {
        StopIsExactIff(t, k, ok);
      } else {
        PutBackFastest(t, k, o);
      }
    }
  }

  lemma PutAlone(k: SessionKey, o: Options, interval: nat)
    ensures IsFastest(interval, Put([], k, o)) <==> interval == o.minInterval
  {
    assert Put([], k, o) == [Session(k, o)] && Session(k, o) in Put([], k, o);
  }

  lemma PutBackFastest(t: Tracker, k: SessionKey, o: Options)
    requires Exact(t) && Has(t.timeBased, k) && Valid(o) && IsFastest(FastestOther(t, k), Erase(t.timeBased, k))
    ensures IsFastest(FastestOther(t, k), Put(Erase(t.timeBased, k), k, o)) <==> FastestOther(t, k) <= o.minInterval
  {
    var m, others := t.timeBased, Erase(t.timeBased, k);
    EraseFacts(m, k);
    EraseNothing(others, k);
    PutFastest(others, k, o, FastestOther(t, k));
  }

  // ------------------------------------------------------------------ every command

  /** Of every command but a change to nHz: the engine goes on at exactly the smallest
      interval, and only while there are sessions, exactly if the command does not stray. */
  lemma StepIsExactIff(t: Tracker, c: Command)
    requires Exact(t) && FreshKey(t, c) && !(c.SetNHz? && c.needed)
    ensures Exact(Step(t, c)) <==> !Strays(t, c)
  {
    hide OnStart, OnUpdate, OnStop, Restart, StartTimeBased, IsFastest, Slows, SwitchStrays, RefusesToLeave;
    match c
    case Start(_, _, _, _) => StartCommandIff(t, c);
    case Update(_, _, _) => UpdateCommandIsExactIff(t, c);
    case Stop(k, ok) => OnStopIsExactIff(t, k, ok);
    case SuspendAndRestart(ok) => SuspendIsExactIff(t, ok);
    case SetNHz(_, _) =>
  }

  lemma OnStopIsExactIff(t: Tracker, k: SessionKey, ok: bool)
    requires Exact(t)
    ensures Exact(OnStop(t, k, ok)) <==> !(Has(t.timeBased, k) && RefusesToLeave(t, k, ok))
  {
    hide StopTimeBased, RefusesToLeave, IsFastest, Erase;
    if Has(t.timeBased, k) {
      StopIsExactIff(t, k, ok);
      StopServes(t, k, ok);
      DistanceApart(t, k);
      NothingErased(t.distanceBased, k);
    } else {
      EraseFacts(t.distanceBased, k);
      ErasedIsThere(t.distanceBased, k);
    }
  }

  lemma ErasedDistance(t: Tracker, k: SessionKey)
    requires Exact(t)
    ensures Exact(t.(distanceBased := Erase(t.distanceBased, k)))
  {
    EraseFacts(t.distanceBased, k);
    ErasedIsThere(t.distanceBased, k);
  }

  lemma NothingErased(m: seq<Session>, k: SessionKey)
    requires !Has(m, k)
    ensures Erase(m, k) == m
  {
    NoneHasKey(m, k);
    EraseNothing(m, k);
  }

  lemma DistanceApart(t: Tracker, k: SessionKey)
    requires Disjoint(t) && Has(t.timeBased, k)
    ensures !Has(t.distanceBased, k)
  {
    if Has(t.distanceBased, k) {
      ApartKeys(t, k);
    }
  }

  lemma SuspendIsExactIff(t: Tracker, ok: bool)
    requires Exact(t)
    ensures Exact(Step(t, SuspendAndRestart(ok))) <==> ok || t.timeBased == []
  {
    hide Restart, IsFastest;
    var u := if t.timeBased == [] then t else Halt(t, true);
    RestartServesIff(u, ok);
    RestartKeepsRest(u, ok);
  }

  lemma UpdateCommandIsExactIff(t: Tracker, c: Command)
    requires Exact(t) && c.Update?
    ensures Exact(Step(t, c)) <==> !Strays(t, c)
  {
    hide Good, IsFastest, StartTimeBased, SwitchToDistance, UpdateTimeBased, EraseSession, Put, Slows, SwitchStrays, RefusesToLeave;
    var k, o := c.key, AdmittedOptions(t, c.options);
    var isTime, isDistance := Has(t.timeBased, k), Has(t.distanceBased, k);
    if c.options.size != 0 && (isTime || isDistance) {
      ExactIsGood(t);
      if isTime && o.minDistance > 0 {
        if t.config.distanceSupported {
          SupportedSwitchIsExactIff(t, k, o, c.ok);
        } else {
          UnsupportedSwitchIsExactIff(t, k, o, c.ok);
        }
      } else if isTime {
        DistanceApart(t, k);
        UpdateIsExactIff(t, k, o, c.ok);
      } else if o.minDistance == 0 {
        ErasedConfig(t, k);
        ErasedDistance(t, k);
        ErasedServes(t, k);
        ErasedFromDistance(t, k);
        StartServesIff(EraseSession(t, k), k, o, c.ok);
      } else {
        DistancesAreSupported(t, k);
        DistanceStartServes(t, k, o);
      }
    }
  }

  lemma ErasedFromDistance(t: Tracker, k: SessionKey)
    requires !Has(t.timeBased, k)
    ensures EraseSession(t, k) == t.(distanceBased := Erase(t.distanceBased, k))
  {
  }

  lemma ExactIsGood(t: Tracker)
    requires Exact(t)
    ensures Good(t) && Serving(t) && Disjoint(t)
  {
  }

  // ------------------------------------------------------------------ runs

  /** After the first i commands of a run the engine runs at exactly the smallest interval. */
  ghost predicate ExactAt(config: Config, run: seq<Command>, i: nat)
    requires i <= |run|
  {
    Exact(At(config, run, i))
  }

  /** The next command strays. */
  ghost predicate StraysAt(config: Config, run: seq<Command>, i: nat)
    requires i < |run|
  {
    Strays(At(config, run, i), run[i])
  }

  lemma {:induction false} EveryRunIsExactIf(config: Config, run: seq<Command>, n: nat)
    requires n <= |run| && (forall i :: 0 <= i < n ==> FreshKey(At(config, run, i), run[i]) && !(run[i].SetNHz? && run[i].needed)) && forall i: nat :: i < n ==> !StraysAt(config, run, i)
    ensures ExactAt(config, run, n)
  {
    hide Step, Exact, FreshKey, Strays;
    if n == 0 {
      InitialIsServed(config);
    } else {
      assert At(config, run, n) == Step(At(config, run, n - 1), run[n - 1]) && !StraysAt(config, run, n - 1);
      EveryRunIsExactIf(config, run, n - 1);
      StepIsExactIff(At(config, run, n - 1), run[n - 1]);
    }
  }

  /** On every run without nHz clients whose starts are given new keys: the engine runs at
      exactly the smallest interval at any time up to a command exactly if none before it
      strays. */
  lemma EveryRunIsExactIff(config: Config, run: seq<Command>, n: nat)
    requires n <= |run|
    requires forall i :: 0 <= i < n ==> FreshKey(At(config, run, i), run[i]) && !(run[i].SetNHz? && run[i].needed)
    ensures (forall i: nat :: i <= n ==> ExactAt(config, run, i)) <==>
            forall i: nat :: i < n ==> !StraysAt(config, run, i)
  {
    hide Step, Exact, FreshKey, Strays;
    if forall i: nat :: i < n ==> !StraysAt(config, run, i) {
      forall i: nat | i <= n
        ensures ExactAt(config, run, i)
      {
        EveryRunIsExactIf(config, run, i);
      }
    }
    if forall i: nat :: i <= n ==> ExactAt(config, run, i) {
      forall i: nat | i < n
        ensures !StraysAt(config, run, i)
      {
        assert ExactAt(config, run, i) && ExactAt(config, run, i + 1);
        StepIsExactIff(At(config, run, i), run[i]);
      }
    }
  }
}
