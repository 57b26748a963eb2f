/** Where the multiplexing falls short: runs on which sessions wait, are lost, or keep the
    engine faster than anybody asks. */
module TrackingLimits {
  import opened Wrappers
  import opened TrackingModel
  import opened TrackingSessions
  import opened TrackingSteps
  import opened TrackingRuns
  import opened TrackingPace
  import opened TrackingLosses

  const FIRST := SessionKey(0, 1)
  const SECOND := SessionKey(0, 2)
  const THIRD := SessionKey(0, 3)
  const LOW := Options(1, 5000, 0, 2, 0)
  const SLOW := Options(1, 5000, 0, 1, 0)
  const FAST := Options(1, 1000, 0, 1, 0)
  const LATE := Options(1, 9000, 0, 1, 0)
  const FAR := Options(1, 1000, 10, 1, 0)
  const NO_MODE := Options(1, 5000, 0, 0, 0)

  /** The slow session, and then the fast one. */
  function Two(config: Config): Tracker {
    Tracker(config, [Session(FIRST, SLOW), Session(SECOND, FAST)], [], Running(FAST), false, false)
  }

  lemma SlowThenFast(config: Config)
    ensures Step(Step(Initial(config), Start(FIRST, SLOW, true, true)), Start(SECOND, FAST, true, true)) == Two(config)
  {
    var t1 := Step(Initial(config), Start(FIRST, SLOW, true, true));
    assert t1 == Tracker(config, [Session(FIRST, SLOW)], [], Running(SLOW), false, false);
    assert Mux(t1.timeBased, 1, None) == Muxed(SLOW, 1);
    assert Put([], SECOND, FAST) == [Session(SECOND, FAST)] && t1.timeBased[1..] == [];
    assert Overlay(Muxed(SLOW, 1), FAST) == FAST;
  }

  lemma AfterTwo(config: Config, c: Command)
    ensures var run := [Start(FIRST, SLOW, true, true), Start(SECOND, FAST, true, true), c];
      At(config, run, 2) == Two(config) && At(config, run, 3) == Step(Two(config), c)
  {
    hide Step;
    var run := [Start(FIRST, SLOW, true, true), Start(SECOND, FAST, true, true), c];
    SlowThenFast(config);
    assert At(config, run, 0) == Initial(config);
    assert At(config, run, 2) == Step(At(config, run, 1), run[1]);
  }

  /** What the loops find, of two. */
  lemma OfTwo(config: Config)
    ensures var t := Two(config);
      && Served(t) && Exact(t) && Has(t.timeBased, FIRST) && Has(t.timeBased, SECOND) && Find(t.timeBased, SECOND) == Some(FAST)
      && FastestOther(t, SECOND) == 5000 && Mux(t.timeBased, 2, Some(SECOND)) == Muxed(SLOW, 1) && StopRelaunches(t, SECOND)
  {
    var m := Two(config).timeBased;
    assert m[0] == Session(FIRST, SLOW) && m[1] == Session(SECOND, FAST) && m[1..] == [Session(SECOND, FAST)];
    assert Find(m[1..], SECOND) == Some(FAST) && Find(m, SECOND) == Some(FAST);
    assert Mux(m, 0, Some(SECOND)) == Muxed(UNSET, 0);
    assert Mux(m, 1, Some(SECOND)) == Muxed(SLOW, 1);
    assert Mux(m, 2, Some(SECOND)) == Mux(m, 1, Some(SECOND));
    assert m[1] in m;
  }

  /** The faster of two sessions asks for a distance that is not supported: it keeps its
      interval, and an engine that obeys is left at the slower one's. */
  lemma UnsupportedSwitchIsSlow()
    ensures var run := [Start(FIRST, SLOW, true, true), Start(SECOND, FAST, true, true), Update(SECOND, FAR, true)];
      SomebodyWaits(At(Config(false, 0), run, 3))
  {
    hide Step, SomebodyWaits, Served, Mux, StopTimeBased, StopRelaunches;
    var config, c := Config(false, 0), Update(SECOND, FAR, true);
    AfterTwo(config, c);
    OfTwo(config);
    ServedNotAfter(Two(config), c) by {
      SwitchFailsIff(Two(config), SECOND, FAR, true);
    }
  }

  lemma ServedNotAfter(t: Tracker, c: Command)
    requires Served(t) && Harms(t, c)
    ensures SomebodyWaits(Step(t, c))
  {
    hide Step, SomebodyWaits, Harms;
    StepServedIff(t, c);
    StepKeeps(t, c);
    ServedIff(Step(t, c));
  }

  /** An engine that refuses the first start for nHz clients leaves the flag up, and is
      not asked again: the next session waits, whatever the engine would answer. */
  lemma RefusedNHzStartIsNotRepeated(ok: bool)
    ensures SomebodyWaits(At(Config(true, 0), [SetNHz(true, true), Start(FIRST, FAST, true, false), Start(SECOND, FAST, true, ok)], 3))
  {
    hide Step, SomebodyWaits;
    var run := [SetNHz(true, true), Start(FIRST, FAST, true, false), Start(SECOND, FAST, true, ok)];
    var config := Config(true, 0);
    assert At(config, run, 0) == Initial(config);
    FirstRefused(config);
    assert At(config, run, 1) == Tracker(config, [], [], Stopped, true, false);
    assert At(config, run, 2) == Tracker(config, [], [], Stopped, true, true);
    ServedNotAfter(At(config, run, 2), run[2]);
  }

  lemma FirstRefused(config: Config)
    ensures Step(Initial(config), SetNHz(true, true)) == Tracker(config, [], [], Stopped, true, false)
    ensures Step(Tracker(config, [], [], Stopped, true, false), Start(FIRST, FAST, true, false)) ==
      Tracker(config, [], [], Stopped, true, true)
    ensures Step(Tracker(config, [], [], Stopped, true, true), SuspendAndRestart(true)) ==
      Tracker(config, [], [], Stopped, true, false)
  {
    var s := Tracker(config, [Session(FIRST, FAST)], [], Stopped, true, true);
    assert s.timeBased[0].key == FIRST && s.timeBased[1..] == [];
    assert Erase(s.timeBased, FIRST) == [];
  }

  /** The faster of two sessions asks for a distance instead, and the engine refuses to
      start again for the other: the session is lost. */
  lemma SwitchToDistanceLosesSession()
    ensures var run := [Start(FIRST, SLOW, true, true), Start(SECOND, FAST, true, true), Update(SECOND, FAR, false)];
      There(At(Config(true, 0), run, 2), SECOND) && !There(At(Config(true, 0), run, 3), SECOND)
  {
    hide Step, Served, Mux, StopRelaunches;
    var config := Config(true, 0);
    AfterTwo(config, Update(SECOND, FAR, false));
    OfTwo(config);
    UpdateLosesIff(Two(config), SECOND, FAR, false);
  }

  /** A distance-based session asks for a time instead, and the engine refuses to start for
      it: the session is lost. */
  lemma SwitchToTimeLosesSession()
    ensures var run := [Start(FIRST, FAR, true, true), Update(FIRST, FAST, false)];
      There(At(Config(true, 0), run, 1), FIRST) && !There(At(Config(true, 0), run, 2), FIRST)
  {
    hide Step;
    var config, run := Config(true, 0), [Start(FIRST, FAR, true, true), Update(FIRST, FAST, false)];
    assert At(config, run, 0) == Initial(config);
    var t1 := Tracker(config, [], [Session(FIRST, FAR)], Stopped, false, false);
    DistanceStarted(config);
    assert At(config, run, 1) == t1 && At(config, run, 2) == Step(t1, run[1]);
    assert t1.distanceBased[0].key == FIRST;
    UpdateLosesIff(t1, FIRST, FAST, false);
  }

  lemma DistanceStarted(config: Config)
    requires config.distanceSupported
    ensures Step(Initial(config), Start(FIRST, FAR, true, true)) == Tracker(config, [], [Session(FIRST, FAR)], Stopped, false, false)
  {
  }

  /** The faster of two sessions slows down to less than the other asks for: the engine is
      left at an interval that nobody asks for any more. */
  lemma SlowedDownIsNotExact()
    ensures var run := [Start(FIRST, SLOW, true, true), Start(SECOND, FAST, true, true), Update(SECOND, LATE, true)];
      Exact(At(Config(true, 0), run, 2)) && !Exact(At(Config(true, 0), run, 3))
  {
    hide Step, Exact, Mux;
    var config, c := Config(true, 0), Update(SECOND, LATE, true);
    AfterTwo(config, c);
    OfTwo(config);
    StepIsExactIff(Two(config), c);
  }

  /** The first session names no power mode: the restart asks the engine for none either,
      although the other names the highest. */
  lemma NoModeIsKept()
    ensures var run := [Start(FIRST, NO_MODE, true, true), Start(SECOND, FAST, true, true), SuspendAndRestart(true)];
      var t := At(Config(true, 0), run, 3);
      && Session(SECOND, FAST) in t.timeBased && t.engine.Running?
      && !IsHighestPower(t.timeBased, t.engine.options.powerMode)
  {
    hide Step, HighestPower;
    var run := [Start(FIRST, NO_MODE, true, true), Start(SECOND, FAST, true, true), SuspendAndRestart(true)];
    var config, m := Config(true, 0), [Session(FIRST, NO_MODE), Session(SECOND, FAST)];
    assert At(config, run, 0) == Initial(config);
    NoModeStarts(config);
    assert At(config, run, 2) == Step(At(config, run, 1), run[1]);
    var t2 := At(config, run, 2);
    assert At(config, run, 3) == Step(t2, run[2]);
    RestartedPower(t2);
    assert m[1].options.powerMode > 0 && m[1] in m;
    RestartPicksHighestPowerIff(m);
  }

  lemma NoModeStarts(config: Config)
    ensures var t2 := Step(Step(Initial(config), Start(FIRST, NO_MODE, true, true)), Start(SECOND, FAST, true, true));
      t2.timeBased == [Session(FIRST, NO_MODE), Session(SECOND, FAST)] && !t2.nHzNeeded
  {
    var t1 := Step(Initial(config), Start(FIRST, NO_MODE, true, true));
    assert t1 == Tracker(config, [Session(FIRST, NO_MODE)], [], Running(NO_MODE), false, false);
    assert Put([], SECOND, FAST) == [Session(SECOND, FAST)] && t1.timeBased[1..] == [];
  }

  lemma RestartedPower(t: Tracker)
    requires t.timeBased != [] && !t.nHzNeeded
    ensures var n := Step(t, SuspendAndRestart(true));
      && n.timeBased == t.timeBased && n.engine.Running?
      && n.engine.options.powerMode == HighestPower(t.timeBased, |t.timeBased|).powerMode
  {
    hide Mux, HighestPower;
  }

  /** Suspended and restarted before the next session starts, the engine refusing the first
      start for nHz clients does no harm: nobody waits at any time. */
  lemma RefusedNHzStartIsMended(n: nat)
    requires n <= 4
    ensures var run := [SetNHz(true, true), Start(FIRST, FAST, true, false), SuspendAndRestart(true), Start(SECOND, FAST, true, true)];
      !SomebodyWaits(At(Config(true, 0), run, n))
  {
    hide Step, SomebodyWaits, Kept;
    var run := [SetNHz(true, true), Start(FIRST, FAST, true, false), SuspendAndRestart(true), Start(SECOND, FAST, true, true)];
    var config := Config(true, 0);
    assert At(config, run, 0) == Initial(config);
    FirstRefused(config);
    assert At(config, run, 1) == Tracker(config, [], [], Stopped, true, false);
    assert At(config, run, 2) == Tracker(config, [], [], Stopped, true, true);
    assert At(config, run, 3) == Tracker(config, [], [], Stopped, true, false);
    forall i: nat | i < n
      ensures !HarmsAt(config, run, i)
    {
      assert i == 0 || i == 1 || i == 2 || i == 3;
    }
    EveryRunServesIf(config, run, n);
  }

  /** Of three power modes, the highest in front of an invalid one: the loop forgets it. */
  lemma ModeIsForgotten()
    ensures var m := [Session(FIRST, FAST), Session(SECOND, NO_MODE), Session(THIRD, LOW)];
      Mux(m, 3, None).powerMode == 2 > FAST.powerMode
  {
    var m := [Session(FIRST, FAST), Session(SECOND, NO_MODE), Session(THIRD, LOW)];
    MuxPowerIsLeast(m, 3, 2, None);
  }
}
