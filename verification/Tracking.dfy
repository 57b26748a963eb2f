/** The part of GnssAdapter that keeps the tracking sessions, proved against TrackingModel. */
module Tracking {
  import opened Wrappers
  import opened TrackingModel

  class GnssAdapter {
    const config: Config
    var timeBased: seq<Session>
    var distanceBased: seq<Session>
    var nHzNeeded: bool
    var atHighestInterval: bool
    /** What the engine was last told, which it does. */
    ghost var engine: Engine

    ghost function Abs(): Tracker
      reads `timeBased, `distanceBased, `nHzNeeded, `atHighestInterval, `engine
    {
      Tracker(config, timeBased, distanceBased, engine, nHzNeeded, atHighestInterval)
    }

    constructor (config: Config)
      ensures Abs() == Initial(config)
    {
      this.config := config;
      timeBased, distanceBased := [], [];
      nHzNeeded, atHighestInterval := false, false;
      engine := Stopped;
    }

    // -------------------------------------------------------------- the engine

    /** Whether the engine already runs at the nHz interval; otherwise the options to run
        it with. */
    method CheckAndSetSPEToRunForNHz(o: Options) returns (already: bool, out: Options)
      modifies `atHighestInterval
      ensures already <==> nHzNeeded && old(atHighestInterval)
      ensures Launch(old(Abs()), o, true) == Launched(if already then old(Abs()) else Abs().(engine := Running(out)), false)
      ensures engine == old(engine)
      ensures already ==> Abs() == old(Abs())
    {
      already, out := false, o;
      if !nHzNeeded {
      } else if atHighestInterval {
        already := true;
      } else if out.minInterval > MIN_TRACKING_INTERVAL {
        out := out.(minInterval := MIN_TRACKING_INTERVAL);
        atHighestInterval := true;
      }
    }

    method StartTimeBasedTracking(o: Options, ok: bool) returns (refused: bool)
      modifies `atHighestInterval, `engine
      ensures Launched(Abs(), refused) == Launch(old(Abs()), o, ok)
    {
      var already, out := CheckAndSetSPEToRunForNHz(o);
      refused := !already && !ok;
      if !already && ok {
        engine := Running(out);
      }
    }

    method StopTracking(ok: bool)
      modifies `atHighestInterval, `engine
      ensures Abs() == Halt(old(Abs()), ok)
    {
      if ok {
        engine := Stopped;
      }
      atHighestInterval := false;
    }

    // -------------------------------------------------------------- multiplexing

    method StartTimeBasedTrackingMultiplex(o: Options, ok: bool) returns (refused: bool)
      modifies `atHighestInterval, `engine
      ensures Launched(Abs(), refused) == StartMux(old(Abs()), o, ok)
    {
      refused := false;
      if timeBased == [] {
        refused := StartTimeBasedTracking(o, ok);
      } else {
        var options, powerMode := UNSET, 0;
        for i := 0 to |timeBased|
          invariant Muxed(options, powerMode) == Mux(timeBased, i, None)
        {
          var s := timeBased[i].options;
          if options.size == 0 || s.minInterval < options.minInterval {
            options := s;
          }
          if powerMode == 0 || s.powerMode < powerMode {
            powerMode := s.powerMode;
          }
        }
        var updateOptions := false;
        if o.minInterval < options.minInterval {
          options := options.(minInterval := o.minInterval);
          updateOptions := true;
        }
        if o.powerMode < powerMode {
          options := options.(powerMode := o.powerMode);
          updateOptions := true;
        }
        if updateOptions {
          refused := StartTimeBasedTracking(options, ok);
        }
      }
    }

    /** The multiplexed options and power mode of the sessions other than k. */
    method MultiplexOthers(k: SessionKey) returns (options: Options, powerMode: nat)
      ensures Muxed(options, powerMode) == Mux(timeBased, |timeBased|, Some(k))
    {
      options, powerMode := UNSET, 0;
      for i := 0 to |timeBased|
        invariant Muxed(options, powerMode) == Mux(timeBased, i, Some(k))
      {
        var s := timeBased[i];
        if s.key != k && (options.size == 0 || s.options.minInterval < options.minInterval) {
          options := s.options;
        }
        if s.key != k && (powerMode == 0 || s.options.powerMode < powerMode) {
          powerMode := s.options.powerMode;
        }
      }
    }

    method UpdateTrackingMultiplex(k: SessionKey, o: Options, ok: bool) returns (refused: bool)
      requires Has(timeBased, k)
      modifies `atHighestInterval, `engine
      ensures Launched(Abs(), refused) == UpdateMux(old(Abs()), k, o, ok)
    {
      refused := false;
      var was := Find(timeBased, k).value;
      if was.minInterval != o.minInterval || was.powerMode != o.powerMode {
        var options, powerMode := MultiplexOthers(k);
        var updateOptions := false;
        if o.minInterval < options.minInterval {
          options := options.(minInterval := o.minInterval);
          updateOptions := true;
        }
        if o.powerMode < powerMode {
          options := options.(powerMode := o.powerMode);
          updateOptions := true;
        }
        if |timeBased| == 1 {
          options := o;
          updateOptions := true;
        }
        if updateOptions {
          refused := StartTimeBasedTracking(options, ok);
        }
      }
    }

    method StopTimeBasedTrackingMultiplex(k: SessionKey, ok: bool) returns (refused: bool)
      modifies `atHighestInterval, `engine
      ensures Launched(Abs(), refused) == StopMux(old(Abs()), k, ok)
    {
      refused := false;
      if |timeBased| == 1 {
        StopTracking(ok);
      } else {
        var found := Find(timeBased, k);
        if found.Some? {
          var options, powerMode := MultiplexOthers(k);
          if found.value.minInterval < options.minInterval || found.value.powerMode < powerMode {
            refused := StartTimeBasedTracking(options.(powerMode := powerMode), ok);
          }
        }
      }
    }

    method CheckAndRestartTimeBasedSession(ok: bool)
      modifies `atHighestInterval, `engine
      ensures Abs() == RestartTimeBased(old(Abs()), ok)
    {
      if timeBased != [] {
        var smallest, highest := UNSET, UNSET;
        for i := 0 to |timeBased|
          invariant smallest == Mux(timeBased, i, None).options
          invariant highest == HighestPower(timeBased, i)
        {
          var s := timeBased[i].options;
          if smallest.size == 0 || s.minInterval < smallest.minInterval {
            smallest := s;
          }
          if highest.size == 0 || (s.powerMode != 0 && s.powerMode < highest.powerMode) {
            highest := s;
          }
        }
        highest := highest.(minInterval := smallest.minInterval, minDistance := smallest.minDistance);
        var _ := StartTimeBasedTracking(highest, ok);
      }
    }

    method CheckAndRestartSPESession(ok: bool)
      modifies `atHighestInterval, `engine
      ensures Abs() == Restart(old(Abs()), ok)
    {
      atHighestInterval := false;
      CheckAndRestartTimeBasedSession(ok);
    }

    method SuspendSessions()
      modifies `atHighestInterval, `engine
      ensures Abs() == if timeBased == [] then old(Abs()) else Halt(old(Abs()), true)
    {
      if timeBased != [] {
        engine := Stopped;
        atHighestInterval := false;
      }
    }

    // -------------------------------------------------------------- sessions

    method SaveTrackingSession(k: SessionKey, o: Options)
      modifies `timeBased, `distanceBased
      ensures Abs() == SaveSession(old(Abs()), k, o)
    {
      if o.minDistance > 0 && config.distanceSupported {
        distanceBased := Put(distanceBased, k, o);
      } else {
        timeBased := Put(timeBased, k, o);
      }
    }

    method EraseTrackingSession(k: SessionKey)
      modifies `timeBased, `distanceBased
      ensures Abs() == EraseSession(old(Abs()), k)
    {
      if Find(timeBased, k).Some? {
        timeBased := Erase(timeBased, k);
      } else {
        distanceBased := Erase(distanceBased, k);
      }
    }

    // -------------------------------------------------------------- commands

    /** The end of every start: the session is saved, and erased on a refusal. */
    method SaveUnlessRefused(k: SessionKey, o: Options, refused: bool)
      modifies `timeBased, `distanceBased
      ensures var s := SaveSession(old(Abs()), k, o); Abs() == if refused then EraseSession(s, k) else s
    {
      SaveTrackingSession(k, o);
      if refused {
        EraseTrackingSession(k);
      }
    }

    method StartTracking(k: SessionKey, o: Options, hasCallbacks: bool, ok: bool)
      modifies this
      ensures Abs() == Step(old(Abs()), Start(k, o, hasCallbacks, ok))
    {
      if hasCallbacks && o.size != 0 {
        var p := ClampInterval(o);
        if p.minDistance > 0 && config.distanceSupported {
          SaveUnlessRefused(k, p, !ok);
        } else {
          p := ClampPower(p, config.tbmThreshold);
          var refused := StartTimeBasedTrackingMultiplex(p, ok);
          SaveUnlessRefused(k, p, refused);
        }
      }
    }

    method UpdateTrackingOptions(k: SessionKey, o: Options, ok: bool)
      modifies this
      ensures Abs() == Step(old(Abs()), Update(k, o, ok))
    {
      var isTime, isDistance := Find(timeBased, k).Some?, Find(distanceBased, k).Some?;
      if (isTime || isDistance) && o.size != 0 {
        var p := ClampInterval(ClampPower(o, config.tbmThreshold));
        if isTime && p.minDistance > 0 {
          var refused := StopTimeBasedTrackingMultiplex(k, ok);
          EraseTrackingSession(k);
          SaveUnlessRefused(k, p, refused);
        } else if isDistance && p.minDistance == 0 {
          EraseTrackingSession(k);
          var refused := StartTimeBasedTrackingMultiplex(p, ok);
          SaveUnlessRefused(k, p, refused);
        } else if isTime {
          UpdateTimeBasedSession(k, p, ok);
        } else if ok {
          SaveTrackingSession(k, p);
        }
      }
    }

    method UpdateTimeBasedSession(k: SessionKey, o: Options, ok: bool)
      requires Has(timeBased, k)
      modifies this
      ensures Abs() == UpdateTimeBased(old(Abs()), k, o, ok)
    {
      var oldOptions := Find(timeBased, k).value;
      var refused := UpdateTrackingMultiplex(k, o, ok);
      SaveTrackingSession(k, o);
      if refused {
        SaveTrackingSession(k, oldOptions);
      }
    }

    method StopTrackingSession(k: SessionKey, ok: bool)
      modifies this
      ensures Abs() == Step(old(Abs()), Stop(k, ok))
    {
      var isTime, isDistance := Find(timeBased, k).Some?, Find(distanceBased, k).Some?;
      if isTime {
        var refused := StopTimeBasedTrackingMultiplex(k, ok);
        EraseTrackingSession(k);
        if refused {
          EraseTrackingSession(k);
        }
      } else if isDistance && ok {
        EraseTrackingSession(k);
      }
    }

    method SuspendAndRestartSessions(ok: bool)
      modifies this
      ensures Abs() == Step(old(Abs()), SuspendAndRestart(ok))
    {
      SuspendSessions();
      CheckAndRestartSPESession(ok);
    }

    method SetNHzNeeded(needed: bool, ok: bool)
      modifies this
      ensures Abs() == Step(old(Abs()), SetNHz(needed, ok))
    {
      if nHzNeeded != needed {
        nHzNeeded := needed;
        CheckAndRestartSPESession(ok);
      }
    }
  }
}
