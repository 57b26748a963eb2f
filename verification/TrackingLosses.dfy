/** Which updates lose the session they are for. */
module TrackingLosses {
  import opened Wrappers
  import opened TrackingModel
  import opened TrackingSessions
  import opened TrackingSteps
  import opened TrackingRuns
  import opened TrackingPace

  // ------------------------------------------------------------------ updates that lose the session

  predicate There(t: Tracker, k: SessionKey) {
    Has(t.timeBased, k) || Has(t.distanceBased, k)
  }

  /** The session changes its kind, and the engine is asked, and refuses: to start again for
      the others that stay, or to start for the session that comes. */
  predicate Loses(t: Tracker, k: SessionKey, o: Options, ok: bool) {
    var p := AdmittedOptions(t, o);
    && o.size != 0 && !ok && !(t.nHzNeeded && t.atHighestInterval)
    && if Has(t.timeBased, k) then p.minDistance > 0 && |t.timeBased| >= 2 && StopRelaunches(t, k)
       else p.minDistance == 0 && StartLaunches(t, p)
  }

  predicate StartLaunches(t: Tracker, o: Options) {
    var mux := Mux(t.timeBased, |t.timeBased|, None);
    t.timeBased == [] || o.minInterval < mux.options.minInterval || o.powerMode < mux.powerMode
  }

  /** Of every update of a session that is there: it is there afterwards exactly if it does
      not lose it. */
  lemma UpdateLosesIff(t: Tracker, k: SessionKey, o: Options, ok: bool)
    requires Kept(t) && Disjoint(t) && There(t, k)
    ensures There(Step(t, Update(k, o, ok)), k) <==> !Loses(t, k, o, ok)
  {
    hide Kept, Disjoint, SaveSession, EraseSession, StopTimeBased, StartMux, UpdateTimeBased, StopRelaunches, StartLaunches;
    var p := AdmittedOptions(t, o);
    if o.size != 0 {
      if Has(t.timeBased, k) && p.minDistance > 0 {
        var l := StopTimeBased(t, k, ok);
        StopRefusesIff(t, k, ok);
        StoppedIsGone(t, k, ok);
        StopTimeBasedKeeps(t, k, ok);
        SavedIsThere(l.next, k, p);
        ErasedIsGone(l.next, k, p);
      } else if Has(t.timeBased, k) {
        DistanceApart(t, k);
        UpdatedIsThere(t, k, p, ok);
      } else if p.minDistance == 0 {
        StartedIffNotRefused(t, k, p, ok);
      } else {
        SavedIsThere(t, k, p);
      }
    }
  }

  lemma StopRefusesIff(t: Tracker, k: SessionKey, ok: bool)
    requires Has(t.timeBased, k)
    ensures StopTimeBased(t, k, ok).refused <==>
      !ok && |t.timeBased| >= 2 && !(t.nHzNeeded && t.atHighestInterval) && StopRelaunches(t, k)
  {
    hide Mux;
  }

  lemma StoppedIsGone(t: Tracker, k: SessionKey, ok: bool)
    requires Kept(t) && Disjoint(t) && Has(t.timeBased, k)
    ensures !There(StopTimeBased(t, k, ok).next, k)
  {
    hide StopMux, Erase;
    MuxAsks(t, k, UNSET, ok);
    DistanceApart(t, k);
    ErasedPart(t.timeBased, k);
    NotHas(Erase(t.timeBased, k), k);
  }

  lemma SavedIsThere(t: Tracker, k: SessionKey, o: Options)
    requires Kept(t)
    ensures There(SaveSession(t, k, o), k)
  {
    PutFacts(t.timeBased, k, o);
    PutFacts(t.distanceBased, k, o);
    KeyOfMember(Put(t.timeBased, k, o), Session(k, o));
    KeyOfMember(Put(t.distanceBased, k, o), Session(k, o));
  }

  /** Saved, and erased again. */
  lemma ErasedIsGone(t: Tracker, k: SessionKey, o: Options)
    requires Kept(t) && !There(t, k)
    ensures !There(EraseSession(SaveSession(t, k, o), k), k)
  {
    hide Put, Erase;
    SavedIsThere(t, k, o);
    ErasePut(t.timeBased, k, o);
    ErasePut(t.distanceBased, k, o);
    PutFacts(t.timeBased, k, o);
    KeyOfMember(Put(t.timeBased, k, o), Session(k, o));
  }

  lemma UpdatedIsThere(t: Tracker, k: SessionKey, o: Options, ok: bool)
    requires Kept(t) && Has(t.timeBased, k)
    ensures There(UpdateTimeBased(t, k, o, ok), k)
  {
    hide UpdateMux, SaveSession;
    MuxAsks(t, k, o, ok);
    var l := UpdateMux(t, k, o, ok);
    var was := Find(t.timeBased, k).value;
    SavedIsThere(l.next, k, o);
    SavedAgainIsThere(l.next, k, o, was);
  }

  lemma SavedAgainIsThere(t: Tracker, k: SessionKey, o: Options, was: Options)
    requires Kept(t)
    ensures There(SaveSession(SaveSession(t, k, o), k, was), k)
  {
    PutFacts(t.timeBased, k, o);
    PutFacts(t.distanceBased, k, o);
    var s := SaveSession(t, k, o);
    PutFacts(s.timeBased, k, was);
    PutFacts(s.distanceBased, k, was);
    KeyOfMember(Put(s.timeBased, k, was), Session(k, was));
    KeyOfMember(Put(s.distanceBased, k, was), Session(k, was));
  }

  lemma StartedIffNotRefused(t: Tracker, k: SessionKey, o: Options, ok: bool)
    requires Kept(t) && Disjoint(t) && Has(t.distanceBased, k) && !Has(t.timeBased, k)
    ensures There(StartTimeBased(EraseSession(t, k), k, o, ok), k) <==>
      !(!ok && !(t.nHzNeeded && t.atHighestInterval) && StartLaunches(t, o))
  {
    hide StartMux, SaveSession, StartLaunches, Erase;
    var u := EraseSession(t, k);
    EraseKeeps(t, k);
    EraseFacts(t.distanceBased, k);
    NotHas(u.distanceBased, k);
    MuxAsks(u, k, o, ok);
    StartRefusesIff(u, o, ok);
    StartLaunchesAlike(t, u, o);
    var l := StartMux(u, o, ok);
    SavedIsThere(l.next, k, o);
    ErasedIsGone(l.next, k, o);
  }

  lemma StartLaunchesAlike(t: Tracker, u: Tracker, o: Options)
    requires t.timeBased == u.timeBased
    ensures StartLaunches(t, o) == StartLaunches(u, o)
  {
  }

  lemma StartRefusesIff(t: Tracker, o: Options, ok: bool)
    ensures StartMux(t, o, ok).refused <==> !ok && !(t.nHzNeeded && t.atHighestInterval) && StartLaunches(t, o)
  {
    hide Mux;
  }
}
