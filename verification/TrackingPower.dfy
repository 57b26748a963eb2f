/** Without nHz clients the engine is to run at the highest power its sessions ask for, which
    is the smallest power mode: which commands keep that, and what the engine is asked. */
module TrackingPower {
  import opened Wrappers
  import opened TrackingModel
  import opened TrackingSessions
  import opened TrackingSteps
  import opened TrackingRuns
  import opened TrackingPace
  import opened TrackingLosses
  import opened TrackingPlaces

  /** Every session names a power mode. */
  ghost predicate Named(m: seq<Session>) {
    forall s :: s in m ==> s.options.powerMode > 0
  }

  /** The smallest power mode asked for, exactly. */
  ghost predicate IsBest(p: nat, m: seq<Session>) {
    (forall s :: s in m ==> p <= s.options.powerMode) && exists s :: s in m && s.options.powerMode == p
  }

  /** The engine runs while there are sessions, at the highest power they ask for. */
  ghost predicate Powered(t: Tracker) {
    (t.engine.Running? <==> t.timeBased != []) && (t.engine.Running? ==> IsBest(t.engine.options.powerMode, t.timeBased))
  }

  ghost predicate Strong(t: Tracker) {
    Kept(t) && Disjoint(t) && !t.nHzNeeded && Named(t.timeBased) && Powered(t)
  }

  // ------------------------------------------------------------------ the loops

  /** The session at this place is the first of the fastest of those looked at. */
  predicate SetsPaceOf(m: seq<Session>, n: nat, skip: Option<SessionKey>, i: nat)
    requires n <= |m|
  {
    && i < n && skip != Some(m[i].key)
    && forall j :: 0 <= j < n && skip != Some(m[j].key) ==>
         m[i].options.minInterval <= m[j].options.minInterval && (j < i ==> m[i].options.minInterval < m[j].options.minInterval)
  }

  /** The loop finds the options of the first of the fastest sessions it looks at. */
  lemma {:induction false} MuxIsFirst(m: seq<Session>, n: nat, skip: Option<SessionKey>, i: nat)
    requires n <= |m| && (forall s :: s in m ==> s.options.size > 0) && SetsPaceOf(m, n, skip, i)
    ensures Mux(m, n, skip).options == m[i].options
  {
    assert m[n - 1] in m && m[i] in m;
    if i < n - 1 {
      MuxIsFirst(m, n - 1, skip, i);
    } else {
      SlowerBefore(m, i, skip);
    }
  }

  lemma SlowerBefore(m: seq<Session>, i: nat, skip: Option<SessionKey>)
    requires i < |m| && (forall s :: s in m ==> s.options.size > 0) && SetsPaceOf(m, i + 1, skip, i)
    ensures var o := Mux(m, i, skip).options; o.size == 0 || m[i].options.minInterval < o.minInterval
  {
    MuxFacts(m, i, skip);
    if Mux(m, i, skip).options.size > 0 {
      var s :| Looked(m, i, skip, s) && s.options == Mux(m, i, skip).options;
      var j :| 0 <= j < i && m[j] == s;
    }
  }

  /** If there is one to look at, one of them is that. */
  lemma {:induction false} SomebodySetsPace(m: seq<Session>, n: nat, skip: Option<SessionKey>) returns (i: nat)
    requires n <= |m| && exists j :: 0 <= j < n && skip != Some(m[j].key)
    ensures SetsPaceOf(m, n, skip, i)
  {
    var k := n - 1;
    if exists j :: 0 <= j < k && skip != Some(m[j].key) {
      i := SomebodySetsPace(m, k, skip);
      if skip != Some(m[k].key) && m[k].options.minInterval < m[i].options.minInterval {
        i := k;
      }
    } else {
      i := k;
    }
  }

  lemma MuxIsBest(m: seq<Session>)
    requires Admitted(m) && Named(m) && m != []
    ensures IsBest(Mux(m, |m|, None).powerMode, m)
  {
    forall i | 0 <= i < |m|
      ensures !NamesNone(m, i, None)
    {
      assert m[i] in m;
    }
    MuxPowerIsLeast(m, |m|, 0, None);
    var p := Mux(m, |m|, None).powerMode;
    assert p > 0;
    var i :| 0 <= i < |m| && m[i].options.powerMode == p;
    assert m[i] in m;
  }

  lemma MuxIsBestOfOthers(m: seq<Session>, k: SessionKey)
    requires Admitted(m) && Named(m) && |m| >= 2
    ensures IsBest(Mux(m, |m|, Some(k)).powerMode, Erase(m, k))
  {
    EraseFacts(m, k);
    var p, others := Mux(m, |m|, Some(k)).powerMode, Erase(m, k);
    forall i | 0 <= i < |m|
      ensures !NamesNone(m, i, Some(k))
    {
      assert m[i] in m;
    }
    MuxPowerIsLeast(m, |m|, 0, Some(k));
    assert others[0] in others;
    var j :| 0 <= j < |m| && m[j] == others[0];
    assert p > 0;
    var i :| 0 <= i < |m| && Some(k) != Some(m[i].key) && m[i].options.powerMode == p;
    assert m[i] in others;
  }

  /** The best of a map with one session put in, from the best of the others. */
  lemma PutBest(m: seq<Session>, k: SessionKey, o: Options, others: nat)
    requires Sorted(m) && IsBest(others, Erase(m, k))
    ensures forall p: nat :: IsBest(p, Put(m, k, o)) <==> p == if o.powerMode < others then o.powerMode else others
  {
    PutFacts(m, k, o);
    EraseFacts(m, k);
    var s :| s in Erase(m, k) && s.options.powerMode == others;
    assert s in Put(m, k, o) && Session(k, o) in Put(m, k, o);
    forall p: nat
      ensures IsBest(p, Put(m, k, o)) <==> p == if o.powerMode < others then o.powerMode else others
    {
      if IsBest(p, Put(m, k, o)) {
        var u :| u in Put(m, k, o) && u.options.powerMode == p;
      }
    }
  }

  lemma PutAloneBest(k: SessionKey, o: Options)
    ensures forall p: nat :: IsBest(p, Put([], k, o)) <==> p == o.powerMode
  {
    assert Put([], k, o) == [Session(k, o)] && Session(k, o) in Put([], k, o);
  }

  /** The best of all, from one session and the best of the others. */
  lemma AllBest(m: seq<Session>, k: SessionKey, others: nat, all: nat)
    requires Sorted(m) && Has(m, k) && IsBest(others, Erase(m, k)) && IsBest(all, m)
    ensures all == if Find(m, k).value.powerMode < others then Find(m, k).value.powerMode else others
  {
    hide Put, Erase;
    var was := Find(m, k).value;
    PutBest(m, k, was, others);
    PutSame(m, k, was);
  }

  // ------------------------------------------------------------------ what the engine is asked

  /** The smallest power mode of the sessions other than k, as the loop finds it. */
  function BestOther(t: Tracker, k: SessionKey): nat {
    Mux(t.timeBased, |t.timeBased|, Some(k)).powerMode
  }

  /** The power mode of the session that sets the pace of those other than k. */
  function PaceOther(t: Tracker, k: SessionKey): nat {
    Mux(t.timeBased, |t.timeBased|, Some(k)).options.powerMode
  }

  /** What an engine that obeys, and is asked, is asked when one session comes to others, the
      first of the fastest of which, and the best power mode of which, are these. */
  function AskedWith(o: Options, pace: Options, best: nat): Options {
    Options(pace.size, if o.minInterval < pace.minInterval then o.minInterval else pace.minInterval, pace.minDistance,
            if o.powerMode < best then o.powerMode else pace.powerMode, pace.tbm)
  }

  /** Starting for one more session: what becomes of the engine. */
  lemma {:induction false} StartAsks(t: Tracker, o: Options, ok: bool, i: nat)
    requires Kept(t) && !t.nHzNeeded && SetsPaceOf(t.timeBased, |t.timeBased|, None, i)
    ensures StartMux(t, o, ok).next.engine ==
      if ok && StartLaunches(t, o) then Running(AskedWith(o, t.timeBased[i].options, Mux(t.timeBased, |t.timeBased|, None).powerMode))
      else t.engine
  {
    hide Mux;
    MuxIsFirst(t.timeBased, |t.timeBased|, None, i);
  }

  /** A session that changes what it asks for, among others. */
  lemma {:induction false} UpdateAsks(t: Tracker, k: SessionKey, was: Options, o: Options, ok: bool, i: nat)
    requires Kept(t) && !t.nHzNeeded && Find(t.timeBased, k) == Some(was) && |t.timeBased| >= 2
    requires SetsPaceOf(t.timeBased, |t.timeBased|, Some(k), i)
    ensures UpdateMux(t, k, o, ok).next.engine ==
      if ok && UpdateLaunches(t, k, was, o) then Running(AskedWith(o, t.timeBased[i].options, BestOther(t, k)))
      else t.engine
  {
    hide Mux, Find;
    MuxIsFirst(t.timeBased, |t.timeBased|, Some(k), i);
  }

  /** A session taken off from among others. */
  lemma {:induction false} StopAsks(t: Tracker, k: SessionKey, ok: bool, i: nat)
    requires Kept(t) && !t.nHzNeeded && Has(t.timeBased, k) && |t.timeBased| >= 2
    requires SetsPaceOf(t.timeBased, |t.timeBased|, Some(k), i)
    ensures StopMux(t, k, ok).next.engine ==
      if ok && StopRelaunches(t, k) then Running(t.timeBased[i].options.(powerMode := BestOther(t, k)))
      else t.engine
  {
    hide Mux, Find;
    MuxIsFirst(t.timeBased, |t.timeBased|, Some(k), i);
  }

  // ------------------------------------------------------------------ one session more

  /** The session that comes is faster than all others but asks for no more power, and the
      one that set the pace does not ask for the highest power: the engine is given its
      power mode, and not the best. */
  predicate StartWeakens(t: Tracker, o: Options, ok: bool) {
    var mux := Mux(t.timeBased, |t.timeBased|, None);
    && ok && t.timeBased != []
    && o.minInterval < mux.options.minInterval && o.powerMode >= mux.powerMode && mux.options.powerMode != mux.powerMode
  }

  lemma StartIsStrongIff(t: Tracker, k: SessionKey, o: Options, ok: bool)
    requires Kept(t) && !t.nHzNeeded && Named(t.timeBased) && Powered(t)
    requires !Has(t.timeBased, k) && Valid(o) && TimeKind(t.config, o) && o.powerMode > 0
    ensures var n := StartTimeBased(t, k, o, ok); Powered(n) <==> !StartWeakens(t, o, ok)
    ensures var n := StartTimeBased(t, k, o, ok); !n.nHzNeeded && Named(n.timeBased)
  {
    hide Mux, Put, Erase, IsBest, Launch;
    var m := t.timeBased;
    MuxAsks(t, k, o, ok);
    StartRefusesIff(t, o, ok);
    KeptIsSorted(t);
    PutFacts(m, k, o);
    ErasePut(m, k, o);
    KeyOfMember(Put(m, k, o), Session(k, o));
    if m == [] {
      LaunchLeaves(t, o, ok);
      PutAloneBest(k, o);
    } else {
      var mux := Mux(m, |m|, None);
      LaunchLeaves(t, Overlay(mux, o), ok);
      MuxIsBest(m);
      NoneHasKey(m, k);
      EraseNothing(m, k);
      PutBest(m, k, o, mux.powerMode);
      OneBest(m, mux.powerMode, t.engine.options.powerMode);
    }
  }

  lemma KeptIsSorted(t: Tracker)
    requires Kept(t)
    ensures Sorted(t.timeBased) && Admitted(t.timeBased)
  {
  }

  lemma OneBest(m: seq<Session>, p: nat, q: nat)
    requires IsBest(p, m) && IsBest(q, m)
    ensures p == q
  {
  }

  // ------------------------------------------------------------------ one session less

  /** The engine refuses to stop for its only session, or to save power for the others. */
  predicate StopWeakens(t: Tracker, k: SessionKey, ok: bool)
    requires Has(t.timeBased, k)
  {
    !ok && (|t.timeBased| == 1 || Find(t.timeBased, k).value.powerMode < BestOther(t, k))
  }

  /** What is left of the engine and the others. */
  lemma StopLeaves(t: Tracker, k: SessionKey, ok: bool)
    requires Kept(t) && !t.nHzNeeded && Named(t.timeBased) && Powered(t) && Has(t.timeBased, k)
    ensures var l := StopTimeBased(t, k, ok);
      && SameRest(t, l.next.(timeBased := t.timeBased)) && l.next.timeBased == Erase(t.timeBased, k)
      && t.engine.Running?
      && (|t.timeBased| == 1 ==>
            l.next.timeBased == [] && !l.refused && l.next.engine == (if ok then Stopped else t.engine)
            && t.engine.options.powerMode == Find(t.timeBased, k).value.powerMode)
      && (|t.timeBased| >= 2 ==>
            && l.next.timeBased != [] && l.next.engine.Running? && IsBest(BestOther(t, k), l.next.timeBased)
            && (l.refused <==> !ok && StopRelaunches(t, k))
            && (l.next.engine.options.powerMode == BestOther(t, k) <==> ok || Find(t.timeBased, k).value.powerMode >= BestOther(t, k)))
  {
    hide Mux, Erase, Launch;
    var m := t.timeBased;
    MuxAsks(t, k, UNSET, ok);
    KeptIsSorted(t);
    if |m| == 1 {
      EraseLast(m, k);
      assert m == [Session(k, Find(m, k).value)] && m[0] in m;
    } else {
      var mux := Mux(m, |m|, Some(k));
      LaunchLeaves(t, mux.options.(powerMode := mux.powerMode), ok);
      MuxIsBestOfOthers(m, k);
      ErasedPart(m, k);
      AllBest(m, k, mux.powerMode, t.engine.options.powerMode);
    }
  }

  lemma StopIsStrongIff(t: Tracker, k: SessionKey, ok: bool)
    requires Kept(t) && !t.nHzNeeded && Named(t.timeBased) && Powered(t) && Has(t.timeBased, k)
    ensures var n := StopTimeBased(t, k, ok).next; Powered(n) <==> !StopWeakens(t, k, ok)
  {
    hide Mux, Erase, IsBest, StopTimeBased, BestOther;
    StopLeaves(t, k, ok);
    if |t.timeBased| >= 2 && Powered(StopTimeBased(t, k, ok).next) {
      OneBest(Erase(t.timeBased, k), BestOther(t, k), StopTimeBased(t, k, ok).next.engine.options.powerMode);
    }
  }

  // ------------------------------------------------------------------ one session changed

  /** Among others, it asks for no more power than they do; and the engine goes on as it was
      although it was the only one to ask for that much, or is given the power mode of the
      pace of the others, which is not their best. */
  predicate UpdateWeakens(t: Tracker, k: SessionKey, o: Options, ok: bool)
    requires Has(t.timeBased, k)
  {
    var was := Find(t.timeBased, k).value;
    && |t.timeBased| >= 2 && (was.minInterval != o.minInterval || was.powerMode != o.powerMode)
    && o.powerMode >= BestOther(t, k)
    && if o.minInterval < FastestOther(t, k) then ok && PaceOther(t, k) != BestOther(t, k) else was.powerMode < BestOther(t, k)
  }

  lemma UpdateIsStrongIff(t: Tracker, k: SessionKey, o: Options, ok: bool)
    requires Kept(t) && !t.nHzNeeded && Named(t.timeBased) && Powered(t)
    requires Has(t.timeBased, k) && Valid(o) && TimeKind(t.config, o) && o.powerMode > 0
    ensures var n := UpdateTimeBased(t, k, o, ok); Powered(n) <==> !UpdateWeakens(t, k, o, ok)
  {
    hide Mux, Put, Erase, IsBest, Launch;
    var m, was := t.timeBased, Find(t.timeBased, k).value;
    MuxAsks(t, k, o, ok);
    UpdateRefusesIff(t, k, o, ok, was);
    KeptIsSorted(t);
    WasTimeKind(t, k, was);
    PutBack(m, k, o, was);
    PutFacts(m, k, o);
    if |m| == 1 {
      LaunchLeaves(t, o, ok);
      AloneIs(m, k, o);
      AloneIs(m, k, was);
      PutAloneBest(k, o);
      PutAloneBest(k, was);
      PutSame(m, k, was);
    } else {
      var mux := Mux(m, |m|, Some(k));
      LaunchLeaves(t, Overlay(mux, o), ok);
      MuxIsBestOfOthers(m, k);
      PutBest(m, k, o, mux.powerMode);
      AllBest(m, k, mux.powerMode, t.engine.options.powerMode);
    }
  }

  lemma AloneIs(m: seq<Session>, k: SessionKey, o: Options)
    requires |m| == 1 && Has(m, k)
    ensures Put(m, k, o) == Put([], k, o)
  {
    assert m[1..] == [];
  }

  // ------------------------------------------------------------------ switching to distance

  /** A time-based session asks for a distance that is not supported. Alone, it keeps the
      engine only if that refuses to stop, and is asked the same power mode. With others, the
      engine is left at their best, which must be good enough for it; unless starting again
      is refused, which erases it. */
  predicate SwitchWeakens(t: Tracker, k: SessionKey, o: Options, ok: bool)
    requires Has(t.timeBased, k)
  {
    if |t.timeBased| == 1 then ok || Find(t.timeBased, k).value.powerMode != o.powerMode
    else if StopRelaunches(t, k) && !ok then StopWeakens(t, k, ok)
    else o.powerMode < BestOther(t, k)
  }

  lemma SwitchIsStrongIff(t: Tracker, k: SessionKey, o: Options, ok: bool)
    requires Kept(t) && !t.nHzNeeded && Named(t.timeBased) && Powered(t) && Has(t.timeBased, k) && o.minDistance > 0
    ensures var n := SwitchToDistance(t, k, o, ok);
      Powered(n) <==> if t.config.distanceSupported then !StopWeakens(t, k, ok) else !SwitchWeakens(t, k, o, ok)
  {
    hide StopTimeBased, StopRelaunches, BestOther, Put, Erase, IsBest, StopWeakens, Admitted;
    var l, others := StopTimeBased(t, k, ok), Erase(t.timeBased, k);
    StopLeaves(t, k, ok);
    StopIsStrongIff(t, k, ok);
    KeptIsSorted(t);
    ErasedPart(t.timeBased, k);
    NotHas(others, k);
    if !t.config.distanceSupported {
      PutBackBest(t, k, o);
      StopWeakensIff(t, k, ok);
      if others == [] {
        PutAloneBest(k, o);
      } else if !l.refused {
        LeftAtBest(t, k, ok);
      }
    }
  }

  /** Put back among the others, and erased again. */
  lemma PutBackBest(t: Tracker, k: SessionKey, o: Options)
    requires Kept(t)
    ensures var others := Erase(t.timeBased, k);
      && Has(Put(others, k, o), k) && Put(others, k, o) != [] && Erase(Put(others, k, o), k) == others
      && (IsBest(BestOther(t, k), others) ==> (IsBest(BestOther(t, k), Put(others, k, o)) <==> BestOther(t, k) <= o.powerMode))
  {
    hide BestOther, IsBest;
    var others := Erase(t.timeBased, k);
    EraseFacts(t.timeBased, k);
    NotHas(others, k);
    PutFacts(others, k, o);
    KeyOfMember(Put(others, k, o), Session(k, o));
    ErasePut(others, k, o);
    EraseNothing(others, k);
    if IsBest(BestOther(t, k), others) {
      PutBest(others, k, o, BestOther(t, k));
    }
  }

  lemma StopWeakensIff(t: Tracker, k: SessionKey, ok: bool)
    requires Has(t.timeBased, k)
    ensures StopWeakens(t, k, ok) <==> !ok && (|t.timeBased| == 1 || Find(t.timeBased, k).value.powerMode < BestOther(t, k))
  {
  }

  /** Not refused, a stop among others leaves the engine at their best. */
  lemma LeftAtBest(t: Tracker, k: SessionKey, ok: bool)
    requires Kept(t) && !t.nHzNeeded && Named(t.timeBased) && Powered(t) && Has(t.timeBased, k) && |t.timeBased| >= 2
    requires !StopTimeBased(t, k, ok).refused
    ensures StopTimeBased(t, k, ok).next.engine.Running?
    ensures StopTimeBased(t, k, ok).next.engine.options.powerMode == BestOther(t, k)
  {
    hide StopTimeBased, IsBest, Erase, Mux;
    StopLeaves(t, k, ok);
  }

  // ------------------------------------------------------------------ every command

  /** What the command asks for names a power mode. */
  predicate NamesMode(c: Command) {
    c.Start? || c.Update? ==> c.options.powerMode > 0
  }

  /** The commands after which the engine runs for nobody, or not at exactly the highest power,
      told from the sessions there are. */
  predicate Weakens(t: Tracker, c: Command) {
    match c
    case Start(_, o, hasCallbacks, ok) =>
      hasCallbacks && o.size != 0 && TimeKind(t.config, o) && StartWeakens(t, StartOptions(t, o), ok)
    case Update(k, o, ok) =>
      var p := AdmittedOptions(t, o);
      && o.size != 0
      && if !Has(t.timeBased, k) then Has(t.distanceBased, k) && o.minDistance == 0 && StartWeakens(t, p, ok)
         else if o.minDistance == 0 then UpdateWeakens(t, k, p, ok)
         else if t.config.distanceSupported then StopWeakens(t, k, ok)
         else SwitchWeakens(t, k, p, ok)
    case Stop(k, ok) => Has(t.timeBased, k) && StopWeakens(t, k, ok)
    case SuspendAndRestart(ok) => !ok && t.timeBased != []
    case SetNHz(_, _) => false
  }

  /** Of every command but a change to nHz: the engine goes on at exactly the highest power
      asked for, and only while there are sessions, exactly if the command does not weaken
      it. */
  lemma StepIsStrongIff(t: Tracker, c: Command)
    requires Strong(t) && FreshKey(t, c) && NamesMode(c) && !(c.SetNHz? && c.needed)
    ensures Strong(Step(t, c)) <==> !Weakens(t, c)
  {
    hide Step, Weakens, Kept, Disjoint, Named, Powered;
    StepKeeps(t, c);
    StepKeepsApart(t, c);
    StepKeepsNHz(t, c);
    StepKeepsNamed(t, c);
    PoweredIff(t, c);
  }

  lemma PoweredIff(t: Tracker, c: Command)
    requires Strong(t) && FreshKey(t, c) && NamesMode(c) && !(c.SetNHz? && c.needed)
    ensures Powered(Step(t, c)) <==> !Weakens(t, c)
  {
    hide Kept, Disjoint, Named, Powered, OnStart, OnUpdate, OnStop, Restart, StartWeakens, UpdateWeakens, StopWeakens, SwitchWeakens;
    match c
    case Start(k, o, hasCallbacks, ok) =>
      if hasCallbacks && o.size != 0 {
        StartPoweredIff(t, k, o, ok);
      }
    case Update(k, o, ok) => UpdatePoweredIff(t, k, o, ok);
    case Stop(k, ok) => StopPoweredIff(t, k, ok);
    case SuspendAndRestart(ok) => SuspendPoweredIff(t, ok);
    case SetNHz(_, _) =>
  }

  lemma StartPoweredIff(t: Tracker, k: SessionKey, o: Options, ok: bool)
    requires Strong(t) && !Has(t.timeBased, k) && !Has(t.distanceBased, k) && o.size != 0 && o.powerMode > 0
    ensures Powered(OnStart(t, k, ClampInterval(o), ok)) <==> !(TimeKind(t.config, o) && StartWeakens(t, StartOptions(t, o), ok))
  {
    hide StartTimeBased, StartWeakens, IsBest, Put, Erase;
    if TimeKind(t.config, o) {
      StartIsStrongIff(t, k, StartOptions(t, o), ok);
    }
  }

  lemma StopPoweredIff(t: Tracker, k: SessionKey, ok: bool)
    requires Strong(t)
    ensures Powered(OnStop(t, k, ok)) <==> !(Has(t.timeBased, k) && StopWeakens(t, k, ok))
  {
    hide StopTimeBased, StopWeakens, IsBest, Erase;
    if Has(t.timeBased, k) {
      StopIsStrongIff(t, k, ok);
      StopLeaves(t, k, ok);
      StoppedNotThere(t, k);
    }
  }

  lemma StoppedNotThere(t: Tracker, k: SessionKey)
    requires Kept(t)
    ensures !Has(Erase(t.timeBased, k), k)
  {
    EraseFacts(t.timeBased, k);
    NotHas(Erase(t.timeBased, k), k);
  }

  lemma UpdatePoweredIff(t: Tracker, k: SessionKey, o: Options, ok: bool)
    requires Strong(t) && o.powerMode > 0
    ensures Powered(Step(t, Update(k, o, ok))) <==> !Weakens(t, Update(k, o, ok))
  {
    hide Kept, Disjoint, StartTimeBased, SwitchToDistance, UpdateTimeBased, IsBest, StartWeakens, UpdateWeakens, StopWeakens, SwitchWeakens;
    var p := AdmittedOptions(t, o);
    var isTime, isDistance := Has(t.timeBased, k), Has(t.distanceBased, k);
    if o.size != 0 && (isTime || isDistance) {
      if isTime && o.minDistance > 0 {
        SwitchIsStrongIff(t, k, p, ok);
      } else if isTime {
        DistanceApart(t, k);
        UpdateIsStrongIff(t, k, p, ok);
      } else if o.minDistance == 0 {
        EraseKeeps(t, k);
        ErasedFromDistance(t, k);
        ErasedWeakens(t, k, p, ok);
        StartIsStrongIff(EraseSession(t, k), k, p, ok);
      } else {
        KeptDistance(t, k);
      }
    }
  }

  lemma KeptDistance(t: Tracker, k: SessionKey)
    requires Kept(t) && Has(t.distanceBased, k)
    ensures t.config.distanceSupported
  {
  }

  lemma ErasedWeakens(t: Tracker, k: SessionKey, o: Options, ok: bool)
    requires !Has(t.timeBased, k)
    ensures StartWeakens(EraseSession(t, k), o, ok) <==> StartWeakens(t, o, ok)
  {
    hide Mux, Erase;
  }

  lemma SuspendPoweredIff(t: Tracker, ok: bool)
    requires Strong(t)
    ensures Powered(Step(t, SuspendAndRestart(ok))) <==> ok || t.timeBased == []
  {
    hide Mux, HighestPower, Launch, IsBest;
    var m := t.timeBased;
    if m != [] {
      var smallest, highest := Mux(m, |m|, None).options, HighestPower(m, |m|);
      var u := Halt(t, true).(atHighestInterval := false);
      LaunchLeaves(u, highest.(minInterval := smallest.minInterval, minDistance := smallest.minDistance), ok);
      assert m[0] in m;
      KeptIsSorted(t);
      RestartPicksHighestPowerIff(m);
      HighestIsBest(m, highest.powerMode);
    }
  }

  lemma HighestIsBest(m: seq<Session>, p: nat)
    requires Named(m) && IsHighestPower(m, p)
    ensures IsBest(p, m)
  {
    var i :| 0 <= i < |m| && m[i].options.powerMode == p > 0;
    assert m[i] in m;
  }

  /** The session at this place is the first of those with the highest power. */
  predicate SetsPowerOf(m: seq<Session>, n: nat, i: nat)
    requires n <= |m|
  {
    && i < n
    && forall j :: 0 <= j < n ==>
         m[i].options.powerMode <= m[j].options.powerMode && (j < i ==> m[i].options.powerMode < m[j].options.powerMode)
  }

  lemma {:induction false} HighestIsFirst(m: seq<Session>, n: nat, i: nat)
    requires n <= |m| && (forall s :: s in m ==> s.options.size > 0) && Named(m) && SetsPowerOf(m, n, i)
    ensures HighestPower(m, n) == m[i].options
  {
    assert m[n - 1] in m && m[i] in m;
    if i < n - 1 {
      HighestIsFirst(m, n - 1, i);
    } else if i > 0 {
      assert forall j :: 0 <= j < i ==> m[j] in m;
      HighestPowerFacts(m, i);
    }
  }

  /** What the engine is asked by a restart: the options of the first of the sessions with the
      highest power, with the interval and the distance of the first of the fastest. */
  lemma {:induction false} RestartAsks(t: Tracker, ok: bool, i: nat, j: nat)
    requires Kept(t) && !t.nHzNeeded && Named(t.timeBased)
    requires SetsPowerOf(t.timeBased, |t.timeBased|, i) && SetsPaceOf(t.timeBased, |t.timeBased|, None, j)
    ensures var power, pace := t.timeBased[i].options, t.timeBased[j].options;
      Step(t, SuspendAndRestart(ok)).engine ==
        if ok then Running(power.(minInterval := pace.minInterval, minDistance := pace.minDistance)) else Stopped
  {
    hide Mux, HighestPower;
    KeptIsSorted(t);
    HighestIsFirst(t.timeBased, |t.timeBased|, i);
    MuxIsFirst(t.timeBased, |t.timeBased|, None, j);
  }

  // ------------------------------------------------------------------ what goes on holding

  /** No key is in both maps; every key is somewhere. */
  lemma PlaceOf(t: Tracker, k: SessionKey) returns (p: Place)
    requires Disjoint(t)
    ensures IsAt(t, k, p)
  {
    if Has(t.distanceBased, k) {
      ApartKeys(t, k);
    }
    p := if Has(t.timeBased, k) then TimeBased(Find(t.timeBased, k).value)
         else if Has(t.distanceBased, k) then DistanceBased(Find(t.distanceBased, k).value) else Nowhere;
  }

  lemma StepKeepsApart(t: Tracker, c: Command)
    requires Kept(t) && Disjoint(t) && FreshKey(t, c)
    ensures Disjoint(Step(t, c))
  {
    hide Step, Kept, Disjoint, Find, IsAt;
    var n := Step(t, c);
    forall s, d | s in n.timeBased && d in n.distanceBased
      ensures s.key != d.key
    {
      KeyOfMember(n.timeBased, s);
      KeyOfMember(n.distanceBased, d);
      var p := PlaceOf(t, s.key);
      PlaceHas(t, s.key, p);
      if IsFor(c, s.key) {
        StepMoves(t, c, p);
        PlaceHas(n, s.key, PlaceAfter(t, c, p));
      } else {
        OthersStay(t, c, s.key);
      }
    }
    AllApart(n);
  }

  lemma AllApart(t: Tracker)
    requires forall s, d :: s in t.timeBased && d in t.distanceBased ==> s.key != d.key
    ensures Disjoint(t)
  {
  }

  lemma StepKeepsNamed(t: Tracker, c: Command)
    requires Kept(t) && Disjoint(t) && FreshKey(t, c) && Named(t.timeBased) && NamesMode(c)
    ensures Named(Step(t, c).timeBased)
  {
    hide Step, Kept, Disjoint, Find, IsAt, Has;
    var n := Step(t, c);
    StepKeeps(t, c);
    forall s | s in n.timeBased
      ensures s.options.powerMode > 0
    {
      KeptFinds(n, s);
      var p := PlaceOf(t, s.key);
      FoundIsNamed(t, s.key);
      if IsFor(c, s.key) {
        StepMoves(t, c, p);
        PlaceIs(t, s.key, p);
        PlaceIs(n, s.key, PlaceAfter(t, c, p));
      } else {
        OthersStay(t, c, s.key);
      }
    }
  }

  lemma KeptFinds(t: Tracker, s: Session)
    requires Kept(t) && s in t.timeBased
    ensures Find(t.timeBased, s.key) == Some(s.options)
  {
    FindIs(t.timeBased, s.key, s.options);
  }

  lemma FoundIsNamed(t: Tracker, k: SessionKey)
    requires Named(t.timeBased)
    ensures Find(t.timeBased, k).Some? ==> Find(t.timeBased, k).value.powerMode > 0
  {
  }

  lemma PlaceIs(t: Tracker, k: SessionKey, p: Place)
    requires IsAt(t, k, p)
    ensures Find(t.timeBased, k) == if p.TimeBased? then Some(p.options) else None
  {
  }

  lemma StepKeepsNHz(t: Tracker, c: Command)
    ensures Step(t, c).nHzNeeded == if c.SetNHz? then c.needed else t.nHzNeeded
  {
    hide StartMux, UpdateMux, StopMux, RestartTimeBased, Put, Erase, Find;
    match c
    case Start(k, o, _, ok) => MuxAsks(t, k, StartOptions(t, o), ok);
    case Update(k, o, ok) =>
      MuxAsks(t, k, AdmittedOptions(t, o), ok);
      MuxAsks(EraseSession(t, k), k, AdmittedOptions(t, o), ok);
    case Stop(k, ok) => MuxAsks(t, k, UNSET, ok);
    case SuspendAndRestart(ok) =>
      MuxAsks((if t.timeBased == [] then t else Halt(t, true)).(atHighestInterval := false), NO_KEY, UNSET, ok);
    case SetNHz(needed, ok) => MuxAsks(t.(nHzNeeded := needed, atHighestInterval := false), NO_KEY, UNSET, ok);
  }

  // ------------------------------------------------------------------ runs

  /** After the first i commands of a run the engine runs at exactly the highest power. */
  ghost predicate StrongAt(config: Config, run: seq<Command>, i: nat)
    requires i <= |run|
  {
    Strong(At(config, run, i))
  }

  /** The next command weakens it. */
  ghost predicate WeakensAt(config: Config, run: seq<Command>, i: nat)
    requires i < |run|
  {
    Weakens(At(config, run, i), run[i])
  }

  /** Starts are given new keys, everybody names a power mode, and there are no nHz clients. */
  ghost predicate OrderlyAt(config: Config, run: seq<Command>, i: nat)
    requires i < |run|
  {
    FreshKey(At(config, run, i), run[i]) && NamesMode(run[i]) && !(run[i].SetNHz? && run[i].needed)
  }

  lemma {:induction false} EveryRunIsStrongIf(config: Config, run: seq<Command>, n: nat)
    requires n <= |run| && forall i: nat :: i < n ==> OrderlyAt(config, run, i) && !WeakensAt(config, run, i)
    ensures StrongAt(config, run, n)
  {
    hide Step, Strong, FreshKey, Weakens;
    if n == 0 {
      InitialIsStrong(config);
    } else {
      assert OrderlyAt(config, run, n - 1) && !WeakensAt(config, run, n - 1);
      EveryRunIsStrongIf(config, run, n - 1);
      StepIsStrongIff(At(config, run, n - 1), run[n - 1]);
    }
  }

  lemma InitialIsStrong(config: Config)
    ensures Strong(Initial(config))
  {
  }

  /** On every orderly run: the engine runs at exactly the highest power asked for at any time
      up to a command exactly if none before it weakens it. */
  lemma EveryRunIsStrongIff(config: Config, run: seq<Command>, n: nat)
    requires n <= |run| && forall i: nat :: i < n ==> OrderlyAt(config, run, i)
    ensures (forall i: nat :: i <= n ==> StrongAt(config, run, i)) <==> forall i: nat :: i < n ==> !WeakensAt(config, run, i)
  {
    hide Step, Strong, FreshKey, Weakens;
    if forall i: nat :: i < n ==> !WeakensAt(config, run, i) {
      forall i: nat | i <= n
        ensures StrongAt(config, run, i)
      {
        EveryRunIsStrongIf(config, run, i);
      }
    }
    if forall i: nat :: i <= n ==> StrongAt(config, run, i) {
      forall i: nat | i < n
        ensures !WeakensAt(config, run, i)
      {
        assert StrongAt(config, run, i) && StrongAt(config, run, i + 1) && OrderlyAt(config, run, i);
        StepIsStrongIff(At(config, run, i), run[i]);
      }
    }
  }

  const FIRST := SessionKey(0, 1)
  const SECOND := SessionKey(0, 2)
  const THIRD := SessionKey(0, 3)
  const SLOW_STRONG := Options(1, 5000, 0, 1, 0)
  const FAST_WEAK := Options(1, 1000, 0, 3, 0)
  const FASTEST_WEAK := Options(1, 500, 0, 3, 0)

  /** A slow session of the highest power, a faster one of lower power, and one faster still:
      the third start makes the engine run at the power of the second. */
  lemma ThirdStartIsWeak(config: Config)
    ensures var run := [Start(FIRST, SLOW_STRONG, true, true), Start(SECOND, FAST_WEAK, true, true), Start(THIRD, FASTEST_WEAK, true, true)];
      && Strong(At(config, run, 2)) && !Strong(At(config, run, 3))
      && At(config, run, 3).engine == Running(Options(1, 500, 0, 3, 0)) && Has(At(config, run, 3).timeBased, FIRST)
  {
    hide Step, Strong, Weakens;
    var run := [Start(FIRST, SLOW_STRONG, true, true), Start(SECOND, FAST_WEAK, true, true), Start(THIRD, FASTEST_WEAK, true, true)];
    assert At(config, run, 0) == Initial(config);
    TwoStarted(config);
    assert At(config, run, 1) == Tracker(config, [Session(FIRST, SLOW_STRONG)], [], Running(SLOW_STRONG), false, false);
    assert At(config, run, 2) == TwoSessions(config);
    assert At(config, run, 3) == Step(At(config, run, 2), run[2]);
    ThirdStarted(config);
    StepIsStrongIff(At(config, run, 2), run[2]);
  }

  function TwoSessions(config: Config): Tracker {
    Tracker(config, [Session(FIRST, SLOW_STRONG), Session(SECOND, FAST_WEAK)], [], Running(FAST_WEAK.(powerMode := 1)), false, false)
  }

  lemma TwoStarted(config: Config)
    ensures var t1 := Tracker(config, [Session(FIRST, SLOW_STRONG)], [], Running(SLOW_STRONG), false, false);
      && Step(Initial(config), Start(FIRST, SLOW_STRONG, true, true)) == t1
      && Step(t1, Start(SECOND, FAST_WEAK, true, true)) == TwoSessions(config)
  {
    var t1 := Step(Initial(config), Start(FIRST, SLOW_STRONG, true, true));
    assert t1 == Tracker(config, [Session(FIRST, SLOW_STRONG)], [], Running(SLOW_STRONG), false, false);
    assert Mux(t1.timeBased, 1, None) == Muxed(SLOW_STRONG, 1);
    assert Put([], SECOND, FAST_WEAK) == [Session(SECOND, FAST_WEAK)] && t1.timeBased[1..] == [];
  }

  lemma ThirdStarted(config: Config)
    ensures var t2, c := TwoSessions(config), Start(THIRD, FASTEST_WEAK, true, true);
      && Strong(t2) && Weakens(t2, c) && FreshKey(t2, c)
      && Step(t2, c).engine == Running(FASTEST_WEAK) && Has(Step(t2, c).timeBased, FIRST)
  {
    var t2 := TwoSessions(config);
    var m := t2.timeBased;
    assert m[0] == Session(FIRST, SLOW_STRONG) && m[1] == Session(SECOND, FAST_WEAK) && m[0] in m;
    assert Mux(m, 1, None) == Muxed(SLOW_STRONG, 1);
    assert Mux(m, 2, None) == Muxed(FAST_WEAK, 1);
    OthersStay(t2, Start(THIRD, FASTEST_WEAK, true, true), FIRST);
    assert Find(m, FIRST) == Some(SLOW_STRONG);
  }
}
