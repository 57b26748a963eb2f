/** The lockout after failed authentications: the tracker of a session, and its timer. */
module Lockout {
  const TIMED_THRESHOLD: nat := 5
  const TIMED_DURATION: int := 10000
  const PERMANENT_THRESHOLD: nat := 20

  datatype Mode = NoLockout | Timed | Permanent

  datatype Note = Cleared | TimedFor(left: int) | LockedForGood

  /** pending counts the timers that will still expire, the last not before due. */
  datatype State = State(failed: nat, start: int, mode: Mode, started: bool, aborted: bool, pending: nat, due: int)

  /** now is the time, in nanoseconds since boot; elapsed, that the lockout's time is over
      by the clock. */
  datatype Event =
    | Succeed
    | Fail(now: int, elapsed: bool)
    | Authenticate(now: int, elapsed: bool)
    | ResetLockout
    | TimerExpires(now: int)

  const MILLION: int := 1000000
  const INITIAL := State(0, 0, NoLockout, false, false, 0, 0)

  // ------------------------------------------------------------------ the transition

  datatype Transition = Transition(next: State, notes: seq<Note>)

  function Counted(s: State, now: int): State {
    var n := s.failed + 1;
    if n >= PERMANENT_THRESHOLD then s.(failed := n, mode := Permanent)
    else if n >= TIMED_THRESHOLD && s.mode == NoLockout then s.(failed := n, mode := Timed, start := now)
    else s.(failed := n)
  }

  function TimeLeft(s: State, now: int): int {
    if s.start > 0 then TIMED_DURATION - Truncated(now - s.start, MILLION) else 0
  }

  /** Division that rounds towards zero. */
  function Truncated(a: int, b: int): int
    requires b > 0
  {
    if a >= 0 then a / b else -(-a / b)
  }

  /** When a timer expires that is set for so many milliseconds. */
  function Due(now: int, left: int): int {
    if left > 0 then now + left * MILLION else now
  }

  /** The mode is looked at, and the session acts on it. */
  function Checked(s: State, now: int, elapsed: bool): Transition {
    var t := if s.mode == Timed && elapsed then s.(mode := NoLockout, start := 0) else s;
    match t.mode
    case Permanent => Transition(t.(aborted := true), [LockedForGood])
    case Timed =>
      var left := TimeLeft(t, now);
      Transition(if t.started then t else t.(started := true, pending := t.pending + 1, due := Due(now, left)),
                 [TimedFor(left)])
    case NoLockout => Transition(t, [])
  }

  function Unlocked(s: State): State {
    s.(start := 0, mode := NoLockout)
  }

  function Step(s: State, e: Event): Transition {
    match e
    case Succeed => Transition(Unlocked(s.(failed := 0)), [])
    case Fail(now, elapsed) => Checked(Counted(s, now), now, elapsed)
    case Authenticate(now, elapsed) => Checked(s, now, elapsed)
    case ResetLockout => Transition(Unlocked(s.(failed := 0, aborted := s.aborted || s.started)), [Cleared])
    case TimerExpires(_) =>
      if s.pending == 0 then Transition(s, [])
      else
        var t := if s.aborted then s else Unlocked(s);
        Transition(t.(started := false, aborted := false, pending := s.pending - 1), if s.aborted then [] else [Cleared])
  }

  // ------------------------------------------------------------------ runs

  function At(run: seq<Event>, n: nat): State
    requires n <= |run|
  {
    if n == 0 then INITIAL else Step(At(run, n - 1), run[n - 1]).next
  }

  /** Failed authentications since the last successful one, or the last reset. */
  function FailuresSinceClear(run: seq<Event>, n: nat): nat
    requires n <= |run|
  {
    if n == 0 || run[n - 1].Succeed? || run[n - 1].ResetLockout? then 0
    else FailuresSinceClear(run, n - 1) + if run[n - 1].Fail? then 1 else 0
  }

  predicate Sound(s: State) {
    && (s.mode == Permanent <==> s.failed >= PERMANENT_THRESHOLD)
    && (s.mode == Timed ==> s.failed >= TIMED_THRESHOLD)
    && s.pending == (if s.started then 1 else 0)
    && (s.mode == Permanent && s.started ==> s.aborted)
  }

  lemma StepIsSound(s: State, e: Event)
    requires Sound(s)
    ensures Sound(Step(s, e).next)
  {
  }

  lemma StepCounts(s: State, e: Event)
    ensures Step(s, e).next.failed ==
      if e.Succeed? || e.ResetLockout? then 0 else if e.Fail? then s.failed + 1 else s.failed
  {
  }

  /** On every run the lockout is permanent exactly from the twentieth failure on since the
      last success or reset: no timer and no query ends it. At most one timer is pending. */
  lemma {:induction false} PermanentIffTwentyFailures(run: seq<Event>, n: nat)
    requires n <= |run|
    ensures At(run, n).mode == Permanent <==> FailuresSinceClear(run, n) >= PERMANENT_THRESHOLD
    ensures At(run, n).mode == Timed ==> TIMED_THRESHOLD <= FailuresSinceClear(run, n) < PERMANENT_THRESHOLD
    ensures At(run, n).pending <= 1
    ensures Sound(At(run, n)) && At(run, n).failed == FailuresSinceClear(run, n)
  {
    hide Step;
    if n > 0 {
      PermanentIffTwentyFailures(run, n - 1);
      StepIsSound(At(run, n - 1), run[n - 1]);
      StepCounts(At(run, n - 1), run[n - 1]);
    }
  }

  /** A permanent lockout is told on every attempt, and never said to be cleared, but by a
      reset. */
  lemma PermanentIsTold(run: seq<Event>, n: nat)
    requires n < |run| && FailuresSinceClear(run, n) >= PERMANENT_THRESHOLD
    ensures run[n].Fail? || run[n].Authenticate? ==> Step(At(run, n), run[n]).notes == [LockedForGood]
    ensures Cleared in Step(At(run, n), run[n]).notes ==> run[n].ResetLockout?
  {
    PermanentIffTwentyFailures(run, n);
  }

  // ------------------------------------------------------------------ the ten seconds

  /** When a timed lockout that began then should end. */
  function Ends(start: int): int {
    start + TIMED_DURATION * MILLION
  }

  /** While a timed lockout lasts, what is told is the rest of it, to the millisecond. */
  lemma TimeLeftIsRest(s: State, now: int)
    requires 0 < s.start <= now
    ensures var left := TimeLeft(s, now);
      && left <= TIMED_DURATION && (now <= Ends(s.start) ==> 0 <= left)
      && Ends(s.start) - now <= left * MILLION < Ends(s.start) - now + MILLION
  {
    var passed := now - s.start;
    assert passed == MILLION * (passed / MILLION) + passed % MILLION;
  }

  /** Told before the lockout began, the clock having been set back, it is the whole of it and
      the time until it begins; without one, nothing is left. */
  lemma TimeLeftElse(s: State, now: int)
    requires s.start <= 0 || now < s.start
    ensures var left := TimeLeft(s, now);
      if s.start <= 0 then left == 0
      else left >= TIMED_DURATION && Ends(s.start) - now - MILLION < left * MILLION <= Ends(s.start) - now
  {
    var early := s.start - now;
    assert early == MILLION * (early / MILLION) + early % MILLION;
  }

  /** The time of an event that has one. */
  function TimeOf(e: Event, before: int): int {
    match e
    case Fail(now, _) => now
    case Authenticate(now, _) => now
    case TimerExpires(now) => now
    case _ => before
  }

  /** The state whose mode is looked at: after a failure, with that counted. */
  function LookedAt(s: State, e: Event): State {
    if e.Fail? then Counted(s, e.now) else s
  }

  /** What can be told of time: it does not go back, the clock ends a lockout only when its
      time is over, and a timer does not expire before it is due. */
  predicate Timely(s: State, e: Event, before: int) {
    && TimeOf(e, before) >= before
    && ((e.Fail? || e.Authenticate?) && e.elapsed && LookedAt(s, e).mode == Timed ==> e.now >= Ends(LookedAt(s, e).start))
    && (e.TimerExpires? && s.pending > 0 ==> e.now >= s.due)
  }

  /** The time of the last event that has one; it starts at 1. */
  function Now(run: seq<Event>, n: nat): int
    requires n <= |run|
  {
    if n == 0 then 1 else TimeOf(run[n - 1], Now(run, n - 1))
  }

  predicate TimelyRun(run: seq<Event>, n: nat)
    requires n <= |run|
  {
    forall i :: 0 <= i < n ==> Timely(At(run, i), run[i], Now(run, i))
  }

  lemma {:induction false} TimeGoesOn(run: seq<Event>, n: nat)
    requires n <= |run| && TimelyRun(run, n)
    ensures Now(run, n) >= 1
    ensures At(run, n).mode == Timed ==> 0 < At(run, n).start <= Now(run, n)
  {
    hide Step, Timely;
    if n > 0 {
      TimeGoesOn(run, n - 1);
      StartStep(At(run, n - 1), run[n - 1], Now(run, n - 1));
    }
  }

  lemma StartStep(s: State, e: Event, before: int)
    requires Timely(s, e, before) && before > 0 && (s.mode == Timed ==> 0 < s.start <= before)
    ensures TimeOf(e, before) >= before
    ensures Step(s, e).next.mode == Timed ==> 0 < Step(s, e).next.start <= TimeOf(e, before)
  {
    hide TimeLeft, Due;
  }

  /** The timer that is pending does not expire before the lockout should end. */
  predicate TimerFits(s: State) {
    s.mode == Timed && s.started ==> s.due >= Ends(s.start)
  }

  /** A lockout begins with the failure: the fifth to nineteenth since the last clear. */
  predicate Begins(s: State, e: Event) {
    s.mode == NoLockout && e.Fail? && !e.elapsed && TIMED_THRESHOLD <= s.failed + 1 < PERMANENT_THRESHOLD
  }

  /** It does so while a timer is pending that is due before its end: one left over from a
      lockout that ended by the clock or by a success, neither of which stops it. */
  predicate BeginsUnderOldTimer(s: State, e: Event) {
    Begins(s, e) && s.started && s.due < Ends(e.now)
  }

  /** Of every event: the mode after it. */
  lemma ModeAfter(s: State, e: Event)
    requires Sound(s)
    ensures Step(s, e).next.mode ==
      match e
      case Succeed => NoLockout
      case ResetLockout => NoLockout
      case TimerExpires(_) => if s.pending > 0 && !s.aborted then NoLockout else s.mode
      case Authenticate(_, elapsed) => if s.mode == Timed && elapsed then NoLockout else s.mode
      case Fail(_, elapsed) =>
        if s.failed + 1 >= PERMANENT_THRESHOLD then Permanent
        else if Begins(s, e) then Timed
        else if s.mode == Timed && elapsed then NoLockout
        else s.mode
  {
    hide TimeLeft, Due;
  }

  /** The start of a lockout is that of the failure it begins with, until it is over. */
  lemma StartAfter(s: State, e: Event)
    requires Step(s, e).next.mode == Timed
    ensures Step(s, e).next.start == if s.mode == Timed then s.start else TimeOf(e, 0)
  {
    hide TimeLeft, Due;
  }

  /** What an event tells: the milliseconds left of a lockout that goes on. */
  predicate Tells(notes: seq<Note>, s: State, now: int) {
    && |notes| == 1 && notes[0].TimedFor?
    && Ends(s.start) - now <= notes[0].left * MILLION < Ends(s.start) - now + MILLION
  }

  /** On every run in time, an attempt is told of a lockout exactly if it is locked out then:
      of a permanent one as such, and of a timed one how much of its ten seconds is left,
      rounded up to the millisecond; a timer then runs. */
  lemma AttemptIsTold(run: seq<Event>, n: nat)
    requires n < |run| && TimelyRun(run, n + 1) && (run[n].Fail? || run[n].Authenticate?)
    ensures var after, notes := At(run, n + 1), Step(At(run, n), run[n]).notes;
      match after.mode
      case NoLockout => notes == []
      case Permanent => notes == [LockedForGood] && after.aborted
      case Timed => Tells(notes, after, run[n].now) && after.started
  {
    hide TimeLeft, Due;
    var s, e := At(run, n), run[n];
    PermanentIffTwentyFailures(run, n);
    TimelyPart(run, n);
    TimeGoesOn(run, n);
    TimeGoesOn(run, n + 1);
    var c := LookedAt(s, e);
    if c.mode == Timed && !e.elapsed {
      TimeLeftIsRest(c, e.now);
    }
  }

  lemma TimelyPart(run: seq<Event>, n: nat)
    requires n < |run| && TimelyRun(run, n + 1)
    ensures TimelyRun(run, n) && Timely(At(run, n), run[n], Now(run, n))
  {
  }

  /** The timer that an attempt starts is due when the lockout ends, at the earliest, and
      less than a millisecond later. */
  lemma TimerIsSet(run: seq<Event>, n: nat)
    requires n < |run| && TimelyRun(run, n + 1)
    requires !At(run, n).started && At(run, n + 1).started
    ensures var after := At(run, n + 1);
      && after.mode == Timed && after.pending == 1
      && (TimeOf(run[n], 0) <= Ends(after.start) ==> Ends(after.start) <= after.due < Ends(after.start) + MILLION)
  {
    hide TimeLeft;
    var s, e := At(run, n), run[n];
    PermanentIffTwentyFailures(run, n);
    TimelyPart(run, n);
    TimeGoesOn(run, n);
    TimeGoesOn(run, n + 1);
    var c := LookedAt(s, e);
    if (e.Fail? || e.Authenticate?) && c.mode == Timed && !e.elapsed {
      TimeLeftIsRest(c, e.now);
    }
  }

  /** Of every event: the timer goes on to fit exactly if it is not that. */
  lemma TimerFitsIff(s: State, e: Event, before: int)
    requires Sound(s) && TimerFits(s) && Timely(s, e, before)
    requires before > 0 && (s.mode == Timed ==> 0 < s.start <= before)
    ensures TimerFits(Step(s, e).next) <==> !BeginsUnderOldTimer(s, e)
  {
    hide TimeLeft;
    if e.Fail? && Counted(s, e.now).mode == Timed {
      CountedStart(s, e.now);
      TimeLeftIsRest(Counted(s, e.now), e.now);
    } else if e.Authenticate? && s.mode == Timed {
      TimeLeftIsRest(s, e.now);
    }
  }

  lemma CountedStart(s: State, now: int)
    requires 0 < now && (s.mode == Timed ==> 0 < s.start <= now)
    ensures Counted(s, now).mode == Timed ==> 0 < Counted(s, now).start <= now
  {
  }

  /** Nothing but a success, a reset or an unaborted timer ends a lockout before its time. */
  lemma EndsEarlyIff(s: State, e: Event, before: int)
    requires Sound(s) && s.mode == Timed && Timely(s, e, before) && TimeOf(e, before) < Ends(s.start)
    ensures Step(s, e).next.mode == NoLockout <==>
      e.Succeed? || e.ResetLockout? || (e.TimerExpires? && s.pending > 0 && !s.aborted)
    ensures Step(s, e).next.mode == Timed ==> Step(s, e).next.start == s.start
  {
  }

  /** The timer that is pending will not end the lockout before its time: it is not due, or
      has been aborted. */
  predicate Safe(s: State) {
    s.mode == Timed && s.started ==> s.due >= Ends(s.start) || s.aborted
  }

  /** Before its time a safe lockout goes on, and stays safe, or becomes permanent. */
  lemma SafeStep(s: State, e: Event, before: int)
    requires Sound(s) && Safe(s) && s.mode == Timed && Timely(s, e, before) && TimeOf(e, before) < Ends(s.start)
    requires 0 < s.start <= before && !e.Succeed? && !e.ResetLockout?
    ensures var n := Step(s, e).next;
      n.mode == Permanent || (n.mode == Timed && n.start == s.start && Safe(n))
  {
    hide TimeLeft;
    if e.Fail? || e.Authenticate? {
      TimeLeftIsRest(s, e.now);
      SameTimeLeft(s, LookedAt(s, e), e.now);
    }
  }

  lemma SameTimeLeft(s: State, t: State, now: int)
    requires s.start == t.start
    ensures TimeLeft(s, now) == TimeLeft(t, now)
  {
  }

  /** On every run in time: a safe lockout lasts its ten seconds, unless there is a success
      or a reset, or it becomes permanent. */
  lemma {:induction false} LockoutLasts(run: seq<Event>, m: nat, n: nat)
    requires m <= n <= |run| && TimelyRun(run, n)
    requires At(run, m).mode == Timed && Safe(At(run, m))
    requires forall i :: m <= i < n ==> !run[i].Succeed? && !run[i].ResetLockout?
    requires Now(run, n) < Ends(At(run, m).start)
    ensures At(run, n).mode == Permanent
         || (At(run, n).mode == Timed && At(run, n).start == At(run, m).start && Safe(At(run, n)))
  {
    hide Step, Safe;
    if n > m {
      var s, e := At(run, n - 1), run[n - 1];
      assert Timely(s, e, Now(run, n - 1));
      LockoutLasts(run, m, n - 1);
      PermanentIffTwentyFailures(run, n - 1);
      PermanentIffTwentyFailures(run, n);
      TimeGoesOn(run, n - 1);
      if s.mode == Timed {
        SafeStep(s, e, Now(run, n - 1));
      }
    }
  }

  /** A timer can expire at such a time, and end the lockout before its own. */
  predicate CutsShort(s: State, before: int, now: int) {
    && Timely(s, TimerExpires(now), before) && s.pending > 0 && now < Ends(s.start)
    && Step(s, TimerExpires(now)).next.mode == NoLockout
  }

  ghost predicate CanBeCutShort(s: State, before: int) {
    exists now :: CutsShort(s, before, now)
  }

  /** A lockout that has just begun can be cut short if and only if it began under an old
      timer, and that has not been aborted. */
  lemma CutShortIff(run: seq<Event>, m: nat)
    requires m < |run| && TimelyRun(run, m + 1)
    requires At(run, m).mode == NoLockout && At(run, m + 1).mode == Timed
    ensures CanBeCutShort(At(run, m + 1), Now(run, m + 1)) <==>
      BeginsUnderOldTimer(At(run, m), run[m]) && !At(run, m).aborted
  {
    hide Step, TimerFits, BeginsUnderOldTimer, CanBeCutShort;
    PermanentIffTwentyFailures(run, m);
    PermanentIffTwentyFailures(run, m + 1);
    TimeGoesOn(run, m);
    assert Timely(At(run, m), run[m], Now(run, m));
    CutShortStep(At(run, m), run[m], Now(run, m));
  }

  lemma CutShortStep(s: State, e: Event, before: int)
    requires Sound(s) && Sound(Step(s, e).next) && Timely(s, e, before) && before > 0
    requires s.mode == NoLockout && Step(s, e).next.mode == Timed
    ensures var n := Step(s, e).next;
      && (CanBeCutShort(n, TimeOf(e, before)) <==> BeginsUnderOldTimer(s, e) && !s.aborted)
      && (Safe(n) <==> !(BeginsUnderOldTimer(s, e) && !s.aborted))
  {
    hide TimeLeft, Step, BeginsUnderOldTimer;
    TimerFitsIff(s, e, before);
    BeginningStep(s, e);
    CanBeCutShortIff(Step(s, e).next, TimeOf(e, before));
  }

  /** A lockout begins with a failure, and keeps the mark of an abort. */
  lemma BeginningStep(s: State, e: Event)
    requires s.mode == NoLockout && Step(s, e).next.mode == Timed
    ensures Begins(s, e)
    ensures Step(s, e).next.aborted == s.aborted && Step(s, e).next.start == e.now && Step(s, e).next.started
  {
    hide TimeLeft, Due;
  }

  lemma CanBeCutShortIff(s: State, before: int)
    requires Sound(s) && s.mode == Timed && s.started && before < Ends(s.start)
    ensures CanBeCutShort(s, before) <==> !TimerFits(s) && !s.aborted
  {
    if !TimerFits(s) && !s.aborted {
      var now := if s.due > before then s.due else before;
      assert CutsShort(s, before, now);
    }
  }

  /** The run goes on after its first events without a success or a reset, for less than the
      ten seconds of the lockout that is there. */
  ghost predicate GoesOn(first: seq<Event>, run: seq<Event>) {
    && first <= run && TimelyRun(run, |run|)
    && (forall i :: |first| <= i < |run| ==> !run[i].Succeed? && !run[i].ResetLockout?)
    && Now(run, |run|) < Ends(At(first, |first|).start)
  }

  /** However it goes on, there is a lockout. */
  ghost predicate Lasts(first: seq<Event>) {
    forall run :: GoesOn(first, run) ==> At(run, |run|).mode != NoLockout
  }

  /** A lockout that has just begun lasts its ten seconds on every run in time without a
      success or a reset, if and only if it did not begin under an old timer that has not
      been aborted. */
  lemma LockoutLastsIff(first: seq<Event>, m: nat)
    requires |first| == m + 1 && TimelyRun(first, m + 1)
    requires At(first, m).mode == NoLockout && At(first, m + 1).mode == Timed
    ensures Lasts(first) <==> !(BeginsUnderOldTimer(At(first, m), first[m]) && !At(first, m).aborted)
  {
    hide Step, BeginsUnderOldTimer, Safe, CutsShort, CanBeCutShort, GoesOn, TimelyRun;
    var s, e := At(first, m), first[m];
    PermanentIffTwentyFailures(first, m);
    PermanentIffTwentyFailures(first, m + 1);
    TimelyAt(first, m);
    TimeGoesOn(first, m);
    CutShortStep(s, e, Now(first, m));
    if BeginsUnderOldTimer(s, e) && !s.aborted {
      CutShortRun(first);
    } else {
      forall run | GoesOn(first, run)
        ensures At(run, |run|).mode != NoLockout
      {
        SafeGoesOn(first, run);
      }
    }
  }

  lemma TimelyAt(run: seq<Event>, m: nat)
    requires m < |run| && TimelyRun(run, m + 1)
    ensures Timely(At(run, m), run[m], Now(run, m)) && TimelyRun(run, m)
  {
  }

  lemma {:induction false} SameBeginning(first: seq<Event>, run: seq<Event>, n: nat)
    requires first <= run && n <= |first|
    ensures At(run, n) == At(first, n) && Now(run, n) == Now(first, n)
  {
    hide Step;
    if n > 0 {
      SameBeginning(first, run, n - 1);
    }
  }

  lemma SafeGoesOn(first: seq<Event>, run: seq<Event>)
    requires GoesOn(first, run) && At(first, |first|).mode == Timed && Safe(At(first, |first|))
    ensures At(run, |run|).mode != NoLockout
  {
    hide Step, Safe;
    SameBeginning(first, run, |first|);
    LockoutLasts(run, |first|, |run|);
  }

  lemma CutShortRun(first: seq<Event>)
    requires TimelyRun(first, |first|) && CanBeCutShort(At(first, |first|), Now(first, |first|))
    ensures !Lasts(first)
  {
    hide Step, TimelyRun, GoesOn, Timely;
    var n := |first|;
    var now :| CutsShort(At(first, n), Now(first, n), now);
    var run := first + [TimerExpires(now)];
    OneMore(first, TimerExpires(now));
    assert GoesOn(first, run);
  }

  lemma OneMore(first: seq<Event>, e: Event)
    requires TimelyRun(first, |first|) && Timely(At(first, |first|), e, Now(first, |first|))
    ensures var run := first + [e];
      && At(run, |run|) == Step(At(first, |first|), e).next && Now(run, |run|) == TimeOf(e, Now(first, |first|))
      && (!e.Succeed? && !e.ResetLockout? && Now(run, |run|) < Ends(At(first, |first|).start) ==> GoesOn(first, run))
  {
    hide Step, Timely;
    var run := first + [e];
    SameBeginning(first, run, |first|);
    forall i | 0 <= i < |run|
      ensures Timely(At(run, i), run[i], Now(run, i))
    {
      SameBeginning(first, run, i);
    }
  }

  /** The case that an abort saves: five failures, a reset, five failures. */
  lemma ResetSavesNextLockout()
    ensures var run := [FAIL, FAIL, FAIL, FAIL, FAIL, ResetLockout] + seq(5, _ => Fail(LATER, false));
      At(run, 11).mode == Timed && !TimerFits(At(run, 11)) && Lasts(run)
  {
    hide TimeLeft, TimelyRun, Lasts;
    var run := [FAIL, FAIL, FAIL, FAIL, FAIL, ResetLockout] + seq(5, _ => Fail(LATER, false));
    FailingRun(run, 5);
    assert At(run, 6) == State(0, 0, NoLockout, true, true, 1, Ends(1));
    assert At(run, 7) == State(1, 0, NoLockout, true, true, 1, Ends(1));
    assert At(run, 8) == State(2, 0, NoLockout, true, true, 1, Ends(1));
    assert At(run, 9) == State(3, 0, NoLockout, true, true, 1, Ends(1));
    assert At(run, 10) == State(4, 0, NoLockout, true, true, 1, Ends(1));
    assert At(run, 11) == State(5, LATER, Timed, true, true, 1, Ends(1));
    WithoutClock(run, 11);
    LockoutLastsIff(run, 10);
  }

  /** Such a run: five failures, a success, five failures three seconds later, and the timer
      of the first lockout ends the second after seven seconds. */
  lemma OldTimerCutsShort()
    ensures exists run: seq<Event>, m: nat ::
      && m <= |run| && TimelyRun(run, m)
      && At(run, m).mode == Timed && CanBeCutShort(At(run, m), Now(run, m))
  {
    hide TimeLeft, CutsShort, TimelyRun, CanBeCutShort;
    var again := Fail(LATER, false);
    var run := [FAIL, FAIL, FAIL, FAIL, FAIL, Succeed, again, again, again, again, again];
    FailingRun(run, 5);
    assert At(run, 6) == State(0, 0, NoLockout, true, false, 1, Ends(1));
    assert At(run, 7) == State(1, 0, NoLockout, true, false, 1, Ends(1));
    assert At(run, 8) == State(2, 0, NoLockout, true, false, 1, Ends(1));
    assert At(run, 9) == State(3, 0, NoLockout, true, false, 1, Ends(1));
    assert At(run, 10) == State(4, 0, NoLockout, true, false, 1, Ends(1));
    assert At(run, 11).mode == Timed;
    WithoutClock(run, 11);
    CutShortIff(run, 10);
  }

  const LATER: int := 3000000001

  /** Runs in which the clock ends no lockout and no timer expires are timely if time goes
      on. */
  lemma WithoutClock(run: seq<Event>, n: nat)
    requires n <= |run|
    requires forall i :: 0 <= i < n ==> !run[i].TimerExpires? && (run[i].Fail? || run[i].Authenticate? ==> !run[i].elapsed)
    requires forall i :: 0 <= i < n ==> TimeOf(run[i], Now(run, i)) >= Now(run, i)
    ensures TimelyRun(run, n)
  {
  }

  // ------------------------------------------------------------------ where the timer fails

  /** The pending timer is aborted: by a reset, or an attempt under a permanent lockout. */
  predicate Aborts(run: seq<Event>, k: nat)
    requires k < |run|
  {
    || (run[k].ResetLockout? && At(run, k).started)
    || ((run[k].Fail? || run[k].Authenticate?) && At(run, k + 1).mode == Permanent)
  }

  predicate Expires(run: seq<Event>, k: nat)
    requires k < |run|
  {
    run[k].TimerExpires? && At(run, k).pending > 0
  }

  ghost predicate AbortedSinceExpiry(run: seq<Event>, n: nat)
    requires n <= |run|
  {
    exists k :: 0 <= k < n && Aborts(run, k) && forall j :: k < j < n ==> !Expires(run, j)
  }

  /** The mark of an abort is there exactly if there has been one since a timer last
      expired, whether or not there was a timer then. */
  lemma {:induction false} AbortedIff(run: seq<Event>, n: nat)
    requires n <= |run|
    ensures At(run, n).aborted <==> AbortedSinceExpiry(run, n)
  {
    hide Step, Expires, Aborts;
    if n > 0 {
      AbortedIff(run, n - 1);
      AbortedStep(run, n - 1);
      if Aborts(run, n - 1) {
        assert AbortedSinceExpiry(run, n);
      } else if At(run, n - 1).aborted && !Expires(run, n - 1) {
        var k :| 0 <= k < n - 1 && Aborts(run, k) && forall j :: k < j < n - 1 ==> !Expires(run, j);
        assert forall j :: k < j < n ==> !Expires(run, j);
      }
    }
  }

  lemma AbortedStep(run: seq<Event>, n: nat)
    requires n < |run|
    ensures At(run, n + 1).aborted <==> Aborts(run, n) || (At(run, n).aborted && !Expires(run, n))
  {
    hide TimeLeft, Due;
  }

  /** A timer that expires under a timed lockout ends nothing, and nothing is told, if and
      only if there was an abort since the last timer expired: one meant for this timer, or
      one there was no timer for. */
  lemma ExpiryEndsNothingIff(run: seq<Event>, n: nat)
    requires n < |run| && Expires(run, n) && At(run, n).mode == Timed
    ensures At(run, n + 1).mode == Timed && Step(At(run, n), run[n]).notes == [] <==> AbortedSinceExpiry(run, n)
    ensures At(run, n + 1).mode == NoLockout && Step(At(run, n), run[n]).notes == [Cleared] <==> !AbortedSinceExpiry(run, n)
  {
    AbortedIff(run, n);
  }

  /** An abort comes to be without a timer exactly by an attempt under a permanent lockout. */
  lemma AbortedWithoutTimer(s: State, e: Event)
    requires Sound(s) && !(s.aborted && !s.started)
    ensures var t := Step(s, e).next;
      t.aborted && !t.started <==>
        !s.started && t.mode == Permanent && (e.Fail? || e.Authenticate?)
  {
  }

  const FAIL := Fail(1, false)

  lemma {:induction false} FailingRun(run: seq<Event>, n: nat)
    requires n <= |run| && n <= PERMANENT_THRESHOLD && forall i :: 0 <= i < n ==> run[i] == FAIL
    ensures At(run, n) == State(
      n,
      if n >= 5 then 1 else 0,
      if n >= 20 then Permanent else if n >= 5 then Timed else NoLockout,
      n >= 5, n >= 20, if n >= 5 then 1 else 0, if n >= 5 then Ends(1) else 0)
    ensures Now(run, n) == 1
  {
    if n > 0 {
      FailingRun(run, n - 1);
    }
  }

  /** An abort there was no timer for outlives the lockout it was meant for: after a reset,
      and five failures of a user who is not permanently locked out, the timer expires and
      ends nothing. */
  lemma AbortOutlivesReset()
    ensures exists run: seq<Event>, n: nat ::
      && n < |run| && Expires(run, n)
      && At(run, n).mode == Timed && At(run, n + 1).mode == Timed
      && Step(At(run, n), run[n]).notes == []
  {
    var fails := seq(PERMANENT_THRESHOLD, _ => FAIL);
    var again := Fail(MUCH_LATER, false);
    var rest := [TimerExpires(MUCH_LATER), again, ResetLockout, again, again, again, again, again,
                 TimerExpires(Ends(MUCH_LATER))];
    var run := fails + rest;
    FailingRun(run, PERMANENT_THRESHOLD);
    StaleAbort(run, rest);
    FailuresWithStaleAbort(run);
    assert run[28] == rest[8];
    assert At(run, 29).mode == Timed;
  }

  const MUCH_LATER: int := 20000000000

  lemma StaleAbort(run: seq<Event>, rest: seq<Event>)
    requires |run| == 29 && |rest| == 9 && run[20..] == rest
    requires rest[..3] == [TimerExpires(MUCH_LATER), Fail(MUCH_LATER, false), ResetLockout]
    requires At(run, 20) == State(20, 1, Permanent, true, true, 1, Ends(1))
    ensures At(run, 23) == State(0, 0, NoLockout, false, true, 0, Ends(1))
  {
    hide TimeLeft, Due;
    assert forall i :: 0 <= i < 3 ==> run[20 + i] == rest[i] == rest[..3][i];
    assert At(run, 21) == State(20, 1, Permanent, false, false, 0, Ends(1));
    assert At(run, 22) == State(21, 1, Permanent, false, true, 0, Ends(1));
  }

  lemma FailuresWithStaleAbort(run: seq<Event>)
    requires |run| == 29 && (forall i :: 23 <= i < 28 ==> run[i] == Fail(MUCH_LATER, false))
    requires At(run, 23) == State(0, 0, NoLockout, false, true, 0, Ends(1))
    ensures At(run, 28) == State(5, MUCH_LATER, Timed, true, true, 1, Ends(MUCH_LATER))
  {
    assert At(run, 24) == State(1, 0, NoLockout, false, true, 0, Ends(1));
    assert At(run, 25) == State(2, 0, NoLockout, false, true, 0, Ends(1));
    assert At(run, 26) == State(3, 0, NoLockout, false, true, 0, Ends(1));
    assert At(run, 27) == State(4, 0, NoLockout, false, true, 0, Ends(1));
  }

  // ------------------------------------------------------------------ the classes

  class LockoutTracker {
    var failedCount: nat
    var lockoutTimedStart: int
    var currentMode: Mode

    constructor ()
      ensures failedCount == 0 && lockoutTimedStart == 0 && currentMode == NoLockout
    {
      failedCount, lockoutTimedStart, currentMode := 0, 0, NoLockout;
    }

    method Reset(clearAttemptCounter: bool)
      modifies this
      ensures failedCount == (if clearAttemptCounter then 0 else old(failedCount))
      ensures lockoutTimedStart == 0 && currentMode == NoLockout
    {
      if clearAttemptCounter {
        failedCount := 0;
      }
      lockoutTimedStart := 0;
      currentMode := NoLockout;
    }

    method AddFailedAttempt(now: int)
      modifies this
      ensures failedCount == old(failedCount) + 1
      ensures currentMode == if failedCount >= PERMANENT_THRESHOLD then Permanent
        else if failedCount >= TIMED_THRESHOLD && old(currentMode) == NoLockout then Timed
        else old(currentMode)
      ensures lockoutTimedStart == if currentMode == Timed && old(currentMode) == NoLockout then now else old(lockoutTimedStart)
    {
      failedCount := failedCount + 1;
      if failedCount >= PERMANENT_THRESHOLD {
        currentMode := Permanent;
      } else if failedCount >= TIMED_THRESHOLD {
        if currentMode == NoLockout {
          currentMode := Timed;
          lockoutTimedStart := now;
        }
      }
    }

    method GetMode(elapsed: bool) returns (mode: Mode)
      modifies this
      ensures mode == currentMode && failedCount == old(failedCount)
      ensures currentMode == if old(currentMode) == Timed && elapsed then NoLockout else old(currentMode)
      ensures lockoutTimedStart == if old(currentMode) == Timed && elapsed then 0 else old(lockoutTimedStart)
    {
      if currentMode == Timed {
        if elapsed {
          currentMode := NoLockout;
          lockoutTimedStart := 0;
        }
      }
      return currentMode;
    }

    method GetLockoutTimeLeft(now: int) returns (left: int)
      ensures lockoutTimedStart <= 0 ==> left == 0
      ensures 0 < lockoutTimedStart <= now ==>
        && left <= TIMED_DURATION && (now <= Ends(lockoutTimedStart) ==> 0 <= left)
        && Ends(lockoutTimedStart) - now <= left * MILLION < Ends(lockoutTimedStart) - now + MILLION
      ensures left == TimeLeft(INITIAL.(start := lockoutTimedStart), now)
    {
      if 0 < lockoutTimedStart <= now {
        TimeLeftIsRest(INITIAL.(start := lockoutTimedStart), now);
      }
      left := 0;
      if lockoutTimedStart > 0 {
        left := TIMED_DURATION - Truncated(now - lockoutTimedStart, MILLION);
      }
    }
  }

  class Session {
    const tracker: LockoutTracker
    var isLockoutTimerStarted: bool
    var isLockoutTimerAborted: bool
    /** The timers that will still expire, and when the last is due. */
    ghost var pending: nat
    ghost var due: int
    /** What the framework was told, in order. */
    ghost var told: seq<Note>

    ghost function Abs(): State
      reads this, tracker
    {
      State(tracker.failedCount, tracker.lockoutTimedStart, tracker.currentMode,
            isLockoutTimerStarted, isLockoutTimerAborted, pending, due)
    }

    constructor ()
      ensures fresh(tracker) && Abs() == INITIAL && told == []
    {
      tracker := new LockoutTracker();
      isLockoutTimerStarted, isLockoutTimerAborted := false, false;
      pending, due, told := 0, 0, [];
    }

    method CheckSensorLockout(now: int, elapsed: bool) returns (locked: bool)
      modifies this, tracker
      ensures Abs() == Checked(old(Abs()), now, elapsed).next
      ensures told == old(told) + Checked(old(Abs()), now, elapsed).notes
      ensures locked <==> tracker.currentMode != NoLockout
    {
      var mode := tracker.GetMode(elapsed);
      if mode == Permanent {
        told := told + [LockedForGood];
        isLockoutTimerAborted := true;
        return true;
      }
      if mode == Timed {
        var timeLeft := tracker.GetLockoutTimeLeft(now);
        told := told + [TimedFor(timeLeft)];
        if !isLockoutTimerStarted {
          StartLockoutTimer(now, timeLeft);
        }
        return true;
      }
      return false;
    }

    method StartLockoutTimer(ghost now: int, timeout: int)
      modifies `isLockoutTimerStarted, `pending, `due
      ensures isLockoutTimerStarted && pending == old(pending) + 1 && due == Due(now, timeout)
    {
      pending := pending + 1;
      due := Due(now, timeout);
      isLockoutTimerStarted := true;
    }

    method ClearLockout(clearAttemptCounter: bool)
      modifies this, tracker
      ensures Abs() == Unlocked(if clearAttemptCounter then old(Abs()).(failed := 0) else old(Abs()))
      ensures told == old(told) + [Cleared]
    {
      tracker.Reset(clearAttemptCounter);
      told := told + [Cleared];
    }

    method LockoutTimerExpired(ghost now: int)
      requires pending > 0
      modifies this, tracker
      ensures Abs() == Step(old(Abs()), TimerExpires(now)).next
      ensures told == old(told) + Step(old(Abs()), TimerExpires(now)).notes
    {
      if !isLockoutTimerAborted {
        ClearLockout(false);
      }
      isLockoutTimerStarted := false;
      isLockoutTimerAborted := false;
      pending := pending - 1;
    }

    method ResetLockout()
      modifies this, tracker
      ensures Abs() == Step(old(Abs()), Event.ResetLockout).next
      ensures told == old(told) + Step(old(Abs()), Event.ResetLockout).notes
    {
      ClearLockout(true);
      if isLockoutTimerStarted {
        isLockoutTimerAborted := true;
      }
    }

    method NotifyAuthenticated(fid: nat, now: int, elapsed: bool)
      modifies this, tracker
      ensures var e := if fid != 0 then Succeed else Fail(now, elapsed);
        Abs() == Step(old(Abs()), e).next && told == old(told) + Step(old(Abs()), e).notes
    {
      if fid != 0 {
        tracker.Reset(true);
      } else {
        tracker.AddFailedAttempt(now);
        var _ := CheckSensorLockout(now, elapsed);
      }
    }

    method StartAuthentication(now: int, elapsed: bool)
      modifies this, tracker
      ensures Abs() == Step(old(Abs()), Authenticate(now, elapsed)).next
      ensures told == old(told) + Step(old(Abs()), Authenticate(now, elapsed)).notes
    {
      var _ := CheckSensorLockout(now, elapsed);
    }
  }
}
