/** When a fix was made, told in time since boot: the estimator that follows the clocks of
    the modem and of the application processor. */
module Estimator {
  import opened Wrappers

  datatype Clock = Clock(utc: int, boot: int)

  /** clock is None when reading it fails. */
  datatype Call =
    | Fix(data: int, trusted: bool, tbf: int, clock: Option<Clock>)
    | Reset

  const STABILIZATION: int := 5

  class ElapsedRealtimeEstimator {
    var currentClockDiff: int
    var prevUtcTimeNanos: int
    var prevBootTimeNanos: int
    var fixTimeStablizationThreshold: int
    const initialTravelTime: int
    var prevDataTimeNanos: int

    ghost function Abs(): State
      reads this
    {
      State(currentClockDiff, prevUtcTimeNanos, prevBootTimeNanos, fixTimeStablizationThreshold, prevDataTimeNanos)
    }

    constructor (travelTimeNanosEstimate: int)
      ensures Abs() == INITIAL && initialTravelTime == travelTimeNanosEstimate
    {
      initialTravelTime := travelTimeNanosEstimate;
      new;
      ResetState();
    }

    method ResetState()
      modifies this
      ensures Abs() == Step(old(Abs()), Reset, initialTravelTime).next
    {
      currentClockDiff := 0;
      prevDataTimeNanos := 0;
      prevUtcTimeNanos := 0;
      prevBootTimeNanos := 0;
      fixTimeStablizationThreshold := STABILIZATION;
    }

    method GetElapsedRealtimeEstimateNanos(data: int, trusted: bool, tbf: int, clock: Option<Clock>) returns (r: int)
      modifies this
      ensures Abs() == Step(old(Abs()), Fix(data, trusted, tbf, clock), initialTravelTime).next
      ensures r == Step(old(Abs()), Fix(data, trusted, tbf, clock), initialTravelTime).result
    {
      var currentTravelTimeNanos := initialTravelTime;
      if clock.None? {
        return -1;
      }
      var utc, boot := clock.value.utc, clock.value.boot;
      if trusted {
        if tbf > 0 && tbf != data - prevDataTimeNanos {
          fixTimeStablizationThreshold := STABILIZATION;
        }
        if fixTimeStablizationThreshold == 0 {
          currentTravelTimeNanos := initialTravelTime;
          currentClockDiff := utc - data - currentTravelTimeNanos;
        } else if fixTimeStablizationThreshold < 0 {
          currentClockDiff := currentClockDiff + (utc - boot) - (prevUtcTimeNanos - prevBootTimeNanos);
          currentTravelTimeNanos := utc - data - currentClockDiff;
        }
        prevUtcTimeNanos := utc;
        prevBootTimeNanos := boot;
        prevDataTimeNanos := data;
        fixTimeStablizationThreshold := fixTimeStablizationThreshold - 1;
      }
      return boot - currentTravelTimeNanos;
    }
  }

  // ------------------------------------------------------------------ the transition

  datatype State = State(diff: int, prevUtc: int, prevBoot: int, threshold: int, prevData: int)

  datatype Transition = Transition(next: State, result: int)

  const INITIAL := State(0, 0, 0, STABILIZATION, 0)

  function Step(s: State, c: Call, initial: int): Transition {
    match c
    case Reset => Transition(INITIAL, 0)
    case Fix(data, trusted, tbf, clock) =>
      match clock
      case None => Transition(s, -1)
      case Some(now) =>
        if !trusted then Transition(s, now.boot - initial)
        else
          var threshold := if tbf > 0 && tbf != data - s.prevData then STABILIZATION else s.threshold;
          var diff :=
            if threshold == 0 then now.utc - data - initial
            else if threshold < 0 then s.diff + (now.utc - now.boot) - (s.prevUtc - s.prevBoot)
            else s.diff;
          var travel := if threshold < 0 then now.utc - data - diff else initial;
          Transition(State(diff, now.utc, now.boot, threshold - 1, data), now.boot - travel)
  }

  function At(run: seq<Call>, n: nat, initial: int): State
    requires n <= |run|
  {
    if n == 0 then INITIAL else Step(At(run, n - 1, initial), run[n - 1], initial).next
  }

  // ------------------------------------------------------------------ what a run means

  /** A fix that the estimator takes into account. */
  predicate Usable(c: Call) {
    c.Fix? && c.trusted && c.clock.Some?
  }

  /** The time of the last usable fix among the first n calls, 0 before there is one. */
  function LastData(run: seq<Call>, n: nat): int
    requires n <= |run|
  {
    if n == 0 || run[n - 1].Reset? then 0
    else if Usable(run[n - 1]) then run[n - 1].data
    else LastData(run, n - 1)
  }

  /** The fix does not come one interval after the last one. */
  predicate Jumps(run: seq<Call>, n: nat)
    requires n < |run|
  {
    Usable(run[n]) && run[n].tbf > 0 && run[n].tbf != run[n].data - LastData(run, n)
  }

  /** How many usable fixes there have been since the last jump, which is one, or reset. */
  function Steady(run: seq<Call>, n: nat): nat
    requires n <= |run|
  {
    if n == 0 || run[n - 1].Reset? then 0
    else if !Usable(run[n - 1]) then Steady(run, n - 1)
    else if Jumps(run, n - 1) then 1
    else Steady(run, n - 1) + 1
  }

  /** The fix the clocks were last calibrated at: the sixth of a steady row. */
  function Anchor(run: seq<Call>, n: nat): nat
    requires n <= |run|
  {
    if n == 0 then 0
    else if Usable(run[n - 1]) && Steady(run, n) == 6 then n - 1
    else Anchor(run, n - 1)
  }

  /** Where the clocks are calibrated: at a usable fix, since which there has been no jump
      and no reset. */
  lemma {:induction false} AnchorIsSixth(run: seq<Call>, n: nat)
    requires n <= |run| && Steady(run, n) >= 6
    ensures var k := Anchor(run, n);
      && k < n && Usable(run[k]) && Steady(run, k + 1) == 6
      && forall i :: k < i < n ==> !run[i].Reset? && !Jumps(run, i)
  {
    if !(Usable(run[n - 1]) && Steady(run, n) == 6) {
      AnchorIsSixth(run, n - 1);
    }
  }

  /** Conversely, any sixth fix with no jump and no reset since is where they are. */
  lemma {:induction false} SixthIsAnchor(run: seq<Call>, k: nat, n: nat)
    requires k < n <= |run| && Usable(run[k]) && Steady(run, k + 1) == 6
    requires forall i :: k < i < n ==> !run[i].Reset? && !Jumps(run, i)
    ensures Anchor(run, n) == k && Steady(run, n) >= 6
    ensures n > k + 1 && Usable(run[n - 1]) ==> Steady(run, n) > 6
  {
    if n > k + 1 {
      SixthIsAnchor(run, k, n - 1);
    }
  }

  /** What the fields stand for after any calls: the differences of the clocks cancel, so
      that what remains is the calibration. */
  lemma {:induction false} FieldsMean(run: seq<Call>, n: nat, initial: int)
    requires n <= |run|
    ensures var s := At(run, n, initial);
      && s.threshold == STABILIZATION - Steady(run, n)
      && s.prevData == LastData(run, n)
      && (Steady(run, n) >= 6 ==>
            Anchor(run, n) < n && Usable(run[Anchor(run, n)])
            && s.diff - (s.prevUtc - s.prevBoot) == Calibration(run[Anchor(run, n)], initial))
  {
    if n > 0 {
      FieldsMean(run, n - 1, initial);
    }
  }

  /** Until the sixth of a steady row the difference of the clocks stays what it was. */
  lemma DifferenceWaits(run: seq<Call>, n: nat, initial: int)
    requires n < |run| && run[n].Fix? && (Steady(run, n + 1) < 6 || !Usable(run[n]))
    ensures At(run, n + 1, initial).diff == At(run, n, initial).diff
  {
    FieldsMean(run, n, initial);
    FieldsMean(run, n + 1, initial);
  }

  /** Time since boot less modem time, at a fix. */
  function Calibration(fix: Call, initial: int): int
    requires Usable(fix)
  {
    fix.clock.value.boot - initial - fix.data
  }

  /** What every fix of every run returns: on a usable fix after the sixth of a steady row,
      the calibration carried over by the modem's own time, whatever the other clock and
      the calls in between did. */
  lemma EveryResult(run: seq<Call>, n: nat, initial: int)
    requires n < |run| && run[n].Fix?
    ensures var r := Step(At(run, n, initial), run[n], initial).result;
      && (run[n].clock.None? ==> r == -1)
      && (run[n].clock.Some? && !(Usable(run[n]) && Steady(run, n + 1) > 6) ==> r == run[n].clock.value.boot - initial)
      && (Usable(run[n]) && Steady(run, n + 1) > 6 ==>
            var k := Anchor(run, n + 1);
            && k < n && Usable(run[k]) && Steady(run, k + 1) == 6
            && r == run[k].clock.value.boot - initial + (run[n].data - run[k].data))
  {
    FieldsMean(run, n, initial);
    FieldsMean(run, n + 1, initial);
    if Steady(run, n + 1) >= 6 {
      AnchorIsSixth(run, n + 1);
    }
  }
}
