/**
 * The position tracker and the end-of-track monitor: elapsed time as the
 * larger of a wall-clock estimate and the engine's own position, the seek
 * that re-bases the clock, the auto-advance guard, and the `m:ss / m:ss`
 * progress text.
 */
module Position {
  import opened Wrappers
  import opened Text

  /** Seconds since the recorded start time, plus the accumulated offset. */
  function WallEstimate(now: real, start: real, offset: real): real
  {
    (now - start) + offset
  }

  /** The engine's `get_pos()` in milliseconds, as seconds. */
  function EngineSeconds(posMs: int): real
  {
    posMs as real / 1000.0
  }

  /** `max(computed_elapsed, get_elapsed)`. */
  function Elapsed(now: real, start: real, offset: real, posMs: int): (e: real)
    ensures e >= WallEstimate(now, start, offset) && e >= EngineSeconds(posMs)
    ensures e == WallEstimate(now, start, offset) || e == EngineSeconds(posMs)
  {
    var computed, reported := WallEstimate(now, start, offset), EngineSeconds(posMs);
    if computed >= reported then computed else reported
  }

  /** A seek to `pos` at time `now` records this start time (and a zero offset). */
  function SeekStart(now: real, pos: real): real
  {
    now - pos
  }

  /**
   * Right after a seek the wall estimate is the seek target, and it then runs
   * with the clock, so elapsed is never below the target from then on.
   */
  lemma SeekRebases(now: real, pos: real, later: real)
    ensures WallEstimate(now, SeekStart(now, pos), 0.0) == pos
    ensures WallEstimate(later, SeekStart(now, pos), 0.0) == pos + (later - now)
    ensures forall posMs :: Elapsed(now, SeekStart(now, pos), 0.0, posMs) >= pos
    ensures later >= now ==> forall posMs :: Elapsed(later, SeekStart(now, pos), 0.0, posMs) >= pos
  {
  }

  /**
   * The guard of `monitor_playback`: a known (non-zero) duration, a recorded
   * start time, elapsed within one second of the end, and an idle engine.
   */
  predicate ShouldAdvance(duration: nat, start: Option<real>, offset: real, now: real, busy: bool, posMs: int)
  {
    && duration != 0
    && start.Some?
    && Elapsed(now, start.value, offset, posMs) >= duration as real - 1.0
    && !busy
  }

  /** A track of unknown (zero) duration never auto-advances. */
  lemma ZeroDurationNeverAdvances(start: Option<real>, offset: real, now: real, busy: bool, posMs: int)
    ensures !ShouldAdvance(0, start, offset, now, busy, posMs)
  {
  }

  /** Nothing advances while the engine reports it is still playing. */
  lemma BusyNeverAdvances(duration: nat, start: Option<real>, offset: real, now: real, posMs: int)
    ensures !ShouldAdvance(duration, start, offset, now, true, posMs)
  {
  }

  /**
   * Just after a track starts, an idle engine (a transient stall) does not
   * trigger an advance as long as neither clock is within a second of the end.
   */
  lemma NoAdvanceRightAfterStart(duration: nat, started: real, now: real, posMs: int)
    requires now - started < duration as real - 1.0
    requires EngineSeconds(posMs) < duration as real - 1.0
    ensures !ShouldAdvance(duration, Some(started), 0.0, now, false, posMs)
  {
  }

  /**
   * Once armed, the guard stays armed as the clock runs, while the engine
   * stays idle and its reported position does not go back.
   */
  lemma AdvanceStaysArmed(duration: nat, start: Option<real>, offset: real, now: real, later: real,
                          posMs: int, laterPosMs: int)
    requires ShouldAdvance(duration, start, offset, now, false, posMs)
    requires later >= now && laterPosMs >= posMs
    ensures ShouldAdvance(duration, start, offset, later, false, laterPosMs)
  {
  }

  // ---------------------------------------------------------- progress text

  /** Python's `int(x)` on a float: truncation toward zero. */
  function Trunc(x: real): (r: int)
    ensures x >= 0.0 ==> r >= 0 && r as real <= x < r as real + 1.0
    ensures x < 0.0 ==> r <= 0 && r as real - 1.0 < x <= r as real
  {
    if x >= 0.0 then x.Floor else -((-x).Floor)
  }

  /** `f"{s:02d}"` for `0 <= s < 100`. */
  function TwoDigits(s: nat): (r: string)
    requires s < 100
    ensures |r| == 2 && IsDigit(r[0]) && IsDigit(r[1])
    ensures DigitValue(r[0]) * 10 + DigitValue(r[1]) == s
  {
    [DigitChar(s / 10), DigitChar(s % 10)]
  }

  /** `f"{t//60}:{t%60:02d}"` with Python's floor division and modulo. */
  function Clock(t: int): string
  {
    IntToText(t / 60) + ":" + TwoDigits(t % 60)
  }

  /** The text of the progress label. */
  function ProgressText(elapsed: real, duration: nat): string
  {
    Clock(Trunc(elapsed)) + " / " + Clock(duration)
  }

  /** Reads `m:ss` back as a number of seconds. */
  function ParseClock(s: string): Option<int>
  {
    if |s| < 4 || s[|s| - 3] != ':' || !IsDigit(s[|s| - 2]) || !IsDigit(s[|s| - 1]) then None
    else match ParseInt(s[..|s| - 3])
      case None => None
      case Some(m) => Some(m * 60 + DigitValue(s[|s| - 2]) * 10 + DigitValue(s[|s| - 1]))
  }

  /** The seconds field of a clock is two digits below 60. */
  lemma ClockShape(t: int)
    ensures var c := Clock(t);
      |c| >= 4 && c[|c| - 3] == ':' && DigitValue(c[|c| - 2]) * 10 + DigitValue(c[|c| - 1]) < 60
  {
    var c := Clock(t);
    assert c[|c| - 2..] == TwoDigits(t % 60);
  }

  /** The clock text denotes exactly the number of seconds it was made from. */
  lemma ClockRoundTrip(t: int)
    ensures ParseClock(Clock(t)) == Some(t)
  {
    var c := Clock(t);
    var m := IntToText(t / 60);
    assert c[..|c| - 3] == m;
    assert c[|c| - 2..] == TwoDigits(t % 60);
    ParseIntToText(t / 60);
  }

  lemma ClockHasNoSpace(t: int)
    ensures ' ' !in Clock(t)
  {
    var m := t / 60;
    if m < 0 {
      assert IntToText(m) == "-" + NatToText(-m);
    }
  }

  /** Position of the first blank in `s`. */
  function FirstBlank(s: string): (r: Option<nat>)
    ensures r.Some? ==> r.value < |s| && s[r.value] == ' ' && ' ' !in s[..r.value]
    ensures r.None? ==> ' ' !in s
    decreases |s|
  {
    if s == [] then None
    else if s[0] == ' ' then Some(0)
    else match FirstBlank(s[1..])
      case None => None
      case Some(k) =>
        assert s[..k + 1] == [s[0]] + s[1..][..k];
        Some(k + 1)
  }

  /** Splits a progress label at the first blank and reads both clocks. */
  function ParseProgress(s: string): Option<(int, int)>
  {
    match FirstBlank(s)
    case None => None
    case Some(k) =>
      if k + 3 > |s| || s[k..k + 3] != " / " then None
      else match (ParseClock(s[..k]), ParseClock(s[k + 3..]))
        case (Some(a), Some(b)) => Some((a, b))
        case _ => None
  }

  /** The progress label shows the truncated elapsed seconds and the duration. */
  lemma ProgressTextRoundTrip(elapsed: real, duration: nat)
    ensures ParseProgress(ProgressText(elapsed, duration)) == Some((Trunc(elapsed), duration))
  {
    var a, b := Clock(Trunc(elapsed)), Clock(duration);
    var s := ProgressText(elapsed, duration);
    ClockHasNoSpace(Trunc(elapsed));
    assert s[|a|] == ' ';
    assert s[..|a|] == a;
    var k := FirstBlank(s).value;
    assert k == |a|;
    assert s[k + 3..] == b;
    ClockRoundTrip(Trunc(elapsed));
    ClockRoundTrip(duration);
  }
}
