// The backoff between starts, in the source's 64-bit arithmetic.
module Timing {
  import opened Sections
  import opened Basics
  import opened Specs

  // The last attempt whose gap in nanoseconds fits int64.
  const LAST_EXACT := 9_223_372_036

  // Wrapping changes nothing that fits.
  lemma WrapFits(x: int)
    requires -TWO64 / 2 <= x < TWO64 / 2
    ensures Wrap64(x) == x
  {
  }

  lemma GapExact(n: int)
    requires 1 <= n <= LAST_EXACT
    ensures Gap(n) == (if n < BACKOFF_MAX_SECONDS then n * SECOND else BACKOFF_MAX)
  {
    WrapFits(n * BACKOFF_SECONDS);
    WrapFits(n * SECOND);
  }

  // Gaps never shrink, start at one second and are capped at sixty.
  lemma GapMonotone(m: int, n: int)
    requires 1 <= m <= n <= LAST_EXACT
    ensures SECOND <= Gap(m) <= Gap(n) <= BACKOFF_MAX
  {
    GapExact(m);
    GapExact(n);
  }

  // The multiplication wraps one attempt later: that attempt is due in the past.
  lemma GapWraps()
    ensures Gap(LAST_EXACT + 1) < 0
  {
    assert Wrap64((LAST_EXACT + 1) * SECOND) == (LAST_EXACT + 1) * SECOND - TWO64;
  }

  // The bound on the gaps holds up to an attempt exactly when that attempt fits.
  lemma GapsBoundedUpTo(n: int)
    requires n >= 1
    ensures (forall m :: 1 <= m <= n ==> SECOND <= Gap(m) <= BACKOFF_MAX) <==> n <= LAST_EXACT
  {
    if n <= LAST_EXACT {
      forall m | 1 <= m <= n ensures SECOND <= Gap(m) <= BACKOFF_MAX { GapMonotone(m, n); }
    } else {
      GapWraps();
    }
  }

  // An exit that is restarted is never restarted at once: its next attempt is at least a
  // second away, up to the tally whose gap wraps.
  lemma AnExitIsNeverRestartedAtOnce(m: Mem, x: Ctx, t: Tracking)
    requires x.c.Some? && 0 <= t.startAttempts && 0 <= t.restarts < LAST_EXACT
    ensures var sec := JudgeExit(m, x, t);
            && sec.ctl.Over?
            && (sec.track.phase == Backoff ==>
               x.now + SECOND <= sec.track.nextAttempt == sec.ctl.due <= x.now + BACKOFF_MAX)
  {
    var (u, n) := Tallied(x, t);
    if u.phase == Backoff {
      assert 1 <= n <= LAST_EXACT;
      GapMonotone(n, n);
    }
  }
}
