/**
 * Schedule timing of the workspace engine: the drift-free next fire time.
 *
 * Stored times are whole epoch seconds. The clock has a finer resolution, so
 * the arithmetic runs in ticks; storing a time truncates it to a second.
 */
module ScheduleTiming {

  const TICKS_PER_SECOND := 1_000_000
  const SECONDS_PER_MINUTE := 60

  /** The whole-second timestamp that is stored for a point in time. */
  function FormatUtc(ticks: int): (stamp: int)
    ensures stamp * TICKS_PER_SECOND <= ticks < (stamp + 1) * TICKS_PER_SECOND
  {
    ticks / TICKS_PER_SECOND
  }

  function ParseUtc(stamp: int): int {
    stamp * TICKS_PER_SECOND
  }

  /** The period of a schedule in seconds. */
  function Period(everyMinutes: nat): int {
    everyMinutes * SECONDS_PER_MINUTE
  }

  /** The first point `due + k * period` strictly after `now`, and never `due` itself. All in ticks. */
  function ScheduleNextRun(due: int, everyMinutes: nat, now: int): int
    requires everyMinutes > 0
  {
    var period := ParseUtc(Period(everyMinutes));
    if now < due then
      due + period
    else
      due + ((now - due) / period + 1) * period
  }

  /**
   * The next fire time of a recurring schedule as it is stored. A stored due
   * time of zero is falsy where the program reads it back, so the clock
   * stands in for it.
   */
  function StoredNextRun(due: int, everyMinutes: nat, now: int): int
    requires everyMinutes > 0
  {
    FormatUtc(ScheduleNextRun(if due == 0 then now else ParseUtc(due), everyMinutes, now))
  }

  /** `t` lies a whole number of periods away from `anchor`. All in seconds. */
  predicate OnGrid(anchor: int, everyMinutes: nat, t: int)
    requires everyMinutes > 0
  {
    (t - anchor) % Period(everyMinutes) == 0
  }

  /** The next fire time is later than the clock and the due time, by at most one period. */
  lemma NextRunWindow(due: int, everyMinutes: nat, now: int)
    requires everyMinutes > 0
    ensures now < ScheduleNextRun(due, everyMinutes, now)
    ensures due < ScheduleNextRun(due, everyMinutes, now)
    ensures ScheduleNextRun(due, everyMinutes, now) <= (if due < now then now else due) + ParseUtc(Period(everyMinutes))
  {
    var period := ParseUtc(Period(everyMinutes));
    if due <= now {
      var k, r := (now - due) / period, (now - due) % period;
      assert now - due == k * period + r;
      assert (k + 1) * period == k * period + period;
      assert k * period >= 0;
    }
  }

  /** From a whole-second due time the next fire time is a whole number of periods later. */
  lemma NextRunSteps(due: int, everyMinutes: nat, now: int) returns (steps: nat)
    requires everyMinutes > 0
    ensures steps > 0
    ensures ScheduleNextRun(ParseUtc(due), everyMinutes, now) == ParseUtc(due + steps * Period(everyMinutes))
  {
    var period := ParseUtc(Period(everyMinutes));
    steps := if now < ParseUtc(due) then 1 else (now - ParseUtc(due)) / period + 1;
    assert steps * period == steps * Period(everyMinutes) * TICKS_PER_SECOND;
  }

  lemma GridStep(anchor: int, everyMinutes: nat, t: int, steps: int)
    requires everyMinutes > 0 && OnGrid(anchor, everyMinutes, t)
    ensures OnGrid(anchor, everyMinutes, t + steps * Period(everyMinutes))
  {
    var p := Period(everyMinutes);
    var k := (t - anchor) / p;
    assert t + steps * p - anchor == (k + steps) * p;
    RemainderIs(t + steps * p - anchor, p, k + steps, 0);
  }

  /** Quotient and remainder are determined by their defining equation. */
  lemma RemainderIs(x: int, p: int, q: int, r: int)
    requires p > 0 && 0 <= r < p && x == q * p + r
    ensures x % p == r
  {
    var q', r' := x / p, x % p;
    assert (q - q') * p == r' - r;
    if q > q' {
      ProductAtLeast(q - q', p);
    } else if q < q' {
      ProductAtLeast(q' - q, p);
    }
  }

  lemma ProductAtLeast(k: int, p: int)
    requires k > 0 && p > 0
    ensures k * p >= p
  {
    assert k * p == (k - 1) * p + p;
    assert (k - 1) * p >= 0;
  }

  /**
   * The stored next time of a recurring schedule: on the old grid, later than
   * the clock and the old due time, and at most one period past the later of the two.
   */
  lemma StoredNextRunIsDriftFree(anchor: int, due: int, everyMinutes: nat, now: int)
    requires everyMinutes > 0 && due != 0 && OnGrid(anchor, everyMinutes, due)
    ensures OnGrid(anchor, everyMinutes, StoredNextRun(due, everyMinutes, now))
    ensures now < ParseUtc(StoredNextRun(due, everyMinutes, now))
    ensures due < StoredNextRun(due, everyMinutes, now)
    ensures ParseUtc(StoredNextRun(due, everyMinutes, now))
         <= (if ParseUtc(due) < now then now else ParseUtc(due)) + ParseUtc(Period(everyMinutes))
  {
    var steps := NextRunSteps(due, everyMinutes, now);
    GridStep(anchor, everyMinutes, due, steps);
    NextRunWindow(ParseUtc(due), everyMinutes, now);
  }
}
