/**
 * A drift-free periodic timer driven by a monotonic millisecond clock.
 *
 * A timer holds the next deadline and its period. Checking it never changes
 * it; ticking it fires once when the deadline has passed and moves the
 * deadline forward by whole periods, past the current time, so that the
 * deadlines stay on the grid set up by the first deadline however many
 * periods were missed.
 *
 * The clock is not read here: every operation takes the current time `now`
 * (milliseconds) as a parameter, and millis/micros are the conversions of a
 * (seconds, nanoseconds) reading.
 */
module SimpleTimer {

  // ---------------------------------------------------------------------
  // Clock conversions.

  /** millis(): whole milliseconds of a (tv_sec, tv_nsec) reading. */
  function Millis(sec: nat, nsec: nat): (m: nat)
    ensures m * 1000000 <= sec * 1000000000 + nsec < (m + 1) * 1000000
  {
    sec * 1000 + nsec / 1000000
  }

  /** micros(): whole microseconds of a (tv_sec, tv_nsec) reading. */
  function Micros(sec: nat, nsec: nat): (u: nat)
    ensures u * 1000 <= sec * 1000000000 + nsec < (u + 1) * 1000
  {
    sec * 1000000 + nsec / 1000
  }

  /** Truncating division by 1000 twice is truncating division by 10^6. */
  lemma DivDiv(n: nat)
    ensures n / 1000 / 1000 == n / 1000000
  {
    var q := n / 1000000;
    var r := n % 1000000;
    assert n == q * 1000000 + r && 0 <= r < 1000000;
    assert n == (q * 1000 + r / 1000) * 1000 + r % 1000;
    assert n / 1000 == q * 1000 + r / 1000;
  }

  /** The two clocks agree: a microsecond reading truncated to milliseconds
      is the millisecond reading of the same instant, so micros lies in
      [millis * 1000, millis * 1000 + 1000). */
  lemma {:induction false} MicrosMillisAgree(sec: nat, nsec: nat)
    requires nsec < 1000000000
    ensures Micros(sec, nsec) / 1000 == Millis(sec, nsec)
    ensures Millis(sec, nsec) * 1000 <= Micros(sec, nsec) < Millis(sec, nsec) * 1000 + 1000
  {
    DivDiv(nsec);
    var u := nsec / 1000;
    assert Micros(sec, nsec) == (sec * 1000) * 1000 + u;
    assert ((sec * 1000) * 1000 + u) / 1000 == sec * 1000 + u / 1000;
  }

  // ---------------------------------------------------------------------
  // The catch-up rule of timer_tick.

  /** The deadline timer_tick's loop reaches: starting from an expired
      deadline `next <= now`, add `interval` until the deadline is in the
      future. The result is on the grid next + k * interval (k >= 1), lies
      after `now`, and at most one interval after it (CatchUpIsLoopExit
      gives the grid). */
  function CatchUp(next: nat, interval: nat, now: nat): (r: nat)
    requires next <= now && interval > 0
    ensures now < r <= now + interval
    ensures r - interval <= now
    ensures r - next >= interval
  {
    var q := (now - next) / interval;
    DivBounds(now - next, interval);
    next + (q + 1) * interval
  }

  /** Quotient-remainder bounds, written out for the catch-up arithmetic. */
  lemma DivBounds(a: nat, b: nat)
    requires b > 0
    ensures (a / b) * b <= a < (a / b) * b + b
  {
  }

  /** k <= j implies k * b <= j * b. */
  lemma MulMono(k: nat, j: nat, b: nat)
    requires k <= j
    ensures k * b <= j * b
  {
  }

  /** The catch-up deadline is the least grid point after `now`: no later
      phase is chosen than necessary, and the phase is kept (no reset to
      now + interval). */
  lemma {:induction false} CatchUpLeast(next: nat, interval: nat, now: nat, k: nat)
    requires next <= now && interval > 0
    requires k >= 1 && next + k * interval > now
    ensures CatchUp(next, interval, now) <= next + k * interval
  {
    var q := (now - next) / interval;
    DivBounds(now - next, interval);
    if k <= q {
      MulMono(k, q, interval);
      assert false;
    }
    MulMono(q + 1, k, interval);
  }

  /** The grid point after `now` whose predecessor is not after `now` is the
      catch-up deadline: it is unique. */
  lemma {:induction false} CatchUpUnique(next: nat, interval: nat, now: nat, k: nat)
    requires next <= now && interval > 0 && k >= 1
    requires next + (k - 1) * interval <= now < next + k * interval
    ensures CatchUp(next, interval, now) == next + k * interval
  {
    var q := (now - next) / interval;
    DivBounds(now - next, interval);
    if k <= q {
      MulMono(k, q, interval);
      assert false;
    }
    if k > q + 1 {
      MulMono(q + 1, k - 1, interval);
      assert false;
    }
    assert k == q + 1;
  }

  /** The missed-intervals rule: a 10 ms timer set at time t is next due at
      t + 10, and a tick at t + 55 (five deadlines missed) moves it to
      t + 60, the next point of its grid. */
  lemma MissedIntervalsCollapse(t: nat)
    ensures CatchUp(t + 10, 10, t + 55) == t + 60
  {
    CatchUpUnique(t + 10, 10, t + 55, 5);
  }

  // ---------------------------------------------------------------------
  // timer_tick's loop at interval 0.

  /** The deadline after `k` passes through timer_tick's loop body. */
  function AfterPasses(next: nat, interval: nat, k: nat): nat {
    if k == 0 then next else AfterPasses(next, interval, k - 1) + interval
  }

  /** After k passes the deadline is next + k * interval. */
  lemma {:induction false} AfterPassesGrid(next: nat, interval: nat, k: nat)
    ensures AfterPasses(next, interval, k) == next + k * interval
  {
    if k > 0 {
      AfterPassesGrid(next, interval, k - 1);
      assert next + (k - 1) * interval + interval == next + k * interval;
    }
  }

  /** With interval 0 the loop guard `next_expiry <= now` still holds after
      every number of passes: timer_tick on an expired zero-interval timer
      never returns. */
  lemma {:induction false} ZeroIntervalLoopNeverExits(next: nat, now: nat, k: nat)
    requires next <= now
    ensures AfterPasses(next, 0, k) == next
    ensures AfterPasses(next, 0, k) <= now
  {
    if k > 0 {
      ZeroIntervalLoopNeverExits(next, now, k - 1);
    }
  }

  /** The catch-up deadline is exactly where timer_tick's loop stops: the
      deadline after k >= 1 passes, for the k at which the deadline before
      the last pass was not yet after `now`. */
  lemma {:induction false} CatchUpIsLoopExit(next: nat, interval: nat, now: nat)
    requires next <= now && interval > 0
    ensures exists k: nat :: k >= 1 && CatchUp(next, interval, now) == AfterPasses(next, interval, k)
                              && AfterPasses(next, interval, k - 1) <= now
  {
    var q := (now - next) / interval;
    DivBounds(now - next, interval);
    AfterPassesGrid(next, interval, q + 1);
    AfterPassesGrid(next, interval, q);
    assert AfterPasses(next, interval, q + 1 - 1) <= now;
  }

  // ---------------------------------------------------------------------

  /** simple_timer_t: the next deadline and the period, in milliseconds. */
  class Timer {
    var nextExpiry: nat
    var interval: nat

    /** A zero-initialised timer (simple_timer_t t = {0}). */
    constructor ()
      ensures nextExpiry == 0 && interval == 0
    {
      nextExpiry := 0;
      interval := 0;
    }

    /** timer_expired at time `now`: reads the timer and changes nothing,
        so it keeps answering the same until time passes or the timer is
        ticked or set. */
    predicate Expired(now: nat)
      reads this
    {
      now >= nextExpiry
    }

    /** timer_set(t, iv) at time `now`. A zero period makes the timer
        expired at once; a positive one makes it expire exactly iv
        milliseconds later. */
    method Set(now: nat, iv: nat)
      modifies this
      ensures interval == iv && nextExpiry == now + iv
      ensures Expired(now) <==> iv == 0
      ensures forall later: nat :: Expired(later) <==> later >= now + iv
    {
      interval := iv;
      nextExpiry := now + iv;
    }

    /**
     * timer_tick at time `now`, as written: its catch-up loop terminates
     * only for a positive period, so an expired timer must have one.
     * It fires exactly when the timer is expired; then the new deadline is
     * the catch-up grid point, after `now`, and a second tick at the same
     * time does not fire. Otherwise nothing changes.
     */
    method Tick(now: nat) returns (fired: bool)
      requires Expired(now) ==> interval > 0
      modifies this
      ensures interval == old(interval)
      ensures fired == old(Expired(now))
      ensures fired ==> nextExpiry == CatchUp(old(nextExpiry), interval, now) && !Expired(now)
      ensures !fired ==> nextExpiry == old(nextExpiry)
    {
      if now >= nextExpiry {
        ghost var k: nat := 0;
        while nextExpiry <= now
          invariant nextExpiry == old(nextExpiry) + k * interval
          invariant k >= 1 ==> nextExpiry - interval <= now
          invariant k == 0 ==> nextExpiry == old(nextExpiry)
          invariant interval == old(interval) && interval > 0
          decreases now + 1 - nextExpiry
        {
          nextExpiry := nextExpiry + interval;
          k := k + 1;
        }
        CatchUpUnique(old(nextExpiry), interval, now, k);
        return true;
      }
      return false;
    }

    /**
     * timer_tick with the zero-period guard applied first: a timer of
     * period 0 always fires and never moves its deadline. It needs no
     * precondition and always returns; with a positive period it behaves
     * as Tick.
     */
    method TickGuarded(now: nat) returns (fired: bool)
      modifies this
      ensures interval == old(interval)
      ensures interval == 0 ==> fired && nextExpiry == old(nextExpiry)
      ensures interval > 0 ==> fired == old(Expired(now))
      ensures interval > 0 && fired ==> nextExpiry == CatchUp(old(nextExpiry), interval, now) && !Expired(now)
      ensures interval > 0 && !fired ==> nextExpiry == old(nextExpiry)
    {
      if interval == 0 {
        return true;
      }
      fired := Tick(now);
    }
  }

  /** The missed-intervals scenario run through the timer: set a 10 ms
      timer at time t, then tick twice at t + 55. The first tick fires once
      for all five missed deadlines and moves the deadline to t + 60; the
      second does not fire. */
  method MissedIntervalsScenario(t: nat) returns (first: bool, second: bool, deadline: nat)
    ensures first && !second && deadline == t + 60
  {
    var tm := new Timer();
    tm.Set(t, 10);
    first := tm.Tick(t + 55);
    MissedIntervalsCollapse(t);
    second := tm.Tick(t + 55);
    deadline := tm.nextExpiry;
  }
}
