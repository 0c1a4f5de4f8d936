/** The wave load shape shared by both load-test scripts: a ramp from zero
    users up to a peak, an optional hold at the peak, a ramp back down, and
    then a signal to stop the run.  Each script's `tick` is an instance of
    `Tick` below with its own constants. */
module WaveShape {

  /** What a tick tells the load-test framework: a target number of
      concurrent users with the rate at which to spawn them, or stop. */
  datatype Shape = Target(users: int, rate: int) | Stop

  /** The configuration of one wave. Durations are in seconds. */
  datatype Schedule = Schedule(maxUsers: int, rampUp: real, hold: real, rampDown: real, spawnRate: int)
  {
    predicate Valid() {
      maxUsers >= 0 && rampUp >= 0.0 && hold >= 0.0 && rampDown >= 0.0 && spawnRate > 0
    }

    /** Elapsed time at which the ramp-down ends. */
    function End(): real {
      rampUp + hold + rampDown
    }
  }

  function Max(a: int, b: int): (m: int)
    ensures m >= a && m >= b && (m == a || m == b)
  {
    if a >= b then a else b
  }

  /** Python's `int(x)` on a float: truncation toward zero. */
  function Trunc(x: real): (r: int)
    ensures 0.0 <= x ==> 0 <= r && r as real <= x < r as real + 1.0
    ensures x < 0.0 ==> r <= 0 && x <= r as real < x + 1.0
  {
    if x >= 0.0 then x.Floor else -((-x).Floor)
  }

  /** The load shape at elapsed run time `t`, with the phases tested in the
      order the scripts test them. */
  function Tick(s: Schedule, t: real): (r: Shape)
    requires t >= 0.0
  {
    if t < s.rampUp then
      Target(Trunc(s.maxUsers as real * (t / s.rampUp)), s.spawnRate)
    else if t < s.rampUp + s.hold then
      Target(s.maxUsers, s.spawnRate)
    else if t < s.rampUp + s.hold + s.rampDown then
      var timeInRamp := t - (s.rampUp + s.hold);
      var progress := timeInRamp / s.rampDown;
      Target(Max(Trunc(s.maxUsers as real * (1.0 - progress)), 0), s.spawnRate)
    else
      Stop
  }

  // ----- arithmetic helpers -----

  lemma ScaleMonotone(m: real, a: real, b: real)
    requires 0.0 <= m && a <= b
    ensures m * a <= m * b
  {
    assert m * b - m * a == m * (b - a);
  }

  lemma DivMonotone(a: real, b: real, d: real)
    requires 0.0 < d && a <= b
    ensures a / d <= b / d
  {
    assert (b - a) / d * d == b - a;
  }

  lemma OneMinusFraction(x: real, d: real)
    requires 0.0 < d
    ensures 1.0 - x / d == (d - x) / d
  {
    var a, b := 1.0 - x / d, (d - x) / d;
    assert x / d * d == x;
    assert a * d == d - x;
    assert b * d == d - x;
    assert (a - b) * d == 0.0;
    assert a - b == (a - b) * d / d;
  }

  lemma FloorMonotone(x: real, y: real)
    requires x <= y
    ensures x.Floor <= y.Floor
  {
  }

  /** A part of a positive whole is a fraction in [0, 1], and 1 only for the
      whole itself. */
  lemma FractionOfWhole(r: real, d: real)
    requires 0.0 <= r <= d && 0.0 < d
    ensures 0.0 <= r / d <= 1.0
    ensures r < d ==> r / d < 1.0
    ensures r == d ==> r / d == 1.0
  {
    assert r / d * d == r;
  }

  /** Scaling a positive whole by a fraction below 1 gives less than the whole. */
  lemma ScaleBelow(m: real, q: real)
    requires 0.0 < m && q < 1.0
    ensures m * q < m
  {
    assert m - m * q == m * (1.0 - q);
  }

  /** `m * (t / d)` is the fraction t/d of m. */
  lemma FractionBelowWhole(m: real, t: real, d: real)
    requires 0.0 <= m && 0.0 <= t < d
    ensures 0.0 <= m * (t / d) <= m
    ensures 0.0 < m ==> m * (t / d) < m
  {
    var q := t / d;
    FractionOfWhole(t, d);
    ScaleMonotone(m, 0.0, q);
    ScaleMonotone(m, q, 1.0);
    if 0.0 < m {
      ScaleBelow(m, q);
    }
  }

  // ----- phases -----

  /** The run stops exactly when the whole schedule has elapsed; before that
      every tick is a target. The phase tests thus partition t >= 0. */
  lemma StopsExactlyAtEnd(s: Schedule, t: real)
    requires s.Valid() && t >= 0.0
    ensures Tick(s, t).Stop? <==> t >= s.End()
    ensures Tick(s, t).Target? <==> t < s.End()
  {
  }

  /** During ramp-up the target is floor(maxUsers * t / rampUp), it starts at
      zero, and it stays below the peak (when the peak is not zero). */
  lemma RampUp(s: Schedule, t: real)
    requires s.Valid() && 0.0 <= t < s.rampUp
    ensures Tick(s, t) == Target((s.maxUsers as real * t / s.rampUp).Floor, s.spawnRate)
    ensures 0 <= Tick(s, t).users <= s.maxUsers
    ensures s.maxUsers > 0 ==> Tick(s, t).users < s.maxUsers
    ensures t == 0.0 ==> Tick(s, t).users == 0
  {
    MulDiv(s.maxUsers as real, t, s.rampUp);
    FractionBelowWhole(s.maxUsers as real, t, s.rampUp);
  }

  /** The ramp-up target never decreases as time goes on. */
  lemma RampUpMonotone(s: Schedule, t1: real, t2: real)
    requires s.Valid() && 0.0 <= t1 <= t2 < s.rampUp
    ensures Tick(s, t1).users <= Tick(s, t2).users
  {
    DivMonotone(t1, t2, s.rampUp);
    ScaleMonotone(s.maxUsers as real, t1 / s.rampUp, t2 / s.rampUp);
    FractionBelowWhole(s.maxUsers as real, t1, s.rampUp);
    FloorMonotone(s.maxUsers as real * (t1 / s.rampUp), s.maxUsers as real * (t2 / s.rampUp));
  }

  /** During the hold the target is the peak. */
  lemma Hold(s: Schedule, t: real)
    requires s.Valid() && s.rampUp <= t < s.rampUp + s.hold
    ensures Tick(s, t) == Target(s.maxUsers, s.spawnRate)
  {
  }

  /** `m * (r / d)` and `m * r / d` are the same real. */
  lemma MulDiv(m: real, r: real, d: real)
    requires 0.0 < d
    ensures m * (r / d) == m * r / d
  {
    var a, b := m * (r / d), m * r / d;
    assert r / d * d == r;
    assert a * d == m * r;
    assert b * d == m * r;
    assert (a - b) * d == 0.0;
    assert a - b == (a - b) * d / d;
  }

  /** The part r / d of a whole m. */
  function Portion(m: real, r: real, d: real): real
    requires 0.0 < d
  {
    m * r / d
  }

  /** For 0 <= r <= d the portion lies in [0, m], and is all of m when r is d. */
  lemma PortionBounds(m: real, r: real, d: real)
    requires 0.0 <= m && 0.0 <= r <= d && 0.0 < d
    ensures 0.0 <= Portion(m, r, d) <= m
    ensures r == d ==> Portion(m, r, d) == m
  {
    MulDiv(m, r, d);
    var q := r / d;
    assert Portion(m, r, d) == m * q;
    FractionOfWhole(r, d);
    ScaleMonotone(m, 0.0, q);
    ScaleMonotone(m, q, 1.0);
  }

  /** A larger part of a non-negative whole is a larger portion. */
  lemma PortionMonotone(m: real, r1: real, r2: real, d: real)
    requires 0.0 <= m && r1 <= r2 && 0.0 < d
    ensures Portion(m, r1, d) <= Portion(m, r2, d)
  {
    ScaleMonotone(m, r1, r2);
    DivMonotone(m * r1, m * r2, d);
  }

  /** Scaling m by one minus the elapsed fraction of d is the portion of m
      that the time remaining is of d. */
  lemma RemainingPortion(m: real, elapsed: real, d: real)
    requires 0.0 <= m && 0.0 <= elapsed <= d && 0.0 < d
    ensures m * (1.0 - elapsed / d) == Portion(m, d - elapsed, d)
    ensures 0.0 <= Portion(m, d - elapsed, d)
  {
    OneMinusFraction(elapsed, d);
    MulDiv(m, d - elapsed, d);
    PortionBounds(m, d - elapsed, d);
  }

  /** The ramp-down share of the peak at time t: the portion of maxUsers that
      the time left until the end is of the ramp-down's length. */
  function RampDownShare(s: Schedule, t: real): real
    requires s.rampDown > 0.0
  {
    Portion(s.maxUsers as real, s.End() - t, s.rampDown)
  }

  /** During ramp-down the target is the floor of the ramp-down share; the
      truncated value is never negative, so the clamp at zero never changes
      it. */
  lemma RampDownFormula(s: Schedule, t: real)
    requires s.Valid() && s.rampUp + s.hold <= t < s.End()
    ensures Tick(s, t) == Target(RampDownShare(s, t).Floor, s.spawnRate)
    ensures Trunc(s.maxUsers as real * (1.0 - (t - (s.rampUp + s.hold)) / s.rampDown)) == Tick(s, t).users
  {
    var elapsed := t - (s.rampUp + s.hold);
    RemainingPortion(s.maxUsers as real, elapsed, s.rampDown);
    assert s.rampDown - elapsed == s.End() - t;
  }

  /** The share shrinks as time goes on. */
  lemma RampDownShareShrinks(s: Schedule, t1: real, t2: real)
    requires s.Valid() && s.rampDown > 0.0 && t1 <= t2
    ensures RampDownShare(s, t2) <= RampDownShare(s, t1)
  {
    PortionMonotone(s.maxUsers as real, s.End() - t2, s.End() - t1, s.rampDown);
  }

  /** Within the ramp-down the share lies in [0, maxUsers] and is the peak
      when the ramp-down begins. */
  lemma RampDownShareBounds(s: Schedule, t: real)
    requires s.Valid() && s.rampDown > 0.0 && s.rampUp + s.hold <= t <= s.End()
    ensures 0.0 <= RampDownShare(s, t) <= s.maxUsers as real
    ensures t == s.rampUp + s.hold ==> RampDownShare(s, t) == s.maxUsers as real
  {
    PortionBounds(s.maxUsers as real, s.End() - t, s.rampDown);
  }

  /** The ramp-down target starts at the peak and stays within [0, maxUsers],
      below the share of the peak that the time left stands for. */
  lemma RampDown(s: Schedule, t: real)
    requires s.Valid() && s.rampUp + s.hold <= t < s.End()
    ensures 0 <= Tick(s, t).users <= s.maxUsers
    ensures Tick(s, t).users as real <= RampDownShare(s, t)
    ensures t == s.rampUp + s.hold ==> Tick(s, t).users == s.maxUsers
  {
    RampDownFormula(s, t);
    RampDownShareBounds(s, t);
  }

  /** The ramp-down target never increases as time goes on. */
  lemma RampDownMonotone(s: Schedule, t1: real, t2: real)
    requires s.Valid() && s.rampUp + s.hold <= t1 <= t2 < s.End()
    ensures Tick(s, t2).users <= Tick(s, t1).users
  {
    RampDownFormula(s, t1);
    RampDownFormula(s, t2);
    RampDownShareShrinks(s, t1, t2);
    FloorMonotone(RampDownShare(s, t2), RampDownShare(s, t1));
  }

  /** Every target carries the configured spawn rate and a user count within
      [0, maxUsers]. */
  lemma TargetInRange(s: Schedule, t: real)
    requires s.Valid() && t >= 0.0 && Tick(s, t).Target?
    ensures Tick(s, t).rate == s.spawnRate
    ensures 0 <= Tick(s, t).users <= s.maxUsers
  {
    if t < s.rampUp {
      RampUp(s, t);
    } else if t >= s.rampUp + s.hold {
      RampDown(s, t);
    }
  }

  /** The whole wave is unimodal: the target never decreases until the hold
      ends, and never increases once the ramp-up is over. */
  lemma RisesThenFalls(s: Schedule, t1: real, t2: real)
    requires s.Valid() && 0.0 <= t1 <= t2 < s.End()
    ensures t2 < s.rampUp + s.hold ==> Tick(s, t1).users <= Tick(s, t2).users
    ensures s.rampUp <= t1 ==> Tick(s, t2).users <= Tick(s, t1).users
  {
    if t2 < s.rampUp {
      RampUpMonotone(s, t1, t2);
    } else if t1 < s.rampUp {
      RampUp(s, t1);
      if t2 >= s.rampUp + s.hold {
        RampDown(s, t2);
      }
    } else if t1 < s.rampUp + s.hold {
      if t2 >= s.rampUp + s.hold {
        RampDown(s, t2);
      }
    } else {
      RampDownMonotone(s, t1, t2);
    }
  }

  /** A wave whose peak is zero never asks for any user. */
  lemma ZeroPeak(s: Schedule, t: real)
    requires s.Valid() && s.maxUsers == 0 && 0.0 <= t < s.End()
    ensures Tick(s, t) == Target(0, s.spawnRate)
  {
    TargetInRange(s, t);
  }

  /** A ramp-up of zero length is skipped: a run that lasts at all starts at
      the peak, in the hold or, without a hold, at the top of the ramp-down;
      nothing is divided by the zero length. */
  lemma SkippedRampUp(s: Schedule)
    requires s.Valid() && s.rampUp == 0.0 && s.End() > 0.0
    ensures Tick(s, 0.0) == Target(s.maxUsers, s.spawnRate)
  {
    if s.hold == 0.0 {
      RampDown(s, 0.0);
    }
  }

  /** A wave of zero total length stops at once. */
  lemma EmptyWaveStops(s: Schedule)
    requires s.Valid() && s.End() == 0.0
    ensures Tick(s, 0.0) == Stop
  {
  }
}
