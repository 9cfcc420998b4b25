// The deadline arithmetic of execute_detached_callback, in nanoseconds.
module Pacing {
  // exec_rate, in Hz: a positive unsigned int.
  type Rate = r: int | 0 < r witness 1

  const SECOND: int := 1_000_000_000

  // std::chrono::nanoseconds(1'000'000'000 / exec_rate): the division truncates.
  function Period(rate: Rate): nat
  {
    SECOND / rate
  }

  function Ceil(x: real): int {
    -((-x).Floor)
  }

  // How many periods of 1e3 / rate milliseconds a lateness spans, rounded up.
  function OverrunCount(late: int, rate: Rate): int
  {
    var timeDiff := late as real / 1_000_000.0;
    var cmPeriod := 1_000.0 / rate as real;
    Ceil(timeDiff / cmPeriod)
  }

  // Periods skipped by an iteration that ended at `now`.
  function Missed(deadline: int, now: int, rate: Rate): (k: nat)
    ensures k > 0 <==> deadline + Period(rate) < now
  {
    var late := now - (deadline + Period(rate));
    if late > 0 then CatchUp(late, rate); OverrunCount(late, rate) else 0
  }

  // The deadline after that iteration.
  function NextDeadline(deadline: int, now: int, rate: Rate): int {
    deadline + Period(rate) + Missed(deadline, now, rate) * Period(rate)
  }

  // The grid of deadlines: `steps` periods after the anchor.
  function Grid(anchor: int, steps: int, period: int): int {
    anchor + steps * period
  }

  lemma PeriodBounds(rate: Rate)
    ensures rate * Period(rate) <= SECOND < rate * (Period(rate) + 1)
  {
  }

  // The floating-point quotient is exactly late * rate / 1e9.
  lemma OverrunQuotient(late: int, rate: Rate)
    ensures (late as real / 1_000_000.0) / (1_000.0 / rate as real) == (late * rate) as real / 1_000_000_000.0
  {
    var l, r := late as real, rate as real;
    var cm := 1_000.0 / r;
    var q := (l / 1_000_000.0) / cm;
    assert cm * r == 1_000.0;
    assert q * cm == l / 1_000_000.0;
    assert q * 1_000.0 == q * (cm * r) == (q * cm) * r == (l / 1_000_000.0) * r;
    assert (late * rate) as real == l * r;
    assert q * 1_000_000_000.0 == l * r;
  }

  lemma OverrunRoundsUp(late: int, rate: Rate)
    ensures var k := OverrunCount(late, rate); (k - 1) * SECOND < late * rate <= k * SECOND
  {
    OverrunQuotient(late, rate);
    var x := (late * rate) as real / 1_000_000_000.0;
    var k := Ceil(x);
    assert (k - 1) as real < x <= k as real;
    assert (k - 1) as real * 1_000_000_000.0 < (late * rate) as real <= k as real * 1_000_000_000.0;
    assert ((k - 1) * SECOND) as real < (late * rate) as real <= (k * SECOND) as real;
  }

  lemma MulMono(a: int, b: int, c: int)
    requires a <= b && 0 <= c
    ensures a * c <= b * c
  {
  }

  lemma LessByProduct(a: int, b: int, c: int)
    requires a * c < b * c && 0 < c
    ensures a < b
  {
    if b <= a {
      MulMono(b, a, c);
    }
  }

  // Catching up: a deadline that is late by `late` moves to less than one period
  // after the present, and at most overrun-many nanoseconds before it, those
  // nanoseconds being what the truncation of the period loses.
  lemma CatchUp(late: int, rate: Rate)
    requires late > 0
    ensures
      var p, k := Period(rate), OverrunCount(late, rate);
      k >= 1 && -k < k * p - late < p
  {
    var p, k := Period(rate), OverrunCount(late, rate);
    PeriodBounds(rate);
    OverrunRoundsUp(late, rate);
    assert late * rate > 0;
    assert k >= 1;
    // lower bound: late * rate <= k * SECOND < k * rate * (p + 1)
    assert k * SECOND < k * (rate * (p + 1));
    assert k * (rate * (p + 1)) == (k * (p + 1)) * rate;
    LessByProduct(late, k * (p + 1), rate);
    // upper bound: (k - 1) * p * rate <= (k - 1) * SECOND < late * rate
    MulMono(rate * p, SECOND, k - 1);
    assert (rate * p) * (k - 1) == ((k - 1) * p) * rate;
    LessByProduct((k - 1) * p, late, rate);
  }

  // When the rate divides a second the truncation loses nothing.
  lemma CatchUpExact(late: int, rate: Rate)
    requires late > 0 && SECOND % rate == 0
    ensures
      var p, k := Period(rate), OverrunCount(late, rate);
      0 <= k * p - late < p
  {
    var p, k := Period(rate), OverrunCount(late, rate);
    CatchUp(late, rate);
    OverrunRoundsUp(late, rate);
    assert rate * p == SECOND;
    assert k * SECOND == (k * p) * rate;
    assert (k * p + 1) * rate == k * SECOND + rate;
    LessByProduct(late, k * p + 1, rate);
  }

  // An iteration that began at or after its deadline moves the deadline forward
  // by a whole number of periods, at least one, and never asks for a sleep of
  // more than one period.
  lemma DeadlineAdvances(deadline: int, now: int, rate: Rate)
    requires deadline <= now
    ensures
      var p := Period(rate);
      && NextDeadline(deadline, now, rate) == Grid(deadline, 1 + Missed(deadline, now, rate), p)
      && NextDeadline(deadline, now, rate) - now <= p
  {
    var p, k := Period(rate), Missed(deadline, now, rate);
    assert (1 + k) * p == p + k * p;
    if k > 0 {
      CatchUp(now - (deadline + p), rate);
    }
  }

  lemma GridAdd(anchor: int, a: int, b: int, p: int)
    ensures Grid(Grid(anchor, a, p), b, p) == Grid(anchor, a + b, p)
  {
    assert a * p + b * p == (a + b) * p;
  }

  lemma GridMono(anchor: int, a: int, b: int, p: int)
    requires a <= b && 0 <= p
    ensures Grid(anchor, a, p) <= Grid(anchor, b, p)
  {
    MulMono(a, b, p);
  }

  // The same computation as the worker performs it, statement by statement.
  method AdvanceDeadline(deadline: int, timeNow: int, rate: Rate) returns (next: int, missed: nat)
    ensures next == NextDeadline(deadline, timeNow, rate) && missed == Missed(deadline, timeNow, rate)
    ensures missed > 0 ==> 0 - missed < next - timeNow < Period(rate)
    ensures missed == 0 ==> timeNow <= next == deadline + Period(rate)
    ensures SECOND % rate == 0 ==> timeNow <= next
  {
    var period := Period(rate);
    next, missed := deadline + period, 0;
    if next < timeNow {
      CatchUp(timeNow - next, rate);
      if SECOND % rate == 0 {
        CatchUpExact(timeNow - next, rate);
      }
      var timeDiff := (timeNow - next) as real / 1_000_000.0;
      var cmPeriod := 1_000.0 / rate as real;
      missed := Ceil(timeDiff / cmPeriod);
      next := next + missed * period;
    }
  }
}
