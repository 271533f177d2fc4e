/**
  How many ticks a campaign plans: the ceiling of the campaign's whole minutes over the
  interval's whole minutes, converted to a Java `int`.
 */
module Planning {
  import opened JavaLang
  import opened Wrappers
  import opened Durations

  /** The exact ceiling of `a / b` for a positive `b`. */
  function CeilDiv(a: int, b: int): (q: int)
    requires b > 0
    ensures (q - 1) * b < a <= q * b
  {
    var f := (-a) / b;
    assert f * b <= -a < f * b + b;
    -f
  }

  /**
    `(int) Math.ceil((double) duration.toMinutes() / period.toMinutes())`. Both durations
    are first cut down to whole minutes; the quotient is rounded up; the cast to `int`
    saturates. Nothing raises the result to at least one tick.
   */
  function TotalPlanned(durationMs: int, periodMs: int): (n: int)
    requires WholeMinutes(periodMs) >= 1
    ensures IsInt(n)
    ensures var dm, pm := WholeMinutes(durationMs), WholeMinutes(periodMs);
      (INT_MIN - 1) * pm < dm <= INT_MAX * pm ==> (n - 1) * pm < dm <= n * pm
    ensures WholeMinutes(durationMs) > INT_MAX * WholeMinutes(periodMs) ==> n == INT_MAX
    ensures WholeMinutes(durationMs) <= (INT_MIN - 1) * WholeMinutes(periodMs) ==> n == INT_MIN
  {
    var dm, pm := WholeMinutes(durationMs), WholeMinutes(periodMs);
    var q := CeilDiv(dm, pm);
    CeilingBounds(dm, pm, q);
    SaturateToInt(q)
  }

  /** Multiplying both sides of `a <= b` by a non-negative `c`. */
  lemma MulMonotone(a: int, b: int, c: int)
    requires a <= b && 0 <= c
    ensures a * c <= b * c
  {
    assert b * c - a * c == (b - a) * c;
  }

  /** Where the exact ceiling `q` of `dm / pm` lies relative to the `int` range. */
  lemma CeilingBounds(dm: int, pm: int, q: int)
    requires pm > 0 && (q - 1) * pm < dm <= q * pm
    ensures (INT_MIN - 1) * pm < dm <= INT_MAX * pm ==> IsInt(q)
    ensures dm > INT_MAX * pm ==> q > INT_MAX
    ensures dm <= (INT_MIN - 1) * pm ==> q < INT_MIN
  {
    if q > INT_MAX {
      MulMonotone(INT_MAX, q - 1, pm);
    } else {
      MulMonotone(q, INT_MAX, pm);
    }
    if q < INT_MIN {
      MulMonotone(q, INT_MIN - 1, pm);
    } else {
      MulMonotone(INT_MIN - 1, q - 1, pm);
    }
  }

  /** A campaign shorter than one minute plans no tick at all, whatever the interval. */
  lemma ShortCampaignPlansNothing(durationMs: int, periodMs: int)
    requires 0 <= durationMs < 60_000 && WholeMinutes(periodMs) >= 1
    ensures TotalPlanned(durationMs, periodMs) == 0
  {
    var pm := WholeMinutes(periodMs);
    var n := TotalPlanned(durationMs, periodMs);
    assert WholeMinutes(durationMs) == 0;
    assert (n - 1) * pm < 0 <= n * pm;
    if n >= 1 {
      MulMonotone(0, n - 1, pm);
    } else if n < 0 {
      MulMonotone(n, -1, pm);
    }
  }

  /**
    The default campaign plans 24 ticks: "4h" and "10m" parse to these milliseconds
    (`Durations.HoursExample`, `Durations.MinutesExample`).
   */
  lemma DefaultCampaignPlan()
    ensures WholeMinutes(600_000) == 10
    ensures TotalPlanned(14_400_000, 600_000) == 24
  {
    assert WholeMinutes(14_400_000) == 240;
    var n := TotalPlanned(14_400_000, 600_000);
    assert (n - 1) * 10 < 240 <= n * 10;
  }

  /** A five-minute campaign at an interval of ten minutes still plans one tick: the quotient is rounded up. */
  lemma PartialIntervalRoundsUp()
    ensures TotalPlanned(300_000, 600_000) == 1
  {
    assert WholeMinutes(300_000) == 5;
    assert WholeMinutes(600_000) == 10;
    var n := TotalPlanned(300_000, 600_000);
    assert (n - 1) * 10 < 5 <= n * 10;
  }

  /** Seconds below a whole minute are dropped before dividing: 119 seconds at one minute plans one tick. */
  lemma MinutesAreTruncatedFirst()
    ensures TotalPlanned(119_999, 60_000) == 1
  {
    assert WholeMinutes(119_999) == 1;
    assert WholeMinutes(60_000) == 1;
  }
}
