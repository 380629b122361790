/**
 * Conversion of a pulse count registered over an interval into an hourly
 * radiation activity, computed exactly over the reals.
 */
module Activity {

  const SecondsPerHour: int := 60 * 60

  /**
   * `(N * 60 * 60) / (Pcp * dT)`: `pulses` registered in `interval` seconds
   * by a counter of the given `sensitivity` (pulses per unit of activity),
   * scaled to one hour. The division is unguarded where the program
   * computes it, so a zero divisor is excluded here.
   */
  function RadiationActivity(pulses: int, sensitivity: int, interval: int): (a: real)
    requires sensitivity * interval != 0
    ensures a * (sensitivity * interval) as real == (pulses * SecondsPerHour) as real
    ensures pulses == 0 ==> a == 0.0
  {
    (pulses * 60 * 60) as real / (sensitivity * interval) as real
  }

  /** No pulses, a positive sensitivity and a positive interval never give a negative activity. */
  lemma ActivityNonNegative(pulses: int, sensitivity: int, interval: int)
    requires pulses >= 0 && sensitivity * interval > 0
    ensures RadiationActivity(pulses, sensitivity, interval) >= 0.0
  {
    var n, d := (pulses * SecondsPerHour) as real, (sensitivity * interval) as real;
    assert RadiationActivity(pulses, sensitivity, interval) == n / d;
  }

  /** More pulses in the same interval at the same sensitivity never give less activity. */
  lemma ActivityMonotone(p1: int, p2: int, sensitivity: int, interval: int)
    requires p1 <= p2 && sensitivity * interval > 0
    ensures RadiationActivity(p1, sensitivity, interval) <= RadiationActivity(p2, sensitivity, interval)
  {
    var d := (sensitivity * interval) as real;
    var n1, n2 := (p1 * SecondsPerHour) as real, (p2 * SecondsPerHour) as real;
    assert RadiationActivity(p2, sensitivity, interval) - RadiationActivity(p1, sensitivity, interval) == (n2 - n1) / d;
    assert n2 - n1 >= 0.0;
  }

  /**
   * The activity is the hourly pulse rate divided by the sensitivity: at
   * sensitivity 1, one pulse per second is 3600 per hour.
   */
  lemma ActivityScales(pulses: int, sensitivity: int, interval: int, k: int)
    requires sensitivity * interval != 0 && k != 0
    ensures RadiationActivity(k * pulses, k * sensitivity, interval) == RadiationActivity(pulses, sensitivity, interval)
    ensures RadiationActivity(pulses, 1, 1) == (pulses * SecondsPerHour) as real
  {
    var a, b := RadiationActivity(k * pulses, k * sensitivity, interval), RadiationActivity(pulses, sensitivity, interval);
    var d := (sensitivity * interval) as real;
    assert (k * sensitivity * interval) as real == k as real * d;
    assert a * (k as real * d) == k as real * ((pulses * SecondsPerHour) as real);
    assert (a * d) * k as real == (b * d) * k as real;
  }

  /** 100 pulses in one second at sensitivity 55 are 360000/55, about 6545.45. */
  lemma ActivityExample()
    ensures RadiationActivity(100, 55, 1) == 360000.0 / 55.0
    ensures 6545.45 < RadiationActivity(100, 55, 1) < 6545.46
  {
  }
}
