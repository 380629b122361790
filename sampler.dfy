/**
 * The sampler loop `update_data`: every tick it reads the pulse count and
 * the sensitivity, converts them into an activity over an interval of one
 * second, reads the two intensity registers for its diagnostic line and
 * appends the activity to the shared history.
 */
module Sampler {
  import opened Codec
  import opened Registers
  import opened Activity
  import opened Device

  /** The registration interval `dT`, in seconds. */
  const Interval: int := 1

  /** What one tick of the sampler does with a given register bank. */
  datatype TickReport =
    | ZeroSensitivity
      // the activity division raises: nothing is logged or appended, and the loop ends
    | Logged(dynamic: int, staticLevel: int, pulses: int, activity: real)
      // the four values of the diagnostic line; `activity` is appended

  /**
   * The tick on `bank`: it fails exactly when the sensitivity register pair
   * holds 0, and otherwise logs the registers and an activity that, times
   * the sensitivity, is the hourly pulse count, and that is never negative.
   */
  function TickOf(bank: Bank): (r: TickReport)
    ensures r.ZeroSensitivity? <==> Sensitivity(bank) == 0
    ensures r.Logged? ==>
      r.pulses == PulseCount(bank) && r.dynamic == DynamicIntensity(bank) && r.staticLevel == StaticIntensity(bank)
    ensures r.Logged? ==> r.activity * Sensitivity(bank) as real == (PulseCount(bank) * SecondsPerHour) as real
    ensures r.Logged? ==> r.activity >= 0.0
  {
    var pulses, pcp := PulseCount(bank), Sensitivity(bank);
    if pcp * Interval == 0 then ZeroSensitivity
    else
      ActivityNonNegative(pulses, pcp, Interval);
      Logged(DynamicIntensity(bank), StaticIntensity(bank), pulses, RadiationActivity(pulses, pcp, Interval))
  }

  /**
   * The activities appended by successive ticks on the banks of `readings`,
   * up to the first tick that fails.
   */
  function Samples(readings: seq<Bank>): seq<real>
  {
    if readings == [] then []
    else
      match TickOf(readings[0])
      case ZeroSensitivity => []
      case Logged(_, _, _, a) => [a] + Samples(readings[1..])
  }

  /** Each sample is the activity of the tick on the reading at the same position. */
  lemma {:induction false} SamplesAt(readings: seq<Bank>, k: int)
    requires 0 <= k < |Samples(readings)|
    ensures k < |readings| && TickOf(readings[k]).Logged?
    ensures Samples(readings)[k] == TickOf(readings[k]).activity
  {
    if k > 0 {
      SamplesAt(readings[1..], k - 1);
    }
  }

  /** No sample in the history is negative. */
  lemma {:induction false} SamplesNonNegative(readings: seq<Bank>)
    ensures forall k :: 0 <= k < |Samples(readings)| ==> Samples(readings)[k] >= 0.0
  {
    forall k | 0 <= k < |Samples(readings)|
      ensures Samples(readings)[k] >= 0.0
    {
      SamplesAt(readings, k);
    }
  }

  /**
   * Every reading yields a sample exactly when no reading has a zero
   * sensitivity; otherwise the samples stop at the first such reading.
   */
  lemma {:induction false} SamplesComplete(readings: seq<Bank>)
    ensures |Samples(readings)| <= |readings|
    ensures |Samples(readings)| == |readings| <==> forall k :: 0 <= k < |readings| ==> Sensitivity(readings[k]) != 0
    ensures |Samples(readings)| < |readings| ==> Sensitivity(readings[|Samples(readings)|]) == 0
  {
    if readings != [] {
      SamplesComplete(readings[1..]);
      if Sensitivity(readings[0]) != 0 {
        forall k | 1 <= k < |readings|
          ensures readings[k] == readings[1..][k - 1]
        {
        }
      }
    }
  }

  /**
   * A sensor reporting sensitivity 55 and 100 pulses logs an activity of
   * 100 * 3600 / 55, about 6545.45.
   */
  lemma TickExample(bank: Bank)
    requires Sensitivity(bank) == 55 && PulseCount(bank) == 100
    ensures TickOf(bank).Logged? && TickOf(bank).activity == 360000.0 / 55.0
  {
    ActivityExample();
  }

  /** The history list the sampler appends to and the plotter reads. */
  class ActivityLog {
    var samples: seq<real>

    constructor ()
      ensures samples == []
    {
      samples := [];
    }
  }

  /**
   * One iteration of the sampler loop: appends exactly the activity of the
   * current bank, keeping all earlier samples, unless the division fails.
   */
  method Tick(sensor: RadSens, log: ActivityLog) returns (report: TickReport)
    requires sensor.Valid()
    modifies log
    ensures report == TickOf(sensor.Bank())
    ensures log.samples == match report
      case ZeroSensitivity => old(log.samples)
      case Logged(_, _, _, a) => old(log.samples) + [a]
  {
    var pulses := sensor.GetNumberOfPulses();
    var pcp := sensor.GetSensitivity();
    if pcp * Interval == 0 {
      report := ZeroSensitivity;
      return;
    }
    var activity := RadiationActivity(pulses, pcp, Interval);
    var dynamic := sensor.GetRadIntensityDynamic();
    var staticLevel := sensor.GetRadIntensityStatic();
    report := Logged(dynamic, staticLevel, pulses, activity);
    log.samples := log.samples + [activity];
  }

  /**
   * The first ticks of the sampler loop, one per reading: before each tick
   * the device moves on to that reading. The loop ends after the last
   * reading or at the first tick that fails.
   */
  method UpdateData(sensor: RadSens, log: ActivityLog, readings: seq<Bank>)
    requires sensor.Valid()
    modifies sensor.regs, log
    ensures log.samples == old(log.samples) + Samples(readings)
  {
    var i := 0;
    while i < |readings|
      invariant 0 <= i <= |readings|
      invariant log.samples + Samples(readings[i..]) == old(log.samples) + Samples(readings)
    {
      sensor.DeviceAdvance(readings[i]);
      var report := Tick(sensor, log);
      if report.ZeroSensitivity? {
        return;
      }
      assert readings[i..][1..] == readings[i + 1..];
      i := i + 1;
    }
  }
}
