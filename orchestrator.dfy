/**
 * The start-up script `main`: initialise the sensor, give up on a wiring
 * error, then show each setter with the getter that reads it back, in the
 * order sensitivity 55 and 105, high-voltage generator off and on, LED off
 * and on.
 */
module Orchestrator {
  import opened Codec
  import opened Registers
  import opened Device

  /** The values the script displays, in the order it displays them. */
  datatype DemoReport = DemoReport(
    chipId: byte,
    firmware: byte,
    sensitivity: seq<int>,    // before, after setting 55, after setting 105
    hvGenerator: seq<bool>,   // before, after switching off, after switching on
    led: seq<bool>)           // before, after switching off, after switching on

  /** The register writes of the script, applied to the bank in order. */
  function DemoWrites(bank: Bank): Bank
  {
    var afterSensitivity := WithSensitivity(WithSensitivity(bank, 55), 105);
    var afterHv := WithHvGenerator(WithHvGenerator(afterSensitivity, false), true);
    WithLed(WithLed(afterHv, false), true)
  }

  /** What each register holds after the script. */
  lemma DemoWritesAt(bank: Bank, i: Reg)
    ensures DemoWrites(bank)[i] ==
      if i == RegLed || i == RegHvGenerator then 1
      else if i == RegSensitivityHigh then 0
      else if i == RegSensitivityLow then 105
      else bank[i]
  {
    assert HighByte(105) == 0 && LowByte(105) == 105;
  }

  /**
   * After the script the sensitivity is 105 and the generator and the LED
   * are on, as registers 0x10 to 0x13 now hold; no other register changed.
   */
  lemma DemoOutcome(bank: Bank)
    ensures Sensitivity(DemoWrites(bank)) == 105
    ensures HvGeneratorOn(DemoWrites(bank)) && LedOn(DemoWrites(bank))
    ensures DemoWrites(bank)[RegSensitivityHigh] == 0 && DemoWrites(bank)[RegSensitivityLow] == 105
    ensures DemoWrites(bank)[RegHvGenerator] == 1 && DemoWrites(bank)[RegLed] == 1
    ensures forall i: Reg :: !(RegLed <= i <= RegSensitivityLow) ==> DemoWrites(bank)[i] == bank[i]
  {
    DemoWritesAt(bank, RegLed);
    DemoWritesAt(bank, RegHvGenerator);
    DemoWritesAt(bank, RegSensitivityHigh);
    DemoWritesAt(bank, RegSensitivityLow);
    forall i: Reg | !(RegLed <= i <= RegSensitivityLow)
      ensures DemoWrites(bank)[i] == bank[i]
    {
      DemoWritesAt(bank, i);
    }
  }

  /**
   * Runs the script. `busFault` stands for the chip-id read of the
   * initialisation failing. On a wiring error nothing is written; otherwise
   * the bank ends as DemoWrites makes it, and every value displayed after a
   * setter is the one just set.
   */
  method RunDemo(sensor: RadSens, busFault: bool) returns (report: Option<DemoReport>)
    requires sensor.Valid()
    modifies sensor.regs
    ensures report.None? <==> busFault || ChipId(old(sensor.Bank())) != ExpectedChipId
    ensures report.None? ==> sensor.Bank() == old(sensor.Bank())
    ensures report.Some? ==> sensor.Bank() == DemoWrites(old(sensor.Bank()))
    ensures report.Some? ==> report.value == DemoReport(
      ExpectedChipId, FirmwareVersion(old(sensor.Bank())),
      [Sensitivity(old(sensor.Bank())), 55, 105],
      [HvGeneratorOn(old(sensor.Bank())), false, true],
      [LedOn(old(sensor.Bank())), false, true])
  {
    var ok := sensor.Init(busFault);
    if !ok {
      return None;
    }
    var chipId := sensor.GetChipId();
    var firmware := sensor.GetFirmwareVersion();

    ghost var start := sensor.Bank();
    var sensitivity := DemoSensitivity(sensor);
    var hvGenerator := DemoHvGenerator(sensor);
    var led := DemoLed(sensor);
    assert sensor.Bank() == DemoWrites(start);
    report := Some(DemoReport(chipId, firmware, sensitivity, hvGenerator, led));
  }

  /** The sensitivity block: read, set 55, read, set 105, read. */
  method DemoSensitivity(sensor: RadSens) returns (shown: seq<int>)
    requires sensor.Valid()
    modifies sensor.regs
    ensures sensor.Bank() == WithSensitivity(WithSensitivity(old(sensor.Bank()), 55), 105)
    ensures shown == [Sensitivity(old(sensor.Bank())), 55, 105]
  {
    var before := sensor.GetSensitivity();
    var after55 := SetAndShowSensitivity(sensor, 55);
    var after105 := SetAndShowSensitivity(sensor, 105);
    shown := [before, after55, after105];
  }

  /** One step of the sensitivity block: set `x`, then read the sensitivity back for display. */
  method SetAndShowSensitivity(sensor: RadSens, x: int) returns (shown: int)
    requires sensor.Valid() && 0 <= x < WordModulus
    modifies sensor.regs
    ensures sensor.Bank() == WithSensitivity(old(sensor.Bank()), x)
    ensures shown == x
  {
    ghost var before := sensor.Bank();
    sensor.SetSensitivity(x);
    SensitivityRoundTrip(before, x);
    shown := sensor.GetSensitivity();
  }

  /** The high-voltage generator block: read, switch off, read, switch on, read. */
  method DemoHvGenerator(sensor: RadSens) returns (shown: seq<bool>)
    requires sensor.Valid()
    modifies sensor.regs
    ensures sensor.Bank() == WithHvGenerator(WithHvGenerator(old(sensor.Bank()), false), true)
    ensures shown == [HvGeneratorOn(old(sensor.Bank())), false, true]
  {
    var before := sensor.GetHvGeneratorState();
    sensor.SetHvGeneratorState(false);
    var afterOff := sensor.GetHvGeneratorState();
    sensor.SetHvGeneratorState(true);
    var afterOn := sensor.GetHvGeneratorState();
    shown := [before, afterOff, afterOn];
  }

  /** The LED block: read, switch off, read, switch on, read. */
  method DemoLed(sensor: RadSens) returns (shown: seq<bool>)
    requires sensor.Valid()
    modifies sensor.regs
    ensures sensor.Bank() == WithLed(WithLed(old(sensor.Bank()), false), true)
    ensures shown == [LedOn(old(sensor.Bank())), false, true]
  {
    var before := sensor.GetLedState();
    sensor.SetLedState(false);
    var afterOff := sensor.GetLedState();
    sensor.SetLedState(true);
    var afterOn := sensor.GetLedState();
    shown := [before, afterOff, afterOn];
  }
}
