/**
 * The RadSens register map, read and written as a value: a bank of 256
 * single-byte registers standing for the device behind the bus. Every
 * getter of the sensor reads one or two registers of the bank; every setter
 * yields the bank with one or two registers replaced.
 */
module Registers {
  import opened Codec

  const RegisterCount: int := 256

  /** A register address on the device. */
  type Reg = r: int | 0 <= r < RegisterCount

  /** The whole register bank of the device. */
  type Bank = b: seq<byte> | |b| == RegisterCount witness seq(RegisterCount, i => 0 as byte)

  // Register addresses of the sensor.
  const RegChipId: Reg := 0x00
  const RegFirmwareVersion: Reg := 0x01
  const RegDynamicHigh: Reg := 0x03
  const RegDynamicLow: Reg := 0x04
  const RegStaticHigh: Reg := 0x06
  const RegStaticLow: Reg := 0x07
  const RegPulsesHigh: Reg := 0x09
  const RegPulsesLow: Reg := 0x0A
  const RegLed: Reg := 0x10
  const RegHvGenerator: Reg := 0x11
  const RegSensitivityHigh: Reg := 0x12
  const RegSensitivityLow: Reg := 0x13

  /** The value of the big-endian register pair at `high`, `low`. */
  function ReadWord(bank: Bank, high: Reg, low: Reg): (w: int)
    ensures 0 <= w < WordModulus
  {
    JoinWord(bank[high], bank[low])
  }

  /**
   * The bank after writing `x` to the pair at `high`, `low`: the high byte
   * of `x` lands in `high`, its low byte in `low`, and no other register
   * changes.
   */
  function WriteWord(bank: Bank, high: Reg, low: Reg, x: int): (r: Bank)
    requires high != low
    ensures r[high] == HighByte(x) && r[low] == LowByte(x)
    ensures forall i: Reg :: i != high && i != low ==> r[i] == bank[i]
  {
    bank[high := HighByte(x)][low := LowByte(x)]
  }

  function ChipId(bank: Bank): byte { bank[RegChipId] }
  function FirmwareVersion(bank: Bank): byte { bank[RegFirmwareVersion] }
  function Sensitivity(bank: Bank): int { ReadWord(bank, RegSensitivityHigh, RegSensitivityLow) }
  function DynamicIntensity(bank: Bank): int { ReadWord(bank, RegDynamicHigh, RegDynamicLow) }
  function StaticIntensity(bank: Bank): int { ReadWord(bank, RegStaticHigh, RegStaticLow) }
  function PulseCount(bank: Bank): int { ReadWord(bank, RegPulsesHigh, RegPulsesLow) }
  function HvGeneratorOn(bank: Bank): bool { DecodeFlag(bank[RegHvGenerator]) }
  function LedOn(bank: Bank): bool { DecodeFlag(bank[RegLed]) }

  function WithSensitivity(bank: Bank, x: int): Bank
  {
    WriteWord(bank, RegSensitivityHigh, RegSensitivityLow, x)
  }

  function WithHvGenerator(bank: Bank, on: bool): Bank
  {
    bank[RegHvGenerator := EncodeFlag(on)]
  }

  function WithLed(bank: Bank, on: bool): Bank
  {
    bank[RegLed := EncodeFlag(on)]
  }

  /** Writing a value to a register pair and reading the pair back yields the value modulo 2^16. */
  lemma WordRoundTrip(bank: Bank, high: Reg, low: Reg, x: int)
    requires high != low
    ensures ReadWord(WriteWord(bank, high, low, x), high, low) == x % WordModulus
  {
    SplitJoin(x);
  }

  /** Writing back the value just read from a register pair leaves the bank as it was. */
  lemma WordWriteBack(bank: Bank, high: Reg, low: Reg)
    requires high != low
    ensures WriteWord(bank, high, low, ReadWord(bank, high, low)) == bank
  {
    var r := WriteWord(bank, high, low, ReadWord(bank, high, low));
    JoinSplit(bank[high], bank[low]);
    assert forall i: Reg :: r[i] == bank[i];
  }

  /**
   * Setting the sensitivity to any integer and reading it back yields the
   * integer modulo 2^16: the masks drop every bit above the sixteenth.
   */
  lemma SensitivityRoundTripMod(bank: Bank, x: int)
    ensures Sensitivity(WithSensitivity(bank, x)) == x % WordModulus
  {
    WordRoundTrip(bank, RegSensitivityHigh, RegSensitivityLow, x);
  }

  /** Every sensitivity from 0 to 65535 reads back unchanged after it is set. */
  lemma SensitivityRoundTrip(bank: Bank, x: int)
    requires 0 <= x < WordModulus
    ensures Sensitivity(WithSensitivity(bank, x)) == x
  {
    SplitJoinWord(x);
  }

  /** Setting the sensitivity to the value it already has changes nothing. */
  lemma SensitivityWriteBack(bank: Bank)
    ensures WithSensitivity(bank, Sensitivity(bank)) == bank
  {
    WordWriteBack(bank, RegSensitivityHigh, RegSensitivityLow);
  }

  /** Two settings of the sensitivity in a row leave the bank as the second alone would. */
  lemma SensitivityLastWriteWins(bank: Bank, x: int, y: int)
    ensures WithSensitivity(WithSensitivity(bank, x), y) == WithSensitivity(bank, y)
  {
    var twice, once := WithSensitivity(WithSensitivity(bank, x), y), WithSensitivity(bank, y);
    assert forall i: Reg :: twice[i] == once[i];
  }

  /** The high-voltage generator setting reads back as written. */
  lemma HvGeneratorRoundTrip(bank: Bank, on: bool)
    ensures HvGeneratorOn(WithHvGenerator(bank, on)) == on
    ensures WithHvGenerator(bank, on)[RegHvGenerator] == if on then 1 else 0
  {
    FlagRoundTrip(on);
  }

  /** The LED setting reads back as written. */
  lemma LedRoundTrip(bank: Bank, on: bool)
    ensures LedOn(WithLed(bank, on)) == on
    ensures WithLed(bank, on)[RegLed] == if on then 1 else 0
  {
    FlagRoundTrip(on);
  }

  /**
   * Each setter leaves the readings of the other settings and of the
   * measurement registers as they were.
   */
  lemma SettersIndependent(bank: Bank, x: int, on: bool)
    ensures var b := WithSensitivity(bank, x);
      HvGeneratorOn(b) == HvGeneratorOn(bank) && LedOn(b) == LedOn(bank) &&
      ChipId(b) == ChipId(bank) && PulseCount(b) == PulseCount(bank) &&
      DynamicIntensity(b) == DynamicIntensity(bank) && StaticIntensity(b) == StaticIntensity(bank)
    ensures var b := WithHvGenerator(bank, on);
      Sensitivity(b) == Sensitivity(bank) && LedOn(b) == LedOn(bank) &&
      ChipId(b) == ChipId(bank) && PulseCount(b) == PulseCount(bank) &&
      DynamicIntensity(b) == DynamicIntensity(bank) && StaticIntensity(b) == StaticIntensity(bank)
    ensures var b := WithLed(bank, on);
      Sensitivity(b) == Sensitivity(bank) && HvGeneratorOn(b) == HvGeneratorOn(bank) &&
      ChipId(b) == ChipId(bank) && PulseCount(b) == PulseCount(bank) &&
      DynamicIntensity(b) == DynamicIntensity(bank) && StaticIntensity(b) == StaticIntensity(bank)
  {
  }
}
