/**
 * The `CG_RadSens` register interface. The device behind the bus is its
 * register bank, an array of 256 bytes that the setters update in place;
 * each method is proved against the bank functions of module Registers.
 * Getters have no `modifies` clause, so reading never changes the bank.
 */
module Device {
  import opened Codec
  import opened Registers

  /** The sensor's bus address unless another is given. */
  const DefaultAddress: int := 0x66

  class RadSens {
    /** The bus address every transaction goes to. */
    const address: int
    /** The device's registers, indexed by register address. */
    const regs: array<byte>

    ghost predicate Valid()
      reads this
    {
      regs.Length == RegisterCount
    }

    /** The registers as a value. */
    ghost function Bank(): Bank
      reads this, regs
      requires Valid()
    {
      regs[..]
    }

    /**
     * Opens the sensor at `address`; `device` is what its registers hold
     * when the program connects to it.
     */
    constructor (address: int, device: Bank)
      ensures Valid() && fresh(regs)
      ensures this.address == address && Bank() == device
    {
      this.address := address;
      regs := new byte[RegisterCount](i requires 0 <= i < RegisterCount => device[i]);
    }

    /** Opens the sensor at its default address 0x66. */
    constructor AtDefaultAddress(device: Bank)
      ensures Valid() && fresh(regs)
      ensures address == DefaultAddress && Bank() == device
    {
      address := DefaultAddress;
      regs := new byte[RegisterCount](i requires 0 <= i < RegisterCount => device[i]);
    }

    /**
     * `init`: reads the chip id and accepts only 0x7D. `busFault` stands for
     * the chip-id read raising; the fault is swallowed and reported as false,
     * like a wrong id.
     */
    method Init(busFault: bool) returns (ok: bool)
      requires Valid()
      ensures ok <==> !busFault && ChipId(Bank()) == ExpectedChipId
    {
      var read: Option<byte> := None;
      if !busFault {
        var id := GetChipId();
        read := Some(id);
      }
      ok := InitVerdict(read);
    }

    method GetChipId() returns (id: byte)
      requires Valid()
      ensures id == ChipId(Bank()) && id == regs[RegChipId]
    {
      id := regs[RegChipId];
    }

    method GetFirmwareVersion() returns (version: byte)
      requires Valid()
      ensures version == FirmwareVersion(Bank()) && version == regs[RegFirmwareVersion]
    {
      version := regs[RegFirmwareVersion];
    }

    /** Reads the big-endian pair at `high`, `low`. */
    method ReadPair(high: Reg, low: Reg) returns (w: int)
      requires Valid()
      ensures w == ReadWord(Bank(), high, low)
      ensures 0 <= w < WordModulus
    {
      var highByte := regs[high];
      var lowByte := regs[low];
      w := JoinWord(highByte, lowByte);
    }

    method GetSensitivity() returns (s: int)
      requires Valid()
      ensures s == Sensitivity(Bank()) && 0 <= s < WordModulus
    {
      s := ReadPair(RegSensitivityHigh, RegSensitivityLow);
    }

    /**
     * Writes the high byte of `x` to register 0x12 and its low byte to 0x13,
     * and nothing else (SensitivityRoundTrip says what reads back).
     */
    method SetSensitivity(x: int)
      requires Valid()
      modifies regs
      ensures Bank() == WithSensitivity(old(Bank()), x)
      ensures regs[RegSensitivityHigh] == HighByte(x) && regs[RegSensitivityLow] == LowByte(x)
      ensures forall i :: 0 <= i < RegisterCount && i != RegSensitivityHigh && i != RegSensitivityLow ==>
        regs[i] == old(regs[i])
    {
      regs[RegSensitivityHigh] := HighByte(x);
      regs[RegSensitivityLow] := LowByte(x);
      assert Bank() == WithSensitivity(old(Bank()), x);
    }

    method GetHvGeneratorState() returns (on: bool)
      requires Valid()
      ensures on == HvGeneratorOn(Bank())
      ensures on <==> regs[RegHvGenerator] == 1
    {
      var v := regs[RegHvGenerator];
      on := DecodeFlag(v);
    }

    /** Writes 1 (on) or 0 (off) to register 0x11 and nothing else. */
    method SetHvGeneratorState(on: bool)
      requires Valid()
      modifies regs
      ensures Bank() == WithHvGenerator(old(Bank()), on)
      ensures regs[RegHvGenerator] == (if on then 1 else 0)
      ensures forall i :: 0 <= i < RegisterCount && i != RegHvGenerator ==> regs[i] == old(regs[i])
      ensures HvGeneratorOn(Bank()) == on
    {
      regs[RegHvGenerator] := EncodeFlag(on);
      FlagRoundTrip(on);
    }

    method GetLedState() returns (on: bool)
      requires Valid()
      ensures on == LedOn(Bank())
      ensures on <==> regs[RegLed] == 1
    {
      var v := regs[RegLed];
      on := DecodeFlag(v);
    }

    /** Writes 1 (on) or 0 (off) to register 0x10 and nothing else. */
    method SetLedState(on: bool)
      requires Valid()
      modifies regs
      ensures Bank() == WithLed(old(Bank()), on)
      ensures regs[RegLed] == (if on then 1 else 0)
      ensures forall i :: 0 <= i < RegisterCount && i != RegLed ==> regs[i] == old(regs[i])
      ensures LedOn(Bank()) == on
    {
      regs[RegLed] := EncodeFlag(on);
      FlagRoundTrip(on);
    }

    method GetRadIntensityDynamic() returns (level: int)
      requires Valid()
      ensures level == DynamicIntensity(Bank()) && 0 <= level < WordModulus
    {
      level := ReadPair(RegDynamicHigh, RegDynamicLow);
    }

    method GetRadIntensityStatic() returns (level: int)
      requires Valid()
      ensures level == StaticIntensity(Bank()) && 0 <= level < WordModulus
    {
      level := ReadPair(RegStaticHigh, RegStaticLow);
    }

    method GetNumberOfPulses() returns (pulses: int)
      requires Valid()
      ensures pulses == PulseCount(Bank()) && 0 <= pulses < WordModulus
    {
      pulses := ReadPair(RegPulsesHigh, RegPulsesLow);
    }

    /**
     * The device itself moving on between two bus transactions: its counters
     * and intensity registers are updated by the sensor, not by the program.
     */
    method DeviceAdvance(next: Bank)
      requires Valid()
      modifies regs
      ensures Bank() == next
    {
      forall i | 0 <= i < RegisterCount {
        regs[i] := next[i];
      }
    }
  }
}
