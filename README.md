# RadSens register interface, activity conversion and sampler — a Dafny model

This project models the core of a Raspberry Pi script that polls a RadSens
radiation sensor over I2C. The core consists of:

- the register interface `CG_RadSens`;
- the conversion of a pulse count into an hourly radiation activity;
- one tick of the sampler loop `update_data`, which appends an activity to the history list;
- the scripted demonstration in `main`.

The device behind the bus is modelled as its register bank: 256 single-byte
registers.

- **Codec** (`codec.dfy`): a `byte` newtype. The split of an integer into its
  high and low bytes is `(x >> 8) & 0xFF` and `x & 0xFF`. The big-endian join
  is `(high << 8) + low`. Flags are written as 1/0 and read as `== 1`. The
  chip id check accepts only 0x7D.
- **Registers** (`registers.dfy`): the bank as a value (`seq<byte>` of length
  256) and the register addresses 0x00 to 0x13. There is one getter function
  and one setter function per setting. This module holds the round-trip,
  write-back, last-write-wins and frame lemmas.
- **Device** (`device.dfy`): the class `RadSens` with its bus address and its
  register bank as an `array<byte>`. Setters update the array in place.
  Getters have no `modifies` clause, so a read never changes the bank. Every
  method is proved against the functions of Registers.
- **Activity** (`activity.dfy`): `N * 60 * 60 / (Pcp * dT)` over exact reals.
- **Sampler** (`sampler.dfy`): one tick on a bank, and the samples produced by
  a run of ticks. The history list is a class whose field is reassigned. The
  methods `Tick` and `UpdateData` model one iteration and the first iterations
  of the sampler loop.
- **Orchestrator** (`orchestrator.dfy`): `main`'s initialisation and its three
  demonstration blocks. The values the script prints are returned as a
  `DemoReport`.

Two details of the code shape the model:

- `set_sensitivity` accepts any integer and masks it with `(x >> 8) & 0xFF`
  and `x & 0xFF` (Rad_sense_plotter.py:32-33). So the model takes any `int`
  and proves that it reads back modulo 2^16. Python's `>>` floors and `&`
  works on two's complement, so negative arguments are included.
- `init`'s bare `except` (Rad_sense_plotter.py:17-18) folds every exception
  raised by the chip-id read into `false`. Here that is the `busFault`
  parameter.

## Model

| member | source | states |
|---|---|---|
| `Codec.JoinWord` | Rad_sense_plotter.py:29 | the joined value of two register bytes lies in 0..65535 |
| `Codec.HighByte` | Rad_sense_plotter.py:32 | defines `(x >> 8) & 0xFF` as `(x / 256) % 256`, equal for every int, negatives included, because Dafny's `/` and `%` by 256 floor as Python's shift and mask do |
| `Codec.LowByte` | Rad_sense_plotter.py:33 | defines `x & 0xFF` as `x % 256`, equal for every int, negatives included |
| `Codec.SplitJoin` | Rad_sense_plotter.py:26-35 | splitting any integer with the masks and joining the bytes yields the integer modulo 2^16 |
| `Codec.SplitJoinWord` | Rad_sense_plotter.py:26-35 | every value 0..65535 survives a split and a join unchanged |
| `Codec.JoinSplit` | Rad_sense_plotter.py:26-35 | splitting a joined pair gives back the same high and low bytes (decode then encode) |
| `Codec.JoinWordInjective` | Rad_sense_plotter.py:29 | distinct byte pairs join to distinct values |
| `Codec.EncodeFlag` | Rad_sense_plotter.py:40-41 | a flag is written as 0 or 1 |
| `Codec.DecodeFlag` | Rad_sense_plotter.py:38 | defines the `== 1` test that turns a flag register into a boolean, used for register 0x11 and, at line 44, for 0x10 |
| `Codec.FlagRoundTrip` | Rad_sense_plotter.py:37-47 | a flag written as 1/0 reads back as the same boolean |
| `Codec.DecodeFlagOnlyOne` | Rad_sense_plotter.py:37-38 | a flag register reads as on iff it holds 1; any other value, 2 included, reads as off |
| `Codec.InitVerdict` | Rad_sense_plotter.py:13-18 | initialisation succeeds iff the chip-id read succeeded and returned 0x7D |
| `Codec.InitConflatesFaultAndMismatch` | Rad_sense_plotter.py:13-18 | a failed chip-id read and a wrong chip id both give false |
| `Registers.ReadWord` | Rad_sense_plotter.py:49-52 | a big-endian register pair reads as a value in 0..65535 |
| `Registers.ChipId` | Rad_sense_plotter.py:20-21 | defines the chip id as register 0x00 of the bank |
| `Registers.FirmwareVersion` | Rad_sense_plotter.py:23-24 | defines the firmware version as register 0x01 of the bank |
| `Registers.Sensitivity` | Rad_sense_plotter.py:26-29 | defines the sensitivity as the big-endian join of registers 0x12/0x13 |
| `Registers.DynamicIntensity` | Rad_sense_plotter.py:49-52 | defines the dynamic intensity as the big-endian join of registers 0x03/0x04 |
| `Registers.StaticIntensity` | Rad_sense_plotter.py:54-57 | defines the static intensity as the big-endian join of registers 0x06/0x07 |
| `Registers.PulseCount` | Rad_sense_plotter.py:59-62 | defines the pulse count as the big-endian join of registers 0x09/0x0A |
| `Registers.HvGeneratorOn` | Rad_sense_plotter.py:37-38 | defines the HV generator state as register 0x11 decoded with `== 1` |
| `Registers.LedOn` | Rad_sense_plotter.py:43-44 | defines the LED state as register 0x10 decoded with `== 1` |
| `Registers.WithSensitivity` | Rad_sense_plotter.py:31-35 | defines the bank after `set_sensitivity(x)`: the masked high byte in 0x12, the low byte in 0x13 |
| `Registers.WithHvGenerator` | Rad_sense_plotter.py:40-41 | defines the bank after `set_hv_generator_state(b)`: 1 or 0 in 0x11 |
| `Registers.WithLed` | Rad_sense_plotter.py:46-47 | defines the bank after `set_led_state(b)`: 1 or 0 in 0x10 |
| `Registers.WriteWord` | Rad_sense_plotter.py:31-35 | writing a pair puts the high byte in the high register and the low byte in the low register, and leaves every other register unchanged |
| `Registers.WordRoundTrip` | Rad_sense_plotter.py:26-35 | a value written to a register pair reads back modulo 2^16 |
| `Registers.WordWriteBack` | Rad_sense_plotter.py:26-35 | writing back the value just read from a pair leaves the whole bank unchanged |
| `Registers.SensitivityRoundTripMod` | Rad_sense_plotter.py:26-35 | `set_sensitivity(x)` then `get_sensitivity()` yields x mod 65536 for every integer x |
| `Registers.SensitivityRoundTrip` | Rad_sense_plotter.py:26-35 | `set_sensitivity(x)` then `get_sensitivity()` yields x for 0 <= x <= 65535 |
| `Registers.SensitivityWriteBack` | Rad_sense_plotter.py:26-35 | setting the sensitivity to its current value changes no register |
| `Registers.SensitivityLastWriteWins` | Rad_sense_plotter.py:31-35 | two sensitivity settings in a row leave the bank as the second one alone would |
| `Registers.HvGeneratorRoundTrip` | Rad_sense_plotter.py:37-41 | after setting the HV generator to b, register 0x11 holds 1/0 and reads back as b |
| `Registers.LedRoundTrip` | Rad_sense_plotter.py:43-47 | after setting the LED to b, register 0x10 holds 1/0 and reads back as b |
| `Registers.SettersIndependent` | Rad_sense_plotter.py:31-47 | each setter leaves the other settings, the chip id and the measurement readings unchanged |
| `Device.RadSens.constructor` | Rad_sense_plotter.py:9-11 | the sensor is opened at the given address over a bank holding the device's registers |
| `Device.RadSens.AtDefaultAddress` | Rad_sense_plotter.py:7-11 | without an address, the sensor is opened at 0x66 |
| `Device.RadSens.Init` | Rad_sense_plotter.py:13-18 | returns true iff the chip-id read does not fail and register 0x00 holds 0x7D |
| `Device.RadSens.GetChipId` | Rad_sense_plotter.py:20-21 | returns register 0x00 |
| `Device.RadSens.GetFirmwareVersion` | Rad_sense_plotter.py:23-24 | returns register 0x01 |
| `Device.RadSens.ReadPair` | Rad_sense_plotter.py:49-62 | returns the big-endian join of a register pair, in 0..65535 |
| `Device.RadSens.GetSensitivity` | Rad_sense_plotter.py:26-29 | returns the big-endian join of 0x12/0x13, in 0..65535, and changes nothing |
| `Device.RadSens.SetSensitivity` | Rad_sense_plotter.py:31-35 | writes `(x >> 8) & 0xFF` to 0x12 and `x & 0xFF` to 0x13; every other register keeps its value |
| `Device.RadSens.GetHvGeneratorState` | Rad_sense_plotter.py:37-38 | true iff register 0x11 holds 1 |
| `Device.RadSens.SetHvGeneratorState` | Rad_sense_plotter.py:40-41 | writes 1/0 to 0x11 only, after which the state reads back as written |
| `Device.RadSens.GetLedState` | Rad_sense_plotter.py:43-44 | true iff register 0x10 holds 1 |
| `Device.RadSens.SetLedState` | Rad_sense_plotter.py:46-47 | writes 1/0 to 0x10 only, after which the state reads back as written |
| `Device.RadSens.GetRadIntensityDynamic` | Rad_sense_plotter.py:49-52 | returns the big-endian join of 0x03/0x04, in 0..65535, and changes nothing |
| `Device.RadSens.GetRadIntensityStatic` | Rad_sense_plotter.py:54-57 | returns the big-endian join of 0x06/0x07, in 0..65535, and changes nothing |
| `Device.RadSens.GetNumberOfPulses` | Rad_sense_plotter.py:59-62 | returns the big-endian join of 0x09/0x0A, in 0..65535, and changes nothing |
| `Device.RadSens.DeviceAdvance` | Rad_sense_plotter.py:79-81 | models the environment, not a line of the program: between two ticks of the sampler the sensor updates its own registers, and afterwards the bank is the given next state |
| `Activity.RadiationActivity` | Rad_sense_plotter.py:65-66 | for a nonzero `Pcp * dT`, the activity times `Pcp * dT` equals `N * 3600`, and it is 0 when N = 0 |
| `Activity.ActivityNonNegative` | Rad_sense_plotter.py:65-66 | a non-negative count over a positive `Pcp * dT` gives a non-negative activity |
| `Activity.ActivityMonotone` | Rad_sense_plotter.py:65-66 | more pulses at the same sensitivity and interval never give less activity |
| `Activity.ActivityScales` | Rad_sense_plotter.py:65-66 | scaling the pulses and the sensitivity by the same factor leaves the activity unchanged; at `Pcp = dT = 1` it is `N * 3600` |
| `Activity.ActivityExample` | Rad_sense_plotter.py:65-66 | 100 pulses at sensitivity 55 over 1 s give 360000/55, between 6545.45 and 6545.46 |
| `Sampler.TickOf` | Rad_sense_plotter.py:81-92 | a tick fails iff the sensitivity reads 0. Otherwise it logs the dynamic, static and pulse registers and a non-negative activity whose product with the sensitivity is the pulse count times 3600 |
| `Sampler.Samples` | Rad_sense_plotter.py:79-93 | defines the history produced by a run of the sampler loop: one activity per tick, in order, up to the first tick whose division by a zero sensitivity raises |
| `Sampler.TickExample` | Rad_sense_plotter.py:81-92 | a bank with sensitivity 55 and 100 pulses logs the activity 360000/55 |
| `Sampler.SamplesAt` | Rad_sense_plotter.py:79-93 | the k-th sample is the activity of the k-th tick, and that tick did not fail |
| `Sampler.SamplesNonNegative` | Rad_sense_plotter.py:79-93 | no sample in the history is negative |
| `Sampler.SamplesComplete` | Rad_sense_plotter.py:79-93 | a run produces at most one sample per tick. It produces exactly one per tick iff no tick reads sensitivity 0, and otherwise it stops at the first tick that does |
| `Sampler.ActivityLog.constructor` | Rad_sense_plotter.py:153 | the history starts empty |
| `Sampler.Tick` | Rad_sense_plotter.py:81-92 | one iteration appends exactly the tick's activity and keeps the earlier samples; a zero sensitivity appends nothing |
| `Sampler.UpdateData` | Rad_sense_plotter.py:79-93 | a run of ticks extends the history by exactly the samples of its readings |
| `Orchestrator.DemoWritesAt` | Rad_sense_plotter.py:110-150 | after the script's writes, 0x10 and 0x11 hold 1, 0x12 holds 0 and 0x13 holds 105; every other register holds what it held before |
| `Orchestrator.DemoWrites` | Rad_sense_plotter.py:116-149 | defines the bank after the script's six writes in order: sensitivity 55 then 105, HV generator off then on, LED off then on |
| `Orchestrator.DemoOutcome` | Rad_sense_plotter.py:110-150 | after the script, the sensitivity is 105 and the HV generator and LED are on; no register outside 0x10..0x13 changed |
| `Orchestrator.RunDemo` | Rad_sense_plotter.py:96-151 | on a wiring error, nothing is written. Otherwise the bank ends as the script's writes make it, and the displayed values are the initial ones followed by each value just set |
| `Orchestrator.DemoSensitivity` | Rad_sense_plotter.py:110-123 | the sensitivity block displays the initial sensitivity, then 55, then 105 |
| `Orchestrator.SetAndShowSensitivity` | Rad_sense_plotter.py:116-122 | setting an in-range sensitivity and reading it back displays that sensitivity |
| `Orchestrator.DemoHvGenerator` | Rad_sense_plotter.py:125-137 | the HV block displays the initial state, then false, then true |
| `Orchestrator.DemoLed` | Rad_sense_plotter.py:139-151 | the LED block displays the initial state, then false, then true |

## Left out

- The I2C transport (`smbus.SMBus`) is replaced by the register bank.
  - The model has one device, so the bus address is recorded but selects nothing.
  - Only the chip-id read inside `init` may fail (the `busFault` parameter). Every other read or write is total, whereas the program lets a transport exception propagate.
- Between two sampler ticks the device changes its counters by itself. `UpdateData` takes the device's register state at each tick as input, and `DeviceAdvance` installs it. Registers are not otherwise concurrent.
- The sampler's `while True` loop and its 0.25 s sleep are modelled as a finite run with one tick per given reading.
  - A ZeroDivisionError ends the sampler thread. The model records it as a `ZeroSensitivity` tick that appends nothing and ends the run.
- `main`'s initial `time.sleep(0)`, the two threads (daemon flag included), the unsynchronised sharing of the history list with the plotter, and the idle loop are left out. They are concurrency and timing, not logic.
- `plot_data` and `plot_data_thread` are left out. They are matplotlib rendering only.
- `print` calls and their formatting are left out. The values printed are returned instead: `TickReport.Logged` for the sampler, `DemoReport` for `main`.
- The activity is computed with exact reals, not IEEE floating point, so rounding is not modelled.
- `Device.RadSens.SetSensitivity`: the read-back law is stated by `Registers.SensitivityRoundTrip` and `Registers.SensitivityRoundTripMod`, not in the method's own postcondition. The method's postcondition ties the new bank to `Registers.WithSensitivity`.
