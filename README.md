# GC2607 sensor control logic in Dafny

This project models the control core of the GC2607 camera-sensor driver
(`gc2607.c`). That core has five parts:

- the register access protocol on the I2C bus, with 16-bit addresses and
  8-bit values;
- the register-program executor `gc2607_write_array`, and the one 1080p
  program it runs;
- the power sequencer `gc2607_power_on` / `gc2607_power_off`;
- the chip-identity check `gc2607_detect`;
- the stream switch `gc2607_s_stream`, which sits on top of a runtime-PM
  reference count.

The outside world is a `Board` object (`hardware.dfy`). The board:

- owns an append-only trace of hardware events: bus transfers with their
  messages, regulator and clock enables and disables, GPIO levels, and
  sleeps;
- takes two oracles, `status(n)` and `readback(n)`. They give the return
  value and the byte read of the call that lands at trace position `n`.
  Any pattern of bus, regulator or clock failure is therefore an input of
  the proofs.

The hardware state (regulators on, clock on, the logical level of each
line) is never stored. It is computed by replaying the trace (`Replay`).

The driver state is the class `Gc2607.Sensor`. It holds:

- `powered` and `streaming`, as in `struct gc2607`;
- the resources found at probe time;
- `usage`, the runtime-PM reference count.

Each driver operation is a method that appends to the board's trace. Each
is proved against a function giving the exact events and return value for
every oracle:

| method | proved against |
|---|---|
| `WriteArray` | `Program.Walk` |
| `PowerOn` | `Power.PowerOnRun` |
| `PowerOff` | `Power.PowerOffEvents` |
| `Detect` | `Identity.DetectRun` |
| `SStream` | a combination of `PowerOnRun`, `Table.Program1080p` and `PowerOffEvents` |

Two things keep the invariant `Sensor.Valid` true between calls:

- `powered` holds exactly while a reference is held;
- streaming implies powered, and the replayed hardware state is the
  settled state that `powered` names.

Modules:

- `Registers`: constants and the byte layout of reads and writes.
- `Hardware`: events, replay, `Board`.
- `Program`: the executor's specification.
- `Table`: the 1080p program.
- `Power`: the power sequencer.
- `Identity`: the identity check.
- `Gc2607`: the driver object.

Points where the code does something other than its own comments or
names suggest, and which the model follows as written:

- **One register table.** The driver has a single register table that
  `gc2607_s_stream` names directly (gc2607.c:407), and no mode or format
  operation. The model has that one table and no mode catalog.
- **Reset level at power-off.** The comment at gc2607.c:370 says "Assert
  reset", but gc2607.c:372 sets logical 0. The convention at
  gc2607.c:310-312 defines 0 as de-asserted, that is running.
  `Power.PowerOffEffect` states the level the code sets.
- **Disabling the stream.** Disable clears `streaming` and drops a
  reference whatever `streaming` was (gc2607.c:418-419).
  `Gc2607.Sensor.SStream` does the same. Dropping a reference when the
  count is already zero changes nothing.
- **Failed program while already streaming.** When the table write fails,
  the enable branch returns at gc2607.c:408-412. `streaming` is assigned
  only at gc2607.c:415, so a failed second enable leaves it `true`. The
  model states `streaming == old(streaming)`.

## Model

| member | source | states |
|---|---|---|
| Registers.Hi | gc2607.c:72 | the first address byte is the quotient of the address by 256 |
| Registers.Lo | gc2607.c:73 | the second address byte is the remainder of the address by 256 |
| Registers.SplitJoin | gc2607.c:72-73 | joining the two address bytes gives back the 16-bit address |
| Registers.JoinSplit | gc2607.c:72-73 | splitting a joined word gives back its high and low bytes |
| Registers.AddressMessage | gc2607.c:72-79 | the address message of a read has exactly two bytes, high byte first, and they form the address |
| Registers.WriteMessage | gc2607.c:102-104 | the write message has exactly three bytes: the address, high byte first, then the value; its first two bytes are the address message |
| Registers.DecodeWrite | gc2607.c:102-106 | a device decodes exactly the three-byte messages, and re-encoding the decoded access gives the same bytes |
| Registers.DecodeWriteMessage | gc2607.c:102-106 | round trip: every write message decodes to the register and value that produced it |
| Registers.ChipIdBytes | gc2607.c:462-468 | the two identity bytes equal 0x26 and 0x07 exactly when the word they form is 0x2607 |
| Hardware.WriteTransfer | gc2607.c:102-106 | a register write is one transfer of one message that decodes to that register and value |
| Hardware.ReadTransfer | gc2607.c:72-87 | a register read is one transfer of two messages: the 2-byte address without the read flag, then a read of exactly one byte |
| Hardware.Board.Transfer | gc2607.c:87-91 | i2c_transfer: a negative error from the oracle, or the number of messages; the byte read; exactly one bus event appended |
| Hardware.Board.EnableRegulators | gc2607.c:285-290 | regulator_bulk_enable: 0 or the oracle's negative error; the event records whether the supplies came on |
| Hardware.Board.EnableClock | gc2607.c:297-301 | clk_prepare_enable: 0 or the oracle's negative error; the event records whether the clock came on |
| Hardware.Board.DisableRegulators | gc2607.c:383-384 | regulator_bulk_disable: exactly one regulator-disable event appended |
| Hardware.Board.DisableClock | gc2607.c:379-380 | clk_disable_unprepare: exactly one clock-disable event appended |
| Hardware.Board.SetGpio | gc2607.c:371-376 | gpiod_set_value_cansleep: exactly one event setting that line to that logical level, with no failure |
| Hardware.Board.Sleep | gc2607.c:127-128 | msleep: exactly one sleep event of the given milliseconds |
| Hardware.Board.SleepRange | gc2607.c:291-292 | usleep_range: exactly one sleep event with the given bounds |
| Program.FindEnd | gc2607.c:126 | the search stops at an end marker, and no entry it passed is one |
| Program.FirstEnd | gc2607.c:126 | the index of the first end marker of the table |
| Program.Walk | gc2607.c:126-137 | the executor's result is never positive, and it issues at most one event per entry |
| Program.WalkCompletes | gc2607.c:126-141 | when no write fails: one event per entry before the end marker, in table order (a sleep for a delay entry, a write for any other), and 0 |
| Program.WalkStopsAtFault | gc2607.c:130-136 | when the write of entry k fails first: exactly the events of entries up to k, entry k included, nothing after k and nothing undone, and k's error |
| Program.WalkReportsFault | gc2607.c:126-141 | the executor returns an error exactly when some write before the end marker fails |
| Program.LeastFault | gc2607.c:130-136 | if any write fails, there is a first failing write |
| Program.WalkOutcome | gc2607.c:119-142 | for every table and every pattern of bus failures: 0 with all entries issued in order, if and only if no write fails; otherwise the events up to the first failing write and its error |
| Program.WalkInert | gc2607.c:126-137 | the executor only writes registers and sleeps: it touches no regulator, clock or GPIO |
| Table.FirstRunsAreWrites | gc2607.c:149-214 | table entries 0-65 are register writes: neither a delay nor the end marker |
| Table.LastRunsAreWrites | gc2607.c:215-269 | table entries 66-120 are register writes: neither a delay nor the end marker |
| Table.Regs1080pShape | gc2607.c:148-271 | the 1080p table has 122 entries; its first end marker is entry 121; every entry before it is a write (there is no delay) |
| Table.WritesOutcome | gc2607.c:126-141 | for any table of n writes followed by an end marker: 0 exactly when none of the n calls fails, with every write issued in order; otherwise the events up to the first failing call and its error |
| Table.Program1080pOutcome | gc2607.c:148-271 | the 1080p program returns 0 exactly when none of its 121 writes fails, having then written the whole table in order; otherwise it stops after the first failing write and returns its error |
| Power.PowerOnEvents | gc2607.c:284-350 | the success sequence has 2 events for the regulators, 2 for the clock, 6 for the reset pulse and 4 for the power-down pulse, each only when present, and ends with the 20 ms boot wait |
| Power.PowerOnEventsSteps | gc2607.c:284-345 | the success sequence enables the regulators exactly when present, the clock exactly when present, and drives each line to 1 exactly when that line is present |
| Power.PowerOnStartsWithSupplies | gc2607.c:284-293 | with regulators present, the first step of a power-on is their enable |
| Power.PowerOnClockAfterSupplies | gc2607.c:284-304 | with a clock present, its enable comes right after the regulator step |
| Power.PowerOnEventsNoDisable | gc2607.c:284-350 | the success sequence disables no regulator or clock and makes no bus transfer |
| Power.PowerOnRun | gc2607.c:276-359 | a power-on never returns a positive value |
| Power.PowerOnNoBusTraffic | gc2607.c:276-359 | no event of a power-on is a bus transfer |
| Power.PowerOnFailsOnlyOnEnable | gc2607.c:284-301 | a power-on fails exactly when a present regulator set fails to enable, or a present clock fails to enable |
| Power.PowerOnEventsEffect | gc2607.c:284-350 | the full sequence leaves the present regulators and clock on and each present line at 0; it changes nothing else |
| Power.PowerOnEffect | gc2607.c:276-359 | from an unpowered settled state: success gives the powered settled state; either failure gives back the state exactly, with the regulators off again after a clock failure |
| Power.ClockFailureEffect | gc2607.c:296-358 | a clock failure undoes the regulator step |
| Power.PowerOffEvents | gc2607.c:370-384 | the power-off sequence sets reset to 0, power-down to 1, disables the clock and the regulators, each exactly when present, reset first and regulators last, and nothing else |
| Power.PowerOffEffect | gc2607.c:367-386 | power-off turns the present clock and regulators off, sets the present power-down line to 1 and the present reset line to 0 (de-asserted), and touches nothing else |
| Power.PowerOffSettles | gc2607.c:361-388 | powering off a settled, powered sensor gives the settled, unpowered state |
| Identity.DetectRun | gc2607.c:436-473 | 0 exactly when both reads succeed and form 0x2607; a failed high read returns its error and the low byte is not read; a failed low read returns its error; a mismatch returns -ENODEV |
| Gc2607.Sensor.constructor | gc2607.c:518-575 | after probe's resource acquisition: unpowered, not streaming, no reference held, with the resources found; the invariant holds |
| Gc2607.Sensor.ReadReg | gc2607.c:65-94 | one read transfer for the register; 0 and the byte read, or the bus's error |
| Gc2607.Sensor.WriteReg | gc2607.c:96-113 | one write transfer for the register and value; 0 or the bus's error |
| Gc2607.Sensor.WriteArray | gc2607.c:119-142 | the events and the return value are exactly those of `Walk` over the table |
| Gc2607.Sensor.WriteEntry | gc2607.c:127-137 | one loop turn: a sleep of `val` ms for a delay entry, else the write and its error |
| Gc2607.Sensor.PowerOn | gc2607.c:276-359 | the events and the return value are exactly those of `PowerOnRun`; `powered` becomes true on success and is unchanged on failure |
| Gc2607.Sensor.PulseReset | gc2607.c:314-328 | the reset line goes 0, 1, 0 with holds of 20, 20 and 10 ms, only when the line is present |
| Gc2607.Sensor.PulsePowerdown | gc2607.c:335-345 | the power-down line goes 1, 0 with holds of 10 and 10 ms, only when the line is present |
| Gc2607.Sensor.PowerOff | gc2607.c:361-388 | no event when not powered (so a second call is a no-op); otherwise reset 0, power-down 1, clock off, regulators off, each only when present; `powered` becomes false |
| Gc2607.Sensor.Detect | gc2607.c:436-473 | the events and the return value are exactly those of `DetectRun`; no driver field changes; the invariant is kept |
| Gc2607.Sensor.ResumeAndGet | gc2607.c:488-495 | taking the first reference runs a power-on and takes the reference only if it succeeds; any other reference is taken with no hardware event; the invariant is kept |
| Gc2607.Sensor.Acquire | gc2607.c:400 | taking a reference when one is held does nothing and succeeds; taking the first runs a power-on that fails exactly when a present regulator set or clock fails to enable, and otherwise issues the whole success sequence |
| Gc2607.Sensor.Put | gc2607.c:478-486 | dropping the last reference runs a power-off and dropping any other changes no hardware; no reference held means no change; the invariant is kept |
| Gc2607.Sensor.SStream | gc2607.c:393-423 | enable: a failed reference returns its error with nothing written; a failed program returns its error with the reference dropped again; otherwise streaming, one reference more, power-on events (if any) then the whole program; disable: not streaming and one reference fewer, whatever the previous state |
| Gc2607.Sensor.StreamOn | gc2607.c:399-415 | the enable branch, with the three outcomes above; `streaming` is set only after the whole program was written |
| Gc2607.Sensor.WriteMode | gc2607.c:407-412 | the 1080p program's events and result; the power state is unaffected |
| Gc2607.Sensor.StreamOff | gc2607.c:416-420 | the disable branch: `streaming` cleared, one reference dropped, a power-off on the last one |
| Gc2607.Sensor.Remove | gc2607.c:651-655 | power-off exactly when a reference is held (not suspended); afterward unpowered with every present resource off |
| Gc2607.Sensor.RuntimeSuspended | gc2607.c:653 | under the invariant, the device is suspended exactly when it is unpowered, and then it is not streaming |

## Left out

- Bus and framework mechanics: I2C transfers, regulator, clock and GPIO
  calls are abstract. Their outcomes come from the oracles `status` and
  `readback`, indexed by trace position. The sleeps are trace events with
  no duration.
- `i2c_master_send` returns a byte count, while `Board.Transfer` returns
  the number of messages. The driver only tests the result for being
  negative, so the difference is invisible.
- Runtime-PM scheduling and idle policy: `pm_runtime_resume_and_get` and
  `pm_runtime_put` are a usage count that powers on at 0→1 and off at 1→0
  immediately. Deferred autosuspend, the sticky runtime error and
  `pm_runtime_put_noidle` are not modelled.
- `Gc2607.Sensor.RuntimeSuspended` says the device is suspended exactly
  when no reference is held, which holds only because deferral is left out.
- Gc2607.Sensor.Put: requires `streaming ==> usage != 1`. That is, the
  last reference is not dropped while streaming. Every caller in the model
  meets it (disable clears `streaming` first), and it keeps the invariant
  "streaming implies powered". The kernel itself imposes no such rule.
- Gc2607.Sensor.Remove: models only the power step of `gc2607_remove`.
  The subdevice unregistration, entity cleanup and control-handler free
  have no state in this model.
- Probe: `gc2607_probe` is left out except for what its resource
  acquisition yields. That is the constructor's `Resources` flags: a
  missing regulator set, clock, reset or power-down line marks it absent.
  The probe-time sequence itself is not modelled as an operation. That
  sequence is set active, idle, take a reference, detect, put
  (gc2607.c:602-620). V4L2 subdevice and media-pad setup, the control
  handler, and the allocation and GPIO lookup failures are left out too.
- `gc2607_runtime_suspend` / `gc2607_runtime_resume` are the callbacks that
  `Put` and `ResumeAndGet` run directly.
- Logging (`dev_info`, `dev_err`, `dev_dbg`, `dev_warn`) has no
  observable effect in the model.
- The ACPI and I2C ID tables, the module metadata (`gc2607.mod.c`) and the
  Python raw-image viewers and white-balance calculators
  (`view_raw*.py`, `calculate_wb_gains.py`) are not part of this model.
  They are declarations and offline floating-point image processing, not
  driver logic.
- Concurrency: the host serializes every call, so none is modelled.
- The meaning of the individual 1080p register values: the table is
  modelled as data, entry by entry. No claim is made about what the sensor
  does with it.
