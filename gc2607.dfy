/** The GC2607 driver state (struct gc2607) and its operations: register
    access, the register-program executor, the power sequencer, the
    chip-identity check, the stream switch and the runtime-PM reference
    count that connects them. Each method appends what it does to the
    board's trace and is proved against the function that specifies it. */
module Gc2607 {
  import opened Registers
  import opened Hardware
  import opened Program
  import opened Table
  import opened Power
  import opened Identity

  class Sensor {
    /** The bus, the power resources and their trace. */
    const board: Board
    /** The optional resources obtained at probe time. */
    const res: Resources
    var streaming: bool
    var powered: bool
    /** The runtime-PM usage count. Taking the first reference powers the
        sensor on; dropping the last one powers it off. */
    var usage: nat

    /** Between calls: the sensor is powered exactly while a reference is
        held, it streams only while powered, and the power resources are
        in the state that `powered` names. */
    ghost predicate Valid()
      reads this, board
    {
      && (usage > 0 <==> powered)
      && (streaming ==> powered)
      && Settled(res, Replay(Attached, board.trace), powered)
    }

    /** The state at the end of a successful probe: unpowered, idle, no
        reference held, with the resources that probe found. */
    constructor (board: Board, res: Resources)
      requires board.trace == []
      ensures this.board == board && this.res == res
      ensures !powered && !streaming && usage == 0
      ensures Valid()
    {
      this.board := board;
      this.res := res;
      streaming := false;
      powered := false;
      usage := 0;
    }

    /** The runtime-PM status the driver reads at removal. With the idle
        policy left out, the device is suspended exactly when no reference
        is held. */
    predicate RuntimeSuspended(): (b: bool)
      reads this, board
      ensures Valid() ==> (b <==> !powered) && (b ==> !streaming)
    {
      usage == 0
    }

    /** gc2607_read_reg: one transfer of the two address bytes and a
        one-byte read; 0 and the byte read, or the bus's error number. */
    method ReadReg(reg: bv16) returns (ret: int, val: bv8)
      modifies board
      ensures board.trace == old(board.trace) + [I2c(ReadTransfer(reg))]
      ensures var n := old(|board.trace|);
        ret == (if board.status(n) < 0 then board.status(n) else 0) &&
        (ret == 0 ==> val == board.readback(n))
    {
      var r, rx := board.Transfer(ReadTransfer(reg));
      if r < 0 {
        return r, 0;
      }
      return 0, rx;
    }

    /** gc2607_write_reg: one three-byte transfer; 0 or the bus's error number. */
    method WriteReg(reg: bv16, val: bv8) returns (ret: int)
      modifies board
      ensures board.trace == old(board.trace) + [I2c(WriteTransfer(reg, val))]
      ensures var n := old(|board.trace|);
        ret == (if board.status(n) < 0 then board.status(n) else 0)
    {
      var r, _ := board.Transfer(WriteTransfer(reg, val));
      if r < 0 {
        return r;
      }
      return 0;
    }

    /** gc2607_write_array: walk the table in order up to its end marker,
        sleeping on delay entries and writing every other entry, and
        return the first write error at once. */
    method WriteArray(regs: seq<RegVal>) returns (ret: int)
      requires Terminated(regs)
      modifies board
      ensures var w := Walk(regs, 0, old(|board.trace|), board.status);
        ret == w.ret && board.trace == old(board.trace) + w.events
    {
      ghost var base := |board.trace|;
      var i: nat := 0;
      while regs[i].addr != REG_END
        invariant i <= FirstEnd(regs)
        invariant forall j :: 0 <= j < i ==> !WriteFails(regs, j, base, board.status)
        invariant board.trace == old(board.trace) + Events(regs[..i])
        decreases FirstEnd(regs) - i
      {
        ret := WriteEntry(regs[i]);
        EventsSnoc(regs, i);
        if ret < 0 {
          WalkStopsAtFault(regs, 0, i, base, board.status);
          assert regs[0..i + 1] == regs[..i + 1];
          return;
        }
        i := i + 1;
      }
      WalkCompletes(regs, 0, base, board.status);
      assert regs[0..i] == regs[..i];
      return 0;
    }

    /** One turn of the gc2607_write_array loop, on an entry other than the
        end marker: sleep `val` ms on a delay entry, else write the entry and
        return the write's error, if any. */
    method WriteEntry(e: RegVal) returns (ret: int)
      modifies board
      ensures board.trace == old(board.trace) + [EntryEvent(e)]
      ensures var n := old(|board.trace|);
        ret == (if e.addr != REG_DELAY && board.status(n) < 0 then board.status(n) else 0)
    {
      if e.addr == REG_DELAY {
        board.Sleep(e.val as nat);
        ret := 0;
      } else {
        ret := WriteReg(e.addr, e.val);
      }
    }

    /** gc2607_power_on. */
    method PowerOn() returns (ret: int)
      modifies this`powered, board
      ensures var r := PowerOnRun(res, old(|board.trace|), board.status);
        ret == r.ret && board.trace == old(board.trace) + r.events
      ensures powered == (ret == 0 || old(powered))
    {
      ghost var t0 := board.trace;
      if res.regulators {
        ret := board.EnableRegulators();
        if ret != 0 {
          assert PowerOnRun(res, |t0|, board.status) == Run([RegulatorsEnable(false)], ret);
          return;
        }
        board.SleepRange(5000, 6000);
      }
      assert board.trace == t0 + SuppliesOn(res);
      if res.clock {
        ret := board.EnableClock();
        if ret != 0 {
          if res.regulators {
            board.DisableRegulators();
          }
          assert PowerOnRun(res, |t0|, board.status) == Run(board.trace[|t0|..], ret);
          assert board.trace == t0 + board.trace[|t0|..];
          return;
        }
        board.SleepRange(5000, 6000);
      }
      ghost var t1 := board.trace;
      assert t1 == t0 + SuppliesOn(res) + ClockOn(res);
      PulseReset();
      ghost var t2 := board.trace;
      PulsePowerdown();
      board.Sleep(20);
      AppendAssoc(t0, SuppliesOn(res), ClockOn(res), ResetPulse(res), PowerdownPulse(res), [Msleep(20)]);
      assert board.trace == t0 + PowerOnEvents(res);
      assert PowerOnRun(res, |t0|, board.status) == Run(PowerOnEvents(res), 0);
      powered := true;
      ret := 0;
    }

    /** The reset step of gc2607_power_on, when the reset line is present. */
    method PulseReset()
      modifies board
      ensures board.trace == old(board.trace) + ResetPulse(res)
    {
      if res.reset {
        board.SetGpio(ResetLine, 0);
        board.Sleep(20);
        board.SetGpio(ResetLine, 1);
        board.Sleep(20);
        board.SetGpio(ResetLine, 0);
        board.Sleep(10);
      }
    }

    /** The power-down step of gc2607_power_on, when the line is present. */
    method PulsePowerdown()
      modifies board
      ensures board.trace == old(board.trace) + PowerdownPulse(res)
    {
      if res.powerdown {
        board.SetGpio(PowerdownLine, 1);
        board.Sleep(10);
        board.SetGpio(PowerdownLine, 0);
        board.Sleep(10);
      }
    }

    /** gc2607_power_off: nothing at all when the sensor is not powered,
        so a second call is a no-op. */
    method PowerOff()
      modifies this`powered, board
      ensures !powered
      ensures board.trace == old(board.trace) + (if old(powered) then PowerOffEvents(res) else [])
    {
      if !powered {
        return;
      }
      ghost var t0 := board.trace;
      if res.reset {
        board.SetGpio(ResetLine, 0);
      }
      assert board.trace == t0 + ResetOff(res);
      if res.powerdown {
        board.SetGpio(PowerdownLine, 1);
      }
      assert board.trace == t0 + ResetOff(res) + PowerdownOn(res);
      if res.clock {
        board.DisableClock();
      }
      assert board.trace == t0 + ResetOff(res) + PowerdownOn(res) + ClockOff(res);
      if res.regulators {
        board.DisableRegulators();
      }
      assert board.trace == t0 + ResetOff(res) + PowerdownOn(res) + ClockOff(res) + SuppliesOff(res);
      AppendAssoc4(t0, ResetOff(res), PowerdownOn(res), ClockOff(res), SuppliesOff(res));
      assert board.trace == t0 + PowerOffEvents(res);
      powered := false;
    }

    /** gc2607_detect: reads the two identity registers and changes no
        driver state. */
    method Detect() returns (ret: int)
      requires Valid()
      modifies board
      ensures var d := DetectRun(old(|board.trace|), board.status, board.readback);
        ret == d.ret && board.trace == old(board.trace) + d.events
      ensures Valid()
    {
      ghost var t0 := board.trace;
      var high: bv8 := 0;
      var low: bv8 := 0;
      ret, high := ReadReg(REG_CHIP_ID_H);
      if ret == 0 {
        ret, low := ReadReg(REG_CHIP_ID_L);
        if ret == 0 && (high != CHIP_ID_H || low != CHIP_ID_L) {
          ret := -ENODEV;
        }
      }
      ReplayAppendInert(Attached, t0, board.trace[|t0|..]);
      assert t0 + board.trace[|t0|..] == board.trace;
    }

    /** pm_runtime_resume_and_get: take a reference, powering the sensor
        on when it is the first; a failed power-on takes none. */
    method ResumeAndGet() returns (ret: int)
      requires Valid()
      modifies this`powered, this`usage, board
      ensures Valid()
      ensures var a := Acquire(old(usage), old(|board.trace|));
        ret == a.ret && board.trace == old(board.trace) + a.events
      ensures usage == (if ret == 0 then old(usage) + 1 else old(usage))
    {
      if usage == 0 {
        ghost var t0 := board.trace;
        PowerOnEffect(res, Replay(Attached, t0), |t0|, board.status);
        ret := PowerOn();
        ReplayAppend(Attached, t0, board.trace[|t0|..]);
        assert t0 + board.trace[|t0|..] == board.trace;
        if ret != 0 {
          return;
        }
      }
      usage := usage + 1;
      ret := 0;
    }

    /** pm_runtime_put: drop a reference, powering the sensor off when it
        was the last one. Dropping a reference that is not held changes
        nothing. */
    method Put()
      requires Valid()
      requires streaming ==> usage != 1
      modifies this`powered, this`usage, board
      ensures Valid()
      ensures usage == (if old(usage) == 0 then 0 else old(usage) - 1)
      ensures board.trace == old(board.trace) + (if old(usage) == 1 then PowerOffEvents(res) else [])
    {
      if usage == 0 {
        return;
      }
      usage := usage - 1;
      if usage == 0 {
        ghost var t0 := board.trace;
        PowerOffSettles(res, Replay(Attached, t0));
        PowerOff();
        ReplayAppend(Attached, t0, board.trace[|t0|..]);
        assert t0 + board.trace[|t0|..] == board.trace;
      }
    }

    /** What taking a reference does when `u` references are held and its
        first event would land at trace position `base`: a power-on for the
        first reference, nothing at all otherwise. */
    function Acquire(u: nat, base: nat): (r: Run)
      ensures r.ret <= 0
      ensures u > 0 ==> r.events == [] && r.ret == 0
      ensures u == 0 ==> (r.ret != 0 <==>
        (res.regulators && board.status(base) < 0) ||
        (res.clock && board.status(base + |SuppliesOn(res)|) < 0))
      ensures u == 0 && r.ret == 0 ==> r.events == PowerOnEvents(res)
    {
      if u == 0 then PowerOnRun(res, base, board.status) else Run([], 0)
    }

    /** gc2607_s_stream. Enable: take a reference, write the 1080p program
        and only then mark the sensor streaming; a failed program drops the
        reference again. Disable: clear `streaming` and drop a reference,
        whatever the state was. */
    method SStream(enable: bool) returns (ret: int)
      requires Valid()
      modifies this`streaming, this`powered, this`usage, board
      ensures Valid()
      ensures enable ==> var a := Acquire(old(usage), old(|board.trace|));
        a.ret != 0 ==>
          && ret == a.ret && usage == old(usage) && streaming == old(streaming)
          && board.trace == old(board.trace) + a.events
      ensures enable ==> var a := Acquire(old(usage), old(|board.trace|));
        var p := Program1080p(old(|board.trace|) + |a.events|, board.status);
        a.ret == 0 && p.ret != 0 ==>
          && ret == p.ret && usage == old(usage) && streaming == old(streaming)
          && board.trace == old(board.trace) + a.events + p.events
                            + (if old(usage) == 0 then PowerOffEvents(res) else [])
      ensures enable ==> var a := Acquire(old(usage), old(|board.trace|));
        var p := Program1080p(old(|board.trace|) + |a.events|, board.status);
        a.ret == 0 && p.ret == 0 ==>
          && ret == 0 && usage == old(usage) + 1 && streaming
          && board.trace == old(board.trace) + a.events + p.events
      ensures !enable ==>
        && ret == 0 && !streaming
        && usage == (if old(usage) == 0 then 0 else old(usage) - 1)
        && board.trace == old(board.trace) + (if old(usage) == 1 then PowerOffEvents(res) else [])
    {
      if enable {
        ret := StreamOn();
      } else {
        StreamOff();
        ret := 0;
      }
    }

    /** The enable branch of gc2607_s_stream. */
    method StreamOn() returns (ret: int)
      requires Valid()
      modifies this`streaming, this`powered, this`usage, board
      ensures Valid()
      ensures var a := Acquire(old(usage), old(|board.trace|));
        a.ret != 0 ==>
          && ret == a.ret && usage == old(usage) && streaming == old(streaming)
          && board.trace == old(board.trace) + a.events
      ensures var a := Acquire(old(usage), old(|board.trace|));
        var p := Program1080p(old(|board.trace|) + |a.events|, board.status);
        a.ret == 0 && p.ret != 0 ==>
          && ret == p.ret && usage == old(usage) && streaming == old(streaming)
          && board.trace == old(board.trace) + a.events + p.events
                            + (if old(usage) == 0 then PowerOffEvents(res) else [])
      ensures var a := Acquire(old(usage), old(|board.trace|));
        var p := Program1080p(old(|board.trace|) + |a.events|, board.status);
        a.ret == 0 && p.ret == 0 ==>
          && ret == 0 && usage == old(usage) + 1 && streaming
          && board.trace == old(board.trace) + a.events + p.events
    {
      ghost var t0 := board.trace;
      ghost var a := Acquire(usage, |t0|);
      ret := ResumeAndGet();
      assert ret == a.ret && board.trace == t0 + a.events;
      if ret != 0 {
        return;
      }
      ghost var t1 := board.trace;
      ghost var p := Program1080p(|t1|, board.status);
      ret := WriteMode();
      assert ret == p.ret && board.trace == t1 + p.events;
      if ret != 0 {
        Put();
        return;
      }
      streaming := true;
    }

    /** The write of the 1080p register program in gc2607_s_stream. It only
        writes registers and sleeps, so the power state stays settled. */
    method WriteMode() returns (ret: int)
      requires Valid()
      modifies board
      ensures Valid()
      ensures var program := Program1080p(old(|board.trace|), board.status);
        ret == program.ret && board.trace == old(board.trace) + program.events
    {
      ghost var t1 := board.trace;
      Regs1080pShape();
      WalkInert(Regs1080p, 0, |t1|, board.status);
      ret := WriteArray(Regs1080p);
      ReplayAppendInert(Attached, t1, board.trace[|t1|..]);
      assert t1 + board.trace[|t1|..] == board.trace;
    }

    /** The disable branch of gc2607_s_stream. */
    method StreamOff()
      requires Valid()
      modifies this`streaming, this`powered, this`usage, board
      ensures Valid()
      ensures !streaming
      ensures usage == (if old(usage) == 0 then 0 else old(usage) - 1)
      ensures board.trace == old(board.trace) + (if old(usage) == 1 then PowerOffEvents(res) else [])
    {
      streaming := false;
      Put();
    }

    /** The power step of gc2607_remove: power off unless runtime PM has
        the device suspended. */
    method Remove()
      requires Valid()
      modifies this`powered, board
      ensures !powered
      ensures board.trace == old(board.trace) + (if old(usage) > 0 then PowerOffEvents(res) else [])
      ensures Settled(res, Replay(Attached, board.trace), false)
    {
      if !RuntimeSuspended() {
        ghost var t0 := board.trace;
        PowerOffSettles(res, Replay(Attached, t0));
        PowerOff();
        ReplayAppend(Attached, t0, board.trace[|t0|..]);
        assert t0 + board.trace[|t0|..] == board.trace;
      }
    }
  }
}
