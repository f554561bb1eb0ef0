/** The world outside the driver: the I2C bus to the sensor, the
    regulator set, the master clock, the reset and power-down GPIO lines
    and the kernel's sleep calls. Everything the driver does to them is
    appended, in order, to one trace of hardware events; the outcome of
    each call is decided by an oracle indexed by the call's position in
    that trace. */
module Hardware {
  import opened Registers

  /** Five traces appended one after another are the first followed by
      the other four appended. Stated once so that the sequencer's proofs
      need not re-derive it. */
  lemma AppendAssoc(t: seq<Event>, a: seq<Event>, b: seq<Event>, c: seq<Event>, d: seq<Event>, e: seq<Event>)
    ensures t + a + b + c + d + e == t + (a + b + c + d + e)
  {
  }

  /** Four traces appended one after another are the first followed by
      the other three appended. */
  lemma AppendAssoc4(t: seq<Event>, a: seq<Event>, b: seq<Event>, c: seq<Event>, d: seq<Event>)
    ensures t + a + b + c + d == t + (a + b + c + d)
  {
  }

  /** One message of an I2C transfer: bytes sent (flags 0), or a number
      of bytes to read (flag I2C_M_RD). */
  datatype Msg = WriteMsg(buf: seq<bv8>) | ReadMsg(len: nat)

  /** i2c_master_send of a register write: one transfer of one message,
      the three bytes of the write, which the sensor decodes back into the
      register and the value. */
  function WriteTransfer(reg: bv16, val: bv8): (msgs: seq<Msg>)
    ensures |msgs| == 1 && msgs[0].WriteMsg?
    ensures DecodeWrite(msgs[0].buf) == Some(RegVal(reg, val))
  {
    DecodeWriteMessage(reg, val);
    [WriteMsg(WriteMessage(reg, val))]
  }

  /** The transfer of a register read: the two address bytes, high byte
      first and without the read flag, then a read of exactly one byte. */
  function ReadTransfer(reg: bv16): (msgs: seq<Msg>)
    ensures |msgs| == 2 && msgs[0].WriteMsg? && msgs[1] == ReadMsg(1)
    ensures |msgs[0].buf| == 2 && Word(msgs[0].buf[0], msgs[0].buf[1]) == reg
  {
    [WriteMsg(AddressMessage(reg)), ReadMsg(1)]
  }

  datatype Line = ResetLine | PowerdownLine

  /** One call into a hardware framework, as the driver issued it. A bus
      transfer shows its messages; an enable shows whether it succeeded,
      because a failed enable leaves the resource off. */
  datatype Event =
    | I2c(msgs: seq<Msg>)
    | RegulatorsEnable(ok: bool)
    | RegulatorsDisable
    | ClockEnable(ok: bool)
    | ClockDisable
    | GpioSet(line: Line, value: int)
    | Msleep(ms: nat)
    | UsleepRange(minUs: nat, maxUs: nat)

  /** The observable state of the power resources: whether the regulators
      and the clock are on, and the logical level of each GPIO line. */
  datatype HwState = HwState(regulators: bool, clock: bool, reset: int, powerdown: int)

  /** The state at attachment: nothing enabled, both lines requested as
      GPIOD_OUT_LOW, that is at logical level 0. */
  const Attached: HwState := HwState(false, false, 0, 0)

  /** What a call did to the hardware and what it returned. */
  datatype Run = Run(events: seq<Event>, ret: int)

  /** The effect of one event. A failed bulk or clock enable leaves the
      resource as it was; bus traffic and sleeps change no power state. */
  function Step(s: HwState, e: Event): HwState
  {
    match e
    case RegulatorsEnable(ok) => if ok then s.(regulators := true) else s
    case RegulatorsDisable => s.(regulators := false)
    case ClockEnable(ok) => if ok then s.(clock := true) else s
    case ClockDisable => s.(clock := false)
    case GpioSet(ResetLine, v) => s.(reset := v)
    case GpioSet(PowerdownLine, v) => s.(powerdown := v)
    case _ => s
  }

  /** The state reached from `s` by the events of `t`, in order. */
  function Replay(s: HwState, t: seq<Event>): HwState
    decreases |t|
  {
    if t == [] then s else Replay(Step(s, t[0]), t[1..])
  }

  /** Replaying a trace in two pieces is replaying it whole. */
  lemma {:induction false} ReplayAppend(s: HwState, a: seq<Event>, b: seq<Event>)
    ensures Replay(s, a + b) == Replay(Replay(s, a), b)
    decreases |a|
  {
    if a == [] {
      assert a + b == b;
    } else {
      assert (a + b)[0] == a[0] && (a + b)[1..] == a[1..] + b;
      ReplayAppend(Step(s, a[0]), a[1..], b);
    }
  }

  /** Events that touch no regulator, clock or GPIO leave the state as it is. */
  lemma {:induction false} ReplayInert(s: HwState, t: seq<Event>)
    requires forall i :: 0 <= i < |t| ==> Inert(t[i])
    ensures Replay(s, t) == s
    decreases |t|
  {
    if t != [] {
      ReplayInert(s, t[1..]);
    }
  }

  /** Predicate of the events that change no power state. */
  predicate Inert(e: Event)
  {
    e.I2c? || e.Msleep? || e.UsleepRange?
  }

  /** Bus traffic and sleeps appended to a trace leave its state as it was. */
  lemma ReplayAppendInert(s: HwState, t: seq<Event>, u: seq<Event>)
    requires forall i :: 0 <= i < |u| ==> Inert(u[i])
    ensures Replay(s, t + u) == Replay(s, t)
  {
    ReplayAppend(s, t, u);
    ReplayInert(Replay(s, t), u);
  }

  /** The bus, the power frameworks and the sleep calls, with the trace of
      everything done to them. `status(n)` is the raw return value of the
      call that becomes `trace[n]` (negative is an error number);
      `readback(n)` is the byte a read transfer at `trace[n]` receives. */
  class Board {
    var trace: seq<Event>
    const status: nat -> int
    const readback: nat -> bv8

    constructor (status: nat -> int, readback: nat -> bv8)
      ensures this.status == status && this.readback == readback
      ensures trace == []
    {
      this.status := status;
      this.readback := readback;
      trace := [];
    }

    /** i2c_transfer: a negative error number, or the number of messages
        transferred; `rx` is the byte a read message receives. */
    method Transfer(msgs: seq<Msg>) returns (ret: int, rx: bv8)
      modifies this
      ensures ret == (if status(old(|trace|)) < 0 then status(old(|trace|)) else |msgs|)
      ensures rx == readback(old(|trace|))
      ensures trace == old(trace) + [I2c(msgs)]
    {
      var n := |trace|;
      ret := if status(n) < 0 then status(n) else |msgs|;
      rx := readback(n);
      trace := trace + [I2c(msgs)];
    }

    /** regulator_bulk_enable: 0, or a negative error number after which
        no supply of the set is left enabled. */
    method EnableRegulators() returns (ret: int)
      modifies this
      ensures ret == (if status(old(|trace|)) < 0 then status(old(|trace|)) else 0)
      ensures trace == old(trace) + [RegulatorsEnable(ret == 0)]
    {
      var n := |trace|;
      ret := if status(n) < 0 then status(n) else 0;
      trace := trace + [RegulatorsEnable(ret == 0)];
    }

    method DisableRegulators()
      modifies this
      ensures trace == old(trace) + [RegulatorsDisable]
    {
      trace := trace + [RegulatorsDisable];
    }

    /** clk_prepare_enable: 0, or a negative error number with the clock
        left off. */
    method EnableClock() returns (ret: int)
      modifies this
      ensures ret == (if status(old(|trace|)) < 0 then status(old(|trace|)) else 0)
      ensures trace == old(trace) + [ClockEnable(ret == 0)]
    {
      var n := |trace|;
      ret := if status(n) < 0 then status(n) else 0;
      trace := trace + [ClockEnable(ret == 0)];
    }

    /** clk_disable_unprepare. */
    method DisableClock()
      modifies this
      ensures trace == old(trace) + [ClockDisable]
    {
      trace := trace + [ClockDisable];
    }

    /** gpiod_set_value_cansleep: sets the logical level, cannot fail. */
    method SetGpio(line: Line, value: int)
      modifies this
      ensures trace == old(trace) + [GpioSet(line, value)]
    {
      trace := trace + [GpioSet(line, value)];
    }

    method Sleep(ms: nat)
      modifies this
      ensures trace == old(trace) + [Msleep(ms)]
    {
      trace := trace + [Msleep(ms)];
    }

    method SleepRange(minUs: nat, maxUs: nat)
      modifies this
      ensures trace == old(trace) + [UsleepRange(minUs, maxUs)]
    {
      trace := trace + [UsleepRange(minUs, maxUs)];
    }
  }
}
