/** The power sequencer (gc2607_power_on, gc2607_power_off) as functions of
    the resources present: the events each issues, and what those events
    do to the regulators, the clock and the two GPIO lines. */
module Power {
  import opened Hardware

  /** Which of the four optional resources the driver obtained at probe
      time. An absent resource is handled by the platform, and every step
      that would drive it is skipped. */
  datatype Resources = Resources(regulators: bool, clock: bool, reset: bool, powerdown: bool)

  /** The reset pulse: logical 0 (running), 1 (in reset), 0 again, with
      holds of 20, 20 and 10 ms; nothing without a reset line. */
  function ResetPulse(res: Resources): seq<Event>
  {
    if res.reset then
      [GpioSet(ResetLine, 0), Msleep(20), GpioSet(ResetLine, 1), Msleep(20),
       GpioSet(ResetLine, 0), Msleep(10)]
    else []
  }

  /** The power-down pulse: 1 (powered down), then 0 (running), each held
      10 ms; nothing without a power-down line. */
  function PowerdownPulse(res: Resources): seq<Event>
  {
    if res.powerdown then
      [GpioSet(PowerdownLine, 1), Msleep(10), GpioSet(PowerdownLine, 0), Msleep(10)]
    else []
  }

  /** The regulator step when it succeeds: enable, then settle 5-6 ms. */
  function SuppliesOn(res: Resources): seq<Event>
  {
    if res.regulators then [RegulatorsEnable(true), UsleepRange(5000, 6000)] else []
  }

  /** The clock step when it succeeds: enable, then settle 5-6 ms. */
  function ClockOn(res: Resources): seq<Event>
  {
    if res.clock then [ClockEnable(true), UsleepRange(5000, 6000)] else []
  }

  /** Everything a successful power-on issues, in order, ending with the
      20 ms wait for the sensor to boot. */
  function PowerOnEvents(res: Resources): (evs: seq<Event>)
    ensures |evs| == (if res.regulators then 2 else 0) + (if res.clock then 2 else 0)
                     + (if res.reset then 6 else 0) + (if res.powerdown then 4 else 0) + 1
    ensures evs[|evs| - 1] == Msleep(20)
  {
    SuppliesOn(res) + ClockOn(res) + ResetPulse(res) + PowerdownPulse(res) + [Msleep(20)]
  }

  /** The success sequence enables exactly the present supplies and clock
      and pulses exactly the present lines. */
  lemma PowerOnEventsSteps(res: Resources)
    ensures var evs := PowerOnEvents(res);
      && (RegulatorsEnable(true) in evs <==> res.regulators)
      && (ClockEnable(true) in evs <==> res.clock)
      && (GpioSet(ResetLine, 1) in evs <==> res.reset)
      && (GpioSet(PowerdownLine, 1) in evs <==> res.powerdown)
  {
    var a, b, c, d := SuppliesOn(res), ClockOn(res), ResetPulse(res), PowerdownPulse(res);
    assert PowerOnEvents(res) == a + b + c + d + [Msleep(20)];
    assert RegulatorsEnable(true) in a <==> res.regulators;
    assert RegulatorsEnable(true) !in b + c + d + [Msleep(20)];
    assert ClockEnable(true) in b <==> res.clock;
    assert ClockEnable(true) !in a && ClockEnable(true) !in c + d + [Msleep(20)];
    assert GpioSet(ResetLine, 1) in c <==> res.reset;
    assert GpioSet(ResetLine, 1) !in a + b && GpioSet(ResetLine, 1) !in d + [Msleep(20)];
    assert GpioSet(PowerdownLine, 1) in d <==> res.powerdown;
    assert GpioSet(PowerdownLine, 1) !in a + b + c && GpioSet(PowerdownLine, 1) !in [Msleep(20)];
  }

  /** The success sequence starts with the regulator enable when the
      regulators are present. */
  lemma PowerOnStartsWithSupplies(res: Resources)
    requires res.regulators
    ensures PowerOnEvents(res)[0] == RegulatorsEnable(true)
  {
    var tail := ClockOn(res) + ResetPulse(res) + PowerdownPulse(res) + [Msleep(20)];
    assert SuppliesOn(res)[0] == RegulatorsEnable(true);
    assert PowerOnEvents(res) == SuppliesOn(res) + tail;
  }

  /** The clock is enabled right after the regulator step, when present. */
  lemma PowerOnClockAfterSupplies(res: Resources)
    requires res.clock
    ensures PowerOnEvents(res)[|SuppliesOn(res)|] == ClockEnable(true)
  {
    var tail := ResetPulse(res) + PowerdownPulse(res) + [Msleep(20)];
    assert PowerOnEvents(res) == SuppliesOn(res) + ([ClockEnable(true), UsleepRange(5000, 6000)] + tail);
  }

  /** The success sequence disables nothing and issues no bus traffic. */
  lemma PowerOnEventsNoDisable(res: Resources)
    ensures forall e :: e in PowerOnEvents(res) ==> !e.I2c? && !e.RegulatorsDisable? && !e.ClockDisable?
  {
    var a, b, c, d := SuppliesOn(res), ClockOn(res), ResetPulse(res), PowerdownPulse(res);
    assert forall e :: e in a ==> !e.I2c? && !e.RegulatorsDisable? && !e.ClockDisable?;
    assert forall e :: e in b ==> !e.I2c? && !e.RegulatorsDisable? && !e.ClockDisable?;
    assert forall e :: e in c ==> !e.I2c? && !e.RegulatorsDisable? && !e.ClockDisable?;
    assert forall e :: e in d ==> !e.I2c? && !e.RegulatorsDisable? && !e.ClockDisable?;
  }

  /** gc2607_power_on, called when its first event lands at trace position
      `base`. A regulator failure returns at once; a clock failure first
      disables the regulators it enabled; otherwise the whole sequence runs
      and 0 is returned. */
  function PowerOnRun(res: Resources, base: nat, status: nat -> int): (r: Run)
    ensures r.ret <= 0
  {
    if res.regulators && status(base) < 0 then
      Run([RegulatorsEnable(false)], status(base))
    else
      var c := base + |SuppliesOn(res)|;
      if res.clock && status(c) < 0 then
        Run(SuppliesOn(res) + [ClockEnable(false)] + (if res.regulators then [RegulatorsDisable] else []), status(c))
      else
        Run(PowerOnEvents(res), 0)
  }

  /** The four steps of gc2607_power_off, each issued only when its
      resource is present: reset line to 0, power-down line to 1, clock
      off, regulators off. */
  function ResetOff(res: Resources): seq<Event>
  {
    if res.reset then [GpioSet(ResetLine, 0)] else []
  }

  function PowerdownOn(res: Resources): seq<Event>
  {
    if res.powerdown then [GpioSet(PowerdownLine, 1)] else []
  }

  function ClockOff(res: Resources): seq<Event>
  {
    if res.clock then [ClockDisable] else []
  }

  function SuppliesOff(res: Resources): seq<Event>
  {
    if res.regulators then [RegulatorsDisable] else []
  }

  /** What gc2607_power_off issues when the sensor is powered, in order. */
  function PowerOffEvents(res: Resources): (evs: seq<Event>)
    ensures |evs| == (if res.reset then 1 else 0) + (if res.powerdown then 1 else 0)
                     + (if res.clock then 1 else 0) + (if res.regulators then 1 else 0)
    ensures GpioSet(ResetLine, 0) in evs <==> res.reset
    ensures GpioSet(PowerdownLine, 1) in evs <==> res.powerdown
    ensures ClockDisable in evs <==> res.clock
    ensures RegulatorsDisable in evs <==> res.regulators
    ensures res.reset ==> evs[0] == GpioSet(ResetLine, 0)
    ensures res.regulators ==> evs[|evs| - 1] == RegulatorsDisable
    ensures forall e :: e in evs ==> e.GpioSet? || e.ClockDisable? || e.RegulatorsDisable?
  {
    ResetOff(res) + PowerdownOn(res) + ClockOff(res) + SuppliesOff(res)
  }

  /** The hardware state between calls: the present regulators and clock
      are on exactly while the sensor is powered, the reset line is at
      logical 0, and the power-down line is at 0 while the sensor is powered
      (an absent line is never driven and keeps its requested level 0). */
  predicate Settled(res: Resources, s: HwState, powered: bool)
  {
    && s.regulators == (res.regulators && powered)
    && s.clock == (res.clock && powered)
    && s.reset == 0
    && (powered || !res.powerdown ==> s.powerdown == 0)
  }

  /** A power-on issues no bus traffic: it cannot write a register. */
  lemma PowerOnNoBusTraffic(res: Resources, base: nat, status: nat -> int)
    ensures forall e :: e in PowerOnRun(res, base, status).events ==> !e.I2c?
  {
    var a, b, c, d := SuppliesOn(res), ClockOn(res), ResetPulse(res), PowerdownPulse(res);
    assert forall e :: e in a ==> !e.I2c?;
    assert forall e :: e in b ==> !e.I2c?;
    assert forall e :: e in c ==> !e.I2c?;
    assert forall e :: e in d ==> !e.I2c?;
    assert forall e :: e in a + b + c + d + [Msleep(20)] ==> !e.I2c?;
  }

  /** Where a power-on may fail: the regulator enable, when the regulators
      are present, or the clock enable, when the clock is present. */
  lemma PowerOnFailsOnlyOnEnable(res: Resources, base: nat, status: nat -> int)
    ensures PowerOnRun(res, base, status).ret != 0 <==>
      (res.regulators && status(base) < 0) ||
      (res.clock && status(base + if res.regulators then 2 else 0) < 0)
  {
  }

  /** What the full power-on sequence does from any state: the present
      regulators and clock are on, and each present line ends at 0. */
  lemma {:induction false} PowerOnEventsEffect(res: Resources, s: HwState)
    ensures Replay(s, PowerOnEvents(res)) ==
      HwState(s.regulators || res.regulators, s.clock || res.clock,
              if res.reset then 0 else s.reset,
              if res.powerdown then 0 else s.powerdown)
  {
    var a, b, c, d := SuppliesOn(res), ClockOn(res), ResetPulse(res), PowerdownPulse(res);
    ReplayAppend(s, a, b);
    ReplayAppend(s, a + b, c);
    ReplayAppend(s, a + b + c, d);
    ReplayAppend(s, a + b + c + d, [Msleep(20)]);
    SegmentEffects(s);
    SegmentEffects(Replay(s, a));
    SegmentEffects(Replay(s, a + b));
    SegmentEffects(Replay(s, a + b + c));
    SegmentEffects(Replay(s, a + b + c + d));
  }

  /** A power-on that succeeds leaves the present regulators and clock on
      and both lines at 0 (running); one that fails leaves every resource as
      it found it, the regulators included when the clock failed. */
  lemma {:induction false} PowerOnEffect(res: Resources, s: HwState, base: nat, status: nat -> int)
    requires Settled(res, s, false)
    ensures var r := PowerOnRun(res, base, status);
      (r.ret == 0 ==> Settled(res, Replay(s, r.events), true)) &&
      (r.ret != 0 ==> Replay(s, r.events) == s)
  {
    var supplies := SuppliesOn(res);
    if res.regulators && status(base) < 0 {
      assert Replay(s, [RegulatorsEnable(false)]) == s;
    } else if res.clock && status(base + |supplies|) < 0 {
      ClockFailureEffect(res, s);
    } else {
      PowerOnEventsEffect(res, s);
    }
  }

  /** A clock failure undoes the regulator step: the state is as before. */
  lemma ClockFailureEffect(res: Resources, s: HwState)
    requires !s.regulators
    ensures Replay(s, SuppliesOn(res) + [ClockEnable(false)]
                      + (if res.regulators then [RegulatorsDisable] else [])) == s
  {
    if res.regulators {
      assert SuppliesOn(res) + [ClockEnable(false)] + [RegulatorsDisable]
          == [RegulatorsEnable(true), UsleepRange(5000, 6000), ClockEnable(false), RegulatorsDisable];
      assert Replay(s, [RegulatorsEnable(true), UsleepRange(5000, 6000), ClockEnable(false), RegulatorsDisable]) == s;
    } else {
      assert SuppliesOn(res) + [ClockEnable(false)] + [] == [ClockEnable(false)];
      assert Replay(s, [ClockEnable(false)]) == s;
    }
  }

  /** The effect of each fixed run of events the sequencer issues. */
  lemma SegmentEffects(s: HwState)
    ensures Replay(s, [RegulatorsEnable(true), UsleepRange(5000, 6000)]) == s.(regulators := true)
    ensures Replay(s, [ClockEnable(true), UsleepRange(5000, 6000)]) == s.(clock := true)
    ensures Replay(s, [GpioSet(ResetLine, 0), Msleep(20), GpioSet(ResetLine, 1), Msleep(20),
                       GpioSet(ResetLine, 0), Msleep(10)]) == s.(reset := 0)
    ensures Replay(s, [GpioSet(PowerdownLine, 1), Msleep(10), GpioSet(PowerdownLine, 0), Msleep(10)])
            == s.(powerdown := 0)
    ensures Replay(s, [Msleep(20)]) == s
  {
  }

  /** What a power-off does from any state: the present regulators and clock
      are off, the reset line is at 0 and the power-down line at 1. The
      reset line is thus left at logical 0, which for this active-low line
      means NOT held in reset. */
  lemma {:induction false} PowerOffEffect(res: Resources, s: HwState)
    ensures Replay(s, PowerOffEvents(res)) ==
      HwState(s.regulators && !res.regulators, s.clock && !res.clock,
              if res.reset then 0 else s.reset,
              if res.powerdown then 1 else s.powerdown)
  {
    var a, b, c, d := ResetOff(res), PowerdownOn(res), ClockOff(res), SuppliesOff(res);
    ReplayAppend(s, a, b);
    ReplayAppend(s, a + b, c);
    ReplayAppend(s, a + b + c, d);
    var s1 := Replay(s, a);
    ReplayAtMostOne(s, a);
    var s2 := Replay(s1, b);
    ReplayAtMostOne(s1, b);
    var s3 := Replay(s2, c);
    ReplayAtMostOne(s2, c);
    ReplayAtMostOne(s3, d);
  }

  /** Replaying no event or a single one. */
  lemma ReplayAtMostOne(s: HwState, t: seq<Event>)
    requires |t| <= 1
    ensures Replay(s, t) == if t == [] then s else Step(s, t[0])
  {
    if t != [] {
      assert t[1..] == [];
    }
  }

  /** Powering off a settled, powered sensor leaves it settled and unpowered. */
  lemma PowerOffSettles(res: Resources, s: HwState)
    requires Settled(res, s, true)
    ensures Settled(res, Replay(s, PowerOffEvents(res)), false)
  {
    PowerOffEffect(res, s);
  }
}
