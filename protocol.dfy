/**
 * Each function of the DAC7731 driver as a function of the hardware state:
 * the result it returns and the state (trace, pin levels, pin flags) it
 * leaves. The class in module Driver runs the same steps imperatively and is
 * proved to agree with these functions.
 */
module Protocol {
  import opened Frame
  import opened Hardware

  /**
   * `dac7731_config_reset` / `dac7731_config_ldac`: check that the port is
   * present and ready, configure the pin, then drive it to logical 0.
   */
  function ConfigPin(env: Env, hw: Hw, pin: Pin, flags: PinFlags): (o: Outcome)
    ensures FailFast(env, hw, o)
    ensures !env.PortOf(pin).Ready() ==> o == Outcome(-ENODEV, hw)
    ensures o.ret == 0 <==>
      env.PortOf(pin).Ready() && Succeeded(env, |hw.trace|, |hw.trace| + 2)
    ensures o.ret == 0 ==>
      Added(hw, o.hw) == [Configure(pin, flags), Set(pin, 0)] &&
      o.hw.flags == hw.flags[pin := flags] && o.hw.level == hw.level[pin := 0]
    ensures Added(hw, o.hw) <= [Configure(pin, flags), Set(pin, 0)]
    ensures env.PortOf(pin).Ready() && o.ret != 0 ==> ReturnsFailingCode(env, hw, o)
  {
    if env.PortOf(pin).Absent? then Outcome(-ENODEV, hw)
    else if !env.PortOf(pin).ready then Outcome(-ENODEV, hw)
    else
      var c := Issue(env, hw, Configure(pin, flags));
      if c.ret != 0 then c
      else Issue(env, c.hw, Set(pin, 0))
  }

  /**
   * `dac7731_reset` (on RESET) and `dac7731_load_value` (on LDAC): check only
   * that the port is ready, then set the pin to 1 and back to 0. The second
   * set is issued only if the first one succeeded.
   */
  function Pulse(env: Env, hw: Hw, pin: Pin): (o: Outcome)
    ensures FailFast(env, hw, o)
    ensures !env.PortOf(pin).Ready() ==> o == Outcome(-ENODEV, hw)
    ensures o.ret == 0 <==> env.PortOf(pin).Ready() && Succeeded(env, |hw.trace|, |hw.trace| + 2)
    ensures o.ret == 0 ==>
      Added(hw, o.hw) == [Set(pin, 1), Set(pin, 0)] &&
      o.hw.flags == hw.flags && o.hw.level == hw.level[pin := 0]
    ensures env.PortOf(pin).Ready() && env.Status(|hw.trace|) != 0 ==>
      o.ret == env.Status(|hw.trace|) &&
      o.hw == hw.(trace := hw.trace + [Set(pin, 1)])
    ensures Added(hw, o.hw) <= [Set(pin, 1), Set(pin, 0)]
    ensures env.PortOf(pin).Ready() && o.ret != 0 ==> ReturnsFailingCode(env, hw, o)
  {
    if !env.PortOf(pin).Ready() then Outcome(-ENODEV, hw)
    else
      var a := Issue(env, hw, Set(pin, 1));
      if a.ret != 0 then a
      else Issue(env, a.hw, Set(pin, 0))
  }

  /**
   * `dac7731_write_value`. Channels above 1 are refused; channel 1 pulses
   * RESET whatever the value and whatever the context; channel 0 refuses to
   * run in an ISR, otherwise sends the clipped big-endian frame in one SPI
   * write and, only if that succeeded, pulses LDAC.
   */
  function WriteValue(env: Env, hw: Hw, channel: uint8, value: uint32, inIsr: bool): (o: Outcome)
    ensures FailFast(env, hw, o)
    ensures channel > 1 ==> o == Outcome(-ENOTSUP, hw)
    ensures channel == 1 ==> o == Pulse(env, hw, ResetPin)
    ensures channel == 0 && inIsr ==> o == Outcome(-EWOULDBLOCK, hw)
    ensures channel == 0 && !inIsr ==>
      |Added(hw, o.hw)| > 0 && Added(hw, o.hw)[0] == SpiWrite(Encode(value))
    ensures channel == 0 && !inIsr && env.Status(|hw.trace|) != 0 ==>
      o.ret == env.Status(|hw.trace|) && Added(hw, o.hw) == [SpiWrite(Encode(value))]
    ensures channel == 0 && !inIsr && env.Status(|hw.trace|) == 0 ==>
      o == Pulse(env, hw.(trace := hw.trace + [SpiWrite(Encode(value))]), LdacPin)
    ensures channel == 0 ==>
      (o.ret == 0 <==> !inIsr && env.ldacPort.Ready() && Succeeded(env, |hw.trace|, |hw.trace| + 3))
    ensures channel == 0 && !inIsr && env.ldacPort.Ready() && o.ret != 0 ==> ReturnsFailingCode(env, hw, o)
    ensures channel == 0 && o.ret == 0 ==>
      Added(hw, o.hw) == [SpiWrite(Encode(value)), Set(LdacPin, 1), Set(LdacPin, 0)] &&
      o.hw.level == hw.level[LdacPin := 0] && o.hw.flags == hw.flags
  {
    if channel > 1 then Outcome(-ENOTSUP, hw)
    else if channel == 1 then
      var r := Pulse(env, hw, ResetPin);
      if r.ret != 0 then r else Outcome(0, r.hw)
    else if inIsr then Outcome(-EWOULDBLOCK, hw)
    else
      var s := Issue(env, hw, SpiWrite(Encode(value)));
      if s.ret != 0 then s
      else
        var l := Pulse(env, s.hw, LdacPin);
        FailFastThen(env, hw, s, l);
        AddedThen(hw, s.hw, l.hw);
        if l.ret != 0 then l else Outcome(0, l.hw)
  }

  /** The six calls of a successful `dac7731_init`, in order. */
  const InitCalls: seq<Event> := [
    Configure(ResetPin, ResetFlags), Set(ResetPin, 0),
    Configure(LdacPin, LdacFlags), Set(LdacPin, 0),
    Set(ResetPin, 1), Set(ResetPin, 0)]

  /**
   * `dac7731_init`: configure RESET, then configure LDAC, then pulse RESET,
   * stopping at the first nonzero result and returning it.
   */
  function Init(env: Env, hw: Hw): (o: Outcome)
    ensures FailFast(env, hw, o)
    ensures !env.resetPort.Ready() ==> o == Outcome(-ENODEV, hw)
    ensures Added(hw, o.hw) <= InitCalls
    ensures (env.resetPort.Ready() && o.ret != 0 &&
             (env.ldacPort.Ready() || !Succeeded(env, |hw.trace|, |hw.trace| + 2))) ==>
      ReturnsFailingCode(env, hw, o)
  {
    var r := ConfigPin(env, hw, ResetPin, ResetFlags);
    var configReset := [Configure(ResetPin, ResetFlags), Set(ResetPin, 0)];
    var configLdac := [Configure(LdacPin, LdacFlags), Set(LdacPin, 0)];
    var pulse := [Set(ResetPin, 1), Set(ResetPin, 0)];
    assert InitCalls == configReset + (configLdac + pulse);
    PrefixThen([], Added(hw, r.hw), configReset);
    PrefixThen([], configReset, InitCalls);
    if r.ret != 0 then r
    else
      var l := ConfigPin(env, r.hw, LdacPin, LdacFlags);
      FailFastThen(env, hw, r, l);
      AddedThen(hw, r.hw, l.hw);
      PrefixThen(configReset, Added(r.hw, l.hw), configLdac + pulse);
      PrefixThen([], Added(r.hw, l.hw), configLdac);
      PrefixThen([], configLdac, configLdac + pulse);
      if l.ret != 0 then l
      else
        var p := Pulse(env, l.hw, ResetPin);
        FailFastThen(env, hw, l, p);
        AddedThen(hw, l.hw, p.hw);
        PrefixThen(configReset + configLdac, Added(l.hw, p.hw), pulse);
        if p.ret != 0 then p else Outcome(0, p.hw)
  }

  /**
   * Init succeeds exactly when both ports are present and ready and all six
   * calls succeed; it then leaves both pins configured and at logical 0.
   */
  lemma InitSucceeds(env: Env, hw: Hw)
    ensures Init(env, hw).ret == 0 <==>
      env.resetPort.Ready() && env.ldacPort.Ready() &&
      Succeeded(env, |hw.trace|, |hw.trace| + 6)
  {
  }

  lemma InitState(env: Env, hw: Hw)
    requires Init(env, hw).ret == 0
    ensures Added(hw, Init(env, hw).hw) == InitCalls
    ensures Init(env, hw).hw.flags == hw.flags[ResetPin := ResetFlags][LdacPin := LdacFlags]
    ensures Init(env, hw).hw.level == hw.level[ResetPin := 0][LdacPin := 0]
  {
  }

  /**
   * A present and configured RESET line does not save `init` when the LDAC
   * port is missing or not ready: RESET has already been configured, and no
   * LDAC call is made.
   */
  lemma InitWithoutLdacPort(env: Env, hw: Hw)
    requires env.resetPort.Ready()
    requires Succeeded(env, |hw.trace|, |hw.trace| + 2)
    requires !env.ldacPort.Ready()
    ensures Init(env, hw).ret == -ENODEV
    ensures Added(hw, Init(env, hw).hw) == [Configure(ResetPin, ResetFlags), Set(ResetPin, 0)]
  {
  }

  /** A write to the reset channel ignores both the value and the interrupt context. */
  lemma ResetChannelIgnoresValue(env: Env, hw: Hw, v: uint32, w: uint32, isr: bool, isr': bool)
    ensures WriteValue(env, hw, 1, v, isr) == WriteValue(env, hw, 1, w, isr')
  {
  }
}
