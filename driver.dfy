/**
 * The DAC7731 driver as it runs: one device instance holding its
 * environment (ports and failure oracle) and the hardware state it drives.
 * Every method issues the same calls in the same order as the C function of
 * the same name and is proved to agree with the matching function of module
 * Protocol, whose contracts state what each operation promises.
 */
module Driver {
  import opened Frame
  import opened Hardware
  import Protocol

  class Dac7731 {
    const env: Env
    /** Every primitive call issued so far. */
    ghost var trace: seq<Event>
    /** Number of primitive calls issued so far: the ordinal of the next call. */
    var calls: nat
    var level: map<Pin, Level>
    var flags: map<Pin, PinFlags>

    ghost predicate Valid()
      reads this
    {
      calls == |trace|
    }

    ghost function State(): Hw
      reads this
    {
      Hw(trace, level, flags)
    }

    /** A device before `init`, with whatever pin levels and flags the hardware starts in. */
    constructor (env: Env, level: map<Pin, Level>, flags: map<Pin, PinFlags>)
      ensures Valid() && this.env == env && State() == Hw([], level, flags)
    {
      this.env := env;
      trace := [];
      calls := 0;
      this.level := level;
      this.flags := flags;
    }

    /** `gpio_pin_configure_dt`. */
    method PinConfigure(pin: Pin, f: PinFlags) returns (ret: int)
      requires Valid()
      modifies this
      ensures Valid()
      ensures Outcome(ret, State()) == Issue(env, old(State()), Configure(pin, f))
    {
      ret := env.Status(calls);
      trace := trace + [Configure(pin, f)];
      calls := calls + 1;
      if ret == 0 {
        flags := flags[pin := f];
      }
    }

    /** `gpio_pin_set_dt`. */
    method PinSet(pin: Pin, l: Level) returns (ret: int)
      requires Valid()
      modifies this
      ensures Valid()
      ensures Outcome(ret, State()) == Issue(env, old(State()), Set(pin, l))
    {
      ret := env.Status(calls);
      trace := trace + [Set(pin, l)];
      calls := calls + 1;
      if ret == 0 {
        level := level[pin := l];
      }
    }

    /** `spi_write_dt` with a single buffer. */
    method SpiTransmit(bytes: seq<uint8>) returns (ret: int)
      requires Valid()
      modifies this
      ensures Valid()
      ensures Outcome(ret, State()) == Issue(env, old(State()), SpiWrite(bytes))
    {
      ret := env.Status(calls);
      trace := trace + [SpiWrite(bytes)];
      calls := calls + 1;
    }

    /** `dac7731_config_reset`. */
    method ConfigReset() returns (ret: int)
      requires Valid()
      modifies this
      ensures Valid()
      ensures Outcome(ret, State()) == Protocol.ConfigPin(env, old(State()), ResetPin, ResetFlags)
    {
      var port := env.PortOf(ResetPin);
      if port.Absent? {
        return -ENODEV;
      }
      if !port.ready {
        return -ENODEV;
      }
      ret := PinConfigure(ResetPin, ResetFlags);
      if ret != 0 {
        return ret;
      }
      ret := PinSet(ResetPin, 0);
      if ret != 0 {
        return ret;
      }
      return 0;
    }

    /** `dac7731_config_ldac`. */
    method ConfigLdac() returns (ret: int)
      requires Valid()
      modifies this
      ensures Valid()
      ensures Outcome(ret, State()) == Protocol.ConfigPin(env, old(State()), LdacPin, LdacFlags)
    {
      var port := env.PortOf(LdacPin);
      if port.Absent? {
        return -ENODEV;
      }
      if !port.ready {
        return -ENODEV;
      }
      ret := PinConfigure(LdacPin, LdacFlags);
      if ret != 0 {
        return ret;
      }
      ret := PinSet(LdacPin, 0);
      if ret != 0 {
        return ret;
      }
      return 0;
    }

    /** `dac7731_reset`: readiness is checked, a missing port is not. */
    method Reset() returns (ret: int)
      requires Valid()
      modifies this
      ensures Valid()
      ensures Outcome(ret, State()) == Protocol.Pulse(env, old(State()), ResetPin)
    {
      if !env.PortOf(ResetPin).Ready() {
        return -ENODEV;
      }
      ret := PinSet(ResetPin, 1);
      if ret != 0 {
        return ret;
      }
      ret := PinSet(ResetPin, 0);
      if ret != 0 {
        return ret;
      }
      return 0;
    }

    /** `dac7731_load_value`: readiness is checked, a missing port is not. */
    method LoadValue() returns (ret: int)
      requires Valid()
      modifies this
      ensures Valid()
      ensures Outcome(ret, State()) == Protocol.Pulse(env, old(State()), LdacPin)
    {
      if !env.PortOf(LdacPin).Ready() {
        return -ENODEV;
      }
      ret := PinSet(LdacPin, 1);
      if ret != 0 {
        return ret;
      }
      ret := PinSet(LdacPin, 0);
      if ret != 0 {
        return ret;
      }
      return 0;
    }

    /** `dac7731_write_value`; `inIsr` is what `k_is_in_isr()` answers for this call. */
    method WriteValue(channel: uint8, value: uint32, inIsr: bool) returns (ret: int)
      requires Valid()
      modifies this
      ensures Valid()
      ensures Outcome(ret, State()) == Protocol.WriteValue(env, old(State()), channel, value, inIsr)
      ensures channel > 1 ==> ret == -ENOTSUP && trace == old(trace)
      ensures channel != 0 ==> forall e | e in trace[|old(trace)|..] :: !e.SpiWrite?
    {
      if channel > 1 {
        return -ENOTSUP;
      } else if channel == 1 {
        ret := Reset();
        if ret != 0 {
          return ret;
        }
        return 0;
      }
      var frame := Encode(value);
      if inIsr {
        return -EWOULDBLOCK;
      }
      ret := SpiTransmit(frame);
      if ret != 0 {
        return ret;
      }
      ret := LoadValue();
      if ret != 0 {
        return ret;
      }
      return 0;
    }

    /** `dac7731_init`. */
    method Init() returns (ret: int)
      requires Valid()
      modifies this
      ensures Valid()
      ensures Outcome(ret, State()) == Protocol.Init(env, old(State()))
    {
      ret := ConfigReset();
      if ret != 0 {
        return ret;
      }
      ret := ConfigLdac();
      if ret != 0 {
        return ret;
      }
      ret := Reset();
      if ret != 0 {
        return ret;
      }
      return 0;
    }
  }
}
