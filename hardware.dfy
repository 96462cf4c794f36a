/**
 * The driver's view of its hardware: the two GPIO lines (RESET, LDAC), the
 * SPI bus, and the record of calls made on them. The Zephyr primitives
 * (`gpio_pin_configure_dt`, `gpio_pin_set_dt`, `spi_write_dt`) are not
 * modelled by what they do on silicon: each call is appended to a trace and
 * returns the code an oracle fixes for that call's ordinal, 0 meaning success.
 * Whether a port is present (`port != NULL`) and ready (`gpio_is_ready_dt`)
 * are plain inputs; a missing port is never ready, as `device_is_ready`
 * reports a NULL device as not ready.
 */
module Hardware {
  import opened Frame

  /** Zephyr's errno values; the driver returns them negated. */
  const ENODEV: int := 19
  const EWOULDBLOCK: int := 11 // equal to EAGAIN
  const ENOTSUP: int := 134

  /** A logical pin level as passed to `gpio_pin_set_dt`. */
  type Level = l: int | 0 <= l <= 1

  datatype Pin = ResetPin | LdacPin

  /** The configuration flags of a GPIO line: output or not, active-low or active-high. */
  datatype PinFlags = PinFlags(output: bool, activeLow: bool)

  /** `GPIO_OUTPUT | GPIO_ACTIVE_LOW`, the RESET line's configuration. */
  const ResetFlags := PinFlags(true, true)
  /** `GPIO_OUTPUT | GPIO_ACTIVE_HIGH`, the LDAC line's configuration. */
  const LdacFlags := PinFlags(true, false)

  /** One call into a hardware primitive. */
  datatype Event =
    | Configure(pin: Pin, flags: PinFlags)
    | Set(pin: Pin, level: Level)
    | SpiWrite(bytes: seq<uint8>)

  /** What the devicetree gives for one GPIO line: no port (NULL), or a port that is ready or not. */
  datatype Port = Absent | Present(ready: bool) {
    /** What `gpio_is_ready_dt` answers. */
    predicate Ready() {
      Present? && ready
    }
  }

  /**
   * The environment of one device instance: both GPIO ports, and the oracle
   * `failures` saying which call (by its ordinal, counting from 0) fails and
   * with which code.
   */
  datatype Env = Env(resetPort: Port, ldacPort: Port, failures: map<nat, int>) {
    function PortOf(pin: Pin): Port {
      match pin
      case ResetPin => resetPort
      case LdacPin => ldacPort
    }

    /** The code returned by the call with ordinal k. */
    function Status(k: nat): int {
      if k in failures then failures[k] else 0
    }
  }

  /**
   * The hardware state: the trace of every call issued so far (whatever it
   * returned), the level last set successfully on each pin and the flags last
   * configured successfully; a pin missing from a map has not been set.
   */
  datatype Hw = Hw(trace: seq<Event>, level: map<Pin, Level>, flags: map<Pin, PinFlags>)

  /** What a driver operation returns, and the hardware state it leaves. */
  datatype Outcome = Outcome(ret: int, hw: Hw)

  /** Issue one primitive call: it is traced, and it takes effect only if it returns 0. */
  function Issue(env: Env, hw: Hw, e: Event): Outcome {
    var ret := env.Status(|hw.trace|);
    var t := hw.trace + [e];
    if ret != 0 then Outcome(ret, hw.(trace := t))
    else match e
      case Configure(p, f) => Outcome(0, hw.(trace := t, flags := hw.flags[p := f]))
      case Set(p, l) => Outcome(0, hw.(trace := t, level := hw.level[p := l]))
      case SpiWrite(_) => Outcome(0, hw.(trace := t))
  }

  /** Every call with an ordinal in [from, to) succeeded. */
  ghost predicate Succeeded(env: Env, from: int, to: int) {
    forall k: nat :: from <= k < to ==> env.Status(k) == 0
  }

  /**
   * The error discipline of every driver operation: it only appends calls to
   * the trace; every call it issued but the last succeeded; and a nonzero
   * result is either the code of its last call, returned verbatim, or one of
   * the driver's own codes, given when none of its calls failed.
   */
  ghost predicate FailFast(env: Env, before: Hw, o: Outcome) {
    var n, m := |before.trace|, |o.hw.trace|;
    before.trace <= o.hw.trace &&
    Succeeded(env, n, m - 1) &&
    (o.ret == 0 ==> Succeeded(env, n, m)) &&
    (o.ret != 0 ==>
       (n < m && o.ret == env.Status(m - 1)) ||
       (Succeeded(env, n, m) && o.ret in {-ENODEV, -ENOTSUP, -EWOULDBLOCK}))
  }

  /**
   * The operation issued at least one call, and its result is the last
   * call's code, returned verbatim.
   */
  ghost predicate ReturnsFailingCode(env: Env, before: Hw, o: Outcome) {
    |before.trace| < |o.hw.trace| && o.ret == env.Status(|o.hw.trace| - 1)
  }

  /**
   * The error discipline composes: an operation that succeeded followed by
   * one that keeps the discipline keep it together.
   */
  lemma FailFastThen(env: Env, h0: Hw, first: Outcome, second: Outcome)
    requires FailFast(env, h0, first) && first.ret == 0
    requires FailFast(env, first.hw, second)
    ensures FailFast(env, h0, second)
  {
  }

  /** The calls issued between two states of the hardware. */
  function Added(before: Hw, after: Hw): seq<Event>
    requires before.trace <= after.trace
  {
    after.trace[|before.trace|..]
  }

  /** The calls of two consecutive operations are those of the first followed by those of the second. */
  lemma AddedThen(h0: Hw, h1: Hw, h2: Hw)
    requires h0.trace <= h1.trace && h1.trace <= h2.trace
    ensures h0.trace <= h2.trace
    ensures Added(h0, h2) == Added(h0, h1) + Added(h1, h2)
  {
  }

  /** A completed sequence of calls followed by a prefix of another is a prefix of both together. */
  lemma PrefixThen(a: seq<Event>, b: seq<Event>, pattern: seq<Event>)
    requires b <= pattern
    ensures a + b <= a + pattern
  {
  }
}
