# DAC7731 driver model

A Dafny model of the Zephyr driver for the TI DAC7731, a 16-bit serial
digital-to-analog converter driven over SPI with two GPIO control lines,
RESET (active-low) and LDAC (active-high). The driver has two entry points:
`dac7731_init`, which configures both lines and pulses RESET, and
`dac7731_write_value`, which either pulses RESET (channel 1), or clips a
value to 16 bits, sends it as a 2-byte big-endian SPI frame and pulses LDAC
to latch it (channel 0).

The Zephyr primitives are not modelled by what they do on the hardware. Each
call to `gpio_pin_configure_dt`, `gpio_pin_set_dt` or `spi_write_dt` is
appended to a trace of events (`Configure(pin, flags)`, `Set(pin, level)`,
`SpiWrite(bytes)`) and returns the code that an oracle fixes for that call's
ordinal (0 when the oracle says nothing). `port == NULL`, `gpio_is_ready_dt`
and `k_is_in_isr()` are plain inputs. A port is either absent (NULL) or
present and ready or not; an absent port is never ready, since
`gpio_is_ready_dt` answers through `device_is_ready`, which reports a NULL
device as not ready. A failed call is still in the trace,
since it was issued; pin levels and flags change only on calls that return 0.

Files:

- `frame.dfy` (module `Frame`): the clip and big-endian split, and its
  round trip.
- `hardware.dfy` (module `Hardware`): pins, events, the failure oracle, one
  primitive call (`Issue`). It also defines `FailFast`, the error discipline
  that every operation keeps: its calls are appended to the trace, every call
  but the last succeeded, and a nonzero result is either the last call's code
  returned verbatim or one of the driver's own codes (`-ENODEV`, `-ENOTSUP`,
  `-EWOULDBLOCK`).
- `protocol.dfy` (module `Protocol`): each driver function as a pure
  function from the hardware state to an `Outcome` (result code plus new
  state). The contracts of these functions state the properties.
- `driver.dfy` (module `Driver`): class `Dac7731`. Its methods issue the same
  calls in the same order and with the same early returns as the C
  functions. Each method is proved equal to its `Protocol` function. The
  trace is a ghost field. A real counter `calls` indexes the oracle, and
  `Valid()` keeps it equal to the trace length.
- `lifecycle.dfy` (module `Lifecycle`): init and write requests served in
  sequence. An inductive invariant of the whole trace holds after any
  sequence of requests: LDAC is raised only right after a successful SPI
  write, each pin is only configured with its own flags, and every SPI
  transaction is a single 2-byte frame. This module also holds the two
  end-to-end scenarios.

Error codes are Zephyr's errno values, negated: `ENODEV` = 19,
`EWOULDBLOCK` = `EAGAIN` = 11, `ENOTSUP` = 134.

Three behaviours of the code that a caller might not expect, all kept in
the model:

- A channel-1 write from an ISR still pulses RESET. The ISR check at
  drivers/dac/dac7731/dac7731.c:217 is only on the data-channel path. A
  channel above 1 gets `-ENOTSUP` whatever the context.
- `init` with a missing or not-ready LDAC port, once both RESET calls have
  succeeded, returns `-ENODEV` after the RESET line has already been
  configured and set. It does not fail before any configure event
  (`Protocol.InitWithoutLdacPort`). If a RESET call fails first, its code is
  returned instead.
- `dac7731_reset` and `dac7731_load_value` check readiness only, not
  `port == NULL`. A NULL port is reported as not ready, so they still return
  `-ENODEV` without issuing a call.

## Model

| member | source | states |
|---|---|---|
| `Frame.Encode` | drivers/dac/dac7731/dac7731.c:195-211 | the frame is exactly 2 bytes and `frame[0]*256 + frame[1]` is the value clipped to 0xFFFF |
| `Frame.Decode` | drivers/dac/dac7731/dac7731.c:202-204 | a 2-byte big-endian frame carries a code of at most 0xFFFF |
| `Frame.DecodeEncode` | drivers/dac/dac7731/dac7731.c:195-204 | decoding the transmitted frame gives `min(value, 0xFFFF)` |
| `Frame.EncodeDecode` | drivers/dac/dac7731/dac7731.c:202-204 | every 2-byte frame is the encoding of the code it carries (inverse direction of the round trip) |
| `Frame.EncodeInRange` | drivers/dac/dac7731/dac7731.c:202-204 | a value up to 0xFFFF is sent as `[value / 256, value % 256]`, with no clipping |
| `Frame.EncodeClips` | drivers/dac/dac7731/dac7731.c:195-200 | every value above 0xFFFF is sent as `[0xFF, 0xFF]`: it is clipped, not wrapped |
| `Frame.EncodeInjective` | drivers/dac/dac7731/dac7731.c:202-204 | distinct in-range values give distinct frames |
| `Hardware.FailFastThen` | drivers/dac/dac7731/dac7731.c:252-275 | a successful step followed by a step that keeps the stop-at-first-failure discipline keeps it together, which is how `init` chains its steps |
| `Protocol.ConfigPin` | drivers/dac/dac7731/dac7731.c:34-105 | no event and `-ENODEV` for a NULL or not-ready port; success iff the port is ready and both calls succeed, with exactly `Configure(pin, flags)`, `Set(pin, 0)` and the pin's new flags and level 0; the calls are always a prefix of those two, and with a ready port a nonzero result is the code of the last call issued, which is the one that failed |
| `Protocol.Pulse` | drivers/dac/dac7731/dac7731.c:107-165 | `-ENODEV` and no event if the port is not ready; success iff both sets succeed, with exactly `Set(pin, 1)`, `Set(pin, 0)` and level 0; a failing first set returns its code and the second set is never issued; with a ready port a nonzero result is the code of the last call issued |
| `Protocol.WriteValue` | drivers/dac/dac7731/dac7731.c:168-238 | channel > 1: `-ENOTSUP`, state unchanged; channel 1: exactly the RESET pulse, for any value and context; channel 0 in an ISR: `-EWOULDBLOCK`, state unchanged; otherwise the first call is `SpiWrite(Encode(value))`, a failing SPI write returns its code with no LDAC event, and a successful one is followed by exactly the LDAC pulse, whose result is returned; channel 0 succeeds iff not in an ISR, the LDAC port is ready and all three calls succeed, with exactly SPI write, `Set(LDAC,1)`, `Set(LDAC,0)`; with a ready LDAC port a nonzero result is the failing call's code; always keeps `FailFast` |
| `Protocol.Init` | drivers/dac/dac7731/dac7731.c:247-276 | keeps `FailFast`; a NULL or not-ready RESET port gives `-ENODEV` before any event; the calls are always a prefix of config-reset, config-LDAC, reset-pulse, in that order, and include no SPI write; with the RESET port ready, a nonzero result is the code of the last call issued, which is the one that failed, unless both RESET calls succeeded and the LDAC port is NULL or not ready (then `-ENODEV`) |
| `Protocol.InitSucceeds` | drivers/dac/dac7731/dac7731.c:247-276 | init returns 0 iff both ports are present and ready and all six calls succeed |
| `Protocol.InitState` | drivers/dac/dac7731/dac7731.c:247-276 | after a successful init the six calls were issued in order, RESET is configured active-low, LDAC active-high, and both are at logical 0 |
| `Protocol.InitWithoutLdacPort` | drivers/dac/dac7731/dac7731.c:253-264 | with RESET configured but the LDAC port NULL or not ready, init returns `-ENODEV` after exactly the two RESET configuration calls |
| `Protocol.ResetChannelIgnoresValue` | drivers/dac/dac7731/dac7731.c:181-192 | a channel-1 write does the same whatever the value and whatever `k_is_in_isr()` says |
| `Driver.Dac7731.PinConfigure` | drivers/dac/dac7731/dac7731.c:52 | `gpio_pin_configure_dt`: returns the oracle's code for this call, appends it to the trace, and changes the flags only on success |
| `Driver.Dac7731.PinSet` | drivers/dac/dac7731/dac7731.c:59 | `gpio_pin_set_dt`: returns the oracle's code, appends the call, changes the level only on success |
| `Driver.Dac7731.SpiTransmit` | drivers/dac/dac7731/dac7731.c:222 | `spi_write_dt`: returns the oracle's code and appends the frame to the trace |
| `Driver.Dac7731.ConfigReset` | drivers/dac/dac7731/dac7731.c:34-68 | result and new state are those of `Protocol.ConfigPin` on RESET with output, active-low |
| `Driver.Dac7731.ConfigLdac` | drivers/dac/dac7731/dac7731.c:70-105 | result and new state are those of `Protocol.ConfigPin` on LDAC with output, active-high |
| `Driver.Dac7731.Reset` | drivers/dac/dac7731/dac7731.c:107-135 | result and new state are those of `Protocol.Pulse` on RESET |
| `Driver.Dac7731.LoadValue` | drivers/dac/dac7731/dac7731.c:137-165 | result and new state are those of `Protocol.Pulse` on LDAC |
| `Driver.Dac7731.WriteValue` | drivers/dac/dac7731/dac7731.c:168-238 | result and new state are those of `Protocol.WriteValue`; a channel above 1 returns `-ENOTSUP` and leaves the trace unchanged; no channel other than 0 ever issues an SPI write |
| `Driver.Dac7731.Init` | drivers/dac/dac7731/dac7731.c:247-276 | result and new state are those of `Protocol.Init` |
| `Lifecycle.Serve` | drivers/dac/dac7731/dac7731.c:241-244 | serving an init or write request keeps `FailFast` |
| `Lifecycle.Run` | drivers/dac/dac7731/dac7731.c:241-276 | across any sequence of requests the trace only grows: calls already issued are never undone |
| `Lifecycle.ServeFollowsPattern` | drivers/dac/dac7731/dac7731.c:168-276 | each request issues a prefix of its longest call sequence |
| `Lifecycle.NewCallGood` | drivers/dac/dac7731/dac7731.c:222-237 | every call a request issues satisfies the trace invariant; in particular `Set(LDAC,1)` is always right after an SPI write that succeeded |
| `Lifecycle.ServeKeepsWellFormed` | drivers/dac/dac7731/dac7731.c:168-276 | one request keeps the trace invariant |
| `Lifecycle.RunKeepsWellFormed` | drivers/dac/dac7731/dac7731.c:168-276 | any sequence of init and write requests keeps the trace invariant: LDAC is raised only after a successful SPI write, pins are configured only with their own flags, and every SPI transaction is one 2-byte frame |
| `Lifecycle.BootThenWriteData` | drivers/dac/dac7731/dac7731.c:222-237 | with healthy hardware, init then a channel-0 write of 0x1234 issues the six init calls, then `SpiWrite([0x12, 0x34])`, `Set(LDAC,1)`, `Set(LDAC,0)` |
| `Lifecycle.BootThenWriteReset` | drivers/dac/dac7731/dac7731.c:181-192 | with healthy hardware, init then a channel-1 write of any value issues the six init calls and one more RESET pulse, and no SPI write |

## Left out

- Logging (`LOG_ERR`, `LOG_DBG`, `LOG_WRN`, `LOG_MODULE_REGISTER`): output only, with no effect on results or hardware.
- The devicetree binding: `CREATE_DAC7731_INST`, `DT_INST_FOREACH_STATUS_OKAY`, the SPI mode flags and the init priority. These are build-time configuration. The model's `Env` stands in for one instance's configuration.
- The empty `dac7731_data` struct and the `dac_driver_api` table: they hold no behaviour. `Lifecycle.Request` plays the role of the calls that come through them.
- What the GPIO and SPI primitives, `gpio_is_ready_dt` and `k_is_in_isr` do inside Zephyr: they are foreign calls. The model uses only their return codes (from the oracle) and their answers (inputs).
- With a NULL port, `dac7731_reset` and `dac7731_load_value` return `-ENODEV`, because a NULL device is not ready; the `LOG_ERR` on that path (drivers/dac/dac7731/dac7731.c:114, :144) dereferences `port->name`, which is undefined behaviour in C. Logging is not modelled, so the model returns `-ENODEV` there and does not model the crash.
- Readiness is fixed per device instance in `Env` for a whole sequence of requests, while the driver asks `gpio_is_ready_dt` again on every call (drivers/dac/dac7731/dac7731.c:46, 82, 113, 143). A port that becomes ready, or stops being ready, between two calls is not modelled; no proved property depends on readiness staying fixed.
- The local `regval` buffer and the `spi_buf`/`spi_buf_set` descriptors are modelled as the byte sequence they describe. `value >> 8` and `value & 0xFF` on the unsigned value are modelled as division by 256 and remainder modulo 256. The final `% 256` models the store into `uint8_t`.
- Physical pin polarity: levels are the logical levels passed to `gpio_pin_set_dt`. The active-low inversion is recorded only in the pin's flags.
- Concurrency and bus serialisation: the driver takes no locks. Concurrent callers are the bus layer's concern.
