/**
 * The driver over its lifetime: the device framework calls `init` once at
 * bring-up, and applications then call `write_value` any number of times
 * (nothing stops a second `init` either). Properties of the whole trace hold
 * after any sequence of such requests.
 */
module Lifecycle {
  import opened Frame
  import opened Hardware
  import opened Protocol

  /** One call into the driver. */
  datatype Request =
    | Boot
    | Write(channel: uint8, value: uint32, inIsr: bool)

  function Serve(env: Env, hw: Hw, r: Request): (o: Outcome)
    ensures FailFast(env, hw, o)
  {
    match r
    case Boot => Init(env, hw)
    case Write(c, v, i) => WriteValue(env, hw, c, v, i)
  }

  /** The hardware state after serving the requests in order, whatever each returned. */
  function Run(env: Env, hw: Hw, rs: seq<Request>): (h: Hw)
    ensures hw.trace <= h.trace
    decreases |rs|
  {
    if rs == [] then hw else Run(env, Serve(env, hw, rs[0]).hw, rs[1..])
  }

  /**
   * What the call at position i of a trace must satisfy: LDAC is raised only
   * by the call right after an SPI write that succeeded; RESET is only ever
   * configured as an active-low output and LDAC as an active-high one; and
   * every SPI transaction is one 2-byte frame.
   */
  ghost predicate GoodAt(env: Env, t: seq<Event>, i: int)
    requires 0 <= i < |t|
  {
    (t[i] == Set(LdacPin, 1) ==> 0 < i && t[i - 1].SpiWrite? && env.Status(i - 1) == 0) &&
    (t[i].Configure? ==> t[i].flags == if t[i].pin == ResetPin then ResetFlags else LdacFlags) &&
    (t[i].SpiWrite? ==> |t[i].bytes| == 2)
  }

  ghost predicate WellFormed(env: Env, t: seq<Event>) {
    forall i :: 0 <= i < |t| ==> GoodAt(env, t, i)
  }

  /** The calls a request issues, as a prefix of the longest sequence it can issue. */
  function Pattern(r: Request): seq<Event> {
    match r
    case Boot => InitCalls
    case Write(c, v, _) =>
      if c == 0 then [SpiWrite(Encode(v)), Set(LdacPin, 1), Set(LdacPin, 0)]
      else if c == 1 then [Set(ResetPin, 1), Set(ResetPin, 0)]
      else []
  }

  lemma ServeFollowsPattern(env: Env, hw: Hw, r: Request)
    ensures Added(hw, Serve(env, hw, r).hw) <= Pattern(r)
  {
  }

  /** A call issued by serving a request satisfies GoodAt. */
  lemma NewCallGood(env: Env, hw: Hw, r: Request, i: int)
    requires |hw.trace| <= i < |Serve(env, hw, r).hw.trace|
    ensures GoodAt(env, Serve(env, hw, r).hw.trace, i)
  {
    var o := Serve(env, hw, r);
    var n, u, p := |hw.trace|, o.hw.trace, Pattern(r);
    ServeFollowsPattern(env, hw, r);
    // the new call is at its own position in the request's pattern
    assert u[i] == p[i - n] by {
      assert u[i] == Added(hw, o.hw)[i - n];
    }
    if u[i] == Set(LdacPin, 1) {
      // only a data-channel write raises LDAC, as its second call, right after the SPI write
      assert r.Write? && r.channel == 0 && i == n + 1;
      assert u[i - 1] == p[0] by {
        assert u[i - 1] == Added(hw, o.hw)[0];
      }
      assert env.Status(n) == 0;
    }
  }

  /** Serving any request keeps the trace well formed. */
  lemma ServeKeepsWellFormed(env: Env, hw: Hw, r: Request)
    requires WellFormed(env, hw.trace)
    ensures WellFormed(env, Serve(env, hw, r).hw.trace)
  {
    var t, u := hw.trace, Serve(env, hw, r).hw.trace;
    forall i | 0 <= i < |u|
      ensures GoodAt(env, u, i)
    {
      if i < |t| {
        assert GoodAt(env, t, i);
        assert u[i] == t[i];
        assert 0 < i ==> u[i - 1] == t[i - 1];
      } else {
        NewCallGood(env, hw, r, i);
      }
    }
  }

  /** Any sequence of requests keeps the trace well formed. */
  lemma {:induction false} RunKeepsWellFormed(env: Env, hw: Hw, rs: seq<Request>)
    requires WellFormed(env, hw.trace)
    ensures WellFormed(env, Run(env, hw, rs).trace)
    decreases |rs|
  {
    if rs != [] {
      ServeKeepsWellFormed(env, hw, rs[0]);
      RunKeepsWellFormed(env, Serve(env, hw, rs[0]).hw, rs[1..]);
    }
  }

  /** Both ports present and ready, and no call fails. */
  ghost predicate Healthy(env: Env) {
    env.resetPort == Present(true) && env.ldacPort == Present(true) && env.failures == map[]
  }

  /** Init, then a data-channel write of 0x1234: the bytes 0x12, 0x34 go out, then LDAC is pulsed. */
  lemma BootThenWriteData(env: Env, hw: Hw)
    requires Healthy(env)
    ensures Added(hw, Run(env, hw, [Boot, Write(0, 0x1234, false)])) ==
      InitCalls + [SpiWrite([0x12, 0x34]), Set(LdacPin, 1), Set(LdacPin, 0)]
  {
    var h1 := Init(env, hw).hw;
    InitState(env, hw);
    assert Run(env, hw, [Boot, Write(0, 0x1234, false)]) == Run(env, h1, [Write(0, 0x1234, false)]);
    var o := WriteValue(env, h1, 0, 0x1234, false);
    assert Succeeded(env, |h1.trace|, |h1.trace| + 3);
    assert Encode(0x1234) == [0x12, 0x34];
    assert Run(env, h1, [Write(0, 0x1234, false)]) == Run(env, o.hw, []);
    AddedThen(hw, h1, o.hw);
  }

  /** Init, then a reset-channel write of any value: a second RESET pulse and no SPI transaction. */
  lemma BootThenWriteReset(env: Env, hw: Hw, v: uint32, isr: bool)
    requires Healthy(env)
    ensures Added(hw, Run(env, hw, [Boot, Write(1, v, isr)])) ==
      InitCalls + [Set(ResetPin, 1), Set(ResetPin, 0)]
  {
    var h1 := Init(env, hw).hw;
    InitState(env, hw);
    assert Run(env, hw, [Boot, Write(1, v, isr)]) == Run(env, h1, [Write(1, v, isr)]);
    var o := WriteValue(env, h1, 1, v, isr);
    assert Succeeded(env, |h1.trace|, |h1.trace| + 2);
    assert o.ret == 0 && Added(h1, o.hw) == [Set(ResetPin, 1), Set(ResetPin, 0)];
    assert Run(env, h1, [Write(1, v, isr)]) == Run(env, o.hw, []);
    AddedThen(hw, h1, o.hw);
  }
}
