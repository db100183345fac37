/**
 * `LTR329Sensor`: construction (mock mode, or the Adafruit driver behind an
 * optional multiplexer channel), `read`, which takes the hardware path only
 * for an attached sensor whose status is `active` and the simulated path
 * otherwise, `is_available`, and the driver's own error dict. Unlike the
 * BME280 driver, a failing channel select raises. The module imports `board`
 * and `busio` unconditionally, so the class exists only when Blinka imports.
 */
module Ltr329 {
  import opened Values
  import opened Hardware
  import opened Topology
  import opened Sensors

  /** `HAS_LTR329`: `adafruit_ltr329_ltr303` and `smbus2` import. */
  predicate HasLtr329(libs: Libraries) {
    libs.adafruitLtr329 && libs.smbus2
  }

  /** The config keys the driver reads, with its defaults. */
  datatype Settings = Settings(i2cAddress: Value, muxAddress: Value, muxChannel: Value, busNumber: Value, mockMode: Value)

  function SettingsOf(config: Dict): (s: Settings)
    ensures s.i2cAddress == Get(config, "i2c_address", Int(0x29)) && s.busNumber == Get(config, "bus_number", Int(1))
    ensures s.muxAddress == Get(config, "mux_address", Null) && s.muxChannel == Get(config, "mux_channel", Null)
    ensures s.mockMode == Get(config, "mock_mode", Bool(false))
  {
    Settings(Get(config, "i2c_address", Int(0x29)), Get(config, "mux_address", Null),
             Get(config, "mux_channel", Null), Get(config, "bus_number", Int(1)), Get(config, "mock_mode", Bool(false)))
  }

  predicate Multiplexed(s: Settings) {
    s.muxAddress != Null && s.muxChannel != Null
  }

  /**
   * `_select_mux_channel`: the channel-select write when the bus is open, the
   * multiplexer address truthy and the channel set; an error before or from
   * the write is raised again.
   */
  function SelectRun(busOpen: bool, s: Settings, A: Answer, h: seq<Op>): (r: Run<Result<()>>)
    ensures |r.ops| <= 1
    ensures r.ops != [] ==> SelectWrite(s.muxAddress, s.muxChannel).Ok? && r.ops[0] == SelectWrite(s.muxAddress, s.muxChannel).value
  {
    if busOpen && Truthy(s.muxAddress) && s.muxChannel != Null then
      match SelectWrite(s.muxAddress, s.muxChannel)
      case Err(m) => Run(Err(m), [])
      case Ok(op) =>
        match A(h, op)
        case Fail(m) => Run(Err(m), [op])
        case Done(_) => Run(Ok(()), [op])
    else Run(Ok(()), [])
  }

  datatype Boot = Boot(status: Status, attached: bool, busOpen: bool, ops: seq<Op>)

  /** `LTR329Sensor.__init__` on the bus `A` with history `h`. */
  function Ltr329Boot(libs: Libraries, opens: Value -> bool, A: Answer, h: seq<Op>, s: Settings): Boot {
    if !HasLtr329(libs) || Truthy(s.mockMode) then Boot(Mock, false, false, [])
    else if Multiplexed(s) && !opens(s.busNumber) then Boot(Error, false, false, [])
    else
      var sel := if Multiplexed(s) then SelectRun(true, s, A, h) else Run(Ok(()), []);
      if sel.out.Err? then Boot(Error, false, true, sel.ops)
      else
        match IntOf(s.i2cAddress)
        case None => Boot(Error, false, Multiplexed(s), sel.ops)
        case Some(a) =>
          var reply := A(h + sel.ops, Attach(Ltr329Chip, a));
          Boot(if reply.Done? then Active else Error, reply.Done?, Multiplexed(s), sel.ops + [Attach(Ltr329Chip, a)])
  }

  /** What `read` measured: the two channels from the chip, or the simulated day/night values. */
  datatype Light = Measured(visiblePlusIr: int, infrared: int) | Simulated

  /** The hardware path: channel select, then visible+IR and IR. */
  function HardwareRead(busOpen: bool, s: Settings, A: Answer, h: seq<Op>, a: int): Run<Result<Light>> {
    var sel := if Multiplexed(s) then SelectRun(busOpen, s, A, h) else Run(Ok(()), []);
    if sel.out.Err? then Run(Err(sel.out.message), sel.ops)
    else
      var h1 := h + sel.ops;
      var v := Sample(Ltr329Chip, a, VisiblePlusIr);
      var i := Sample(Ltr329Chip, a, InfraRed);
      match A(h1, v)
      case Fail(m) => Run(Err(m), sel.ops + [v])
      case Done(vv) =>
        match A(h1 + [v], i)
        case Fail(m) => Run(Err(m), sel.ops + [v, i])
        case Done(iv) => Run(Ok(Measured(vv, iv)), sel.ops + [v, i])
  }

  /** `read`: the hardware path for an attached, active sensor; the simulated one otherwise. */
  function Ltr329Read(attached: bool, status: Status, busOpen: bool, s: Settings, A: Answer, h: seq<Op>): Run<Result<Light>> {
    if attached && status == Active && IntOf(s.i2cAddress).Some? then
      HardwareRead(busOpen, s, A, h, IntOf(s.i2cAddress).value)
    else Run(Ok(Simulated), [])
  }

  /**
   * The reading dict: the two light levels, the other quantities `None`. The
   * measured counts are integers, which `round(..., 2)` returns unchanged;
   * the simulated levels are floats.
   */
  function LightDict(light: Light, now: int): (r: Dict)
    ensures r.Keys == {"light_level", "ir_level", "temperature", "humidity", "pressure", "proximity", "timestamp"}
    ensures r["temperature"] == Null && r["humidity"] == Null && r["pressure"] == Null && r["proximity"] == Null
    ensures light.Measured? ==> r["light_level"] == Int(light.visiblePlusIr) && r["ir_level"] == Int(light.infrared)
  {
    var (lux, ir) := if light.Measured? then (Int(light.visiblePlusIr), Int(light.infrared))
                     else (Unmodelled, Unmodelled);
    map["light_level" := lux, "ir_level" := ir, "temperature" := Null, "humidity" := Null,
        "pressure" := Null, "proximity" := Null, "timestamp" := Epoch(now)]
  }

  /** The driver's `_handle_error`: every quantity `None`, and the error text. */
  function LtrErrorDict(message: string): (r: Dict)
    ensures r.Keys == {"light_level", "ir_level", "temperature", "humidity", "pressure", "proximity", "error"}
    ensures r["error"] == Str(message)
    ensures forall k :: k in r && k != "error" ==> r[k] == Null
  {
    map["light_level" := Null, "ir_level" := Null, "temperature" := Null, "humidity" := Null,
        "pressure" := Null, "proximity" := Null, "error" := Str(message)]
  }

  /** `is_available`: `True` in mock status, `False` without the driver object, else whether a probe read answers. */
  function Ltr329Available(status: Status, attached: bool, busOpen: bool, s: Settings, A: Answer, h: seq<Op>): Run<bool> {
    if status == Mock then Run(true, [])
    else if !attached || IntOf(s.i2cAddress).None? then Run(false, [])
    else
      var sel := if Multiplexed(s) then SelectRun(busOpen, s, A, h) else Run(Ok(()), []);
      if sel.out.Err? then Run(false, sel.ops)
      else
        var v := Sample(Ltr329Chip, IntOf(s.i2cAddress).value, VisiblePlusIr);
        Run(A(h + sel.ops, v).Done?, sel.ops + [v])
  }

  /** Issues `_select_mux_channel`'s write, if any, and reports a failure. */
  method SelectMuxChannel(bus: I2cBus, busOpen: bool, s: Settings) returns (r: Result<()>)
    modifies bus
    ensures var sel := SelectRun(busOpen, s, bus.answer, old(bus.trace));
            r == sel.out && bus.trace == old(bus.trace) + sel.ops
  {
    if busOpen && Truthy(s.muxAddress) && s.muxChannel != Null {
      var w := SelectWrite(s.muxAddress, s.muxChannel);
      if w.Err? {
        return Err(w.message);
      }
      var reply := bus.Transact(w.value);
      r := if reply.Fail? then Err(reply.message) else Ok(());
    } else {
      r := Ok(());
    }
  }

  /** The select of `read` and `is_available`, issued only when both multiplexer fields are set. */
  method SelectIfMultiplexed(bus: I2cBus, busOpen: bool, s: Settings) returns (r: Result<()>)
    modifies bus
    ensures var sel := if Multiplexed(s) then SelectRun(busOpen, s, bus.answer, old(bus.trace)) else Run(Ok(()), []);
            r == sel.out && bus.trace == old(bus.trace) + sel.ops
  {
    if Multiplexed(s) {
      r := SelectMuxChannel(bus, busOpen, s);
    } else {
      r := Ok(());
    }
  }

  /** The two channel reads of the hardware path. */
  method ReadChannels(bus: I2cBus, busOpen: bool, s: Settings, a: int) returns (r: Result<Light>)
    modifies bus
    ensures var out := HardwareRead(busOpen, s, bus.answer, old(bus.trace), a);
            r == out.out && bus.trace == old(bus.trace) + out.ops
  {
    var sel := SelectIfMultiplexed(bus, busOpen, s);
    ghost var selOps := bus.trace[|old(bus.trace)|..];
    assert bus.trace == old(bus.trace) + selOps;
    if sel.Err? {
      return Err(sel.message);
    }
    ghost var h1 := bus.trace;
    var vOp, iOp := Sample(Ltr329Chip, a, VisiblePlusIr), Sample(Ltr329Chip, a, InfraRed);
    var v := bus.Transact(vOp);
    Assoc(old(bus.trace), selOps, [vOp]);
    if v.Fail? {
      return Err(v.message);
    }
    var i := bus.Transact(iOp);
    assert bus.trace == h1 + [vOp, iOp];
    Assoc(old(bus.trace), selOps, [vOp, iOp]);
    if i.Fail? {
      return Err(i.message);
    }
    r := Ok(Measured(v.value, i.value));
  }

  class Ltr329Sensor {
    const core: SensorInterface
    const settings: Settings
    /** `self.ltr is not None` */
    var attached: bool
    /** `self.i2c_bus is not None` */
    var busOpen: bool

    ghost predicate Valid()
      reads this
    {
      && core.className == "LTR329Sensor"
      && (attached ==> IntOf(settings.i2cAddress).Some?)
    }

    constructor (sensorId: string, config: Dict, bus: I2cBus)
      requires bus.libs.blinka
      modifies bus
      ensures Valid() && fresh(core)
      ensures core.sensorId == sensorId && core.className == "LTR329Sensor" && core.config == config
      ensures core.lastReading == Null && core.errorCount == 0
      ensures settings == SettingsOf(config)
      ensures var b := Ltr329Boot(bus.libs, bus.opens, bus.answer, old(bus.trace), SettingsOf(config));
              && core.status == b.status && attached == b.attached && busOpen == b.busOpen
              && bus.trace == old(bus.trace) + b.ops
    {
      var s := SettingsOf(config);
      var c := new SensorInterface(sensorId, "LTR329Sensor", config);
      var status, isAttached, isOpen := Boot(bus, s);
      c.status := status;
      core := c;
      settings := s;
      attached := isAttached;
      busOpen := isOpen;
    }

    /** The body of `__init__` after the attributes are read from the config. */
    static method Boot(bus: I2cBus, s: Settings) returns (status: Status, attached: bool, busOpen: bool)
      modifies bus
      ensures status == Ltr329Boot(bus.libs, bus.opens, bus.answer, old(bus.trace), s).status
      ensures attached == Ltr329Boot(bus.libs, bus.opens, bus.answer, old(bus.trace), s).attached
      ensures busOpen == Ltr329Boot(bus.libs, bus.opens, bus.answer, old(bus.trace), s).busOpen
      ensures bus.trace == old(bus.trace) + Ltr329Boot(bus.libs, bus.opens, bus.answer, old(bus.trace), s).ops
      ensures attached ==> IntOf(s.i2cAddress).Some?
    {
      if !HasLtr329(bus.libs) || Truthy(s.mockMode) {
        return Mock, false, false;
      }
      busOpen := false;
      if Multiplexed(s) {
        if !bus.opens(s.busNumber) {
          return Error, false, false;
        }
        busOpen := true;
      }
      var sel := SelectIfMultiplexed(bus, busOpen, s);
      if sel.Err? {
        return Error, false, busOpen;
      }
      ghost var selOps := bus.trace[|old(bus.trace)|..];
      assert bus.trace == old(bus.trace) + selOps;
      var address := IntOf(s.i2cAddress);
      if address.None? {
        return Error, false, busOpen;
      }
      var reply := bus.Transact(Attach(Ltr329Chip, address.value));
      Assoc(old(bus.trace), selOps, [Attach(Ltr329Chip, address.value)]);
      attached := reply.Done?;
      status := if attached then Active else Error;
    }

    /**
     * `read`: on success the dict is kept as the last reading; on failure the
     * error count goes up by exactly one (the driver's `_handle_error` does
     * not count) and the status stays as it was.
     */
    method Read(bus: I2cBus, now: int) returns (r: Dict)
      requires Valid()
      modifies bus, core
      ensures var out := Ltr329Read(attached, old(core.status), busOpen, settings, bus.answer, old(bus.trace));
              && bus.trace == old(bus.trace) + out.ops
              && (out.out.Err? ==> r == LtrErrorDict(out.out.message) && core.errorCount == old(core.errorCount) + 1
                                   && core.lastReading == old(core.lastReading))
              && (out.out.Ok? ==> r == LightDict(out.out.value, now) && core.lastReading == Mapping(r)
                                  && core.errorCount == old(core.errorCount))
              && core.status == old(core.status)
    {
      var light: Result<Light>;
      if attached && core.status == Active {
        light := ReadChannels(bus, busOpen, settings, IntOf(settings.i2cAddress).value);
      } else {
        light := Ok(Simulated);
      }
      if light.Err? {
        core.errorCount := core.errorCount + 1;
        r := LtrErrorDict(light.message);
        return;
      }
      r := LightDict(light.value, now);
      core.lastReading := Mapping(r);
    }

    /** `is_available`: changes nothing of the sensor. */
    method IsAvailable(bus: I2cBus) returns (r: bool)
      requires Valid()
      modifies bus
      ensures var out := Ltr329Available(core.status, attached, busOpen, settings, bus.answer, old(bus.trace));
              r == out.out && bus.trace == old(bus.trace) + out.ops
    {
      if core.status == Mock {
        return true;
      }
      if !attached {
        return false;
      }
      var sel := SelectIfMultiplexed(bus, busOpen, settings);
      if sel.Err? {
        return false;
      }
      ghost var selOps := bus.trace[|old(bus.trace)|..];
      assert bus.trace == old(bus.trace) + selOps;
      var vOp := Sample(Ltr329Chip, IntOf(settings.i2cAddress).value, VisiblePlusIr);
      var v := bus.Transact(vOp);
      Assoc(old(bus.trace), selOps, [vOp]);
      r := v.Done?;
    }
  }

  // ---------------------------------------------------------------------------
  // Properties

  /** Construction ends `mock` exactly in mock mode or without the libraries, `active` exactly when attached. */
  lemma BootStatus(libs: Libraries, opens: Value -> bool, A: Answer, h: seq<Op>, s: Settings)
    ensures var b := Ltr329Boot(libs, opens, A, h, s);
            && (b.status == Mock <==> !HasLtr329(libs) || Truthy(s.mockMode))
            && (b.status == Active <==> b.attached)
            && b.status in {Mock, Error, Active}
  {
  }

  /** A sensor that is not attached and active never touches the bus when read and gives simulated values. */
  lemma SimulatedUnlessActive(attached: bool, status: Status, busOpen: bool, s: Settings, A: Answer, h: seq<Op>)
    requires !attached || status != Active
    ensures Ltr329Read(attached, status, busOpen, s, A, h) == Run(Ok(Simulated), [])
  {
  }

  /**
   * On the hardware path of a multiplexed sensor, the channel is selected
   * first; a select the bus rejects makes the read fail with its message and
   * no channel is read.
   */
  lemma ReadSelectsFirst(busOpen: bool, s: Settings, A: Answer, h: seq<Op>)
    requires IntOf(s.i2cAddress).Some? && Multiplexed(s) && busOpen && Truthy(s.muxAddress)
    requires SelectWrite(s.muxAddress, s.muxChannel).Ok?
    ensures var op := SelectWrite(s.muxAddress, s.muxChannel).value;
            var out := Ltr329Read(true, Active, busOpen, s, A, h);
            && out.ops[0] == op
            && (A(h, op).Fail? ==> out == Run(Err(A(h, op).message), [op]))
  {
  }

  /** The availability probe of a multiplexed, attached sensor also starts with the channel select. */
  lemma ProbeSelectsFirst(status: Status, busOpen: bool, s: Settings, A: Answer, h: seq<Op>)
    requires status != Mock && IntOf(s.i2cAddress).Some? && Multiplexed(s) && busOpen && Truthy(s.muxAddress)
    requires SelectWrite(s.muxAddress, s.muxChannel).Ok?
    ensures var out := Ltr329Available(status, true, busOpen, s, A, h);
            out.ops[0] == SelectWrite(s.muxAddress, s.muxChannel).value
  {
  }

  /** A measured reading carries both light levels and `None` for everything else. */
  lemma MeasuredLightOnly(v: int, i: int, now: int)
    ensures var d := LightDict(Measured(v, i), now);
            d["light_level"] == Int(v) && d["ir_level"] == Int(i)
            && d["temperature"] == Null && d["proximity"] == Null
  {
  }
}
