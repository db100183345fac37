/**
 * `BME280Sensor`: construction through the Adafruit driver (with the
 * multiplexer channel selected first when one is configured), `read` with the
 * channel re-selected before the three samples, `is_available`, and the
 * humidity guard of the dew-point calculation. Sample replies are the
 * readings already rounded to two decimals, in hundredths.
 */
module Bme280 {
  import opened Values
  import opened Hardware
  import opened Topology
  import opened Sensors

  /** `HAS_BME280`: `board`, `busio`, `adafruit_bme280` and `smbus2` all import. */
  predicate HasBme280(libs: Libraries) {
    libs.blinka && libs.adafruitBme280 && libs.smbus2
  }

  /** The config keys the driver reads, with its defaults. */
  datatype Settings = Settings(i2cAddress: Value, muxAddress: Value, muxChannel: Value, busNumber: Value)

  function SettingsOf(config: Dict): (s: Settings)
    ensures s.i2cAddress == Get(config, "i2c_address", Int(0x77)) && s.busNumber == Get(config, "bus_number", Int(1))
    ensures s.muxAddress == Get(config, "mux_address", Null) && s.muxChannel == Get(config, "mux_channel", Null)
  {
    Settings(Get(config, "i2c_address", Int(0x77)), Get(config, "mux_address", Null),
             Get(config, "mux_channel", Null), Get(config, "bus_number", Int(1)))
  }

  /** Both multiplexer fields are set. */
  predicate Multiplexed(s: Settings) {
    s.muxAddress != Null && s.muxChannel != Null
  }

  /**
   * `_select_mux_channel`: the channel-select write when the bus is open, the
   * multiplexer address truthy and the channel set. Every failure is logged
   * and swallowed, so what the bus answers does not matter.
   */
  function SelectOps(busOpen: bool, s: Settings): (ops: seq<Op>)
    ensures |ops| <= 1
    ensures ops != [] <==> busOpen && Truthy(s.muxAddress) && s.muxChannel != Null
                           && SelectWrite(s.muxAddress, s.muxChannel).Ok?
    ensures ops != [] ==> ops[0] == SelectWrite(s.muxAddress, s.muxChannel).value
  {
    if busOpen && Truthy(s.muxAddress) && s.muxChannel != Null then
      match SelectWrite(s.muxAddress, s.muxChannel)
      case Ok(op) => [op]
      case Err(_) => []
    else []
  }

  /**
   * Whether the log line after attaching can format `{mux_address:02x}`: a
   * falsy address is not formatted, an `int` (or `bool`) is, a `datetime`
   * formats through `strftime`, and every other value raises, which the
   * `except` turns into status `error` with the driver object kept.
   */
  predicate MuxAddressFormats(v: Value) {
    !Truthy(v) || v.Int? || v.Bool? || v.Stamp?
  }

  /** What construction leaves: the status, whether the Adafruit object exists, whether the SMBus is open. */
  datatype Boot = Boot(status: Status, attached: bool, busOpen: bool, ops: seq<Op>)

  /** `BME280Sensor.__init__` on the bus `A` with history `h`. */
  function Bme280Boot(libs: Libraries, opens: Value -> bool, A: Answer, h: seq<Op>, s: Settings): Boot {
    if !HasBme280(libs) then Boot(Unavailable, false, false, [])
    else if Multiplexed(s) && !opens(s.busNumber) then Boot(Error, false, false, [])
    else
      var sel := SelectOps(Multiplexed(s), s);
      match IntOf(s.i2cAddress)
      case None => Boot(Error, false, Multiplexed(s), sel)
      case Some(a) =>
        var reply := A(h + sel, Attach(Bme280Chip, a));
        Boot(if reply.Done? && MuxAddressFormats(s.muxAddress) then Active else Error, reply.Done?, Multiplexed(s),
             sel + [Attach(Bme280Chip, a)])
  }

  /** One sample each of temperature, humidity and pressure, in hundredths. */
  datatype Sampled = Sampled(temperature: int, humidity: int, pressure: int)

  /** The three property reads; the first that raises ends the read. */
  function Samples(A: Answer, h: seq<Op>, a: int): Run<Result<Sampled>> {
    var t := Sample(Bme280Chip, a, Temperature);
    var u := Sample(Bme280Chip, a, RelativeHumidity);
    var p := Sample(Bme280Chip, a, Pressure);
    match A(h, t)
    case Fail(m) => Run(Err(m), [t])
    case Done(tv) =>
      match A(h + [t], u)
      case Fail(m) => Run(Err(m), [t, u])
      case Done(uv) =>
        match A(h + [t, u], p)
        case Fail(m) => Run(Err(m), [t, u, p])
        case Done(pv) => Run(Ok(Sampled(tv, uv, pv)), [t, u, p])
  }

  /** `read`: the samples it takes after re-selecting the channel, or why it fails. */
  function Bme280Read(hasLibs: bool, attached: bool, busOpen: bool, s: Settings, A: Answer, h: seq<Op>): Run<Result<Sampled>> {
    if !hasLibs || !attached then Run(Err("BME280 not available"), [])
    else
      match IntOf(s.i2cAddress)
      case None => Run(Err("BME280 not available"), [])
      case Some(a) =>
        var sel := if s.muxAddress != Null then SelectOps(busOpen, s) else [];
        var r := Samples(A, h + sel, a);
        Run(r.out, sel + r.ops)
  }

  /**
   * `_calculate_dew_point`: 0.0 when the humidity is not positive, and when
   * the Magnus formula divides by zero at -237.7 degrees; otherwise a float
   * this model does not compute.
   */
  function DewPoint(temperature: int, humidity: int): (r: Value)
    ensures humidity <= 0 ==> r == Centi(0)
    ensures r == Centi(0) || r == Unmodelled
  {
    if humidity <= 0 || temperature == -23770 then Centi(0) else Unmodelled
  }

  /** The dict a successful `read` returns and keeps as `last_reading`. */
  function ReadingDict(sensorId: string, sensorType: string, now: int, m: Sampled): (r: Dict)
    ensures r.Keys == {"sensor_id", "sensor_type", "timestamp", "data", "status"} && r["status"] == Str("active")
    ensures r["timestamp"] == Stamp(now)
    ensures r["data"] == Mapping(map["temperature" := Centi(m.temperature), "humidity" := Centi(m.humidity),
                                     "pressure" := Centi(m.pressure), "dew_point" := DewPoint(m.temperature, m.humidity)])
  {
    map["sensor_id" := Str(sensorId), "sensor_type" := Str(sensorType), "timestamp" := Stamp(now),
        "data" := Mapping(map["temperature" := Centi(m.temperature), "humidity" := Centi(m.humidity),
                              "pressure" := Centi(m.pressure), "dew_point" := DewPoint(m.temperature, m.humidity)]),
        "status" := Str("active")]
  }

  /** `is_available`: one temperature read answers. */
  function Bme280Available(hasLibs: bool, attached: bool, s: Settings, A: Answer, h: seq<Op>): Run<bool> {
    if !hasLibs || !attached || IntOf(s.i2cAddress).None? then Run(false, [])
    else
      var t := Sample(Bme280Chip, IntOf(s.i2cAddress).value, Temperature);
      Run(A(h, t).Done?, [t])
  }

  /** Issues `_select_mux_channel`'s write, if any, and ignores the answer. */
  method SelectMuxChannel(bus: I2cBus, busOpen: bool, s: Settings)
    modifies bus
    ensures bus.trace == old(bus.trace) + SelectOps(busOpen, s)
  {
    if busOpen && Truthy(s.muxAddress) && s.muxChannel != Null {
      var w := SelectWrite(s.muxAddress, s.muxChannel);
      if w.Ok? {
        var _ := bus.Transact(w.value);
      }
    }
  }

  /** The three property reads of `read`, stopping at the first that raises. */
  method TakeSamples(bus: I2cBus, a: int) returns (m: Result<Sampled>)
    modifies bus
    ensures var out := Samples(bus.answer, old(bus.trace), a);
            m == out.out && bus.trace == old(bus.trace) + out.ops
  {
    ghost var h := bus.trace;
    var tOp, uOp, pOp := Sample(Bme280Chip, a, Temperature), Sample(Bme280Chip, a, RelativeHumidity),
                         Sample(Bme280Chip, a, Pressure);
    var t := bus.Transact(tOp);
    if t.Fail? {
      return Err(t.message);
    }
    var u := bus.Transact(uOp);
    assert bus.trace == h + [tOp, uOp];
    if u.Fail? {
      return Err(u.message);
    }
    var p := bus.Transact(pOp);
    assert bus.trace == h + [tOp, uOp, pOp];
    if p.Fail? {
      return Err(p.message);
    }
    m := Ok(Sampled(t.value, u.value, p.value));
  }

  class Bme280Sensor {
    const core: SensorInterface
    const settings: Settings
    const hasLibs: bool
    /** `self.bme280 is not None` */
    var attached: bool
    /** `self.i2c_bus is not None` */
    var busOpen: bool

    ghost predicate Valid()
      reads this
    {
      && core.className == "BME280Sensor"
      && (attached ==> IntOf(settings.i2cAddress).Some?)
      && (busOpen ==> Multiplexed(settings))
    }

    constructor (sensorId: string, config: Dict, bus: I2cBus)
      modifies bus
      ensures Valid() && fresh(core)
      ensures core.sensorId == sensorId && core.className == "BME280Sensor" && core.config == config
      ensures core.lastReading == Null && core.errorCount == 0
      ensures settings == SettingsOf(config) && hasLibs == HasBme280(bus.libs)
      ensures var b := Bme280Boot(bus.libs, bus.opens, bus.answer, old(bus.trace), SettingsOf(config));
              && core.status == b.status && attached == b.attached && busOpen == b.busOpen
              && bus.trace == old(bus.trace) + b.ops
    {
      var s := SettingsOf(config);
      var c := new SensorInterface(sensorId, "BME280Sensor", config);
      var status, isAttached, isOpen := Boot(bus, s);
      c.status := status;
      core := c;
      settings := s;
      hasLibs := HasBme280(bus.libs);
      attached := isAttached;
      busOpen := isOpen;
    }

    /** The `try` block of `__init__`. */
    static method Boot(bus: I2cBus, s: Settings) returns (status: Status, attached: bool, busOpen: bool)
      modifies bus
      ensures status == Bme280Boot(bus.libs, bus.opens, bus.answer, old(bus.trace), s).status
      ensures attached == Bme280Boot(bus.libs, bus.opens, bus.answer, old(bus.trace), s).attached
      ensures busOpen == Bme280Boot(bus.libs, bus.opens, bus.answer, old(bus.trace), s).busOpen
      ensures bus.trace == old(bus.trace) + Bme280Boot(bus.libs, bus.opens, bus.answer, old(bus.trace), s).ops
      ensures attached ==> IntOf(s.i2cAddress).Some?
      ensures busOpen ==> Multiplexed(s)
    {
      if !HasBme280(bus.libs) {
        return Unavailable, false, false;
      }
      busOpen := false;
      if Multiplexed(s) {
        if !bus.opens(s.busNumber) {
          return Error, false, false;
        }
        busOpen := true;
        SelectMuxChannel(bus, busOpen, s);
      }
      var address := IntOf(s.i2cAddress);
      if address.None? {
        return Error, false, busOpen;
      }
      assert bus.trace == old(bus.trace) + SelectOps(Multiplexed(s), s);
      var reply := bus.Transact(Attach(Bme280Chip, address.value));
      Assoc(old(bus.trace), SelectOps(busOpen, s), [Attach(Bme280Chip, address.value)]);
      attached := reply.Done?;
      status := if attached && MuxAddressFormats(s.muxAddress) then Active else Error;
    }

    /** `read` */
    method Read(bus: I2cBus, now: int) returns (r: Dict)
      requires Valid()
      modifies bus, core
      ensures var out := Bme280Read(hasLibs, attached, busOpen, settings, bus.answer, old(bus.trace));
              && bus.trace == old(bus.trace) + out.ops
              && (out.out.Err? ==> r == ErrorDict(core.sensorId, out.out.message)
                                   && core.errorCount == old(core.errorCount) + 1 && core.status == Error
                                   && core.lastReading == old(core.lastReading))
              && (out.out.Ok? ==> r == ReadingDict(core.sensorId, "bme280", now, out.out.value)
                                  && core.lastReading == Mapping(r) && core.status == Active
                                  && core.errorCount == old(core.errorCount))
    {
      var m := Fetch(bus);
      if m.Err? {
        r := core.HandleError(m.message);
        return;
      }
      Bme280SensorType();
      r := ReadingDict(core.sensorId, SensorType(core.className), now, m.value);
      core.lastReading := Mapping(r);
      core.status := Active;
    }

    /** The bus side of `read`: the channel select and the samples, or why there are none. */
    method Fetch(bus: I2cBus) returns (m: Result<Sampled>)
      requires Valid()
      modifies bus
      ensures var out := Bme280Read(hasLibs, attached, busOpen, settings, bus.answer, old(bus.trace));
              m == out.out && bus.trace == old(bus.trace) + out.ops
    {
      if !hasLibs || !attached {
        return Err("BME280 not available");
      }
      var a := IntOf(settings.i2cAddress).value;
      if settings.muxAddress != Null {
        SelectMuxChannel(bus, busOpen, settings);
      }
      ghost var sel := if settings.muxAddress != Null then SelectOps(busOpen, settings) else [];
      assert bus.trace == old(bus.trace) + sel;
      m := TakeSamples(bus, a);
      Assoc(old(bus.trace), sel, Samples(bus.answer, old(bus.trace) + sel, a).ops);
    }

    /** `is_available`: asks for one temperature and changes nothing of the sensor. */
    method IsAvailable(bus: I2cBus) returns (r: bool)
      requires Valid()
      modifies bus
      ensures var out := Bme280Available(hasLibs, attached, settings, bus.answer, old(bus.trace));
              r == out.out && bus.trace == old(bus.trace) + out.ops
    {
      if !hasLibs || !attached {
        return false;
      }
      var t := bus.Transact(Sample(Bme280Chip, IntOf(settings.i2cAddress).value, Temperature));
      r := t.Done?;
    }
  }

  // ---------------------------------------------------------------------------
  // Properties

  /**
   * Construction ends `unavailable` exactly without the libraries, and
   * `active` exactly when the driver object exists and the log line that
   * follows formats the multiplexer address.
   */
  lemma BootStatus(libs: Libraries, opens: Value -> bool, A: Answer, h: seq<Op>, s: Settings)
    ensures var b := Bme280Boot(libs, opens, A, h, s);
            && (b.status == Unavailable <==> !HasBme280(libs))
            && (b.status == Active <==> b.attached && MuxAddressFormats(s.muxAddress))
            && b.status in {Unavailable, Error, Active}
  {
  }

  /**
   * A multiplexer address given as a string, such as `"0x70"`, leaves the
   * sensor attached but in status `error`: formatting it for the log raises
   * inside the `try`.
   */
  lemma TextMuxAddressEndsError(libs: Libraries, opens: Value -> bool, A: Answer, h: seq<Op>)
    requires HasBme280(libs) && A(h, Attach(Bme280Chip, 0x77)).Done?
    ensures var b := Bme280Boot(libs, opens, A, h, Settings(Int(0x77), Str("0x70"), Null, Int(1)));
            b.attached && b.status == Error
  {
    var s := Settings(Int(0x77), Str("0x70"), Null, Int(1));
    assert SelectOps(Multiplexed(s), s) == [];
    assert h + [] == h;
  }

  /**
   * The bus is opened, and a channel selected, at construction only when
   * both multiplexer fields are set; then the select write is the first
   * transaction.
   */
  lemma BootSelectsOnlyWhenMultiplexed(libs: Libraries, opens: Value -> bool, A: Answer, h: seq<Op>, s: Settings)
    ensures var b := Bme280Boot(libs, opens, A, h, s);
            && (b.busOpen ==> Multiplexed(s))
            && (forall op :: op in b.ops && op.WriteByte? ==> Multiplexed(s))
            && (HasBme280(libs) && Multiplexed(s) && opens(s.busNumber) && Truthy(s.muxAddress)
                && SelectWrite(s.muxAddress, s.muxChannel).Ok? ==>
                  b.ops[0] == SelectWrite(s.muxAddress, s.muxChannel).value)
  {
  }

  /**
   * Before every read of a multiplexed sensor whose bus is open, the channel
   * is selected again, and the three samples follow it.
   */
  lemma ReadReselects(attached: bool, s: Settings, A: Answer, h: seq<Op>)
    requires attached && IntOf(s.i2cAddress).Some? && Truthy(s.muxAddress) && s.muxChannel != Null
    requires SelectWrite(s.muxAddress, s.muxChannel).Ok?
    ensures var out := Bme280Read(true, attached, true, s, A, h);
            && out.ops[0] == WriteByte(IntOf(s.muxAddress).value, Mask(IntOf(s.muxChannel).value))
            && out.ops[1] == Sample(Bme280Chip, IntOf(s.i2cAddress).value, Temperature)
  {
    assert s.muxAddress != Null;
  }

  /** A read without the driver object fails without touching the bus. */
  lemma UnattachedReadFails(hasLibs: bool, busOpen: bool, s: Settings, A: Answer, h: seq<Op>)
    ensures Bme280Read(hasLibs, false, busOpen, s, A, h) == Run(Err("BME280 not available"), [])
  {
  }

  /** A successful read reports the dew point as 0.0 whenever the humidity is not positive. */
  lemma DryAirDewPoint(sensorId: string, now: int, m: Sampled)
    requires m.humidity <= 0
    ensures ReadingDict(sensorId, "bme280", now, m)["data"].entries["dew_point"] == Centi(0)
  {
  }
}
