/**
 * `MPU6050Sensor`: initialisation over raw SMBus transactions (wake-up,
 * `WHO_AM_I` check, range and filter configuration), the channel select
 * before every transaction of a multiplexed sensor, the 16-bit two's
 * complement decode, `read` with its seven word reads, and `is_available`.
 * The specification functions here return the bus history after the
 * transactions (`after`), which is how the straight-line source reads.
 */
module Mpu6050 {
  import opened Values
  import opened PyText
  import opened Hardware
  import opened Topology
  import opened Sensors

  const PowerManagement1 := 0x6B
  const Config := 0x1A
  const GyroConfig := 0x1B
  const AccelConfig := 0x1C
  const AccelXoutH := 0x3B
  const TempOutH := 0x41
  const GyroXoutH := 0x43
  const WhoAmI := 0x75
  const ExpectedWhoAmI := 0x68

  /** `HAS_MPU6050`: `smbus2` imports. */
  predicate HasMpu6050(libs: Libraries) {
    libs.smbus2
  }

  /** A step on the bus: what it gives and the bus history after it. */
  datatype Step<T> = Step(out: T, after: seq<Op>)

  /** The config keys the driver reads, with its defaults. */
  datatype Settings = Settings(i2cAddress: Value, muxAddress: Value, muxChannel: Value, mockMode: Value)

  function SettingsOf(config: Dict): (s: Settings)
    ensures s.i2cAddress == Get(config, "i2c_address", Int(0x68)) && s.mockMode == Get(config, "mock_mode", Bool(false))
    ensures s.muxAddress == Get(config, "mux_address", Null) && s.muxChannel == Get(config, "mux_channel", Null)
  {
    Settings(Get(config, "i2c_address", Int(0x68)), Get(config, "mux_address", Null),
             Get(config, "mux_channel", Null), Get(config, "mock_mode", Bool(false)))
  }

  predicate Multiplexed(s: Settings) {
    s.muxAddress != Null && s.muxChannel != Null
  }

  /** Whether `read` and `is_available` take the simulated path. */
  predicate Simulated(hasLibs: bool, s: Settings) {
    Truthy(s.mockMode) || !hasLibs
  }

  // ---------------------------------------------------------------------------
  // The two's-complement decode

  /** `_read_word_2c`'s arithmetic. */
  function Word2c(val: int): int {
    if val >= 0x8000 then -((65535 - val) + 1) else val
  }

  /** A 16-bit word decodes into the signed 16-bit range, and the decode is `val - 65536` from 0x8000 up. */
  lemma Word2cRange(val: int)
    requires 0 <= val < 0x10000
    ensures -0x8000 <= Word2c(val) < 0x8000
    ensures val >= 0x8000 ==> Word2c(val) == val - 0x10000
    ensures val < 0x8000 ==> Word2c(val) == val
  {
  }

  /** Decoding loses nothing: the word is the decoded value modulo 2^16. */
  lemma Word2cEncodes(val: int)
    requires 0 <= val < 0x10000
    ensures Word2c(val) % 0x10000 == val
  {
    if val >= 0x8000 {
      assert Word2c(val) + 0x10000 == val;
    }
  }

  /** Every signed 16-bit value is the decode of exactly its own word. */
  lemma Word2cDecodes(x: int)
    requires -0x8000 <= x < 0x8000
    ensures 0 <= x % 0x10000 < 0x10000 && Word2c(x % 0x10000) == x
  {
    if x < 0 {
      assert x % 0x10000 == x + 0x10000;
    }
  }

  // ---------------------------------------------------------------------------
  // Specification functions

  /** `_select_mux_channel`: the write when both fields are set; any error is raised. */
  function Select(s: Settings, A: Answer, h: seq<Op>): (r: Step<Result<()>>)
    ensures !Multiplexed(s) ==> r == Step(Ok(()), h)
  {
    if !Multiplexed(s) then Step(Ok(()), h)
    else
      match SelectWrite(s.muxAddress, s.muxChannel)
      case Err(m) => Step(Err(m), h)
      case Ok(op) => Step(if A(h, op).Fail? then Err(A(h, op).message) else Ok(()), h + [op])
  }

  /** One transaction whose answer is only checked for failure. */
  function Write(A: Answer, h: seq<Op>, op: Op): Step<Result<()>> {
    Step(if A(h, op).Fail? then Err(A(h, op).message) else Ok(()), h + [op])
  }

  /** The message of the `RuntimeError` for a wrong `WHO_AM_I`. */
  function WhoAmIMessage(w: int): string {
    "Invalid WHO_AM_I response: 0x" + (if 0 <= w then Hex2(w) else "-" + Hex2(-w)) + ", expected 0x68"
  }

  /**
   * `_initialize_sensor` once `SMBus(1)` is open: select, wake-up,
   * `WHO_AM_I` check, then the accelerometer, gyroscope and filter
   * configuration, stopping at the first error.
   */
  function Initialize(s: Settings, A: Answer, h: seq<Op>): Step<Result<()>> {
    var sel := Select(s, A, h);
    if sel.out.Err? then sel
    else
      match IntOf(s.i2cAddress)
      case None => Step(Err("address must be an integer"), sel.after)
      case Some(a) =>
        var wake := Write(A, sel.after, WriteByteData(a, PowerManagement1, 0x00));
        if wake.out.Err? then wake
        else
          var probe := ReadByteData(a, WhoAmI);
          var h1 := wake.after + [probe];
          match A(wake.after, probe)
          case Fail(m) => Step(Err(m), h1)
          case Done(w) =>
            if w != ExpectedWhoAmI then Step(Err(WhoAmIMessage(w)), h1)
            else
              var accel := Write(A, h1, WriteByteData(a, AccelConfig, 0x00));
              if accel.out.Err? then accel
              else
                var gyro := Write(A, accel.after, WriteByteData(a, GyroConfig, 0x00));
                if gyro.out.Err? then gyro
                else Write(A, gyro.after, WriteByteData(a, Config, 0x03))
  }

  /** What the constructor leaves: initialised, bus open, the error it caught, and the history. */
  datatype Boot = Boot(initialized: bool, busOpen: bool, failure: Option<string>, after: seq<Op>)

  /** `MPU6050Sensor.__init__` (the bus number is always 1). */
  function Mpu6050Boot(libs: Libraries, opens: Value -> bool, A: Answer, h: seq<Op>, s: Settings): (b: Boot)
    ensures b.initialized <==> b.failure.None?
  {
    if Simulated(HasMpu6050(libs), s) then Boot(true, false, None, h)
    else if !opens(Int(1)) then Boot(false, false, Some("could not open /dev/i2c-1"), h)
    else
      var init := Initialize(s, A, h);
      Boot(init.out.Ok?, true, if init.out.Err? then Some(init.out.message) else None, init.after)
  }

  /** `_read_word_2c(reg)`: select, one word read, the decode. */
  function WordAt(s: Settings, A: Answer, h: seq<Op>, a: int, reg: int): Step<Result<int>> {
    var sel := Select(s, A, h);
    if sel.out.Err? then Step(Err(sel.out.message), sel.after)
    else
      var op := ReadWordData(a, reg);
      match A(sel.after, op)
      case Fail(m) => Step(Err(m), sel.after + [op])
      case Done(v) => Step(Ok(Word2c(v)), sel.after + [op])
  }

  /** The seven raw values of a hardware read, in the order they are read. */
  datatype Motion = Motion(accelX: int, accelY: int, accelZ: int, temperature: int, gyroX: int, gyroY: int, gyroZ: int)

  /** The hardware path of `read`: seven word reads, each after its own channel select. */
  function MotionRead(s: Settings, A: Answer, h: seq<Op>, a: int): Step<Result<Motion>> {
    var ax := WordAt(s, A, h, a, AccelXoutH);
    if ax.out.Err? then Step(Err(ax.out.message), ax.after) else
    var ay := WordAt(s, A, ax.after, a, AccelXoutH + 2);
    if ay.out.Err? then Step(Err(ay.out.message), ay.after) else
    var az := WordAt(s, A, ay.after, a, AccelXoutH + 4);
    if az.out.Err? then Step(Err(az.out.message), az.after) else
    var t := WordAt(s, A, az.after, a, TempOutH);
    if t.out.Err? then Step(Err(t.out.message), t.after) else
    var gx := WordAt(s, A, t.after, a, GyroXoutH);
    if gx.out.Err? then Step(Err(gx.out.message), gx.after) else
    var gy := WordAt(s, A, gx.after, a, GyroXoutH + 2);
    if gy.out.Err? then Step(Err(gy.out.message), gy.after) else
    var gz := WordAt(s, A, gy.after, a, GyroXoutH + 4);
    if gz.out.Err? then Step(Err(gz.out.message), gz.after) else
    Step(Ok(Motion(ax.out.value, ay.out.value, az.out.value, t.out.value, gx.out.value, gy.out.value, gz.out.value)),
         gz.after)
  }

  /** What `read` gives: the simulated dict, or the hardware values, or the error it caught. */
  datatype Outcome = Simulation | Measured(motion: Motion) | Failed(message: string)

  function Mpu6050Read(hasLibs: bool, initialized: bool, s: Settings, A: Answer, h: seq<Op>): Step<Outcome> {
    if Simulated(hasLibs, s) then Step(Simulation, h)
    else if !initialized then Step(Failed("Sensor not initialized"), h)
    else
      match IntOf(s.i2cAddress)
      case None => Step(Failed("address must be an integer"), h)
      case Some(a) =>
        var m := MotionRead(s, A, h, a);
        Step(if m.out.Ok? then Measured(m.out.value) else Failed(m.out.message), m.after)
  }

  /** The keys of a reading: six motion values, the temperature and the timestamp. */
  const ReadingKeys: set<string> := {"accel_x", "accel_y", "accel_z", "gyro_x", "gyro_y", "gyro_z", "temperature", "timestamp"}

  /** A reading dict; the scaled values are floats this model does not compute. */
  function MotionDict(now: int): (r: Dict)
    ensures r.Keys == ReadingKeys && r["timestamp"] == Epoch(now)
    ensures forall k :: k in r && k != "timestamp" ==> r[k] == Unmodelled
  {
    map["accel_x" := Unmodelled, "accel_y" := Unmodelled, "accel_z" := Unmodelled, "gyro_x" := Unmodelled,
        "gyro_y" := Unmodelled, "gyro_z" := Unmodelled, "temperature" := Unmodelled, "timestamp" := Epoch(now)]
  }

  /** The driver's `_handle_error`: every value `None`, a timestamp, and the error text. */
  function MpuErrorDict(now: int, message: string): (r: Dict)
    ensures r.Keys == ReadingKeys + {"error"} && r["error"] == Str(message) && r["timestamp"] == Epoch(now)
    ensures forall k :: k in r && k != "timestamp" && k != "error" ==> r[k] == Null
  {
    map["accel_x" := Null, "accel_y" := Null, "accel_z" := Null, "gyro_x" := Null, "gyro_y" := Null,
        "gyro_z" := Null, "temperature" := Null, "timestamp" := Epoch(now), "error" := Str(message)]
  }

  /** What `is_available` gives and whether the bus is open afterwards. */
  datatype Probe = Probe(available: bool, busOpen: bool, after: seq<Op>)

  function Mpu6050Available(hasLibs: bool, opens: Value -> bool, busOpen: bool, s: Settings, A: Answer, h: seq<Op>): Probe {
    if Simulated(hasLibs, s) then Probe(true, busOpen, h)
    else if !busOpen && !opens(Int(1)) then Probe(false, false, h)
    else
      var sel := Select(s, A, h);
      if sel.out.Err? then Probe(false, true, sel.after)
      else
        match IntOf(s.i2cAddress)
        case None => Probe(false, true, sel.after)
        case Some(a) =>
          var op := ReadByteData(a, WhoAmI);
          Probe(A(sel.after, op) == Done(ExpectedWhoAmI), true, sel.after + [op])
  }

  // ---------------------------------------------------------------------------
  // The bus side, transaction by transaction

  method SelectMuxChannel(bus: I2cBus, s: Settings) returns (r: Result<()>)
    modifies bus
    ensures var sel := Select(s, bus.answer, old(bus.trace));
            r == sel.out && bus.trace == sel.after
  {
    if !Multiplexed(s) {
      return Ok(());
    }
    var w := SelectWrite(s.muxAddress, s.muxChannel);
    if w.Err? {
      return Err(w.message);
    }
    var reply := bus.Transact(w.value);
    r := if reply.Fail? then Err(reply.message) else Ok(());
  }

  method WriteChecked(bus: I2cBus, op: Op) returns (r: Result<()>)
    modifies bus
    ensures var w := Write(bus.answer, old(bus.trace), op);
            r == w.out && bus.trace == w.after
  {
    var reply := bus.Transact(op);
    r := if reply.Fail? then Err(reply.message) else Ok(());
  }

  /** `_initialize_sensor` after `SMBus(1)` opened. */
  method InitializeSensor(bus: I2cBus, s: Settings) returns (r: Result<()>)
    modifies bus
    ensures var init := Initialize(s, bus.answer, old(bus.trace));
            r == init.out && bus.trace == init.after
  {
    r := SelectMuxChannel(bus, s);
    if r.Err? {
      return;
    }
    var address := IntOf(s.i2cAddress);
    if address.None? {
      return Err("address must be an integer");
    }
    var a := address.value;
    r := WriteChecked(bus, WriteByteData(a, PowerManagement1, 0x00));
    if r.Err? {
      return;
    }
    var who := bus.Transact(ReadByteData(a, WhoAmI));
    if who.Fail? {
      return Err(who.message);
    }
    if who.value != ExpectedWhoAmI {
      return Err(WhoAmIMessage(who.value));
    }
    r := WriteChecked(bus, WriteByteData(a, AccelConfig, 0x00));
    if r.Err? {
      return;
    }
    r := WriteChecked(bus, WriteByteData(a, GyroConfig, 0x00));
    if r.Err? {
      return;
    }
    r := WriteChecked(bus, WriteByteData(a, Config, 0x03));
  }

  /** `_read_word_2c(reg)` */
  method ReadWord2c(bus: I2cBus, s: Settings, a: int, reg: int) returns (r: Result<int>)
    modifies bus
    ensures var w := WordAt(s, bus.answer, old(bus.trace), a, reg);
            r == w.out && bus.trace == w.after
  {
    var sel := SelectMuxChannel(bus, s);
    if sel.Err? {
      return Err(sel.message);
    }
    var reply := bus.Transact(ReadWordData(a, reg));
    if reply.Fail? {
      return Err(reply.message);
    }
    r := Ok(Word2c(reply.value));
  }

  /** The seven word reads of `read`, in the source's order. */
  method ReadMotion(bus: I2cBus, s: Settings, a: int) returns (r: Result<Motion>)
    modifies bus
    ensures var m := MotionRead(s, bus.answer, old(bus.trace), a);
            r == m.out && bus.trace == m.after
  {
    var ax := ReadWord2c(bus, s, a, AccelXoutH);
    if ax.Err? { return Err(ax.message); }
    var ay := ReadWord2c(bus, s, a, AccelXoutH + 2);
    if ay.Err? { return Err(ay.message); }
    var az := ReadWord2c(bus, s, a, AccelXoutH + 4);
    if az.Err? { return Err(az.message); }
    var t := ReadWord2c(bus, s, a, TempOutH);
    if t.Err? { return Err(t.message); }
    var gx := ReadWord2c(bus, s, a, GyroXoutH);
    if gx.Err? { return Err(gx.message); }
    var gy := ReadWord2c(bus, s, a, GyroXoutH + 2);
    if gy.Err? { return Err(gy.message); }
    var gz := ReadWord2c(bus, s, a, GyroXoutH + 4);
    if gz.Err? { return Err(gz.message); }
    r := Ok(Motion(ax.value, ay.value, az.value, t.value, gx.value, gy.value, gz.value));
  }

  class Mpu6050Sensor {
    const core: SensorInterface
    const settings: Settings
    const hasLibs: bool
    /** `self.bus is not None` */
    var busOpen: bool
    /** `self._initialized` */
    var initialized: bool

    ghost predicate Valid()
      reads this
    {
      core.className == "MPU6050Sensor"
    }

    /**
     * `__init__`: an initialisation error leaves status `error` and one
     * counted error; success leaves status `unknown`.
     */
    constructor (sensorId: string, config: Dict, bus: I2cBus)
      modifies bus
      ensures Valid() && fresh(core)
      ensures core.sensorId == sensorId && core.config == config && core.lastReading == Null
      ensures settings == SettingsOf(config) && hasLibs == HasMpu6050(bus.libs)
      ensures var b := Mpu6050Boot(bus.libs, bus.opens, bus.answer, old(bus.trace), SettingsOf(config));
              && initialized == b.initialized && busOpen == b.busOpen && bus.trace == b.after
              && (b.failure.Some? ==> core.status == Error && core.errorCount == 1)
              && (b.failure.None? ==> core.status == Unknown && core.errorCount == 0)
    {
      var s := SettingsOf(config);
      var c := new SensorInterface(sensorId, "MPU6050Sensor", config);
      var ok, isOpen := Boot(bus, s);
      if !ok {
        c.status := Error;
        c.errorCount := c.errorCount + 1;
      }
      core := c;
      settings := s;
      hasLibs := HasMpu6050(bus.libs);
      initialized := ok;
      busOpen := isOpen;
    }

    /** The `try` block of `__init__`. */
    static method Boot(bus: I2cBus, s: Settings) returns (initialized: bool, busOpen: bool)
      modifies bus
      ensures var b := Mpu6050Boot(bus.libs, bus.opens, bus.answer, old(bus.trace), s);
              initialized == b.initialized && busOpen == b.busOpen && bus.trace == b.after
    {
      if Simulated(HasMpu6050(bus.libs), s) {
        return true, false;
      }
      if !bus.opens(Int(1)) {
        return false, false;
      }
      var r := InitializeSensor(bus, s);
      initialized, busOpen := r.Ok?, true;
    }

    /**
     * `read`: the simulated dict changes nothing; a hardware read sets status
     * `active` and keeps the dict; any failure counts one error, sets status
     * `error` and returns the driver's error dict.
     */
    method Read(bus: I2cBus, now: int) returns (r: Dict)
      requires Valid()
      modifies bus, core
      ensures var out := Mpu6050Read(hasLibs, initialized, settings, bus.answer, old(bus.trace));
              && bus.trace == out.after
              && (out.out.Simulation? ==> r == MotionDict(now) && core.status == old(core.status)
                                          && core.errorCount == old(core.errorCount) && core.lastReading == old(core.lastReading))
              && (out.out.Measured? ==> r == MotionDict(now) && core.status == Active
                                        && core.errorCount == old(core.errorCount) && core.lastReading == Mapping(r))
              && (out.out.Failed? ==> r == MpuErrorDict(now, out.out.message) && core.status == Error
                                      && core.errorCount == old(core.errorCount) + 1 && core.lastReading == old(core.lastReading))
    {
      var out := Fetch(bus);
      match out
      case Simulation =>
        r := MotionDict(now);
      case Measured(_) =>
        r := MotionDict(now);
        core.lastReading := Mapping(r);
        core.status := Active;
      case Failed(m) =>
        core.errorCount := core.errorCount + 1;
        core.status := Error;
        r := MpuErrorDict(now, m);
    }

    /** The bus side of `read`. */
    method Fetch(bus: I2cBus) returns (out: Outcome)
      modifies bus
      ensures var spec := Mpu6050Read(hasLibs, initialized, settings, bus.answer, old(bus.trace));
              out == spec.out && bus.trace == spec.after
    {
      if Simulated(hasLibs, settings) {
        return Simulation;
      }
      if !initialized {
        return Failed("Sensor not initialized");
      }
      var address := IntOf(settings.i2cAddress);
      if address.None? {
        return Failed("address must be an integer");
      }
      var m := ReadMotion(bus, settings, address.value);
      out := if m.Ok? then Measured(m.value) else Failed(m.message);
    }

    /** `is_available`: may open the bus, and changes nothing else of the sensor. */
    method IsAvailable(bus: I2cBus) returns (r: bool)
      modifies this, bus
      ensures var p := Mpu6050Available(hasLibs, bus.opens, old(busOpen), settings, bus.answer, old(bus.trace));
              r == p.available && busOpen == p.busOpen && bus.trace == p.after
      ensures initialized == old(initialized)
    {
      if Simulated(hasLibs, settings) {
        return true;
      }
      if !busOpen {
        if !bus.opens(Int(1)) {
          return false;
        }
        busOpen := true;
      }
      var sel := SelectMuxChannel(bus, settings);
      if sel.Err? {
        return false;
      }
      var address := IntOf(settings.i2cAddress);
      if address.None? {
        return false;
      }
      var who := bus.Transact(ReadByteData(address.value, WhoAmI));
      r := who == Done(ExpectedWhoAmI);
    }
  }

  // ---------------------------------------------------------------------------
  // Properties

  /** Initialisation fails unless `WHO_AM_I` reads 0x68. */
  lemma WrongWhoAmIRejected(s: Settings, A: Answer, h: seq<Op>)
    requires Initialize(s, A, h).out.Ok? && IntOf(s.i2cAddress).Some?
    ensures var sel := Select(s, A, h);
            var a := IntOf(s.i2cAddress).value;
            var wake := Write(A, sel.after, WriteByteData(a, PowerManagement1, 0x00));
            A(wake.after, ReadByteData(a, WhoAmI)) == Done(ExpectedWhoAmI)
  {
  }

  /** Mock mode, or no `smbus2`, initialises without any transaction. */
  lemma SimulatedBootIsQuiet(libs: Libraries, opens: Value -> bool, A: Answer, h: seq<Op>, s: Settings)
    requires Simulated(HasMpu6050(libs), s)
    ensures Mpu6050Boot(libs, opens, A, h, s) == Boot(true, false, None, h)
  {
  }

  /**
   * A hardware read of an unmultiplexed sensor issues exactly the seven word
   * reads, at 0x3B, 0x3D, 0x3F, 0x41, 0x43, 0x45, 0x47 in that order.
   */
  lemma SevenWordReads(s: Settings, A: Answer, h: seq<Op>, a: int)
    requires !Multiplexed(s)
    requires forall h', r :: A(h', ReadWordData(a, r)).Done?
    ensures MotionRead(s, A, h, a).after ==
            h + [ReadWordData(a, 0x3B), ReadWordData(a, 0x3D), ReadWordData(a, 0x3F), ReadWordData(a, 0x41),
                 ReadWordData(a, 0x43), ReadWordData(a, 0x45), ReadWordData(a, 0x47)]
  {
  }

  /** On a multiplexed sensor, every word read is preceded by its own channel select. */
  lemma WordReadReselects(s: Settings, A: Answer, h: seq<Op>, a: int, reg: int)
    requires Multiplexed(s) && SelectWrite(s.muxAddress, s.muxChannel).Ok?
    requires A(h, SelectWrite(s.muxAddress, s.muxChannel).value).Done?
    ensures WordAt(s, A, h, a, reg).after == h + [SelectWrite(s.muxAddress, s.muxChannel).value, ReadWordData(a, reg)]
  {
  }

  /** A read before initialisation, off the simulated path, fails without touching the bus. */
  lemma UninitializedReadFails(hasLibs: bool, s: Settings, A: Answer, h: seq<Op>)
    requires !Simulated(hasLibs, s)
    ensures Mpu6050Read(hasLibs, false, s, A, h) == Step(Failed("Sensor not initialized"), h)
  {
  }

  /** A hardware read decodes every word into the signed 16-bit range when the bus answers 16-bit words. */
  lemma MotionInRange(s: Settings, A: Answer, h: seq<Op>, a: int)
    requires forall h', r :: A(h', ReadWordData(a, r)).Done? ==> 0 <= A(h', ReadWordData(a, r)).value < 0x10000
    requires MotionRead(s, A, h, a).out.Ok?
    ensures var m := MotionRead(s, A, h, a).out.value;
            -0x8000 <= m.accelX < 0x8000 && -0x8000 <= m.temperature < 0x8000 && -0x8000 <= m.gyroZ < 0x8000
  {
  }
}
