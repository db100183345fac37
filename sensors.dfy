/**
 * `SensorInterface`, the base every driver extends: its state at
 * construction, the type name derived from the class name, the info dict,
 * error handling and error reset; and `MockSensor`. A driver here holds its
 * `SensorInterface` part as an object of its own (`core`), which plays the
 * role of the inherited attributes.
 */
module Sensors {
  import opened Values
  import opened PyText
  import opened Hardware
  import opened Topology

  /** `self.__class__.__name__.replace('Sensor', '').lower()` */
  function SensorType(className: string): (r: string)
    ensures |r| <= |className|
    ensures forall i :: 0 <= i < |r| ==> !('A' <= r[i] <= 'Z')
  {
    Lower(RemoveAll(className, "Sensor"))
  }

  /** The dict `_handle_error` returns. */
  function ErrorDict(sensorId: string, message: string): (r: Dict)
    ensures r.Keys == {"sensor_id", "error", "status", "timestamp", "data"}
    ensures r["error"] == Str(message) && r["status"] == Str("error")
    ensures r["timestamp"] == Null && r["data"] == Mapping(map[])
  {
    map["sensor_id" := Str(sensorId), "error" := Str(message), "status" := Str("error"),
        "timestamp" := Null, "data" := Mapping(map[])]
  }

  /**
   * `bus.write_byte(mux_address, 1 << mux_channel)` as far as Python gets:
   * the transaction, or the error raised before it reaches the bus (a
   * channel that is not an integer, a negative shift, an address that is not
   * an integer).
   */
  function SelectWrite(mux: Value, ch: Value): (r: Result<Op>)
    ensures r.Ok? <==> IntOf(mux).Some? && IntOf(ch).Some? && IntOf(ch).value >= 0
    ensures r.Ok? ==> r.value == WriteByte(IntOf(mux).value, Mask(IntOf(ch).value))
  {
    match IntOf(ch)
    case None => Err("unsupported operand type(s) for <<")
    case Some(c) =>
      if c < 0 then Err("negative shift count")
      else
        match IntOf(mux)
        case None => Err("address must be an integer")
        case Some(a) => Ok(WriteByte(a, Mask(c)))
  }

  /** The attributes every sensor object has. */
  class SensorInterface {
    const sensorId: string
    /** The name of the object's class, which `get_sensor_type` reads. */
    const className: string
    const config: Dict
    var lastReading: Value
    var errorCount: int
    var status: Status

    /** `SensorInterface.__init__`: no reading yet, no errors, status `unknown`. */
    constructor (sensorId: string, className: string, config: Dict)
      ensures this.sensorId == sensorId && this.className == className && this.config == config
      ensures lastReading == Null && errorCount == 0 && status == Unknown
    {
      this.sensorId := sensorId;
      this.className := className;
      this.config := config;
      lastReading := Null;
      errorCount := 0;
      status := Unknown;
    }

    /** `get_info`: the current attributes, read without changing any. */
    function GetInfo(): (r: Dict)
      reads this
      ensures r.Keys == {"sensor_id", "sensor_type", "config", "status", "error_count", "last_reading"}
      ensures r["sensor_type"] == Str(SensorType(className)) && r["config"] == Mapping(config)
      ensures r["status"] == Str(StatusName(status)) && r["error_count"] == Int(errorCount)
      ensures r["last_reading"] == lastReading
    {
      map["sensor_id" := Str(sensorId), "sensor_type" := Str(SensorType(className)), "config" := Mapping(config),
          "status" := Str(StatusName(status)), "error_count" := Int(errorCount), "last_reading" := lastReading]
    }

    /** `reset_errors`: the count goes to zero and nothing else changes. */
    method ResetErrors()
      modifies this
      ensures errorCount == 0 && status == old(status) && lastReading == old(lastReading)
    {
      errorCount := 0;
    }

    /** `_handle_error`: one more error, status `error`, and the error dict. */
    method HandleError(message: string) returns (r: Dict)
      modifies this
      ensures errorCount == old(errorCount) + 1 && status == Error && lastReading == old(lastReading)
      ensures r == ErrorDict(sensorId, message)
    {
      errorCount := errorCount + 1;
      status := Error;
      r := ErrorDict(sensorId, message);
    }
  }

  /** The dict `MockSensor.read` stores and returns; its three values are random draws. */
  function MockReading(sensorId: string, now: int): (r: Dict)
    ensures r.Keys == {"sensor_id", "timestamp", "data", "status"} && r["status"] == Str("active")
    ensures r["data"].Mapping? && r["data"].entries.Keys == {"temperature", "humidity", "pressure"}
  {
    map["sensor_id" := Str(sensorId), "timestamp" := Stamp(now),
        "data" := Mapping(map["temperature" := Unmodelled, "humidity" := Unmodelled, "pressure" := Unmodelled]),
        "status" := Str("active")]
  }

  class MockSensor {
    const core: SensorInterface

    /** `MockSensor.__init__`: a fresh sensor whose status is `active`. */
    constructor (sensorId: string, config: Dict)
      ensures fresh(core)
      ensures core.sensorId == sensorId && core.className == "MockSensor" && core.config == config
      ensures core.lastReading == Null && core.errorCount == 0 && core.status == Active
    {
      core := new SensorInterface(sensorId, "MockSensor", config);
      new;
      core.status := Active;
    }

    /** `read`: the mock dict, also kept as the last reading; the clock reading `now` stamps it. */
    method Read(now: int) returns (r: Dict)
      modifies core
      ensures r == MockReading(core.sensorId, now) && core.lastReading == Mapping(r)
      ensures core.status == old(core.status) && core.errorCount == old(core.errorCount)
    {
      r := MockReading(core.sensorId, now);
      core.lastReading := Mapping(r);
    }

    /** `is_available` */
    method IsAvailable() returns (r: bool)
      ensures r
    {
      r := true;
    }
  }

  /** The built-in classes report the type they are registered under. */
  lemma Bme280SensorType()
    ensures SensorType("BME280Sensor") == "bme280"
  {
    assert "BME280" + "Sensor" == "BME280Sensor";
    TypeOfClass("BME280", "bme280");
  }

  lemma Ltr329SensorType()
    ensures SensorType("LTR329Sensor") == "ltr329"
  {
    assert "LTR329" + "Sensor" == "LTR329Sensor";
    TypeOfClass("LTR329", "ltr329");
  }

  lemma Mpu6050SensorType()
    ensures SensorType("MPU6050Sensor") == "mpu6050"
  {
    assert "MPU6050" + "Sensor" == "MPU6050Sensor";
    TypeOfClass("MPU6050", "mpu6050");
  }

  lemma MockSensorType()
    ensures SensorType("MockSensor") == "mock"
  {
    assert "Mock" + "Sensor" == "MockSensor";
    TypeOfClass("Mock", "mock");
  }

  lemma TypeOfClass(name: string, lowered: string)
    requires forall i :: 0 <= i < |name| ==> name[i] != 'S'
    requires |lowered| == |name| && forall i :: 0 <= i < |name| ==> LowerChar(name[i]) == lowered[i]
    ensures SensorType(name + "Sensor") == lowered
  {
    RemovesSuffix(name);
  }

  /** A name without an `S` keeps everything but a trailing `Sensor`. */
  lemma {:induction false} RemovesSuffix(name: string)
    requires forall i :: 0 <= i < |name| ==> name[i] != 'S'
    ensures RemoveAll(name + "Sensor", "Sensor") == name
    decreases |name|
  {
    if name == [] {
      assert [] + "Sensor" == "Sensor";
      assert RemoveAll("Sensor"[6..], "Sensor") == [];
    } else {
      var s := name + "Sensor";
      assert s[..6] != "Sensor" by { assert s[0] == name[0] != 'S'; }
      assert s[1..] == name[1..] + "Sensor";
      RemovesSuffix(name[1..]);
      assert [name[0]] + name[1..] == name;
    }
  }
}
