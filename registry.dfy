/**
 * `SensorRegistry`: a case-insensitive, insertion-ordered table from sensor
 * type to sensor class, a second one from sensor type to discovery handler,
 * sensor construction that never raises, and `discover_sensors`, which runs
 * every handler in registration order and tags what it returns.
 */
module Registry {
  import opened Values
  import opened PyText
  import opened Hardware
  import opened Topology

  /** A class handed to `register_sensor`: its name and whether it derives from `SensorInterface`. */
  datatype SensorClass = SensorClass(name: string, derivesFromInterface: bool)

  const Bme280Class := SensorClass("BME280Sensor", true)
  const Ltr329Class := SensorClass("LTR329Sensor", true)

  /** A discovery handler: one of the two built-in routines, or another callable whose outcome is given. */
  datatype Handler =
    | Bme280Handler
    | Ltr329Handler
    | ExternalHandler(outcome: Result<seq<Value>>)

  /** A sensor object, identified by what its class was called with. */
  datatype Instance = Instance(cls: SensorClass, sensorId: string, config: Dict)

  /**
   * How sensor objects behave as the collection loops see them: whether the
   * constructor returns, and what `is_available()` and `read()` give in a round.
   */
  datatype Fleet = Fleet(
    constructs: Instance -> bool,
    available: (Instance, nat) -> Result<bool>,
    readings: (Instance, nat) -> Result<Dict>)

  // ---------------------------------------------------------------------------
  // Lookup

  /** `classes.get(sensor_type.lower())` */
  function Lookup<T>(m: map<string, T>, sensorType: string): (r: Option<T>)
    ensures r.Some? <==> Lower(sensorType) in m
    ensures r.Some? ==> r.value == m[Lower(sensorType)]
  {
    if Lower(sensorType) in m then Some(m[Lower(sensorType)]) else None
  }

  /** Lookup ignores letter case: a type and its lower-cased form find the same entry. */
  lemma LookupCaseInsensitive<T>(m: map<string, T>, sensorType: string)
    ensures Lookup(m, sensorType) == Lookup(m, Lower(sensorType))
  {
    LowerIdempotent(sensorType);
  }

  /** After registering under `t`, every spelling of `t` finds the new entry, and other types are unaffected. */
  lemma LookupAfterRegister<T>(m: map<string, T>, t: string, v: T, u: string)
    ensures Lower(u) == Lower(t) ==> Lookup(m[Lower(t) := v], u) == Some(v)
    ensures Lower(u) != Lower(t) ==> Lookup(m[Lower(t) := v], u) == Lookup(m, u)
  {
  }

  lemma LowerOfLowercase(s: string)
    requires forall i :: 0 <= i < |s| ==> !('A' <= s[i] <= 'Z')
    ensures Lower(s) == s
  {
  }

  /**
   * `create_sensor` on a class table: `None` for an unknown type and `None`
   * when the constructor raises; it never raises itself.
   */
  function Create(classes: map<string, SensorClass>, fleet: Fleet, sensorType: string, sensorId: string, config: Dict)
    : (r: Option<Instance>)
    ensures r.Some? <==> (Lower(sensorType) in classes &&
                           fleet.constructs(Instance(classes[Lower(sensorType)], sensorId, config)))
    ensures r.Some? ==> r.value == Instance(classes[Lower(sensorType)], sensorId, config)
  {
    match Lookup(classes, sensorType)
    case None => None
    case Some(cls) =>
      if fleet.constructs(Instance(cls, sensorId, config)) then Some(Instance(cls, sensorId, config)) else None
  }

  // ---------------------------------------------------------------------------
  // Built-in registrations

  /**
   * The types `_register_builtin_sensors` registers. The LTR329 module imports
   * `board` and `busio` unconditionally, so without Blinka its import fails and
   * only BME280 is registered; MPU6050 is never registered.
   */
  function BuiltinTypes(libs: Libraries): (r: seq<string>)
    ensures "bme280" in r && "mpu6050" !in r
    ensures "ltr329" in r <==> libs.blinka
  {
    if libs.blinka then ["bme280", "ltr329"] else ["bme280"]
  }

  function BuiltinClasses(libs: Libraries): map<string, SensorClass> {
    if libs.blinka then map["bme280" := Bme280Class, "ltr329" := Ltr329Class]
    else map["bme280" := Bme280Class]
  }

  function BuiltinHandlers(libs: Libraries): map<string, Handler> {
    if libs.blinka then map["bme280" := Bme280Handler, "ltr329" := Ltr329Handler]
    else map["bme280" := Bme280Handler]
  }

  /** No spelling of `mpu6050` finds a class or a handler in a fresh registry. */
  lemma MpuNeverBuiltin(libs: Libraries, t: string)
    requires Lower(t) == "mpu6050"
    ensures Lookup(BuiltinClasses(libs), t) == None
    ensures Lookup(BuiltinHandlers(libs), t) == None
  {
    assert "mpu6050" != "bme280" && "mpu6050" != "ltr329";
  }

  // ---------------------------------------------------------------------------
  // discover_sensors

  function AsValues(ds: seq<Dict>): (vs: seq<Value>)
    ensures |vs| == |ds|
    ensures forall i :: 0 <= i < |ds| ==> vs[i] == Mapping(ds[i])
  {
    seq(|ds|, i requires 0 <= i < |ds| => Mapping(ds[i]))
  }

  /**
   * Calling one handler: what it returns or raises, and its bus traffic. Each
   * built-in routine runs i2cdetect itself, whose result `scan` gives as a
   * function of the bus traffic so far.
   */
  function Invoke(handler: Handler, scan: seq<Op> -> Detect, libs: Libraries, A: Answer, open: bool, h: seq<Op>)
    : Run<Result<seq<Value>>>
  {
    match handler
    case Bme280Handler =>
      var r := Bme280Discovery(scan(h), A, open, h);
      Run(Ok(AsValues(r.out)), r.ops)
    case Ltr329Handler =>
      var r := Ltr329Discovery(libs.smbus2, scan(h), A, open, h);
      Run(Ok(AsValues(r.out)), r.ops)
    case ExternalHandler(outcome) => Run(outcome, [])
  }

  /**
   * The inner loop of `discover_sensors`: each returned dict gets
   * `sensor_type` set and is kept; an item that is not a dict raises, which
   * ends this handler's contribution.
   */
  function Tagged(t: string, items: seq<Value>): seq<Dict> {
    if items == [] || !items[0].Mapping? then []
    else [items[0].entries["sensor_type" := Str(t)]] + Tagged(t, items[1..])
  }

  function Contribution(t: string, outcome: Result<seq<Value>>): seq<Dict> {
    if outcome.Err? then [] else Tagged(t, outcome.value)
  }

  /** What calling a handler does on a given bus, as one function of the handler and the traffic so far. */
  type Caller = (Handler, seq<Op>) -> Run<Result<seq<Value>>>

  function Calls(scan: seq<Op> -> Detect, libs: Libraries, A: Answer, open: bool): (c: Caller)
    ensures forall handler, h :: c(handler, h) == Invoke(handler, scan, libs, A, open, h)
  {
    (handler, h) => Invoke(handler, scan, libs, A, open, h)
  }

  /** `discover_sensors` over the handler types in registration order. */
  function Discovered(types: seq<string>, handlers: map<string, Handler>, call: Caller, h: seq<Op>): Run<seq<Dict>>
    requires forall t :: t in types ==> t in handlers
    decreases |types|
  {
    if types == [] then Run([], [])
    else
      var here := call(handlers[types[0]], h);
      var rest := Discovered(types[1..], handlers, call, h + here.ops);
      Run(Contribution(types[0], here.out) + rest.out, here.ops + rest.ops)
  }

  // ---------------------------------------------------------------------------
  // The registry object

  class SensorRegistry {
    var classTypes: seq<string>
    var classes: map<string, SensorClass>
    var handlerTypes: seq<string>
    var handlers: map<string, Handler>

    ghost predicate Valid()
      reads this
    {
      && OrderedKeys(classTypes, classes.Keys)
      && OrderedKeys(handlerTypes, handlers.Keys)
      && (forall t :: t in classes ==> Lower(t) == t && classes[t].derivesFromInterface)
      && (forall t :: t in handlers ==> Lower(t) == t)
    }

    /** `SensorRegistry()`: the tables hold exactly the built-in registrations. */
    constructor (libs: Libraries)
      ensures Valid()
      ensures classTypes == BuiltinTypes(libs) && classes == BuiltinClasses(libs)
      ensures handlerTypes == BuiltinTypes(libs) && handlers == BuiltinHandlers(libs)
    {
      classTypes := BuiltinTypes(libs);
      classes := BuiltinClasses(libs);
      handlerTypes := BuiltinTypes(libs);
      handlers := BuiltinHandlers(libs);
      LowerOfLowercase("bme280");
      LowerOfLowercase("ltr329");
    }

    /**
     * `register_sensor`: a class not derived from `SensorInterface` raises
     * `ValueError` and leaves the table as it was; otherwise the class is
     * stored under the lower-cased type.
     */
    method RegisterSensor(sensorType: string, cls: SensorClass) returns (r: Result<()>)
      requires Valid()
      modifies this
      ensures Valid()
      ensures r.Err? <==> !cls.derivesFromInterface
      ensures r.Err? ==> classTypes == old(classTypes) && classes == old(classes)
      ensures r.Ok? ==> classes == old(classes)[Lower(sensorType) := cls]
      ensures r.Ok? ==> classTypes == InsertKey(old(classTypes), Lower(sensorType))
      ensures handlerTypes == old(handlerTypes) && handlers == old(handlers)
    {
      if !cls.derivesFromInterface {
        return Err("Sensor class " + cls.name + " must inherit from SensorInterface");
      }
      var key := Lower(sensorType);
      LowerIdempotent(sensorType);
      InsertKeyOrdered(classTypes, classes.Keys, key);
      classTypes := InsertKey(classTypes, key);
      classes := classes[key := cls];
      r := Ok(());
    }

    /** `register_discovery_handler`: the handler is stored under the lower-cased type. */
    method RegisterDiscoveryHandler(sensorType: string, handler: Handler)
      requires Valid()
      modifies this
      ensures Valid()
      ensures handlers == old(handlers)[Lower(sensorType) := handler]
      ensures handlerTypes == InsertKey(old(handlerTypes), Lower(sensorType))
      ensures classTypes == old(classTypes) && classes == old(classes)
    {
      var key := Lower(sensorType);
      LowerIdempotent(sensorType);
      InsertKeyOrdered(handlerTypes, handlers.Keys, key);
      handlerTypes := InsertKey(handlerTypes, key);
      handlers := handlers[key := handler];
    }

    /** `get_sensor_class` */
    function GetSensorClass(sensorType: string): (r: Option<SensorClass>)
      reads this
      ensures r == Lookup(classes, sensorType)
    {
      Lookup(classes, sensorType)
    }

    /** `get_available_types`: exactly the lower-case types that have a class, each once. */
    function GetAvailableTypes(): (r: seq<string>)
      requires Valid()
      reads this
      ensures forall i, j :: 0 <= i < j < |r| ==> r[i] != r[j]
      ensures forall t :: t in r ==> Lower(t) == t && GetSensorClass(t).Some?
      ensures forall t :: GetSensorClass(t).Some? ==> Lower(t) in r
    {
      classTypes
    }

    /** `create_sensor` */
    function CreateSensor(fleet: Fleet, sensorType: string, sensorId: string, config: Dict): (r: Option<Instance>)
      reads this
      ensures r == Create(classes, fleet, sensorType, sensorId, config)
    {
      Create(classes, fleet, sensorType, sensorId, config)
    }

    /**
     * `discover_sensors`: the handlers' results concatenated in registration
     * order, each tagged with its handler's type; a handler that raises adds
     * nothing further and the rest still run.
     */
    method DiscoverSensors(bus: I2cBus, scan: seq<Op> -> Detect) returns (found: seq<Dict>)
      requires Valid()
      modifies bus
      ensures var r := Discovered(handlerTypes, handlers, Calls(scan, bus.libs, bus.answer, bus.CanOpen(Int(1))), old(bus.trace));
              found == r.out && bus.trace == old(bus.trace) + r.ops
    {
      ghost var h0 := bus.trace;
      ghost var issued: seq<Op> := [];
      ghost var call := Calls(scan, bus.libs, bus.answer, bus.CanOpen(Int(1)));
      found := [];
      var i := 0;
      while i < |handlerTypes|
        invariant 0 <= i <= |handlerTypes|
        invariant bus.trace == h0 + issued
        invariant Discovered(handlerTypes, handlers, call, h0).out ==
                  found + Discovered(handlerTypes[i..], handlers, call, bus.trace).out
        invariant Discovered(handlerTypes, handlers, call, h0).ops ==
                  issued + Discovered(handlerTypes[i..], handlers, call, bus.trace).ops
      {
        var t := handlerTypes[i];
        ghost var before := bus.trace;
        assert handlerTypes[i..][1..] == handlerTypes[i + 1..];
        var outcome := CallHandler(bus, handlers[t], scan);
        var tagged := TagResults(t, outcome);
        ghost var step := Invoke(handlers[t], scan, bus.libs, bus.answer, bus.CanOpen(Int(1)), before).ops;
        assert call(handlers[t], before).ops == step;
        assert bus.trace == before + step;
        ghost var rest := Discovered(handlerTypes[i + 1..], handlers, call, bus.trace);
        Assoc(found, tagged, rest.out);
        Assoc(issued, step, rest.ops);
        Assoc(h0, issued, step);
        found := found + tagged;
        issued := issued + step;
        i := i + 1;
      }
    }
  }

  /** Calls one handler on the bus. */
  method CallHandler(bus: I2cBus, handler: Handler, scan: seq<Op> -> Detect) returns (outcome: Result<seq<Value>>)
    modifies bus
    ensures var r := Invoke(handler, scan, bus.libs, bus.answer, bus.CanOpen(Int(1)), old(bus.trace));
            outcome == r.out && bus.trace == old(bus.trace) + r.ops
  {
    match handler
    case Bme280Handler =>
      var sensors := DiscoverBme280(bus, scan(bus.trace));
      outcome := Ok(AsValues(sensors));
    case Ltr329Handler =>
      var sensors := DiscoverLtr329(bus, scan(bus.trace));
      outcome := Ok(AsValues(sensors));
    case ExternalHandler(o) =>
      outcome := o;
  }

  /** The tagging loop for one handler's outcome. */
  method TagResults(t: string, outcome: Result<seq<Value>>) returns (tagged: seq<Dict>)
    ensures tagged == Contribution(t, outcome)
  {
    tagged := [];
    if outcome.Err? {
      return;
    }
    var items := outcome.value;
    var i := 0;
    while i < |items| && items[i].Mapping?
      invariant 0 <= i <= |items|
      invariant Tagged(t, items) == tagged + Tagged(t, items[i..])
    {
      assert items[i..][1..] == items[i + 1..];
      Assoc(tagged, [items[i].entries["sensor_type" := Str(t)]], Tagged(t, items[i + 1..]));
      tagged := tagged + [items[i].entries["sensor_type" := Str(t)]];
      i := i + 1;
    }
  }

  // ---------------------------------------------------------------------------
  // Properties of discover_sensors

  /**
   * The tagged results are the longest prefix of dicts among the items, each
   * with `sensor_type` set to the handler's type.
   */
  lemma {:induction false} TaggedPrefix(t: string, items: seq<Value>)
    ensures var r := Tagged(t, items);
            && |r| <= |items|
            && (forall i :: 0 <= i < |r| ==> items[i].Mapping? && r[i] == items[i].entries["sensor_type" := Str(t)])
            && (|r| < |items| ==> !items[|r|].Mapping?)
  {
    if items != [] && items[0].Mapping? {
      TaggedPrefix(t, items[1..]);
    }
  }

  /** Every discovered dict carries `sensor_type`, naming one of the registered handler types. */
  lemma {:induction false} DiscoveredTagged(types: seq<string>, handlers: map<string, Handler>, call: Caller, h: seq<Op>)
    requires forall t :: t in types ==> t in handlers
    ensures forall d: Dict :: d in Discovered(types, handlers, call, h).out ==>
              "sensor_type" in d && d["sensor_type"].Str? && d["sensor_type"].s in types
    decreases |types|
  {
    if types != [] {
      var here := call(handlers[types[0]], h);
      DiscoveredTagged(types[1..], handlers, call, h + here.ops);
      if here.out.Ok? {
        TaggedPrefix(types[0], here.out.value);
      }
    }
  }

  /**
   * Registration order is result order: the results for `a + b` are those
   * for `a` followed by those for `b`, run on the bus traffic `a` left.
   */
  lemma {:induction false} DiscoveredAppend(a: seq<string>, b: seq<string>, handlers: map<string, Handler>,
                                           call: Caller, h: seq<Op>)
    requires forall t :: t in a + b ==> t in handlers
    ensures var ra := Discovered(a, handlers, call, h);
            var rb := Discovered(b, handlers, call, h + ra.ops);
            Discovered(a + b, handlers, call, h) == Run(ra.out + rb.out, ra.ops + rb.ops)
    decreases |a|
  {
    if a == [] {
      assert a + b == b;
      assert h + [] == h;
      var rb := Discovered(b, handlers, call, h);
      assert [] + rb.out == rb.out && [] + rb.ops == rb.ops;
    } else {
      assert (a + b)[0] == a[0];
      assert (a + b)[1..] == a[1..] + b;
      var here := call(handlers[a[0]], h);
      DiscoveredAppend(a[1..], b, handlers, call, h + here.ops);
      var ra' := Discovered(a[1..], handlers, call, h + here.ops);
      Assoc(h, here.ops, ra'.ops);
      var rb := Discovered(b, handlers, call, h + (here.ops + ra'.ops));
      Assoc(Contribution(a[0], here.out), ra'.out, rb.out);
      Assoc(here.ops, ra'.ops, rb.ops);
    }
  }

  /** An external handler that raises issues no bus traffic and returns nothing. */
  ghost predicate Raises(call: Caller, handler: Handler) {
    forall h :: call(handler, h).out.Err? && call(handler, h).ops == []
  }

  lemma ExternalFailureRaises(scan: seq<Op> -> Detect, libs: Libraries, A: Answer, open: bool, message: string)
    ensures Raises(Calls(scan, libs, A, open), ExternalHandler(Err(message)))
  {
  }

  /**
   * A handler that raises is isolated: the results are exactly those of the
   * same run without it.
   */
  lemma {:induction false} FailingHandlerIsolated(types: seq<string>, i: nat, handlers: map<string, Handler>,
                                                 call: Caller, h: seq<Op>)
    requires i < |types|
    requires forall t :: t in types ==> t in handlers
    requires Raises(call, handlers[types[i]])
    ensures Discovered(types, handlers, call, h) == Discovered(types[..i] + types[i + 1..], handlers, call, h)
    decreases i
  {
    if i == 0 {
      assert types[..0] + types[1..] == types[1..];
      var here := call(handlers[types[0]], h);
      assert here.out.Err? && here.ops == [];
      assert h + [] == h;
      var rest := Discovered(types[1..], handlers, call, h);
      assert [] + rest.out == rest.out && [] + rest.ops == rest.ops;
    } else {
      var rest := types[..i] + types[i + 1..];
      assert rest[0] == types[0];
      assert rest[1..] == types[1..][..i - 1] + types[1..][i..];
      assert types[1..][i - 1] == types[i];
      var here := call(handlers[types[0]], h);
      FailingHandlerIsolated(types[1..], i - 1, handlers, call, h + here.ops);
    }
  }
}
