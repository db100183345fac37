/**
 * `SensorDiscoveryService`: reconciling discovered descriptors with the
 * `sensors` table (register, update, skip, or record an error, one outcome
 * per descriptor), and the connectivity tests that move a row's `status`
 * and `error_count`.
 */
module Discovery {
  import opened Values
  import opened Hardware
  import opened Topology
  import opened Registry
  import opened Store

  datatype Action = Registered | Updated | Skipped | Failed

  /** One entry of `results['sensors']`. */
  datatype Outcome = Outcome(sensorId: Value, action: Action, message: string)

  /** What `_register_sensor` leaves: the session, and what it returned or raised. */
  datatype Step = Step(db: Db, result: Result<Action>)

  // ---------------------------------------------------------------------------
  // _register_sensor

  /** `sensor_info.get('config', {})` */
  function ConfigOf(info: Dict): Value {
    Get(info, "config", Mapping(map[]))
  }

  /** The multiplexer keys present in a config: `mux_address` and `mux_channel`, each only if present. */
  function MuxConfig(config: Dict): (r: Dict)
    ensures r.Keys == config.Keys * {"mux_address", "mux_channel"}
    ensures forall k :: k in r ==> r[k] == config[k]
  {
    var a: Dict := if "mux_address" in config then map["mux_address" := config["mux_address"]] else map[];
    if "mux_channel" in config then a["mux_channel" := config["mux_channel"]] else a
  }

  /** The row created for a new id. */
  function NewRecord(id: string, sensorType: string, info: Dict, config: Dict, autoEnable: bool, now: int): (r: SensorRecord)
    ensures r.enabled == autoEnable && r.status == Unknown && r.errorCount == Some(0)
    ensures r.name == (if "name" in info then info["name"] else Str(id))
    ensures r.busNumber == (if "bus_number" in config then config["bus_number"] else Int(1))
    ensures r.calibrationData.None? <==> ("mux_address" !in config && "mux_channel" !in config)
    ensures r.calibrationData.Some? ==> r.calibrationData.value == MuxConfig(config)
  {
    var mux := MuxConfig(config);
    assert "mux_address" in config ==> "mux_address" in mux;
    assert "mux_channel" in config ==> "mux_channel" in mux;
    SensorRecord(
      name := Get(info, "name", Str(id)),
      sensorType := sensorType,
      description := Get(info, "description", Null),
      i2cAddress := Get(config, "i2c_address", Null),
      gpioPin := Get(config, "pin", Null),
      busNumber := Get(config, "bus_number", Int(1)),
      pollInterval := Int(30),
      enabled := autoEnable,
      calibrationData := if mux != map[] then Some(mux) else None,
      location := Get(info, "location", Null),
      updatedAt := Stamp(now),
      lastReadingAt := Null,
      status := Unknown,
      errorCount := Some(0))
  }

  /** An existing row with the three descriptive columns taken from the descriptor. */
  function Described(rec: SensorRecord, info: Dict): SensorRecord {
    rec.(name := Get(info, "name", Null),
         location := Get(info, "location", Null),
         description := Get(info, "description", Null))
  }

  /** Then the three hardware columns taken from the config. */
  function Configured(rec: SensorRecord, config: Dict): SensorRecord {
    rec.(i2cAddress := Get(config, "i2c_address", Null),
         gpioPin := Get(config, "pin", Null),
         busNumber := Get(config, "bus_number", Int(1)))
  }

  /** Whether the descriptor agrees with the row on all six compared columns. */
  predicate Unchanged(rec: SensorRecord, info: Dict, config: Dict) {
    && rec.name == Get(info, "name", Null)
    && rec.location == Get(info, "location", Null)
    && rec.description == Get(info, "description", Null)
    && rec.i2cAddress == Get(config, "i2c_address", Null)
    && rec.gpioPin == Get(config, "pin", Null)
    && rec.busNumber == Get(config, "bus_number", Int(1))
  }

  /**
   * `_register_sensor` for an id that exists: any differing column is
   * overwritten and the row committed (`updated`), or nothing happens
   * (`skipped`). A config that is not a dict raises after the descriptive
   * columns were assigned, and those assignments stay in the session.
   */
  function UpdateStep(d: Db, commitOk: nat -> bool, id: string, rec: SensorRecord, info: Dict, now: int): (r: Step)
    requires Consistent(d)
    ensures Consistent(r.db)
  {
    var described := Described(rec, info);
    match ConfigOf(info)
    case Mapping(config) =>
      if Unchanged(rec, info, config) then Step(d, Ok(Skipped))
      else
        var (e, ok) := Commit(Put(d, id, Configured(described, config).(updatedAt := Stamp(now))), commitOk);
        Step(e, if ok then Ok(Updated) else Err(CommitError))
    case _ => Step(Put(d, id, described), Err("config is not a dict"))
  }

  /** `_register_sensor` for a new id: the row is added and committed, or nothing is kept. */
  function CreateStep(d: Db, commitOk: nat -> bool, id: string, info: Dict, autoEnable: bool, now: int): (r: Step)
    requires Consistent(d)
    ensures Consistent(r.db)
  {
    match ConfigOf(info)
    case Mapping(config) =>
      if "sensor_type" !in info then Step(d, Err("'sensor_type'"))
      else if !info["sensor_type"].Str? then Step(d, Err("sensor_type is not a string"))
      else
        var (e, ok) := Commit(Put(d, id, NewRecord(id, info["sensor_type"].s, info, config, autoEnable, now)), commitOk);
        Step(e, if ok then Ok(Registered) else Err(CommitError))
    case _ => Step(d, Err("config is not a dict"))
  }

  /** `_register_sensor(sensor_info, auto_enable)` */
  function RegisterStep(d: Db, commitOk: nat -> bool, info: Dict, autoEnable: bool, now: int): (r: Step)
    requires Consistent(d)
    ensures Consistent(r.db)
    ensures r.result != Ok(Failed)
  {
    if "sensor_id" !in info then Step(d, Err("'sensor_id'"))
    else if !info["sensor_id"].Str? then Step(d, Err("sensor_id is not a string"))
    else if info["sensor_id"].s in d.session.records then
      UpdateStep(d, commitOk, info["sensor_id"].s, d.session.records[info["sensor_id"].s], info, now)
    else CreateStep(d, commitOk, info["sensor_id"].s, info, autoEnable, now)
  }

  /** The entry `discover_and_register` appends for one descriptor. */
  function OutcomeOf(info: Dict, result: Result<Action>, autoEnable: bool): (o: Outcome)
    ensures o.sensorId == Get(info, "sensor_id", Str("unknown"))
    ensures result.Err? <==> o.action == Failed
    ensures result.Ok? && result.value != Failed ==> o.action == result.value
  {
    var id := Get(info, "sensor_id", Str("unknown"));
    match result
    case Err(m) => Outcome(id, Failed, m)
    case Ok(Registered) => Outcome(id, Registered, "New sensor registered" + (if autoEnable then "and enabled" else ""))
    case Ok(Updated) => Outcome(id, Updated, "Sensor configuration updated")
    case Ok(_) => Outcome(id, Skipped, "Sensor already exists with same configuration")
  }

  // ---------------------------------------------------------------------------
  // discover_and_register

  datatype Pass = Pass(db: Db, outcomes: seq<Outcome>)

  /** The reconciliation loop over the discovered descriptors, in order. */
  function Reconcile(d: Db, commitOk: nat -> bool, infos: seq<Dict>, autoEnable: bool, now: int): (r: Pass)
    requires Consistent(d)
    ensures Consistent(r.db)
    decreases |infos|
  {
    if infos == [] then Pass(d, [])
    else
      var s := RegisterStep(d, commitOk, infos[0], autoEnable, now);
      var rest := Reconcile(s.db, commitOk, infos[1..], autoEnable, now);
      Pass(rest.db, [OutcomeOf(infos[0], s.result, autoEnable)] + rest.outcomes)
  }

  /** How many entries carry the given action. */
  function Count(os: seq<Outcome>, a: Action): nat {
    if os == [] then 0
    else Count(os[..|os| - 1], a) + (if os[|os| - 1].action == a then 1 else 0)
  }

  /** The three counters `discover_and_register` keeps. */
  datatype Tally = Tally(registered: nat, updated: nat, skipped: nat)

  /** The counters after one more entry: the one its action names goes up. */
  function Bump(t: Tally, o: Outcome): Tally {
    match o.action
    case Registered => t.(registered := t.registered + 1)
    case Updated => t.(updated := t.updated + 1)
    case Skipped => t.(skipped := t.skipped + 1)
    case Failed => t
  }

  /** The counters after the given entries. */
  function TallyOf(os: seq<Outcome>): Tally {
    if os == [] then Tally(0, 0, 0) else Bump(TallyOf(os[..|os| - 1]), os[|os| - 1])
  }

  lemma TallyAppend(os: seq<Outcome>, o: Outcome)
    ensures TallyOf(os + [o]) == Bump(TallyOf(os), o)
  {
    assert (os + [o])[..|os|] == os;
  }

  /** Each counter is the number of entries with its action. */
  lemma {:induction false} TallyCounts(os: seq<Outcome>)
    ensures TallyOf(os) == Tally(Count(os, Registered), Count(os, Updated), Count(os, Skipped))
  {
    if os != [] {
      TallyCounts(os[..|os| - 1]);
    }
  }

  /** The dict `discover_and_register` returns. */
  datatype DiscoveryReport = DiscoveryReport(
    discoveredCount: nat, registeredCount: nat, updatedCount: nat, skippedCount: nat, sensors: seq<Outcome>)

  function Report(discovered: nat, os: seq<Outcome>): DiscoveryReport {
    var t := TallyOf(os);
    DiscoveryReport(discovered, t.registered, t.updated, t.skipped, os)
  }

  class SensorDiscoveryService {
    var lastDiscovery: Option<int>

    constructor ()
      ensures lastDiscovery == None
    {
      lastDiscovery := None;
    }

    /**
     * `discover_and_register`: discovery on the bus, then one outcome per
     * descriptor and the session changes `Reconcile` describes; the clock
     * reading `now` stamps the run.
     */
    method DiscoverAndRegister(registry: SensorRegistry, bus: I2cBus, scan: seq<Op> -> Detect, db: Database,
                               autoEnable: bool, now: int) returns (report: DiscoveryReport)
      requires registry.Valid() && db.Valid()
      modifies this, bus, db
      ensures db.Valid() && lastDiscovery == Some(now)
      ensures var found := Discovered(registry.handlerTypes, registry.handlers,
                                      Calls(scan, bus.libs, bus.answer, bus.CanOpen(Int(1))), old(bus.trace));
              var pass := Reconcile(old(db.state), db.commitOk, found.out, autoEnable, now);
              && bus.trace == old(bus.trace) + found.ops
              && db.state == pass.db
              && report == Report(|found.out|, pass.outcomes)
    {
      var found := registry.DiscoverSensors(bus, scan);
      var outcomes, registered, updated, skipped := RegisterAll(db, found, autoEnable, now);
      lastDiscovery := Some(now);
      report := DiscoveryReport(|found|, registered, updated, skipped, outcomes);
    }

    /** The loop of `discover_and_register`: one entry per descriptor, counters kept alongside. */
    method RegisterAll(db: Database, found: seq<Dict>, autoEnable: bool, now: int)
      returns (outcomes: seq<Outcome>, registered: nat, updated: nat, skipped: nat)
      requires db.Valid()
      modifies db
      ensures db.Valid()
      ensures var pass := Reconcile(old(db.state), db.commitOk, found, autoEnable, now);
              db.state == pass.db && outcomes == pass.outcomes
      ensures Tally(registered, updated, skipped) == TallyOf(outcomes)
    {
      ghost var target := Reconcile(db.state, db.commitOk, found, autoEnable, now);
      outcomes := [];
      registered, updated, skipped := 0, 0, 0;
      var i := 0;
      while i < |found|
        invariant 0 <= i <= |found|
        invariant db.Valid()
        invariant target.db == Reconcile(db.state, db.commitOk, found[i..], autoEnable, now).db
        invariant target.outcomes == outcomes + Reconcile(db.state, db.commitOk, found[i..], autoEnable, now).outcomes
        invariant Tally(registered, updated, skipped) == TallyOf(outcomes)
      {
        assert found[i..][1..] == found[i + 1..];
        ReconcileUnfold(db.state, db.commitOk, found[i..], autoEnable, now);
        var entry := RegisterOne(db, found[i], autoEnable, now);
        registered, updated, skipped := Increment(registered, updated, skipped, entry);
        TallyAppend(outcomes, entry);
        Assoc(outcomes, [entry], Reconcile(db.state, db.commitOk, found[i + 1..], autoEnable, now).outcomes);
        outcomes := outcomes + [entry];
        i := i + 1;
      }
      assert found[i..] == [];
      assert outcomes + [] == outcomes;
    }

    /** `test_sensor_connectivity(sensor_id)` */
    method TestSensorConnectivity(registry: SensorRegistry, fleet: Fleet, db: Database, round: nat, id: string)
      returns (result: Result<Probe>)
      requires db.Valid()
      modifies db
      ensures db.Valid()
      ensures Check(db.state, result) == ConnectivityStep(old(db.state), db.commitOk, registry.classes, fleet, round, id)
    {
      var found := db.Find(id);
      if found.None? {
        return Ok(NotReached(id, "Sensor not found in database"));
      }
      var rec := found.value;
      var instance := registry.CreateSensor(fleet, rec.sensorType, id, ProbeConfig(rec));
      if instance.None? {
        return Ok(NotReached(id, "Failed to create " + rec.sensorType + " sensor instance"));
      }
      var probe := fleet.available(instance.value, round);
      match probe
      case Err(m) =>
        result := Recover(db, id, rec, m);
      case Ok(true) =>
        result := Settle(db, id, rec.(status := Active, errorCount := Some(0)), true);
      case Ok(false) =>
        result := MarkUnavailable(db, id, rec);
    }

    /** `test_all_sensors`: every row listed at the start is tested in table order, and the dicts are counted. */
    method TestAllSensors(registry: SensorRegistry, fleet: Fleet, db: Database, round: nat)
      returns (result: Result<HealthReport>)
      requires db.Valid()
      modifies db
      ensures db.Valid()
      ensures var ids := old(db.state.session.ids);
              var sweep := SweepOf(old(db.state), db.commitOk, registry.classes, fleet, round, ids);
              && db.state == sweep.db
              && (sweep.result.Err? ==> result == Err(sweep.result.message))
              && (sweep.result.Ok? ==> result == Ok(HealthReportOf(|ids|, sweep.result.value)))
    {
      var ids := db.state.session.ids;
      ghost var target := SweepOf(db.state, db.commitOk, registry.classes, fleet, round, ids);
      var statuses: seq<Probe> := [];
      var available, unavailable, errors := 0, 0, 0;
      var i := 0;
      PrependNothing(target.result);
      assert ids[0..] == ids;
      while i < |ids|
        invariant 0 <= i <= |ids|
        invariant db.Valid()
        invariant target.db == SweepOf(db.state, db.commitOk, registry.classes, fleet, round, ids[i..]).db
        invariant target.result == Prepend(statuses, SweepOf(db.state, db.commitOk, registry.classes, fleet, round, ids[i..]).result)
        invariant Health(available, unavailable, errors) == HealthOf(statuses)
        invariant |statuses| == i
      {
        assert ids[i..][1..] == ids[i + 1..];
        var status := TestSensorConnectivity(registry, fleet, db, round, ids[i]);
        if status.Err? {
          return Err(status.message);
        }
        available, unavailable, errors := Tick(available, unavailable, errors, status.value);
        HealthAppend(statuses, status.value);
        PrependPrepend(statuses, [status.value], SweepOf(db.state, db.commitOk, registry.classes, fleet, round, ids[i + 1..]).result);
        statuses := statuses + [status.value];
        i := i + 1;
      }
      assert ids[i..] == [];
      assert statuses + [] == statuses;
      result := Ok(HealthReport(|ids|, available, unavailable, errors, statuses));
    }

    /** The counter a connectivity dict falls under goes up by one. */
    static method Tick(available: nat, unavailable: nat, errors: nat, status: Probe)
      returns (available': nat, unavailable': nat, errors': nat)
      ensures Health(available', unavailable', errors') == Classify(Health(available, unavailable, errors), status)
    {
      available', unavailable', errors' := available, unavailable, errors;
      if status.Reached? && status.available {
        available' := available + 1;
      } else if status.NotReached? {
        errors' := errors + 1;
      } else {
        unavailable' := unavailable + 1;
      }
    }

    /** The counter the entry's action names goes up by one. */
    static method Increment(registered: nat, updated: nat, skipped: nat, entry: Outcome)
      returns (registered': nat, updated': nat, skipped': nat)
      ensures Tally(registered', updated', skipped') == Bump(Tally(registered, updated, skipped), entry)
    {
      registered', updated', skipped' := registered, updated, skipped;
      if entry.action == Registered {
        registered' := registered + 1;
      } else if entry.action == Updated {
        updated' := updated + 1;
      } else if entry.action == Skipped {
        skipped' := skipped + 1;
      }
    }

    /** One iteration: `_register_sensor`, with an exception caught into an `error` entry. */
    method RegisterOne(db: Database, info: Dict, autoEnable: bool, now: int) returns (entry: Outcome)
      requires db.Valid()
      modifies db
      ensures db.Valid()
      ensures var s := RegisterStep(old(db.state), db.commitOk, info, autoEnable, now);
              db.state == s.db && entry == OutcomeOf(info, s.result, autoEnable)
    {
      var result := RegisterSensor(db, info, autoEnable, now);
      entry := OutcomeOf(info, result, autoEnable);
    }

    /** `_register_sensor` */
    method RegisterSensor(db: Database, info: Dict, autoEnable: bool, now: int) returns (result: Result<Action>)
      requires db.Valid()
      modifies db
      ensures db.Valid()
      ensures Step(db.state, result) == RegisterStep(old(db.state), db.commitOk, info, autoEnable, now)
    {
      if "sensor_id" !in info {
        return Err("'sensor_id'");
      }
      if !info["sensor_id"].Str? {
        return Err("sensor_id is not a string");
      }
      var id := info["sensor_id"].s;
      var existing := db.Find(id);
      if existing.Some? {
        result := UpdateSensor(db, id, existing.value, info, now);
      } else {
        result := CreateSensor(db, id, info, autoEnable, now);
      }
    }
  }

  /** The `except` branch of `test_sensor_connectivity`. */
  method Recover(db: Database, id: string, obj: SensorRecord, message: string) returns (result: Result<Probe>)
    requires db.Valid()
    modifies db
    ensures db.Valid()
    ensures Check(db.state, result) == Recovered(old(db.state), db.commitOk, id, obj, message)
  {
    var rec := Reloaded(db.state, id, obj);
    match rec.errorCount
    case None =>
      Keep(db, id, rec.(status := Error));
      result := Err(NoneCountError);
    case Some(n) =>
      var raised := rec.(status := Error, errorCount := Some(n + 1));
      var ok := KeepAndCommit(db, id, raised);
      result := if ok then Ok(NotReached(id, message)) else Err(CommitError);
      assert Recovered(old(db.state), db.commitOk, id, obj, message) == Check(db.state, result);
  }

  /** The object's attributes written back, then `db.session.commit()`. */
  method KeepAndCommit(db: Database, id: string, rec: SensorRecord) returns (ok: bool)
    requires db.Valid()
    modifies db
    ensures db.Valid()
    ensures (db.state, ok) == Commit(Kept(old(db.state), id, rec), db.commitOk)
  {
    Keep(db, id, rec);
    ok := db.CommitSession();
  }

  /** The `else` branch after `is_available()` answered `False`. */
  method MarkUnavailable(db: Database, id: string, rec: SensorRecord) returns (result: Result<Probe>)
    requires db.Valid()
    modifies db
    ensures db.Valid()
    ensures Check(db.state, result) == Missed(old(db.state), db.commitOk, id, rec)
  {
    if rec.errorCount.None? {
      var marked := rec.(status := Unavailable);
      db.Save(id, marked);
      result := Recover(db, id, marked, NoneCountError);
    } else {
      result := Settle(db, id, rec.(status := Unavailable, errorCount := Some(rec.errorCount.value + 1)), false);
    }
  }

  /** Writes the object's attributes to the session if the session still holds it. */
  method Keep(db: Database, id: string, rec: SensorRecord)
    requires db.Valid()
    modifies db
    ensures db.Valid()
    ensures db.state == Kept(old(db.state), id, rec)
  {
    var current := db.Find(id);
    if current.Some? {
      db.Save(id, rec);
    }
  }

  /** The commit at the end of the `try` branch of `test_sensor_connectivity`. */
  method Settle(db: Database, id: string, rec: SensorRecord, available: bool) returns (result: Result<Probe>)
    requires db.Valid()
    modifies db
    ensures db.Valid()
    ensures Check(db.state, result) == Settled(old(db.state), db.commitOk, id, rec, available)
  {
    db.Save(id, rec);
    var ok := db.CommitSession();
    if ok {
      result := Ok(Reached(id, available, rec.status, rec.sensorType));
    } else {
      result := Recover(db, id, rec, CommitError);
    }
  }

  /** The existing-row branch of `_register_sensor`. */
  method UpdateSensor(db: Database, id: string, existing: SensorRecord, info: Dict, now: int) returns (result: Result<Action>)
    requires db.Valid()
    modifies db
    ensures db.Valid()
    ensures Step(db.state, result) == UpdateStep(old(db.state), db.commitOk, id, existing, info, now)
  {
    var rec, described := Describe(existing, info);
    var config := ConfigOf(info);
    if !config.Mapping? {
      db.Save(id, rec);
      return Err("config is not a dict");
    }
    var configured;
    rec, configured := Configure(rec, config.entries);
    if described || configured {
      db.Save(id, rec.(updatedAt := Stamp(now)));
      var ok := db.CommitSession();
      result := if ok then Ok(Updated) else Err(CommitError);
    } else {
      result := Ok(Skipped);
    }
  }

  /** The name, location and description comparisons, each overwriting under the `updated` flag. */
  method Describe(existing: SensorRecord, info: Dict) returns (rec: SensorRecord, updated: bool)
    ensures rec == Described(existing, info)
    ensures !updated <==> (existing.name == Get(info, "name", Null) && existing.location == Get(info, "location", Null)
                           && existing.description == Get(info, "description", Null))
  {
    rec := existing;
    updated := false;
    if rec.name != Get(info, "name", Null) {
      rec := rec.(name := Get(info, "name", Null));
      updated := true;
    }
    if rec.location != Get(info, "location", Null) {
      rec := rec.(location := Get(info, "location", Null));
      updated := true;
    }
    if rec.description != Get(info, "description", Null) {
      rec := rec.(description := Get(info, "description", Null));
      updated := true;
    }
  }

  /** The I2C address, GPIO pin and bus number comparisons (bus number defaulting to 1). */
  method Configure(existing: SensorRecord, config: Dict) returns (rec: SensorRecord, updated: bool)
    ensures rec == Configured(existing, config)
    ensures !updated <==> (existing.i2cAddress == Get(config, "i2c_address", Null) &&
                           existing.gpioPin == Get(config, "pin", Null) &&
                           existing.busNumber == Get(config, "bus_number", Int(1)))
  {
    rec := existing;
    updated := false;
    if rec.i2cAddress != Get(config, "i2c_address", Null) {
      rec := rec.(i2cAddress := Get(config, "i2c_address", Null));
      updated := true;
    }
    if rec.gpioPin != Get(config, "pin", Null) {
      rec := rec.(gpioPin := Get(config, "pin", Null));
      updated := true;
    }
    if rec.busNumber != Get(config, "bus_number", Int(1)) {
      rec := rec.(busNumber := Get(config, "bus_number", Int(1)));
      updated := true;
    }
  }

  /** The new-row branch of `_register_sensor`. */
  method CreateSensor(db: Database, id: string, info: Dict, autoEnable: bool, now: int) returns (result: Result<Action>)
    requires db.Valid()
    modifies db
    ensures db.Valid()
    ensures Step(db.state, result) == CreateStep(old(db.state), db.commitOk, id, info, autoEnable, now)
  {
    var config := ConfigOf(info);
    if !config.Mapping? {
      return Err("config is not a dict");
    }
    if "sensor_type" !in info {
      return Err("'sensor_type'");
    }
    if !info["sensor_type"].Str? {
      return Err("sensor_type is not a string");
    }
    db.Save(id, NewRecord(id, info["sensor_type"].s, info, config.entries, autoEnable, now));
    var ok := db.CommitSession();
    result := if ok then Ok(Registered) else Err(CommitError);
  }

  // ---------------------------------------------------------------------------
  // test_sensor_connectivity and test_all_sensors

  /**
   * The dict `test_sensor_connectivity` returns: with `status` and
   * `sensor_type` once the probe ran and its commit succeeded, with `error`
   * otherwise (then `available` is `False`).
   */
  datatype Probe =
    | Reached(sensorId: string, available: bool, status: Status, sensorType: string)
    | NotReached(sensorId: string, error: string)

  /** The session after a connectivity test, and the dict it returned or the exception it let escape. */
  datatype Check = Check(db: Db, result: Result<Probe>)

  /** The `TypeError` that `None + 1` raises when a row's `error_count` is NULL. */
  const NoneCountError := "unsupported operand type(s) for +: 'NoneType' and 'int'"

  /** The config a row is probed with: address, pin, bus number (1 when falsy), and the stored multiplexer keys. */
  function ProbeConfig(rec: SensorRecord): (r: Dict)
    ensures "i2c_address" in r && r["i2c_address"] == rec.i2cAddress
    ensures "pin" in r && r["pin"] == rec.gpioPin
    ensures "bus_number" in r && r["bus_number"] == Or(rec.busNumber, Int(1))
    ensures forall k :: k in {"mux_address", "mux_channel"} ==>
              (k in r <==> rec.calibrationData.Some? && k in rec.calibrationData.value)
    ensures forall k :: k in {"mux_address", "mux_channel"} && k in r ==> r[k] == rec.calibrationData.value[k]
  {
    var base := map["i2c_address" := rec.i2cAddress, "pin" := rec.gpioPin, "bus_number" := Or(rec.busNumber, Int(1))];
    match rec.calibrationData
    case Some(cal) => base + MuxConfig(cal)
    case None => base
  }

  /**
   * The `except` branch: the row is marked `error` with its count raised by
   * one and committed, and the dict carries the exception's text. After a
   * failed commit the object is reloaded from the committed row when there is
   * one (`obj` holds the values it had in memory otherwise). A NULL count
   * makes `None + 1` raise out of the handler; so does a second failed commit.
   */
  function Recovered(d: Db, commitOk: nat -> bool, id: string, obj: SensorRecord, message: string): (r: Check)
    requires Consistent(d)
    ensures Consistent(r.db)
    ensures r.result.Ok? ==> r.result.value == NotReached(id, message) && r.db.session == r.db.committed
    ensures r.result.Ok? && id in d.session.records ==>
              && id in r.db.committed.records && d.session.records[id].errorCount.Some?
              && r.db.committed.records[id].status == Error
              && r.db.committed.records[id].errorCount == Some(d.session.records[id].errorCount.value + 1)
    ensures Reloaded(d, id, obj).errorCount.None? ==> r.result == Err(NoneCountError) && r.db.committed == d.committed
    ensures Reloaded(d, id, obj).errorCount.Some? && r.result.Err? ==>
              r.result == Err(CommitError) && r.db.session == d.committed && r.db.committed == d.committed
  {
    var rec := Reloaded(d, id, obj);
    match rec.errorCount
    case None => Check(Kept(d, id, rec.(status := Error)), Err(NoneCountError))
    case Some(n) =>
      var c := Commit(Kept(d, id, rec.(status := Error, errorCount := Some(n + 1))), commitOk);
      Check(c.0, if c.1 then Ok(NotReached(id, message)) else Err(CommitError))
  }

  /** The object's values: the session's row when it has one, else what the object held. */
  function Reloaded(d: Db, id: string, obj: SensorRecord): (r: SensorRecord)
    ensures id in d.session.records ==> r == d.session.records[id]
    ensures id !in d.session.records ==> r == obj
  {
    if id in d.session.records then d.session.records[id] else obj
  }

  /** The `try` branch after the probe: the new status and count are committed, or the `except` branch runs. */
  function Settled(d: Db, commitOk: nat -> bool, id: string, rec: SensorRecord, available: bool): (r: Check)
    requires Consistent(d)
    ensures Consistent(r.db)
  {
    var c := Commit(Put(d, id, rec), commitOk);
    if c.1 then Check(c.0, Ok(Reached(id, available, rec.status, rec.sensorType)))
    else Recovered(c.0, commitOk, id, rec, CommitError)
  }

  /**
   * `test_sensor_connectivity(sensor_id)`: an instance is created from the
   * row through the registry and asked `is_available()` (its answer in
   * probe round `round`).
   */
  function ConnectivityStep(d: Db, commitOk: nat -> bool, classes: map<string, SensorClass>, fleet: Fleet,
                            round: nat, id: string): (r: Check)
    requires Consistent(d)
    ensures Consistent(r.db)
  {
    if id !in d.session.records then Check(d, Ok(NotReached(id, "Sensor not found in database")))
    else
      var rec := d.session.records[id];
      match Create(classes, fleet, rec.sensorType, id, ProbeConfig(rec))
      case None => Check(d, Ok(NotReached(id, "Failed to create " + rec.sensorType + " sensor instance")))
      case Some(inst) =>
        match fleet.available(inst, round)
        case Err(m) => Recovered(d, commitOk, id, rec, m)
        case Ok(true) => Settled(d, commitOk, id, rec.(status := Active, errorCount := Some(0)), true)
        case Ok(false) => Missed(d, commitOk, id, rec)
  }

  /** The probe answered `False`: `unavailable`, and the count raised by one (`None + 1` raises). */
  function Missed(d: Db, commitOk: nat -> bool, id: string, rec: SensorRecord): (r: Check)
    requires Consistent(d)
    ensures Consistent(r.db)
  {
    match rec.errorCount
    case None => Recovered(Put(d, id, rec.(status := Unavailable)), commitOk, id, rec.(status := Unavailable), NoneCountError)
    case Some(n) => Settled(d, commitOk, id, rec.(status := Unavailable, errorCount := Some(n + 1)), false)
  }

  /** What `test_all_sensors` leaves: the session and the list of dicts, or the exception that escaped. */
  datatype Sweep = Sweep(db: Db, result: Result<seq<Probe>>)

  /** The loop of `test_all_sensors` over the ids listed when it started. */
  function SweepOf(d: Db, commitOk: nat -> bool, classes: map<string, SensorClass>, fleet: Fleet,
                   round: nat, ids: seq<string>): (r: Sweep)
    requires Consistent(d)
    ensures Consistent(r.db)
    ensures r.result.Ok? ==> |r.result.value| == |ids|
    decreases |ids|
  {
    if ids == [] then Sweep(d, Ok([]))
    else
      var c := ConnectivityStep(d, commitOk, classes, fleet, round, ids[0]);
      match c.result
      case Err(m) => Sweep(c.db, Err(m))
      case Ok(p) =>
        var rest := SweepOf(c.db, commitOk, classes, fleet, round, ids[1..]);
        Sweep(rest.db, Prepend([p], rest.result))
  }

  /** The three counters of `test_all_sensors`. */
  datatype Health = Health(available: nat, unavailable: nat, errors: nat)

  /** `if status.get('available')` / `elif 'error' in status` / `else` */
  function Classify(h: Health, p: Probe): Health {
    match p
    case Reached(_, true, _, _) => h.(available := h.available + 1)
    case Reached(_, false, _, _) => h.(unavailable := h.unavailable + 1)
    case NotReached(_, _) => h.(errors := h.errors + 1)
  }

  function HealthOf(ps: seq<Probe>): Health {
    if ps == [] then Health(0, 0, 0) else Classify(HealthOf(ps[..|ps| - 1]), ps[|ps| - 1])
  }

  lemma HealthAppend(ps: seq<Probe>, p: Probe)
    ensures HealthOf(ps + [p]) == Classify(HealthOf(ps), p)
  {
    assert (ps + [p])[..|ps|] == ps;
  }

  /** The dict `test_all_sensors` returns. */
  datatype HealthReport = HealthReport(
    totalSensors: nat, availableSensors: nat, unavailableSensors: nat, errorSensors: nat, sensorStatus: seq<Probe>)

  function HealthReportOf(total: nat, ps: seq<Probe>): HealthReport {
    var h := HealthOf(ps);
    HealthReport(total, h.available, h.unavailable, h.errors, ps)
  }

  // ---------------------------------------------------------------------------
  // Properties of the reconciler

  lemma ReconcileUnfold(d: Db, commitOk: nat -> bool, infos: seq<Dict>, autoEnable: bool, now: int)
    requires Consistent(d) && infos != []
    ensures var s := RegisterStep(d, commitOk, infos[0], autoEnable, now);
            var rest := Reconcile(s.db, commitOk, infos[1..], autoEnable, now);
            Reconcile(d, commitOk, infos, autoEnable, now) == Pass(rest.db, [OutcomeOf(infos[0], s.result, autoEnable)] + rest.outcomes)
  {
  }

  /**
   * A descriptor for a new id with a dict config, a string type and a name
   * that is not `None` (or none at all), whose commit reaches the database,
   * is `registered` as the row `NewRecord` describes.
   */
  lemma CreateRegisters(d: Db, commitOk: nat -> bool, info: Dict, autoEnable: bool, now: int)
    requires Consistent(d) && Storable(d.session)
    requires "sensor_id" in info && info["sensor_id"].Str? && info["sensor_id"].s !in d.session.records
    requires "sensor_type" in info && info["sensor_type"].Str? && ConfigOf(info).Mapping?
    requires Get(info, "name", Str("")) != Null
    requires commitOk(d.commits)
    ensures var e := RegisterStep(d, commitOk, info, autoEnable, now);
            var id := info["sensor_id"].s;
            && e.result == Ok(Registered)
            && e.db.session == e.db.committed && e.db.commits == d.commits + 1
            && id in e.db.session.records
            && e.db.session.records[id] == NewRecord(id, info["sensor_type"].s, info, ConfigOf(info).entries, autoEnable, now)
  {
    var id := info["sensor_id"].s;
    PutStorable(d, id, NewRecord(id, info["sensor_type"].s, info, ConfigOf(info).entries, autoEnable, now));
  }

  /**
   * `sensors.name` is NOT NULL: a new descriptor whose `name` is `None` is
   * refused at the commit, reported as an error, and leaves no row.
   */
  lemma NullNameRefused(d: Db, commitOk: nat -> bool, info: Dict, autoEnable: bool, now: int)
    requires Consistent(d)
    requires "sensor_id" in info && info["sensor_id"].Str? && info["sensor_id"].s !in d.session.records
    requires "sensor_type" in info && info["sensor_type"].Str? && ConfigOf(info).Mapping?
    requires "name" in info && info["name"] == Null
    ensures var e := RegisterStep(d, commitOk, info, autoEnable, now);
            && e.result == Err(CommitError)
            && OutcomeOf(info, e.result, autoEnable).action == Failed
            && e.db.session == d.committed && e.db.committed == d.committed
  {
    var id := info["sensor_id"].s;
    var p := Put(d, id, NewRecord(id, info["sensor_type"].s, info, ConfigOf(info).entries, autoEnable, now));
    assert NameOf(p.session, id) == Null;
    assert !Storable(p.session);
  }

  lemma {:induction false} CountsPartition(os: seq<Outcome>)
    ensures Count(os, Registered) + Count(os, Updated) + Count(os, Skipped) + Count(os, Failed) == |os|
  {
    if os != [] {
      CountsPartition(os[..|os| - 1]);
    }
  }

  /**
   * One outcome per descriptor, in order, naming the descriptor's id (or
   * `unknown`), and failed exactly when registering it raised.
   */
  lemma {:induction false} ReconcileAligned(d: Db, commitOk: nat -> bool, infos: seq<Dict>, autoEnable: bool, now: int)
    requires Consistent(d)
    ensures var os := Reconcile(d, commitOk, infos, autoEnable, now).outcomes;
            && |os| == |infos|
            && forall i :: 0 <= i < |infos| ==> os[i].sensorId == Get(infos[i], "sensor_id", Str("unknown"))
    decreases |infos|
  {
    if infos != [] {
      var s := RegisterStep(d, commitOk, infos[0], autoEnable, now);
      ReconcileAligned(s.db, commitOk, infos[1..], autoEnable, now);
      var os := Reconcile(d, commitOk, infos, autoEnable, now).outcomes;
      forall i | 0 <= i < |infos|
        ensures os[i].sensorId == Get(infos[i], "sensor_id", Str("unknown"))
      {
        if i > 0 {
          assert infos[i] == infos[1..][i - 1];
        }
      }
    }
  }

  /**
   * `discovered_count` is the number of entries, and registered + updated +
   * skipped + error entries add up to it.
   */
  lemma ReconcileCountsAddUp(d: Db, commitOk: nat -> bool, infos: seq<Dict>, autoEnable: bool, now: int)
    requires Consistent(d)
    ensures var r := Report(|infos|, Reconcile(d, commitOk, infos, autoEnable, now).outcomes);
            && |r.sensors| == r.discoveredCount
            && r.registeredCount + r.updatedCount + r.skippedCount + Count(r.sensors, Failed) == r.discoveredCount
  {
    ReconcileAligned(d, commitOk, infos, autoEnable, now);
    CountsPartition(Reconcile(d, commitOk, infos, autoEnable, now).outcomes);
    TallyCounts(Reconcile(d, commitOk, infos, autoEnable, now).outcomes);
  }

  /**
   * Idempotence: once a descriptor with a `name` was registered or updated,
   * reconciling it again is `skipped` and changes nothing.
   */
  lemma RegisterAgainSkips(d: Db, commitOk: nat -> bool, info: Dict, autoEnable: bool, now: int, later: int)
    requires Consistent(d) && "name" in info
    requires RegisterStep(d, commitOk, info, autoEnable, now).result in {Ok(Registered), Ok(Updated)}
    ensures var e := RegisterStep(d, commitOk, info, autoEnable, now).db;
            RegisterStep(e, commitOk, info, autoEnable, later) == Step(e, Ok(Skipped))
  {
    var id := info["sensor_id"].s;
    var e := RegisterStep(d, commitOk, info, autoEnable, now).db;
    assert id in e.session.records;
    var rec := e.session.records[id];
    assert ConfigOf(info).Mapping?;
    assert Unchanged(rec, info, ConfigOf(info).entries);
  }

  /**
   * The proviso matters: a descriptor without `name` is created under its id
   * as name, and the next run compares that with `None`, writes `name = None`
   * and commits; `sensors.name` is NOT NULL, so that commit is refused every
   * time and the descriptor is reported as an error, with the row left as
   * the first run committed it.
   */
  lemma NamelessRegistersThenFails(d: Db, commitOk: nat -> bool, id: string, sensorType: string, later: int)
    requires Consistent(d) && Storable(d.session) && id !in d.session.records
    requires commitOk(d.commits)
    ensures var info := map["sensor_id" := Str(id), "sensor_type" := Str(sensorType)];
            var first := RegisterStep(d, commitOk, info, false, 0);
            var second := RegisterStep(first.db, commitOk, info, false, later);
            && first.result == Ok(Registered)
            && second.result == Err(CommitError)
            && OutcomeOf(info, second.result, false).action == Failed
            && second.db.committed == first.db.committed && second.db.session == first.db.committed
            && first.db.committed.records[id].name == Str(id)
  {
    var info := map["sensor_id" := Str(id), "sensor_type" := Str(sensorType)];
    assert ConfigOf(info) == Mapping(map[]);
    CreateRegisters(d, commitOk, info, false, 0);
    var first := RegisterStep(d, commitOk, info, false, 0);
    var rec := first.db.session.records[id];
    assert rec.name == Str(id) && Get(info, "name", Null) == Null;
    assert !Unchanged(rec, info, map[]);
    var updated := Configured(Described(rec, info), map[]).(updatedAt := Stamp(later));
    var p := Put(first.db, id, updated);
    assert NameOf(p.session, id) == Null;
    assert !Storable(p.session);
  }

  /** Multiplexer address and channel are not compared: changing them in the config changes nothing. */
  lemma MuxFieldsNotCompared(d: Db, commitOk: nat -> bool, info: Dict, config: Dict, key: string, v: Value,
                             autoEnable: bool, now: int)
    requires Consistent(d)
    requires key == "mux_address" || key == "mux_channel"
    requires "sensor_id" in info && info["sensor_id"].Str? && info["sensor_id"].s in d.session.records
    requires "config" in info && info["config"] == Mapping(config)
    ensures RegisterStep(d, commitOk, info, autoEnable, now) ==
            RegisterStep(d, commitOk, info["config" := Mapping(config[key := v])], autoEnable, now)
  {
    var info' := info["config" := Mapping(config[key := v])];
    assert Get(config[key := v], "i2c_address", Null) == Get(config, "i2c_address", Null);
    assert Get(config[key := v], "pin", Null) == Get(config, "pin", Null);
    assert Get(config[key := v], "bus_number", Int(1)) == Get(config, "bus_number", Int(1));
    assert Get(info', "name", Null) == Get(info, "name", Null);
    assert Get(info', "location", Null) == Get(info, "location", Null);
    assert Get(info', "description", Null) == Get(info, "description", Null);
  }

  /**
   * An LTR329 descriptor keeps its address outside `config`, so the row it
   * creates has no I2C address, bus number 1 and no multiplexer data, even
   * for a sensor found behind a multiplexer.
   */
  lemma Ltr329RowsLoseAddress(d: Db, commitOk: nat -> bool, info: Dict, autoEnable: bool, now: int)
    requires Consistent(d) && Storable(d.session) && LtrShaped(info)
    requires "sensor_id" in info && info["sensor_id"].Str? && info["sensor_id"].s !in d.session.records
    requires "sensor_type" in info && info["sensor_type"].Str? && Get(info, "name", Str("")) != Null
    requires commitOk(d.commits)
    ensures var e := RegisterStep(d, commitOk, info, autoEnable, now);
            var id := info["sensor_id"].s;
            && e.result == Ok(Registered) && id in e.db.session.records
            && var rec := e.db.session.records[id];
            && rec.i2cAddress == Null && rec.busNumber == Int(1) && rec.calibrationData == None
  {
    assert ConfigOf(info) == Mapping(map[]);
    CreateRegisters(d, commitOk, info, autoEnable, now);
  }

  /** A BME280 found behind a multiplexer is stored with its address and its multiplexer coordinates. */
  lemma MuxBme280Row(d: Db, commitOk: nat -> bool, mux: nat, ch: nat, addr: nat, autoEnable: bool, now: int)
    requires Consistent(d) && Storable(d.session) && BmeMuxId(mux, ch, addr) !in d.session.records
    requires commitOk(d.commits)
    ensures var info := MuxBme280(mux, ch, addr)["sensor_type" := Str("bme280")];
            var e := RegisterStep(d, commitOk, info, autoEnable, now);
            && e.result == Ok(Registered) && BmeMuxId(mux, ch, addr) in e.db.session.records
            && var rec := e.db.session.records[BmeMuxId(mux, ch, addr)];
            && rec.i2cAddress == Int(addr) && rec.busNumber == Int(1) && rec.enabled == autoEnable
            && rec.calibrationData == Some(map["mux_address" := Int(mux), "mux_channel" := Int(ch)])
  {
    var info := MuxBme280(mux, ch, addr)["sensor_type" := Str("bme280")];
    var config := TaggedMuxBme280(mux, ch, addr);
    CreatedRow(d, commitOk, info, config, autoEnable, now);
  }

  /** The tagged descriptor of a multiplexed BME280, as `_register_sensor` reads it. */
  lemma TaggedMuxBme280(mux: nat, ch: nat, addr: nat) returns (config: Dict)
    ensures var info := MuxBme280(mux, ch, addr)["sensor_type" := Str("bme280")];
            && "sensor_id" in info && info["sensor_id"] == Str(BmeMuxId(mux, ch, addr))
            && "sensor_type" in info && info["sensor_type"] == Str("bme280")
            && ConfigOf(info) == Mapping(config)
            && Get(config, "i2c_address", Null) == Int(addr) && Get(config, "bus_number", Int(1)) == Int(1)
            && MuxConfig(config) == map["mux_address" := Int(mux), "mux_channel" := Int(ch)]
  {
    MuxBme280Fields(mux, ch, addr);
    config := map["i2c_address" := Int(addr), "bus_number" := Int(1), "mux_address" := Int(mux), "mux_channel" := Int(ch)];
    assert MuxConfig(config) == map["mux_address" := Int(mux), "mux_channel" := Int(ch)];
  }

  /** The hardware columns of a row created from a descriptor come from its config. */
  lemma CreatedRow(d: Db, commitOk: nat -> bool, info: Dict, config: Dict, autoEnable: bool, now: int)
    requires Consistent(d)
    requires "sensor_id" in info && info["sensor_id"].Str? && info["sensor_id"].s !in d.session.records
    requires "sensor_type" in info && info["sensor_type"].Str? && ConfigOf(info) == Mapping(config)
    requires Storable(d.session) && Get(info, "name", Str("")) != Null
    requires commitOk(d.commits)
    ensures var e := RegisterStep(d, commitOk, info, autoEnable, now);
            var id := info["sensor_id"].s;
            && e.result == Ok(Registered) && id in e.db.session.records
            && var rec := e.db.session.records[id];
            && rec.i2cAddress == Get(config, "i2c_address", Null) && rec.busNumber == Get(config, "bus_number", Int(1))
            && rec.enabled == autoEnable
            && rec.calibrationData == (if MuxConfig(config) == map[] then None else Some(MuxConfig(config)))
  {
    CreateRegisters(d, commitOk, info, autoEnable, now);
  }

  /** Row `id` of a table is `rec` (absent when `rec` is `None`). */
  ghost predicate RowIs(t: Tables, id: string, rec: Option<SensorRecord>) {
    (id in t.records <==> rec.Some?) && (rec.Some? ==> t.records[id] == rec.value)
  }

  lemma StepLocal(d: Db, commitOk: nat -> bool, info: Dict, autoEnable: bool, now: int, id: string, rec: Option<SensorRecord>)
    requires Consistent(d) && RowIs(d.session, id, rec) && RowIs(d.committed, id, rec)
    requires Get(info, "sensor_id", Null) != Str(id)
    ensures var e := RegisterStep(d, commitOk, info, autoEnable, now).db;
            RowIs(e.session, id, rec) && RowIs(e.committed, id, rec)
  {
    if "sensor_id" in info && info["sensor_id"].Str? {
      var sid := info["sensor_id"].s;
      if sid in d.session.records {
        UpdateLocal(d, commitOk, sid, d.session.records[sid], info, now, id, rec);
      } else {
        CreateLocal(d, commitOk, sid, info, autoEnable, now, id, rec);
      }
    }
  }

  lemma UpdateLocal(d: Db, commitOk: nat -> bool, sid: string, row: SensorRecord, info: Dict, now: int,
                    id: string, rec: Option<SensorRecord>)
    requires Consistent(d) && RowIs(d.session, id, rec) && RowIs(d.committed, id, rec) && sid != id
    ensures var e := UpdateStep(d, commitOk, sid, row, info, now).db;
            RowIs(e.session, id, rec) && RowIs(e.committed, id, rec)
  {
    var described := Described(row, info);
    match ConfigOf(info)
    case Mapping(config) =>
      if !Unchanged(row, info, config) {
        var updated := Configured(described, config).(updatedAt := Stamp(now));
        PutLocal(d, sid, updated, id, rec, commitOk);
        assert UpdateStep(d, commitOk, sid, row, info, now).db == Commit(Put(d, sid, updated), commitOk).0;
      }
    case _ =>
      PutLocal(d, sid, described, id, rec, commitOk);
  }

  lemma CreateLocal(d: Db, commitOk: nat -> bool, sid: string, info: Dict, autoEnable: bool, now: int,
                    id: string, rec: Option<SensorRecord>)
    requires Consistent(d) && RowIs(d.session, id, rec) && RowIs(d.committed, id, rec) && sid != id
    ensures var e := CreateStep(d, commitOk, sid, info, autoEnable, now).db;
            RowIs(e.session, id, rec) && RowIs(e.committed, id, rec)
  {
    if ConfigOf(info).Mapping? && "sensor_type" in info && info["sensor_type"].Str? {
      PutLocal(d, sid, NewRecord(sid, info["sensor_type"].s, info, ConfigOf(info).entries, autoEnable, now), id, rec, commitOk);
    }
  }

  /** Writing and committing another row leaves row `id` as it was. */
  lemma PutLocal(d: Db, rid: string, r: SensorRecord, id: string, rec: Option<SensorRecord>, commitOk: nat -> bool)
    requires Consistent(d) && RowIs(d.session, id, rec) && RowIs(d.committed, id, rec) && rid != id
    ensures var p := Put(d, rid, r);
            && RowIs(p.session, id, rec) && RowIs(p.committed, id, rec)
            && RowIs(Commit(p, commitOk).0.session, id, rec) && RowIs(Commit(p, commitOk).0.committed, id, rec)
  {
  }

  /** Reconciling never touches a row that no descriptor names. */
  lemma {:induction false} ReconcileLocal(d: Db, commitOk: nat -> bool, infos: seq<Dict>, autoEnable: bool, now: int,
                                         id: string, rec: Option<SensorRecord>)
    requires Consistent(d) && RowIs(d.session, id, rec) && RowIs(d.committed, id, rec)
    requires forall i :: 0 <= i < |infos| ==> Get(infos[i], "sensor_id", Null) != Str(id)
    ensures var e := Reconcile(d, commitOk, infos, autoEnable, now).db;
            RowIs(e.session, id, rec) && RowIs(e.committed, id, rec)
    decreases |infos|
  {
    if infos != [] {
      StepLocal(d, commitOk, infos[0], autoEnable, now, id, rec);
      var s := RegisterStep(d, commitOk, infos[0], autoEnable, now);
      forall i | 0 <= i < |infos[1..]|
        ensures Get(infos[1..][i], "sensor_id", Null) != Str(id)
      {
        assert infos[1..][i] == infos[i + 1];
      }
      ReconcileLocal(s.db, commitOk, infos[1..], autoEnable, now, id, rec);
    }
  }

  // ---------------------------------------------------------------------------
  // Properties of the connectivity tests

  /** A sensor that answers is committed as `active` with its error count cleared. */
  lemma ProbeAvailable(d: Db, commitOk: nat -> bool, classes: map<string, SensorClass>, fleet: Fleet,
                       round: nat, id: string, inst: Instance)
    requires Consistent(d) && Storable(d.session) && id in d.session.records && commitOk(d.commits)
    requires var rec := d.session.records[id];
             Create(classes, fleet, rec.sensorType, id, ProbeConfig(rec)) == Some(inst)
    requires fleet.available(inst, round) == Ok(true)
    ensures var rec := d.session.records[id];
            var c := ConnectivityStep(d, commitOk, classes, fleet, round, id);
            && c.result == Ok(Reached(id, true, Active, rec.sensorType))
            && c.db.session == c.db.committed
            && c.db.committed.records == d.session.records[id := rec.(status := Active, errorCount := Some(0))]
  {
    var rec := d.session.records[id];
    assert NameOf(d.session, id) == rec.name;
    PutStorable(d, id, rec.(status := Active, errorCount := Some(0)));
  }

  /** A sensor that does not answer is committed as `unavailable` with its error count one higher. */
  lemma ProbeUnavailable(d: Db, commitOk: nat -> bool, classes: map<string, SensorClass>, fleet: Fleet,
                         round: nat, id: string, inst: Instance, n: int)
    requires Consistent(d) && Storable(d.session) && id in d.session.records && commitOk(d.commits)
    requires var rec := d.session.records[id];
             Create(classes, fleet, rec.sensorType, id, ProbeConfig(rec)) == Some(inst) && rec.errorCount == Some(n)
    requires fleet.available(inst, round) == Ok(false)
    ensures var rec := d.session.records[id];
            var c := ConnectivityStep(d, commitOk, classes, fleet, round, id);
            && c.result == Ok(Reached(id, false, Unavailable, rec.sensorType))
            && c.db.session == c.db.committed
            && c.db.committed.records == d.session.records[id := rec.(status := Unavailable, errorCount := Some(n + 1))]
  {
    var rec := d.session.records[id];
    assert NameOf(d.session, id) == rec.name;
    PutStorable(d, id, rec.(status := Unavailable, errorCount := Some(n + 1)));
  }

  /** A probe that raises is committed as `error` with the count one higher, and reported with its message. */
  lemma ProbeRaises(d: Db, commitOk: nat -> bool, classes: map<string, SensorClass>, fleet: Fleet,
                    round: nat, id: string, inst: Instance, n: int, message: string)
    requires Consistent(d) && Storable(d.session) && id in d.session.records && commitOk(d.commits)
    requires var rec := d.session.records[id];
             Create(classes, fleet, rec.sensorType, id, ProbeConfig(rec)) == Some(inst) && rec.errorCount == Some(n)
    requires fleet.available(inst, round) == Err(message)
    ensures var rec := d.session.records[id];
            var c := ConnectivityStep(d, commitOk, classes, fleet, round, id);
            && c.result == Ok(NotReached(id, message))
            && c.db.session == c.db.committed
            && c.db.committed.records == d.session.records[id := rec.(status := Error, errorCount := Some(n + 1))]
  {
    var rec := d.session.records[id];
    assert NameOf(d.session, id) == rec.name;
    PutStorable(d, id, rec.(status := Error, errorCount := Some(n + 1)));
  }

  /**
   * When no row has the id, or the registry cannot create an instance, the
   * sensor is reported unreachable and nothing is written or committed.
   */
  lemma ProbeUnreachedKeepsRows(d: Db, commitOk: nat -> bool, classes: map<string, SensorClass>, fleet: Fleet,
                                round: nat, id: string)
    requires Consistent(d)
    requires id in d.session.records ==>
               var rec := d.session.records[id];
               Create(classes, fleet, rec.sensorType, id, ProbeConfig(rec)).None?
    ensures var c := ConnectivityStep(d, commitOk, classes, fleet, round, id);
            c.db == d && c.result.Ok? && c.result.value.NotReached? && c.result.value.sensorId == id
  {
  }

  /** A NULL error count cannot be raised by one: an unanswered or failing probe lets a `TypeError` escape. */
  lemma ProbeNullCountEscapes(d: Db, commitOk: nat -> bool, classes: map<string, SensorClass>, fleet: Fleet,
                              round: nat, id: string, inst: Instance)
    requires Consistent(d) && id in d.session.records
    requires var rec := d.session.records[id];
             Create(classes, fleet, rec.sensorType, id, ProbeConfig(rec)) == Some(inst) && rec.errorCount.None?
    requires fleet.available(inst, round) != Ok(true)
    ensures ConnectivityStep(d, commitOk, classes, fleet, round, id).result == Err(NoneCountError)
  {
  }

  /** Every connectivity dict falls under exactly one of the three counters. */
  lemma {:induction false} HealthTotal(ps: seq<Probe>)
    ensures HealthOf(ps).available + HealthOf(ps).unavailable + HealthOf(ps).errors == |ps|
  {
    if ps != [] {
      HealthTotal(ps[..|ps| - 1]);
    }
  }

  /** `available_sensors + unavailable_sensors + error_sensors == total_sensors`, one dict per row. */
  lemma SweepCountsAddUp(d: Db, commitOk: nat -> bool, classes: map<string, SensorClass>, fleet: Fleet,
                         round: nat)
    requires Consistent(d)
    requires SweepOf(d, commitOk, classes, fleet, round, d.session.ids).result.Ok?
    ensures var ps := SweepOf(d, commitOk, classes, fleet, round, d.session.ids).result.value;
            var r := HealthReportOf(|d.session.ids|, ps);
            && r.availableSensors + r.unavailableSensors + r.errorSensors == r.totalSensors
            && |r.sensorStatus| == r.totalSensors
  {
    HealthTotal(SweepOf(d, commitOk, classes, fleet, round, d.session.ids).result.value);
  }
}
