/**
 * `DataCollectionService`: every row of the `sensors` table, enabled or
 * not, gets a fresh sensor object from the service's own registry and one
 * `read()`; the outcome is stored as an `active` or an `error` reading and
 * listed in the results, rows of an unknown type are skipped, and all the
 * readings are committed at once. `run_continuous` repeats this until a
 * `KeyboardInterrupt` (a number of rounds here), waiting the interval after
 * a round, and 5 s after a round that raised or whose wait `time.sleep`
 * refused.
 */
module Collector {
  import opened Values
  import opened PyText
  import opened Hardware
  import opened Store
  import opened Registry

  /** `{'i2c_address': ...}` updated with a non-empty `calibration_data`. */
  function CollectConfig(rec: SensorRecord): (r: Dict)
    ensures rec.calibrationData.Some? ==> r == Overlay(map["i2c_address" := rec.i2cAddress], rec.calibrationData.value)
    ensures rec.calibrationData.None? ==> r == map["i2c_address" := rec.i2cAddress]
  {
    var base := map["i2c_address" := rec.i2cAddress];
    match rec.calibrationData
    case Some(cal) => if cal != map[] then Overlay(base, cal) else base
    case None => base
  }

  /** The message `str(e)` of an exception whose text this model does not know: the constructor raised. */
  const ConstructorError := "sensor constructor raised"

  /** The `AttributeError` of calling `.get` on a value that is not a dict. */
  function NoGetError(v: Value): string {
    var name := match v
      case Null => "NoneType"
      case Bool(_) => "bool"
      case Int(_) => "int"
      case Str(_) => "str"
      case Mapping(_) => "dict"
      case Stamp(_) => "datetime.datetime"
      case _ => "float";
    "'" + name + "' object has no attribute 'get'"
  }

  /** The `data` dict stored for an MPU6050 reading. */
  function MotionData(r: Dict): (m: Dict)
    ensures m.Keys == {"accel_x", "accel_y", "accel_z", "gyro_x", "gyro_y", "gyro_z", "temperature"}
    ensures forall k :: k in m ==> m[k] == Get(r, k, Null)
  {
    map k | k in {"accel_x", "accel_y", "accel_z", "gyro_x", "gyro_y", "gyro_z", "temperature"} :: Get(r, k, Null)
  }

  /**
   * The `active` reading for a successful read, the fields mapped by the
   * row's `sensor_type` as stored (compared case-sensitively); a BME280
   * `data` value that is not a dict raises on `.get`.
   */
  function SuccessReading(sensorId: string, sensorType: string, r: Dict, now: int): Result<Reading> {
    var base := BlankReading(sensorId, sensorType, Stamp(now), Active);
    if sensorType == "bme280" && "data" in r then
      match r["data"]
      case Mapping(data) =>
        Ok(base.(temperature := Get(data, "temperature", Null), humidity := Get(data, "humidity", Null),
                 pressure := Get(data, "pressure", Null), data := Mapping(data)))
      case other => Err(NoGetError(other))
    else if sensorType == "ltr329" then
      Ok(base.(lightLevel := Get(r, "light_level", Null), irLevel := Get(r, "ir_level", Null), data := Mapping(r)))
    else if sensorType == "mpu6050" then
      Ok(base.(temperature := Get(r, "temperature", Null), data := Mapping(MotionData(r))))
    else
      Ok(base.(data := Mapping(r)))
  }

  /** A read counts as a success when it is a non-empty dict without an `'error'` key. */
  predicate Succeeded(r: Dict) {
    r != map[] && "error" !in r
  }

  /** The `error_message` of an error reading. */
  function ErrorMessage(r: Dict): Value {
    if r != map[] then Get(r, "error", Str("Unknown error")) else Str("No data")
  }

  /** An entry of `results['sensors']`. */
  datatype Entry =
    | Success(sensorId: string, reading: Dict)
    | Failure(sensorId: string, error: Value)
    | Raised(sensorId: string, message: string)

  /** What one row adds: the session after it, and its entry (none for an unknown type). */
  datatype Visit = Visit(db: Db, entry: Option<Entry>)

  /** One iteration of the loop over the rows; `read` is what the new object's `read()` gives. */
  function CollectOne(d: Db, classes: map<string, SensorClass>, fleet: Fleet, round: nat, now: int,
                      id: string, rec: SensorRecord): (r: Visit)
    requires Consistent(d)
    ensures Consistent(r.db) && r.db.committed == d.committed && r.db.commits == d.commits
    ensures r.db.session.ids == d.session.ids && r.db.session.records == d.session.records
  {
    match Lookup(classes, rec.sensorType)
    case None => Visit(d, None)
    case Some(cls) =>
      var inst := Instance(cls, id, CollectConfig(rec));
      if !fleet.constructs(inst) then Visit(d, Some(Raised(id, ConstructorError)))
      else
        match fleet.readings(inst, round)
        case Err(m) => Visit(d, Some(Raised(id, m)))
        case Ok(r) =>
          if Succeeded(r) then
            match SuccessReading(id, rec.sensorType, r, now)
            case Err(m) => Visit(d, Some(Raised(id, m)))
            case Ok(reading) => Visit(AddReading(d, reading), Some(Success(id, r)))
          else
            var message := ErrorMessage(r);
            var reading := BlankReading(id, rec.sensorType, Stamp(now), Error).(errorMessage := message);
            Visit(AddReading(d, reading), Some(Failure(id, message)))
  }

  /** The entry list in front of what the rest of the rows add. */
  function Cons(e: Option<Entry>, rest: seq<Entry>): seq<Entry> {
    match e
    case Some(x) => [x] + rest
    case None => rest
  }

  /** What the loop leaves: the session and the entries. */
  datatype Sweep = Sweep(db: Db, entries: seq<Entry>)

  /** The loop over the rows `Sensor.query.all()` listed. */
  function CollectAll(d: Db, classes: map<string, SensorClass>, fleet: Fleet, round: nat, now: int,
                      ids: seq<string>): (r: Sweep)
    requires Consistent(d) && forall k :: k in ids ==> k in d.session.records
    ensures Consistent(r.db) && r.db.committed == d.committed && r.db.commits == d.commits
    ensures r.db.session.ids == d.session.ids && r.db.session.records == d.session.records
    decreases |ids|
  {
    if ids == [] then Sweep(d, [])
    else
      var v := CollectOne(d, classes, fleet, round, now, ids[0], d.session.records[ids[0]]);
      var rest := CollectAll(v.db, classes, fleet, round, now, ids[1..]);
      Sweep(rest.db, Cons(v.entry, rest.entries))
  }

  /** The returned results dict. */
  datatype Results = Results(successCount: nat, errorCount: nat, sensors: seq<Entry>)

  /** `success_count` counts the successes; `error_count` counts the error readings and the exceptions. */
  function Tally(es: seq<Entry>): (r: (nat, nat)) {
    if es == [] then (0, 0)
    else
      var t := Tally(es[1..]);
      if es[0].Success? then (t.0 + 1, t.1) else (t.0, t.1 + 1)
  }

  /** `collect_sensor_data`: the loop, then one commit; a failed commit is rolled back and re-raised. */
  function Collect(d: Db, commitOk: nat -> bool, classes: map<string, SensorClass>, fleet: Fleet, round: nat, now: int)
    : (r: (Db, Result<Results>))
    requires Consistent(d)
    ensures Consistent(r.0)
  {
    var sweep := CollectAll(d, classes, fleet, round, now, d.session.ids);
    var c := Commit(sweep.db, commitOk);
    if c.1 then (c.0, Ok(Results(Tally(sweep.entries).0, Tally(sweep.entries).1, sweep.entries)))
    else (Rollback(c.0), Err(CommitError))
  }

  /**
   * The largest whole number of seconds `time.sleep` accepts: the delay is
   * converted to a signed 64-bit count of nanoseconds, and a larger value
   * raises `OverflowError`.
   */
  const MaxSleep := 9_223_372_036

  /** `time.sleep(t)` returns for a whole number of seconds `t`; a negative `t` raises `ValueError`. */
  predicate Sleeps(t: int) {
    0 <= t <= MaxSleep
  }

  /** The first `n` rounds of `run_continuous`; round `c` reads the clock as `clock(c)`. */
  function RunRounds(d: Db, commitOk: nat -> bool, classes: map<string, SensorClass>, fleet: Fleet,
                     interval: int, clock: nat -> int, n: nat): (r: (Db, seq<int>))
    requires Consistent(d)
    ensures Consistent(r.0) && |r.1| == n
  {
    if n == 0 then (d, [])
    else
      var p := RunRounds(d, commitOk, classes, fleet, interval, clock, n - 1);
      var c := Collect(p.0, commitOk, classes, fleet, n - 1, clock(n - 1));
      (c.0, p.1 + [if c.1.Ok? && Sleeps(interval) then interval else 5])
  }

  class DataCollectionService {
    const interval: int
    const registry: SensorRegistry
    var running: bool

    /** `DataCollectionService(interval_seconds)`: its own registry with the built-in registrations, not running. */
    constructor (libs: Libraries, intervalSeconds: int := 60)
      ensures interval == intervalSeconds && fresh(registry) && !running
      ensures registry.Valid() && registry.classes == BuiltinClasses(libs)
    {
      interval := intervalSeconds;
      registry := new SensorRegistry(libs);
      running := false;
    }

    /** `collect_sensor_data`, round `round` of the sensors' behaviour, at clock reading `now`. */
    method CollectSensorData(fleet: Fleet, db: Database, round: nat, now: int) returns (r: Result<Results>)
      requires db.Valid()
      modifies db
      ensures db.Valid()
      ensures (db.state, r) == Collect(old(db.state), db.commitOk, registry.classes, fleet, round, now)
    {
      var sensors, successCount, errorCount := CollectRows(fleet, db, round, now);
      var ok := db.CommitSession();
      if !ok {
        db.RollbackSession();
        return Err(CommitError);
      }
      r := Ok(Results(successCount, errorCount, sensors));
    }

    /** The loop over `Sensor.query.all()`: every row visited in table order, the counters kept beside the entries. */
    method CollectRows(fleet: Fleet, db: Database, round: nat, now: int)
      returns (sensors: seq<Entry>, successCount: nat, errorCount: nat)
      requires db.Valid()
      modifies db
      ensures db.Valid()
      ensures Sweep(db.state, sensors) == CollectAll(old(db.state), registry.classes, fleet, round, now, old(db.state).session.ids)
      ensures (successCount, errorCount) == Tally(sensors)
    {
      var classes := registry.classes;
      var ids := db.state.session.ids;
      var records := db.state.session.records;
      ghost var target := CollectAll(db.state, classes, fleet, round, now, ids);
      successCount, errorCount := 0, 0;
      sensors := [];
      var i := 0;
      assert ids[0..] == ids;
      while i < |ids|
        invariant 0 <= i <= |ids|
        invariant db.Valid() && db.state.session.ids == ids && db.state.session.records == records
        invariant target.db == CollectAll(db.state, classes, fleet, round, now, ids[i..]).db
        invariant target.entries == sensors + CollectAll(db.state, classes, fleet, round, now, ids[i..]).entries
        invariant (successCount, errorCount) == Tally(sensors)
      {
        sensors, successCount, errorCount := CollectRow(fleet, db, round, now, ids, i, sensors, successCount, errorCount);
        i := i + 1;
      }
      assert ids[i..] == [];
      assert sensors + [] == sensors;
    }

    /**
     * One turn of the loop: the row at position `i` visited, its entry
     * appended to `results['sensors']` and counted.
     */
    method CollectRow(fleet: Fleet, db: Database, round: nat, now: int, ids: seq<string>, i: nat,
                      sensors: seq<Entry>, successCount: nat, errorCount: nat)
      returns (sensors': seq<Entry>, successCount': nat, errorCount': nat)
      requires db.Valid() && i < |ids| && forall k :: k in ids ==> k in db.state.session.records
      requires (successCount, errorCount) == Tally(sensors)
      modifies db
      ensures db.Valid()
      ensures db.state.session.ids == old(db.state.session.ids) && db.state.session.records == old(db.state.session.records)
      ensures CollectAll(old(db.state), registry.classes, fleet, round, now, ids[i..]).db
              == CollectAll(db.state, registry.classes, fleet, round, now, ids[i + 1..]).db
      ensures sensors + CollectAll(old(db.state), registry.classes, fleet, round, now, ids[i..]).entries
              == sensors' + CollectAll(db.state, registry.classes, fleet, round, now, ids[i + 1..]).entries
      ensures (successCount', errorCount') == Tally(sensors')
    {
      ghost var before := db.state;
      var entry := VisitSensor(db, fleet, round, now, ids[i], db.state.session.records[ids[i]]);
      SweepStep(before, db.state, entry, registry.classes, fleet, round, now, ids, i, sensors);
      sensors', successCount', errorCount' := sensors, successCount, errorCount;
      if entry.Some? {
        TallyAppend(sensors, entry.value);
        if entry.value.Success? {
          successCount' := successCount + 1;
        } else {
          errorCount' := errorCount + 1;
        }
        sensors' := sensors + [entry.value];
      }
    }

    /** The body of the loop for one row: a reading added to the session, and the row's entry. */
    method VisitSensor(db: Database, fleet: Fleet, round: nat, now: int, id: string, rec: SensorRecord)
      returns (entry: Option<Entry>)
      requires db.Valid()
      modifies db
      ensures db.Valid()
      ensures Visit(db.state, entry) == CollectOne(old(db.state), registry.classes, fleet, round, now, id, rec)
    {
      var cls := registry.GetSensorClass(rec.sensorType);
      if cls.None? {
        return None;
      }
      var inst := Instance(cls.value, id, CollectConfig(rec));
      if !fleet.constructs(inst) {
        return Some(Raised(id, ConstructorError));
      }
      var read := fleet.readings(inst, round);
      if read.Err? {
        return Some(Raised(id, read.message));
      }
      var r := read.value;
      if Succeeded(r) {
        var reading := SuccessReading(id, rec.sensorType, r, now);
        if reading.Err? {
          return Some(Raised(id, reading.message));
        }
        db.Add(reading.value);
        entry := Some(Success(id, r));
      } else {
        var message := ErrorMessage(r);
        db.Add(BlankReading(id, rec.sensorType, Stamp(now), Error).(errorMessage := message));
        entry := Some(Failure(id, message));
      }
    }

    /**
     * `run_continuous`, interrupted after `rounds` rounds: each round collects
     * once, then waits the interval, or 5 s when the round or the sleep raised; the
     * interrupt leaves the service stopped.
     */
    method RunContinuous(fleet: Fleet, db: Database, clock: nat -> int, rounds: nat) returns (waits: seq<int>)
      requires db.Valid()
      modifies this, db
      ensures db.Valid() && !running
      ensures (db.state, waits) == RunRounds(old(db.state), db.commitOk, registry.classes, fleet, interval, clock, rounds)
    {
      running := true;
      waits := CollectRounds(fleet, db, clock, rounds);
      running := false;
    }

    /** The loop of `run_continuous` while it is running: `rounds` rounds, each followed by its wait. */
    method CollectRounds(fleet: Fleet, db: Database, clock: nat -> int, rounds: nat) returns (waits: seq<int>)
      requires db.Valid()
      modifies db
      ensures db.Valid()
      ensures (db.state, waits) == RunRounds(old(db.state), db.commitOk, registry.classes, fleet, interval, clock, rounds)
    {
      ghost var d0 := db.state;
      waits := [];
      var c := 0;
      while c < rounds
        invariant 0 <= c <= rounds
        invariant db.Valid()
        invariant (db.state, waits) == RunRounds(d0, db.commitOk, registry.classes, fleet, interval, clock, c)
      {
        waits := CollectRound(fleet, db, clock, c, waits, d0);
        c := c + 1;
      }
    }

    /** One round of `run_continuous`: collect, then wait the interval, or 5 s when collecting or sleeping raised. */
    method CollectRound(fleet: Fleet, db: Database, clock: nat -> int, c: nat, waits: seq<int>, ghost d0: Db)
      returns (waits': seq<int>)
      requires db.Valid() && Consistent(d0)
      requires (db.state, waits) == RunRounds(d0, db.commitOk, registry.classes, fleet, interval, clock, c)
      modifies db
      ensures db.Valid()
      ensures (db.state, waits') == RunRounds(d0, db.commitOk, registry.classes, fleet, interval, clock, c + 1)
    {
      ghost var before := db.state;
      var r := CollectSensorData(fleet, db, c, clock(c));
      RunRoundsStep(d0, before, db.state, r, db.commitOk, registry.classes, fleet, interval, clock, c, waits);
      waits' := waits + [if r.Ok? && Sleeps(interval) then interval else 5];
    }

    /** `stop`: the loop will not start another round. */
    method Stop()
      modifies this
      ensures !running
    {
      running := false;
    }
  }

  // ---------------------------------------------------------------------------
  // Properties

  /** One turn of the loop over the rows: the row at position `i` visited, its entry appended. */
  lemma SweepStep(before: Db, after: Db, entry: Option<Entry>, classes: map<string, SensorClass>, fleet: Fleet,
                  round: nat, now: int, ids: seq<string>, i: nat, done: seq<Entry>)
    requires Consistent(before) && forall k :: k in ids ==> k in before.session.records
    requires i < |ids|
    requires Visit(after, entry) == CollectOne(before, classes, fleet, round, now, ids[i], before.session.records[ids[i]])
    ensures CollectAll(before, classes, fleet, round, now, ids[i..]).db == CollectAll(after, classes, fleet, round, now, ids[i + 1..]).db
    ensures done + CollectAll(before, classes, fleet, round, now, ids[i..]).entries
            == (if entry.Some? then done + [entry.value] else done) + CollectAll(after, classes, fleet, round, now, ids[i + 1..]).entries
  {
    assert ids[i..][1..] == ids[i + 1..];
    var rest := CollectAll(after, classes, fleet, round, now, ids[i + 1..]);
    assert CollectAll(before, classes, fleet, round, now, ids[i..]) == Sweep(rest.db, Cons(entry, rest.entries));
    if entry.Some? {
      Assoc(done, [entry.value], rest.entries);
    }
  }

  /**
   * Round `n - 1` keeps the waits of the rounds before it and appends its
   * own: the interval when its commit went through and `time.sleep`
   * accepts it, 5 s when the commit or the sleep raised.
   */
  lemma LastRoundWait(d: Db, commitOk: nat -> bool, classes: map<string, SensorClass>, fleet: Fleet,
                      interval: int, clock: nat -> int, n: nat)
    requires Consistent(d) && 0 < n
    ensures var before := RunRounds(d, commitOk, classes, fleet, interval, clock, n - 1);
            var swept := CollectAll(before.0, classes, fleet, n - 1, clock(n - 1), before.0.session.ids).db;
            RunRounds(d, commitOk, classes, fleet, interval, clock, n).1
            == before.1 + [if Accepts(swept, commitOk) && Sleeps(interval) then interval else 5]
  {
    var p := RunRounds(d, commitOk, classes, fleet, interval, clock, n - 1);
    CommittedIffAccepted(p.0, commitOk, classes, fleet, n - 1, clock(n - 1));
  }

  /**
   * An interval `time.sleep` refuses, such as a negative one, makes every
   * round wait 5 s, whatever its commit did.
   */
  lemma {:induction false} RefusedIntervalWaitsFive(d: Db, commitOk: nat -> bool, classes: map<string, SensorClass>,
                                                    fleet: Fleet, interval: int, clock: nat -> int, n: nat)
    requires Consistent(d) && !Sleeps(interval)
    ensures forall k :: 0 <= k < n ==> RunRounds(d, commitOk, classes, fleet, interval, clock, n).1[k] == 5
  {
    if n > 0 {
      RefusedIntervalWaitsFive(d, commitOk, classes, fleet, interval, clock, n - 1);
      LastRoundWait(d, commitOk, classes, fleet, interval, clock, n);
    }
  }

  /** `collect_sensor_data` returns its results exactly when the commit is accepted. */
  lemma CommittedIffAccepted(d: Db, commitOk: nat -> bool, classes: map<string, SensorClass>, fleet: Fleet,
                             round: nat, now: int)
    requires Consistent(d)
    ensures Collect(d, commitOk, classes, fleet, round, now).1.Ok?
            == Accepts(CollectAll(d, classes, fleet, round, now, d.session.ids).db, commitOk)
  {
  }

  /** One more round of `run_continuous`. */
  lemma RunRoundsStep(d0: Db, before: Db, after: Db, r: Result<Results>, commitOk: nat -> bool,
                      classes: map<string, SensorClass>, fleet: Fleet, interval: int, clock: nat -> int, c: nat,
                      waits: seq<int>)
    requires Consistent(d0) && Consistent(before)
    requires (before, waits) == RunRounds(d0, commitOk, classes, fleet, interval, clock, c)
    requires (after, r) == Collect(before, commitOk, classes, fleet, c, clock(c))
    ensures (after, waits + [if r.Ok? && Sleeps(interval) then interval else 5]) == RunRounds(d0, commitOk, classes, fleet, interval, clock, c + 1)
  {
  }

  lemma TallyAppend(es: seq<Entry>, e: Entry)
    ensures Tally(es + [e]) == if e.Success? then (Tally(es).0 + 1, Tally(es).1) else (Tally(es).0, Tally(es).1 + 1)
    decreases |es|
  {
    if es != [] {
      assert (es + [e])[1..] == es[1..] + [e];
      TallyAppend(es[1..], e);
    }
  }

  /** Every entry is counted once: `success_count + error_count == len(results['sensors'])`. */
  lemma {:induction false} TallyTotal(es: seq<Entry>)
    ensures Tally(es).0 + Tally(es).1 == |es|
    ensures Tally(es).0 == |Successes(es)|
    decreases |es|
  {
    if es != [] {
      TallyTotal(es[1..]);
    }
  }

  function Successes(es: seq<Entry>): seq<Entry> {
    if es == [] then [] else (if es[0].Success? then [es[0]] else []) + Successes(es[1..])
  }

  /** The results of a committed round add up. */
  lemma CountsAddUp(d: Db, commitOk: nat -> bool, classes: map<string, SensorClass>, fleet: Fleet, round: nat, now: int)
    requires Consistent(d)
    ensures var r := Collect(d, commitOk, classes, fleet, round, now).1;
            r.Ok? ==> r.value.successCount + r.value.errorCount == |r.value.sensors|
  {
    TallyTotal(CollectAll(d, classes, fleet, round, now, d.session.ids).entries);
  }

  /** The rows that have a class, in table order; `enabled` plays no part. */
  function KnownAmong(classes: map<string, SensorClass>, ids: seq<string>, records: map<string, SensorRecord>)
    : seq<string>
    requires forall k :: k in ids ==> k in records
    decreases |ids|
  {
    if ids == [] then []
    else (if Lookup(classes, records[ids[0]].sensorType).Some? then [ids[0]] else []) + KnownAmong(classes, ids[1..], records)
  }

  function EntryIds(es: seq<Entry>): (r: seq<string>)
    ensures |r| == |es| && forall i :: 0 <= i < |es| ==> r[i] == es[i].sensorId
  {
    seq(|es|, i requires 0 <= i < |es| => es[i].sensorId)
  }

  /**
   * Every row of a known type gets exactly one entry, in table order, and a
   * row of an unknown type gets none, whether it is enabled or not.
   */
  lemma {:induction false} EntriesForKnownRows(d: Db, classes: map<string, SensorClass>, fleet: Fleet, round: nat,
                                               now: int, ids: seq<string>)
    requires Consistent(d) && forall k :: k in ids ==> k in d.session.records
    ensures EntryIds(CollectAll(d, classes, fleet, round, now, ids).entries) == KnownAmong(classes, ids, d.session.records)
    decreases |ids|
  {
    if ids != [] {
      var v := CollectOne(d, classes, fleet, round, now, ids[0], d.session.records[ids[0]]);
      var rest := CollectAll(v.db, classes, fleet, round, now, ids[1..]);
      EntriesForKnownRows(v.db, classes, fleet, round, now, ids[1..]);
      assert v.entry.Some? <==> Lookup(classes, d.session.records[ids[0]].sensorType).Some?;
      assert v.entry.Some? ==> v.entry.value.sensorId == ids[0];
      EntryIdsCons(v.entry, rest.entries);
    }
  }

  lemma EntryIdsCons(e: Option<Entry>, rest: seq<Entry>)
    ensures EntryIds(Cons(e, rest)) == (if e.Some? then [e.value.sensorId] else []) + EntryIds(rest)
  {
    if e.Some? {
      assert EntryIds([e.value] + rest) == [e.value.sensorId] + EntryIds(rest);
    }
  }

  /** A row whose type has no class adds no entry and no reading. */
  lemma UnknownTypeSkipped(d: Db, classes: map<string, SensorClass>, fleet: Fleet, round: nat, now: int,
                           id: string, rec: SensorRecord)
    requires Consistent(d) && Lower(rec.sensorType) !in classes
    ensures CollectOne(d, classes, fleet, round, now, id, rec) == Visit(d, None)
  {
  }

  /** The service's registry has no MPU6050 class, so every MPU6050 row is skipped. */
  lemma Mpu6050AlwaysSkipped(d: Db, libs: Libraries, fleet: Fleet, round: nat, now: int, id: string, rec: SensorRecord)
    requires Consistent(d) && Lower(rec.sensorType) == "mpu6050"
    ensures CollectOne(d, BuiltinClasses(libs), fleet, round, now, id, rec) == Visit(d, None)
  {
  }

  /** `enabled` is never read. */
  lemma EnabledIgnored(d: Db, classes: map<string, SensorClass>, fleet: Fleet, round: nat, now: int,
                       id: string, rec: SensorRecord, enabled: bool)
    requires Consistent(d)
    ensures CollectOne(d, classes, fleet, round, now, id, rec.(enabled := enabled))
            == CollectOne(d, classes, fleet, round, now, id, rec)
  {
    assert CollectConfig(rec.(enabled := enabled)) == CollectConfig(rec);
  }

  /**
   * The outcome of one read of a known, constructible sensor: a success adds
   * one `active` reading, an error result adds one `error` reading with its
   * message, and an exception adds none.
   */
  lemma ReadOutcome(d: Db, classes: map<string, SensorClass>, fleet: Fleet, round: nat, now: int,
                    id: string, rec: SensorRecord, v: Visit, read: Result<Dict>)
    requires Consistent(d) && Lower(rec.sensorType) in classes
    requires fleet.constructs(Instance(classes[Lower(rec.sensorType)], id, CollectConfig(rec)))
    requires v == CollectOne(d, classes, fleet, round, now, id, rec)
    requires read == fleet.readings(Instance(classes[Lower(rec.sensorType)], id, CollectConfig(rec)), round)
    ensures v.entry.Some?
    ensures v.entry.value.Success? <==> read.Ok? && Succeeded(read.value) && SuccessReading(id, rec.sensorType, read.value, now).Ok?
    ensures v.entry.value.Success? ==>
              v.db.session.readings == d.session.readings + [SuccessReading(id, rec.sensorType, read.value, now).value]
    ensures v.entry.value.Failure? <==> read.Ok? && !Succeeded(read.value)
    ensures v.entry.value.Failure? ==>
              && v.entry.value.error == ErrorMessage(read.value)
              && v.db.session.readings == d.session.readings + [BlankReading(id, rec.sensorType, Stamp(now), Error).(errorMessage := ErrorMessage(read.value))]
    ensures v.entry.value.Raised? ==> v.db == d
  {
  }

  /** The error message: the `'error'` value, else `'Unknown error'`, and `'No data'` for an empty result. */
  lemma ErrorMessages(r: Dict)
    ensures r == map[] ==> ErrorMessage(r) == Str("No data")
    ensures r != map[] && "error" in r ==> ErrorMessage(r) == r["error"]
    ensures r != map[] && "error" !in r ==> ErrorMessage(r) == Str("Unknown error")
  {
  }

  /** Field mapping: BME280 from the nested `data` dict only when the key is there, otherwise the whole dict is stored. */
  lemma Bme280Mapping(id: string, r: Dict, data: Dict, now: int)
    ensures "data" in r && r["data"] == Mapping(data) ==>
              var x := SuccessReading(id, "bme280", r, now);
              x.Ok? && x.value.temperature == Get(data, "temperature", Null) && x.value.humidity == Get(data, "humidity", Null)
              && x.value.pressure == Get(data, "pressure", Null) && x.value.data == Mapping(data)
    ensures "data" !in r ==> SuccessReading(id, "bme280", r, now) == Ok(BlankReading(id, "bme280", Stamp(now), Active).(data := Mapping(r)))
  {
  }

  /** LTR329 maps the two light channels and stores the whole dict. */
  lemma Ltr329Mapping(id: string, r: Dict, now: int)
    ensures var x := SuccessReading(id, "ltr329", r, now);
            x.Ok? && x.value.lightLevel == Get(r, "light_level", Null) && x.value.irLevel == Get(r, "ir_level", Null)
            && x.value.data == Mapping(r) && x.value.temperature == Null
  {
  }

  /** MPU6050 maps the temperature and stores exactly the seven motion fields. */
  lemma Mpu6050Mapping(id: string, r: Dict, now: int)
    ensures var x := SuccessReading(id, "mpu6050", r, now);
            x.Ok? && x.value.temperature == Get(r, "temperature", Null) && x.value.data == Mapping(MotionData(r))
  {
  }

  /**
   * A type spelled in another case has a class, but its fields are not
   * mapped: the whole dict is stored, and when it carries the `datetime`
   * timestamp a BME280 `read()` puts in it, `data` cannot be serialised.
   */
  lemma UpperCaseTypeStoredRaw(id: string, r: Dict, now: int)
    ensures SuccessReading(id, "BME280", r, now) == Ok(BlankReading(id, "BME280", Stamp(now), Active).(data := Mapping(r)))
    ensures "timestamp" in r && r["timestamp"].Stamp? ==> !JsonSafe(SuccessReading(id, "BME280", r, now).value.data)
  {
  }

  /** The loop over the rows only appends readings. */
  lemma {:induction false} CollectAllAppends(d: Db, classes: map<string, SensorClass>, fleet: Fleet, round: nat,
                                             now: int, ids: seq<string>)
    requires Consistent(d) && forall k :: k in ids ==> k in d.session.records
    ensures d.session.readings <= CollectAll(d, classes, fleet, round, now, ids).db.session.readings
    decreases |ids|
  {
    if ids != [] {
      var v := CollectOne(d, classes, fleet, round, now, ids[0], d.session.records[ids[0]]);
      assert d.session.readings <= v.db.session.readings;
      CollectAllAppends(v.db, classes, fleet, round, now, ids[1..]);
    }
  }

  /**
   * A round whose session holds, after the loop, a reading that cannot be
   * serialised raises at the commit and is rolled back, whether or not the
   * database is reachable.
   */
  lemma UnserialisableRoundRaises(d: Db, commitOk: nat -> bool, classes: map<string, SensorClass>, fleet: Fleet,
                                  round: nat, now: int, i: int)
    requires Consistent(d)
    requires var s := CollectAll(d, classes, fleet, round, now, d.session.ids).db.session;
             0 <= i < |s.readings| && !JsonSafe(s.readings[i].data)
    ensures var (e, r) := Collect(d, commitOk, classes, fleet, round, now);
            r == Err(CommitError) && e.session == d.committed && e.committed == d.committed
  {
    UnserialisableBlocksCommit(CollectAll(d, classes, fleet, round, now, d.session.ids).db, commitOk, i);
  }

  /**
   * A round that starts from a session already holding an unserialisable
   * reading raises, too: the loop keeps it.
   */
  lemma PoisonedSessionRaises(d: Db, commitOk: nat -> bool, classes: map<string, SensorClass>, fleet: Fleet,
                              round: nat, now: int, i: int)
    requires Consistent(d) && 0 <= i < |d.session.readings| && !JsonSafe(d.session.readings[i].data)
    ensures var (e, r) := Collect(d, commitOk, classes, fleet, round, now);
            r == Err(CommitError) && e.session == d.committed && e.committed == d.committed
  {
    CollectAllAppends(d, classes, fleet, round, now, d.session.ids);
    UnserialisableRoundRaises(d, commitOk, classes, fleet, round, now, i);
  }

  /** A failed commit leaves the session at the last committed state and raises. */
  lemma FailedCommitRollsBack(d: Db, commitOk: nat -> bool, classes: map<string, SensorClass>, fleet: Fleet,
                              round: nat, now: int)
    requires Consistent(d) && !commitOk(d.commits)
    ensures var (e, r) := Collect(d, commitOk, classes, fleet, round, now);
            r == Err(CommitError) && e.session == d.committed && e.committed == d.committed
  {
  }

  /** The collector never changes the `sensors` table: no status or error count of a row moves. */
  lemma RowsUntouched(d: Db, commitOk: nat -> bool, classes: map<string, SensorClass>, fleet: Fleet,
                      round: nat, now: int)
    requires Consistent(d) && d.session.records == d.committed.records
    ensures Collect(d, commitOk, classes, fleet, round, now).0.session.records == d.session.records
  {
  }
}
