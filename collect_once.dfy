/**
 * `collect_once`, the one-shot collector script: every row of the `sensors`
 * table gets a sensor object from a fresh registry and one `read()`; a
 * successful read adds one reading, anything else (an unknown type, a
 * constructor or `read` that raises, an error result) is counted as an
 * error and adds nothing. All readings are committed at once; a failed
 * commit is rolled back and reported, not raised. Unlike
 * `DataCollectionService`, a row of an unknown type is counted, and no error
 * reading is ever stored.
 */
module CollectOnce {
  import opened Values
  import opened PyText
  import opened Hardware
  import opened Store
  import opened Registry
  import Collector

  /**
   * The columns a successful read fills in. A nested dict under `'data'`
   * supplies temperature, humidity and pressure and is what is stored as
   * `data`; otherwise all five fields come from the top level and the whole
   * dict is stored.
   */
  function Extract(sensorId: string, sensorType: string, r: Dict, now: int): Reading {
    var base := BlankReading(sensorId, sensorType, Stamp(now), Active);
    if "data" in r && r["data"].Mapping? then
      var nested := r["data"].entries;
      base.(temperature := Get(nested, "temperature", Null), humidity := Get(nested, "humidity", Null),
            pressure := Get(nested, "pressure", Null), data := Mapping(nested))
    else
      base.(temperature := Get(r, "temperature", Null), humidity := Get(r, "humidity", Null),
            pressure := Get(r, "pressure", Null), lightLevel := Get(r, "light_level", Null),
            irLevel := Get(r, "ir_level", Null), data := Mapping(r))
  }

  /** Why a row was counted as an error. */
  datatype Failure = NoClass | Raised(message: string) | ReadError(result: Dict)

  /** What one row did: the session after it, and `None` for a success or why it failed. */
  datatype Step = Step(db: Db, failure: Option<Failure>)

  /** One iteration of the loop over the rows. */
  function OnceRow(d: Db, classes: map<string, SensorClass>, fleet: Fleet, round: nat, now: int,
                   id: string, rec: SensorRecord): (r: Step)
    requires Consistent(d)
    ensures Consistent(r.db) && r.db.committed == d.committed && r.db.commits == d.commits
    ensures r.db.session.ids == d.session.ids && r.db.session.records == d.session.records
  {
    match Lookup(classes, rec.sensorType)
    case None => Step(d, Some(NoClass))
    case Some(cls) =>
      var inst := Instance(cls, id, Collector.CollectConfig(rec));
      if !fleet.constructs(inst) then Step(d, Some(Raised(Collector.ConstructorError)))
      else
        match fleet.readings(inst, round)
        case Err(m) => Step(d, Some(Raised(m)))
        case Ok(r) =>
          if Collector.Succeeded(r) then Step(AddReading(d, Extract(id, rec.sensorType, r, now)), None)
          else Step(d, Some(ReadError(r)))
  }

  /** What the loop leaves: the session and the two counters. */
  datatype Sweep = Sweep(db: Db, successCount: nat, errorCount: nat)

  /** The loop over the rows `Sensor.query.all()` listed. */
  function OnceAll(d: Db, classes: map<string, SensorClass>, fleet: Fleet, round: nat, now: int,
                   ids: seq<string>): (r: Sweep)
    requires Consistent(d) && forall k :: k in ids ==> k in d.session.records
    ensures Consistent(r.db) && r.db.committed == d.committed && r.db.commits == d.commits
    ensures r.db.session.ids == d.session.ids && r.db.session.records == d.session.records
    decreases |ids|
  {
    if ids == [] then Sweep(d, 0, 0)
    else
      var s := OnceRow(d, classes, fleet, round, now, ids[0], d.session.records[ids[0]]);
      var rest := OnceAll(s.db, classes, fleet, round, now, ids[1..]);
      if s.failure.None? then Sweep(rest.db, rest.successCount + 1, rest.errorCount)
      else Sweep(rest.db, rest.successCount, rest.errorCount + 1)
  }

  /** What the script reports: both counters, and whether the commit went through. */
  datatype Report = Report(successCount: nat, errorCount: nat, saved: bool)

  /** `collect_once` on the session `d`, with a registry holding the built-in registrations. */
  function Once(d: Db, commitOk: nat -> bool, libs: Libraries, fleet: Fleet, round: nat, now: int): (r: (Db, Report))
    requires Consistent(d)
    ensures Consistent(r.0)
  {
    var sweep := OnceAll(d, BuiltinClasses(libs), fleet, round, now, d.session.ids);
    var c := Commit(sweep.db, commitOk);
    var db := if c.1 then c.0 else Rollback(c.0);
    (db, Report(sweep.successCount, sweep.errorCount, c.1))
  }

  /** `collect_once`, round `round` of the sensors' behaviour, at clock reading `now`. */
  method CollectOnceRun(libs: Libraries, fleet: Fleet, db: Database, round: nat, now: int) returns (report: Report)
    requires db.Valid()
    modifies db
    ensures db.Valid()
    ensures (db.state, report) == Once(old(db.state), db.commitOk, libs, fleet, round, now)
  {
    var registry := new SensorRegistry(libs);
    var successCount, errorCount := ReadRows(registry, fleet, db, round, now);
    var saved := db.CommitSession();
    if !saved {
      db.RollbackSession();
    }
    report := Report(successCount, errorCount, saved);
  }

  /** The loop over `Sensor.query.all()`: every row read in table order and counted. */
  method ReadRows(registry: SensorRegistry, fleet: Fleet, db: Database, round: nat, now: int)
    returns (successCount: nat, errorCount: nat)
    requires db.Valid()
    modifies db
    ensures db.Valid()
    ensures Sweep(db.state, successCount, errorCount)
            == OnceAll(old(db.state), registry.classes, fleet, round, now, old(db.state).session.ids)
  {
    var ids := db.state.session.ids;
    var records := db.state.session.records;
    ghost var classes := registry.classes;
    ghost var target := OnceAll(db.state, classes, fleet, round, now, ids);
    successCount, errorCount := 0, 0;
    var i := 0;
    assert ids[0..] == ids;
    while i < |ids|
      invariant 0 <= i <= |ids|
      invariant db.Valid() && db.state.session.ids == ids && db.state.session.records == records
      invariant target.db == OnceAll(db.state, classes, fleet, round, now, ids[i..]).db
      invariant target.successCount == successCount + OnceAll(db.state, classes, fleet, round, now, ids[i..]).successCount
      invariant target.errorCount == errorCount + OnceAll(db.state, classes, fleet, round, now, ids[i..]).errorCount
    {
      successCount, errorCount := CountRow(registry, fleet, db, round, now, ids, i, successCount, errorCount);
      i := i + 1;
    }
    assert ids[i..] == [];
  }

  /** One turn of the loop: the row at position `i` read, and one of the two counters bumped. */
  method CountRow(registry: SensorRegistry, fleet: Fleet, db: Database, round: nat, now: int, ids: seq<string>, i: nat,
                  successCount: nat, errorCount: nat)
    returns (successCount': nat, errorCount': nat)
    requires db.Valid() && i < |ids| && forall k :: k in ids ==> k in db.state.session.records
    modifies db
    ensures db.Valid()
    ensures db.state.session.ids == old(db.state.session.ids) && db.state.session.records == old(db.state.session.records)
    ensures successCount' + errorCount' == successCount + errorCount + 1
    ensures successCount' >= successCount && errorCount' >= errorCount
    ensures var here := OnceAll(old(db.state), registry.classes, fleet, round, now, ids[i..]);
            var rest := OnceAll(db.state, registry.classes, fleet, round, now, ids[i + 1..]);
            here == Sweep(rest.db, successCount' - successCount + rest.successCount, errorCount' - errorCount + rest.errorCount)
  {
    ghost var before := db.state;
    var ok := ReadRow(registry, fleet, db, round, now, ids[i], db.state.session.records[ids[i]]);
    OnceAllStep(before, db.state, ok, registry.classes, fleet, round, now, ids, i);
    successCount', errorCount' := successCount, errorCount;
    if ok {
      successCount' := successCount + 1;
    } else {
      errorCount' := errorCount + 1;
    }
  }

  /** The body of the loop for one row: a reading added on success, and whether it was one. */
  method ReadRow(registry: SensorRegistry, fleet: Fleet, db: Database, round: nat, now: int, id: string, rec: SensorRecord)
    returns (ok: bool)
    requires db.Valid()
    modifies db
    ensures db.Valid()
    ensures var s := OnceRow(old(db.state), registry.classes, fleet, round, now, id, rec);
            db.state == s.db && ok == s.failure.None?
  {
    var config := Collector.CollectConfig(rec);
    var cls := registry.GetSensorClass(rec.sensorType);
    if cls.None? {
      return false;
    }
    var inst := Instance(cls.value, id, config);
    if !fleet.constructs(inst) {
      return false;
    }
    var read := fleet.readings(inst, round);
    if read.Err? {
      return false;
    }
    var data := read.value;
    if Collector.Succeeded(data) {
      db.Add(Extract(id, rec.sensorType, data, now));
      ok := true;
    } else {
      ok := false;
    }
  }

  // ---------------------------------------------------------------------------
  // Properties

  /** One turn of the loop over the rows: the row at position `i` visited and counted. */
  lemma OnceAllStep(before: Db, after: Db, ok: bool, classes: map<string, SensorClass>, fleet: Fleet,
                    round: nat, now: int, ids: seq<string>, i: nat)
    requires Consistent(before) && forall k :: k in ids ==> k in before.session.records
    requires i < |ids|
    requires var s := OnceRow(before, classes, fleet, round, now, ids[i], before.session.records[ids[i]]);
             after == s.db && ok == s.failure.None?
    ensures var here := OnceAll(before, classes, fleet, round, now, ids[i..]);
            var rest := OnceAll(after, classes, fleet, round, now, ids[i + 1..]);
            here.db == rest.db
            && here.successCount == rest.successCount + (if ok then 1 else 0)
            && here.errorCount == rest.errorCount + (if ok then 0 else 1)
  {
    assert ids[i..][1..] == ids[i + 1..];
  }

  /** Every row is counted exactly once: `success_count + error_count` is the number of rows. */
  lemma {:induction false} CountsCoverRows(d: Db, classes: map<string, SensorClass>, fleet: Fleet, round: nat,
                                           now: int, ids: seq<string>)
    requires Consistent(d) && forall k :: k in ids ==> k in d.session.records
    ensures var r := OnceAll(d, classes, fleet, round, now, ids);
            r.successCount + r.errorCount == |ids|
    decreases |ids|
  {
    if ids != [] {
      var s := OnceRow(d, classes, fleet, round, now, ids[0], d.session.records[ids[0]]);
      CountsCoverRows(s.db, classes, fleet, round, now, ids[1..]);
    }
  }

  /** Each success adds exactly one reading and nothing else adds any. */
  lemma {:induction false} ReadingsMatchSuccesses(d: Db, classes: map<string, SensorClass>, fleet: Fleet, round: nat,
                                                  now: int, ids: seq<string>)
    requires Consistent(d) && forall k :: k in ids ==> k in d.session.records
    ensures var r := OnceAll(d, classes, fleet, round, now, ids);
            |r.db.session.readings| == |d.session.readings| + r.successCount
            && r.db.session.readings[..|d.session.readings|] == d.session.readings
    decreases |ids|
  {
    if ids != [] {
      var s := OnceRow(d, classes, fleet, round, now, ids[0], d.session.records[ids[0]]);
      ReadingsMatchSuccesses(s.db, classes, fleet, round, now, ids[1..]);
      var r := OnceAll(s.db, classes, fleet, round, now, ids[1..]);
      assert r.db.session.readings[..|s.db.session.readings|] == s.db.session.readings;
      assert |s.db.session.readings| >= |d.session.readings|;
      assert s.db.session.readings[..|d.session.readings|] == d.session.readings;
      assert r.db.session.readings[..|d.session.readings|]
          == r.db.session.readings[..|s.db.session.readings|][..|d.session.readings|];
    }
  }

  /** Over a whole run: the counters add up to the rows of the table, whether or not the commit went through. */
  lemma CountsAddUp(d: Db, commitOk: nat -> bool, libs: Libraries, fleet: Fleet, round: nat, now: int)
    requires Consistent(d)
    ensures var r := Once(d, commitOk, libs, fleet, round, now).1;
            r.successCount + r.errorCount == |d.session.ids|
  {
    CountsCoverRows(d, BuiltinClasses(libs), fleet, round, now, d.session.ids);
  }

  /** A row whose type has no class is counted as an error and adds no reading. */
  lemma UnknownTypeIsError(d: Db, classes: map<string, SensorClass>, fleet: Fleet, round: nat, now: int,
                           id: string, rec: SensorRecord)
    requires Consistent(d) && Lower(rec.sensorType) !in classes
    ensures OnceRow(d, classes, fleet, round, now, id, rec) == Step(d, Some(NoClass))
  {
  }

  /** The fresh registry has no MPU6050 class, so every MPU6050 row counts as an error. */
  lemma Mpu6050CountedAsError(d: Db, libs: Libraries, fleet: Fleet, round: nat, now: int, id: string, rec: SensorRecord)
    requires Consistent(d) && Lower(rec.sensorType) == "mpu6050"
    ensures OnceRow(d, BuiltinClasses(libs), fleet, round, now, id, rec) == Step(d, Some(NoClass))
  {
    MpuNeverBuiltin(libs, rec.sensorType);
  }

  /**
   * The outcome of one read of a known, constructible sensor: a non-empty
   * result without `'error'` adds exactly its extracted reading, and every
   * other result or exception adds nothing.
   */
  lemma ReadOutcome(d: Db, classes: map<string, SensorClass>, fleet: Fleet, round: nat, now: int,
                    id: string, rec: SensorRecord)
    requires Consistent(d) && Lower(rec.sensorType) in classes
    ensures var read := fleet.readings(Instance(classes[Lower(rec.sensorType)], id, Collector.CollectConfig(rec)), round);
            var s := OnceRow(d, classes, fleet, round, now, id, rec);
            && (s.failure.None? <==> fleet.constructs(Instance(classes[Lower(rec.sensorType)], id, Collector.CollectConfig(rec)))
                                     && read.Ok? && read.value != map[] && "error" !in read.value)
            && (s.failure.None? ==> s.db.session.readings == d.session.readings + [Extract(id, rec.sensorType, read.value, now)])
            && (s.failure.Some? ==> s.db == d)
  {
  }

  /**
   * Field extraction: a nested dict under `'data'` gives temperature,
   * humidity and pressure with the light fields left empty; otherwise all
   * five fields come from the top level.
   */
  lemma ExtractFields(id: string, t: string, r: Dict, now: int)
    ensures var x := Extract(id, t, r, now);
            && x.status == Active && x.errorMessage == Null && x.timestamp == Stamp(now)
            && ("data" in r && r["data"].Mapping? ==>
                  var n := r["data"].entries;
                  && x.temperature == Get(n, "temperature", Null) && x.humidity == Get(n, "humidity", Null)
                  && x.pressure == Get(n, "pressure", Null) && x.lightLevel == Null && x.irLevel == Null
                  && x.data == r["data"])
            && (!("data" in r && r["data"].Mapping?) ==>
                  && x.temperature == Get(r, "temperature", Null) && x.humidity == Get(r, "humidity", Null)
                  && x.pressure == Get(r, "pressure", Null) && x.lightLevel == Get(r, "light_level", Null)
                  && x.irLevel == Get(r, "ir_level", Null) && x.data == Mapping(r))
  {
  }

  /** The configuration is `{'i2c_address': ...}` overlaid with the calibration data, whose keys win. */
  lemma CalibrationWins(rec: SensorRecord, k: string)
    requires rec.calibrationData.Some? && k in rec.calibrationData.value
    ensures Collector.CollectConfig(rec)[k] == rec.calibrationData.value[k]
  {
  }

  /** A failed commit is rolled back: nothing from the run is visible, and the run still reports its counters. */
  lemma FailedCommitReported(d: Db, commitOk: nat -> bool, libs: Libraries, fleet: Fleet, round: nat, now: int)
    requires Consistent(d) && !commitOk(d.commits)
    ensures var (e, r) := Once(d, commitOk, libs, fleet, round, now);
            !r.saved && e.session == d.committed && e.committed == d.committed
  {
  }

  /**
   * The run is saved exactly when the database is reached and accepts the
   * swept session, and a saved run makes the readings of exactly the
   * successes durable.
   */
  lemma SavedReadings(d: Db, commitOk: nat -> bool, libs: Libraries, fleet: Fleet, round: nat, now: int)
    requires Consistent(d)
    ensures var (e, r) := Once(d, commitOk, libs, fleet, round, now);
            var swept := OnceAll(d, BuiltinClasses(libs), fleet, round, now, d.session.ids).db;
            && (r.saved <==> Accepts(swept, commitOk))
            && (r.saved ==> e.committed == swept.session && |e.committed.readings| == |d.session.readings| + r.successCount)
  {
    ReadingsMatchSuccesses(d, BuiltinClasses(libs), fleet, round, now, d.session.ids);
  }
}
