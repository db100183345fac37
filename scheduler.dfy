/**
 * `start-scheduler`: the enabled rows are turned into sensor objects through
 * the registry, those that answer `is_available()` at startup are polled in
 * cycles, each read either adds a reading and marks the row `active` or
 * bumps the row's error count, and each cycle ends with one commit and a
 * wait of 30 s (5 s after a failed commit). The loop runs until a
 * `KeyboardInterrupt`, modelled as a number of cycles.
 */
module Scheduler {
  import opened Values
  import opened Store
  import opened Registry
  import opened Sensors

  /** The calibration keys copied into a sensor's config. */
  const CalibrationKeys: set<string> := {"mux_address", "mux_channel", "mock_mode"}

  /** The config a row is instantiated with. */
  function SchedulerConfig(rec: SensorRecord): (r: Dict)
    ensures "i2c_address" in r && r["i2c_address"] == rec.i2cAddress
    ensures "bus_number" in r && r["bus_number"] == Or(rec.busNumber, Int(1))
    ensures "poll_interval" in r && r["poll_interval"] == Or(rec.pollInterval, Int(30))
    ensures forall k :: k in CalibrationKeys ==>
              (k in r <==> rec.calibrationData.Some? && k in rec.calibrationData.value)
    ensures forall k :: k in CalibrationKeys && k in r ==> r[k] == rec.calibrationData.value[k]
    ensures forall k :: k in r ==> k in CalibrationKeys || k in {"i2c_address", "bus_number", "poll_interval"}
  {
    var base := map["i2c_address" := rec.i2cAddress, "bus_number" := Or(rec.busNumber, Int(1)),
                     "poll_interval" := Or(rec.pollInterval, Int(30))];
    match rec.calibrationData
    case None => base
    case Some(cal) => base + map k | k in cal && k in CalibrationKeys :: cal[k]
  }

  predicate Distinct(s: seq<string>) {
    forall i, j :: 0 <= i < j < |s| ==> s[i] != s[j]
  }

  /** `Sensor.query.filter_by(enabled=True).all()`: the enabled rows' ids in table order. */
  function EnabledAmong(ids: seq<string>, records: map<string, SensorRecord>): (r: seq<string>)
    requires forall k :: k in ids ==> k in records
    ensures forall k :: k in r <==> k in ids && records[k].enabled
    ensures Distinct(ids) ==> Distinct(r)
    decreases |ids|
  {
    if ids == [] then []
    else if records[ids[0]].enabled then [ids[0]] + EnabledAmong(ids[1..], records)
    else EnabledAmong(ids[1..], records)
  }

  /** A sensor kept for polling: its id and its object. */
  datatype Entry = Entry(sensorId: string, instance: Instance)

  function IdsOf(es: seq<Entry>): (r: seq<string>)
    ensures |r| == |es| && forall i :: 0 <= i < |es| ==> r[i] == es[i].sensorId
  {
    seq(|es|, i requires 0 <= i < |es| => es[i].sensorId)
  }

  /** One enabled row: kept when `create_sensor` gives an object whose startup `is_available()` returns `True`. */
  function Admitted(classes: map<string, SensorClass>, fleet: Fleet, id: string, rec: SensorRecord): (r: seq<Entry>)
    ensures |r| <= 1 && forall e :: e in r ==> e.sensorId == id
  {
    match Create(classes, fleet, rec.sensorType, id, SchedulerConfig(rec))
    case None => []
    case Some(inst) => if fleet.available(inst, 0) == Ok(true) then [Entry(id, inst)] else []
  }

  /** The `sensor_instances` dict, in the order the enabled rows were visited. */
  function ReadyAmong(classes: map<string, SensorClass>, fleet: Fleet, ids: seq<string>,
                      records: map<string, SensorRecord>): (r: seq<Entry>)
    requires forall k :: k in ids ==> k in records
    ensures forall i :: 0 <= i < |r| ==> r[i].sensorId in ids
    decreases |ids|
  {
    if ids == [] then []
    else Admitted(classes, fleet, ids[0], records[ids[0]]) + ReadyAmong(classes, fleet, ids[1..], records)
  }

  // ---------------------------------------------------------------------------
  // One read

  /** `reading['data']` when the key exists, else the whole dict. */
  function Payload(r: Dict): Value {
    if "data" in r then r["data"] else Mapping(r)
  }

  /**
   * Values `format(v, '.0f')` and `format(v, '.2f')` accept: numbers, `bool`
   * among them, `time.time()` floats, and a `datetime`, whose `strftime`
   * copies the format text.
   */
  predicate FloatFormattable(v: Value) {
    v.Bool? || v.Int? || v.Centi? || v.Unmodelled? || v.Epoch? || v.Stamp?
  }

  /** Whether printing the summary line for a payload succeeds. */
  predicate Displays(data: Dict) {
    var light := Get(data, "light_level", Null);
    var ir := Get(data, "ir_level", Null);
    if light != Null && ir != Null then FloatFormattable(light) && FloatFormattable(ir)
    else if light != Null then FloatFormattable(light)
    else true
  }

  /** The `SensorReading` built from a payload. */
  function ReadingOf(e: Entry, data: Dict, now: int): Reading {
    Reading(e.sensorId, SensorType(e.instance.cls.name), Stamp(now),
            Get(data, "temperature", Null), Get(data, "humidity", Null), Get(data, "pressure", Null),
            Get(data, "light_level", Null), Get(data, "ir_level", Null), Mapping(data), Active, Null)
  }

  /** `error_count = (error_count or 0) + 1` and status `error`. */
  function Penalized(rec: SensorRecord): SensorRecord {
    rec.(errorCount := Some(rec.errorCount.GetOr(0) + 1), status := Error)
  }

  /** The row after a stored reading. */
  function Refreshed(rec: SensorRecord, now: int): SensorRecord {
    rec.(lastReadingAt := Stamp(now), status := Active, errorCount := Some(0))
  }

  /** The reading one `read()` adds, if any. */
  function Recorded(e: Entry, read: Result<Dict>, now: int): Option<Reading> {
    if read.Err? || read.value == map[] then None
    else
      match Payload(read.value)
      case Mapping(data) => Some(ReadingOf(e, data, now))
      case _ => None
  }

  /**
   * What one `read()` does to the sensor's row: a raise (also the
   * `AttributeError` of a payload that is not a dict) bumps the count; a
   * stored reading refreshes the row, and a summary line that fails to print
   * bumps the refreshed count on top; an empty dict changes nothing.
   */
  function Touched(rec: SensorRecord, read: Result<Dict>, now: int): SensorRecord {
    match read
    case Err(_) => Penalized(rec)
    case Ok(r) =>
      if r == map[] then rec
      else
        match Payload(r)
        case Mapping(data) => if Displays(data) then Refreshed(rec, now) else Penalized(Refreshed(rec, now))
        case _ => Penalized(rec)
  }

  /** One iteration of the inner loop, for an object whose `read()` gave `read`. */
  function PollOne(d: Db, e: Entry, read: Result<Dict>, now: int): (r: Db)
    requires Consistent(d)
    ensures Consistent(r) && r.committed == d.committed && r.commits == d.commits
    ensures r.session.records.Keys == d.session.records.Keys
  {
    var d1 := match Recorded(e, read, now) case Some(x) => AddReading(d, x) case None => d;
    if e.sensorId in d1.session.records then Put(d1, e.sensorId, Touched(d1.session.records[e.sensorId], read, now))
    else d1
  }

  /** The inner loop of a cycle, over the kept sensors in order. */
  function PollAll(d: Db, es: seq<Entry>, fleet: Fleet, cycle: nat, now: int): (r: Db)
    requires Consistent(d)
    ensures Consistent(r) && r.committed == d.committed && r.commits == d.commits
    ensures r.session.records.Keys == d.session.records.Keys
    decreases |es|
  {
    if es == [] then d
    else PollAll(PollOne(d, es[0], fleet.readings(es[0].instance, cycle), now), es[1..], fleet, cycle, now)
  }

  /** A cycle: the inner loop, one commit, and the wait that follows. */
  function CycleOf(d: Db, commitOk: nat -> bool, es: seq<Entry>, fleet: Fleet, cycle: nat, now: int): (r: (Db, int))
    requires Consistent(d)
    ensures Consistent(r.0)
  {
    var c := Commit(PollAll(d, es, fleet, cycle, now), commitOk);
    (c.0, if c.1 then 30 else 5)
  }

  /** The first `n` cycles; cycle `c` reads the clock as `clock(c)`. */
  function RunCycles(d: Db, commitOk: nat -> bool, es: seq<Entry>, fleet: Fleet, clock: nat -> int, n: nat)
    : (r: (Db, seq<int>))
    requires Consistent(d)
    ensures Consistent(r.0) && |r.1| == n
  {
    if n == 0 then (d, [])
    else
      var p := RunCycles(d, commitOk, es, fleet, clock, n - 1);
      var c := CycleOf(p.0, commitOk, es, fleet, n - 1, clock(n - 1));
      (c.0, p.1 + [c.1])
  }

  /** How the command ends. */
  datatype Outcome = NoEnabledSensors | NoneAvailable | Stopped(polled: seq<Entry>, waits: seq<int>)

  /** The kept sensors for the session's rows. */
  function Ready(classes: map<string, SensorClass>, fleet: Fleet, t: Tables): seq<Entry>
    requires WellFormed(t)
  {
    ReadyAmong(classes, fleet, EnabledAmong(t.ids, t.records), t.records)
  }

  /** `start_scheduler`, interrupted after `cycles` cycles. */
  function Schedule(d: Db, commitOk: nat -> bool, classes: map<string, SensorClass>, fleet: Fleet,
                    clock: nat -> int, cycles: nat): (r: (Db, Outcome))
    requires Consistent(d)
    ensures Consistent(r.0)
  {
    if EnabledAmong(d.session.ids, d.session.records) == [] then (d, NoEnabledSensors)
    else
      var es := Ready(classes, fleet, d.session);
      if es == [] then (d, NoneAvailable)
      else
        var run := RunCycles(d, commitOk, es, fleet, clock, cycles);
        (run.0, Stopped(es, run.1))
  }

  // ---------------------------------------------------------------------------
  // The command

  method StartScheduler(registry: SensorRegistry, fleet: Fleet, db: Database, clock: nat -> int, cycles: nat)
    returns (outcome: Outcome)
    requires db.Valid()
    modifies db
    ensures db.Valid()
    ensures (db.state, outcome) == Schedule(old(db.state), db.commitOk, registry.classes, fleet, clock, cycles)
  {
    var enabled := EnabledAmong(db.state.session.ids, db.state.session.records);
    if enabled == [] {
      return NoEnabledSensors;
    }
    var instances := Instantiate(registry, fleet, enabled, db.state.session.records);
    if instances == [] {
      return NoneAvailable;
    }
    ghost var d0 := db.state;
    var waits: seq<int> := [];
    var c := 0;
    while c < cycles
      invariant 0 <= c <= cycles
      invariant db.Valid()
      invariant (db.state, waits) == RunCycles(d0, db.commitOk, instances, fleet, clock, c)
    {
      var wait := PollCycle(db, instances, fleet, c, clock(c));
      waits := waits + [wait];
      c := c + 1;
    }
    outcome := Stopped(instances, waits);
  }

  /** The loop that builds `sensor_instances`. */
  method Instantiate(registry: SensorRegistry, fleet: Fleet, enabled: seq<string>, records: map<string, SensorRecord>)
    returns (instances: seq<Entry>)
    requires forall k :: k in enabled ==> k in records
    ensures instances == ReadyAmong(registry.classes, fleet, enabled, records)
  {
    instances := [];
    var i := 0;
    assert enabled[0..] == enabled;
    while i < |enabled|
      invariant 0 <= i <= |enabled|
      invariant ReadyAmong(registry.classes, fleet, enabled, records)
                == instances + ReadyAmong(registry.classes, fleet, enabled[i..], records)
    {
      assert enabled[i..][1..] == enabled[i + 1..];
      var id := enabled[i];
      var rec := records[id];
      var instance := registry.CreateSensor(fleet, rec.sensorType, id, SchedulerConfig(rec));
      ghost var admitted := Admitted(registry.classes, fleet, id, rec);
      Assoc(instances, admitted, ReadyAmong(registry.classes, fleet, enabled[i + 1..], records));
      if instance.Some? && fleet.available(instance.value, 0) == Ok(true) {
        assert admitted == [Entry(id, instance.value)];
        instances := instances + [Entry(id, instance.value)];
      } else {
        assert admitted == [];
        assert instances + [] == instances;
      }
      i := i + 1;
    }
    assert enabled[i..] == [];
    assert instances + [] == instances;
  }

  /** One cycle: every kept sensor is read, then the session is committed once. */
  method PollCycle(db: Database, instances: seq<Entry>, fleet: Fleet, cycle: nat, now: int) returns (wait: int)
    requires db.Valid()
    modifies db
    ensures db.Valid()
    ensures (db.state, wait) == CycleOf(old(db.state), db.commitOk, instances, fleet, cycle, now)
  {
    ghost var target := PollAll(db.state, instances, fleet, cycle, now);
    var i := 0;
    assert instances[0..] == instances;
    while i < |instances|
      invariant 0 <= i <= |instances|
      invariant db.Valid()
      invariant target == PollAll(db.state, instances[i..], fleet, cycle, now)
    {
      assert instances[i..][1..] == instances[i + 1..];
      PollSensor(db, instances[i], fleet.readings(instances[i].instance, cycle), now);
      i := i + 1;
    }
    var ok := db.CommitSession();
    wait := if ok then 30 else 5;
  }

  /** The body of the inner loop for one sensor whose `read()` gave `read`. */
  method PollSensor(db: Database, e: Entry, read: Result<Dict>, now: int)
    requires db.Valid()
    modifies db
    ensures db.Valid()
    ensures db.state == PollOne(old(db.state), e, read, now)
  {
    if read.Err? {
      Penalize(db, e.sensorId);
      return;
    }
    var r := read.value;
    if r == map[] {
      EmptyReadIgnored(db.state, e, now);
      return;
    }
    var payload := if "data" in r then r["data"] else Mapping(r);
    if !payload.Mapping? {
      Penalize(db, e.sensorId);
      return;
    }
    StoreReading(db, e, r, payload.entries, now);
  }

  /** The inner loop's body once the payload is a dict: the reading, the row, and the summary line. */
  method StoreReading(db: Database, e: Entry, r: Dict, data: Dict, now: int)
    requires db.Valid() && r != map[] && Payload(r) == Mapping(data)
    modifies db
    ensures db.Valid()
    ensures db.state == PollOne(old(db.state), e, Ok(r), now)
  {
    db.Add(ReadingOf(e, data, now));
    ghost var added := db.state;
    var row := db.Find(e.sensorId);
    if row.Some? {
      db.Save(e.sensorId, Refreshed(row.value, now));
    }
    if !Displays(data) {
      Penalize(db, e.sensorId);
      if row.Some? {
        PutTwice(added, e.sensorId, Refreshed(row.value, now), Penalized(Refreshed(row.value, now)));
      }
    }
  }

  /** The `except` branch of the inner loop. */
  method Penalize(db: Database, id: string)
    requires db.Valid()
    modifies db
    ensures db.Valid()
    ensures id in old(db.state.session.records) ==>
              db.state == Put(old(db.state), id, Penalized(old(db.state.session.records[id])))
    ensures id !in old(db.state.session.records) ==> db.state == old(db.state)
  {
    var row := db.Find(id);
    if row.Some? {
      db.Save(id, Penalized(row.value));
    }
  }

  lemma PutSame(d: Db, id: string)
    requires Consistent(d) && id in d.session.records
    ensures Put(d, id, d.session.records[id]) == d
  {
    assert d.session.records[id := d.session.records[id]] == d.session.records;
  }

  lemma PutTwice(d: Db, id: string, a: SensorRecord, b: SensorRecord)
    requires Consistent(d)
    ensures Put(Put(d, id, a), id, b) == Put(d, id, b)
  {
    assert d.session.records[id := a][id := b] == d.session.records[id := b];
  }

  // ---------------------------------------------------------------------------
  // Properties

  /**
   * Exactly the enabled rows whose object `create_sensor` returns and whose
   * startup `is_available()` returns `True` are polled.
   */
  lemma PolledExactly(classes: map<string, SensorClass>, fleet: Fleet, t: Tables, id: string)
    requires WellFormed(t)
    ensures id in IdsOf(Ready(classes, fleet, t)) <==>
              && id in t.records && t.records[id].enabled
              && var inst := Create(classes, fleet, t.records[id].sensorType, id, SchedulerConfig(t.records[id]));
                 inst.Some? && fleet.available(inst.value, 0) == Ok(true)
  {
    ReadyMembers(classes, fleet, EnabledAmong(t.ids, t.records), t.records, id);
  }

  lemma {:induction false} ReadyMembers(classes: map<string, SensorClass>, fleet: Fleet, ids: seq<string>,
                                        records: map<string, SensorRecord>, id: string)
    requires forall k :: k in ids ==> k in records
    ensures id in IdsOf(ReadyAmong(classes, fleet, ids, records)) <==>
              id in ids && Admitted(classes, fleet, id, records[id]) != []
    decreases |ids|
  {
    if ids != [] {
      ReadyMembers(classes, fleet, ids[1..], records, id);
      var first := Admitted(classes, fleet, ids[0], records[ids[0]]);
      IdsOfAppend(first, ReadyAmong(classes, fleet, ids[1..], records));
      SingleIds(first, ids[0], id);
      HeadOrTail(ids, id);
    }
  }

  lemma SingleIds(es: seq<Entry>, x: string, id: string)
    requires |es| <= 1 && forall e :: e in es ==> e.sensorId == x
    ensures id in IdsOf(es) <==> id == x && es != []
  {
    if es != [] {
      assert IdsOf(es) == [x];
    }
  }

  lemma HeadOrTail(ids: seq<string>, id: string)
    requires ids != []
    ensures id in ids <==> id == ids[0] || id in ids[1..]
  {
    assert ids == [ids[0]] + ids[1..];
  }

  lemma IdsOfAppend(a: seq<Entry>, b: seq<Entry>)
    ensures IdsOf(a + b) == IdsOf(a) + IdsOf(b)
  {
  }

  /** Every polled object is the one `create_sensor` made from its own row's config. */
  lemma {:induction false} ReadyFromRows(classes: map<string, SensorClass>, fleet: Fleet, ids: seq<string>,
                                         records: map<string, SensorRecord>, e: Entry)
    requires forall k :: k in ids ==> k in records
    requires e in ReadyAmong(classes, fleet, ids, records)
    ensures e.sensorId in records
    ensures Create(classes, fleet, records[e.sensorId].sensorType, e.sensorId, SchedulerConfig(records[e.sensorId]))
            == Some(e.instance)
    ensures fleet.available(e.instance, 0) == Ok(true)
    decreases |ids|
  {
    var first := Admitted(classes, fleet, ids[0], records[ids[0]]);
    if e !in first {
      ReadyFromRows(classes, fleet, ids[1..], records, e);
    }
  }

  /** Distinct rows give distinct kept sensors. */
  lemma {:induction false} ReadyDistinct(classes: map<string, SensorClass>, fleet: Fleet, ids: seq<string>,
                                         records: map<string, SensorRecord>)
    requires forall k :: k in ids ==> k in records
    requires Distinct(ids)
    ensures Distinct(IdsOf(ReadyAmong(classes, fleet, ids, records)))
    decreases |ids|
  {
    if ids != [] {
      ReadyDistinct(classes, fleet, ids[1..], records);
      var first := Admitted(classes, fleet, ids[0], records[ids[0]]);
      var rest := ReadyAmong(classes, fleet, ids[1..], records);
      IdsOfAppend(first, rest);
      if first != [] {
        assert ids[0] !in ids[1..];
        forall i | 0 <= i < |rest|
          ensures rest[i].sensorId != ids[0]
        {
          assert rest[i].sensorId in ids[1..];
        }
      }
    }
  }

  /** The polled sensors have distinct ids, so the isolation below applies to every cycle. */
  lemma ReadyIsDistinct(classes: map<string, SensorClass>, fleet: Fleet, t: Tables)
    requires WellFormed(t)
    ensures Distinct(IdsOf(Ready(classes, fleet, t)))
  {
    ReadyDistinct(classes, fleet, EnabledAmong(t.ids, t.records), t.records);
  }

  /** A `read()` that raises: no reading, and the row's count goes up by one with status `error`. */
  lemma ReadRaises(d: Db, e: Entry, message: string, now: int)
    requires Consistent(d) && e.sensorId in d.session.records
    ensures var r := PollOne(d, e, Err(message), now);
            var rec := d.session.records[e.sensorId];
            && r.session.readings == d.session.readings
            && r.session.records == d.session.records[e.sensorId := rec.(errorCount := Some(rec.errorCount.GetOr(0) + 1), status := Error)]
  {
  }

  /**
   * A non-empty dict whose payload is a dict and prints: one reading with
   * the payload's values, and the row `active` with count 0 and the read time.
   */
  lemma ReadStored(d: Db, e: Entry, r: Dict, data: Dict, now: int)
    requires Consistent(d) && e.sensorId in d.session.records
    requires r != map[] && Payload(r) == Mapping(data) && Displays(data)
    ensures var after := PollOne(d, e, Ok(r), now);
            var rec := d.session.records[e.sensorId];
            && after.session.readings == d.session.readings + [ReadingOf(e, data, now)]
            && after.session.records == d.session.records[e.sensorId := rec.(lastReadingAt := Stamp(now), status := Active, errorCount := Some(0))]
  {
  }

  /** A read result that is an empty dict changes nothing. */
  lemma EmptyReadIgnored(d: Db, e: Entry, now: int)
    requires Consistent(d)
    ensures PollOne(d, e, Ok(map[]), now) == d
  {
    if e.sensorId in d.session.records {
      PutSame(d, e.sensorId);
    }
  }

  /** A stored reading whose summary line fails to print leaves the reading and a count of exactly 1, status `error`. */
  lemma DisplayFailureAfterStore(d: Db, e: Entry, r: Dict, data: Dict, now: int)
    requires Consistent(d) && e.sensorId in d.session.records
    requires r != map[] && Payload(r) == Mapping(data) && !Displays(data)
    ensures var after := PollOne(d, e, Ok(r), now);
            && after.session.readings == d.session.readings + [ReadingOf(e, data, now)]
            && after.session.records[e.sensorId].errorCount == Some(1)
            && after.session.records[e.sensorId].status == Error
            && after.session.records[e.sensorId].lastReadingAt == Stamp(now)
  {
  }

  /**
   * The `'error'` key is never looked at: a driver's error dict is stored as
   * an `active` reading with an empty payload, and the row becomes `active`.
   */
  lemma ErrorDictCountsAsActive(d: Db, e: Entry, message: string, now: int)
    requires Consistent(d) && e.sensorId in d.session.records
    ensures var after := PollOne(d, e, Ok(ErrorDict(e.sensorId, message)), now);
            && after.session.readings == d.session.readings + [ReadingOf(e, map[], now)]
            && ReadingOf(e, map[], now).data == Mapping(map[]) && ReadingOf(e, map[], now).status == Active
            && after.session.records[e.sensorId].status == Active
            && after.session.records[e.sensorId].errorCount == Some(0)
  {
    var r := ErrorDict(e.sensorId, message);
    assert "sensor_id" in r;
    assert Payload(r) == Mapping(map[]);
    ReadStored(d, e, r, map[], now);
  }

  /** One poll changes only its own sensor's row and keeps the set of rows. */
  lemma PollOneLocal(d: Db, e: Entry, read: Result<Dict>, now: int, id: string)
    requires Consistent(d) && id != e.sensorId
    ensures var r := PollOne(d, e, read, now);
            && r.session.records.Keys == d.session.records.Keys
            && (id in d.session.records ==> r.session.records[id] == d.session.records[id])
            && (e.sensorId in d.session.records ==>
                  r.session.records[e.sensorId] == Touched(d.session.records[e.sensorId], read, now))
  {
  }

  /**
   * Per-sensor isolation: after a whole cycle, a polled sensor's row is what
   * its own read alone makes of it, whatever the other sensors' reads gave.
   */
  lemma {:induction false} PollAllRow(d: Db, es: seq<Entry>, fleet: Fleet, cycle: nat, now: int, j: int)
    requires Consistent(d) && Distinct(IdsOf(es)) && 0 <= j < |es|
    requires es[j].sensorId in d.session.records
    ensures PollAll(d, es, fleet, cycle, now).session.records[es[j].sensorId] ==
            Touched(d.session.records[es[j].sensorId], fleet.readings(es[j].instance, cycle), now)
    decreases |es|
  {
    var d1 := PollOne(d, es[0], fleet.readings(es[0].instance, cycle), now);
    var id := es[j].sensorId;
    assert IdsOf(es[1..]) == IdsOf(es)[1..];
    if j == 0 {
      PollOneLocal(d, es[0], fleet.readings(es[0].instance, cycle), now, id + "#");
      forall k | 0 <= k < |es[1..]|
        ensures es[1..][k].sensorId != id
      {
        assert IdsOf(es)[k + 1] != IdsOf(es)[0];
      }
      PollAllOthers(d1, es[1..], fleet, cycle, now, id);
    } else {
      assert es[0].sensorId != id by { assert IdsOf(es)[0] != IdsOf(es)[j]; }
      PollOneLocal(d, es[0], fleet.readings(es[0].instance, cycle), now, id);
      PollAllRow(d1, es[1..], fleet, cycle, now, j - 1);
    }
  }

  /** A cycle leaves the rows of sensors it does not poll as they were, and keeps the set of rows. */
  lemma {:induction false} PollAllOthers(d: Db, es: seq<Entry>, fleet: Fleet, cycle: nat, now: int, id: string)
    requires Consistent(d)
    requires forall k :: 0 <= k < |es| ==> es[k].sensorId != id
    ensures PollAll(d, es, fleet, cycle, now).session.records.Keys == d.session.records.Keys
    ensures id in d.session.records ==> PollAll(d, es, fleet, cycle, now).session.records[id] == d.session.records[id]
    decreases |es|
  {
    if es != [] {
      PollOneLocal(d, es[0], fleet.readings(es[0].instance, cycle), now, id);
      PollAllOthers(PollOne(d, es[0], fleet.readings(es[0].instance, cycle), now), es[1..], fleet, cycle, now, id);
    }
  }

  /** The readings a cycle adds, one per stored read, in polling order. */
  function RecordedAll(es: seq<Entry>, fleet: Fleet, cycle: nat, now: int): (r: seq<Reading>)
    ensures |r| <= |es|
    decreases |es|
  {
    if es == [] then []
    else
      var rest := RecordedAll(es[1..], fleet, cycle, now);
      match Recorded(es[0], fleet.readings(es[0].instance, cycle), now)
      case Some(x) => [x] + rest
      case None => rest
  }

  /** A cycle appends exactly the stored reads' readings to the session, never more than one per sensor. */
  lemma {:induction false} PollAllReadings(d: Db, es: seq<Entry>, fleet: Fleet, cycle: nat, now: int)
    requires Consistent(d)
    ensures PollAll(d, es, fleet, cycle, now).session.readings == d.session.readings + RecordedAll(es, fleet, cycle, now)
    decreases |es|
  {
    if es == [] {
      assert d.session.readings + [] == d.session.readings;
    } else {
      var d1 := PollOne(d, es[0], fleet.readings(es[0].instance, cycle), now);
      PollAllReadings(d1, es[1..], fleet, cycle, now);
      match Recorded(es[0], fleet.readings(es[0].instance, cycle), now)
      case Some(x) =>
        Assoc(d.session.readings, [x], RecordedAll(es[1..], fleet, cycle, now));
      case None =>
    }
  }

  /**
   * Each cycle commits once: the wait is 30 s after a successful commit,
   * which makes the cycle's rows and readings durable, and 5 s after a
   * failed one (the database is unreachable or refuses the session), which
   * loses them.
   */
  lemma CycleCommitsOnce(d: Db, commitOk: nat -> bool, es: seq<Entry>, fleet: Fleet, cycle: nat, now: int)
    requires Consistent(d)
    ensures var (e, wait) := CycleOf(d, commitOk, es, fleet, cycle, now);
            var polled := PollAll(d, es, fleet, cycle, now);
            && e.commits == d.commits + 1
            && (Accepts(polled, commitOk) ==> wait == 30 && e.committed == polled.session)
            && (!Accepts(polled, commitOk) ==> wait == 5 && e.committed == d.committed)
  {
  }

  /** A read whose payload the JSON `data` column accepts (a raise stores nothing). */
  predicate Serialisable(read: Result<Dict>) {
    read.Err? || JsonSafe(Payload(read.value))
  }

  /** One read keeps the session storable when its payload serialises: the row keeps its name. */
  lemma PollOneStorable(d: Db, e: Entry, read: Result<Dict>, now: int)
    requires Consistent(d) && Storable(d.session) && Serialisable(read)
    ensures Storable(PollOne(d, e, read, now).session)
  {
    var d1 := match Recorded(e, read, now) case Some(x) => AddReading(d, x) case None => d;
    match Recorded(e, read, now) {
      case Some(x) => AddStorable(d, x);
      case None =>
    }
    if e.sensorId in d1.session.records {
      var rec := d1.session.records[e.sensorId];
      assert NameOf(d1.session, e.sensorId) == rec.name;
      PutStorable(d1, e.sensorId, Touched(rec, read, now));
    }
  }

  lemma {:induction false} PollAllStorable(d: Db, es: seq<Entry>, fleet: Fleet, cycle: nat, now: int)
    requires Consistent(d) && Storable(d.session)
    requires forall i :: 0 <= i < |es| ==> Serialisable(fleet.readings(es[i].instance, cycle))
    ensures Storable(PollAll(d, es, fleet, cycle, now).session)
    decreases |es|
  {
    if es != [] {
      PollOneStorable(d, es[0], fleet.readings(es[0].instance, cycle), now);
      forall i | 0 <= i < |es[1..]|
        ensures Serialisable(fleet.readings(es[1..][i].instance, cycle))
      {
        assert es[1..][i] == es[i + 1];
      }
      PollAllStorable(PollOne(d, es[0], fleet.readings(es[0].instance, cycle), now), es[1..], fleet, cycle, now);
    }
  }

  /**
   * When every payload of a cycle serialises, the cycle's commit fails only
   * when the database cannot be reached.
   */
  lemma SerialisableCycleCommits(d: Db, commitOk: nat -> bool, es: seq<Entry>, fleet: Fleet, cycle: nat, now: int)
    requires Consistent(d) && Storable(d.session)
    requires forall i :: 0 <= i < |es| ==> Serialisable(fleet.readings(es[i].instance, cycle))
    ensures var (e, wait) := CycleOf(d, commitOk, es, fleet, cycle, now);
            wait == (if commitOk(d.commits) then 30 else 5)
  {
    PollAllStorable(d, es, fleet, cycle, now);
  }
}
