/**
 * The configuration and readings store: the `sensors` table (rows in
 * insertion order, the order `Sensor.query.all()` returns) and the
 * `sensor_readings` table, seen through a session whose changes become
 * durable only when a commit succeeds. Whether the n-th commit reaches the
 * database is a constant of the store; it also fails when a row breaks the
 * schema. A failed commit leaves the session as it was at the last
 * successful commit.
 */
module Store {
  import opened Values

  /**
   * A row of the `sensors` table without its primary key, which is the key
   * the row is stored under. Columns the core never reads or writes are left out.
   */
  datatype SensorRecord = SensorRecord(
    name: Value,
    sensorType: string,
    description: Value,
    i2cAddress: Value,
    gpioPin: Value,
    busNumber: Value,
    pollInterval: Value,
    enabled: bool,
    calibrationData: Option<Dict>,
    location: Value,
    updatedAt: Value,
    lastReadingAt: Value,
    status: Status,
    errorCount: Option<int>)

  /** A row of the `sensor_readings` table. */
  datatype Reading = Reading(
    sensorId: string,
    sensorType: string,
    timestamp: Value,
    temperature: Value,
    humidity: Value,
    pressure: Value,
    lightLevel: Value,
    irLevel: Value,
    data: Value,
    status: Status,
    errorMessage: Value)

  /** A reading with only the identifying columns set, as `SensorReading(...)` leaves the rest. */
  function BlankReading(sensorId: string, sensorType: string, timestamp: Value, status: Status): Reading {
    Reading(sensorId, sensorType, timestamp, Null, Null, Null, Null, Null, Null, status, Null)
  }

  /** The contents of both tables. */
  datatype Tables = Tables(ids: seq<string>, records: map<string, SensorRecord>, readings: seq<Reading>)

  /** `ids` lists the primary keys in insertion order. */
  ghost predicate WellFormed(t: Tables) {
    OrderedKeys(t.ids, t.records.Keys)
  }

  /** What a session holds: its own view, the last committed state, and how many commits were tried. */
  datatype Db = Db(session: Tables, committed: Tables, commits: nat)

  ghost predicate Consistent(d: Db) {
    WellFormed(d.session) && WellFormed(d.committed)
  }

  /** The rows of the `sensors` table as the session sees them, in table order. */
  function Rows(t: Tables): (r: seq<SensorRecord>)
    requires WellFormed(t)
    ensures |r| == |t.ids|
    ensures forall i :: 0 <= i < |r| ==> r[i] == t.records[t.ids[i]]
  {
    seq(|t.ids|, i requires 0 <= i < |t.ids| => t.records[t.ids[i]])
  }

  /** `session.add(row)` for a new row, or attribute assignments on a loaded one. */
  function Put(d: Db, id: string, rec: SensorRecord): (r: Db)
    requires Consistent(d)
    ensures Consistent(r)
    ensures r.session.records == d.session.records[id := rec]
    ensures r.session.ids == InsertKey(d.session.ids, id)
    ensures r.session.readings == d.session.readings
    ensures r.committed == d.committed && r.commits == d.commits
  {
    InsertKeyOrdered(d.session.ids, d.session.records.Keys, id);
    var s := d.session;
    d.(session := s.(ids := InsertKey(s.ids, id), records := s.records[id := rec]))
  }

  /** `session.add(reading)` */
  function AddReading(d: Db, reading: Reading): (r: Db)
    requires Consistent(d)
    ensures Consistent(r)
    ensures r.session.readings == d.session.readings + [reading]
    ensures r.session.ids == d.session.ids && r.session.records == d.session.records
    ensures r.committed == d.committed && r.commits == d.commits
  {
    d.(session := d.session.(readings := d.session.readings + [reading]))
  }

  /**
   * What the schema accepts: `sensors.name` is NOT NULL, and the JSON
   * `sensor_readings.data` column must serialise.
   */
  predicate Storable(t: Tables) {
    && (forall id {:trigger NameOf(t, id)} :: id in t.records ==> NameOf(t, id) != Null)
    && (forall i {:trigger DataAt(t, i)} :: 0 <= i < |t.readings| ==> JsonSafe(DataAt(t, i)))
  }

  function NameOf(t: Tables, id: string): Value
    requires id in t.records
  {
    t.records[id].name
  }

  function DataAt(t: Tables, i: int): Value
    requires 0 <= i < |t.readings|
  {
    t.readings[i].data
  }

  /** Writing a row that has a name keeps the session storable. */
  lemma PutStorable(d: Db, id: string, rec: SensorRecord)
    requires Consistent(d) && Storable(d.session) && rec.name != Null
    ensures Storable(Put(d, id, rec).session)
  {
    var t := Put(d, id, rec).session;
    forall k | k in t.records
      ensures NameOf(t, k) != Null
    {
      if k != id {
        assert NameOf(t, k) == NameOf(d.session, k);
      }
    }
    forall i | 0 <= i < |t.readings|
      ensures JsonSafe(DataAt(t, i))
    {
      assert DataAt(t, i) == DataAt(d.session, i);
    }
  }

  /**
   * A reading whose `data` the JSON column cannot serialise makes every
   * commit of the session it is in fail, which leaves the last committed
   * state.
   */
  lemma UnserialisableBlocksCommit(d: Db, commitOk: nat -> bool, i: int)
    requires Consistent(d) && 0 <= i < |d.session.readings| && !JsonSafe(d.session.readings[i].data)
    ensures var c := Commit(d, commitOk); !c.1 && c.0.session == d.committed && c.0.committed == d.committed
  {
    assert !JsonSafe(DataAt(d.session, i));
  }

  /** Adding a reading whose `data` serialises keeps the session storable. */
  lemma AddStorable(d: Db, reading: Reading)
    requires Consistent(d) && Storable(d.session) && JsonSafe(reading.data)
    ensures Storable(AddReading(d, reading).session)
  {
    var t := AddReading(d, reading).session;
    forall k | k in t.records
      ensures NameOf(t, k) != Null
    {
      assert NameOf(t, k) == NameOf(d.session, k);
    }
    forall i | 0 <= i < |t.readings|
      ensures JsonSafe(DataAt(t, i))
    {
      if i < |d.session.readings| {
        assert DataAt(t, i) == DataAt(d.session, i);
      }
    }
  }

  /** Whether the next commit goes through: the database is reachable and accepts the session's contents. */
  predicate Accepts(d: Db, commitOk: nat -> bool) {
    commitOk(d.commits) && Storable(d.session)
  }

  /**
   * `session.commit()`: on success the session's view becomes durable; on
   * failure (the database refuses, or a row breaks the schema) it is
   * discarded and the session is back at the last committed state.
   */
  function Commit(d: Db, commitOk: nat -> bool): (r: (Db, bool))
    requires Consistent(d)
    ensures Consistent(r.0)
    ensures r.1 == Accepts(d, commitOk) && r.0.commits == d.commits + 1
    ensures r.1 ==> r.0.session == d.session && r.0.committed == d.session
    ensures !r.1 ==> r.0.session == d.committed && r.0.committed == d.committed
  {
    if Accepts(d, commitOk) then (Db(d.session, d.session, d.commits + 1), true)
    else (Db(d.committed, d.committed, d.commits + 1), false)
  }

  /** The message of the exception a failed commit raises. */
  const CommitError := "database commit failed"

  /** `session.rollback()` */
  function Rollback(d: Db): (r: Db)
    requires Consistent(d)
    ensures Consistent(r)
    ensures r.session == d.committed && r.committed == d.committed && r.commits == d.commits
  {
    d.(session := d.committed)
  }

  /** An attribute change reaches the session only for an object the session still holds. */
  function Kept(d: Db, id: string, rec: SensorRecord): (r: Db)
    requires Consistent(d)
    ensures Consistent(r)
    ensures id in d.session.records ==> r == Put(d, id, rec)
    ensures id !in d.session.records ==> r == d
  {
    if id in d.session.records then Put(d, id, rec) else d
  }

  /** A commit that succeeds makes exactly the session's view durable; one that fails loses all of it. */
  lemma CommitAllOrNothing(d: Db, commitOk: nat -> bool)
    requires Consistent(d)
    ensures var (e, ok) := Commit(d, commitOk);
            e.committed == (if ok then d.session else d.committed) && e.session == e.committed
  {
  }

  /** The database as a mutable object. */
  class Database {
    /** Whether the n-th commit reaches the database. */
    const commitOk: nat -> bool
    var state: Db

    ghost predicate Valid()
      reads this
    {
      Consistent(state)
    }

    constructor (commitOk: nat -> bool, initial: Tables)
      requires WellFormed(initial)
      ensures Valid()
      ensures this.commitOk == commitOk && state == Db(initial, initial, 0)
    {
      this.commitOk := commitOk;
      state := Db(initial, initial, 0);
    }

    /** `Sensor.query.get(id)` / `Sensor.query.filter_by(id=id).first()` */
    function Find(id: string): (r: Option<SensorRecord>)
      reads this
      ensures r.Some? <==> id in state.session.records
      ensures r.Some? ==> r.value == state.session.records[id]
    {
      if id in state.session.records then Some(state.session.records[id]) else None
    }

    method Save(id: string, rec: SensorRecord)
      requires Valid()
      modifies this
      ensures Valid()
      ensures state == Put(old(state), id, rec)
    {
      state := Put(state, id, rec);
    }

    method Add(reading: Reading)
      requires Valid()
      modifies this
      ensures Valid()
      ensures state == AddReading(old(state), reading)
    {
      state := AddReading(state, reading);
    }

    method CommitSession() returns (ok: bool)
      requires Valid()
      modifies this
      ensures Valid()
      ensures (state, ok) == Commit(old(state), commitOk)
    {
      var r := Commit(state, commitOk);
      state := r.0;
      ok := r.1;
    }

    method RollbackSession()
      requires Valid()
      modifies this
      ensures Valid()
      ensures state == Rollback(old(state))
    {
      state := Rollback(state);
    }
  }
}
