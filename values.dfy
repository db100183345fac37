/**
 * The Python values the sensor hub passes around: `None`, booleans, integers,
 * strings, timestamps and (nested) dicts keyed by strings, plus the option and
 * result wrappers the model uses for missing values and raised exceptions.
 */
module Values {

  datatype Option<+T> = None | Some(value: T) {
    /** `x if x is not None else default` */
    function GetOr(default: T): T {
      match this
      case Some(v) => v
      case None => default
    }
  }

  /** The outcome of Python code that either returns a value or raises. */
  datatype Result<+T> = Ok(value: T) | Err(message: string)

  /**
   * A Python value. `Stamp(t)` is a `datetime`; `Epoch(t)` is a
   * `time.time()` float. `Centi(c)` is a float rounded to two decimals, `c`
   * hundredths; `Unmodelled` stands for a floating-point number computed by
   * code outside this model (random draws, the Magnus formula, unit scaling).
   */
  datatype Value =
    | Null
    | Bool(b: bool)
    | Int(i: int)
    | Str(s: string)
    | Stamp(t: int)
    | Epoch(t: int)
    | Mapping(entries: map<string, Value>)
    | Centi(c: int)
    | Unmodelled

  /** A Python `dict` with string keys. */
  type Dict = map<string, Value>

  /** Python truth value (`if v:`). An unmodelled float is taken as non-zero. */
  predicate Truthy(v: Value) {
    match v
    case Null => false
    case Bool(b) => b
    case Int(i) => i != 0
    case Str(s) => s != ""
    case Stamp(_) => true
    case Epoch(_) => true
    case Mapping(d) => d != map[]
    case Centi(c) => c != 0
    case Unmodelled => true
  }

  /**
   * Whether `json.dumps` accepts the value, as a JSON column needs: a
   * `datetime` anywhere inside makes it raise `TypeError`.
   */
  predicate JsonSafe(v: Value) {
    match v
    case Stamp(_) => false
    case Mapping(d) => forall k :: k in d ==> JsonSafe(d[k])
    case _ => true
  }

  /** `v or default` */
  function Or(v: Value, default: Value): (r: Value)
    ensures Truthy(v) ==> r == v
    ensures !Truthy(v) ==> r == default
  {
    if Truthy(v) then v else default
  }

  /** `d.get(key, default)` */
  function Get(d: Dict, key: string, default: Value): (r: Value)
    ensures key in d ==> r == d[key]
    ensures key !in d ==> r == default
  {
    if key in d then d[key] else default
  }

  /** The integer a value stands for when Python does arithmetic on it (`bool` is an `int`). */
  function IntOf(v: Value): (r: Option<int>)
    ensures r.Some? <==> (v.Int? || v.Bool?)
  {
    match v
    case Int(i) => Some(i)
    case Bool(b) => Some(if b then 1 else 0)
    case _ => None
  }

  /** `d.update(e)`: the keys of `e` win. */
  function Overlay(d: Dict, e: Dict): (r: Dict)
    ensures r.Keys == d.Keys + e.Keys
    ensures forall k :: k in e ==> r[k] == e[k]
    ensures forall k :: k in d && k !in e ==> r[k] == d[k]
  {
    d + e
  }

  // Insertion-ordered dicts: a key sequence alongside the map.

  /** `ks` lists the keys of a dict, each once. */
  ghost predicate OrderedKeys(ks: seq<string>, keys: set<string>) {
    && (forall i, j :: 0 <= i < j < |ks| ==> ks[i] != ks[j])
    && (forall k :: k in ks <==> k in keys)
  }

  /** The key order after `d[k] = v`: a new key goes last, an existing one keeps its place. */
  function InsertKey(ks: seq<string>, k: string): (r: seq<string>)
    ensures k in ks ==> r == ks
    ensures k !in ks ==> r == ks + [k]
  {
    if k in ks then ks else ks + [k]
  }

  lemma InsertKeyOrdered(ks: seq<string>, keys: set<string>, k: string)
    requires OrderedKeys(ks, keys)
    ensures OrderedKeys(InsertKey(ks, k), keys + {k})
  {
  }

  lemma Assoc<T>(a: seq<T>, b: seq<T>, c: seq<T>)
    ensures a + (b + c) == (a + b) + c
  {
  }

  /** `xs` in front of the sequence `r` carries, or the exception `r` raised. */
  function Prepend<T>(xs: seq<T>, r: Result<seq<T>>): Result<seq<T>> {
    if r.Ok? then Ok(xs + r.value) else r
  }

  lemma PrependNothing<T>(r: Result<seq<T>>)
    ensures Prepend([], r) == r
  {
    if r.Ok? {
      assert [] + r.value == r.value;
    }
  }

  lemma PrependPrepend<T>(a: seq<T>, b: seq<T>, r: Result<seq<T>>)
    ensures Prepend(a, Prepend(b, r)) == Prepend(a + b, r)
  {
    if r.Ok? {
      Assoc(a, b, r.value);
    }
  }

  /** The status strings the sensors and the configuration store use. */
  datatype Status = Unknown | Active | Error | Unavailable | Mock

  /** The string stored for a status. */
  function StatusName(s: Status): string {
    match s
    case Unknown => "unknown"
    case Active => "active"
    case Error => "error"
    case Unavailable => "unavailable"
    case Mock => "mock"
  }
}
