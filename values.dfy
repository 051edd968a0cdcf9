/**
 * The documents the system reads and writes: YAML dataset metadata,
 * attribute files and run configurations, as a tree of values.
 * Python's `==` on these values is `PyEq`: booleans, integers and floats
 * compare as numbers (`True == 1 == 1.0`), everything else structurally.
 */
module Values {
  import opened Wrappers
  import opened Text
  import opened PyLib

  datatype Value =
    | Null
    | Bool(b: bool)
    | Int(i: int)
    | Real(r: real)
    | Str(s: string)
    | List(items: seq<Value>)
    | Dict(entries: map<string, Value>)

  type Config = map<string, Value>

  predicate IsNumber(v: Value) {
    v.Bool? || v.Int? || v.Real?
  }

  /** The numeric value Python gives a bool, int or float. */
  function NumOf(v: Value): real
    requires IsNumber(v)
  {
    match v
    case Bool(b) => if b then 1.0 else 0.0
    case Int(i) => i as real
    case Real(r) => r
  }

  /**
   * `float(v)` on a configuration value: booleans, integers and floats
   * convert; anything else is refused (strings are not parsed).
   */
  function ToFloat(v: Value): (r: Result<real>)
    ensures r.Ok? <==> IsNumber(v)
    ensures r.Ok? ==> r.value == NumOf(v)
  {
    if IsNumber(v) then Ok(NumOf(v)) else Err(ValueError("could not convert to float"))
  }

  /** Python's `a == b` on YAML values. */
  predicate PyEq(a: Value, b: Value) {
    if IsNumber(a) && IsNumber(b) then NumOf(a) == NumOf(b)
    else match (a, b)
      case (Null, Null) => true
      case (Str(x), Str(y)) => x == y
      case (List(xs), List(ys)) =>
        |xs| == |ys| && forall i :: 0 <= i < |xs| ==> PyEq(xs[i], ys[i])
      case (Dict(m), Dict(n)) =>
        m.Keys == n.Keys && forall k :: k in m ==> PyEq(m[k], n[k])
      case _ => false
  }

  lemma {:induction false} PyEqReflexive(v: Value)
    ensures PyEq(v, v)
  {
    match v
    case List(xs) =>
      forall i | 0 <= i < |xs| ensures PyEq(xs[i], xs[i]) {
        PyEqReflexive(xs[i]);
      }
    case Dict(m) =>
      forall k | k in m ensures PyEq(m[k], m[k]) {
        PyEqReflexive(m[k]);
      }
    case _ =>
  }

  lemma {:induction false} PyEqSymmetric(a: Value, b: Value)
    requires PyEq(a, b)
    ensures PyEq(b, a)
  {
    if IsNumber(a) && IsNumber(b) {
    } else {
      match (a, b)
      case (List(xs), List(ys)) =>
        forall i | 0 <= i < |ys| ensures PyEq(ys[i], xs[i]) {
          PyEqSymmetric(xs[i], ys[i]);
        }
      case (Dict(m), Dict(n)) =>
        forall k | k in n ensures PyEq(n[k], m[k]) {
          PyEqSymmetric(m[k], n[k]);
        }
      case _ =>
    }
  }

  /** Python truthiness, as used by `if not only_ids:` and friends. */
  predicate Truthy(v: Value) {
    match v
    case Null => false
    case Bool(b) => b
    case Int(i) => i != 0
    case Real(r) => r != 0.0
    case Str(s) => |s| > 0
    case List(xs) => |xs| > 0
    case Dict(m) => |m| > 0
  }

  /** `d.get(key)` on a mapping: `None` when the key is absent. */
  function Get(d: Config, key: string): (r: Option<Value>)
    ensures r.Some? <==> key in d
    ensures r.Some? ==> r.value == d[key]
  {
    if key in d then Some(d[key]) else None
  }

  /** `d[key]`: a `KeyError` when the key is absent. */
  function Index(d: Config, key: string): (r: Result<Value>)
    ensures r.Ok? <==> key in d
    ensures r.Ok? ==> r.value == d[key]
    ensures r.Err? ==> r.error == KeyError(key)
  {
    if key in d then Ok(d[key]) else Err(KeyError(key))
  }

  /** `value is True`: only the boolean `True` itself. */
  predicate IsTrue(v: Value) {
    v == Bool(true)
  }

  /**
   * `needle in v` for a string needle: a substring test on a string, a
   * membership test on a list or on a mapping's keys, a `TypeError` on
   * anything else.
   */
  function In(needle: string, v: Value): (r: Result<bool>)
    ensures r.Err? <==> !(v.Str? || v.List? || v.Dict?)
    ensures v.Str? ==> r == Ok(Contains(v.s, needle))
    ensures v.List? ==> r == Ok(Str(needle) in v.items)
    ensures v.Dict? ==> r == Ok(needle in v.entries)
  {
    match v
    case Str(s) => Ok(Contains(s, needle))
    case List(items) => Ok(Str(needle) in items)
    case Dict(m) => Ok(needle in m)
    case _ => Err(TypeError("argument is not iterable"))
  }

  /** `d.setdefault(key, v)` on a configuration: `key` is added only when absent, and no other key is touched. */
  function SetDefault(c: Config, key: string, v: Value): (d: Config)
    ensures key in d && d[key] == (if key in c then c[key] else v)
    ensures forall x :: x != key ==> (x in d <==> x in c)
    ensures forall x :: x in c ==> x in d && d[x] == c[x]
  {
    if key in c then c else c[key := v]
  }

  /**
   * `int(v)` on a configuration value: integers stay, booleans become 0
   * or 1, floats are truncated toward zero, strings are parsed.
   */
  function ToInt(v: Value): (r: Result<int>)
    ensures v.Int? ==> r == Ok(v.i)
    ensures v.Bool? ==> r == Ok(if v.b then 1 else 0)
    ensures v.Real? ==> r == Ok(Trunc(v.r))
    ensures v.Str? ==> r == ParseInt(v.s)
    ensures r.Ok? ==> v.Int? || v.Bool? || v.Real? || v.Str?
  {
    match v
    case Int(i) => Ok(i)
    case Bool(b) => Ok(if b then 1 else 0)
    case Real(x) => Ok(Trunc(x))
    case Str(s) => ParseInt(s)
    case _ => Err(TypeError("int() argument must be a string or a number"))
  }
}
