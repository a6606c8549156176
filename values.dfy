/**
 * The untyped, JSON-like values that arrive as persisted processing state and
 * that processors keep in their caches. Persisted state is opaque to the
 * orchestrator, so it may be any of these, not only a well-formed object.
 */
module Values {

  /**
   * A JavaScript value as far as the orchestrator can observe it.
   * Numbers are integers here (see README, "Left out"); a `Sym` stands for a
   * `Symbol()`, distinguished only by an identity number.
   */
  datatype Value =
    | Undefined
    | Null
    | Bool(b: bool)
    | Num(n: int)
    | Str(s: string)
    | Sym(id: nat)
    | Arr(elems: seq<Value>)
    | Obj(fields: map<string, Value>)

  /** JavaScript truthiness: the test `if (v)` of an `await cache.get(...)` result. */
  predicate Truthy(v: Value) {
    match v
    case Undefined => false
    case Null => false
    case Bool(b) => b
    case Num(n) => n != 0
    case Str(s) => s != ""
    case Sym(_) => true
    case Arr(_) => true
    case Obj(_) => true
  }

  /**
   * True for a plain (non-array, non-null) object, the only shape whose
   * properties the orchestrator trusts.
   */
  predicate IsObject(v: Value) {
    v.Obj?
  }

  /**
   * The property read `v[key]` on a plain object; any other value, and a
   * missing key, reads as `undefined`.
   */
  function Property(v: Value, key: string): (r: Value)
    ensures r != Undefined ==> IsObject(v) && key in v.fields && v.fields[key] == r
    ensures IsObject(v) && key in v.fields ==> r == v.fields[key]
  {
    if v.Obj? && key in v.fields then v.fields[key] else Undefined
  }
}
