/**
 * Processing state: the persisted envelope `{ cache }`, its defensive
 * normalisation, and the per-processor cache facade over it.
 */
module ProcessingStates {
  import opened Values

  /** Normalised state: processor name to that processor's cache value. */
  datatype ProcessingState = ProcessingState(cache: map<string, Value>)

  /**
   * True when `state` is an object whose `cache` property is itself an
   * object, the one shape the orchestrator takes over as it is.
   */
  predicate WellFormedState(state: Value) {
    IsObject(state) && IsObject(Property(state, "cache"))
  }

  /**
   * Coerces any persisted value into a state. A well-formed envelope keeps its
   * whole cache, entries of processors not configured now included; anything
   * else (null, undefined, a primitive, an array, a symbol, an object whose
   * cache is not an object) becomes the empty cache. Total: it never fails.
   */
  function NormalizeState(state: Value): (r: ProcessingState)
    ensures WellFormedState(state) ==> Obj(r.cache) == state.fields["cache"]
    ensures !WellFormedState(state) ==> r.cache == map[]
  {
    if WellFormedState(state) then ProcessingState(Property(state, "cache").fields)
    else ProcessingState(map[])
  }

  /** The persisted form of a state, which normalisation reads back unchanged. */
  function StateValue(st: ProcessingState): (v: Value)
    ensures WellFormedState(v)
    ensures NormalizeState(v) == st
  {
    Obj(map["cache" := Obj(st.cache)])
  }

  /**
   * The slice of the cache owned by processor `name`: its entry when that is
   * an object, otherwise empty.
   */
  function Namespace(cache: map<string, Value>, name: string): (m: map<string, Value>)
    ensures m != map[] ==> name in cache && cache[name] == Obj(m)
    ensures name in cache && cache[name].Obj? ==> m == cache[name].fields
  {
    if name in cache && cache[name].Obj? then cache[name].fields else map[]
  }

  /** `cache.get(key)` for processor `name`: `Undefined` when never set. */
  function CacheGet(cache: map<string, Value>, name: string, key: string): (v: Value)
    ensures v != Undefined ==> key in Namespace(cache, name) && Namespace(cache, name)[key] == v
    ensures key in Namespace(cache, name) ==> v == Namespace(cache, name)[key]
  {
    Property(Obj(Namespace(cache, name)), key)
  }

  /**
   * `cache.set(key, value)` for processor `name`: afterwards `key` reads as
   * `value` in that namespace; every other key of that namespace, and every
   * other processor's entry, is as before.
   */
  function CacheSet(cache: map<string, Value>, name: string, key: string, value: Value): (r: map<string, Value>)
    ensures r.Keys == cache.Keys + {name}
    ensures CacheGet(r, name, key) == value
    ensures forall k :: k != key ==> CacheGet(r, name, k) == CacheGet(cache, name, k)
    ensures forall n :: n in cache && n != name ==> r[n] == cache[n]
  {
    cache[name := Obj(Namespace(cache, name)[key := value])]
  }

  /** The shared cache map of one invocation, updated in place by processors' writes. */
  class SharedCache {
    var entries: map<string, Value>

    constructor (entries: map<string, Value>)
      ensures this.entries == entries
    {
      this.entries := entries;
    }
  }

  /**
   * The cache facade handed to one processor: a view of the shared map bound
   * to that processor's name, so its keys never meet another processor's.
   */
  class ProcessorCache {
    const shared: SharedCache
    const name: string

    constructor (shared: SharedCache, name: string)
      ensures this.shared == shared && this.name == name
    {
      this.shared := shared;
      this.name := name;
    }

    /** What `get` sees for every key: this processor's namespace. */
    function View(): (m: map<string, Value>)
      reads shared
      ensures forall k :: Property(Obj(m), k) == CacheGet(shared.entries, name, k)
    {
      Namespace(shared.entries, name)
    }

    /** `set(key, value)`: writes through to the shared map, in this namespace only. */
    method Set(key: string, value: Value)
      modifies shared
      ensures shared.entries == CacheSet(old(shared.entries), name, key, value)
    {
      shared.entries := CacheSet(shared.entries, name, key, value);
    }
  }
}
