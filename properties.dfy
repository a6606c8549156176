/**
 * Properties of the orchestrator over every processor configuration:
 * emissions are collected verbatim and in order, derived entities are
 * stamped with their location and the producer's origin, accumulators only
 * grow, a processor's cache writes stay in its own namespace, and a run in
 * which no processor does anything returns its input untouched.
 */
module OrchestratorProperties {
  import opened Wrappers
  import opened Values
  import opened Entities
  import opened ProcessingStates
  import opened Emission
  import opened Orchestrator

  /** The relations one effect emits. */
  function EffectRelations(eff: Effect): seq<Relation> {
    if eff.Emit? then RelationsFrom(eff.item) else []
  }

  /** The deferred entities one effect emits. */
  function EffectDeferred(origin: Option<string>, eff: Effect): seq<DeferredEntity> {
    if eff.Emit? then DeferredFrom(origin, eff.item) else []
  }

  /** The relations an effect list emits, in the order it emits them. */
  function EmittedRelations(effs: seq<Effect>): seq<Relation>
    decreases |effs|
  {
    if effs == [] then [] else EffectRelations(effs[0]) + EmittedRelations(effs[1..])
  }

  /** The deferred entities an effect list emits, in the order it emits them. */
  function EmittedDeferred(origin: Option<string>, effs: seq<Effect>): seq<DeferredEntity>
    decreases |effs|
  {
    if effs == [] then [] else EffectDeferred(origin, effs[0]) + EmittedDeferred(origin, effs[1..])
  }

  /**
   * The value the last write of `key` in an effect list stores, read from
   * the end of the list; `None` when the list never writes `key`.
   */
  function LastWrite(effs: seq<Effect>, key: string): Option<Value>
    decreases |effs|
  {
    if effs == [] then None
    else
      match LastWrite(effs[1..], key)
      case Some(v) => Some(v)
      case None => if effs[0].CacheWrite? && effs[0].key == key then Some(effs[0].value) else None
  }

  /** No effect in the list writes to the cache. */
  predicate ReadsOnly(effs: seq<Effect>) {
    forall i :: 0 <= i < |effs| ==> !effs[i].CacheWrite?
  }

  lemma {:induction false} EmittedRelationsAppend(a: seq<Effect>, b: seq<Effect>)
    ensures EmittedRelations(a + b) == EmittedRelations(a) + EmittedRelations(b)
    decreases |a|
  {
    if a == [] {
      assert a + b == b;
    } else {
      var ab := a + b;
      assert ab[0] == a[0];
      assert ab[1..] == a[1..] + b;
      var x, y, z := EffectRelations(a[0]), EmittedRelations(a[1..]), EmittedRelations(b);
      assert EmittedRelations(ab) == x + EmittedRelations(a[1..] + b);
      EmittedRelationsAppend(a[1..], b);
      assert EmittedRelations(a) == x + y;
      assert x + (y + z) == (x + y) + z;
    }
  }

  lemma {:induction false} EmittedDeferredAppend(origin: Option<string>, a: seq<Effect>, b: seq<Effect>)
    ensures EmittedDeferred(origin, a + b) == EmittedDeferred(origin, a) + EmittedDeferred(origin, b)
    decreases |a|
  {
    if a == [] {
      assert a + b == b;
    } else {
      var ab := a + b;
      assert ab[0] == a[0];
      assert ab[1..] == a[1..] + b;
      var x, y, z := EffectDeferred(origin, a[0]), EmittedDeferred(origin, a[1..]), EmittedDeferred(origin, b);
      assert EmittedDeferred(origin, ab) == x + EmittedDeferred(origin, a[1..] + b);
      EmittedDeferredAppend(origin, a[1..], b);
      assert EmittedDeferred(origin, a) == x + y;
      assert x + (y + z) == (x + y) + z;
    }
  }

  /** Effects never touch the entity being processed nor the errors. */
  lemma {:induction false} ApplyEffectsKeepsEntity(s: RunState, name: string, origin: Option<string>, effs: seq<Effect>)
    ensures ApplyEffects(s, name, origin, effs).entity == s.entity
    ensures ApplyEffects(s, name, origin, effs).errors == s.errors
    decreases |effs|
  {
    if effs != [] {
      ApplyEffectsKeepsEntity(s, name, origin, effs[..|effs| - 1]);
    }
  }

  /** The relations collected while applying effects are those emitted, verbatim and in order. */
  lemma {:induction false} ApplyEffectsRelations(s: RunState, name: string, origin: Option<string>, effs: seq<Effect>)
    ensures ApplyEffects(s, name, origin, effs).relations == s.relations + EmittedRelations(effs)
    decreases |effs|
  {
    if effs != [] {
      var init, last := effs[..|effs| - 1], effs[|effs| - 1];
      var mid := ApplyEffects(s, name, origin, init);
      ApplyEffectsRelations(s, name, origin, init);
      assert ApplyEffect(mid, name, origin, last).relations == mid.relations + EffectRelations(last);
      assert EmittedRelations([last]) == EffectRelations(last) by { assert [last][1..] == []; }
      assert init + [last] == effs;
      EmittedRelationsAppend(init, [last]);
    }
  }

  /** The deferred entities collected while applying effects are the emitted entities, resolved, in order. */
  lemma {:induction false} ApplyEffectsDeferred(s: RunState, name: string, origin: Option<string>, effs: seq<Effect>)
    ensures ApplyEffects(s, name, origin, effs).deferred == s.deferred + EmittedDeferred(origin, effs)
    decreases |effs|
  {
    if effs != [] {
      var init, last := effs[..|effs| - 1], effs[|effs| - 1];
      var mid := ApplyEffects(s, name, origin, init);
      ApplyEffectsDeferred(s, name, origin, init);
      assert ApplyEffect(mid, name, origin, last).deferred == mid.deferred + EffectDeferred(origin, last);
      assert EmittedDeferred(origin, [last]) == EffectDeferred(origin, last) by { assert [last][1..] == []; }
      assert init + [last] == effs;
      EmittedDeferredAppend(origin, init, [last]);
    }
  }

  /**
   * A processor's effects change the cache only in its own namespace, and
   * not at all when it only reads.
   */
  lemma {:induction false} ApplyEffectsCache(s: RunState, name: string, origin: Option<string>, effs: seq<Effect>)
    ensures ApplyEffects(s, name, origin, effs).cache.Keys <= s.cache.Keys + {name}
    ensures forall n :: n in s.cache && n != name ==>
              n in ApplyEffects(s, name, origin, effs).cache && ApplyEffects(s, name, origin, effs).cache[n] == s.cache[n]
    ensures ReadsOnly(effs) ==> ApplyEffects(s, name, origin, effs).cache == s.cache
    decreases |effs|
  {
    if effs != [] {
      ApplyEffectsCache(s, name, origin, effs[..|effs| - 1]);
    }
  }

  /**
   * One post-processing step: the relations and deferred entities it adds are
   * those the processor emitted, in order; the entity becomes the returned
   * one, or stays as it was when the processor throws, in which case exactly
   * one error naming the processor is added.
   */
  lemma RunProcessorCollects(s: RunState, p: Processor, location: LocationSpec, origin: Option<string>)
    requires p.postProcessEntity.Some?
    ensures var out := p.postProcessEntity.value(s.entity, location, Namespace(s.cache, p.name));
            var r := RunProcessor(s, p, location, origin);
            && r.relations == s.relations + EmittedRelations(out.effects)
            && r.deferred == s.deferred + EmittedDeferred(origin, out.effects)
            && (out.outcome.Returned? ==> r.entity == out.outcome.entity && r.errors == s.errors)
            && (out.outcome.Threw? ==>
                  r.entity == s.entity &&
                  r.errors == s.errors + [ProcessorFailed(p.name, NameOf(s.entity), out.outcome.message)])
  {
    var out := p.postProcessEntity.value(s.entity, location, Namespace(s.cache, p.name));
    ApplyEffectsKeepsEntity(s, p.name, origin, out.effects);
    ApplyEffectsRelations(s, p.name, origin, out.effects);
    ApplyEffectsDeferred(s, p.name, origin, out.effects);
  }

  /** The accumulators of a run only grow: what was collected stays, in place. */
  lemma {:induction false} RunProcessorsAppendOnly(s: RunState, ps: seq<Processor>, location: LocationSpec, origin: Option<string>)
    ensures s.relations <= RunProcessors(s, ps, location, origin).relations
    ensures s.deferred <= RunProcessors(s, ps, location, origin).deferred
    ensures s.errors <= RunProcessors(s, ps, location, origin).errors
    decreases |ps|
  {
    if ps != [] {
      var mid := RunProcessors(s, ps[..|ps| - 1], location, origin);
      RunProcessorsAppendOnly(s, ps[..|ps| - 1], location, origin);
      var p := ps[|ps| - 1];
      if p.postProcessEntity.Some? {
        RunProcessorCollects(mid, p, location, origin);
      }
    }
  }

  /** A deferred entity whose annotations agree with its key and with the producer's origin. */
  predicate Stamped(d: DeferredEntity, origin: Option<string>) {
    AnnotationOf(d.entity, LocationAnnotation) == Some(d.locationKey) &&
    AnnotationOf(d.entity, OriginLocationAnnotation) == origin
  }

  predicate AllStamped(ds: seq<DeferredEntity>, origin: Option<string>) {
    forall i :: 0 <= i < |ds| ==> Stamped(ds[i], origin)
  }

  lemma {:induction false} EmittedDeferredStamped(origin: Option<string>, effs: seq<Effect>)
    ensures AllStamped(EmittedDeferred(origin, effs), origin)
    decreases |effs|
  {
    if effs != [] {
      EmittedDeferredStamped(origin, effs[1..]);
      assert AllStamped(EffectDeferred(origin, effs[0]), origin);
      StampedAppend(EffectDeferred(origin, effs[0]), EmittedDeferred(origin, effs[1..]), origin);
    }
  }

  lemma StampedAppend(a: seq<DeferredEntity>, b: seq<DeferredEntity>, origin: Option<string>)
    requires AllStamped(a, origin) && AllStamped(b, origin)
    ensures AllStamped(a + b, origin)
  {
  }

  /** Every deferred entity a run produces is stamped with its key and the producer's origin. */
  lemma {:induction false} RunProcessorsStamped(s: RunState, ps: seq<Processor>, location: LocationSpec, origin: Option<string>)
    requires AllStamped(s.deferred, origin)
    ensures AllStamped(RunProcessors(s, ps, location, origin).deferred, origin)
    decreases |ps|
  {
    if ps != [] {
      var mid := RunProcessors(s, ps[..|ps| - 1], location, origin);
      RunProcessorsStamped(s, ps[..|ps| - 1], location, origin);
      var p := ps[|ps| - 1];
      assert RunProcessors(s, ps, location, origin) == RunProcessor(mid, p, location, origin);
      if p.postProcessEntity.Some? {
        var out := p.postProcessEntity.value(mid.entity, location, Namespace(mid.cache, p.name));
        RunProcessorCollects(mid, p, location, origin);
        EmittedDeferredStamped(origin, out.effects);
        StampedAppend(mid.deferred, EmittedDeferred(origin, out.effects), origin);
      }
    }
  }

  /**
   * No processor named `n` post-processes: either none is configured under
   * that name, or those that are lack the capability and so never run.
   */
  predicate NeverRuns(ps: seq<Processor>, n: string) {
    forall i :: 0 <= i < |ps| && ps[i].name == n ==> ps[i].postProcessEntity.None?
  }

  /** Extending an effect list by one effect: a write of `key` becomes the last one. */
  lemma {:induction false} LastWriteSnoc(effs: seq<Effect>, eff: Effect, key: string)
    ensures LastWrite(effs + [eff], key)
            == if eff.CacheWrite? && eff.key == key then Some(eff.value) else LastWrite(effs, key)
    decreases |effs|
  {
    if effs != [] {
      assert (effs + [eff])[1..] == effs[1..] + [eff];
      LastWriteSnoc(effs[1..], eff, key);
    } else {
      assert (effs + [eff])[1..] == [];
    }
  }

  /**
   * A processor's writes persist: after its effects, each key of its own
   * namespace reads as the last value it wrote there, or as before when it
   * wrote none.
   */
  lemma {:induction false} ApplyEffectsOwnCache(s: RunState, name: string, origin: Option<string>, effs: seq<Effect>, key: string)
    ensures CacheGet(ApplyEffects(s, name, origin, effs).cache, name, key)
            == LastWrite(effs, key).GetOr(CacheGet(s.cache, name, key))
    decreases |effs|
  {
    if effs != [] {
      var init, last := effs[..|effs| - 1], effs[|effs| - 1];
      assert effs == init + [last];
      ApplyEffectsOwnCache(s, name, origin, init, key);
      LastWriteSnoc(init, last, key);
    }
  }

  /**
   * One processor's step leaves each key of its own namespace as the last
   * value its call wrote there, or as before when it wrote none.
   */
  lemma RunProcessorWrites(s: RunState, p: Processor, location: LocationSpec, origin: Option<string>, key: string)
    requires p.postProcessEntity.Some?
    ensures var out := p.postProcessEntity.value(s.entity, location, Namespace(s.cache, p.name));
            CacheGet(RunProcessor(s, p, location, origin).cache, p.name, key)
            == LastWrite(out.effects, key).GetOr(CacheGet(s.cache, p.name, key))
  {
    var out := p.postProcessEntity.value(s.entity, location, Namespace(s.cache, p.name));
    ApplyEffectsOwnCache(s, p.name, origin, out.effects, key);
  }

  /**
   * Cache isolation: the entry of a name under which no processor runs comes
   * back exactly as it went in.
   */
  lemma {:induction false} RunProcessorsKeepsOtherNamespaces(s: RunState, ps: seq<Processor>, location: LocationSpec, origin: Option<string>, n: string)
    requires n in s.cache && NeverRuns(ps, n)
    ensures n in RunProcessors(s, ps, location, origin).cache
    ensures RunProcessors(s, ps, location, origin).cache[n] == s.cache[n]
    decreases |ps|
  {
    if ps != [] {
      var mid := RunProcessors(s, ps[..|ps| - 1], location, origin);
      RunProcessorsKeepsOtherNamespaces(s, ps[..|ps| - 1], location, origin, n);
      var p := ps[|ps| - 1];
      if p.postProcessEntity.Some? {
        var out := p.postProcessEntity.value(mid.entity, location, Namespace(mid.cache, p.name));
        ApplyEffectsCache(mid, p.name, origin, out.effects);
      }
    }
  }

  /** Processor `p` never writes its cache, whatever entity, location and cache it is given. */
  ghost predicate OnlyReadsCache(p: Processor) {
    p.postProcessEntity.None? ||
    forall e: Entity, l: LocationSpec, c: map<string, Value> :: ReadsOnly(p.postProcessEntity.value(e, l, c).effects)
  }

  /** A run of processors that only read the cache returns the cache exactly as it went in. */
  lemma {:induction false} ReadOnlyRunKeepsCache(s: RunState, ps: seq<Processor>, location: LocationSpec, origin: Option<string>)
    requires forall i :: 0 <= i < |ps| ==> OnlyReadsCache(ps[i])
    ensures RunProcessors(s, ps, location, origin).cache == s.cache
    decreases |ps|
  {
    if ps != [] {
      var init, p := ps[..|ps| - 1], ps[|ps| - 1];
      forall i | 0 <= i < |init| ensures OnlyReadsCache(init[i]) {
        assert init[i] == ps[i];
      }
      ReadOnlyRunKeepsCache(s, init, location, origin);
      var mid := RunProcessors(s, init, location, origin);
      assert OnlyReadsCache(p);
      if p.postProcessEntity.Some? {
        var out := p.postProcessEntity.value(mid.entity, location, Namespace(mid.cache, p.name));
        ApplyEffectsCache(mid, p.name, origin, out.effects);
      }
    }
  }

  /** When every processor only reads the cache, a processed result returns the normalised input state. */
  lemma ReadOnlyProcessorsReturnState(ps: seq<Processor>, entity: Entity, location: Option<LocationSpec>, state: Value)
    requires forall i :: 0 <= i < |ps| ==> OnlyReadsCache(ps[i])
    ensures var r := ProcessEntity(ps, entity, location, state);
            r.Ok() ==> r.state == NormalizeState(state)
  {
    if KindClaimed(ps, entity) && ResolveLocation(entity, location).Some? {
      ReadOnlyRunKeepsCache(InitialRun(entity, NormalizeState(state)), ps,
        ResolveLocation(entity, location).value, AnnotationOf(entity, OriginLocationAnnotation));
    }
  }

  /** Processor `p`, given entity `e` and cache `cache`, emits nothing, writes nothing and returns `e`. */
  predicate Quiet(p: Processor, e: Entity, location: LocationSpec, cache: map<string, Value>) {
    p.postProcessEntity.None? ||
    p.postProcessEntity.value(e, location, Namespace(cache, p.name)) == PostResult([], Returned(e))
  }

  /** A run of processors that all do nothing leaves the whole run state as it was. */
  lemma {:induction false} QuietRunIsIdentity(s: RunState, ps: seq<Processor>, location: LocationSpec, origin: Option<string>)
    requires forall i :: 0 <= i < |ps| ==> Quiet(ps[i], s.entity, location, s.cache)
    ensures RunProcessors(s, ps, location, origin) == s
    decreases |ps|
  {
    if ps != [] {
      var init := ps[..|ps| - 1];
      forall i | 0 <= i < |init| ensures Quiet(init[i], s.entity, location, s.cache) {
        assert init[i] == ps[i];
      }
      QuietRunIsIdentity(s, init, location, origin);
      assert Quiet(ps[|ps| - 1], s.entity, location, s.cache);
    }
  }

  /**
   * In a processed result, every deferred entity carries its locationKey as
   * its location annotation and the input entity's origin as its origin.
   */
  lemma DeferredEntitiesStamped(ps: seq<Processor>, entity: Entity, location: Option<LocationSpec>, state: Value)
    ensures var r := ProcessEntity(ps, entity, location, state);
            r.Ok() ==> AllStamped(r.deferredEntities, AnnotationOf(entity, OriginLocationAnnotation))
  {
    if KindClaimed(ps, entity) && ResolveLocation(entity, location).Some? {
      var start := InitialRun(entity, NormalizeState(state));
      var fin := RunProcessors(start, ps, ResolveLocation(entity, location).value,
                               AnnotationOf(entity, OriginLocationAnnotation));
      RunProcessorsStamped(start, ps, ResolveLocation(entity, location).value,
                           AnnotationOf(entity, OriginLocationAnnotation));
      assert ProcessEntity(ps, entity, location, state).deferredEntities == fin.deferred;
    }
  }

  /**
   * The cache entry of a processor that never runs (not configured, or
   * configured without post-processing) comes back in the result's state
   * exactly as it was persisted.
   */
  lemma ForeignCacheEntriesKept(ps: seq<Processor>, entity: Entity, location: Option<LocationSpec>, state: Value, n: string)
    requires n in NormalizeState(state).cache && NeverRuns(ps, n)
    ensures var r := ProcessEntity(ps, entity, location, state);
            r.Ok() ==> n in r.state.cache && r.state.cache[n] == NormalizeState(state).cache[n]
  {
    if KindClaimed(ps, entity) && ResolveLocation(entity, location).Some? {
      RunProcessorsKeepsOtherNamespaces(InitialRun(entity, NormalizeState(state)), ps,
        ResolveLocation(entity, location).value, AnnotationOf(entity, OriginLocationAnnotation), n);
    }
  }

  /**
   * `cache.set` is persisted into the returned state: with a single
   * processor, each key of its namespace in the result reads as the last
   * value its call wrote there, or as in the input state when it wrote none.
   */
  lemma SingleProcessorPersistsWrites(p: Processor, entity: Entity, location: Option<LocationSpec>, state: Value, key: string)
    ensures var r := ProcessEntity([p], entity, location, state);
            var given := NormalizeState(state).cache;
            r.Ok() && p.postProcessEntity.Some? ==>
              var out := p.postProcessEntity.value(entity, ResolveLocation(entity, location).value, Namespace(given, p.name));
              CacheGet(r.state.cache, p.name, key) == LastWrite(out.effects, key).GetOr(CacheGet(given, p.name, key))
  {
    if KindClaimed([p], entity) && ResolveLocation(entity, location).Some? && p.postProcessEntity.Some? {
      var s := InitialRun(entity, NormalizeState(state));
      var loc := ResolveLocation(entity, location).value;
      var origin := AnnotationOf(entity, OriginLocationAnnotation);
      assert [p][..0] == [];
      assert RunProcessors(s, [p], loc, origin) == RunProcessor(s, p, loc, origin);
      RunProcessorWrites(s, p, loc, origin, key);
    }
  }

  /**
   * When the kind is claimed, a location is known and no processor does
   * anything, the result completes the input entity unchanged, with nothing
   * deferred, no errors, no relations and the normalised input state.
   */
  lemma NothingEmittedCompletesInput(ps: seq<Processor>, entity: Entity, location: Option<LocationSpec>, state: Value)
    requires KindClaimed(ps, entity) && ResolveLocation(entity, location).Some?
    requires forall i :: 0 <= i < |ps| ==>
               Quiet(ps[i], entity, ResolveLocation(entity, location).value, NormalizeState(state).cache)
    ensures ProcessEntity(ps, entity, location, state) == Processed(entity, [], [], [], NormalizeState(state))
  {
    QuietRunIsIdentity(InitialRun(entity, NormalizeState(state)), ps, ResolveLocation(entity, location).value,
                       AnnotationOf(entity, OriginLocationAnnotation));
  }
}
