/**
 * The processing orchestrator: kind validation, then every processor's
 * post-processing in configured order, threading the entity and collecting
 * emitted work, relations, errors and cache writes into one result.
 */
module Orchestrator {
  import opened Wrappers
  import opened Values
  import opened Entities
  import opened ProcessingStates
  import opened Emission

  /** One side effect of a post-processing call, in the order it was made. */
  datatype Effect =
    | Emit(item: Emitted)
    | CacheWrite(key: string, value: Value)

  /** How a post-processing call ends: with the next entity, or by throwing. */
  datatype Outcome =
    | Returned(entity: Entity)
    | Threw(message: string)

  /**
   * A post-processing call: the `emit` and `cache.set` calls it made, in
   * order, and how it ended. Effects made before a throw still happen.
   */
  datatype PostResult = PostResult(effects: seq<Effect>, outcome: Outcome)

  /**
   * A processor: its name (the cache namespace) and the capabilities it
   * implements. `postProcessEntity` receives the current entity, the location
   * being processed and what its cache facade reads.
   */
  datatype Processor = Processor(
    name: string,
    validateEntityKind: Option<Entity -> bool>,
    postProcessEntity: Option<(Entity, LocationSpec, map<string, Value>) -> PostResult>)

  datatype ProcessingError =
    | UnrecognizedKind(entity: EntityName)
    | MissingLocation(entity: EntityName)
    | ProcessorFailed(processor: string, entity: EntityName, message: string)

  /**
   * The result of one invocation; `ok` is `Processed?`. A rejected entity
   * carries only the error that rejected it.
   */
  datatype ProcessingResult =
    | Processed(
        completedEntity: Entity,
        deferredEntities: seq<DeferredEntity>,
        errors: seq<ProcessingError>,
        relations: seq<Relation>,
        state: ProcessingState)
    | Rejected(errors: seq<ProcessingError>)
  {
    predicate Ok() {
      Processed?
    }
  }

  /** Processor `p` says the entity's kind is one it handles. */
  predicate Claims(p: Processor, e: Entity) {
    p.validateEntityKind.Some? && p.validateEntityKind.value(e)
  }

  /** Some configured processor handles the entity's kind. */
  predicate KindClaimed(ps: seq<Processor>, e: Entity) {
    exists i :: 0 <= i < |ps| && Claims(ps[i], e)
  }

  /**
   * The kind-validation stage: asks the processors in order and stops at the
   * first that claims the kind.
   */
  method ValidateKind(ps: seq<Processor>, e: Entity) returns (claimed: bool)
    ensures claimed <==> KindClaimed(ps, e)
  {
    claimed := false;
    var i := 0;
    while i < |ps| && !claimed
      invariant 0 <= i <= |ps|
      invariant claimed ==> 0 < i && Claims(ps[i - 1], e)
      invariant !claimed ==> forall j :: 0 <= j < i ==> !Claims(ps[j], e)
    {
      if ps[i].validateEntityKind.Some? {
        claimed := ps[i].validateEntityKind.value(e);
      }
      i := i + 1;
    }
  }

  /** Everything the post-processing stage threads from one processor to the next. */
  datatype RunState = RunState(
    entity: Entity,
    cache: map<string, Value>,
    deferred: seq<DeferredEntity>,
    relations: seq<Relation>,
    errors: seq<ProcessingError>)

  /** Applies one effect of processor `name`, as the orchestrator does the moment it is made. */
  function ApplyEffect(s: RunState, name: string, origin: Option<string>, eff: Effect): RunState {
    match eff
    case Emit(item) =>
      s.(deferred := s.deferred + DeferredFrom(origin, item), relations := s.relations + RelationsFrom(item))
    case CacheWrite(k, v) =>
      s.(cache := CacheSet(s.cache, name, k, v))
  }

  /** Applies a processor's effects in the order they were made. */
  function ApplyEffects(s: RunState, name: string, origin: Option<string>, effs: seq<Effect>): RunState
    decreases |effs|
  {
    if effs == [] then s
    else ApplyEffect(ApplyEffects(s, name, origin, effs[..|effs| - 1]), name, origin, effs[|effs| - 1])
  }

  /**
   * One processor's post-processing step. A processor without the capability
   * is skipped; one that throws keeps the entity it was given, and the failure
   * is recorded against that entity.
   */
  function RunProcessor(s: RunState, p: Processor, location: LocationSpec, origin: Option<string>): RunState {
    match p.postProcessEntity
    case None => s
    case Some(post) =>
      var out := post(s.entity, location, Namespace(s.cache, p.name));
      var after := ApplyEffects(s, p.name, origin, out.effects);
      match out.outcome
      case Returned(e) => after.(entity := e)
      case Threw(m) => after.(errors := after.errors + [ProcessorFailed(p.name, NameOf(s.entity), m)])
  }

  /** The post-processing stage: every processor in configured order. */
  function RunProcessors(s: RunState, ps: seq<Processor>, location: LocationSpec, origin: Option<string>): RunState
    decreases |ps|
  {
    if ps == [] then s
    else RunProcessor(RunProcessors(s, ps[..|ps| - 1], location, origin), ps[|ps| - 1], location, origin)
  }

  /** The location to process: the one supplied, else the entity's own location annotation. */
  function ResolveLocation(e: Entity, location: Option<LocationSpec>): (r: Option<LocationSpec>)
    ensures location.Some? ==> r == location
    ensures location.None? && r.Some? ==> AnnotationOf(e, LocationAnnotation) == Some(StringifyLocationRef(r.value))
    ensures location.None? && AnnotationOf(e, LocationAnnotation).None? ==> r.None?
  {
    match location
    case Some(_) => location
    case None =>
      match AnnotationOf(e, LocationAnnotation)
      case None => None
      case Some(ref) => ParseLocationRef(ref)
  }

  /** Without a supplied location, a location annotation naming a valid location is found and used. */
  lemma ResolvesAnnotatedLocation(e: Entity, l: LocationSpec)
    requires ValidLocation(l) && AnnotationOf(e, LocationAnnotation) == Some(StringifyLocationRef(l))
    ensures ResolveLocation(e, None) == Some(l)
  {
    ParseStringify(l);
  }

  /** The run state at the start of post-processing. */
  function InitialRun(e: Entity, st: ProcessingState): RunState {
    RunState(e, st.cache, [], [], [])
  }

  /**
   * `process({ entity, location, state })`: what one invocation returns.
   * It is rejected exactly when no processor claims the kind or no location
   * can be found; the state never causes a rejection.
   */
  function ProcessEntity(ps: seq<Processor>, entity: Entity, location: Option<LocationSpec>, state: Value): (r: ProcessingResult)
    ensures r.Ok() <==> KindClaimed(ps, entity) && ResolveLocation(entity, location).Some?
    ensures !r.Ok() ==> |r.errors| == 1
  {
    if !KindClaimed(ps, entity) then Rejected([UnrecognizedKind(NameOf(entity))])
    else
      match ResolveLocation(entity, location)
      case None => Rejected([MissingLocation(NameOf(entity))])
      case Some(loc) =>
        var fin := RunProcessors(InitialRun(entity, NormalizeState(state)), ps, loc,
                                 AnnotationOf(entity, OriginLocationAnnotation));
        Processed(fin.entity, fin.deferred, fin.errors, fin.relations, ProcessingState(fin.cache))
  }

  /**
   * Carries out a post-processing call's effects in the order they were made:
   * emissions go to the emit channel, writes through the processor's cache
   * facade. The entity and errors, passed for the statement only, are untouched.
   */
  method PerformEffects(cache: ProcessorCache, collector: EmitCollector, effs: seq<Effect>,
                        ghost entity: Entity, ghost errors: seq<ProcessingError>)
    modifies cache.shared, collector
    ensures RunState(entity, cache.shared.entries, collector.deferred, collector.relations, errors)
            == ApplyEffects(RunState(entity, old(cache.shared.entries), old(collector.deferred), old(collector.relations), errors),
                            cache.name, collector.origin, effs)
  {
    ghost var before := RunState(entity, cache.shared.entries, collector.deferred, collector.relations, errors);
    var j := 0;
    while j < |effs|
      invariant 0 <= j <= |effs|
      invariant RunState(entity, cache.shared.entries, collector.deferred, collector.relations, errors)
                == ApplyEffects(before, cache.name, collector.origin, effs[..j])
    {
      match effs[j] {
        case Emit(item) => collector.Emit(item);
        case CacheWrite(k, v) => cache.Set(k, v);
      }
      assert effs[..j + 1][..j] == effs[..j];
      j := j + 1;
    }
    assert effs[..j] == effs;
  }

  /**
   * The orchestrator's entry point: validates the kind, normalises the
   * state once, then runs each processor against a cache facade bound to its
   * name and an emit channel, applying every effect as it is made.
   */
  method Process(ps: seq<Processor>, entity: Entity, location: Option<LocationSpec>, state: Value)
    returns (result: ProcessingResult)
    ensures result == ProcessEntity(ps, entity, location, state)
  {
    var claimed := ValidateKind(ps, entity);
    if !claimed {
      return Rejected([UnrecognizedKind(NameOf(entity))]);
    }
    var resolved := ResolveLocation(entity, location);
    if resolved.None? {
      return Rejected([MissingLocation(NameOf(entity))]);
    }
    var loc := resolved.value;
    var origin := AnnotationOf(entity, OriginLocationAnnotation);
    var normalized := NormalizeState(state);
    var shared := new SharedCache(normalized.cache);
    var collector := new EmitCollector(origin);
    var current := entity;
    var errors: seq<ProcessingError> := [];
    ghost var start := InitialRun(entity, normalized);
    var i := 0;
    while i < |ps|
      invariant 0 <= i <= |ps|
      invariant RunState(current, shared.entries, collector.deferred, collector.relations, errors)
                == RunProcessors(start, ps[..i], loc, origin)
    {
      var p := ps[i];
      if p.postProcessEntity.Some? {
        var cache := new ProcessorCache(shared, p.name);
        var given := current;
        var out := p.postProcessEntity.value(given, loc, cache.View());
        PerformEffects(cache, collector, out.effects, current, errors);
        match out.outcome {
          case Returned(e) => current := e;
          case Threw(m) => errors := errors + [ProcessorFailed(p.name, NameOf(given), m)];
        }
      }
      assert ps[..i + 1][..i] == ps[..i];
      i := i + 1;
    }
    assert ps[..i] == ps;
    result := Processed(current, collector.deferred, errors, collector.relations, ProcessingState(shared.entries));
  }
}
