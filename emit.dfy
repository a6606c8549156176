/**
 * The emit channel: what a processor may report while post-processing one
 * entity, and how a reported entity is turned into deferred work.
 */
module Emission {
  import opened Wrappers
  import opened Entities

  /** One `emit(...)` argument: a derived entity at a location, or a relation. */
  datatype Emitted =
    | EmittedEntity(location: LocationSpec, entity: Entity)
    | EmittedRelation(relation: Relation)

  /** The annotations of a derived entity read from `location`, with origin `origin`. */
  function StampedAnnotations(anns: map<string, string>, origin: Option<string>, location: LocationSpec): map<string, string> {
    var withOrigin :=
      match origin
      case Some(o) => anns[OriginLocationAnnotation := o]
      case None => anns - {OriginLocationAnnotation};
    withOrigin[LocationAnnotation := StringifyLocationRef(location)]
  }

  /**
   * Resolves an emitted entity into deferred work: keyed by the string form
   * of its location, with that same string as its location annotation and the
   * producer's origin as its origin annotation (absent when the producer has
   * none). All other annotations and fields are kept.
   */
  function Defer(origin: Option<string>, location: LocationSpec, emitted: Entity): (d: DeferredEntity)
    ensures d.locationKey == StringifyLocationRef(location)
    ensures AnnotationOf(d.entity, LocationAnnotation) == Some(d.locationKey)
    ensures AnnotationOf(d.entity, OriginLocationAnnotation) == origin
    ensures forall k :: k != LocationAnnotation && k != OriginLocationAnnotation ==>
              AnnotationOf(d.entity, k) == AnnotationOf(emitted, k)
    ensures d.entity.(metadata := emitted.metadata) == emitted
    ensures d.entity.metadata.(annotations := emitted.metadata.annotations) == emitted.metadata
  {
    DistinctAnnotationKeys();
    var anns := StampedAnnotations(emitted.metadata.annotations, origin, location);
    DeferredEntity(emitted.(metadata := emitted.metadata.(annotations := anns)), StringifyLocationRef(location))
  }

  /** The deferred entities one emission contributes. */
  function DeferredFrom(origin: Option<string>, item: Emitted): seq<DeferredEntity> {
    match item
    case EmittedEntity(l, e) => [Defer(origin, l, e)]
    case EmittedRelation(_) => []
  }

  /** The relations one emission contributes: the relation itself, verbatim. */
  function RelationsFrom(item: Emitted): seq<Relation> {
    match item
    case EmittedEntity(_, _) => []
    case EmittedRelation(r) => [r]
  }

  /** The appending sink behind `emit` during one invocation. */
  class EmitCollector {
    /** The origin annotation of the entity being processed. */
    const origin: Option<string>
    var deferred: seq<DeferredEntity>
    var relations: seq<Relation>

    constructor (origin: Option<string>)
      ensures this.origin == origin && deferred == [] && relations == []
    {
      this.origin := origin;
      deferred := [];
      relations := [];
    }

    /** `emit(item)`: appends, never fails. */
    method Emit(item: Emitted)
      modifies this
      ensures deferred == old(deferred) + DeferredFrom(origin, item)
      ensures relations == old(relations) + RelationsFrom(item)
    {
      match item
      case EmittedEntity(l, e) =>
        deferred := deferred + [Defer(origin, l, e)];
      case EmittedRelation(r) =>
        relations := relations + [r];
    }
  }
}
