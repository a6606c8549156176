/**
 * Entities, locations and relations as the catalog model defines them, with
 * the two annotations the orchestrator stamps on derived entities.
 */
module Entities {
  import opened Wrappers
  import opened Values

  /** Annotation naming the location an entity is currently read from. */
  const LocationAnnotation: string := "backstage.io/managed-by-location"

  /** Annotation naming the location an entity was first discovered at. */
  const OriginLocationAnnotation: string := "backstage.io/managed-by-origin-location"

  const DefaultNamespace: string := "default"

  /** The two annotations an emitted entity is stamped with are different keys. */
  lemma DistinctAnnotationKeys()
    ensures LocationAnnotation != OriginLocationAnnotation
  {
    assert |LocationAnnotation| != |OriginLocationAnnotation|;
  }

  /** A source of entity data, `{ type, target }` (`type` is a Dafny keyword). */
  datatype LocationSpec = LocationSpec(locType: string, target: string)

  datatype Metadata = Metadata(
    name: string,
    namespace: Option<string>,
    annotations: map<string, string>)

  /** A catalog entity. An absent `annotations` object is the empty map; an absent `spec` is `Undefined`. */
  datatype Entity = Entity(
    apiVersion: string,
    kind: string,
    metadata: Metadata,
    spec: Value)

  /** A reference `{ kind, namespace, name }` to an entity. */
  datatype EntityName = EntityName(kind: string, namespace: string, name: string)

  /** A directed, typed edge between two entities. */
  datatype Relation = Relation(relationType: string, source: EntityName, target: EntityName)

  /** An entity queued to be processed later, keyed by the location it is read from. */
  datatype DeferredEntity = DeferredEntity(entity: Entity, locationKey: string)

  /** The reference naming an entity, with the default namespace filled in. */
  function NameOf(e: Entity): (r: EntityName)
    ensures r.kind == e.kind && r.name == e.metadata.name
    ensures r.namespace == e.metadata.namespace.GetOr(DefaultNamespace)
  {
    EntityName(e.kind, e.metadata.namespace.GetOr(DefaultNamespace), e.metadata.name)
  }

  /** The value of an annotation, if the entity carries it. */
  function AnnotationOf(e: Entity, key: string): Option<string> {
    if key in e.metadata.annotations then Some(e.metadata.annotations[key]) else None
  }

  /** The string form `type:target` of a location, used as `locationKey` and as annotation value. */
  function StringifyLocationRef(l: LocationSpec): string {
    l.locType + ":" + l.target
  }

  /** A location the string form can represent unambiguously. */
  predicate ValidLocation(l: LocationSpec) {
    l.locType != "" && l.target != "" && ':' !in l.locType
  }

  /** The index of the first occurrence of `c` in `s`, if any. */
  function IndexOf(s: string, c: char): (r: Option<nat>)
    ensures r.Some? ==> r.value < |s| && s[r.value] == c && c !in s[..r.value]
    ensures r.None? ==> c !in s
  {
    if s == [] then None
    else if s[0] == c then Some(0)
    else
      match IndexOf(s[1..], c)
      case None => None
      case Some(i) => Some(i + 1)
  }

  /**
   * Reads a `type:target` reference, splitting at the first colon; both
   * halves must be non-empty.
   */
  function ParseLocationRef(ref: string): (r: Option<LocationSpec>)
    ensures r.Some? ==> ValidLocation(r.value) && StringifyLocationRef(r.value) == ref
  {
    match IndexOf(ref, ':')
    case None => None
    case Some(i) =>
      var l := LocationSpec(ref[..i], ref[i + 1..]);
      assert ref == ref[..i] + [':'] + ref[i + 1..];
      if l.locType == "" || l.target == "" then None else Some(l)
  }

  /** Every valid location survives the round trip through its string form. */
  lemma {:induction false} ParseStringify(l: LocationSpec)
    requires ValidLocation(l)
    ensures ParseLocationRef(StringifyLocationRef(l)) == Some(l)
  {
    var s := StringifyLocationRef(l);
    FirstColon(l.locType, l.target);
    assert s[..|l.locType|] == l.locType;
    assert s[|l.locType| + 1..] == l.target;
  }

  /** In `t + ":" + x` with no colon in `t`, the first colon is the one after `t`. */
  lemma {:induction false} FirstColon(t: string, x: string)
    requires ':' !in t
    ensures IndexOf(t + ":" + x, ':') == Some(|t|)
  {
    if t != [] {
      assert (t + ":" + x)[1..] == t[1..] + ":" + x;
      FirstColon(t[1..], x);
    }
  }

  /** ASCII lower-casing of one character. */
  function LowerChar(c: char): char {
    if 'A' <= c <= 'Z' then (c as int - 'A' as int + 'a' as int) as char else c
  }

  /** The ASCII lower-case form of a string, character by character. */
  function ToLowerAscii(s: string): (r: string)
    ensures |r| == |s|
    ensures forall i :: 0 <= i < |s| ==> r[i] == LowerChar(s[i])
  {
    seq(|s|, i requires 0 <= i < |s| => LowerChar(s[i]))
  }

  /** ASCII upper-casing of one character. */
  function UpperChar(c: char): char {
    if 'a' <= c <= 'z' then (c as int - 'a' as int + 'A' as int) as char else c
  }

  /** `b` is `a` with some of its letters switched to upper or lower case. */
  predicate SameUpToCase(a: string, b: string) {
    |a| == |b| &&
    forall i :: 0 <= i < |a| ==> b[i] == a[i] || b[i] == UpperChar(a[i]) || b[i] == LowerChar(a[i])
  }

  /** Strings that differ only in the case of their letters lower-case to the same string. */
  lemma LowerIgnoresCase(a: string, b: string)
    requires SameUpToCase(a, b)
    ensures ToLowerAscii(a) == ToLowerAscii(b)
  {
    forall i | 0 <= i < |a| ensures LowerChar(b[i]) == LowerChar(a[i]) {
      assert LowerChar(UpperChar(a[i])) == LowerChar(a[i]);
      assert LowerChar(LowerChar(a[i])) == LowerChar(a[i]);
    }
  }
}
