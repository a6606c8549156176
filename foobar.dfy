/**
 * `FooBarProcessor`, the processor the orchestrator's test configures, and
 * the three scenarios the test runs against an orchestrator holding it alone.
 */
module FooBar {
  import opened Wrappers
  import opened Values
  import opened Entities
  import opened ProcessingStates
  import opened Emission
  import opened Orchestrator
  import opened OrchestratorProperties

  /** `getProcessorName()`, also the processor's cache namespace. */
  const ProcessorName: string := "foo-bar"

  /** The location the processor emits its derived entity at. */
  const NewPlace: LocationSpec := LocationSpec("url", "./new-place")

  /** `validateEntityKind`: the kind, lower-cased, is `foobar`. */
  function ValidateEntityKind(e: Entity): bool {
    ToLowerAscii(e.kind) == "foobar"
  }

  /** The entity the processor emits. */
  function NewFooBar(): Entity {
    Entity("my-api/v1", "FooBar", Metadata("my-new-foo-bar", None, map[]), Undefined)
  }

  /** The relation the processor emits. */
  function MyRelation(): Relation {
    Relation("my-type",
             EntityName("foobar", DefaultNamespace, "my-source"),
             EntityName("foobar", DefaultNamespace, "my-target"))
  }

  /**
   * `postProcessEntity`: when its cached `emit` is truthy, emits the derived
   * entity at `url:./new-place` and then the relation; it never writes the
   * cache and always returns the entity it was given.
   */
  function PostProcessEntity(e: Entity, location: LocationSpec, cache: map<string, Value>): (r: PostResult)
    ensures r.outcome == Returned(e)
    ensures ReadsOnly(r.effects)
    ensures |r.effects| <= 2
  {
    if Truthy(Property(Obj(cache), "emit")) then
      PostResult([Emit(EmittedEntity(NewPlace, NewFooBar())), Emit(EmittedRelation(MyRelation()))], Returned(e))
    else
      PostResult([], Returned(e))
  }

  function FooBarProcessor(): (p: Processor)
    ensures p.name == ProcessorName
  {
    Processor(ProcessorName, Some(ValidateEntityKind), Some(PostProcessEntity))
  }

  /** `FooBarProcessor` only reads its cache (so `ReadOnlyProcessorsReturnState` applies to it). */
  lemma FooBarOnlyReadsCache()
    ensures OnlyReadsCache(FooBarProcessor())
  {
    forall e: Entity, l: LocationSpec, c: map<string, Value>
      ensures ReadsOnly(FooBarProcessor().postProcessEntity.value(e, l, c).effects)
    {
      assert FooBarProcessor().postProcessEntity.value(e, l, c) == PostProcessEntity(e, l, c);
    }
  }

  /** The kind check ignores case: flipping the case of any letters of a kind does not change the answer. */
  lemma ValidatesKindIgnoringCase(e1: Entity, e2: Entity)
    requires SameUpToCase(e1.kind, e2.kind)
    ensures ValidateEntityKind(e1) == ValidateEntityKind(e2)
  {
    LowerIgnoresCase(e1.kind, e2.kind);
  }

  /** The test's kind `FooBar` and its other spellings are accepted; other kinds are not. */
  lemma ValidatesFooBarKinds(e: Entity)
    ensures e.kind in {"FooBar", "FOOBAR", "foobar", "fooBAR"} ==> ValidateEntityKind(e)
    ensures e.kind in {"Component", "FooBars", "Foo-Bar", ""} ==> !ValidateEntityKind(e)
    ensures e.kind == "FooBaz" ==> !ValidateEntityKind(e)
  {
    if e.kind in {"FooBar", "FOOBAR", "foobar", "fooBAR"} {
      assert ToLowerAscii(e.kind) == "foobar";
    } else if e.kind == "FooBaz" {
      assert ToLowerAscii(e.kind)[5] == 'z';
    }
  }

  /** An orchestrator holding only this processor claims exactly the kinds it validates. */
  lemma ClaimsIffValid(e: Entity)
    ensures KindClaimed([FooBarProcessor()], e) <==> ValidateEntityKind(e)
  {
    if ValidateEntityKind(e) {
      assert Claims([FooBarProcessor()][0], e);
    }
  }

  /**
   * Whatever the persisted state, an entity of kind foobar with a known
   * location is processed; it completes unchanged with no errors and the
   * normalised state, even when `emit` was set, since the processor only
   * reads. With `emit` falsy in its namespace nothing is produced; with it
   * truthy exactly one deferred entity (the new FooBar resolved at
   * `url:./new-place`) and exactly the one relation come out.
   */
  lemma {:induction false} FooBarRun(e: Entity, location: Option<LocationSpec>, state: Value)
    requires ValidateEntityKind(e) && ResolveLocation(e, location).Some?
    ensures var st := NormalizeState(state);
            var r := ProcessEntity([FooBarProcessor()], e, location, state);
            && (!Truthy(CacheGet(st.cache, ProcessorName, "emit")) ==> r == Processed(e, [], [], [], st))
            && (Truthy(CacheGet(st.cache, ProcessorName, "emit")) ==>
                  r == Processed(e, [Defer(AnnotationOf(e, OriginLocationAnnotation), NewPlace, NewFooBar())],
                                 [], [MyRelation()], st))
  {
    ClaimsIffValid(e);
    PostStage(e, ResolveLocation(e, location).value, AnnotationOf(e, OriginLocationAnnotation), NormalizeState(state));
  }

  /** The post-processing stage of an orchestrator holding only this processor. */
  lemma PostStage(e: Entity, loc: LocationSpec, origin: Option<string>, st: ProcessingState)
    ensures var r := RunProcessors(InitialRun(e, st), [FooBarProcessor()], loc, origin);
            && (!Truthy(CacheGet(st.cache, ProcessorName, "emit")) ==> r == InitialRun(e, st))
            && (Truthy(CacheGet(st.cache, ProcessorName, "emit")) ==>
                  r == RunState(e, st.cache, [Defer(origin, NewPlace, NewFooBar())], [MyRelation()], []))
  {
    var ps := [FooBarProcessor()];
    var start := InitialRun(e, st);
    var p := FooBarProcessor();
    var out := PostProcessEntity(e, loc, Namespace(st.cache, ProcessorName));
    assert p.postProcessEntity.value(e, loc, Namespace(st.cache, p.name)) == out;
    assert RunProcessors(start, ps, loc, origin) == RunProcessor(start, p, loc, origin) by {
      assert ps[..0] == [];
    }
    RunProcessorCollects(start, p, loc, origin);
    ApplyEffectsCache(start, ProcessorName, origin, out.effects);
    if Truthy(CacheGet(st.cache, ProcessorName, "emit")) {
      var effs := out.effects;
      assert effs[1..][1..] == [];
      assert EmittedRelations(effs[1..]) == [MyRelation()];
      assert EmittedRelations(effs) == [MyRelation()];
      assert EmittedDeferred(origin, effs[1..]) == [];
      assert EmittedDeferred(origin, effs) == [Defer(origin, NewPlace, NewFooBar())];
    }
  }

  /** The entity every test scenario processes. */
  function TestEntity(): Entity {
    Entity("my-api/v1", "FooBar",
           Metadata("my-foo-bar", None,
                    map[LocationAnnotation := "url:./here", OriginLocationAnnotation := "url:./there"]),
           Undefined)
  }

  /** With no location given, the test entity is processed at its own location `url:./here`. */
  lemma TestEntityLocation()
    ensures ResolveLocation(TestEntity(), None) == Some(LocationSpec("url", "./here"))
  {
    var l := LocationSpec("url", "./here");
    assert StringifyLocationRef(l) == "url:./here";
    ParseStringify(l);
  }

  /** "runs a minimal processing": no state in, nothing out, `state.cache` is `{}`. */
  lemma MinimalProcessing()
    ensures ProcessEntity([FooBarProcessor()], TestEntity(), None, Undefined)
            == Processed(TestEntity(), [], [], [], ProcessingState(map[]))
  {
    ValidatesFooBarKinds(TestEntity());
    TestEntityLocation();
    FooBarRun(TestEntity(), None, Undefined);
  }

  /** The state of the "emits some things" scenario. */
  function EmitState(): Value {
    StateValue(ProcessingState(map[ProcessorName := Obj(map["emit" := Bool(true)])]))
  }

  /** The deferred entity the "emits some things" scenario expects. */
  function ExpectedDeferred(): DeferredEntity {
    DeferredEntity(
      Entity("my-api/v1", "FooBar",
             Metadata("my-new-foo-bar", None,
                      map[LocationAnnotation := "url:./new-place", OriginLocationAnnotation := "url:./there"]),
             Undefined),
      "url:./new-place")
  }

  /**
   * "emits some things": `emit` set under `foo-bar` yields one deferred entity
   * keyed and located at `url:./new-place` with origin `url:./there` (the
   * processed entity's origin, not its location `url:./here`), the one
   * relation, and the state returned as it came in.
   */
  lemma EmitsSomeThings()
    ensures ProcessEntity([FooBarProcessor()], TestEntity(), None, EmitState())
            == Processed(TestEntity(), [ExpectedDeferred()], [], [MyRelation()],
                         ProcessingState(map[ProcessorName := Obj(map["emit" := Bool(true)])]))
  {
    ValidatesFooBarKinds(TestEntity());
    TestEntityLocation();
    EmitStateReadsTrue();
    FooBarRun(TestEntity(), None, EmitState());
    ResolvesExpectedDeferred();
  }

  /** The state of "emits some things" normalises to itself, and `foo-bar` reads `emit` as true. */
  lemma EmitStateReadsTrue()
    ensures NormalizeState(EmitState()) == ProcessingState(map[ProcessorName := Obj(map["emit" := Bool(true)])])
    ensures CacheGet(NormalizeState(EmitState()).cache, ProcessorName, "emit") == Bool(true)
  {
  }

  /** Resolving the emitted FooBar against the test entity's origin gives the expected deferred entity. */
  lemma ResolvesExpectedDeferred()
    ensures Defer(AnnotationOf(TestEntity(), OriginLocationAnnotation), NewPlace, NewFooBar()) == ExpectedDeferred()
  {
    assert AnnotationOf(TestEntity(), OriginLocationAnnotation) == Some("url:./there");
    var d := Defer(Some("url:./there"), NewPlace, NewFooBar());
    assert StringifyLocationRef(NewPlace) == "url:./new-place";
    DistinctAnnotationKeys();
    assert d.entity.metadata.annotations
           == map[LocationAnnotation := "url:./new-place", OriginLocationAnnotation := "url:./there"];
  }

  /** "accepts any state input": no persisted state, however malformed, makes processing fail. */
  lemma AcceptsAnyState(state: Value)
    ensures ProcessEntity([FooBarProcessor()], TestEntity(), None, state).Ok()
  {
    ValidatesFooBarKinds(TestEntity());
    ClaimsIffValid(TestEntity());
    TestEntityLocation();
  }

  /** The malformed states the test feeds in: null, [], a symbol, undefined, 3, '}{' and `{ cache: null }`. */
  lemma AcceptsTestedStates()
    ensures forall state :: state in [Null, Arr([]), Sym(0), Undefined, Num(3), Str("}{"), Obj(map["cache" := Null])] ==>
              ProcessEntity([FooBarProcessor()], TestEntity(), None, state).Ok()
  {
    forall state | state in [Null, Arr([]), Sym(0), Undefined, Num(3), Str("}{"), Obj(map["cache" := Null])]
      ensures ProcessEntity([FooBarProcessor()], TestEntity(), None, state).Ok()
    {
      AcceptsAnyState(state);
    }
  }
}
