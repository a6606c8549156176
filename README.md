# Catalog entity-processing orchestrator, modelled in Dafny

This project models the catalog backend's entity-processing orchestrator
(`DefaultCatalogProcessingOrchestrator`). Its implementation file is not part
of this model. The model follows the orchestrator's processing contract as the
test `plugins/catalog-backend/src/next/processing/DefaultCatalogProcessingOrchestrator.test.ts`
pins it down, together with the test's own `FooBarProcessor`.

One call to `process({ entity, location?, state? })` does the following:

1. **Kind validation.** The processors are asked in order whether the entity's kind is theirs.
   The entity is rejected (`ok: false`) unless one of them says yes.
2. **Location.** The location to process is the one supplied. When none is supplied, it is read
   from the entity's `backstage.io/managed-by-location` annotation, which has the form `type:target`.
3. **State normalisation.** Any persisted `state` value becomes `{ cache }`, and this step never fails.
   A well-formed envelope keeps its whole cache. Anything else becomes the empty cache.
4. **Post-processing.** Each processor that implements `postProcessEntity` runs in configured order.
   - The entity is threaded from one processor to the next.
   - Each processor gets a cache facade bound to its own name, so it reads and writes only
     `state.cache[name]`.
   - Each processor gets an emit channel.
   - An emitted entity becomes a deferred entity:
     - its `locationKey` is `type:target` of the emission location;
     - its location annotation has the same value;
     - its origin-location annotation is copied from the entity passed to `process`.
   - Emitted relations are collected verbatim and in order.
   - A processor that throws is recorded as an error, and its entity is not taken.
5. **Result.** `ok`, `completedEntity`, `deferredEntities`, `errors`, `relations` and `state`.

Modules, one per component:

- `Values` (`values.dfy`): the JSON-like values persisted state may hold, and JavaScript truthiness.
- `Entities` (`entities.dfy`): entities, locations, relations, deferred entities, the two annotations,
  the `type:target` form and its parser, and ASCII lower-casing.
- `ProcessingStates` (`state.dfy`): state normalisation, the namespaced cache operations, and two classes:
  - `SharedCache`, the shared map that processors' writes update in place;
  - `ProcessorCache`, the per-processor facade.
- `Emission` (`emit.dfy`): what `emit` accepts, how an emitted entity is resolved, and the
  `EmitCollector` class the orchestrator appends to.
- `Orchestrator` (`orchestrator.dfy`): processors and the specification of one call.
  - Processors are records with optional capabilities. A `postProcessEntity` call is described by the
    ordered list of its `emit`/`cache.set` calls and how it ended.
  - `ProcessEntity` is the specification function for one call.
  - The imperative `Process` method loops over the processors. It applies each effect as it is made,
    through the collector and the cache facade. It is proved equal to `ProcessEntity`.
- `OrchestratorProperties` (`properties.dfy`): properties of every configuration.
- `FooBar` (`foobar.dfy`): `FooBarProcessor` and the test's three scenarios.

Modelling choices where the test does not pin the behaviour down:

- **Kind validation.** The kind is accepted when some processor's `validateEntityKind` returns true.
  `false` means "not my kind", as `FooBarProcessor` returns for every other kind.
  An "any `false` is fatal" reading was not adopted: with it, two processors for different kinds
  would reject every entity.
- **Rejected result.** A rejected result carries only its single error. `completedEntity` is absent
  (`Orchestrator.ProcessingResult.Rejected`).
- **Origin source.** The origin annotation of a deferred entity is taken from the entity passed to
  `process`, not from the entity as earlier processors left it (`Orchestrator.ProcessEntity`).
  The test cannot tell the two apart, since `FooBarProcessor` returns its input unchanged.
- **Missing origin.** When the entity passed to `process` has no origin annotation, a deferred
  entity has none either.
- **Missing location.** An entity with no supplied location and no parsable location annotation
  is rejected with a `MissingLocation` error.

## Model

Source cells are paths relative to the repository root.

| member | source | states |
|---|---|---|
| `ProcessingStates.NormalizeState` | plugins/catalog-backend/src/next/processing/DefaultCatalogProcessingOrchestrator.test.ts:147-183 | total: an envelope whose `cache` is an object keeps that exact cache; every other input (null, [], symbol, undefined, 3, '}{', `{cache: null}`) gives the empty cache |
| `Values.Truthy` | plugins/catalog-backend/src/next/processing/DefaultCatalogProcessingOrchestrator.test.ts:49 | JavaScript truthiness of the value `cache.get` returns (definition; `PostStage` proves its effect) |
| `ProcessingStates.StateValue` | plugins/catalog-backend/src/next/processing/DefaultCatalogProcessingOrchestrator.test.ts:141-143 | a returned state, persisted as `{ cache }`, is well formed and normalises back to itself |
| `ProcessingStates.Namespace` | plugins/catalog-backend/src/next/processing/DefaultCatalogProcessingOrchestrator.test.ts:112 | a processor's slice is its own entry `state.cache[name]` when that is an object, else empty |
| `ProcessingStates.CacheGet` | plugins/catalog-backend/src/next/processing/DefaultCatalogProcessingOrchestrator.test.ts:49 | `cache.get(key)` for processor `name` reads `state.cache[name][key]`, `undefined` if never set |
| `ProcessingStates.CacheSet` | plugins/catalog-backend/src/next/processing/DefaultCatalogProcessingOrchestrator.test.ts:47 | after `set(key, v)` the key reads `v`; other keys of the namespace and every other processor's entry are unchanged |
| `ProcessingStates.ProcessorCache.View` | plugins/catalog-backend/src/next/processing/DefaultCatalogProcessingOrchestrator.test.ts:47-49 | what the facade hands a processor reads, key by key, exactly as `cache.get` on the shared map does |
| `ProcessingStates.ProcessorCache.Set` | plugins/catalog-backend/src/next/processing/DefaultCatalogProcessingOrchestrator.test.ts:47 | a write through the facade updates the shared map in this processor's namespace only |
| `Entities.ParseLocationRef` | plugins/catalog-backend/src/next/processing/DefaultCatalogProcessingOrchestrator.test.ts:81 | a parsed `type:target` reference is a valid location whose string form is the reference itself |
| `Entities.ParseStringify` | plugins/catalog-backend/src/next/processing/DefaultCatalogProcessingOrchestrator.test.ts:119-126 | every valid location round-trips through its `type:target` string form |
| `Entities.LowerIgnoresCase` | plugins/catalog-backend/src/next/processing/DefaultCatalogProcessingOrchestrator.test.ts:40 | two kinds that differ only in the case of their letters lower-case to the same string |
| `Emission.Defer` | plugins/catalog-backend/src/next/processing/DefaultCatalogProcessingOrchestrator.test.ts:117-131 | a deferred entity is keyed by `type:target`, carries that key as its location annotation and the producer's origin as its origin annotation, and keeps every other annotation and field |
| `Emission.EmitCollector.Emit` | plugins/catalog-backend/src/next/processing/DefaultCatalogProcessingOrchestrator.test.ts:50-68 | `emit` appends the resolved entity or the relation to the collected lists |
| `Orchestrator.ValidateKind` | plugins/catalog-backend/src/next/processing/DefaultCatalogProcessingOrchestrator.test.ts:39-41 | the validation loop answers true exactly when some processor claims the kind |
| `Orchestrator.ResolveLocation` | plugins/catalog-backend/src/next/processing/DefaultCatalogProcessingOrchestrator.test.ts:96 | a supplied location is used as it is; otherwise a found location is the one the entity's location annotation names, and an entity without that annotation has none |
| `Orchestrator.ResolvesAnnotatedLocation` | plugins/catalog-backend/src/next/processing/DefaultCatalogProcessingOrchestrator.test.ts:81-96 | without a supplied location, an annotation naming a valid location is found and used |
| `Orchestrator.RunProcessor` | plugins/catalog-backend/src/next/processing/DefaultCatalogProcessingOrchestrator.test.ts:43-71 | one processor's post-processing step (definition; `RunProcessorCollects` states what it does) |
| `Orchestrator.RunProcessors` | plugins/catalog-backend/src/next/processing/DefaultCatalogProcessingOrchestrator.test.ts:87-93 | every processor in configured order (definition; the `RunProcessors…` lemmas state its properties) |
| `Orchestrator.ProcessEntity` | plugins/catalog-backend/src/next/processing/DefaultCatalogProcessingOrchestrator.test.ts:95-106 | `ok` exactly when some processor claims the kind and a location is known; a rejection carries one error; state never causes rejection |
| `Orchestrator.PerformEffects` | plugins/catalog-backend/src/next/processing/DefaultCatalogProcessingOrchestrator.test.ts:49-68 | a processor's emits and cache writes are carried out in order on the collector and the shared cache |
| `Orchestrator.Process` | plugins/catalog-backend/src/next/processing/DefaultCatalogProcessingOrchestrator.test.ts:87-96 | the imperative orchestrator returns exactly the specified result |
| `OrchestratorProperties.ApplyEffectsKeepsEntity` | plugins/catalog-backend/src/next/processing/DefaultCatalogProcessingOrchestrator.test.ts:50-70 | emitting and caching never change the entity being processed nor the errors |
| `OrchestratorProperties.ApplyEffectsRelations` | plugins/catalog-backend/src/next/processing/DefaultCatalogProcessingOrchestrator.test.ts:134-140 | collected relations are exactly the emitted ones, verbatim and in emission order |
| `OrchestratorProperties.ApplyEffectsDeferred` | plugins/catalog-backend/src/next/processing/DefaultCatalogProcessingOrchestrator.test.ts:117-132 | collected deferred entities are exactly the emitted entities, resolved, in emission order |
| `OrchestratorProperties.ApplyEffectsCache` | plugins/catalog-backend/src/next/processing/DefaultCatalogProcessingOrchestrator.test.ts:37 | a processor's writes touch only its own namespace, and a processor that only reads leaves the cache unchanged |
| `OrchestratorProperties.ApplyEffectsOwnCache` | plugins/catalog-backend/src/next/processing/DefaultCatalogProcessingOrchestrator.test.ts:47 | after a processor's effects, each key of its own namespace reads as the last value it wrote there (`LastWrite`), or as before when it wrote none |
| `OrchestratorProperties.RunProcessorCollects` | plugins/catalog-backend/src/next/processing/DefaultCatalogProcessingOrchestrator.test.ts:43-71 | one processor step appends its emissions in order; the returned entity is taken; a throw keeps the entity and adds one error naming the processor |
| `OrchestratorProperties.RunProcessorWrites` | plugins/catalog-backend/src/next/processing/DefaultCatalogProcessingOrchestrator.test.ts:43-71 | one processor step leaves each key of that processor's namespace as the last value its call wrote, or as before |
| `OrchestratorProperties.RunProcessorsAppendOnly` | plugins/catalog-backend/src/next/processing/DefaultCatalogProcessingOrchestrator.test.ts:117-140 | relations, deferred entities and errors only grow: what earlier processors produced stays in place |
| `OrchestratorProperties.EmittedDeferredStamped` | plugins/catalog-backend/src/next/processing/DefaultCatalogProcessingOrchestrator.test.ts:125-127 | every deferred entity an effect list emits carries its key as location and the producer's origin |
| `OrchestratorProperties.RunProcessorsStamped` | plugins/catalog-backend/src/next/processing/DefaultCatalogProcessingOrchestrator.test.ts:125-127 | across all processors, every deferred entity carries its key as location and the producer's origin |
| `OrchestratorProperties.RunProcessorsKeepsOtherNamespaces` | plugins/catalog-backend/src/next/processing/DefaultCatalogProcessingOrchestrator.test.ts:141-143 | the cache entry of a name under which no processor post-processes (none configured, or configured without the capability) comes back unchanged |
| `OrchestratorProperties.ReadOnlyRunKeepsCache` | plugins/catalog-backend/src/next/processing/DefaultCatalogProcessingOrchestrator.test.ts:112-143 | a run of processors that never write the cache returns the cache exactly as it went in |
| `OrchestratorProperties.QuietRunIsIdentity` | plugins/catalog-backend/src/next/processing/DefaultCatalogProcessingOrchestrator.test.ts:95-106 | processors that emit nothing, write nothing and return their input leave the whole run state unchanged |
| `OrchestratorProperties.DeferredEntitiesStamped` | plugins/catalog-backend/src/next/processing/DefaultCatalogProcessingOrchestrator.test.ts:117-131 | in every processed result each deferred entity's location annotation equals its `locationKey` and its origin equals the input entity's origin |
| `OrchestratorProperties.ForeignCacheEntriesKept` | plugins/catalog-backend/src/next/processing/DefaultCatalogProcessingOrchestrator.test.ts:141-143 | a persisted cache entry of a processor that never runs is returned in `state` unchanged |
| `OrchestratorProperties.SingleProcessorPersistsWrites` | plugins/catalog-backend/src/next/processing/DefaultCatalogProcessingOrchestrator.test.ts:141-143 | `cache.set` is persisted into the returned state: with one processor, each key of its namespace in the result is the last value its call wrote, or the input state's value |
| `OrchestratorProperties.NothingEmittedCompletesInput` | plugins/catalog-backend/src/next/processing/DefaultCatalogProcessingOrchestrator.test.ts:95-106 | with nothing emitted and nothing changed, the result is `ok` with the input entity, no deferred entities, errors or relations, and the normalised state |
| `OrchestratorProperties.ReadOnlyProcessorsReturnState` | plugins/catalog-backend/src/next/processing/DefaultCatalogProcessingOrchestrator.test.ts:141-143 | when every processor only reads the cache, a processed result returns the normalised input state |
| `FooBar.PostProcessEntity` | plugins/catalog-backend/src/next/processing/DefaultCatalogProcessingOrchestrator.test.ts:43-71 | returns its input entity, never writes the cache, emits at most two things |
| `FooBar.FooBarProcessor` | plugins/catalog-backend/src/next/processing/DefaultCatalogProcessingOrchestrator.test.ts:36-37 | the processor is named `foo-bar` |
| `FooBar.ValidateEntityKind` | plugins/catalog-backend/src/next/processing/DefaultCatalogProcessingOrchestrator.test.ts:39-41 | the kind, lower-cased, is `foobar` (definition; `ValidatesKindIgnoringCase` and `ValidatesFooBarKinds` state its behaviour) |
| `FooBar.ValidatesKindIgnoringCase` | plugins/catalog-backend/src/next/processing/DefaultCatalogProcessingOrchestrator.test.ts:39-41 | flipping the case of any letters of a kind never changes whether `FooBarProcessor` accepts it |
| `FooBar.FooBarOnlyReadsCache` | plugins/catalog-backend/src/next/processing/DefaultCatalogProcessingOrchestrator.test.ts:49-70 | `FooBarProcessor` never writes its cache, whatever it is given |
| `FooBar.ValidatesFooBarKinds` | plugins/catalog-backend/src/next/processing/DefaultCatalogProcessingOrchestrator.test.ts:40 | `FooBar`, `FOOBAR`, `foobar`, `fooBAR` are accepted; `Component`, `FooBars`, `Foo-Bar`, `FooBaz` and the empty kind are not |
| `FooBar.ClaimsIffValid` | plugins/catalog-backend/src/next/processing/DefaultCatalogProcessingOrchestrator.test.ts:87-93 | an orchestrator holding only `FooBarProcessor` claims exactly the kinds it validates |
| `FooBar.PostStage` | plugins/catalog-backend/src/next/processing/DefaultCatalogProcessingOrchestrator.test.ts:49-70 | with `emit` falsy under `foo-bar` the stage changes nothing; with it truthy it adds exactly the resolved new FooBar and the relation, cache unchanged |
| `FooBar.FooBarRun` | plugins/catalog-backend/src/next/processing/DefaultCatalogProcessingOrchestrator.test.ts:43-71 | for any foobar-kind entity and any state the whole result, in both the falsy and truthy `emit` cases |
| `FooBar.TestEntityLocation` | plugins/catalog-backend/src/next/processing/DefaultCatalogProcessingOrchestrator.test.ts:81 | with no location supplied the test entity is processed at `url:./here` |
| `FooBar.MinimalProcessing` | plugins/catalog-backend/src/next/processing/DefaultCatalogProcessingOrchestrator.test.ts:95-106 | "runs a minimal processing": `ok`, entity unchanged, nothing deferred, no errors or relations, `state.cache` is `{}` |
| `FooBar.EmitStateReadsTrue` | plugins/catalog-backend/src/next/processing/DefaultCatalogProcessingOrchestrator.test.ts:112 | the state `{cache: {'foo-bar': {emit: true}}}` normalises to itself and `foo-bar` reads `emit` as true |
| `FooBar.ResolvesExpectedDeferred` | plugins/catalog-backend/src/next/processing/DefaultCatalogProcessingOrchestrator.test.ts:117-131 | the emitted FooBar resolves to the expected deferred entity keyed `url:./new-place` with origin `url:./there` |
| `FooBar.EmitsSomeThings` | plugins/catalog-backend/src/next/processing/DefaultCatalogProcessingOrchestrator.test.ts:108-145 | "emits some things": the exact expected result, one deferred entity, one relation, the state returned as it came in |
| `FooBar.AcceptsAnyState` | plugins/catalog-backend/src/next/processing/DefaultCatalogProcessingOrchestrator.test.ts:147-183 | "accepts any state input": processing the test entity is `ok` for every state value |
| `FooBar.AcceptsTestedStates` | plugins/catalog-backend/src/next/processing/DefaultCatalogProcessingOrchestrator.test.ts:147-183 | the seven malformed states of the test each give `ok` |

## Left out

- Promises and `await`: every call is synchronous here, and cache reads cannot suspend.
- The logger, the integrations registry and the entity data parser are not modelled. No modelled path uses them.
- The entity policy (`EntityPolicies.allOf([])`) is treated as always passing. No policy error is ever produced.
- A processor whose `validateEntityKind` throws is not modelled. A validator is a total function.
- Emit results other than entities and relations (location, error and not-found results) are not modelled.
  The test emits neither kind.
- Processor capabilities other than kind validation and post-processing (pre-processing, reading locations,
  entity validation) are not modelled.
- The wording of error messages is not modelled. An error records its kind, the processor and the entity reference.
- Cache reads after a write within the same processor call are not modelled. A `postProcessEntity` function
  is handed its namespace as it stood when the call began, so read-after-write is the processor's own concern.
- Concurrency between invocations and persistence of state between calls are not modelled.
- Values: numbers are integers, so `NaN`, `-0` and fractions are not represented.
- Values: a property read on a string, an array or a symbol yields `undefined`, even for keys such as `length`.
- Entities: fields other than `apiVersion`, `kind`, `metadata.name`, `metadata.namespace`,
  `metadata.annotations` and `spec` are not modelled.
- Entities.ToLowerAscii: lower-cases ASCII letters only, because `toLocaleLowerCase('en-US')` follows Unicode
  case mapping, which is not modelled.
- Entities.ParseLocationRef: splits at the first colon and requires both parts non-empty. The trimming of
  whitespace and the rejection of bare `http`/`https` types are not modelled; the catalog model's parser
  is not part of this model.
- ProcessingStates.CacheSet: writing into a namespace whose stored value is not an object starts that
  namespace afresh. What the original does in that case is not part of this model.
