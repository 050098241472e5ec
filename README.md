# Kotlin compiler and IDE helpers: a verified model

This project models four pieces of the Kotlin repository in Dafny and proves
their behaviour.

- **The JS backend's IR builder** (`IrBuilder.kt`):
  - the `JsIrBuilder` factories for calls, if-then-else expressions, variables
    and value parameters (module `JsIrBuilder`);
  - the structural operations on IR declarations: the parent-setting visitor,
    `addChild`/`addChildren`, `simpleFunctions`, `setSuperSymbols(supers)`,
    `createFakeOverride`, `setSuperSymbolsAndAddFakeOverrides` and
    `IrTypeParameter.setSupers`.

  The IR objects that these operations update in place live in the class
  `IrHeap` (module `IrHeapOps`). Its fields are maps from symbols to the
  mutable state of classes, functions and type parameters, plus the parent
  map. Each method is proved to leave the state that a function of module
  `IrStructure` describes. The properties are proved about those functions.
  Module `IrTree` holds the entities: symbols, descriptors, declarations and
  origins.
- **The platform configurator** (`PlatformConfiguratorBase.kt`, module
  `PlatformConfigurator`):
  - the checker lists, each the defaults followed by the platform's additions;
  - the composition of the platform-specific container. The container is a
    class recording its registrations in order, and the model proves what a
    query by capability returns.
- **The script dependencies updater** (`ScriptDependenciesUpdater.kt`, module
  `ScriptDependenciesUpdater`):
  - the cache decisions and the dispatch to its ordered loaders;
  - the script dependencies cache, a class in module `ScriptFiles`;
  - a log of every call made on a loader.
- **The file-attribute loader** (`FromFileAttributeScriptDependenciesLoader.kt`,
  module `FromFileAttributeLoader`).

Kotlin `assert` and `error` calls are modelled as failures the operation
reports: an `Outcome` or `Result` carrying an `IrError` or `BuildError`. They
stop the operation at that point, and what was already done stays done. This
treats assertions as enabled.

`PlatformConfiguratorBase.kt:86` and `:95` concatenate and register the
clash resolvers without checking for duplicates, so the model rejects no
resolver list.

## Model

| member | source | states |
|---|---|---|
| JsIrBuilder.OwnerReturnType | compiler/ir/backend.js/src/org/jetbrains/kotlin/ir/backend/js/ir/IrBuilder.kt:39 | reading `target.owner.returnType` succeeds exactly when the symbol is bound and its return type is set, and yields that type |
| JsIrBuilder.BuildCall | compiler/ir/backend.js/src/org/jetbrains/kotlin/ir/backend/js/ir/IrBuilder.kt:35-49 | the call succeeds iff a type is available (explicit, else the owner's return type) and any given type arguments number exactly `typeParametersCount`; the call has the explicit type if given, else the return type; it targets the symbol and descriptor, is synthesized, has `typeParametersCount` slots, slot i holds type argument i, or all slots stay empty without type arguments; each failure reports its cause |
| JsIrBuilder.BuildIfElse | compiler/ir/backend.js/src/org/jetbrains/kotlin/ir/backend/js/ir/IrBuilder.kt:102-119 | a `when` of the given type and origin with exactly one branch (cond, then) without an else, and exactly two with one, the second an else branch guarded by the constant `true` of `cond`'s type |
| JsIrBuilder.BuildSynthesizedIfElse | compiler/ir/backend.js/src/org/jetbrains/kotlin/ir/backend/js/ir/IrBuilder.kt:98-100 | the offset-less overload is `buildIfElse` with the synthesized-statement origin |
| JsIrBuilder.IfElseChoosesBranch | compiler/ir/backend.js/src/org/jetbrains/kotlin/ir/backend/js/ir/IrBuilder.kt:111-118 | the built `when` evaluates to the then result when the condition holds and otherwise to the else result (nothing without an else) |
| JsIrBuilder.BuildVar | compiler/ir/backend.js/src/org/jetbrains/kotlin/ir/backend/js/ir/IrBuilder.kt:91-93 | a synthesized variable of the symbol, with the explicit type or else the owner's type, holding the given initializer; fails only when neither type is available |
| JsIrBuilder.BuildValueParameter | compiler/ir/backend.js/src/org/jetbrains/kotlin/ir/backend/js/ir/IrBuilder.kt:56-57 | a synthesized, non-vararg parameter of the symbol with the explicit type or else the owner's type; fails only when neither type is available |
| IrStructure.WithParent | compiler/ir/backend.js/src/org/jetbrains/kotlin/ir/backend/js/ir/IrBuilder.kt:143 | the parent map after the visit: every visited declaration has the container as parent, every other entry is unchanged |
| IrStructure.ReachedDeclarations | compiler/ir/backend.js/src/org/jetbrains/kotlin/ir/backend/js/ir/IrBuilder.kt:136-146 | `Reached`, the set the visitor sets parents on: the visitor reaches every declaration it visits, a property's accessors and backing field, and stops at a declaration parent (a class or function gets its own parent set, its contents are untouched) |
| IrHeapOps.IrHeap.AcceptVisitor | compiler/ir/backend.js/src/org/jetbrains/kotlin/ir/backend/js/ir/IrBuilder.kt:135-146 | after visiting an element, exactly the declarations it reaches have the given parent; nothing but parents changes |
| IrHeapOps.IrHeap.VisitChildren | compiler/ir/backend.js/src/org/jetbrains/kotlin/ir/backend/js/ir/IrBuilder.kt:137-139 | `acceptChildren` visits every child in order with the same parent |
| IrStructure.AddChildAppends | compiler/ir/backend.js/src/org/jetbrains/kotlin/ir/backend/js/ir/IrBuilder.kt:152-155 | `addChild` (function `AddChild`) appends the declaration at the end, keeps earlier declarations and every other class, sets the declaration's parent to the container, extends `simpleFunctions` by the declaration's functions and keeps the heap well formed |
| IrStructure.AddChildrenAppends | compiler/ir/backend.js/src/org/jetbrains/kotlin/ir/backend/js/ir/IrBuilder.kt:148-150 | `addChildren` (function `AddChildren`) appends the declarations in their order and touches no other class and no function |
| IrHeapOps.IrHeap.AddChild | compiler/ir/backend.js/src/org/jetbrains/kotlin/ir/backend/js/ir/IrBuilder.kt:152-155 | the heap after the method is the `addChild` state of IrStructure |
| IrHeapOps.IrHeap.AddChildren | compiler/ir/backend.js/src/org/jetbrains/kotlin/ir/backend/js/ir/IrBuilder.kt:148-150 | the heap after the loop is the `addChildren` state of IrStructure |
| IrStructure.SimpleFunctionsMembers | compiler/ir/backend.js/src/org/jetbrains/kotlin/ir/backend/js/ir/IrBuilder.kt:170-176 | a symbol is in `simpleFunctions` (function `SimpleFunctionsOf`) iff it is a simple-function declaration or a present getter or setter of a property |
| IrStructure.SimpleFunctionsAppend | compiler/ir/backend.js/src/org/jetbrains/kotlin/ir/backend/js/ir/IrBuilder.kt:170-176 | `simpleFunctions` of concatenated declaration lists is the concatenation, so declaration order is kept |
| IrStructure.SimpleFunctionsBound | compiler/ir/backend.js/src/org/jetbrains/kotlin/ir/backend/js/ir/IrBuilder.kt:170-176 | every function `simpleFunctions` yields exists in a well-formed heap |
| IrStructure.AssociateByDescriptorSpec | compiler/ir/backend.js/src/org/jetbrains/kotlin/ir/backend/js/ir/IrBuilder.kt:185-187 | `associateBy { it.descriptor }` (function `AssociateByDescriptor`) has a key for exactly the descriptors of the list, each mapped to the last function carrying it |
| IrStructure.SuperMemberFunctionsSpec | compiler/ir/backend.js/src/org/jetbrains/kotlin/ir/backend/js/ir/IrBuilder.kt:185-186 | the super members are exactly the simple functions of the supers |
| IrStructure.LookUpOverriddenSpec | compiler/ir/backend.js/src/org/jetbrains/kotlin/ir/backend/js/ir/IrBuilder.kt:192-195 | the lookup of `mapTo` with `error` (function `LookUpOverridden`) misses iff some original is not a super member, reports the first miss, and the symbols found are those of the originals in order up to it |
| IrStructure.FillOverrides | compiler/ir/backend.js/src/org/jetbrains/kotlin/ir/backend/js/ir/IrBuilder.kt:189-196 | filling changes no key and no field of any function other than `overriddenSymbols` |
| IrStructure.FillOverridesOnSuccess | compiler/ir/backend.js/src/org/jetbrains/kotlin/ir/backend/js/ir/IrBuilder.kt:189-196 | after a successful fill each simple function holds exactly the looked-up symbols of its overridden descriptors, and functions outside the list are untouched |
| IrStructure.FillFunction | compiler/ir/backend.js/src/org/jetbrains/kotlin/ir/backend/js/ir/IrBuilder.kt:190-195 | filling one function changes only that function's `overriddenSymbols` and no key |
| IrStructure.FillFunctionSucceedsIff | compiler/ir/backend.js/src/org/jetbrains/kotlin/ir/backend/js/ir/IrBuilder.kt:190-195 | filling one function succeeds iff its overridden symbols start empty and every original of its overridden descriptors is a super member |
| IrStructure.FillOverridesSucceedsIff | compiler/ir/backend.js/src/org/jetbrains/kotlin/ir/backend/js/ir/IrBuilder.kt:189-196 | for a list without repetitions the fill succeeds iff every function's overridden symbols start empty and every overridden original is a super member |
| IrStructure.SetSuperSymbols | compiler/ir/backend.js/src/org/jetbrains/kotlin/ir/backend/js/ir/IrBuilder.kt:178-197 | only `superClasses` and `overriddenSymbols` can change; declarations, descriptors, parents and type parameters are kept and the heap stays well formed |
| IrStructure.SetSuperSymbolsLinks | compiler/ir/backend.js/src/org/jetbrains/kotlin/ir/backend/js/ir/IrBuilder.kt:178-197 | a supertype-set mismatch or a non-empty `superClasses` fails with nothing changed; on success `superClasses` is `supers` in order and overridden symbol k of every simple function is a simple function of some super whose descriptor is the original of overridden descriptor k |
| IrHeapOps.IrHeap.SetSuperSymbols | compiler/ir/backend.js/src/org/jetbrains/kotlin/ir/backend/js/ir/IrBuilder.kt:178-197 | the heap and outcome after the method are those of `setSuperSymbols` in IrStructure |
| IrHeapOps.IrHeap.AppendSuperClasses | compiler/ir/backend.js/src/org/jetbrains/kotlin/ir/backend/js/ir/IrBuilder.kt:183 | `mapTo(superClasses)` appends the supers' symbols in order |
| IrHeapOps.IrHeap.FillAll | compiler/ir/backend.js/src/org/jetbrains/kotlin/ir/backend/js/ir/IrBuilder.kt:189-196 | the functions and outcome after the `forEach` are those of the fill |
| IrHeapOps.IrHeap.FillOne | compiler/ir/backend.js/src/org/jetbrains/kotlin/ir/backend/js/ir/IrBuilder.kt:190-195 | the loop over one function's overridden descriptors leaves exactly the functions and error of `FillFunction`: non-empty overridden symbols are an error, otherwise they become the symbols found up to the first missing original, which is reported |
| IrStructure.CreateFakeOverride | compiler/ir/backend.js/src/org/jetbrains/kotlin/ir/backend/js/ir/IrBuilder.kt:224-243 | a function descriptor gives a fresh fake-override simple function, a property descriptor a fake-override property with no backing field whose getter and setter exist exactly when the descriptor's do; any other descriptor fails; only fresh functions are added and the heap stays well formed |
| IrHeapOps.IrHeap.CreateAccessor | compiler/ir/backend.js/src/org/jetbrains/kotlin/ir/backend/js/ir/IrBuilder.kt:226-231 | a present accessor gets a fresh fake-override function, an absent one nothing |
| IrHeapOps.IrHeap.CreateFakeOverride | compiler/ir/backend.js/src/org/jetbrains/kotlin/ir/backend/js/ir/IrBuilder.kt:224-243 | the heap and result after the method are those of `createFakeOverride` in IrStructure |
| IrStructure.Originals | compiler/ir/backend.js/src/org/jetbrains/kotlin/ir/backend/js/ir/IrBuilder.kt:248 | `overriddenDescriptors.map { it.original }`, element by element |
| IrStructure.OverriddenSuperMembersSpec | compiler/ir/backend.js/src/org/jetbrains/kotlin/ir/backend/js/ir/IrBuilder.kt:247-248 | an original is overridden iff some callable declaration of the class lists it as the original of one of its overridden descriptors |
| IrStructure.MemberDescriptorsSpec | compiler/ir/backend.js/src/org/jetbrains/kotlin/ir/backend/js/ir/IrBuilder.kt:251-256 | a class contributes exactly the descriptors of its simple functions and properties |
| IrStructure.SuperMemberDescriptorsSpec | compiler/ir/backend.js/src/org/jetbrains/kotlin/ir/backend/js/ir/IrBuilder.kt:250-257 | the supers contribute exactly the descriptors of their simple functions and properties |
| IrStructure.UnoverriddenSpec | compiler/ir/backend.js/src/org/jetbrains/kotlin/ir/backend/js/ir/IrBuilder.kt:258 | list subtraction keeps exactly the candidates whose identity is not overridden, and never grows the list |
| IrStructure.UnoverriddenConcat | compiler/ir/backend.js/src/org/jetbrains/kotlin/ir/backend/js/ir/IrBuilder.kt:258 | list subtraction keeps the candidates' order: it distributes over concatenation |
| IrStructure.CandidatesSpec | compiler/ir/backend.js/src/org/jetbrains/kotlin/ir/backend/js/ir/IrBuilder.kt:247-258 | function `Candidates`: a descriptor is an unoverridden super member iff it belongs to a simple function or property of a super and no declaration of the class overrides it |
| IrStructure.FirstAppearancesSpec | compiler/ir/backend.js/src/org/jetbrains/kotlin/ir/backend/js/ir/IrBuilder.kt:276 | the group names are distinct and are exactly the names that occur |
| IrStructure.GroupByNameSpec | compiler/ir/backend.js/src/org/jetbrains/kotlin/ir/backend/js/ir/IrBuilder.kt:276 | `groupBy { it.name }` (function `GroupByName`) makes one group per name in order of first appearance, each holding exactly the members of that name in list order |
| IrStructure.ApplyStrategy | compiler/ir/backend.js/src/org/jetbrains/kotlin/ir/backend/js/ir/IrBuilder.kt:262-273 | a strategy run keeps the class's descriptor and supers, every other class, every existing function, and every parent except those it sets to the class, and keeps the heap well formed |
| IrStructure.ApplyStrategyAppends | compiler/ir/backend.js/src/org/jetbrains/kotlin/ir/backend/js/ir/IrBuilder.kt:262-273 | a strategy run appends one fake override per call, in call order, each declaration itself having the class as parent (its accessors' parents are not stated); it completes iff every call is an addable fake override, and otherwise reports the first conflict or unsupported descriptor |
| IrStructure.ApplyStrategyConcat | compiler/ir/backend.js/src/org/jetbrains/kotlin/ir/backend/js/ir/IrBuilder.kt:276-284 | running the strategy over two call lists is running it over the first, then, unless it failed, over the second |
| IrStructure.ApplyGroups | compiler/ir/backend.js/src/org/jetbrains/kotlin/ir/backend/js/ir/IrBuilder.kt:276-284 | the `forEach` over name groups keeps the class, its descriptor and a well-formed heap |
| IrStructure.ApplyGroupsIsOneRun | compiler/ir/backend.js/src/org/jetbrains/kotlin/ir/backend/js/ir/IrBuilder.kt:276-284 | going group by group is one strategy run over all the generator's calls, group after group |
| IrStructure.SetSuperSymbolsAndAddFakeOverrides | compiler/ir/backend.js/src/org/jetbrains/kotlin/ir/backend/js/ir/IrBuilder.kt:246-287 | the operation keeps every class and a well-formed heap |
| IrStructure.SetSuperSymbolsAndAddFakeOverridesSpec | compiler/ir/backend.js/src/org/jetbrains/kotlin/ir/backend/js/ir/IrBuilder.kt:246-287 | on success the class keeps its declarations and gains after them exactly one fake override per generator call over the name groups of the unoverridden super members, each declaration itself parented to the class (its accessors' parents are not stated) and surviving the override linking; `superClasses` is `supers`; and every simple function of the class, the new fake overrides included, holds one overridden symbol per overridden descriptor, symbol k being a simple function of a super whose descriptor is the original of descriptor k |
| IrStructure.SetSuperSymbolsAndAddFakeOverridesConflict | compiler/ir/backend.js/src/org/jetbrains/kotlin/ir/backend/js/ir/IrBuilder.kt:262-284 | when a strategy callback fails (inheritance or override conflict, unsupported descriptor) that failure is the outcome, the supers are not linked, and the fake overrides added before it stay in call order, the failing call being the first not taken |
| IrStructure.SetSuperSymbolsAndAddFakeOverridesLinkFailure | compiler/ir/backend.js/src/org/jetbrains/kotlin/ir/backend/js/ir/IrBuilder.kt:178-197 | when every callback was taken, a supertype mismatch fails with nothing changed past the added fake overrides, so does a non-empty `superClasses`, and any outcome keeps the class's declarations, the added fake overrides among them |
| IrHeapOps.IrHeap.ApplyCall | compiler/ir/backend.js/src/org/jetbrains/kotlin/ir/backend/js/ir/IrBuilder.kt:262-273 | one strategy callback: add the created fake override with `addChild`, or fail on a conflict or an unsupported descriptor |
| IrHeapOps.IrHeap.RunStrategy | compiler/ir/backend.js/src/org/jetbrains/kotlin/ir/backend/js/ir/IrBuilder.kt:277-283 | the generator's calls for one group, in order, stopping at the first error |
| IrHeapOps.IrHeap.SetSuperSymbolsAndAddFakeOverrides | compiler/ir/backend.js/src/org/jetbrains/kotlin/ir/backend/js/ir/IrBuilder.kt:246-287 | the heap and outcome after the method are those of `setSuperSymbolsAndAddFakeOverrides` in IrStructure |
| IrStructure.SuperClassifiersSingle | compiler/ir/backend.js/src/org/jetbrains/kotlin/ir/backend/js/ir/IrBuilder.kt:159-166 | a bound without a declaration descriptor gives nothing, a type parameter its own symbol, any other classifier the table's symbol |
| IrStructure.SuperClassifiersConcat | compiler/ir/backend.js/src/org/jetbrains/kotlin/ir/backend/js/ir/IrBuilder.kt:159 | `mapNotNull` keeps order: it distributes over concatenation |
| IrStructure.SuperClassifiersMembers | compiler/ir/backend.js/src/org/jetbrains/kotlin/ir/backend/js/ir/IrBuilder.kt:159-167 | the super classifiers (function `SuperClassifiers`) are exactly the classifiers of the bounds that have one, never more than the bounds |
| IrStructure.SetSupers | compiler/ir/backend.js/src/org/jetbrains/kotlin/ir/backend/js/ir/IrBuilder.kt:157-168 | only the type parameter's own `superClassifiers` can change |
| IrStructure.SetSupersSpec | compiler/ir/backend.js/src/org/jetbrains/kotlin/ir/backend/js/ir/IrBuilder.kt:157-168 | succeeds iff `superClassifiers` was empty (else fails with nothing changed), and then the super classifiers are exactly the classifiers of the upper bounds |
| IrHeapOps.IrHeap.SetSupers | compiler/ir/backend.js/src/org/jetbrains/kotlin/ir/backend/js/ir/IrBuilder.kt:157-168 | the heap and outcome after the loop are those of `setSupers` in IrStructure |
| PlatformConfigurator.PlatformConfiguratorBase.DeclarationCheckers | compiler/frontend/src/org/jetbrains/kotlin/resolve/PlatformConfiguratorBase.kt:80 | the default declaration checkers, then the additional ones, each in order |
| PlatformConfigurator.PlatformConfiguratorBase.CallCheckers | compiler/frontend/src/org/jetbrains/kotlin/resolve/PlatformConfiguratorBase.kt:81 | the default call checkers, then the additional ones, each in order |
| PlatformConfigurator.PlatformConfiguratorBase.TypeCheckers | compiler/frontend/src/org/jetbrains/kotlin/resolve/PlatformConfiguratorBase.kt:82 | the default type checkers are empty (line 50), so the list is exactly the additional ones |
| PlatformConfigurator.PlatformConfiguratorBase.ClassifierUsageCheckers | compiler/frontend/src/org/jetbrains/kotlin/resolve/PlatformConfiguratorBase.kt:83-84 | the default classifier usage checkers, then the additional ones, each in order |
| PlatformConfigurator.PlatformConfiguratorBase.AnnotationCheckers | compiler/frontend/src/org/jetbrains/kotlin/resolve/PlatformConfiguratorBase.kt:85 | the default annotation checkers are empty (line 55), so the list is exactly the additional ones |
| PlatformConfigurator.PlatformConfiguratorBase.ClashResolvers | compiler/frontend/src/org/jetbrains/kotlin/resolve/PlatformConfiguratorBase.kt:57-86 | the four default clash resolvers in their order, then the additional ones |
| PlatformConfigurator.StorageComponentContainer.UseInstanceIfNotNull | compiler/frontend/src/org/jetbrains/kotlin/resolve/PlatformConfiguratorBase.kt:89 | a null service registers nothing, a present one exactly one instance |
| PlatformConfigurator.StorageComponentContainer.UseInstances | compiler/frontend/src/org/jetbrains/kotlin/resolve/PlatformConfiguratorBase.kt:90-94 | a `forEach { useInstance(it) }` registers each instance once, in order |
| PlatformConfigurator.StorageComponentContainer.UseClashResolvers | compiler/frontend/src/org/jetbrains/kotlin/resolve/PlatformConfiguratorBase.kt:95 | each clash resolver is registered once, in order |
| PlatformConfigurator.PlatformConfiguratorBase.PlatformSpecificContainer | compiler/frontend/src/org/jetbrains/kotlin/resolve/PlatformConfiguratorBase.kt:88-102 | a fresh container named after the platform holding exactly the registrations of the composition block, in order |
| PlatformConfigurator.PlatformConfiguratorBase.ConfigureModuleDependentCheckers | compiler/frontend/src/org/jetbrains/kotlin/resolve/PlatformConfiguratorBase.kt:104-106 | exactly one registration is added: the experimental-marker declaration annotation checker |
| PlatformConfigurator.QueryByCapability | compiler/frontend/src/org/jetbrains/kotlin/resolve/PlatformConfiguratorBase.kt:80-102 | asking the composed container for a checker category gives exactly that category's list (defaults first), for an optional service one instance if supplied and none if null, and the clash resolvers are the defaults followed by the additional ones |
| PlatformConfigurator.RegistrationOrder | compiler/frontend/src/org/jetbrains/kotlin/resolve/PlatformConfiguratorBase.kt:88-102 | registrations come in the fixed order: dynamic types settings, the five checker categories, the clash resolvers, then the six optional services in parameter order |
| PlatformConfigurator.DynamicTypesSettingsFirst | compiler/frontend/src/org/jetbrains/kotlin/resolve/PlatformConfiguratorBase.kt:89 | supplied dynamic types settings are the very first registration |
| PlatformConfigurator.OptionalQueries | compiler/frontend/src/org/jetbrains/kotlin/resolve/PlatformConfiguratorBase.kt:96-101 | an optional service registers one instance, answering only its own capability, if supplied, and nothing if null |
| ScriptFiles.ScriptDependenciesCache.Get | idea/idea-core/src/org/jetbrains/kotlin/idea/core/script/ScriptDependenciesUpdater.kt:68 | `cache[file]` is present iff the file has an entry, and is that entry |
| ScriptFiles.ScriptDependenciesCache.Save | idea/idea-core/src/org/jetbrains/kotlin/idea/core/script/dependencies/FromFileAttributeScriptDependenciesLoader.kt:20 | `saveToCache` sets the file's entry to the value and keeps every other entry |
| ScriptFiles.ScriptDependenciesCache.Delete | idea/idea-core/src/org/jetbrains/kotlin/idea/core/script/ScriptDependenciesUpdater.kt:130 | `cache.delete(file)` removes the file's entry and keeps every other entry |
| FromFileAttributeLoader.Loaded | idea/idea-core/src/org/jetbrains/kotlin/idea/core/script/dependencies/FromFileAttributeScriptDependenciesLoader.kt:18-21 | without a stored attribute the cache is unchanged; with one, exactly that value is stored for the file and every other entry is kept |
| FromFileAttributeLoader.LoadDependencies | idea/idea-core/src/org/jetbrains/kotlin/idea/core/script/dependencies/FromFileAttributeScriptDependenciesLoader.kt:18-21 | the cache after the method is the `Loaded` cache |
| FromFileAttributeLoader.ShouldShowNotification | idea/idea-core/src/org/jetbrains/kotlin/idea/core/script/dependencies/FromFileAttributeScriptDependenciesLoader.kt:23 | the loader never asks for a notification |
| FromFileAttributeLoader.IsApplicable | idea/idea-core/src/org/jetbrains/kotlin/idea/core/script/dependencies/FromFileAttributeScriptDependenciesLoader.kt:14-16 | the loader applies iff loading the file into an empty cache gives it an entry |
| FromFileAttributeLoader.ApplicableIffLoadStoresAttribute | idea/idea-core/src/org/jetbrains/kotlin/idea/core/script/dependencies/FromFileAttributeScriptDependenciesLoader.kt:14-21 | the loader applies to a file iff loading it leaves an entry for the file holding its stored attribute, whatever the cache held |
| ScriptDependenciesUpdater.ApplicableLoaders | idea/idea-core/src/org/jetbrains/kotlin/idea/core/script/ScriptDependenciesUpdater.kt:96 | the applicable loaders are positions in the loader list |
| ScriptDependenciesUpdater.ApplicableLoadersInOrder | idea/idea-core/src/org/jetbrains/kotlin/idea/core/script/ScriptDependenciesUpdater.kt:95-97 | a loader is updated iff it applies to the file, and the applicable loaders come in list order |
| ScriptDependenciesUpdater.UpdateCallsAre | idea/idea-core/src/org/jetbrains/kotlin/idea/core/script/ScriptDependenciesUpdater.kt:96 | one `updateDependencies` call per applicable loader, in that order |
| ScriptDependenciesUpdater.RunLoadersTouchesOnlyFile | idea/idea-core/src/org/jetbrains/kotlin/idea/core/script/ScriptDependenciesUpdater.kt:96 | running loaders only adds or overwrites the updated file's entry |
| ScriptDependenciesUpdater.RootsNotificationStopsAtFirstTrue | idea/idea-core/src/org/jetbrains/kotlin/idea/core/script/ScriptDependenciesUpdater.kt:99-103 | loaders are asked in order; every one asked before the last answered false, and if not all were asked the last one asked answered true |
| ScriptDependenciesUpdater.NotifyCallsFrom | idea/idea-core/src/org/jetbrains/kotlin/idea/core/script/ScriptDependenciesUpdater.kt:100-102 | the same, for the loaders from a given position on |
| ScriptDependenciesUpdater.KtFileToUpdate | idea/idea-core/src/org/jetbrains/kotlin/idea/core/script/ScriptDependenciesUpdater.kt:154-169 | a disposed project, an invalid file or a non-Kotlin file gives no file to update; a file found is the file's own |
| ScriptDependenciesUpdater.CachedIffAttributeLoaderGivesEntry | idea/idea-core/src/org/jetbrains/kotlin/idea/core/script/ScriptDependenciesUpdater.kt:171-173 | a file counts as cached iff it has an entry after the file-attribute loader has run on the cache |
| ScriptDependenciesUpdater.UpdateStartedIffSomeFileUncached | idea/idea-core/src/org/jetbrains/kotlin/idea/core/script/ScriptDependenciesUpdater.kt:79-92 | `UpdateLoop`, the loop over the files: the batch reports a started update iff some file with a Kotlin file to update was not cached when the batch began; otherwise no loader is called and the cache is untouched; entries are never lost |
| ScriptDependenciesUpdater.UpdatesOnlyUncachedFiles | idea/idea-core/src/org/jetbrains/kotlin/idea/core/script/ScriptDependenciesUpdater.kt:80-86 | only files that were not cached are updated: every loader call of the batch is an `updateDependencies` of a batch file that has a Kotlin file to update and had no cached dependencies when the batch began |
| ScriptDependenciesUpdater.DocumentChangedDecision | idea/idea-core/src/org/jetbrains/kotlin/idea/core/script/ScriptDependenciesUpdater.kt:124-137 | a scheduled update is for the changed file and only when it has a cache entry |
| ScriptDependenciesUpdater.DocumentChangedAsWritten | idea/idea-core/src/org/jetbrains/kotlin/idea/core/script/ScriptDependenciesUpdater.kt:124-137 | the decision as written: a scheduled update is for the changed file and only when it has a cache entry |
| ScriptDependenciesUpdater.AsWrittenNeverEvicts | idea/idea-core/src/org/jetbrains/kotlin/idea/core/script/ScriptDependenciesUpdater.kt:127-132 | as written, a document change never evicts a cache entry |
| ScriptDependenciesUpdater.StaleEntryKeptAsWritten | idea/idea-core/src/org/jetbrains/kotlin/idea/core/script/ScriptDependenciesUpdater.kt:127-132 | a concrete invalid, cached local script keeps its entry as written, and is evicted by the intended decision |
| ScriptDependenciesUpdater.DocumentChangedDecisionSpec | idea/idea-core/src/org/jetbrains/kotlin/idea/core/script/ScriptDependenciesUpdater.kt:127-149 | an invalid local file is evicted; on a valid file the decision is the source's; a valid file without an entry causes no update, and a valid local file to update that has an entry gets its update scheduled |
| ScriptDependenciesUpdater.ScriptDependenciesUpdater.GetCurrentDependencies | idea/idea-core/src/org/jetbrains/kotlin/idea/core/script/ScriptDependenciesUpdater.kt:67-74 | a cache hit returns the entry and runs no loader; a miss runs the applicable loaders and the roots notification, then returns the entry or `Empty` |
| ScriptDependenciesUpdater.ScriptDependenciesUpdater.UpdateDependenciesIfNeeded | idea/idea-core/src/org/jetbrains/kotlin/idea/core/script/ScriptDependenciesUpdater.kt:76-93 | nothing happens while definitions are not ready; otherwise the result, the cache and the loader calls are those of the batch, and roots are notified iff an update started |
| ScriptDependenciesUpdater.ScriptDependenciesUpdater.UpdateDependencies | idea/idea-core/src/org/jetbrains/kotlin/idea/core/script/ScriptDependenciesUpdater.kt:95-97 | exactly the applicable loaders are called, in list order, and the cache is the one they leave |
| ScriptDependenciesUpdater.ScriptDependenciesUpdater.RunLoader | idea/idea-core/src/org/jetbrains/kotlin/idea/core/script/ScriptDependenciesUpdater.kt:96 | one loader's update is recorded and applied |
| ScriptDependenciesUpdater.ScriptDependenciesUpdater.MakeRootsChangeIfNeeded | idea/idea-core/src/org/jetbrains/kotlin/idea/core/script/ScriptDependenciesUpdater.kt:99-103 | the loaders are asked in order until one answers true |
| ScriptDependenciesUpdater.ScriptDependenciesUpdater.DocumentChanged | idea/idea-core/src/org/jetbrains/kotlin/idea/core/script/ScriptDependenciesUpdater.kt:124-137 | the intended decision; an evicted file loses its entry and nothing else changes |
| ScriptDependenciesUpdater.ScriptDependenciesUpdater.RunScheduledUpdate | idea/idea-core/src/org/jetbrains/kotlin/idea/core/script/ScriptDependenciesUpdater.kt:141-146 | the scheduled request runs the applicable loaders, then the roots notification |
| ScriptDependenciesUpdater.ScriptDependenciesUpdater.FileOpened | idea/idea-core/src/org/jetbrains/kotlin/idea/core/script/ScriptDependenciesUpdater.kt:115-120 | a file to update is updated and the roots notified without consulting the cache; otherwise nothing happens |
| ScriptDependenciesUpdater.ScriptDependenciesUpdater.constructor | idea/idea-core/src/org/jetbrains/kotlin/idea/core/script/ScriptDependenciesUpdater.kt:56-61 | the four loaders in their fixed order: file attribute, outsider, asynchronous, synchronous |

## Left out

- Offsets (`startOffset`, `endOffset`) and `IrType` details: types are opaque identities.
- The remaining factories of `JsIrBuilder` (`buildReturn`, `buildThrow`, `buildFunction`, `buildGetObjectValue`, `buildGetClass`, `buildGetValue`, `buildSetVariable`, `buildGetField`, `buildSetField`, `buildBlockBody`, `buildBlock`, `buildComposite`, `buildFunctionReference`, `buildBreak`, `buildContinue`, `buildWhen`, `buildTypeOperator`, `buildNull`, `buildBoolean`, `buildInt`, `buildString`, `buildCatch`, at `IrBuilder.kt:51-131`) are not modelled. Each is a constructor call with undefined offsets, and most pass their arguments through unchanged. Four do a little more: `buildFunction` (lines 59-62) also sets `returnType` in an `apply` block; `buildCatch` (line 131) builds its catch parameter with `buildVar(ex)`, so it takes the variable owner's type; `buildGetValue` (line 69) and `buildGetField` (lines 73-74) read `symbol.owner.type`, which fails on an unbound symbol as the owner lookups of `buildVar` and `buildValueParameter` do. None of them adds behaviour beyond what `buildCall`, `buildVar` and `buildIfElse` show.
- `createParameterDeclarations` on created fake-override functions: the function it calls is not part of this model.
- `OverridingUtil.generateOverridesInFunctionGroup` is not part of this model. It is a parameter: a function from a name group and the class descriptor to the strategy callbacks it makes, in order.
- The `SymbolTable` is not part of this model. `referenceClassifier` is a parameter (a function from descriptors to symbols), and symbols created on the fly are not tracked.
- `IrSimpleFunction.setOverrides` and `IrClass.setSuperSymbols(symbolTable)` (`IrBuilder.kt:199-222`), the symbol-table overloads, are not modelled. They repeat `setSuperSymbols` and `setSupers` with table lookups in place of the super members.
- `stub` (`IrBuilder.kt:289-298`) builds a reflection proxy; there is nothing to model.
- The container DSL (`composeContainer`, `useInstance`, `useClashResolver`, `useImpl`) is not part of this model. A container is the ordered list of registrations made on it, and the checker classes are opaque values.
- The message-bus and editor listeners, the Swing-thread `Alarm` with its 1400 ms delay, and `saveDocument` are not modelled. A document change is split into its decision (`DocumentChanged`) and the request run later (`RunScheduledUpdate`). Cancelling earlier pending requests is not modelled.
- `getKtFileToUpdateDependencies`: the PSI lookup and the project-source test become flags of the virtual file, and the IDE state becomes an `IdeEnvironment` value.
- The loader base class `ScriptDependenciesLoader` is not part of this model. Its place is taken by three assumptions: `updateDependencies(file)` (`ScriptDependenciesUpdater.kt:96`) is the loader's `loadDependencies`, modelled as `Loader.Update`; `saveToCache` is a plain cache write (`ScriptDependenciesCache.Save`); and each loader's `notifyRootsChanged()` (`:101`) answers a value fixed when the updater is built (`rootsChangedAnswer`, `LoaderBehaviour.rootsChanged`), where the program asks the loader afresh at every call.
- The outsider, asynchronous and synchronous loaders are not part of this model. Each is the data of what it does: the files it applies to, the value it saves for a file, and its roots answer.
- `isAsyncDependencyResolver` and the companion object are not modelled: they are type tests on classes outside this model, and service lookup.
- Concurrency is not modelled. In particular, a file's validity cannot change between the two reads in `documentChanged`.

## Findings

| source | as written | input that shows it | evidently intended | confidence | as-written member | corrected member |
|---|---|---|---|---|---|---|
| idea/idea-core/src/org/jetbrains/kotlin/idea/core/script/ScriptDependenciesUpdater.kt:127-132 | `documentChanged` resolves the file with `getKtFileToUpdateDependencies`, which yields nothing for an invalid file (line 155), before it tests `!virtualFile.isValid`. The `cache.delete(file)` branch is therefore dead and never evicts anything. | a local Kotlin script in the project sources that is cached and then becomes invalid (deleted): `VirtualFile(7, isValid = false, …)` with entries `{7: Resolved(1)}` keeps its stale entry | an invalid local file loses its cache entry | not executed | ScriptDependenciesUpdater.AsWrittenNeverEvicts | ScriptDependenciesUpdater.DocumentChangedDecisionSpec |
