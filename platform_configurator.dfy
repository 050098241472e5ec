/**
 * The platform configurator: how the default semantic checkers of the
 * compiler front end are combined with the checkers, clash resolvers and
 * optional services a platform supplies, and the order in which all of them
 * are registered in the platform's component container.
 *
 * Checker classes are identified by name; a checker a platform supplies is an
 * opaque identity (`Platform...(id)`). What an individual checker checks is
 * outside this model.
 */
module PlatformConfigurator {
  import opened Wrappers

  // ---------------------------------------------------------------------------
  // Checker categories and the default lists
  // ---------------------------------------------------------------------------

  datatype DeclarationChecker =
    | DataClassDeclarationChecker | ConstModifierChecker | UnderscoreChecker
    | InlineParameterChecker | InfixModifierChecker | SinceKotlinAnnotationValueChecker
    | RequireKotlinAnnotationValueChecker | ReifiedTypeParameterAnnotationChecker
    | DynamicReceiverChecker | DelegationChecker | KClassWithIncorrectTypeArgumentChecker
    | SuspendLimitationsChecker | InlineClassDeclarationChecker
    | PropertiesWithBackingFieldsInsideInlineClass | AnnotationClassTargetAndRetentionChecker
    | ReservedMembersAndConstructsForInlineClass | ResultClassInReturnTypeChecker
    | LocalVariableTypeParametersChecker
    | PlatformDeclarationChecker(id: nat)

  datatype CallChecker =
    | CapturingInClosureChecker | InlineCheckerWrapper | SafeCallChecker
    | DeprecatedCallChecker | CallReturnsArrayOfNothingChecker | InfixCallChecker
    | OperatorCallChecker | ConstructorHeaderCallChecker | ProtectedConstructorCallChecker
    | ApiVersionCallChecker | CoroutineSuspendCallChecker | BuilderFunctionsCallChecker
    | DslScopeViolationCallChecker | MissingDependencyClassChecker
    | CallableReferenceCompatibilityChecker | LateinitIntrinsicApplicabilityChecker
    | UnderscoreUsageChecker | AssigningNamedArgumentToVarargChecker
    | ImplicitNothingAsTypeParameterCallChecker | PrimitiveNumericComparisonCallChecker
    | LambdaWithSuspendModifierCallChecker | UselessElvisCallChecker
    | ResultTypeWithNullableOperatorsChecker | NullableVarargArgumentCallChecker
    | NamedFunAsExpressionChecker | ContractNotAllowedCallChecker
    | ReifiedTypeParameterSubstitutionChecker | TypeOfChecker
    | PlatformCallChecker(id: nat)

  /** The front end has no default additional type checker. */
  datatype AdditionalTypeChecker = PlatformTypeChecker(id: nat)

  datatype ClassifierUsageChecker =
    | DeprecatedClassifierUsageChecker | ApiVersionClassifierUsageChecker
    | MissingDependencyClassifierUsageChecker | OptionalExpectationUsageChecker
    | PlatformClassifierUsageChecker(id: nat)

  /** The front end has no default additional annotation checker. */
  datatype AdditionalAnnotationChecker = PlatformAnnotationChecker(id: nat)

  datatype ClashResolver =
    | IdentifierCheckerClashesResolver | TypeSpecificityComparatorClashesResolver
    | DynamicTypesSettingsClashesResolver | FunctionWithBigAritySupportClashesResolver
    | PlatformClashResolver(id: nat)

  const DEFAULT_DECLARATION_CHECKERS: seq<DeclarationChecker> := [
    DataClassDeclarationChecker, ConstModifierChecker, UnderscoreChecker,
    InlineParameterChecker, InfixModifierChecker, SinceKotlinAnnotationValueChecker,
    RequireKotlinAnnotationValueChecker, ReifiedTypeParameterAnnotationChecker,
    DynamicReceiverChecker, DelegationChecker, KClassWithIncorrectTypeArgumentChecker,
    SuspendLimitationsChecker, InlineClassDeclarationChecker,
    PropertiesWithBackingFieldsInsideInlineClass, AnnotationClassTargetAndRetentionChecker,
    ReservedMembersAndConstructsForInlineClass, ResultClassInReturnTypeChecker,
    LocalVariableTypeParametersChecker
  ]

  const DEFAULT_CALL_CHECKERS: seq<CallChecker> := [
    CapturingInClosureChecker, InlineCheckerWrapper, SafeCallChecker,
    DeprecatedCallChecker, CallReturnsArrayOfNothingChecker, InfixCallChecker, OperatorCallChecker,
    ConstructorHeaderCallChecker, ProtectedConstructorCallChecker, ApiVersionCallChecker,
    CoroutineSuspendCallChecker, BuilderFunctionsCallChecker, DslScopeViolationCallChecker,
    MissingDependencyClassChecker, CallableReferenceCompatibilityChecker,
    LateinitIntrinsicApplicabilityChecker, UnderscoreUsageChecker,
    AssigningNamedArgumentToVarargChecker, ImplicitNothingAsTypeParameterCallChecker,
    PrimitiveNumericComparisonCallChecker, LambdaWithSuspendModifierCallChecker,
    UselessElvisCallChecker, ResultTypeWithNullableOperatorsChecker,
    NullableVarargArgumentCallChecker, NamedFunAsExpressionChecker,
    ContractNotAllowedCallChecker, ReifiedTypeParameterSubstitutionChecker, TypeOfChecker
  ]

  const DEFAULT_TYPE_CHECKERS: seq<AdditionalTypeChecker> := []

  const DEFAULT_CLASSIFIER_USAGE_CHECKERS: seq<ClassifierUsageChecker> := [
    DeprecatedClassifierUsageChecker, ApiVersionClassifierUsageChecker,
    MissingDependencyClassifierUsageChecker, OptionalExpectationUsageChecker
  ]

  const DEFAULT_ANNOTATION_CHECKERS: seq<AdditionalAnnotationChecker> := []

  const DEFAULT_CLASH_RESOLVERS: seq<ClashResolver> := [
    IdentifierCheckerClashesResolver, TypeSpecificityComparatorClashesResolver,
    DynamicTypesSettingsClashesResolver, FunctionWithBigAritySupportClashesResolver
  ]

  // ---------------------------------------------------------------------------
  // Container registrations
  // ---------------------------------------------------------------------------

  /** An instance registered in a container with `useInstance`. */
  datatype Component =
    | DynamicTypesSettings(id: nat)
    | DeclarationCheckerInstance(declarationChecker: DeclarationChecker)
    | CallCheckerInstance(callChecker: CallChecker)
    | TypeCheckerInstance(typeChecker: AdditionalTypeChecker)
    | ClassifierUsageCheckerInstance(classifierUsageChecker: ClassifierUsageChecker)
    | AnnotationCheckerInstance(annotationChecker: AdditionalAnnotationChecker)
    | IdentifierChecker(id: nat)
    | OverloadFilter(id: nat)
    | PlatformToKotlinClassMap(id: nat)
    | DelegationFilter(id: nat)
    | OverridesBackwardCompatibilityHelper(id: nat)
    | DeclarationReturnTypeSanitizer(id: nat)

  /** The capability a consumer asks the container for. */
  datatype Capability =
    | DynamicTypesSettingsCapability | DeclarationCheckerCapability | CallCheckerCapability
    | TypeCheckerCapability | ClassifierUsageCheckerCapability | AnnotationCheckerCapability
    | IdentifierCheckerCapability | OverloadFilterCapability
    | PlatformToKotlinClassMapCapability | DelegationFilterCapability
    | OverridesBackwardCompatibilityHelperCapability | DeclarationReturnTypeSanitizerCapability

  function CapabilityOf(c: Component): Capability {
    match c
    case DynamicTypesSettings(_) => DynamicTypesSettingsCapability
    case DeclarationCheckerInstance(_) => DeclarationCheckerCapability
    case CallCheckerInstance(_) => CallCheckerCapability
    case TypeCheckerInstance(_) => TypeCheckerCapability
    case ClassifierUsageCheckerInstance(_) => ClassifierUsageCheckerCapability
    case AnnotationCheckerInstance(_) => AnnotationCheckerCapability
    case IdentifierChecker(_) => IdentifierCheckerCapability
    case OverloadFilter(_) => OverloadFilterCapability
    case PlatformToKotlinClassMap(_) => PlatformToKotlinClassMapCapability
    case DelegationFilter(_) => DelegationFilterCapability
    case OverridesBackwardCompatibilityHelper(_) => OverridesBackwardCompatibilityHelperCapability
    case DeclarationReturnTypeSanitizer(_) => DeclarationReturnTypeSanitizerCapability
  }

  /** A class registered with `useImpl`, to be instantiated by the container. */
  datatype ImplementationClass = ExperimentalMarkerDeclarationAnnotationChecker

  /** One call made on a container while it is composed. */
  datatype Registration =
    | InstanceEntry(component: Component)
    | ClashResolverEntry(resolver: ClashResolver)
    | ImplEntry(implementation: ImplementationClass)

  /** A storage component container, modelled by the registrations made on it, in order. */
  class StorageComponentContainer {
    const id: string
    var registrations: seq<Registration>

    constructor (id: string)
      ensures this.id == id && registrations == []
    {
      this.id := id;
      registrations := [];
    }

    method UseInstance(c: Component)
      modifies this
      ensures registrations == old(registrations) + [InstanceEntry(c)]
    {
      registrations := registrations + [InstanceEntry(c)];
    }

    /** `useInstanceIfNotNull`: a null service registers nothing. */
    method UseInstanceIfNotNull(c: Option<Component>)
      modifies this
      ensures registrations == old(registrations) + InstanceIfNotNull(c)
    {
      if c.Some? {
        UseInstance(c.value);
      }
    }

    method UseClashResolver(r: ClashResolver)
      modifies this
      ensures registrations == old(registrations) + [ClashResolverEntry(r)]
    {
      registrations := registrations + [ClashResolverEntry(r)];
    }

    method UseImpl(i: ImplementationClass)
      modifies this
      ensures registrations == old(registrations) + [ImplEntry(i)]
    {
      registrations := registrations + [ImplEntry(i)];
    }

    /** `cs.forEach { useInstance(it) }` */
    method UseInstances(cs: seq<Component>)
      modifies this
      ensures registrations == old(registrations) + InstanceEntries(cs)
    {
      var i := 0;
      while i < |cs|
        invariant 0 <= i <= |cs|
        invariant registrations == old(registrations) + InstanceEntries(cs[..i])
      {
        assert cs[..i + 1] == cs[..i] + [cs[i]];
        InstanceEntriesAppend(cs[..i], [cs[i]]);
        UseInstance(cs[i]);
        i := i + 1;
      }
      assert cs[..i] == cs;
    }

    /** `rs.forEach { useClashResolver(it) }` */
    method UseClashResolvers(rs: seq<ClashResolver>)
      modifies this
      ensures registrations == old(registrations) + ClashResolverEntries(rs)
    {
      var i := 0;
      while i < |rs|
        invariant 0 <= i <= |rs|
        invariant registrations == old(registrations) + ClashResolverEntries(rs[..i])
      {
        assert rs[..i + 1] == rs[..i] + [rs[i]];
        ClashResolverEntriesAppend(rs[..i], [rs[i]]);
        UseClashResolver(rs[i]);
        i := i + 1;
      }
      assert rs[..i] == rs;
    }
  }

  function InstanceIfNotNull(c: Option<Component>): seq<Registration> {
    if c.Some? then [InstanceEntry(c.value)] else []
  }

  function InstanceEntries(cs: seq<Component>): seq<Registration> {
    if cs == [] then [] else [InstanceEntry(cs[0])] + InstanceEntries(cs[1..])
  }

  function ClashResolverEntries(rs: seq<ClashResolver>): seq<Registration> {
    if rs == [] then [] else [ClashResolverEntry(rs[0])] + ClashResolverEntries(rs[1..])
  }

  lemma {:induction false} InstanceEntriesAppend(a: seq<Component>, b: seq<Component>)
    ensures InstanceEntries(a + b) == InstanceEntries(a) + InstanceEntries(b)
  {
    if a != [] {
      assert (a + b)[1..] == a[1..] + b;
      InstanceEntriesAppend(a[1..], b);
    } else {
      assert a + b == b;
    }
  }

  lemma {:induction false} ClashResolverEntriesAppend(a: seq<ClashResolver>, b: seq<ClashResolver>)
    ensures ClashResolverEntries(a + b) == ClashResolverEntries(a) + ClashResolverEntries(b)
  {
    if a != [] {
      assert (a + b)[1..] == a[1..] + b;
      ClashResolverEntriesAppend(a[1..], b);
    } else {
      assert a + b == b;
    }
  }

  // Wrapping a typed checker list as the components registered for it.

  function DeclarationInstances(l: seq<DeclarationChecker>): seq<Component> {
    if l == [] then [] else [DeclarationCheckerInstance(l[0])] + DeclarationInstances(l[1..])
  }

  function CallInstances(l: seq<CallChecker>): seq<Component> {
    if l == [] then [] else [CallCheckerInstance(l[0])] + CallInstances(l[1..])
  }

  function TypeInstances(l: seq<AdditionalTypeChecker>): seq<Component> {
    if l == [] then [] else [TypeCheckerInstance(l[0])] + TypeInstances(l[1..])
  }

  function ClassifierUsageInstances(l: seq<ClassifierUsageChecker>): seq<Component> {
    if l == [] then [] else [ClassifierUsageCheckerInstance(l[0])] + ClassifierUsageInstances(l[1..])
  }

  function AnnotationInstances(l: seq<AdditionalAnnotationChecker>): seq<Component> {
    if l == [] then [] else [AnnotationCheckerInstance(l[0])] + AnnotationInstances(l[1..])
  }

  // ---------------------------------------------------------------------------
  // The configurator
  // ---------------------------------------------------------------------------

  /**
   * The constructor parameters of a platform configurator: the platform's
   * name (the simple name of its class), its additional checkers and clash
   * resolvers, and its optional services, each possibly null.
   */
  datatype PlatformConfiguratorBase = PlatformConfiguratorBase(
    platformName: string,
    dynamicTypesSettings: Option<nat>,
    additionalDeclarationCheckers: seq<DeclarationChecker>,
    additionalCallCheckers: seq<CallChecker>,
    additionalTypeCheckers: seq<AdditionalTypeChecker>,
    additionalClassifierUsageCheckers: seq<ClassifierUsageChecker>,
    additionalAnnotationCheckers: seq<AdditionalAnnotationChecker>,
    additionalClashResolvers: seq<ClashResolver>,
    identifierChecker: Option<nat>,
    overloadFilter: Option<nat>,
    platformToKotlinClassMap: Option<nat>,
    delegationFilter: Option<nat>,
    overridesBackwardCompatibilityHelper: Option<nat>,
    declarationReturnTypeSanitizer: Option<nat>)
  {
    /** The declaration checkers: the defaults first, then the platform's, each in its own order. */
    function DeclarationCheckers(): (r: seq<DeclarationChecker>)
      ensures |r| == |DEFAULT_DECLARATION_CHECKERS| + |additionalDeclarationCheckers|
      ensures r[..|DEFAULT_DECLARATION_CHECKERS|] == DEFAULT_DECLARATION_CHECKERS
      ensures r[|DEFAULT_DECLARATION_CHECKERS|..] == additionalDeclarationCheckers
    {
      DEFAULT_DECLARATION_CHECKERS + additionalDeclarationCheckers
    }

    /** The call checkers: the defaults first, then the platform's, each in its own order. */
    function CallCheckers(): (r: seq<CallChecker>)
      ensures |r| == |DEFAULT_CALL_CHECKERS| + |additionalCallCheckers|
      ensures r[..|DEFAULT_CALL_CHECKERS|] == DEFAULT_CALL_CHECKERS
      ensures r[|DEFAULT_CALL_CHECKERS|..] == additionalCallCheckers
    {
      DEFAULT_CALL_CHECKERS + additionalCallCheckers
    }

    /** There are no default type checkers, so the list is exactly the platform's. */
    function TypeCheckers(): (r: seq<AdditionalTypeChecker>)
      ensures r == additionalTypeCheckers
    {
      DEFAULT_TYPE_CHECKERS + additionalTypeCheckers
    }

    /** The classifier usage checkers: the defaults first, then the platform's. */
    function ClassifierUsageCheckers(): (r: seq<ClassifierUsageChecker>)
      ensures |r| == |DEFAULT_CLASSIFIER_USAGE_CHECKERS| + |additionalClassifierUsageCheckers|
      ensures r[..|DEFAULT_CLASSIFIER_USAGE_CHECKERS|] == DEFAULT_CLASSIFIER_USAGE_CHECKERS
      ensures r[|DEFAULT_CLASSIFIER_USAGE_CHECKERS|..] == additionalClassifierUsageCheckers
    {
      DEFAULT_CLASSIFIER_USAGE_CHECKERS + additionalClassifierUsageCheckers
    }

    /** There are no default annotation checkers, so the list is exactly the platform's. */
    function AnnotationCheckers(): (r: seq<AdditionalAnnotationChecker>)
      ensures r == additionalAnnotationCheckers
    {
      DEFAULT_ANNOTATION_CHECKERS + additionalAnnotationCheckers
    }

    /** The clash resolvers: the four defaults, then the platform's. */
    function ClashResolvers(): (r: seq<ClashResolver>)
      ensures |r| == 4 + |additionalClashResolvers|
      ensures r[0] == IdentifierCheckerClashesResolver
      ensures r[1] == TypeSpecificityComparatorClashesResolver
      ensures r[2] == DynamicTypesSettingsClashesResolver
      ensures r[3] == FunctionWithBigAritySupportClashesResolver
      ensures r[4..] == additionalClashResolvers
    {
      DEFAULT_CLASH_RESOLVERS + additionalClashResolvers
    }

    /** The optional service passed for a capability, as the component to register. */
    function OptionalService(cap: Capability): Option<Component> {
      match cap
      case DynamicTypesSettingsCapability =>
        if dynamicTypesSettings.Some? then Some(DynamicTypesSettings(dynamicTypesSettings.value)) else None
      case IdentifierCheckerCapability =>
        if identifierChecker.Some? then Some(IdentifierChecker(identifierChecker.value)) else None
      case OverloadFilterCapability =>
        if overloadFilter.Some? then Some(OverloadFilter(overloadFilter.value)) else None
      case PlatformToKotlinClassMapCapability =>
        if platformToKotlinClassMap.Some? then Some(PlatformToKotlinClassMap(platformToKotlinClassMap.value)) else None
      case DelegationFilterCapability =>
        if delegationFilter.Some? then Some(DelegationFilter(delegationFilter.value)) else None
      case OverridesBackwardCompatibilityHelperCapability =>
        if overridesBackwardCompatibilityHelper.Some?
        then Some(OverridesBackwardCompatibilityHelper(overridesBackwardCompatibilityHelper.value))
        else None
      case DeclarationReturnTypeSanitizerCapability =>
        if declarationReturnTypeSanitizer.Some?
        then Some(DeclarationReturnTypeSanitizer(declarationReturnTypeSanitizer.value))
        else None
      case _ => None
    }

    /**
     * Group `k` of the registrations made while the platform-specific
     * container is composed: the dynamic types settings, the five checker
     * lists, the clash resolvers, then the six optional services.
     */
    function Segment(k: nat): seq<Registration> {
      if k == 0 then InstanceIfNotNull(OptionalService(DynamicTypesSettingsCapability))
      else if k == 1 then InstanceEntries(DeclarationInstances(DeclarationCheckers()))
      else if k == 2 then InstanceEntries(CallInstances(CallCheckers()))
      else if k == 3 then InstanceEntries(TypeInstances(TypeCheckers()))
      else if k == 4 then InstanceEntries(ClassifierUsageInstances(ClassifierUsageCheckers()))
      else if k == 5 then InstanceEntries(AnnotationInstances(AnnotationCheckers()))
      else if k == 6 then ClashResolverEntries(ClashResolvers())
      else if k == 7 then InstanceIfNotNull(OptionalService(IdentifierCheckerCapability))
      else if k == 8 then InstanceIfNotNull(OptionalService(OverloadFilterCapability))
      else if k == 9 then InstanceIfNotNull(OptionalService(PlatformToKotlinClassMapCapability))
      else if k == 10 then InstanceIfNotNull(OptionalService(DelegationFilterCapability))
      else if k == 11 then InstanceIfNotNull(OptionalService(OverridesBackwardCompatibilityHelperCapability))
      else InstanceIfNotNull(OptionalService(DeclarationReturnTypeSanitizerCapability))
    }

    /** The thirteen groups of registrations, in the order they are made. */
    function Segments(): (s: seq<seq<Registration>>)
      ensures |s| == 13
      ensures forall k :: 0 <= k < 13 ==> s[k] == Segment(k)
    {
      seq(13, (k: int) requires 0 <= k => Segment(k))
    }

    /** The registrations made while the platform-specific container is composed, in order. */
    function Registrations(): seq<Registration> {
      Concat(Segments())
    }

    /** `platformSpecificContainer`: composes a fresh container named after the platform. */
    method PlatformSpecificContainer() returns (container: StorageComponentContainer)
      ensures fresh(container)
      ensures container.id == platformName
      ensures container.registrations == Registrations()
    {
      ghost var s := Segments();
      container := new StorageComponentContainer(platformName);
      assert s[..0] == [];
      container.UseInstanceIfNotNull(OptionalService(DynamicTypesSettingsCapability));
      ConcatStep(s, 0);
      UseCheckers(container);
      UseOptionalServices(container);
      assert s[..13] == s;
    }

    /** The checker lists and the clash resolvers, registered after the dynamic types settings. */
    method UseCheckers(container: StorageComponentContainer)
      requires container.registrations == Concat(Segments()[..1])
      modifies container
      ensures container.registrations == Concat(Segments()[..7])
    {
      ghost var s := Segments();
      container.UseInstances(DeclarationInstances(DeclarationCheckers()));
      ConcatStep(s, 1);
      container.UseInstances(CallInstances(CallCheckers()));
      ConcatStep(s, 2);
      container.UseInstances(TypeInstances(TypeCheckers()));
      ConcatStep(s, 3);
      container.UseInstances(ClassifierUsageInstances(ClassifierUsageCheckers()));
      ConcatStep(s, 4);
      container.UseInstances(AnnotationInstances(AnnotationCheckers()));
      ConcatStep(s, 5);
      container.UseClashResolvers(ClashResolvers());
      ConcatStep(s, 6);
    }

    /** The optional services, each registered if supplied, after the clash resolvers. */
    method UseOptionalServices(container: StorageComponentContainer)
      requires container.registrations == Concat(Segments()[..7])
      modifies container
      ensures container.registrations == Concat(Segments()[..13])
    {
      ghost var s := Segments();
      container.UseInstanceIfNotNull(OptionalService(IdentifierCheckerCapability));
      ConcatStep(s, 7);
      container.UseInstanceIfNotNull(OptionalService(OverloadFilterCapability));
      ConcatStep(s, 8);
      container.UseInstanceIfNotNull(OptionalService(PlatformToKotlinClassMapCapability));
      ConcatStep(s, 9);
      container.UseInstanceIfNotNull(OptionalService(DelegationFilterCapability));
      ConcatStep(s, 10);
      container.UseInstanceIfNotNull(OptionalService(OverridesBackwardCompatibilityHelperCapability));
      ConcatStep(s, 11);
      container.UseInstanceIfNotNull(OptionalService(DeclarationReturnTypeSanitizerCapability));
      ConcatStep(s, 12);
    }

    /** `configureModuleDependentCheckers`: one more registration, and only that. */
    method ConfigureModuleDependentCheckers(container: StorageComponentContainer)
      modifies container
      ensures container.registrations
              == old(container.registrations) + [ImplEntry(ExperimentalMarkerDeclarationAnnotationChecker)]
    {
      container.UseImpl(ExperimentalMarkerDeclarationAnnotationChecker);
    }
  }

  // ---------------------------------------------------------------------------
  // Querying a container by capability
  // ---------------------------------------------------------------------------

  /** The instances registered for a capability, in registration order. */
  function InstancesOf(regs: seq<Registration>, cap: Capability): seq<Component> {
    if regs == [] then []
    else
      (if regs[0].InstanceEntry? && CapabilityOf(regs[0].component) == cap then [regs[0].component] else [])
      + InstancesOf(regs[1..], cap)
  }

  /** The clash resolvers registered, in registration order. */
  function ClashResolversOf(regs: seq<Registration>): seq<ClashResolver> {
    if regs == [] then []
    else (if regs[0].ClashResolverEntry? then [regs[0].resolver] else []) + ClashResolversOf(regs[1..])
  }

  lemma {:induction false} InstancesOfAppend(a: seq<Registration>, b: seq<Registration>, cap: Capability)
    ensures InstancesOf(a + b, cap) == InstancesOf(a, cap) + InstancesOf(b, cap)
  {
    if a == [] {
      assert a + b == b;
    } else {
      assert (a + b)[1..] == a[1..] + b;
      InstancesOfAppend(a[1..], b, cap);
    }
  }

  lemma {:induction false} ClashResolversOfAppend(a: seq<Registration>, b: seq<Registration>)
    ensures ClashResolversOf(a + b) == ClashResolversOf(a) + ClashResolversOf(b)
  {
    if a == [] {
      assert a + b == b;
    } else {
      assert (a + b)[0] == a[0];
      assert (a + b)[1..] == a[1..] + b;
      ClashResolversOfAppend(a[1..], b);
    }
  }

  /** Instance registrations of one capability: a query for it returns them all, others nothing. */
  lemma {:induction false} InstancesOfUniform(cs: seq<Component>, of: Capability, cap: Capability)
    requires forall i :: 0 <= i < |cs| ==> CapabilityOf(cs[i]) == of
    ensures InstancesOf(InstanceEntries(cs), cap) == if cap == of then cs else []
    ensures ClashResolversOf(InstanceEntries(cs)) == []
  {
    if cs != [] {
      InstancesOfUniform(cs[1..], of, cap);
      assert InstanceEntries(cs)[1..] == InstanceEntries(cs[1..]);
    }
  }

  lemma {:induction false} ClashResolverEntriesQueries(rs: seq<ClashResolver>, cap: Capability)
    ensures InstancesOf(ClashResolverEntries(rs), cap) == []
    ensures ClashResolversOf(ClashResolverEntries(rs)) == rs
  {
    if rs != [] {
      ClashResolverEntriesQueries(rs[1..], cap);
      assert ClashResolverEntries(rs)[1..] == ClashResolverEntries(rs[1..]);
    }
  }

  lemma {:induction false} OptionalQueries(c: Option<Component>, cap: Capability)
    ensures InstancesOf(InstanceIfNotNull(c), cap)
            == if c.Some? && CapabilityOf(c.value) == cap then [c.value] else []
    ensures ClashResolversOf(InstanceIfNotNull(c)) == []
  {
    if c.Some? {
      assert InstanceIfNotNull(c)[1..] == [];
    }
  }

  lemma {:induction false} DeclarationInstancesCapability(l: seq<DeclarationChecker>)
    ensures forall i :: 0 <= i < |DeclarationInstances(l)| ==>
              CapabilityOf(DeclarationInstances(l)[i]) == DeclarationCheckerCapability
  {
    if l != [] { DeclarationInstancesCapability(l[1..]); }
  }

  lemma {:induction false} CallInstancesCapability(l: seq<CallChecker>)
    ensures forall i :: 0 <= i < |CallInstances(l)| ==>
              CapabilityOf(CallInstances(l)[i]) == CallCheckerCapability
  {
    if l != [] { CallInstancesCapability(l[1..]); }
  }

  lemma {:induction false} TypeInstancesCapability(l: seq<AdditionalTypeChecker>)
    ensures forall i :: 0 <= i < |TypeInstances(l)| ==>
              CapabilityOf(TypeInstances(l)[i]) == TypeCheckerCapability
  {
    if l != [] { TypeInstancesCapability(l[1..]); }
  }

  lemma {:induction false} ClassifierUsageInstancesCapability(l: seq<ClassifierUsageChecker>)
    ensures forall i :: 0 <= i < |ClassifierUsageInstances(l)| ==>
              CapabilityOf(ClassifierUsageInstances(l)[i]) == ClassifierUsageCheckerCapability
  {
    if l != [] { ClassifierUsageInstancesCapability(l[1..]); }
  }

  lemma {:induction false} AnnotationInstancesCapability(l: seq<AdditionalAnnotationChecker>)
    ensures forall i :: 0 <= i < |AnnotationInstances(l)| ==>
              CapabilityOf(AnnotationInstances(l)[i]) == AnnotationCheckerCapability
  {
    if l != [] { AnnotationInstancesCapability(l[1..]); }
  }

  lemma OptionalServiceCapability(p: PlatformConfiguratorBase, cap: Capability)
    ensures p.OptionalService(cap).Some? ==> CapabilityOf(p.OptionalService(cap).value) == cap
  {
  }

  /** What a query for a capability should find in the platform-specific container. */
  function Expected(p: PlatformConfiguratorBase, cap: Capability): seq<Component> {
    match cap
    case DeclarationCheckerCapability => DeclarationInstances(p.DeclarationCheckers())
    case CallCheckerCapability => CallInstances(p.CallCheckers())
    case TypeCheckerCapability => TypeInstances(p.TypeCheckers())
    case ClassifierUsageCheckerCapability => ClassifierUsageInstances(p.ClassifierUsageCheckers())
    case AnnotationCheckerCapability => AnnotationInstances(p.AnnotationCheckers())
    case _ => if p.OptionalService(cap).Some? then [p.OptionalService(cap).value] else []
  }

  /** The position, among the groups of `Segments()`, of the group registered for a capability. */
  function SegmentOf(cap: Capability): nat {
    match cap
    case DynamicTypesSettingsCapability => 0
    case DeclarationCheckerCapability => 1
    case CallCheckerCapability => 2
    case TypeCheckerCapability => 3
    case ClassifierUsageCheckerCapability => 4
    case AnnotationCheckerCapability => 5
    case IdentifierCheckerCapability => 7
    case OverloadFilterCapability => 8
    case PlatformToKotlinClassMapCapability => 9
    case DelegationFilterCapability => 10
    case OverridesBackwardCompatibilityHelperCapability => 11
    case DeclarationReturnTypeSanitizerCapability => 12
  }

  /** The group of clash resolver registrations. */
  const CLASH_RESOLVER_SEGMENT := 6

  /** The capability whose group is group `k`, the inverse of `SegmentOf`. */
  function CapabilityAt(k: nat): (cap: Capability)
    ensures k < 13 && k != CLASH_RESOLVER_SEGMENT ==> SegmentOf(cap) == k
  {
    if k == 0 then DynamicTypesSettingsCapability
    else if k == 1 then DeclarationCheckerCapability
    else if k == 2 then CallCheckerCapability
    else if k == 3 then TypeCheckerCapability
    else if k == 4 then ClassifierUsageCheckerCapability
    else if k == 5 then AnnotationCheckerCapability
    else if k == 7 then IdentifierCheckerCapability
    else if k == 8 then OverloadFilterCapability
    else if k == 9 then PlatformToKotlinClassMapCapability
    else if k == 10 then DelegationFilterCapability
    else if k == 11 then OverridesBackwardCompatibilityHelperCapability
    else DeclarationReturnTypeSanitizerCapability
  }

  /** Every capability has a group of its own, and no capability is answered by the clash resolvers. */
  lemma CapabilityAtSegmentOf(cap: Capability)
    ensures SegmentOf(cap) < 13 && SegmentOf(cap) != CLASH_RESOLVER_SEGMENT
    ensures CapabilityAt(SegmentOf(cap)) == cap
  {
  }

  /** A group of checkers answers exactly its own capability, with its checker list. */
  lemma CheckerSegmentAnswers(p: PlatformConfiguratorBase, k: nat, cap: Capability)
    requires 1 <= k <= 5
    ensures InstancesOf(p.Segments()[k], cap) == if cap == CapabilityAt(k) then Expected(p, CapabilityAt(k)) else []
    ensures ClashResolversOf(p.Segments()[k]) == []
  {
    if k == 1 {
      DeclarationInstancesCapability(p.DeclarationCheckers());
      InstancesOfUniform(DeclarationInstances(p.DeclarationCheckers()), DeclarationCheckerCapability, cap);
    } else if k == 2 {
      CallInstancesCapability(p.CallCheckers());
      InstancesOfUniform(CallInstances(p.CallCheckers()), CallCheckerCapability, cap);
    } else if k == 3 {
      TypeInstancesCapability(p.TypeCheckers());
      InstancesOfUniform(TypeInstances(p.TypeCheckers()), TypeCheckerCapability, cap);
    } else if k == 4 {
      ClassifierUsageInstancesCapability(p.ClassifierUsageCheckers());
      InstancesOfUniform(ClassifierUsageInstances(p.ClassifierUsageCheckers()), ClassifierUsageCheckerCapability, cap);
    } else {
      AnnotationInstancesCapability(p.AnnotationCheckers());
      InstancesOfUniform(AnnotationInstances(p.AnnotationCheckers()), AnnotationCheckerCapability, cap);
    }
  }

  /** The group of an optional service answers exactly its own capability, with the service if supplied. */
  lemma OptionalSegmentAnswers(p: PlatformConfiguratorBase, k: nat, cap: Capability)
    requires k == 0 || 7 <= k <= 12
    ensures InstancesOf(p.Segments()[k], cap) == if cap == CapabilityAt(k) then Expected(p, CapabilityAt(k)) else []
    ensures ClashResolversOf(p.Segments()[k]) == []
  {
    var of := CapabilityAt(k);
    assert p.Segments()[k] == InstanceIfNotNull(p.OptionalService(of));
    OptionalServiceCapability(p, of);
    OptionalQueries(p.OptionalService(of), cap);
  }

  /** What each group of registrations answers to a query. */
  lemma SegmentAnswers(p: PlatformConfiguratorBase, k: nat, cap: Capability)
    requires k < 13
    ensures InstancesOf(p.Segments()[k], cap) == if k == SegmentOf(cap) then Expected(p, cap) else []
    ensures ClashResolversOf(p.Segments()[k]) == if k == CLASH_RESOLVER_SEGMENT then p.ClashResolvers() else []
  {
    CapabilityAtSegmentOf(cap);
    if k == CLASH_RESOLVER_SEGMENT {
      ClashResolverEntriesQueries(p.ClashResolvers(), cap);
    } else {
      assert k == SegmentOf(cap) <==> cap == CapabilityAt(k);
      if 1 <= k <= 5 {
        CheckerSegmentAnswers(p, k, cap);
      } else {
        OptionalSegmentAnswers(p, k, cap);
      }
    }
  }

  /** A query over groups of registrations of which at most group `j` answers. */
  lemma {:induction false} SingleInstanceContributor(ss: seq<seq<Registration>>, j: nat, cap: Capability)
    requires forall k :: 0 <= k < |ss| && k != j ==> InstancesOf(ss[k], cap) == []
    ensures InstancesOf(Concat(ss), cap) == if j < |ss| then InstancesOf(ss[j], cap) else []
  {
    if ss != [] {
      var n := |ss| - 1;
      var init := ss[..n];
      forall k | 0 <= k < |init| && k != j
        ensures InstancesOf(init[k], cap) == []
      {
        assert init[k] == ss[k];
      }
      SingleInstanceContributor(init, j, cap);
      assert Concat(ss) == Concat(init) + ss[n];
      InstancesOfAppend(Concat(init), ss[n], cap);
      if j < n {
        assert init[j] == ss[j];
        assert InstancesOf(ss[n], cap) == [];
      }
    }
  }

  lemma {:induction false} SingleResolverContributor(ss: seq<seq<Registration>>, j: nat)
    requires forall k :: 0 <= k < |ss| && k != j ==> ClashResolversOf(ss[k]) == []
    ensures ClashResolversOf(Concat(ss)) == if j < |ss| then ClashResolversOf(ss[j]) else []
  {
    if ss != [] {
      var n := |ss| - 1;
      var init := ss[..n];
      forall k | 0 <= k < |init| && k != j
        ensures ClashResolversOf(init[k]) == []
      {
        assert init[k] == ss[k];
      }
      SingleResolverContributor(init, j);
      assert Concat(ss) == Concat(init) + ss[n];
      ClashResolversOfAppend(Concat(init), ss[n]);
      if j < n {
        assert init[j] == ss[j];
        assert ClashResolversOf(ss[n]) == [];
      }
    }
  }

  /**
   * Querying the composed container by capability gives back exactly the
   * checker list of that category (defaults first, then the platform's), and
   * for an optional service exactly one instance if it was supplied and none
   * if it was null; the clash resolvers come back as the defaults followed by
   * the platform's.
   */
  lemma QueryByCapability(p: PlatformConfiguratorBase, cap: Capability)
    ensures InstancesOf(p.Registrations(), cap) == Expected(p, cap)
    ensures ClashResolversOf(p.Registrations()) == p.ClashResolvers()
  {
    var s := p.Segments();
    forall k | 0 <= k < |s|
      ensures InstancesOf(s[k], cap) == if k == SegmentOf(cap) then Expected(p, cap) else []
      ensures ClashResolversOf(s[k]) == if k == CLASH_RESOLVER_SEGMENT then p.ClashResolvers() else []
    {
      SegmentAnswers(p, k, cap);
    }
    SingleInstanceContributor(s, SegmentOf(cap), cap);
    SingleResolverContributor(s, CLASH_RESOLVER_SEGMENT);
  }

  // ---------------------------------------------------------------------------
  // Registration order
  // ---------------------------------------------------------------------------

  /** The group a registration belongs to, in the order the groups are registered. */
  function Rank(r: Registration): nat {
    match r
    case InstanceEntry(c) => SegmentOf(CapabilityOf(c))
    case ClashResolverEntry(_) => CLASH_RESOLVER_SEGMENT
    case ImplEntry(_) => 13
  }

  ghost predicate InRegistrationOrder(regs: seq<Registration>) {
    forall i, j :: 0 <= i < j < |regs| ==> Rank(regs[i]) <= Rank(regs[j])
  }

  lemma {:induction false} RankedConcat(ss: seq<seq<Registration>>)
    requires forall k, x :: 0 <= k < |ss| && x in ss[k] ==> Rank(x) == k
    ensures InRegistrationOrder(Concat(ss))
    ensures forall x :: x in Concat(ss) ==> Rank(x) < |ss|
  {
    if ss != [] {
      var init := ss[..|ss| - 1];
      RankedConcat(init);
      var a, b := Concat(init), ss[|ss| - 1];
      assert Concat(ss) == a + b;
      forall i, j | 0 <= i < j < |a + b| ensures Rank((a + b)[i]) <= Rank((a + b)[j]) {
        if j < |a| {
        } else if i >= |a| {
          assert (a + b)[i] in b && (a + b)[j] in b;
        } else {
          assert (a + b)[i] in a && (a + b)[j] in b;
        }
      }
    }
  }

  lemma {:induction false} InstanceEntriesRank(cs: seq<Component>, k: nat)
    requires forall i :: 0 <= i < |cs| ==> SegmentOf(CapabilityOf(cs[i])) == k
    ensures forall x :: x in InstanceEntries(cs) ==> Rank(x) == k
  {
    if cs != [] { InstanceEntriesRank(cs[1..], k); }
  }

  lemma {:induction false} ClashResolverEntriesRank(rs: seq<ClashResolver>)
    ensures forall x :: x in ClashResolverEntries(rs) ==> Rank(x) == CLASH_RESOLVER_SEGMENT
  {
    if rs != [] { ClashResolverEntriesRank(rs[1..]); }
  }

  /**
   * The registration order is fixed: the dynamic types settings, then the
   * declaration, call, type, classifier usage and annotation checkers, then
   * the clash resolvers, then the six optional services in parameter order.
   */
  lemma RegistrationOrder(p: PlatformConfiguratorBase)
    ensures InRegistrationOrder(p.Registrations())
  {
    var s := p.Segments();
    forall k, x | 0 <= k < |s| && x in s[k] ensures Rank(x) == k {
      SegmentRanks(p, k);
    }
    RankedConcat(s);
  }

  /** Every registration of group `k` has rank `k`. */
  lemma SegmentRanks(p: PlatformConfiguratorBase, k: nat)
    requires k < 13
    ensures forall x :: x in p.Segments()[k] ==> Rank(x) == k
  {
    var s := p.Segments();
    if k == 1 {
      DeclarationInstancesCapability(p.DeclarationCheckers());
      InstanceEntriesRank(DeclarationInstances(p.DeclarationCheckers()), 1);
    } else if k == 2 {
      CallInstancesCapability(p.CallCheckers());
      InstanceEntriesRank(CallInstances(p.CallCheckers()), 2);
    } else if k == 3 {
      TypeInstancesCapability(p.TypeCheckers());
      InstanceEntriesRank(TypeInstances(p.TypeCheckers()), 3);
    } else if k == 4 {
      ClassifierUsageInstancesCapability(p.ClassifierUsageCheckers());
      InstanceEntriesRank(ClassifierUsageInstances(p.ClassifierUsageCheckers()), 4);
    } else if k == 5 {
      AnnotationInstancesCapability(p.AnnotationCheckers());
      InstanceEntriesRank(AnnotationInstances(p.AnnotationCheckers()), 5);
    } else if k == 6 {
      ClashResolverEntriesRank(p.ClashResolvers());
    } else {
      OptionalSegmentRank(p, k);
    }
  }

  lemma OptionalSegmentRank(p: PlatformConfiguratorBase, k: nat)
    requires k == 0 || 7 <= k <= 12
    ensures forall x :: x in p.Segments()[k] ==> Rank(x) == k
  {
    var of := CapabilityAt(k);
    var seg := InstanceIfNotNull(p.OptionalService(of));
    assert p.Segments()[k] == seg;
    OptionalServiceCapability(p, of);
    if p.OptionalService(of).Some? {
      assert seg == [InstanceEntry(p.OptionalService(of).value)];
    } else {
      assert seg == [];
    }
  }

  /** A supplied dynamic types setting is the very first registration. */
  lemma DynamicTypesSettingsFirst(p: PlatformConfiguratorBase)
    requires p.dynamicTypesSettings.Some?
    ensures |p.Registrations()| > 0
    ensures p.Registrations()[0] == InstanceEntry(DynamicTypesSettings(p.dynamicTypesSettings.value))
  {
    var s := p.Segments();
    ConcatPrefix(s, 1);
    assert s[..1][..0] == [];
    assert Concat(s[..1]) == s[0];
  }

  lemma {:induction false} ConcatPrefix(ss: seq<seq<Registration>>, n: nat)
    requires n <= |ss|
    ensures Concat(ss[..n]) <= Concat(ss)
  {
    if n < |ss| {
      ConcatPrefix(ss[..|ss| - 1], n);
      assert ss[..|ss| - 1][..n] == ss[..n];
    } else {
      assert ss[..n] == ss;
    }
  }

  function Concat(ss: seq<seq<Registration>>): seq<Registration> {
    if ss == [] then [] else Concat(ss[..|ss| - 1]) + ss[|ss| - 1]
  }

  /** Registering group `k` after the first `k` groups gives the first `k + 1`. */
  lemma ConcatStep(ss: seq<seq<Registration>>, k: nat)
    requires k < |ss|
    ensures Concat(ss[..k + 1]) == Concat(ss[..k]) + ss[k]
  {
    assert ss[..k + 1] == ss[..k] + [ss[k]];
    ConcatSnoc(ss[..k], ss[k]);
  }

  lemma ConcatSnoc(ss: seq<seq<Registration>>, s: seq<Registration>)
    ensures Concat(ss + [s]) == Concat(ss) + s
  {
    assert (ss + [s])[..|ss|] == ss;
  }
}
