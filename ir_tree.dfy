/**
 * The IR entities the JS backend's builder works on: symbols, descriptors,
 * declarations and the mutable state of classes and functions.
 *
 * Symbols, types and descriptors are opaque identities. A declaration that
 * is itself a declaration parent (a class, a simple function, a constructor)
 * appears in a tree only by its symbol: its own state lives in the IR heap,
 * and the parent-setting visitor never looks inside it. Every other
 * declaration and every expression is a value tree.
 */
module IrTree {
  import opened Wrappers

  type Symbol = nat
  type TypeId = nat
  type DescriptorId = nat

  // ---------------------------------------------------------------------------
  // Descriptors
  // ---------------------------------------------------------------------------

  /** A callable member descriptor: a function, a property or another member. */
  datatype CallableDescriptor = CallableDescriptor(
    id: DescriptorId,
    name: string,
    original: DescriptorId,
    overriddenDescriptors: seq<CallableDescriptor>,
    typeParametersCount: nat,
    kind: CallableKind)

  datatype CallableKind =
    | FunctionDescriptorKind
    | PropertyDescriptorKind(getter: Option<CallableDescriptor>, setter: Option<CallableDescriptor>)
    | OtherCallableKind

  /** A class descriptor with the class descriptors of its supertypes. */
  datatype ClassDescriptor = ClassDescriptor(id: DescriptorId, supertypes: seq<DescriptorId>)

  /** What a type's constructor declares: nothing, a type parameter or another classifier. */
  datatype ClassifierDescriptor =
    | TypeParameterDescriptor(id: DescriptorId)
    | ClassifierDescriptorOther(id: DescriptorId)

  /** An upper bound of a type parameter, by the declaration descriptor of its constructor. */
  datatype UpperBound = UpperBound(declarationDescriptor: Option<ClassifierDescriptor>)

  // ---------------------------------------------------------------------------
  // Origins
  // ---------------------------------------------------------------------------

  datatype DeclarationOrigin = Defined | FakeOverride | SynthesizedDeclaration

  datatype StatementOrigin = SynthesizedStatement | OtherStatementOrigin(id: nat)

  // ---------------------------------------------------------------------------
  // Trees
  // ---------------------------------------------------------------------------

  datatype ParentKind = ClassParent | SimpleFunctionParent | ConstructorParent

  /**
   * An IR element. `Expression` stands for every element that is not a
   * declaration (expressions, bodies, branches), with its children in
   * `acceptChildren` order.
   */
  datatype Element =
    | Expression(children: seq<Element>)
    | ParentDeclaration(symbol: Symbol, parentKind: ParentKind)
    | Property(symbol: Symbol, descriptor: CallableDescriptor, origin: DeclarationOrigin,
               backingField: Option<Element>, getter: Option<Symbol>, setter: Option<Symbol>)
    | OtherDeclaration(symbol: Symbol, callable: Option<CallableDescriptor>, children: seq<Element>)
  {
    predicate IsDeclaration() {
      !Expression?
    }
  }

  type IrDeclaration = e: Element | e.IsDeclaration() witness ParentDeclaration(0, ClassParent)

  // ---------------------------------------------------------------------------
  // Mutable state of declaration parents
  // ---------------------------------------------------------------------------

  datatype IrClassState = IrClassState(
    descriptor: ClassDescriptor,
    declarations: seq<IrDeclaration>,
    superClasses: seq<Symbol>,
    typeParameters: seq<Symbol>)

  /** A simple function or a constructor; `returnType` is None until it is set. */
  datatype IrFunctionState = IrFunctionState(
    descriptor: CallableDescriptor,
    origin: DeclarationOrigin,
    returnType: Option<TypeId>,
    overriddenSymbols: seq<Symbol>,
    typeParameters: seq<Symbol>)

  /** A classifier symbol as stored in `superClassifiers`. */
  datatype ClassifierSymbol =
    | TypeParameterSymbol(descriptor: DescriptorId)
    | ReferencedClassifier(symbol: Symbol)

  datatype IrTypeParameterState = IrTypeParameterState(
    upperBounds: seq<UpperBound>,
    superClassifiers: seq<ClassifierSymbol>)

  /** Why a structural operation stops; each is a Kotlin `assert` or `error`. */
  datatype IrError =
    | SupertypesMismatch
    | SuperClassesNotEmpty
    | OverriddenSymbolsNotEmpty(simpleFunction: Symbol)
    | SuperClassifiersNotEmpty(typeParameter: Symbol)
    | MissingSuperMember(original: DescriptorId)
    | InheritanceConflict(first: DescriptorId, second: DescriptorId)
    | OverrideConflict(fromSuper: DescriptorId, fromCurrent: DescriptorId)
    | FakeOverrideNotImplemented(descriptor: DescriptorId)
}
