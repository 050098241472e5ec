/**
 * The IR heap the structural operations of the JS backend's builder update
 * in place. Each method is proved to leave the state that the matching
 * function of IrStructure describes, so the properties proved there are
 * properties of these methods.
 */
module IrHeapOps {
  import opened Wrappers
  import opened IrTree
  import opened IrStructure

  class IrHeap {
    var classes: map<Symbol, IrClassState>
    var functions: map<Symbol, IrFunctionState>
    var typeParameters: map<Symbol, IrTypeParameterState>
    var parents: map<Symbol, Symbol>
    var nextSymbol: nat

    /** The heap as a value. */
    function State(): IrState
      reads this
    {
      IrState(classes, functions, typeParameters, parents, nextSymbol)
    }

    constructor(initial: IrState)
      ensures State() == initial
    {
      classes := initial.classes;
      functions := initial.functions;
      typeParameters := initial.typeParameters;
      parents := initial.parents;
      nextSymbol := initial.nextSymbol;
    }

    /**
     * `element.accept(SetDeclarationsParentVisitor, data)`: a declaration gets
     * `data` as parent; the visit descends into the children of every element
     * that is not a declaration parent.
     */
    method AcceptVisitor(e: Element, data: Symbol)
      modifies this
      ensures parents == WithParent(old(parents), Reached(e), data)
      ensures classes == old(classes) && functions == old(functions)
      ensures typeParameters == old(typeParameters) && nextSymbol == old(nextSymbol)
      decreases e
    {
      match e
      case Expression(children) =>
        VisitChildren(children, data);
      case ParentDeclaration(symbol, _) =>
        SetParent(symbol, data);
      case Property(symbol, _, _, backingField, getter, setter) =>
        SetParent(symbol, data);
        ghost var afterSymbol := parents;
        if backingField.Some? {
          AcceptVisitor(backingField.value, data);
        }
        ghost var afterField := parents;
        SetOptionalParent(getter, data);
        SetOptionalParent(setter, data);
        assert afterField == WithParent(afterSymbol, if backingField.Some? then Reached(backingField.value) else {}, data);
        WithParentTwice(old(parents), {symbol}, if backingField.Some? then Reached(backingField.value) else {}, data);
        WithParentTwice(old(parents), {symbol} + (if backingField.Some? then Reached(backingField.value) else {}),
                        OptionSet(getter), data);
        WithParentTwice(old(parents), {symbol} + (if backingField.Some? then Reached(backingField.value) else {})
                        + OptionSet(getter), OptionSet(setter), data);
      case OtherDeclaration(symbol, _, children) =>
        SetParent(symbol, data);
        VisitChildren(children, data);
        WithParentTwice(old(parents), {symbol}, ReachedAll(children), data);
    }

    /** `declaration.parent = data`. */
    method SetParent(symbol: Symbol, data: Symbol)
      modifies this
      ensures parents == WithParent(old(parents), {symbol}, data)
      ensures classes == old(classes) && functions == old(functions)
      ensures typeParameters == old(typeParameters) && nextSymbol == old(nextSymbol)
    {
      WithParentSingle(parents, symbol, data);
      parents := parents[symbol := data];
    }

    /** Visiting an accessor that may be absent: its parent is set, and the visit stops there. */
    method SetOptionalParent(accessor: Option<Symbol>, data: Symbol)
      modifies this
      ensures parents == WithParent(old(parents), OptionSet(accessor), data)
      ensures classes == old(classes) && functions == old(functions)
      ensures typeParameters == old(typeParameters) && nextSymbol == old(nextSymbol)
    {
      if accessor.Some? {
        SetParent(accessor.value, data);
      } else {
        assert WithParent(parents, {}, data) == parents;
      }
    }

    /** `acceptChildren`: visit the children in order. */
    method VisitChildren(children: seq<Element>, data: Symbol)
      modifies this
      ensures parents == WithParent(old(parents), ReachedAll(children), data)
      ensures classes == old(classes) && functions == old(functions)
      ensures typeParameters == old(typeParameters) && nextSymbol == old(nextSymbol)
      decreases children, 1
    {
      var i := 0;
      while i < |children|
        invariant 0 <= i <= |children|
        invariant parents == WithParent(old(parents), ReachedAll(children[..i]), data)
        invariant classes == old(classes) && functions == old(functions)
        invariant typeParameters == old(typeParameters) && nextSymbol == old(nextSymbol)
      {
        assert children[i] in children;
        AcceptVisitor(children[i], data);
        WithParentTwice(old(parents), ReachedAll(children[..i]), Reached(children[i]), data);
        assert children[..i + 1][..i] == children[..i];
        i := i + 1;
      }
      assert children[..i] == children;
    }

    /** `addChild`: append the declaration, then visit it with the container as parent. */
    method AddChild(container: Symbol, declaration: IrDeclaration)
      requires container in classes
      modifies this
      ensures State() == IrStructure.AddChild(old(State()), container, declaration)
    {
      var c := classes[container];
      classes := classes[container := c.(declarations := c.declarations + [declaration])];
      AcceptVisitor(declaration, container);
    }

    /** `addChildren`: `addChild` for each declaration in order. */
    method AddChildren(container: Symbol, declarations: seq<IrDeclaration>)
      requires container in classes
      modifies this
      ensures State() == IrStructure.AddChildren(old(State()), container, declarations)
    {
      var i := 0;
      while i < |declarations|
        invariant 0 <= i <= |declarations|
        invariant State() == IrStructure.AddChildren(old(State()), container, declarations[..i])
        invariant container in classes
      {
        AddChild(container, declarations[i]);
        assert declarations[..i + 1][..i] == declarations[..i];
        i := i + 1;
      }
      assert declarations[..i] == declarations;
    }

    /** `createFunction` of an accessor: a fresh fake-override function, if the accessor exists. */
    method CreateAccessor(accessor: Option<CallableDescriptor>) returns (symbol: Option<Symbol>)
      requires Wellformed(State())
      modifies this
      ensures IrStructure.CreateAccessor(old(State()), accessor) == CreatedAccessor(State(), symbol)
    {
      if accessor.None? {
        return None;
      }
      var n := nextSymbol;
      functions := functions[n := FakeOverrideFunction(accessor.value)];
      nextSymbol := n + 1;
      symbol := Some(n);
    }

    /** `createFakeOverride`. */
    method CreateFakeOverride(d: CallableDescriptor) returns (r: Result<IrDeclaration, IrError>)
      requires Wellformed(State())
      modifies this
      ensures var spec := IrStructure.CreateFakeOverride(old(State()), d);
              && (spec.Err? ==> r == Err(spec.error) && State() == old(State()))
              && (spec.Ok? ==> r == Ok(spec.value.declaration) && State() == spec.value.state)
    {
      match d.kind
      case FunctionDescriptorKind =>
        var n := nextSymbol;
        functions := functions[n := FakeOverrideFunction(d)];
        nextSymbol := n + 1;
        r := Ok(ParentDeclaration(n, SimpleFunctionParent));
      case PropertyDescriptorKind(getterDescriptor, setterDescriptor) =>
        var p := nextSymbol;
        ghost var s0 := State();
        nextSymbol := p + 1;
        assert State() == s0.(nextSymbol := p + 1);
        var getter := CreateAccessor(getterDescriptor);
        ghost var withGetter := IrStructure.CreateAccessor(s0.(nextSymbol := p + 1), getterDescriptor);
        assert State() == withGetter.state;
        var setter := CreateAccessor(setterDescriptor);
        r := Ok(Property(p, d, FakeOverride, None, getter, setter));
      case OtherCallableKind =>
        r := Err(FakeOverrideNotImplemented(d.id));
    }
  
    /**
     * `setSuperSymbols(supers)`: check the supertypes and the empty
     * `superClasses`, append the supers' symbols, then fill the overridden
     * symbols of each simple function in turn from the supers' members.
     */
    method SetSuperSymbols(self: Symbol, supers: seq<Symbol>) returns (outcome: Outcome<IrError>)
      requires Wellformed(State()) && self in classes
      requires forall c :: c in supers ==> c in classes
      modifies this
      ensures Step(State(), outcome) == IrStructure.SetSuperSymbols(old(State()), self, supers)
    {
      var s := State();
      if SuperDescriptorSet(s, self) != SupersDescriptorSet(s, supers) {
        return Fail(SupertypesMismatch);
      }
      if classes[self].superClasses != [] {
        return Fail(SuperClassesNotEmpty);
      }
      SetSuperSymbolsUnfold(s, self, supers);
      AppendSuperClasses(self, supers);
      assert [] + supers == supers;
      var superMembers := AssociateByDescriptor(s.functions, SuperMemberFunctions(s, supers));
      var fs := SimpleFunctionsOf(classes[self].declarations);
      outcome := FillAll(fs, superMembers);
    }

    /** `supers.mapTo(superClasses) { it.symbol }`. */
    method AppendSuperClasses(self: Symbol, supers: seq<Symbol>)
      requires self in classes
      modifies this
      ensures classes == old(classes)[self := old(classes)[self].(superClasses := old(classes)[self].superClasses + supers)]
      ensures functions == old(functions) && typeParameters == old(typeParameters)
      ensures parents == old(parents) && nextSymbol == old(nextSymbol)
    {
      ghost var initial := classes[self].superClasses;
      var i := 0;
      assert initial + supers[..0] == initial;
      assert classes == classes[self := classes[self].(superClasses := initial)];
      while i < |supers|
        invariant 0 <= i <= |supers|
        invariant classes == old(classes)[self := old(classes)[self].(superClasses := initial + supers[..i])]
        invariant functions == old(functions) && typeParameters == old(typeParameters)
        invariant parents == old(parents) && nextSymbol == old(nextSymbol)
      {
        classes := classes[self := classes[self].(superClasses := classes[self].superClasses + [supers[i]])];
        assert initial + supers[..i + 1] == (initial + supers[..i]) + [supers[i]];
        i := i + 1;
      }
      assert supers[..i] == supers;
    }

    /** The `forEach` over the simple functions: fill each in turn, stopping at the first error. */
    method FillAll(fs: seq<Symbol>, superMembers: map<DescriptorId, Symbol>) returns (outcome: Outcome<IrError>)
      requires forall k :: 0 <= k < |fs| ==> fs[k] in functions
      modifies this
      ensures var filled := FillOverrides(old(functions), fs, superMembers);
              && functions == filled.functions
              && outcome == if filled.error.Some? then Fail(filled.error.value) else Pass
      ensures classes == old(classes) && typeParameters == old(typeParameters)
      ensures parents == old(parents) && nextSymbol == old(nextSymbol)
    {
      var k := 0;
      while k < |fs|
        invariant 0 <= k <= |fs|
        invariant functions.Keys == old(functions).Keys
        invariant FillOverrides(functions, fs[k..], superMembers) == FillOverrides(old(functions), fs, superMembers)
        invariant classes == old(classes) && typeParameters == old(typeParameters)
        invariant parents == old(parents) && nextSymbol == old(nextSymbol)
      {
        assert fs[k..][0] == fs[k] && fs[k..][1..] == fs[k + 1..];
        var error := FillOne(fs[k], superMembers);
        if error.Some? {
          return Fail(error.value);
        }
        k := k + 1;
      }
      assert fs[k..] == [];
      outcome := Pass;
    }

    /**
     * One step of the `forEach`: `assert(overriddenSymbols.isEmpty())`, then
     * `overriddenDescriptors.mapTo(overriddenSymbols) { superMembers[it.original] ?: error(it.original) }`.
     */
    method FillOne(f: Symbol, superMembers: map<DescriptorId, Symbol>) returns (error: Option<IrError>)
      requires f in functions
      modifies this
      ensures Filled(functions, error) == FillFunction(old(functions), f, superMembers)
      ensures classes == old(classes) && typeParameters == old(typeParameters)
      ensures parents == old(parents) && nextSymbol == old(nextSymbol)
    {
      if functions[f].overriddenSymbols != [] {
        return Some(OverriddenSymbolsNotEmpty(f));
      }
      var overridden := functions[f].descriptor.overriddenDescriptors;
      ghost var initial := functions;
      var j := 0;
      while j < |overridden|
        invariant 0 <= j <= |overridden|
        invariant f in functions
        invariant functions == initial[f := initial[f].(overriddenSymbols := functions[f].overriddenSymbols)]
        invariant var rest := LookUpOverridden(superMembers, overridden[j..]);
                  LookUpOverridden(superMembers, overridden)
                  == Lookup(functions[f].overriddenSymbols + rest.found, rest.missing)
        invariant classes == old(classes) && typeParameters == old(typeParameters)
        invariant parents == old(parents) && nextSymbol == old(nextSymbol)
      {
        var original := overridden[j].original;
        assert overridden[j..][0] == overridden[j] && overridden[j..][1..] == overridden[j + 1..];
        if original !in superMembers {
          assert LookUpOverridden(superMembers, overridden[j..]) == Lookup([], Some(original));
          assert functions[f].overriddenSymbols + [] == functions[f].overriddenSymbols;
          return Some(MissingSuperMember(original));
        }
        var before := functions[f].overriddenSymbols;
        ghost var rest := LookUpOverridden(superMembers, overridden[j + 1..]);
        assert LookUpOverridden(superMembers, overridden[j..]) == Lookup([superMembers[original]] + rest.found, rest.missing);
        assert before + ([superMembers[original]] + rest.found) == (before + [superMembers[original]]) + rest.found;
        functions := functions[f := functions[f].(overriddenSymbols := before + [superMembers[original]])];
        j := j + 1;
      }
      assert overridden[j..] == [];
      assert functions[f].overriddenSymbols + [] == functions[f].overriddenSymbols;
      error := None;
    }
  
    /**
     * The overriding strategy's callback for one call: `addFakeOverride`
     * creates the fake override and adds it with `addChild`; a conflict is an
     * error.
     */
    method ApplyCall(self: Symbol, call: StrategyCall) returns (outcome: Outcome<IrError>)
      requires Wellformed(State()) && self in classes
      modifies this
      ensures Step(State(), outcome) == ApplyStrategy(old(State()), self, [call])
    {
      assert [call][1..] == [];
      match call
      case AddFakeOverrideCall(fakeOverride) =>
        var created := CreateFakeOverride(fakeOverride);
        if created.Err? {
          return Fail(created.error);
        }
        AddChild(self, created.value);
        outcome := Pass;
      case InheritanceConflictCall(first, second) =>
        outcome := Fail(InheritanceConflict(first.id, second.id));
      case OverrideConflictCall(fromSuper, fromCurrent) =>
        outcome := Fail(OverrideConflict(fromSuper.id, fromCurrent.id));
    }

    /** The callbacks the override generator makes for one name group, in order, stopping at an error. */
    method RunStrategy(self: Symbol, calls: seq<StrategyCall>) returns (outcome: Outcome<IrError>)
      requires Wellformed(State()) && self in classes
      modifies this
      ensures Step(State(), outcome) == ApplyStrategy(old(State()), self, calls)
    {
      var j := 0;
      while j < |calls|
        invariant 0 <= j <= |calls|
        invariant Wellformed(State()) && self in classes
        invariant ApplyStrategy(State(), self, calls[j..]) == ApplyStrategy(old(State()), self, calls)
      {
        ghost var before := State();
        ApplyStrategyConcat(before, self, [calls[j]], calls[j + 1..]);
        SliceCons(calls, j);
        ghost var first := ApplyStrategy(before, self, [calls[j]]);
        outcome := ApplyCall(self, calls[j]);
        assert Step(State(), outcome) == first;
        if outcome.Fail? {
          assert ApplyStrategy(before, self, calls[j..]) == first;
          return;
        }
        assert ApplyStrategy(State(), self, calls[j + 1..]) == ApplyStrategy(before, self, calls[j..]);
        j := j + 1;
      }
      assert calls[j..] == [];
      outcome := Pass;
    }

    /**
     * `setSuperSymbolsAndAddFakeOverrides(supers)`: group the unoverridden
     * super members by name, let the override generator drive the strategy
     * for each group, then `setSuperSymbols(supers)`.
     */
    method SetSuperSymbolsAndAddFakeOverrides(self: Symbol, supers: seq<Symbol>, generate: OverrideGenerator)
      returns (outcome: Outcome<IrError>)
      requires Wellformed(State()) && self in classes
      requires forall c :: c in supers ==> c in classes
      modifies this
      ensures Step(State(), outcome) == IrStructure.SetSuperSymbolsAndAddFakeOverrides(old(State()), self, supers, generate)
    {
      var s := State();
      var overriddenSuperMembers := OverriddenSuperMembers(functions, classes[self].declarations);
      var unoverriddenSuperMembers := Unoverridden(SuperMemberDescriptors(s, supers), overriddenSuperMembers);
      var groups := GroupByName(unoverriddenSuperMembers);
      var g := 0;
      while g < |groups|
        invariant 0 <= g <= |groups|
        invariant Wellformed(State()) && classes.Keys == s.classes.Keys
        invariant classes[self].descriptor == s.classes[self].descriptor
        invariant ApplyGroups(State(), self, groups[g..], generate) == ApplyGroups(s, self, groups, generate)
      {
        assert groups[g..][0] == groups[g] && groups[g..][1..] == groups[g + 1..];
        var calls := generate(groups[g].name, groups[g].members, classes[self].descriptor);
        outcome := RunStrategy(self, calls);
        if outcome.Fail? {
          return;
        }
        g := g + 1;
      }
      assert groups[g..] == [];
      outcome := SetSuperSymbols(self, supers);
    }

    /**
     * `IrTypeParameter.setSupers`: `superClassifiers` must be empty; then the
     * classifier of each upper bound that has one is appended, in order.
     */
    method SetSupers(typeParameter: Symbol, table: ClassifierTable) returns (outcome: Outcome<IrError>)
      requires typeParameter in typeParameters
      modifies this
      ensures Step(State(), outcome) == IrStructure.SetSupers(old(State()), typeParameter, table)
    {
      if typeParameters[typeParameter].superClassifiers != [] {
        return Fail(SuperClassifiersNotEmpty(typeParameter));
      }
      var bounds := typeParameters[typeParameter].upperBounds;
      var i := 0;
      assert typeParameters == typeParameters[typeParameter := typeParameters[typeParameter].(superClassifiers := [])];
      while i < |bounds|
        invariant 0 <= i <= |bounds|
        invariant typeParameters == old(typeParameters)[typeParameter :=
                    old(typeParameters)[typeParameter].(superClassifiers := SuperClassifiers(bounds[..i], table))]
        invariant classes == old(classes) && functions == old(functions)
        invariant parents == old(parents) && nextSymbol == old(nextSymbol)
      {
        assert bounds[..i + 1][..i] == bounds[..i];
        var classifier := BoundClassifier(bounds[i], table);
        assert SuperClassifiers(bounds[..i + 1], table) == SuperClassifiers(bounds[..i], table) + OptionSeq(classifier);
        if classifier.Some? {
          var tp := typeParameters[typeParameter];
          typeParameters := typeParameters[typeParameter := tp.(superClassifiers := tp.superClassifiers + [classifier.value])];
        } else {
          assert SuperClassifiers(bounds[..i], table) + [] == SuperClassifiers(bounds[..i], table);
        }
        i := i + 1;
      }
      assert bounds[..i] == bounds;
      outcome := Pass;
    }
  }
}
