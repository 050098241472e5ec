/**
 * The structural operations on IR declarations, as functions of the IR state:
 * the parent-setting visitor, `addChild`, `simpleFunctions`,
 * `setSuperSymbols(supers)`, `createFakeOverride`,
 * `setSuperSymbolsAndAddFakeOverrides` and `IrTypeParameter.setSupers`.
 * The methods of `IrHeap` (module IrHeapOps) are proved against them.
 */
module IrStructure {
  import opened Wrappers
  import opened IrTree

  /** The mutable IR objects, keyed by symbol, and the next unused symbol. */
  datatype IrState = IrState(
    classes: map<Symbol, IrClassState>,
    functions: map<Symbol, IrFunctionState>,
    typeParameters: map<Symbol, IrTypeParameterState>,
    parents: map<Symbol, Symbol>,
    nextSymbol: nat)

  /** The state an operation leaves and whether it ran to its end. */
  datatype Step = Step(state: IrState, outcome: Outcome<IrError>)

  /** Every function a class declares, directly or as an accessor, exists in the heap. */
  predicate DeclarationBound(functions: map<Symbol, IrFunctionState>, d: Element) {
    match d
    case ParentDeclaration(symbol, kind) => kind != ClassParent ==> symbol in functions
    case Property(_, _, _, _, getter, setter) =>
      (getter.Some? ==> getter.value in functions) && (setter.Some? ==> setter.value in functions)
    case _ => true
  }

  predicate AllBound(functions: map<Symbol, IrFunctionState>, ds: seq<IrDeclaration>) {
    forall i :: 0 <= i < |ds| ==> DeclarationBound(functions, ds[i])
  }

  predicate Wellformed(s: IrState) {
    && (forall c :: c in s.classes ==> AllBound(s.functions, s.classes[c].declarations))
    && (forall f :: f in s.functions ==> f < s.nextSymbol)
  }

  // ---------------------------------------------------------------------------
  // SetDeclarationsParentVisitor
  // ---------------------------------------------------------------------------

  /**
   * The declarations whose parent the visitor sets when it visits `e`: every
   * declaration met, descending only through elements that are not
   * themselves declaration parents.
   */
  function Reached(e: Element): set<Symbol>
    decreases e
  {
    match e
    case Expression(children) => ReachedAll(children)
    case ParentDeclaration(symbol, _) => {symbol}
    case Property(symbol, _, _, backingField, getter, setter) =>
      {symbol} + (if backingField.Some? then Reached(backingField.value) else {}) + OptionSet(getter) + OptionSet(setter)
    case OtherDeclaration(symbol, _, children) => {symbol} + ReachedAll(children)
  }

  function ReachedAll(es: seq<Element>): set<Symbol>
    decreases es
  {
    if es == [] then {} else ReachedAll(es[..|es| - 1]) + Reached(es[|es| - 1])
  }

  function OptionSet(o: Option<Symbol>): set<Symbol> {
    if o.Some? then {o.value} else {}
  }

  /** The parent map after setting the parent of every symbol in `reached` to `data`. */
  function WithParent(parents: map<Symbol, Symbol>, reached: set<Symbol>, data: Symbol): (r: map<Symbol, Symbol>)
    ensures r.Keys == parents.Keys + reached
    ensures forall s :: s in reached ==> r[s] == data
    ensures forall s :: s in parents && s !in reached ==> r[s] == parents[s]
  {
    map s | s in parents.Keys + reached :: if s in reached then data else parents[s]
  }

  lemma WithParentTwice(parents: map<Symbol, Symbol>, a: set<Symbol>, b: set<Symbol>, data: Symbol)
    ensures WithParent(WithParent(parents, a, data), b, data) == WithParent(parents, a + b, data)
  {
  }

  /** Setting the parent of one symbol is a map update. */
  lemma WithParentSingle(parents: map<Symbol, Symbol>, x: Symbol, data: Symbol)
    ensures WithParent(parents, {x}, data) == parents[x := data]
  {
  }

  /**
   * The visitor sets the parent of a declaration it visits, of a property's
   * accessors and backing field, and stops at declaration parents.
   */
  lemma ReachedDeclarations(e: Element)
    ensures e.IsDeclaration() ==> e.symbol in Reached(e)
    ensures e.ParentDeclaration? ==> Reached(e) == {e.symbol}
    ensures e.Property? ==> OptionSet(e.getter) + OptionSet(e.setter) <= Reached(e)
    ensures e.Property? && e.backingField.Some? ==> Reached(e.backingField.value) <= Reached(e)
  {
  }

  // ---------------------------------------------------------------------------
  // addChild / addChildren
  // ---------------------------------------------------------------------------

  /** `addChild`: append the declaration, then visit it with the container as parent. */
  function AddChild(s: IrState, container: Symbol, declaration: IrDeclaration): IrState
    requires container in s.classes
  {
    var c := s.classes[container];
    s.(classes := s.classes[container := c.(declarations := c.declarations + [declaration])],
       parents := WithParent(s.parents, Reached(declaration), container))
  }

  function AddChildren(s: IrState, container: Symbol, declarations: seq<IrDeclaration>): (r: IrState)
    requires container in s.classes
    ensures r.classes.Keys == s.classes.Keys
  {
    if declarations == [] then s
    else AddChild(AddChildren(s, container, declarations[..|declarations| - 1]), container, declarations[|declarations| - 1])
  }

  /**
   * `addChild` appends at the end, leaves the earlier declarations and every
   * other class alone, sets the parent of what it visits to the container,
   * extends `simpleFunctions` by the new declaration's functions, and keeps
   * the heap well formed.
   */
  lemma AddChildAppends(s: IrState, container: Symbol, declaration: IrDeclaration)
    requires container in s.classes
    ensures var r := AddChild(s, container, declaration);
            && r.classes.Keys == s.classes.Keys
            && r.classes[container].declarations == s.classes[container].declarations + [declaration]
            && r.classes[container].superClasses == s.classes[container].superClasses
            && (forall c :: c in s.classes && c != container ==> r.classes[c] == s.classes[c])
            && declaration.symbol in r.parents && r.parents[declaration.symbol] == container
            && (forall x :: x in s.parents && x !in Reached(declaration) ==> r.parents[x] == s.parents[x])
            && r.functions == s.functions
            && SimpleFunctionsOf(r.classes[container].declarations)
               == SimpleFunctionsOf(s.classes[container].declarations) + Contribution(declaration)
            && (Wellformed(s) && DeclarationBound(s.functions, declaration) ==> Wellformed(r))
  {
    ReachedDeclarations(declaration);
    var r := AddChild(s, container, declaration);
    var before := s.classes[container].declarations;
    assert (before + [declaration])[..|before|] == before;
    if Wellformed(s) && DeclarationBound(s.functions, declaration) {
      forall c | c in r.classes
        ensures AllBound(r.functions, r.classes[c].declarations)
      {
        if c == container {
          assert AllBound(s.functions, before);
        }
      }
    }
  }

  lemma AppendAssoc<T>(a: seq<T>, b: seq<T>, c: seq<T>)
    ensures a + (b + c) == (a + b) + c
  {
  }

  lemma SliceSnoc<T>(s: seq<T>)
    requires s != []
    ensures s[..|s| - 1] + [s[|s| - 1]] == s
  {
  }

  /** `addChildren` appends the declarations in their order. */
  lemma {:induction false} AddChildrenAppends(s: IrState, container: Symbol, declarations: seq<IrDeclaration>)
    requires container in s.classes
    ensures AddChildren(s, container, declarations).classes[container].declarations
            == s.classes[container].declarations + declarations
    ensures forall c :: c in s.classes && c != container ==>
              AddChildren(s, container, declarations).classes[c] == s.classes[c]
    ensures AddChildren(s, container, declarations).functions == s.functions
  {
    if declarations != [] {
      var init := declarations[..|declarations| - 1];
      var last := declarations[|declarations| - 1];
      AddChildrenAppends(s, container, init);
      var mid := AddChildren(s, container, init);
      var r := AddChild(mid, container, last);
      assert AddChildren(s, container, declarations) == r;
      assert r.classes[container].declarations == mid.classes[container].declarations + [last];
      SliceSnoc(declarations);
      var before := s.classes[container].declarations;
      assert (before + init) + [last] == before + (init + [last]);
    }
  }

  // ---------------------------------------------------------------------------
  // simpleFunctions
  // ---------------------------------------------------------------------------

  /** What one declaration contributes to `simpleFunctions`. */
  function Contribution(d: Element): seq<Symbol> {
    match d
    case ParentDeclaration(symbol, kind) => if kind == SimpleFunctionParent then [symbol] else []
    case Property(_, _, _, _, getter, setter) =>
      (if getter.Some? then [getter.value] else []) + (if setter.Some? then [setter.value] else [])
    case _ => []
  }

  lemma SimpleFunctionsSingle(d: IrDeclaration)
    ensures SimpleFunctionsOf([d]) == Contribution(d)
  {
  }

  /** Declaration `d` yields `f` to `simpleFunctions`: it is the simple function `f`, or a property whose getter or setter is `f`. */
  predicate Contributes(d: Element, f: Symbol) {
    d == ParentDeclaration(f, SimpleFunctionParent) || (d.Property? && (d.getter == Some(f) || d.setter == Some(f)))
  }

  /** `simpleFunctions`, over a class's declarations. */
  function SimpleFunctionsOf(ds: seq<IrDeclaration>): seq<Symbol> {
    if ds == [] then [] else SimpleFunctionsOf(ds[..|ds| - 1]) + Contribution(ds[|ds| - 1])
  }

  lemma {:induction false} SimpleFunctionsAppend(a: seq<IrDeclaration>, b: seq<IrDeclaration>)
    ensures SimpleFunctionsOf(a + b) == SimpleFunctionsOf(a) + SimpleFunctionsOf(b)
  {
    if b != [] {
      var init := b[..|b| - 1];
      var last := b[|b| - 1];
      SimpleFunctionsAppend(a, init);
      assert (a + b)[..|a + b| - 1] == a + init;
      assert (a + b)[|a + b| - 1] == last;
      assert SimpleFunctionsOf(a + b) == SimpleFunctionsOf(a + init) + Contribution(last);
      assert SimpleFunctionsOf(b) == SimpleFunctionsOf(init) + Contribution(last);
    } else {
      assert a + b == a;
    }
  }

  /**
   * `simpleFunctions` holds each simple function and each property's present
   * getter and setter, and nothing else. The order is that of the
   * declarations (`SimpleFunctionsAppend`), and one declaration gives its
   * `Contribution`, a property its getter then its setter
   * (`SimpleFunctionsSingle`).
   */
  lemma SimpleFunctionsMembers(ds: seq<IrDeclaration>)
    ensures forall f :: f in SimpleFunctionsOf(ds) <==> exists i :: 0 <= i < |ds| && Contributes(ds[i], f)
  {
    forall f
      ensures f in SimpleFunctionsOf(ds) <==> exists i :: 0 <= i < |ds| && Contributes(ds[i], f)
    {
      SimpleFunctionsMember(ds, f);
    }
  }

  lemma SimpleFunctionsMember(ds: seq<IrDeclaration>, f: Symbol)
    ensures f in SimpleFunctionsOf(ds) <==> exists i :: 0 <= i < |ds| && Contributes(ds[i], f)
  {
    ListedContributes(ds, f);
    if exists i :: 0 <= i < |ds| && Contributes(ds[i], f) {
      var i :| 0 <= i < |ds| && Contributes(ds[i], f);
      ContributorListed(ds, f, i);
    }
  }

  lemma {:induction false} ContributorListed(ds: seq<IrDeclaration>, f: Symbol, i: nat)
    requires i < |ds| && Contributes(ds[i], f)
    ensures f in SimpleFunctionsOf(ds)
  {
    var init, last := ds[..|ds| - 1], ds[|ds| - 1];
    assert SimpleFunctionsOf(ds) == SimpleFunctionsOf(init) + Contribution(last);
    if i < |init| {
      assert init[i] == ds[i];
      ContributorListed(init, f, i);
    } else {
      assert Contributes(last, f);
      ContributionMembers(last);
    }
  }

  lemma {:induction false} ListedContributes(ds: seq<IrDeclaration>, f: Symbol)
    ensures f in SimpleFunctionsOf(ds) ==> exists i :: 0 <= i < |ds| && Contributes(ds[i], f)
  {
    if ds != [] {
      var init, last := ds[..|ds| - 1], ds[|ds| - 1];
      assert SimpleFunctionsOf(ds) == SimpleFunctionsOf(init) + Contribution(last);
      ListedContributes(init, f);
      if f in SimpleFunctionsOf(init) {
        var i :| 0 <= i < |init| && Contributes(init[i], f);
        assert ds[i] == init[i];
      } else if f in Contribution(last) {
        ContributionMembers(last);
        assert Contributes(ds[|ds| - 1], f);
      }
    }
  }


  lemma ContributionMembers(d: Element)
    ensures forall f :: f in Contribution(d) <==> Contributes(d, f)
  {
  }


  /** The functions `simpleFunctions` yields all exist in the heap. */
  lemma {:induction false} SimpleFunctionsBound(functions: map<Symbol, IrFunctionState>, ds: seq<IrDeclaration>)
    requires AllBound(functions, ds)
    ensures forall f :: f in SimpleFunctionsOf(ds) ==> f in functions
  {
    if ds != [] {
      var init := ds[..|ds| - 1];
      assert AllBound(functions, init) by {
        assert forall i :: 0 <= i < |init| ==> init[i] == ds[i];
      }
      SimpleFunctionsBound(functions, init);
      assert DeclarationBound(functions, ds[|ds| - 1]);
    }
  }

  // ---------------------------------------------------------------------------
  // setSuperSymbols(supers)
  // ---------------------------------------------------------------------------

  /** `superMembers`: the functions by descriptor; for a repeated descriptor the last one wins. */
  function AssociateByDescriptor(functions: map<Symbol, IrFunctionState>, fs: seq<Symbol>): map<DescriptorId, Symbol>
    requires forall k :: 0 <= k < |fs| ==> fs[k] in functions
  {
    if fs == [] then map[]
    else
      var last := fs[|fs| - 1];
      AssociateByDescriptor(functions, fs[..|fs| - 1])[functions[last].descriptor.id := last]
  }

  /**
   * `associateBy` keeps a key for every descriptor of the list, mapped to the
   * last function carrying it.
   */
  lemma AssociateByDescriptorSpec(functions: map<Symbol, IrFunctionState>, fs: seq<Symbol>)
    requires forall k :: 0 <= k < |fs| ==> fs[k] in functions
    ensures forall id :: id in AssociateByDescriptor(functions, fs) <==>
              exists k :: 0 <= k < |fs| && functions[fs[k]].descriptor.id == id
    ensures forall id :: id in AssociateByDescriptor(functions, fs) ==>
              exists k :: 0 <= k < |fs| && fs[k] == AssociateByDescriptor(functions, fs)[id]
                          && functions[fs[k]].descriptor.id == id
                          && forall j :: k < j < |fs| ==> functions[fs[j]].descriptor.id != id
  {
    forall id
      ensures id in AssociateByDescriptor(functions, fs) <==>
                exists k :: 0 <= k < |fs| && functions[fs[k]].descriptor.id == id
      ensures id in AssociateByDescriptor(functions, fs) ==>
                exists k :: 0 <= k < |fs| && fs[k] == AssociateByDescriptor(functions, fs)[id]
                            && functions[fs[k]].descriptor.id == id
                            && forall j :: k < j < |fs| ==> functions[fs[j]].descriptor.id != id
    {
      AssociateByDescriptorKey(functions, fs, id);
    }
  }

  lemma {:induction false} AssociateByDescriptorKey(functions: map<Symbol, IrFunctionState>, fs: seq<Symbol>, id: DescriptorId)
    requires forall k :: 0 <= k < |fs| ==> fs[k] in functions
    ensures id in AssociateByDescriptor(functions, fs) <==>
              exists k :: 0 <= k < |fs| && functions[fs[k]].descriptor.id == id
    ensures id in AssociateByDescriptor(functions, fs) ==>
              exists k :: 0 <= k < |fs| && fs[k] == AssociateByDescriptor(functions, fs)[id]
                          && functions[fs[k]].descriptor.id == id
                          && forall j :: k < j < |fs| ==> functions[fs[j]].descriptor.id != id
  {
    if fs != [] {
      var init, last := fs[..|fs| - 1], fs[|fs| - 1];
      AssociateByDescriptorKey(functions, init, id);
      var m := AssociateByDescriptor(functions, init);
      assert AssociateByDescriptor(functions, fs) == m[functions[last].descriptor.id := last];
      if functions[last].descriptor.id == id {
        assert fs[|fs| - 1] == last;
      } else {
        if id in m {
          var k :| 0 <= k < |init| && init[k] == m[id] && functions[init[k]].descriptor.id == id
                   && forall j :: k < j < |init| ==> functions[init[j]].descriptor.id != id;
          assert fs[k] == init[k];
          forall j | k < j < |fs|
            ensures functions[fs[j]].descriptor.id != id
          {
            if j < |init| {
              assert fs[j] == init[j];
            }
          }
        }
        if exists k :: 0 <= k < |fs| && functions[fs[k]].descriptor.id == id {
          var k :| 0 <= k < |fs| && functions[fs[k]].descriptor.id == id;
          assert init[k] == fs[k];
        }
      }
    }
  }

  /** The result of mapping overridden descriptors to super-member symbols: the symbols found before the first miss, and the miss. */
  datatype Lookup = Lookup(found: seq<Symbol>, missing: Option<DescriptorId>)

  /** `overriddenDescriptors.mapTo(overriddenSymbols) { superMembers[it.original] ?: error(it.original) }`. */
  function LookUpOverridden(superMembers: map<DescriptorId, Symbol>, overridden: seq<CallableDescriptor>): Lookup {
    if overridden == [] then Lookup([], None)
    else if overridden[0].original !in superMembers then Lookup([], Some(overridden[0].original))
    else
      var rest := LookUpOverridden(superMembers, overridden[1..]);
      Lookup([superMembers[overridden[0].original]] + rest.found, rest.missing)
  }

  /**
   * The lookup fails exactly when some original is not a super member; the
   * symbols found are those of the originals in order, up to the first one
   * missing, which is the one reported.
   */
  lemma {:induction false} LookUpOverriddenSpec(superMembers: map<DescriptorId, Symbol>, overridden: seq<CallableDescriptor>)
    ensures var r := LookUpOverridden(superMembers, overridden);
            && (r.missing.None? <==> forall k :: 0 <= k < |overridden| ==> overridden[k].original in superMembers)
            && (r.missing.None? ==> |r.found| == |overridden|)
            && (r.missing.Some? ==> |r.found| < |overridden| && r.missing.value == overridden[|r.found|].original
                                    && overridden[|r.found|].original !in superMembers)
            && forall k :: 0 <= k < |r.found| ==>
                 overridden[k].original in superMembers && r.found[k] == superMembers[overridden[k].original]
  {
    if overridden != [] && overridden[0].original in superMembers {
      LookUpOverriddenSpec(superMembers, overridden[1..]);
      assert forall k :: 1 <= k < |overridden| ==> overridden[1..][k - 1] == overridden[k];
    }
  }

  /** The functions after filling the overridden symbols of `fs` in order, and the error that stopped it. */
  datatype Filled = Filled(functions: map<Symbol, IrFunctionState>, error: Option<IrError>)

  /**
   * One step of the `forEach` over `simpleFunctions` of `setSuperSymbols`:
   * the function's overridden symbols must be empty; they become the symbols
   * found for its overridden descriptors, up to the first original that is
   * not a super member, which is reported.
   */
  function FillFunction(functions: map<Symbol, IrFunctionState>, f: Symbol, superMembers: map<DescriptorId, Symbol>)
    : (r: Filled)
    requires f in functions
    ensures r.functions.Keys == functions.Keys
    ensures forall g :: g in functions && g != f ==> r.functions[g] == functions[g]
    ensures r.functions[f] == functions[f].(overriddenSymbols := r.functions[f].overriddenSymbols)
  {
    if functions[f].overriddenSymbols != [] then Filled(functions, Some(OverriddenSymbolsNotEmpty(f)))
    else
      var lookup := LookUpOverridden(superMembers, functions[f].descriptor.overriddenDescriptors);
      var updated := functions[f := functions[f].(overriddenSymbols := lookup.found)];
      Filled(updated, if lookup.missing.Some? then Some(MissingSuperMember(lookup.missing.value)) else None)
  }

  /** The `forEach` over `simpleFunctions` of `setSuperSymbols`, stopping at the first error. */
  function FillOverrides(functions: map<Symbol, IrFunctionState>, fs: seq<Symbol>, superMembers: map<DescriptorId, Symbol>)
    : (r: Filled)
    requires forall k :: 0 <= k < |fs| ==> fs[k] in functions
    ensures r.functions.Keys == functions.Keys
    ensures forall f :: f in functions ==>
              r.functions[f] == functions[f].(overriddenSymbols := r.functions[f].overriddenSymbols)
    decreases |fs|
  {
    if fs == [] then Filled(functions, None)
    else
      var step := FillFunction(functions, fs[0], superMembers);
      if step.error.Some? then step
      else FillOverrides(step.functions, fs[1..], superMembers)
  }

  /**
   * When the fill succeeds, every function of the list holds exactly the
   * symbols found for its overridden descriptors, every lookup hit, and the
   * functions outside the list are untouched.
   */
  lemma {:induction false} FillOverridesOnSuccess(functions: map<Symbol, IrFunctionState>, fs: seq<Symbol>,
                                                  superMembers: map<DescriptorId, Symbol>)
    requires forall k :: 0 <= k < |fs| ==> fs[k] in functions
    ensures var r := FillOverrides(functions, fs, superMembers);
            r.error.None? ==>
              forall k :: 0 <= k < |fs| ==>
                var lookup := LookUpOverridden(superMembers, functions[fs[k]].descriptor.overriddenDescriptors);
                lookup.missing.None? && r.functions[fs[k]].overriddenSymbols == lookup.found
    ensures forall f :: f in functions && f !in fs ==> FillOverrides(functions, fs, superMembers).functions[f] == functions[f]
    decreases |fs|
  {
    if fs != [] {
      var f := fs[0];
      var step := FillFunction(functions, f, superMembers);
      var rest := fs[1..];
      if step.error.None? {
        assert forall k :: 0 <= k < |rest| ==> rest[k] == fs[k + 1];
        FillOverridesOnSuccess(step.functions, rest, superMembers);
        var r := FillOverrides(functions, fs, superMembers);
        assert r == FillOverrides(step.functions, rest, superMembers);
        if r.error.None? {
          forall k | 0 <= k < |fs|
            ensures var lookup := LookUpOverridden(superMembers, functions[fs[k]].descriptor.overriddenDescriptors);
                    lookup.missing.None? && r.functions[fs[k]].overriddenSymbols == lookup.found
          {
            if fs[k] in rest {
              var i :| 0 <= i < |rest| && rest[i] == fs[k];
              assert step.functions[rest[i]].descriptor == functions[fs[k]].descriptor;
            }
          }
        }
      }
    }
  }

  /**
   * The fill of one simple function can go through: its overridden symbols
   * are still empty and every original it overrides is a super member.
   */
  predicate Fillable(functions: map<Symbol, IrFunctionState>, f: Symbol, superMembers: map<DescriptorId, Symbol>)
    requires f in functions
  {
    && functions[f].overriddenSymbols == []
    && forall d :: d in functions[f].descriptor.overriddenDescriptors ==> d.original in superMembers
  }

  /** Filling one function succeeds exactly when it can be filled. */
  lemma FillFunctionSucceedsIff(functions: map<Symbol, IrFunctionState>, f: Symbol, superMembers: map<DescriptorId, Symbol>)
    requires f in functions
    ensures FillFunction(functions, f, superMembers).error.None? <==> Fillable(functions, f, superMembers)
  {
    var ov := functions[f].descriptor.overriddenDescriptors;
    LookUpOverriddenSpec(superMembers, ov);
    assert (forall d :: d in ov ==> d.original in superMembers) <==>
           (forall k :: 0 <= k < |ov| ==> ov[k].original in superMembers);
  }

  /**
   * For a list without repetitions, the fill succeeds exactly when every
   * function of the list can be filled.
   */
  lemma {:induction false} FillOverridesSucceedsIff(functions: map<Symbol, IrFunctionState>, fs: seq<Symbol>,
                                                    superMembers: map<DescriptorId, Symbol>)
    requires forall k :: 0 <= k < |fs| ==> fs[k] in functions
    requires forall i, j :: 0 <= i < j < |fs| ==> fs[i] != fs[j]
    ensures FillOverrides(functions, fs, superMembers).error.None? <==>
              forall k :: 0 <= k < |fs| ==> Fillable(functions, fs[k], superMembers)
    decreases |fs|
  {
    if fs != [] {
      var f := fs[0];
      var step := FillFunction(functions, f, superMembers);
      FillFunctionSucceedsIff(functions, f, superMembers);
      if step.error.None? {
        var rest := fs[1..];
        assert forall k :: 0 <= k < |rest| ==> rest[k] == fs[k + 1];
        FillOverridesSucceedsIff(step.functions, rest, superMembers);
        forall k | 0 <= k < |rest|
          ensures Fillable(step.functions, rest[k], superMembers) == Fillable(functions, rest[k], superMembers)
        {
          assert rest[k] != f;
        }
        assert forall k :: 0 < k < |fs| ==> fs[k] == rest[k - 1];
      }
    }
  }

  /** The descriptor set of the class's supertypes, `superDescriptors().toSet()`. */
  function SuperDescriptorSet(s: IrState, self: Symbol): set<DescriptorId>
    requires self in s.classes
  {
    set d | d in s.classes[self].descriptor.supertypes
  }

  /** `supers.map { it.descriptor }.toSet()`. */
  function SupersDescriptorSet(s: IrState, supers: seq<Symbol>): set<DescriptorId>
    requires forall c :: c in supers ==> c in s.classes
  {
    set c | c in supers :: s.classes[c].descriptor.id
  }

  lemma WellformedKeepsDeclarations(s: IrState, t: IrState)
    requires Wellformed(s)
    requires t.classes.Keys == s.classes.Keys && t.functions.Keys == s.functions.Keys && t.nextSymbol == s.nextSymbol
    requires forall c :: c in s.classes ==> t.classes[c].declarations == s.classes[c].declarations
    ensures Wellformed(t)
  {
    forall c | c in t.classes
      ensures AllBound(t.functions, t.classes[c].declarations)
    {
      assert AllBound(s.functions, s.classes[c].declarations);
    }
  }

  /** `supers.flatMap { it.simpleFunctions() }`. */
  function SuperMemberFunctions(s: IrState, supers: seq<Symbol>): (r: seq<Symbol>)
    requires Wellformed(s)
    requires forall c :: c in supers ==> c in s.classes
    ensures forall k :: 0 <= k < |r| ==> r[k] in s.functions
  {
    if supers == [] then []
    else
      var last := supers[|supers| - 1];
      SimpleFunctionsBound(s.functions, s.classes[last].declarations);
      SuperMemberFunctions(s, supers[..|supers| - 1]) + SimpleFunctionsOf(s.classes[last].declarations)
  }

  /**
   * `setSuperSymbols(supers)`: the supertypes must agree with `supers` and
   * `superClasses` must be empty; then `superClasses` becomes `supers` and
   * the overridden symbols of every simple function are filled from the
   * supers' members.
   */
  function SetSuperSymbols(s: IrState, self: Symbol, supers: seq<Symbol>): (r: Step)
    requires Wellformed(s) && self in s.classes
    requires forall c :: c in supers ==> c in s.classes
    ensures Wellformed(r.state)
    ensures r.state.classes.Keys == s.classes.Keys && r.state.functions.Keys == s.functions.Keys
    ensures r.state.parents == s.parents && r.state.nextSymbol == s.nextSymbol && r.state.typeParameters == s.typeParameters
    ensures forall c :: c in s.classes ==> r.state.classes[c].declarations == s.classes[c].declarations
                                            && r.state.classes[c].descriptor == s.classes[c].descriptor
    ensures forall f :: f in s.functions ==>
              r.state.functions[f] == s.functions[f].(overriddenSymbols := r.state.functions[f].overriddenSymbols)
  {
    if SuperDescriptorSet(s, self) != SupersDescriptorSet(s, supers) then Step(s, Fail(SupertypesMismatch))
    else if s.classes[self].superClasses != [] then Step(s, Fail(SuperClassesNotEmpty))
    else SetSupersAndFill(s, self, supers)
  }

  /** `setSuperSymbols(supers)` past its two checks: set `superClasses`, then fill the overridden symbols. */
  function SetSupersAndFill(s: IrState, self: Symbol, supers: seq<Symbol>): (r: Step)
    requires Wellformed(s) && self in s.classes
    requires forall c :: c in supers ==> c in s.classes
    ensures Wellformed(r.state)
    ensures r.state.classes.Keys == s.classes.Keys && r.state.functions.Keys == s.functions.Keys
    ensures r.state.parents == s.parents && r.state.nextSymbol == s.nextSymbol && r.state.typeParameters == s.typeParameters
    ensures forall c :: c in s.classes ==> r.state.classes[c].declarations == s.classes[c].declarations
                                            && r.state.classes[c].descriptor == s.classes[c].descriptor
    ensures forall f :: f in s.functions ==>
              r.state.functions[f] == s.functions[f].(overriddenSymbols := r.state.functions[f].overriddenSymbols)
  {
    var classes := s.classes[self := s.classes[self].(superClasses := supers)];
    var superMembers := AssociateByDescriptor(s.functions, SuperMemberFunctions(s, supers));
    SimpleFunctionsBound(s.functions, s.classes[self].declarations);
    var filled := FillOverrides(s.functions, SimpleFunctionsOf(s.classes[self].declarations), superMembers);
    var r := s.(classes := classes, functions := filled.functions);
    SetSupersKeepsDeclarations(s, self, supers, filled.functions);
    Step(r, if filled.error.Some? then Fail(filled.error.value) else Pass)
  }

  /** Setting `superClasses` of one class and replacing the functions by ones with the same keys keeps every declaration. */
  lemma SetSupersKeepsDeclarations(s: IrState, self: Symbol, supers: seq<Symbol>, functions: map<Symbol, IrFunctionState>)
    requires Wellformed(s) && self in s.classes
    requires functions.Keys == s.functions.Keys
    ensures var t := s.(classes := s.classes[self := s.classes[self].(superClasses := supers)], functions := functions);
            && Wellformed(t)
            && t.classes.Keys == s.classes.Keys
            && forall c :: c in s.classes ==>
                 t.classes[c].declarations == s.classes[c].declarations && t.classes[c].descriptor == s.classes[c].descriptor
  {
    var t := s.(classes := s.classes[self := s.classes[self].(superClasses := supers)], functions := functions);
    WellformedKeepsDeclarations(s, t);
  }

  /** `setSuperSymbols(supers)` past its two checks: set the supers, then fill the overrides. */
  lemma SetSuperSymbolsUnfold(s: IrState, self: Symbol, supers: seq<Symbol>)
    requires Wellformed(s) && self in s.classes
    requires forall c :: c in supers ==> c in s.classes
    requires SuperDescriptorSet(s, self) == SupersDescriptorSet(s, supers) && s.classes[self].superClasses == []
    ensures forall k :: 0 <= k < |SimpleFunctionsOf(s.classes[self].declarations)| ==>
              SimpleFunctionsOf(s.classes[self].declarations)[k] in s.functions
    ensures var filled := FillOverrides(s.functions, SimpleFunctionsOf(s.classes[self].declarations),
                                        AssociateByDescriptor(s.functions, SuperMemberFunctions(s, supers)));
            SetSuperSymbols(s, self, supers)
            == Step(s.(classes := s.classes[self := s.classes[self].(superClasses := supers)], functions := filled.functions),
                    if filled.error.Some? then Fail(filled.error.value) else Pass)
  {
    SimpleFunctionsBound(s.functions, s.classes[self].declarations);
  }

  lemma {:induction false} SuperMemberFunctionsSpec(s: IrState, supers: seq<Symbol>)
    requires Wellformed(s)
    requires forall c :: c in supers ==> c in s.classes
    ensures forall m :: m in SuperMemberFunctions(s, supers) <==>
              exists c :: c in supers && m in SimpleFunctionsOf(s.classes[c].declarations)
  {
    if supers != [] {
      var init := supers[..|supers| - 1];
      SuperMemberFunctionsSpec(s, init);
      assert supers == init + [supers[|supers| - 1]];
    }
  }

  /**
   * Every simple function of class `self` in `s` holds, in `t`, one
   * overridden symbol per overridden descriptor, and overridden symbol k is
   * a simple function of one of the supers whose descriptor is the original
   * of overridden descriptor k.
   */
  ghost predicate OverridesLinked(s: IrState, t: IrState, self: Symbol, supers: seq<Symbol>)
    requires self in s.classes
  {
    forall f :: f in SimpleFunctionsOf(s.classes[self].declarations) ==>
      f in s.functions && f in t.functions &&
      var overridden := s.functions[f].descriptor.overriddenDescriptors;
      && |t.functions[f].overriddenSymbols| == |overridden|
      && forall k :: 0 <= k < |overridden| ==>
           var m := t.functions[f].overriddenSymbols[k];
           && m in s.functions
           && s.functions[m].descriptor.id == overridden[k].original
           && exists c :: c in supers && c in s.classes && m in SimpleFunctionsOf(s.classes[c].declarations)
  }

  /**
   * `setSuperSymbols(supers)` fails on a supertype mismatch or a non-empty
   * `superClasses` without changing anything; when it succeeds,
   * `superClasses` is `supers` and overridden symbol k of every simple
   * function is a simple function of one of the supers whose descriptor is
   * the original of the function's overridden descriptor k.
   */
  lemma SetSuperSymbolsLinks(s: IrState, self: Symbol, supers: seq<Symbol>)
    requires Wellformed(s) && self in s.classes
    requires forall c :: c in supers ==> c in s.classes
    ensures var r := SetSuperSymbols(s, self, supers);
            && (SuperDescriptorSet(s, self) != SupersDescriptorSet(s, supers) ==>
                  r == Step(s, Fail(SupertypesMismatch)))
            && (SuperDescriptorSet(s, self) == SupersDescriptorSet(s, supers) && s.classes[self].superClasses != [] ==>
                  r == Step(s, Fail(SuperClassesNotEmpty)))
    ensures var r := SetSuperSymbols(s, self, supers);
            r.outcome.Pass? ==>
              && SuperDescriptorSet(s, self) == SupersDescriptorSet(s, supers)
              && r.state.classes[self].superClasses == supers
              && OverridesLinked(s, r.state, self, supers)
  {
    var r := SetSuperSymbols(s, self, supers);
    if r.outcome.Pass? {
      var fs := SimpleFunctionsOf(s.classes[self].declarations);
      var superMembers := AssociateByDescriptor(s.functions, SuperMemberFunctions(s, supers));
      SetSuperSymbolsUnfold(s, self, supers);
      FillOverridesOnSuccess(s.functions, fs, superMembers);
      forall f | f in fs
        ensures f in s.functions && f in r.state.functions
        ensures var overridden := s.functions[f].descriptor.overriddenDescriptors;
                && |r.state.functions[f].overriddenSymbols| == |overridden|
                && forall k :: 0 <= k < |overridden| ==>
                     var m := r.state.functions[f].overriddenSymbols[k];
                     && m in s.functions
                     && s.functions[m].descriptor.id == overridden[k].original
                     && exists c :: c in supers && c in s.classes && m in SimpleFunctionsOf(s.classes[c].declarations)
      {
        var i :| 0 <= i < |fs| && fs[i] == f;
        FilledFunctionLinks(s, supers, f, r.state.functions[f].overriddenSymbols);
      }
    }
  }

  /** A symbol found for an original by the super-member map is a super member with that descriptor. */
  lemma SuperMemberLink(s: IrState, supers: seq<Symbol>, id: DescriptorId)
    requires Wellformed(s)
    requires forall c :: c in supers ==> c in s.classes
    requires id in AssociateByDescriptor(s.functions, SuperMemberFunctions(s, supers))
    ensures var m := AssociateByDescriptor(s.functions, SuperMemberFunctions(s, supers))[id];
            && m in s.functions
            && s.functions[m].descriptor.id == id
            && exists c :: c in supers && c in s.classes && m in SimpleFunctionsOf(s.classes[c].declarations)
  {
    var members := SuperMemberFunctions(s, supers);
    AssociateByDescriptorSpec(s.functions, members);
    SuperMemberFunctionsSpec(s, supers);
    var m := AssociateByDescriptor(s.functions, members)[id];
    assert m in members;
  }

  /** The symbols a successful lookup fills in for one function are super members, one per overridden descriptor. */
  lemma FilledFunctionLinks(s: IrState, supers: seq<Symbol>, f: Symbol, found: seq<Symbol>)
    requires Wellformed(s)
    requires forall c :: c in supers ==> c in s.classes
    requires f in s.functions
    requires var lookup := LookUpOverridden(AssociateByDescriptor(s.functions, SuperMemberFunctions(s, supers)),
                                            s.functions[f].descriptor.overriddenDescriptors);
             lookup.missing.None? && found == lookup.found
    ensures var overridden := s.functions[f].descriptor.overriddenDescriptors;
            && |found| == |overridden|
            && forall k :: 0 <= k < |overridden| ==>
                 && found[k] in s.functions
                 && s.functions[found[k]].descriptor.id == overridden[k].original
                 && exists c :: c in supers && c in s.classes && found[k] in SimpleFunctionsOf(s.classes[c].declarations)
  {
    var superMembers := AssociateByDescriptor(s.functions, SuperMemberFunctions(s, supers));
    var overridden := s.functions[f].descriptor.overriddenDescriptors;
    LookUpOverriddenSpec(superMembers, overridden);
    forall k | 0 <= k < |overridden|
      ensures && found[k] in s.functions
              && s.functions[found[k]].descriptor.id == overridden[k].original
              && exists c :: c in supers && c in s.classes && found[k] in SimpleFunctionsOf(s.classes[c].declarations)
    {
      SuperMemberLink(s, supers, overridden[k].original);
    }
  }

  // ---------------------------------------------------------------------------
  // createFakeOverride
  // ---------------------------------------------------------------------------

  /** A function created for a fake override: the descriptor, the fake-override origin, nothing filled yet. */
  function FakeOverrideFunction(d: CallableDescriptor): IrFunctionState {
    IrFunctionState(d, FakeOverride, None, [], [])
  }

  /** The state after creating a declaration, and the declaration. */
  datatype Created = Created(state: IrState, declaration: IrDeclaration)

  /** The state after `createFunction` of an accessor, if there is one, and the accessor's symbol. */
  datatype CreatedAccessor = CreatedAccessor(state: IrState, symbol: Option<Symbol>)

  function CreateAccessor(s: IrState, accessor: Option<CallableDescriptor>): (r: CreatedAccessor)
    requires Wellformed(s)
    ensures r.state.classes == s.classes && r.state.parents == s.parents && r.state.typeParameters == s.typeParameters
    ensures s.nextSymbol <= r.state.nextSymbol && s.functions.Keys <= r.state.functions.Keys
    ensures forall f :: f in s.functions ==> r.state.functions[f] == s.functions[f]
    ensures forall f :: f in r.state.functions && f !in s.functions ==> s.nextSymbol <= f
    ensures Wellformed(r.state)
    ensures r.symbol.Some? <==> accessor.Some?
    ensures r.symbol.Some? ==> r.symbol.value in r.state.functions
                               && r.state.functions[r.symbol.value] == FakeOverrideFunction(accessor.value)
  {
    match accessor
    case None => CreatedAccessor(s, None)
    case Some(d) =>
      var n := s.nextSymbol;
      CreatedAccessor(s.(functions := s.functions[n := FakeOverrideFunction(d)], nextSymbol := n + 1), Some(n))
  }

  /**
   * `decl` is a fake override of `d` in `s`: a simple function for a function
   * descriptor, or a property (with no backing field) for a property
   * descriptor, whose getter and setter exist exactly when the descriptor's
   * do; every function involved has the fake-override origin and the
   * matching descriptor.
   */
  ghost predicate FakeOverrideOf(s: IrState, decl: Element, d: CallableDescriptor) {
    match decl
    case ParentDeclaration(n, kind) =>
      && kind == SimpleFunctionParent && d.kind.FunctionDescriptorKind?
      && n in s.functions && s.functions[n].descriptor == d && s.functions[n].origin == FakeOverride
    case Property(_, descriptor, origin, backingField, getter, setter) =>
      && d.kind.PropertyDescriptorKind? && descriptor == d && origin == FakeOverride && backingField.None?
      && (getter.Some? <==> d.kind.getter.Some?)
      && (getter.Some? ==> getter.value in s.functions && s.functions[getter.value].origin == FakeOverride
                           && s.functions[getter.value].descriptor == d.kind.getter.value)
      && (setter.Some? <==> d.kind.setter.Some?)
      && (setter.Some? ==> setter.value in s.functions && s.functions[setter.value].origin == FakeOverride
                           && s.functions[setter.value].descriptor == d.kind.setter.value)
    case _ => false
  }

  /** `t` keeps every function of `s` as it was, apart from its overridden symbols. */
  ghost predicate KeepsFunctions(s: IrState, t: IrState) {
    forall f :: f in s.functions ==>
      f in t.functions && t.functions[f] == s.functions[f].(overriddenSymbols := t.functions[f].overriddenSymbols)
  }

  lemma FakeOverrideOfSameFunctions(s: IrState, t: IrState, decl: Element, d: CallableDescriptor)
    requires FakeOverrideOf(s, decl, d) && t.functions == s.functions
    ensures FakeOverrideOf(t, decl, d)
  {
  }

  lemma FakeOverrideOfKept(s: IrState, t: IrState, decl: Element, d: CallableDescriptor)
    requires FakeOverrideOf(s, decl, d) && KeepsFunctions(s, t)
    ensures FakeOverrideOf(t, decl, d)
  {
  }

  /**
   * `createFakeOverride`: a fresh fake-override function for a function
   * descriptor; for a property descriptor a fresh property with accessors
   * only for the accessors the descriptor has; any other descriptor fails.
   * Only fresh functions are added.
   */
  function CreateFakeOverride(s: IrState, d: CallableDescriptor): (r: Result<Created, IrError>)
    requires Wellformed(s)
    ensures r.Err? <==> d.kind.OtherCallableKind?
    ensures r.Err? ==> r.error == FakeOverrideNotImplemented(d.id)
    ensures r.Ok? ==>
              && r.value.state.classes == s.classes && r.value.state.parents == s.parents
              && r.value.state.typeParameters == s.typeParameters
              && s.nextSymbol <= r.value.state.nextSymbol
              && s.functions.Keys <= r.value.state.functions.Keys
              && (forall f :: f in s.functions ==> r.value.state.functions[f] == s.functions[f])
              && (forall f :: f in r.value.state.functions && f !in s.functions ==> s.nextSymbol <= f)
              && Wellformed(r.value.state)
              && DeclarationBound(r.value.state.functions, r.value.declaration)
              && FakeOverrideOf(r.value.state, r.value.declaration, d)
  {
    match d.kind
    case FunctionDescriptorKind =>
      var n := s.nextSymbol;
      var t := s.(functions := s.functions[n := FakeOverrideFunction(d)], nextSymbol := n + 1);
      Ok(Created(t, ParentDeclaration(n, SimpleFunctionParent)))
    case PropertyDescriptorKind(getter, setter) =>
      var p := s.nextSymbol;
      var withGetter := CreateAccessor(s.(nextSymbol := p + 1), getter);
      var withSetter := CreateAccessor(withGetter.state, setter);
      Ok(Created(withSetter.state, Property(p, d, FakeOverride, None, withGetter.symbol, withSetter.symbol)))
    case OtherCallableKind => Err(FakeOverrideNotImplemented(d.id))
  }

  // ---------------------------------------------------------------------------
  // The overriding strategy
  // ---------------------------------------------------------------------------

  /** A callback made on the overriding strategy by the override generator. */
  datatype StrategyCall =
    | AddFakeOverrideCall(fakeOverride: CallableDescriptor)
    | InheritanceConflictCall(first: CallableDescriptor, second: CallableDescriptor)
    | OverrideConflictCall(fromSuper: CallableDescriptor, fromCurrent: CallableDescriptor)

  /**
   * The override generator for one name group: given the name, the members
   * from the supertypes and the class descriptor, the callbacks it makes, in
   * order.
   */
  type OverrideGenerator = (string, seq<CallableDescriptor>, ClassDescriptor) -> seq<StrategyCall>

  /** What a call makes the strategy report, if the call does not go through. */
  function CallError(call: StrategyCall): IrError {
    match call
    case AddFakeOverrideCall(d) => FakeOverrideNotImplemented(d.id)
    case InheritanceConflictCall(first, second) => InheritanceConflict(first.id, second.id)
    case OverrideConflictCall(fromSuper, fromCurrent) => OverrideConflict(fromSuper.id, fromCurrent.id)
  }

  predicate CallSucceeds(call: StrategyCall) {
    call.AddFakeOverrideCall? && !call.fakeOverride.kind.OtherCallableKind?
  }

  /**
   * The strategy of `setSuperSymbolsAndAddFakeOverrides`: each fake override
   * is created and added with `addChild`; a conflict is an error, which stops
   * the run.
   */
  function ApplyStrategy(s: IrState, self: Symbol, calls: seq<StrategyCall>): (r: Step)
    requires Wellformed(s) && self in s.classes
    ensures Wellformed(r.state)
    ensures r.state.classes.Keys == s.classes.Keys
    ensures r.state.classes[self].descriptor == s.classes[self].descriptor
    ensures r.state.classes[self].superClasses == s.classes[self].superClasses
    ensures forall c :: c in s.classes && c != self ==> r.state.classes[c] == s.classes[c]
    ensures s.functions.Keys <= r.state.functions.Keys
    ensures forall f :: f in s.functions ==> r.state.functions[f] == s.functions[f]
    ensures s.parents.Keys <= r.state.parents.Keys
    ensures forall x :: x in s.parents ==> r.state.parents[x] == s.parents[x] || r.state.parents[x] == self
    ensures r.state.typeParameters == s.typeParameters
    decreases |calls|
  {
    if calls == [] then Step(s, Pass)
    else if !CallSucceeds(calls[0]) then Step(s, Fail(CallError(calls[0])))
    else
      match CreateFakeOverride(s, calls[0].fakeOverride)
      case Err(e) => Step(s, Fail(e))
      case Ok(created) =>
        AddChildAppends(created.state, self, created.declaration);
        ApplyStrategy(AddChild(created.state, self, created.declaration), self, calls[1..])
  }

  /** `decl` was added for `call`: a fake override of the call's descriptor, with the class as parent. */
  ghost predicate AddedFor(r: IrState, self: Symbol, decl: IrDeclaration, call: StrategyCall) {
    && CallSucceeds(call)
    && FakeOverrideOf(r, decl, call.fakeOverride)
    && decl.symbol in r.parents && r.parents[decl.symbol] == self
  }

  /**
   * A run of the strategy from `s` ending in `r`: one fake override appended
   * per call, in call order, after the declarations kept from before; the
   * run reaches the end exactly when every call was taken, and otherwise
   * reports the first call that could not be.
   */
  ghost predicate StrategyRun(s: IrState, r: Step, self: Symbol, calls: seq<StrategyCall>)
    requires self in s.classes && self in r.state.classes
  {
    var before := s.classes[self].declarations;
    var after := r.state.classes[self].declarations;
    && |before| <= |after| <= |before| + |calls|
    && after[..|before|] == before
    && (forall j :: 0 <= j < |after| - |before| ==> AddedFor(r.state, self, after[|before| + j], calls[j]))
    && (r.outcome.Pass? <==> |after| == |before| + |calls|)
    && (r.outcome.Fail? ==> r.outcome.error == CallError(calls[|after| - |before|])
                            && !CallSucceeds(calls[|after| - |before|]))
  }

  lemma StrategyRunStep(s: IrState, s1: IrState, r: Step, self: Symbol, decl: IrDeclaration, calls: seq<StrategyCall>)
    requires self in s.classes && self in s1.classes && self in r.state.classes && calls != []
    requires s1.classes[self].declarations == s.classes[self].declarations + [decl]
    requires AddedFor(r.state, self, decl, calls[0])
    requires StrategyRun(s1, r, self, calls[1..])
    ensures StrategyRun(s, r, self, calls)
  {
    var before := s.classes[self].declarations;
    var before1 := s1.classes[self].declarations;
    var after := r.state.classes[self].declarations;
    assert after[..|before|] == after[..|before1|][..|before|];
    assert after[|before|] == after[..|before1|][|before|];
    forall j | 1 <= j < |after| - |before|
      ensures AddedFor(r.state, self, after[|before| + j], calls[j])
    {
      assert calls[1..][j - 1] == calls[j];
      assert |before1| + (j - 1) == |before| + j;
    }
    if r.outcome.Fail? {
      assert calls[1..][|after| - |before1|] == calls[|after| - |before|];
    }
  }

  /** Every run of the strategy is a `StrategyRun`. */
  lemma {:induction false} ApplyStrategyAppends(s: IrState, self: Symbol, calls: seq<StrategyCall>)
    requires Wellformed(s) && self in s.classes
    ensures StrategyRun(s, ApplyStrategy(s, self, calls), self, calls)
    decreases |calls|
  {
    var r := ApplyStrategy(s, self, calls);
    if calls != [] && CallSucceeds(calls[0]) {
      var created := CreateFakeOverride(s, calls[0].fakeOverride).value;
      var decl := created.declaration;
      AddChildAppends(created.state, self, decl);
      var s1 := AddChild(created.state, self, decl);
      ApplyStrategyAppends(s1, self, calls[1..]);
      var d := calls[0].fakeOverride;
      assert FakeOverrideOf(s1, decl, d) by {
        FakeOverrideOfSameFunctions(created.state, s1, decl, d);
      }
      assert KeepsFunctions(s1, r.state) by {
        forall f | f in s1.functions
          ensures f in r.state.functions && r.state.functions[f] == s1.functions[f].(overriddenSymbols := r.state.functions[f].overriddenSymbols)
        {
          assert r.state.functions[f] == s1.functions[f];
        }
      }
      FakeOverrideOfKept(s1, r.state, decl, d);
      assert r.state.parents[decl.symbol] == self;
      StrategyRunStep(s, s1, r, self, decl, calls);
    } else {
      assert r.state == s;
      assert s.classes[self].declarations[..|s.classes[self].declarations|] == s.classes[self].declarations;
    }
  }

  lemma SliceCons<T>(s: seq<T>, j: nat)
    requires j < |s|
    ensures s[j..] == [s[j]] + s[j + 1..]
  {
  }

  /** Running the strategy over two lists of calls is running it over the first, then, unless it failed, the second. */
  lemma {:induction false} ApplyStrategyConcat(s: IrState, self: Symbol, a: seq<StrategyCall>, b: seq<StrategyCall>)
    requires Wellformed(s) && self in s.classes
    ensures var first := ApplyStrategy(s, self, a);
            ApplyStrategy(s, self, a + b) == if first.outcome.Fail? then first else ApplyStrategy(first.state, self, b)
    decreases |a|
  {
    if a == [] {
      assert a + b == b;
    } else {
      assert (a + b)[0] == a[0];
      assert (a + b)[1..] == a[1..] + b;
      if CallSucceeds(a[0]) {
        var created := CreateFakeOverride(s, a[0].fakeOverride).value;
        AddChildAppends(created.state, self, created.declaration);
        ApplyStrategyConcat(AddChild(created.state, self, created.declaration), self, a[1..], b);
      }
    }
  }

  // ---------------------------------------------------------------------------
  // setSuperSymbolsAndAddFakeOverrides
  // ---------------------------------------------------------------------------

  /** `it.descriptor` of a declaration, when that is a callable member descriptor. */
  function CallableOf(functions: map<Symbol, IrFunctionState>, d: IrDeclaration): Option<CallableDescriptor>
    requires DeclarationBound(functions, d)
  {
    match d
    case ParentDeclaration(symbol, kind) => if kind == ClassParent then None else Some(functions[symbol].descriptor)
    case Property(_, descriptor, _, _, _, _) => Some(descriptor)
    case OtherDeclaration(_, callable, _) => callable
  }

  /** `overriddenDescriptors.map { it.original }`. */
  function Originals(overridden: seq<CallableDescriptor>): (r: seq<DescriptorId>)
    ensures |r| == |overridden| && forall k :: 0 <= k < |r| ==> r[k] == overridden[k].original
  {
    seq(|overridden|, k requires 0 <= k < |overridden| => overridden[k].original)
  }

  /** `overriddenSuperMembers`: the originals overridden by the class's own callable declarations. */
  function OverriddenSuperMembers(functions: map<Symbol, IrFunctionState>, ds: seq<IrDeclaration>): seq<DescriptorId>
    requires AllBound(functions, ds)
  {
    if ds == [] then []
    else
      var last := ds[|ds| - 1];
      var callable := CallableOf(functions, last);
      OverriddenSuperMembers(functions, ds[..|ds| - 1])
      + (if callable.Some? then Originals(callable.value.overriddenDescriptors) else [])
  }

  /** The descriptor a declaration contributes to the candidates: that of a simple function or a property. */
  function MemberDescriptor(functions: map<Symbol, IrFunctionState>, d: IrDeclaration): Option<CallableDescriptor>
    requires DeclarationBound(functions, d)
  {
    match d
    case ParentDeclaration(symbol, kind) => if kind == SimpleFunctionParent then Some(functions[symbol].descriptor) else None
    case Property(_, descriptor, _, _, _, _) => Some(descriptor)
    case _ => None
  }

  function OptionSeq<T>(o: Option<T>): seq<T> {
    if o.Some? then [o.value] else []
  }

  /** The descriptors of a class's simple functions and properties, in declaration order. */
  function MemberDescriptors(functions: map<Symbol, IrFunctionState>, ds: seq<IrDeclaration>): seq<CallableDescriptor>
    requires AllBound(functions, ds)
  {
    if ds == [] then []
    else MemberDescriptors(functions, ds[..|ds| - 1]) + OptionSeq(MemberDescriptor(functions, ds[|ds| - 1]))
  }

  lemma {:induction false} MemberDescriptorsSpec(functions: map<Symbol, IrFunctionState>, ds: seq<IrDeclaration>)
    requires AllBound(functions, ds)
    ensures forall x :: x in MemberDescriptors(functions, ds) <==>
              exists i :: 0 <= i < |ds| && MemberDescriptor(functions, ds[i]) == Some(x)
  {
    if ds != [] {
      var init := ds[..|ds| - 1];
      MemberDescriptorsSpec(functions, init);
      forall x ensures x in MemberDescriptors(functions, ds) <==>
                       exists i :: 0 <= i < |ds| && MemberDescriptor(functions, ds[i]) == Some(x)
      {
        if x in MemberDescriptors(functions, ds) && x !in MemberDescriptors(functions, init) {
          assert MemberDescriptor(functions, ds[|ds| - 1]) == Some(x);
        }
        if exists i :: 0 <= i < |ds| && MemberDescriptor(functions, ds[i]) == Some(x) {
          var i :| 0 <= i < |ds| && MemberDescriptor(functions, ds[i]) == Some(x);
          if i < |ds| - 1 {
            assert init[i] == ds[i];
          }
        }
      }
    }
  }

  /** The members of all supers, super by super. */
  function SuperMemberDescriptors(s: IrState, supers: seq<Symbol>): seq<CallableDescriptor>
    requires Wellformed(s)
    requires forall c :: c in supers ==> c in s.classes
  {
    if supers == [] then []
    else
      var last := supers[|supers| - 1];
      SuperMemberDescriptors(s, supers[..|supers| - 1]) + MemberDescriptors(s.functions, s.classes[last].declarations)
  }

  /** The candidates of the supers are the member descriptors of their declarations. */
  lemma {:induction false} SuperMemberDescriptorsSpec(s: IrState, supers: seq<Symbol>)
    requires Wellformed(s)
    requires forall c :: c in supers ==> c in s.classes
    ensures forall x :: x in SuperMemberDescriptors(s, supers) <==>
              exists c, i :: c in supers && 0 <= i < |s.classes[c].declarations|
                             && MemberDescriptor(s.functions, s.classes[c].declarations[i]) == Some(x)
  {
    if supers != [] {
      var init := supers[..|supers| - 1];
      var last := supers[|supers| - 1];
      assert supers == init + [last];
      SuperMemberDescriptorsSpec(s, init);
      MemberDescriptorsSpec(s.functions, s.classes[last].declarations);
    }
  }

  /** The originals the class's own callable declarations override. */
  lemma {:induction false} OverriddenSuperMembersSpec(functions: map<Symbol, IrFunctionState>, ds: seq<IrDeclaration>)
    requires AllBound(functions, ds)
    ensures forall o :: o in OverriddenSuperMembers(functions, ds) <==>
              exists i, k :: 0 <= i < |ds| && CallableOf(functions, ds[i]).Some?
                             && 0 <= k < |CallableOf(functions, ds[i]).value.overriddenDescriptors|
                             && CallableOf(functions, ds[i]).value.overriddenDescriptors[k].original == o
  {
    if ds != [] {
      var init := ds[..|ds| - 1];
      var last := ds[|ds| - 1];
      OverriddenSuperMembersSpec(functions, init);
      forall o ensures o in OverriddenSuperMembers(functions, ds) <==>
                       exists i, k :: 0 <= i < |ds| && CallableOf(functions, ds[i]).Some?
                                      && 0 <= k < |CallableOf(functions, ds[i]).value.overriddenDescriptors|
                                      && CallableOf(functions, ds[i]).value.overriddenDescriptors[k].original == o
      {
        if o in OverriddenSuperMembers(functions, ds) && o !in OverriddenSuperMembers(functions, init) {
          var ov := CallableOf(functions, last).value.overriddenDescriptors;
          var k :| 0 <= k < |Originals(ov)| && Originals(ov)[k] == o;
          assert ds[|ds| - 1] == last;
        }
        if exists i, k :: 0 <= i < |ds| && CallableOf(functions, ds[i]).Some?
                          && 0 <= k < |CallableOf(functions, ds[i]).value.overriddenDescriptors|
                          && CallableOf(functions, ds[i]).value.overriddenDescriptors[k].original == o {
          var i, k :| 0 <= i < |ds| && CallableOf(functions, ds[i]).Some?
                      && 0 <= k < |CallableOf(functions, ds[i]).value.overriddenDescriptors|
                      && CallableOf(functions, ds[i]).value.overriddenDescriptors[k].original == o;
          if i < |ds| - 1 {
            assert init[i] == ds[i];
          } else {
            assert Originals(CallableOf(functions, last).value.overriddenDescriptors)[k] == o;
          }
        }
      }
    }
  }

  /** `candidates - overridden`: every candidate whose identity is not overridden, in order. */
  function Unoverridden(candidates: seq<CallableDescriptor>, overridden: seq<DescriptorId>): seq<CallableDescriptor> {
    if candidates == [] then []
    else
      var last := candidates[|candidates| - 1];
      Unoverridden(candidates[..|candidates| - 1], overridden) + (if last.id in overridden then [] else [last])
  }

  /** List subtraction removes exactly the overridden candidates, every occurrence of them (the order is kept: `UnoverriddenConcat`). */
  lemma {:induction false} UnoverriddenSpec(candidates: seq<CallableDescriptor>, overridden: seq<DescriptorId>)
    ensures forall d :: d in Unoverridden(candidates, overridden) <==> d in candidates && d.id !in overridden
    ensures |Unoverridden(candidates, overridden)| <= |candidates|
  {
    if candidates != [] {
      var init := candidates[..|candidates| - 1];
      UnoverriddenSpec(init, overridden);
      assert candidates == init + [candidates[|candidates| - 1]];
    }
  }

  lemma UnoverriddenSnoc(candidates: seq<CallableDescriptor>, d: CallableDescriptor, overridden: seq<DescriptorId>)
    ensures Unoverridden(candidates + [d], overridden)
            == Unoverridden(candidates, overridden) + (if d.id in overridden then [] else [d])
  {
    assert (candidates + [d])[..|candidates|] == candidates;
  }

  /** List subtraction keeps the order: it distributes over concatenation. */
  lemma {:induction false} UnoverriddenConcat(a: seq<CallableDescriptor>, b: seq<CallableDescriptor>, overridden: seq<DescriptorId>)
    ensures Unoverridden(a + b, overridden) == Unoverridden(a, overridden) + Unoverridden(b, overridden)
    decreases |b|
  {
    if b == [] {
      assert a + b == a;
    } else {
      var init, last := b[..|b| - 1], b[|b| - 1];
      SliceSnoc(b);
      UnoverriddenConcat(a, init, overridden);
      AppendAssoc(a, init, [last]);
      UnoverriddenSnoc(a + init, last, overridden);
      UnoverriddenSnoc(init, last, overridden);
      AppendAssoc(Unoverridden(a, overridden), Unoverridden(init, overridden),
                  if last.id in overridden then [] else [last]);
    }
  }

  /** The inherited members that still need an override decision. */
  function Candidates(s: IrState, self: Symbol, supers: seq<Symbol>): seq<CallableDescriptor>
    requires Wellformed(s) && self in s.classes
    requires forall c :: c in supers ==> c in s.classes
  {
    Unoverridden(SuperMemberDescriptors(s, supers), OverriddenSuperMembers(s.functions, s.classes[self].declarations))
  }

  /**
   * The unoverridden super members: a descriptor is a candidate exactly when
   * it is the descriptor of a simple function or property of one of the
   * supers and no callable declaration of the class overrides it.
   */
  lemma CandidatesSpec(s: IrState, self: Symbol, supers: seq<Symbol>)
    requires Wellformed(s) && self in s.classes
    requires forall c :: c in supers ==> c in s.classes
    ensures forall x :: x in Candidates(s, self, supers) <==>
              && (exists c, i :: c in supers && 0 <= i < |s.classes[c].declarations|
                                 && MemberDescriptor(s.functions, s.classes[c].declarations[i]) == Some(x))
              && x.id !in OverriddenSuperMembers(s.functions, s.classes[self].declarations)
  {
    SuperMemberDescriptorsSpec(s, supers);
    UnoverriddenSpec(SuperMemberDescriptors(s, supers), OverriddenSuperMembers(s.functions, s.classes[self].declarations));
  }

  /** One entry of `groupBy { it.name }`. */
  datatype NameGroup = NameGroup(name: string, members: seq<CallableDescriptor>)

  /** `groupBy { it.name }`: groups in order of first appearance, members in list order. */
  function GroupByName(ds: seq<CallableDescriptor>): seq<NameGroup> {
    if ds == [] then [] else AddToGroup(GroupByName(ds[..|ds| - 1]), ds[|ds| - 1])
  }

  function AddToGroup(groups: seq<NameGroup>, d: CallableDescriptor): seq<NameGroup>
    decreases |groups|
  {
    if groups == [] then [NameGroup(d.name, [d])]
    else if groups[0].name == d.name then [groups[0].(members := groups[0].members + [d])] + groups[1..]
    else [groups[0]] + AddToGroup(groups[1..], d)
  }

  function Names(groups: seq<NameGroup>): (r: seq<string>)
    ensures |r| == |groups| && forall k :: 0 <= k < |r| ==> r[k] == groups[k].name
  {
    seq(|groups|, k requires 0 <= k < |groups| => groups[k].name)
  }

  lemma NamesCons(groups: seq<NameGroup>)
    requires groups != []
    ensures Names(groups) == [groups[0].name] + Names(groups[1..])
  {
    assert Names(groups)[1..] == Names(groups[1..]);
  }

  /** The members of `ds` with the given name, in order. */
  function WithName(ds: seq<CallableDescriptor>, name: string): seq<CallableDescriptor> {
    if ds == [] then []
    else WithName(ds[..|ds| - 1], name) + (if ds[|ds| - 1].name == name then [ds[|ds| - 1]] else [])
  }

  /** The names of `ds`, each once, in order of first appearance. */
  function FirstAppearances(ds: seq<CallableDescriptor>): seq<string> {
    if ds == [] then []
    else
      var init := FirstAppearances(ds[..|ds| - 1]);
      if ds[|ds| - 1].name in init then init else init + [ds[|ds| - 1].name]
  }

  lemma {:induction false} FirstAppearancesSpec(ds: seq<CallableDescriptor>)
    ensures forall n :: n in FirstAppearances(ds) <==> WithName(ds, n) != []
    ensures forall i, j :: 0 <= i < j < |FirstAppearances(ds)| ==> FirstAppearances(ds)[i] != FirstAppearances(ds)[j]
  {
    if ds != [] {
      FirstAppearancesSpec(ds[..|ds| - 1]);
    }
  }

  lemma {:induction false} AddToGroupNames(groups: seq<NameGroup>, d: CallableDescriptor)
    ensures Names(AddToGroup(groups, d)) == if d.name in Names(groups) then Names(groups) else Names(groups) + [d.name]
    decreases |groups|
  {
    if groups == [] {
    } else if groups[0].name == d.name {
      assert Names(groups)[0] == d.name;
      assert Names(AddToGroup(groups, d)) == Names(groups);
    } else {
      var rest := groups[1..];
      AddToGroupNames(rest, d);
      NamesCons(groups);
      NamesCons(AddToGroup(groups, d));
      assert AddToGroup(groups, d)[1..] == AddToGroup(rest, d);
      assert d.name in Names(groups) <==> d.name in Names(rest);
    }
  }

  lemma {:induction false} AddToGroupMembers(groups: seq<NameGroup>, d: CallableDescriptor)
    requires forall i, j :: 0 <= i < j < |groups| ==> groups[i].name != groups[j].name
    ensures |AddToGroup(groups, d)| >= |groups|
    ensures forall k :: 0 <= k < |groups| ==>
              AddToGroup(groups, d)[k].members == groups[k].members + (if groups[k].name == d.name then [d] else [])
    ensures |AddToGroup(groups, d)| > |groups| ==> AddToGroup(groups, d)[|groups|] == NameGroup(d.name, [d])
    decreases |groups|
  {
    if groups != [] && groups[0].name != d.name {
      var rest := groups[1..];
      AddToGroupMembers(rest, d);
      var r := AddToGroup(groups, d);
      assert r == [groups[0]] + AddToGroup(rest, d);
      forall k | 0 <= k < |groups|
        ensures r[k].members == groups[k].members + (if groups[k].name == d.name then [d] else [])
      {
        if k > 0 {
          assert r[k] == AddToGroup(rest, d)[k - 1];
          assert rest[k - 1] == groups[k];
        }
      }
    }
  }

  /** One step of `groupBy`: adding the next member keeps the groups in agreement with the list. */
  lemma GroupByNameStep(groups: seq<NameGroup>, init: seq<CallableDescriptor>, d: CallableDescriptor)
    requires Names(groups) == FirstAppearances(init)
    requires forall n :: n in FirstAppearances(init) <==> WithName(init, n) != []
    requires forall i, j :: 0 <= i < j < |groups| ==> groups[i].name != groups[j].name
    requires forall k :: 0 <= k < |groups| ==> groups[k].members == WithName(init, groups[k].name)
    ensures Names(AddToGroup(groups, d)) == FirstAppearances(init + [d])
    ensures forall k :: 0 <= k < |AddToGroup(groups, d)| ==>
              AddToGroup(groups, d)[k].members == WithName(init + [d], AddToGroup(groups, d)[k].name)
  {
    var ds := init + [d];
    assert ds[..|ds| - 1] == init;
    AddToGroupNames(groups, d);
    assert d.name !in Names(groups) ==> WithName(init, d.name) == [];
    GroupMembersStep(groups, init, d);
  }

  /** The members side of one `groupBy` step, given that a new name has no earlier members. */
  lemma GroupMembersStep(groups: seq<NameGroup>, init: seq<CallableDescriptor>, d: CallableDescriptor)
    requires d.name !in Names(groups) ==> WithName(init, d.name) == []
    requires forall i, j :: 0 <= i < j < |groups| ==> groups[i].name != groups[j].name
    requires forall k :: 0 <= k < |groups| ==> groups[k].members == WithName(init, groups[k].name)
    ensures forall k :: 0 <= k < |AddToGroup(groups, d)| ==>
              AddToGroup(groups, d)[k].members == WithName(init + [d], AddToGroup(groups, d)[k].name)
  {
    AddToGroupNames(groups, d);
    AddToGroupMembers(groups, d);
    var r := AddToGroup(groups, d);
    forall k | 0 <= k < |r|
      ensures r[k].members == WithName(init + [d], r[k].name)
    {
      if k < |groups| {
        assert r[k].name == Names(r)[k] == Names(groups)[k] == groups[k].name;
        GroupMemberStep(init, d, groups[k], r[k]);
      } else {
        assert d.name !in Names(groups);
        assert r[k] == NameGroup(d.name, [d]);
        WithNameSnoc(init, d, d.name);
      }
    }
  }

  /** A group that keeps its name and gains `d` when the name is `d`'s keeps matching the list one member longer. */
  lemma GroupMemberStep(init: seq<CallableDescriptor>, d: CallableDescriptor, before: NameGroup, after: NameGroup)
    requires after.name == before.name
    requires before.members == WithName(init, before.name)
    requires after.members == before.members + (if before.name == d.name then [d] else [])
    ensures after.members == WithName(init + [d], after.name)
  {
    WithNameSnoc(init, d, before.name);
  }

  lemma WithNameSnoc(init: seq<CallableDescriptor>, d: CallableDescriptor, name: string)
    ensures WithName(init + [d], name) == WithName(init, name) + (if d.name == name then [d] else [])
  {
    assert (init + [d])[..|init|] == init;
  }


  /**
   * `groupBy { it.name }` makes one group per name, in order of first
   * appearance, holding exactly the members of that name in list order.
   */
  lemma {:induction false} GroupByNameSpec(ds: seq<CallableDescriptor>)
    ensures Names(GroupByName(ds)) == FirstAppearances(ds)
    ensures forall k :: 0 <= k < |GroupByName(ds)| ==> GroupByName(ds)[k].members == WithName(ds, GroupByName(ds)[k].name)
  {
    if ds != [] {
      var init := ds[..|ds| - 1];
      var d := ds[|ds| - 1];
      assert ds == init + [d];
      GroupByNameSpec(init);
      FirstAppearancesSpec(init);
      var groups := GroupByName(init);
      assert forall i, j :: 0 <= i < j < |groups| ==> groups[i].name != groups[j].name by {
        forall i, j | 0 <= i < j < |groups| ensures groups[i].name != groups[j].name {
          assert groups[i].name == Names(groups)[i] && groups[j].name == Names(groups)[j];
        }
      }
      GroupByNameStep(groups, init, d);
    }
  }

  /** The callbacks the generator makes over all groups, group by group. */
  function AllCalls(groups: seq<NameGroup>, generate: OverrideGenerator, descriptor: ClassDescriptor): seq<StrategyCall> {
    if groups == [] then []
    else generate(groups[0].name, groups[0].members, descriptor) + AllCalls(groups[1..], generate, descriptor)
  }

  /** `forEach` over the name groups: run the generator with the strategy for each, stopping at an error. */
  function ApplyGroups(s: IrState, self: Symbol, groups: seq<NameGroup>, generate: OverrideGenerator): (r: Step)
    requires Wellformed(s) && self in s.classes
    ensures Wellformed(r.state) && r.state.classes.Keys == s.classes.Keys
    ensures r.state.classes[self].descriptor == s.classes[self].descriptor
    decreases |groups|
  {
    if groups == [] then Step(s, Pass)
    else
      var r := ApplyStrategy(s, self, generate(groups[0].name, groups[0].members, s.classes[self].descriptor));
      if r.outcome.Fail? then r else ApplyGroups(r.state, self, groups[1..], generate)
  }

  /** Going group by group is one run of the strategy over all the groups' callbacks. */
  lemma {:induction false} ApplyGroupsIsOneRun(s: IrState, self: Symbol, groups: seq<NameGroup>, generate: OverrideGenerator)
    requires Wellformed(s) && self in s.classes
    ensures ApplyGroups(s, self, groups, generate)
            == ApplyStrategy(s, self, AllCalls(groups, generate, s.classes[self].descriptor))
    decreases |groups|
  {
    if groups != [] {
      var descriptor := s.classes[self].descriptor;
      var first := generate(groups[0].name, groups[0].members, descriptor);
      ApplyStrategyConcat(s, self, first, AllCalls(groups[1..], generate, descriptor));
      var r := ApplyStrategy(s, self, first);
      if r.outcome.Pass? {
        ApplyGroupsIsOneRun(r.state, self, groups[1..], generate);
      }
    }
  }

  /**
   * `setSuperSymbolsAndAddFakeOverrides`: generate the fake overrides for the
   * inherited members not yet overridden, name group by name group, then
   * link the supers.
   */
  function SetSuperSymbolsAndAddFakeOverrides(s: IrState, self: Symbol, supers: seq<Symbol>, generate: OverrideGenerator)
    : (r: Step)
    requires Wellformed(s) && self in s.classes
    requires forall c :: c in supers ==> c in s.classes
    ensures Wellformed(r.state) && r.state.classes.Keys == s.classes.Keys
  {
    var added := ApplyGroups(s, self, GroupByName(Candidates(s, self, supers)), generate);
    if added.outcome.Fail? then added else SetSuperSymbols(added.state, self, supers)
  }

  /** A completed strategy run survives a step that keeps the class's declarations, the parents and the functions. */
  lemma CompletedRunKept(s: IrState, mid: Step, t: IrState, self: Symbol, calls: seq<StrategyCall>)
    requires self in s.classes && self in mid.state.classes && self in t.classes
    requires StrategyRun(s, mid, self, calls) && mid.outcome.Pass?
    requires KeepsFunctions(mid.state, t)
    requires t.classes[self].declarations == mid.state.classes[self].declarations && t.parents == mid.state.parents
    ensures var before := s.classes[self].declarations;
            var after := t.classes[self].declarations;
            && |after| == |before| + |calls|
            && after[..|before|] == before
            && (forall j :: 0 <= j < |calls| ==> AddedFor(t, self, after[|before| + j], calls[j]))
  {
    var before := s.classes[self].declarations;
    var after := t.classes[self].declarations;
    forall j | 0 <= j < |calls|
      ensures AddedFor(t, self, after[|before| + j], calls[j])
    {
      assert AddedFor(mid.state, self, after[|before| + j], calls[j]);
      FakeOverrideOfKept(mid.state, t, after[|before| + j], calls[j].fakeOverride);
    }
  }

  /**
   * When `setSuperSymbolsAndAddFakeOverrides` succeeds, the class keeps its
   * declarations and gains, after them, one fake override per callback of
   * the generator over the name groups of the unoverridden candidates, each
   * with the class as parent; its supers are `supers`, and every simple
   * function of the class, the new fake overrides included, overrides the
   * matching simple functions of the supers.
   */
  lemma SetSuperSymbolsAndAddFakeOverridesSpec(s: IrState, self: Symbol, supers: seq<Symbol>, generate: OverrideGenerator)
    requires Wellformed(s) && self in s.classes
    requires forall c :: c in supers ==> c in s.classes
    ensures var r := SetSuperSymbolsAndAddFakeOverrides(s, self, supers, generate);
            var added := ApplyGroups(s, self, GroupByName(Candidates(s, self, supers)), generate);
            var calls := AllCalls(GroupByName(Candidates(s, self, supers)), generate, s.classes[self].descriptor);
            var before := s.classes[self].declarations;
            var after := r.state.classes[self].declarations;
            r.outcome.Pass? ==>
              && |after| == |before| + |calls|
              && after[..|before|] == before
              && (forall j :: 0 <= j < |calls| ==> AddedFor(r.state, self, after[|before| + j], calls[j]))
              && r.state.classes[self].superClasses == supers
              && OverridesLinked(added.state, r.state, self, supers)
  {
    var groups := GroupByName(Candidates(s, self, supers));
    var calls := AllCalls(groups, generate, s.classes[self].descriptor);
    var added := ApplyGroups(s, self, groups, generate);
    if added.outcome.Pass? {
      ApplyGroupsIsOneRun(s, self, groups, generate);
      ApplyStrategyAppends(s, self, calls);
      SetSuperSymbolsLinks(added.state, self, supers);
      var r := SetSuperSymbols(added.state, self, supers);
      if r.outcome.Pass? {
        CompletedRunKept(s, added, r.state, self, calls);
      }
    }
  }

  /**
   * When a strategy callback of `setSuperSymbolsAndAddFakeOverrides` fails
   * (an inheritance or override conflict, or an unsupported descriptor),
   * that is the outcome: the fake overrides added before it stay, in call
   * order, and the supers are not linked.
   */
  lemma SetSuperSymbolsAndAddFakeOverridesConflict(s: IrState, self: Symbol, supers: seq<Symbol>, generate: OverrideGenerator)
    requires Wellformed(s) && self in s.classes
    requires forall c :: c in supers ==> c in s.classes
    ensures var r := SetSuperSymbolsAndAddFakeOverrides(s, self, supers, generate);
            var added := ApplyGroups(s, self, GroupByName(Candidates(s, self, supers)), generate);
            var calls := AllCalls(GroupByName(Candidates(s, self, supers)), generate, s.classes[self].descriptor);
            added.outcome.Fail? ==> r == added && StrategyRun(s, r, self, calls)
  {
    var groups := GroupByName(Candidates(s, self, supers));
    var added := ApplyGroups(s, self, groups, generate);
    if added.outcome.Fail? {
      ApplyGroupsIsOneRun(s, self, groups, generate);
      ApplyStrategyAppends(s, self, AllCalls(groups, generate, s.classes[self].descriptor));
    }
  }

  /**
   * When every callback is taken, `setSuperSymbols` runs on the result: a
   * supertype mismatch or non-empty `superClasses` fails with nothing
   * changed past the added fake overrides, and any failure keeps the
   * class's declarations, the added fake overrides among them.
   */
  lemma SetSuperSymbolsAndAddFakeOverridesLinkFailure(s: IrState, self: Symbol, supers: seq<Symbol>, generate: OverrideGenerator)
    requires Wellformed(s) && self in s.classes
    requires forall c :: c in supers ==> c in s.classes
    ensures var r := SetSuperSymbolsAndAddFakeOverrides(s, self, supers, generate);
            var added := ApplyGroups(s, self, GroupByName(Candidates(s, self, supers)), generate);
            added.outcome.Pass? ==>
              && (SuperDescriptorSet(added.state, self) != SupersDescriptorSet(added.state, supers) ==>
                    r == Step(added.state, Fail(SupertypesMismatch)))
              && (added.state.classes[self].superClasses != [] ==> r.outcome.Fail? && r.state == added.state)
              && r.state.classes[self].declarations == added.state.classes[self].declarations
  {
    var added := ApplyGroups(s, self, GroupByName(Candidates(s, self, supers)), generate);
    if added.outcome.Pass? {
      SetSuperSymbolsLinks(added.state, self, supers);
      assert SetSuperSymbolsAndAddFakeOverrides(s, self, supers, generate) == SetSuperSymbols(added.state, self, supers);
    }
  }

  // ---------------------------------------------------------------------------
  // IrTypeParameter.setSupers
  // ---------------------------------------------------------------------------

  /**
   * The symbol table's `referenceClassifier`: the classifier symbol it
   * answers for a classifier descriptor.
   */
  type ClassifierTable = DescriptorId -> Symbol

  /**
   * The classifier of one upper bound: none without a declaration
   * descriptor, a fresh type-parameter symbol for a type parameter (the
   * table is not consulted), else the table's symbol.
   */
  function BoundClassifier(bound: UpperBound, table: ClassifierTable): Option<ClassifierSymbol> {
    match bound.declarationDescriptor
    case None => None
    case Some(TypeParameterDescriptor(id)) => Some(TypeParameterSymbol(id))
    case Some(ClassifierDescriptorOther(id)) => Some(ReferencedClassifier(table(id)))
  }

  /** `upperBounds.mapNotNull { … }`. */
  function SuperClassifiers(bounds: seq<UpperBound>, table: ClassifierTable): seq<ClassifierSymbol> {
    if bounds == [] then []
    else SuperClassifiers(bounds[..|bounds| - 1], table) + OptionSeq(BoundClassifier(bounds[|bounds| - 1], table))
  }

  /** `mapNotNull` over one bound gives its classifier, or nothing. */
  lemma SuperClassifiersSingle(bound: UpperBound, table: ClassifierTable)
    ensures SuperClassifiers([bound], table) == OptionSeq(BoundClassifier(bound, table))
  {
    assert [bound][..0] == [];
  }

  /** `mapNotNull` over one more bound appends that bound's classifier, if any. */
  lemma SuperClassifiersSnoc(bounds: seq<UpperBound>, bound: UpperBound, table: ClassifierTable)
    ensures SuperClassifiers(bounds + [bound], table) == SuperClassifiers(bounds, table) + OptionSeq(BoundClassifier(bound, table))
  {
    assert (bounds + [bound])[..|bounds|] == bounds;
  }

  /** `mapNotNull` keeps order: it distributes over concatenation. */
  lemma {:induction false} SuperClassifiersConcat(a: seq<UpperBound>, b: seq<UpperBound>, table: ClassifierTable)
    ensures SuperClassifiers(a + b, table) == SuperClassifiers(a, table) + SuperClassifiers(b, table)
    decreases |b|
  {
    if b == [] {
      assert a + b == a;
    } else {
      var init, last := b[..|b| - 1], b[|b| - 1];
      SliceSnoc(b);
      SuperClassifiersConcat(a, init, table);
      SuperClassifiersConcatStep(a, init, last, table);
    }
  }

  lemma SuperClassifiersConcatStep(a: seq<UpperBound>, init: seq<UpperBound>, last: UpperBound, table: ClassifierTable)
    requires SuperClassifiers(a + init, table) == SuperClassifiers(a, table) + SuperClassifiers(init, table)
    ensures SuperClassifiers(a + (init + [last]), table) == SuperClassifiers(a, table) + SuperClassifiers(init + [last], table)
  {
    AppendAssoc(a, init, [last]);
    SuperClassifiersSnoc(a + init, last, table);
    SuperClassifiersSnoc(init, last, table);
    AppendAssoc(SuperClassifiers(a, table), SuperClassifiers(init, table), OptionSeq(BoundClassifier(last, table)));
  }

  /** Every bound with a declaration descriptor gives a super classifier, and every super classifier comes from a bound. */
  lemma {:induction false} SuperClassifiersMembers(bounds: seq<UpperBound>, table: ClassifierTable)
    ensures |SuperClassifiers(bounds, table)| <= |bounds|
    ensures forall x :: x in SuperClassifiers(bounds, table) <==>
              exists i :: 0 <= i < |bounds| && BoundClassifier(bounds[i], table) == Some(x)
  {
    if bounds != [] {
      var init := bounds[..|bounds| - 1];
      SuperClassifiersMembers(init, table);
      forall x ensures x in SuperClassifiers(bounds, table) <==>
                       exists i :: 0 <= i < |bounds| && BoundClassifier(bounds[i], table) == Some(x)
      {
        if exists i :: 0 <= i < |bounds| && BoundClassifier(bounds[i], table) == Some(x) {
          var i :| 0 <= i < |bounds| && BoundClassifier(bounds[i], table) == Some(x);
          if i < |bounds| - 1 {
            assert init[i] == bounds[i];
          }
        }
      }
    }
  }

  /**
   * `setSupers`: `superClassifiers` must be empty; then it becomes the
   * classifiers of the upper bounds. Nothing else changes.
   */
  function SetSupers(s: IrState, typeParameter: Symbol, table: ClassifierTable): (r: Step)
    requires typeParameter in s.typeParameters
    ensures r.state.classes == s.classes && r.state.functions == s.functions && r.state.parents == s.parents
    ensures r.state.nextSymbol == s.nextSymbol && r.state.typeParameters.Keys == s.typeParameters.Keys
    ensures forall p :: p in s.typeParameters && p != typeParameter ==> r.state.typeParameters[p] == s.typeParameters[p]
  {
    var tp := s.typeParameters[typeParameter];
    if tp.superClassifiers != [] then Step(s, Fail(SuperClassifiersNotEmpty(typeParameter)))
    else
      var updated := tp.(superClassifiers := SuperClassifiers(tp.upperBounds, table));
      Step(s.(typeParameters := s.typeParameters[typeParameter := updated]), Pass)
  }

  /**
   * `setSupers` succeeds exactly when `superClassifiers` was empty, and
   * then the type parameter keeps its bounds and its super classifiers are
   * exactly the classifiers of its bounds; otherwise nothing changes.
   */
  lemma SetSupersSpec(s: IrState, typeParameter: Symbol, table: ClassifierTable)
    requires typeParameter in s.typeParameters
    ensures var r := SetSupers(s, typeParameter, table);
            var bounds := s.typeParameters[typeParameter].upperBounds;
            && (r.outcome.Pass? <==> s.typeParameters[typeParameter].superClassifiers == [])
            && (r.outcome.Fail? ==> r == Step(s, Fail(SuperClassifiersNotEmpty(typeParameter))))
            && (r.outcome.Pass? ==>
                  && r.state.typeParameters[typeParameter].upperBounds == bounds
                  && forall x :: x in r.state.typeParameters[typeParameter].superClassifiers <==>
                       exists i :: 0 <= i < |bounds| && BoundClassifier(bounds[i], table) == Some(x))
  {
    SuperClassifiersMembers(s.typeParameters[typeParameter].upperBounds, table);
  }
}
