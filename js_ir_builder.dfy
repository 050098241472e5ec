/**
 * The node factory of the JS backend (`JsIrBuilder`): synthetic calls,
 * if-then-else expressions, variables and value parameters, all tagged with
 * the synthesized origins.
 */
module JsIrBuilder {
  import opened Wrappers
  import opened IrTree

  /** An IR expression; `OpaqueExpression` is any expression built elsewhere. */
  datatype IrExpression =
    | OpaqueExpression(irType: TypeId, id: nat)
    | BooleanConst(irType: TypeId, value: bool)
    | Call(irType: TypeId, symbol: Symbol, descriptor: CallableDescriptor, typeArgumentsCount: nat,
           typeArguments: seq<Option<TypeId>>, origin: Option<StatementOrigin>)
    | When(irType: TypeId, origin: Option<StatementOrigin>, branches: seq<IrBranch>)

  datatype IrBranch =
    | Branch(condition: IrExpression, result: IrExpression)
    | ElseBranch(condition: IrExpression, result: IrExpression)

  /** A function symbol; `owner` is None while the symbol is unbound. */
  datatype FunctionSymbol = FunctionSymbol(id: Symbol, descriptor: CallableDescriptor, owner: Option<IrFunctionState>)

  /** A variable or value-parameter symbol with the type of its owner, None while unbound. */
  datatype ValueSymbol = ValueSymbol(id: Symbol, ownerType: Option<TypeId>)

  datatype IrVariable = IrVariable(origin: DeclarationOrigin, symbol: Symbol, irType: TypeId, initializer: Option<IrExpression>)

  datatype IrValueParameter = IrValueParameter(origin: DeclarationOrigin, symbol: Symbol, irType: TypeId,
                                               varargElementType: Option<TypeId>)

  /** Why a factory fails: reading the owner of an unbound symbol, an unset return type, a failed `assert`. */
  datatype BuildError =
    | UnboundSymbol(symbol: Symbol)
    | ReturnTypeNotInitialized(symbol: Symbol)
    | TypeArgumentsCountMismatch(expected: nat, actual: nat)

  /** `target.owner.returnType`. */
  function OwnerReturnType(target: FunctionSymbol): (r: Result<TypeId, BuildError>)
    ensures r.Ok? <==> target.owner.Some? && target.owner.value.returnType.Some?
    ensures r.Ok? ==> r.value == target.owner.value.returnType.value
  {
    match target.owner
    case None => Err(UnboundSymbol(target.id))
    case Some(owner) =>
      match owner.returnType
      case None => Err(ReturnTypeNotInitialized(target.id))
      case Some(returnType) => Ok(returnType)
  }

  /** `symbol.owner.type`. */
  function OwnerType(symbol: ValueSymbol): (r: Result<TypeId, BuildError>)
    ensures r.Ok? <==> symbol.ownerType.Some?
  {
    match symbol.ownerType
    case None => Err(UnboundSymbol(symbol.id))
    case Some(t) => Ok(t)
  }

  /** `type ?: ownerType`: an explicit type wins and the owner is not consulted. */
  function TypeOrOwner(irType: Option<TypeId>, ownerType: Result<TypeId, BuildError>): Result<TypeId, BuildError> {
    if irType.Some? then Ok(irType.value) else ownerType
  }

  /**
   * `buildCall`: the call's type is the explicit type or else the target's
   * return type; with type arguments their number must be the descriptor's
   * type-parameter count and argument i fills slot i; without, every slot
   * stays empty.
   */
  method BuildCall(target: FunctionSymbol, irType: Option<TypeId>, typeArguments: Option<seq<TypeId>>)
    returns (r: Result<IrExpression, BuildError>)
    ensures irType.None? ==> (r.Ok? ==> OwnerReturnType(target).Ok?)
    ensures r.Ok? <==>
              (irType.Some? || OwnerReturnType(target).Ok?)
              && (typeArguments.Some? ==> |typeArguments.value| == target.descriptor.typeParametersCount)
    ensures r.Ok? ==>
              && r.value.Call?
              && r.value.irType == (if irType.Some? then irType.value else OwnerReturnType(target).value)
              && r.value.symbol == target.id
              && r.value.descriptor == target.descriptor
              && r.value.typeArgumentsCount == target.descriptor.typeParametersCount
              && r.value.origin == Some(SynthesizedStatement)
              && |r.value.typeArguments| == target.descriptor.typeParametersCount
    ensures r.Ok? && typeArguments.None? ==> forall i :: 0 <= i < |r.value.typeArguments| ==> r.value.typeArguments[i].None?
    ensures r.Ok? && typeArguments.Some? ==>
              forall i :: 0 <= i < |r.value.typeArguments| ==> r.value.typeArguments[i] == Some(typeArguments.value[i])
    ensures irType.None? && OwnerReturnType(target).Err? ==> r == Err(OwnerReturnType(target).error)
    ensures (irType.Some? || OwnerReturnType(target).Ok?) && typeArguments.Some?
            && |typeArguments.value| != target.descriptor.typeParametersCount ==>
              r == Err(TypeArgumentsCountMismatch(target.descriptor.typeParametersCount, |typeArguments.value|))
  {
    var callType := TypeOrOwner(irType, OwnerReturnType(target));
    if callType.Err? {
      return Err(callType.error);
    }
    var count := target.descriptor.typeParametersCount;
    var slots: seq<Option<TypeId>> := seq(count, _ => None);
    if typeArguments.Some? {
      var arguments := typeArguments.value;
      if |arguments| != count {
        return Err(TypeArgumentsCountMismatch(count, |arguments|));
      }
      var i := 0;
      while i < |arguments|
        invariant 0 <= i <= |arguments|
        invariant |slots| == count
        invariant forall j :: 0 <= j < i ==> slots[j] == Some(arguments[j])
        invariant forall j :: i <= j < count ==> slots[j].None?
      {
        slots := slots[i := Some(arguments[i])];
        i := i + 1;
      }
    }
    r := Ok(Call(callType.value, target.id, target.descriptor, count, slots, Some(SynthesizedStatement)));
  }

  /** The branches of an if-then-else: the guarded branch, then an else guarded by `true` of `cond`'s type. */
  function IfElseBranches(cond: IrExpression, thenBranch: IrExpression, elseBranch: Option<IrExpression>): seq<IrBranch> {
    [Branch(cond, thenBranch)] + (if elseBranch.Some? then [ElseBranch(BooleanConst(cond.irType, true), elseBranch.value)] else [])
  }

  /** `buildIfElse`. */
  method BuildIfElse(irType: TypeId, cond: IrExpression, thenBranch: IrExpression, elseBranch: Option<IrExpression>,
                     origin: Option<StatementOrigin>) returns (element: IrExpression)
    ensures element.When? && element.irType == irType && element.origin == origin
    ensures element.branches == IfElseBranches(cond, thenBranch, elseBranch)
    ensures |element.branches| == (if elseBranch.Some? then 2 else 1)
    ensures element.branches[0] == Branch(cond, thenBranch)
    ensures elseBranch.Some? ==> element.branches[1] == ElseBranch(BooleanConst(cond.irType, true), elseBranch.value)
  {
    var branches: seq<IrBranch> := [];
    branches := branches + [Branch(cond, thenBranch)];
    if elseBranch.Some? {
      var irTrue := BooleanConst(cond.irType, true);
      branches := branches + [ElseBranch(irTrue, elseBranch.value)];
    }
    element := When(irType, origin, branches);
  }

  /** `buildIfElse` without offsets: the origin is the synthesized statement. */
  method BuildSynthesizedIfElse(irType: TypeId, cond: IrExpression, thenBranch: IrExpression,
                                elseBranch: Option<IrExpression>) returns (element: IrExpression)
    ensures element == When(irType, Some(SynthesizedStatement), IfElseBranches(cond, thenBranch, elseBranch))
  {
    element := BuildIfElse(irType, cond, thenBranch, elseBranch, Some(SynthesizedStatement));
  }

  /** The value of a branch condition, when every boolean constant means its value. */
  ghost predicate InterpretsConstants(holds: IrExpression -> bool) {
    forall t, b :: holds(BooleanConst(t, b)) == b
  }

  /** The result a `when` evaluates: that of the first branch whose condition holds. */
  function ChosenBranch(branches: seq<IrBranch>, holds: IrExpression -> bool): Option<IrExpression> {
    if branches == [] then None
    else if holds(branches[0].condition) then Some(branches[0].result)
    else ChosenBranch(branches[1..], holds)
  }

  /**
   * The if-then-else built by `buildIfElse` means what it says: the then
   * result when the condition holds, otherwise the else result, or no result
   * when there is no else.
   */
  lemma IfElseChoosesBranch(cond: IrExpression, thenBranch: IrExpression, elseBranch: Option<IrExpression>,
                            holds: IrExpression -> bool)
    requires InterpretsConstants(holds)
    ensures ChosenBranch(IfElseBranches(cond, thenBranch, elseBranch), holds) ==
              if holds(cond) then Some(thenBranch) else elseBranch
  {
    var branches := IfElseBranches(cond, thenBranch, elseBranch);
    if !holds(cond) && elseBranch.Some? {
      assert branches[1..] == [ElseBranch(BooleanConst(cond.irType, true), elseBranch.value)];
      assert holds(BooleanConst(cond.irType, true));
    }
  }

  /** `buildVar`: a synthesized variable of the explicit type or else its symbol's owner's type. */
  method BuildVar(symbol: ValueSymbol, initializer: Option<IrExpression>, irType: Option<TypeId>)
    returns (r: Result<IrVariable, BuildError>)
    ensures r.Ok? <==> irType.Some? || symbol.ownerType.Some?
    ensures r.Ok? ==>
              && r.value.origin == SynthesizedDeclaration
              && r.value.symbol == symbol.id
              && r.value.irType == (if irType.Some? then irType.value else symbol.ownerType.value)
              && r.value.initializer == initializer
    ensures r.Err? ==> r.error == UnboundSymbol(symbol.id)
  {
    var variableType := TypeOrOwner(irType, OwnerType(symbol));
    if variableType.Err? {
      return Err(variableType.error);
    }
    var variable := IrVariable(SynthesizedDeclaration, symbol.id, variableType.value, None);
    variable := variable.(initializer := initializer);
    r := Ok(variable);
  }

  /** `buildValueParameter`: a synthesized parameter of the explicit type or else its owner's, never vararg. */
  function BuildValueParameter(symbol: ValueSymbol, irType: Option<TypeId>): (r: Result<IrValueParameter, BuildError>)
    ensures r.Ok? <==> irType.Some? || symbol.ownerType.Some?
    ensures r.Ok? ==>
              && r.value.origin == SynthesizedDeclaration
              && r.value.symbol == symbol.id
              && r.value.irType == (if irType.Some? then irType.value else symbol.ownerType.value)
              && r.value.varargElementType.None?
    ensures r.Err? ==> r.error == UnboundSymbol(symbol.id)
  {
    match TypeOrOwner(irType, OwnerType(symbol))
    case Err(e) => Err(e)
    case Ok(t) => Ok(IrValueParameter(SynthesizedDeclaration, symbol.id, t, None))
  }
}
