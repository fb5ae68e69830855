/** The first-generation VM (src/vm/mod.rs): a variable store governed by
    two flags, evaluation of literal and identifier expressions, and calls,
    which always fail. Every error of this VM is the unit error `()`. */
module OldVm {
  import opened Wrappers
  import opened OldParser
  import opened OldVariant

  type Vars = map<string, VmVariant>

  // ---------------------------------------------------------------------
  // The variable rules, as functions on the map

  /** `new_variable`: without shadowing an existing name cannot be declared
      again; otherwise the name is bound to the value. */
  function Declare(vars: Vars, allowShadowing: bool, name: string, value: VmVariant): (r: Result<Vars, ()>)
    ensures r.Err? <==> !allowShadowing && name in vars
    ensures r.Ok? ==> name in r.value && r.value[name] == value
    ensures r.Ok? ==> forall n :: n != name ==> (n in r.value <==> n in vars)
    ensures r.Ok? ==> forall n :: n != name && n in vars ==> r.value[n] == vars[n]
  {
    if !allowShadowing && name in vars then Err(()) else Ok(vars[name := value])
  }

  /** `set_variable`: without implicit variables only a bound name can be
      set; the binding is then overwritten. */
  function Assign(vars: Vars, allowImplicit: bool, name: string, value: VmVariant): (r: Result<Vars, ()>)
    ensures r.Err? <==> !allowImplicit && name !in vars
    ensures r.Ok? ==> name in r.value && r.value[name] == value
    ensures r.Ok? ==> forall n :: n != name ==> (n in r.value <==> n in vars)
    ensures r.Ok? ==> forall n :: n != name && n in vars ==> r.value[n] == vars[n]
    ensures r.Ok? && !allowImplicit ==> r.value.Keys == vars.Keys
  {
    if !allowImplicit && name !in vars then Err(()) else Ok(vars[name := value])
  }

  /** `get_variable`. */
  function Lookup(vars: Vars, name: string): (r: Result<VmVariant, ()>)
    ensures r.Ok? <==> name in vars
    ensures r.Ok? ==> r.value == vars[name]
  {
    if name in vars then Ok(vars[name]) else Err(())
  }

  /** `call_func`: no function can be called yet. */
  function CallFunc(name: string, params: seq<VmVariant>): (r: Result<VmVariant, ()>)
    ensures r.Err?
  {
    Err(())
  }

  // ---------------------------------------------------------------------
  // Evaluation, as functions

  /** `eval_expr`. */
  function EvalExprSpec(vars: Vars, e: Expr): Result<VmVariant, ()>
    decreases e
  {
    match e
    case IntLiteral(v) => Ok(VmVariant.Integer(v))
    case StringLiteral(s) => Ok(VmVariant.String(s))
    case Identifier(name) => Lookup(vars, name)
    case FuncCall(c) => EvalFuncCallSpec(vars, c)
  }

  /** The arguments evaluated from left to right; the first failure ends
      the evaluation. */
  function EvalArgsSpec(vars: Vars, args: seq<Expr>): Result<seq<VmVariant>, ()>
    decreases args
  {
    if args == [] then Ok([])
    else
      match EvalArgsSpec(vars, args[..|args| - 1])
      case Err(_) => Err(())
      case Ok(params) =>
        match EvalExprSpec(vars, args[|args| - 1])
        case Err(_) => Err(())
        case Ok(v) => Ok(params + [v])
  }

  /** `eval_func_call`. */
  function EvalFuncCallSpec(vars: Vars, c: FuncCallExpr): Result<VmVariant, ()>
    decreases c
  {
    match EvalArgsSpec(vars, c.args)
    case Err(_) => Err(())
    case Ok(params) => CallFunc(c.name, params)
  }

  /** Which rule `eval_var_assign` applies (`Self::new_variable` or
      `Self::set_variable` in the source). */
  datatype VarRule = DeclareRule | AssignRule

  /** `exec_package`: the variables after a statement, or the error. */
  function ExecPackageSpec(vars: Vars, allowShadowing: bool, allowImplicit: bool, p: ParsedPackage): Result<Vars, ()> {
    match p.parsed
    case VarDecl(a) =>
      (match EvalExprSpec(vars, a.val)
       case Err(_) => Err(())
       case Ok(v) => Declare(vars, allowShadowing, a.name, v))
    case VarSet(a) =>
      (match EvalExprSpec(vars, a.val)
       case Err(_) => Err(())
       case Ok(v) => Assign(vars, allowImplicit, a.name, v))
    case FuncCall(c) =>
      (match EvalFuncCallSpec(vars, c)
       case Err(_) => Err(())
       case Ok(_) => Ok(vars))
  }

  // ---------------------------------------------------------------------
  // Properties

  /** Literals evaluate as `From<Expr>` converts them, identifiers to their
      binding. */
  lemma EvalExprMeaning(vars: Vars, e: Expr)
    ensures IsLiteral(e) ==> EvalExprSpec(vars, e) == Ok(FromExpr(e))
    ensures e.Identifier? ==> (EvalExprSpec(vars, e).Ok? <==> e.id in vars)
    ensures e.Identifier? && e.id in vars ==> EvalExprSpec(vars, e) == Ok(vars[e.id])
  {
  }

  /** Every call fails, whatever its arguments. */
  lemma CallsFail(vars: Vars, c: FuncCallExpr)
    ensures EvalExprSpec(vars, Expr.FuncCall(c)).Err?
  {
  }

  /** The arguments succeed exactly when each of them does, and then give
      their values in order. */
  lemma {:induction false} EvalArgsMeaning(vars: Vars, args: seq<Expr>)
    ensures EvalArgsSpec(vars, args).Ok? <==> forall i :: 0 <= i < |args| ==> EvalExprSpec(vars, args[i]).Ok?
    ensures EvalArgsSpec(vars, args).Ok? ==>
      |EvalArgsSpec(vars, args).value| == |args|
      && forall i :: 0 <= i < |args| ==> EvalArgsSpec(vars, args).value[i] == EvalExprSpec(vars, args[i]).value
    decreases |args|
  {
    if args != [] {
      var init := args[..|args| - 1];
      EvalArgsMeaning(vars, init);
      assert forall i :: 0 <= i < |init| ==> init[i] == args[i];
    }
  }

  /** A declared variable reads back as its value. */
  lemma DeclareThenLookup(vars: Vars, allowShadowing: bool, name: string, value: VmVariant)
    requires Declare(vars, allowShadowing, name, value).Ok?
    ensures Lookup(Declare(vars, allowShadowing, name, value).value, name) == Ok(value)
  {
  }

  /** Without implicit variables no statement removes a variable, and only
      a declaration adds one. */
  lemma ExecKeepsNames(vars: Vars, allowShadowing: bool, p: ParsedPackage)
    requires ExecPackageSpec(vars, allowShadowing, false, p).Ok?
    ensures !p.parsed.VarDecl? ==> ExecPackageSpec(vars, allowShadowing, false, p).value.Keys == vars.Keys
    ensures p.parsed.VarDecl? ==> ExecPackageSpec(vars, allowShadowing, false, p).value.Keys == vars.Keys + {p.parsed.decl.name}
  {
    if p.parsed.FuncCall? {
      CallsFail(vars, p.parsed.call);
    }
  }

  /** Without shadowing, declaring a name twice fails the second time. */
  lemma RedeclarationFails(vars: Vars, allowImplicit: bool, p: ParsedPackage)
    requires p.parsed.VarDecl?
    requires ExecPackageSpec(vars, false, allowImplicit, p).Ok?
    ensures ExecPackageSpec(ExecPackageSpec(vars, false, allowImplicit, p).value, false, allowImplicit, p).Err?
  {
  }

  // ---------------------------------------------------------------------
  // The VM object

  class Vm {
    var variables: Vars
    /** The names in `builtins`; this generation never registers any, and
        the function pointers are not modelled. */
    var builtins: set<string>
    var allowVarShadowing: bool
    var allowImplicitVar: bool

    /** `Vm::new`. */
    constructor ()
      ensures variables == map[] && builtins == {}
      ensures !allowVarShadowing && !allowImplicitVar
    {
      variables := map[];
      builtins := {};
      allowVarShadowing := false;
      allowImplicitVar := false;
    }

    /** `new_variable`. */
    method NewVariable(varName: string, value: VmVariant) returns (r: Result<(), ()>)
      modifies this
      ensures unchanged(this`builtins, this`allowVarShadowing, this`allowImplicitVar)
      ensures var d := Declare(old(variables), allowVarShadowing, varName, value);
        r.Ok? == d.Ok? && variables == if d.Ok? then d.value else old(variables)
    {
      if !allowVarShadowing && varName in variables {
        return Err(());
      }
      variables := variables[varName := value];
      return Ok(());
    }

    /** `set_variable`. */
    method SetVariable(varName: string, value: VmVariant) returns (r: Result<(), ()>)
      modifies this
      ensures unchanged(this`builtins, this`allowVarShadowing, this`allowImplicitVar)
      ensures var a := Assign(old(variables), allowImplicitVar, varName, value);
        r.Ok? == a.Ok? && variables == if a.Ok? then a.value else old(variables)
    {
      if !allowImplicitVar && varName !in variables {
        return Err(());
      }
      variables := variables[varName := value];
      return Ok(());
    }

    /** `get_variable`. */
    method GetVariable(varName: string) returns (r: Result<VmVariant, ()>)
      ensures r == Lookup(variables, varName)
    {
      if varName in variables {
        return Ok(variables[varName]);
      }
      return Err(());
    }

    /** `eval_expr`. */
    method EvalExpr(expr: Expr) returns (r: Result<VmVariant, ()>)
      ensures r == EvalExprSpec(variables, expr)
      decreases expr
    {
      match expr
      case IntLiteral(v) =>
        return Ok(VmVariant.Integer(v));
      case StringLiteral(s) =>
        return Ok(VmVariant.String(s));
      case Identifier(varName) =>
        r := GetVariable(varName);
      case FuncCall(c) =>
        r := EvalFuncCall(c);
    }

    /** `eval_func_call`: the arguments are evaluated in order into
        `params`, then the function is called. */
    method EvalFuncCall(funcCallExpr: FuncCallExpr) returns (r: Result<VmVariant, ()>)
      ensures r == EvalFuncCallSpec(variables, funcCallExpr)
      decreases funcCallExpr
    {
      var args := funcCallExpr.args;
      var params: seq<VmVariant> := [];
      var i := 0;
      while i < |args|
        invariant 0 <= i <= |args|
        invariant EvalArgsSpec(variables, args[..i]) == Ok(params)
      {
        var v := EvalExpr(args[i]);
        assert args[..i + 1][..i] == args[..i];
        if v.Err? {
          return Err(());
        }
        params := params + [v.value];
        i := i + 1;
      }
      assert args[..i] == args;
      r := CallFunc(funcCallExpr.name, params);
    }

    /** `eval_var_assign`: the value is evaluated before the rule is
        applied, so a failed evaluation changes nothing. */
    method EvalVarAssign(varAssign: VarAssign, rule: VarRule) returns (r: Result<(), ()>)
      modifies this
      ensures unchanged(this`builtins, this`allowVarShadowing, this`allowImplicitVar)
      ensures var v := EvalExprSpec(old(variables), varAssign.val);
        var s := if v.Err? then Err(())
                 else if rule == DeclareRule then Declare(old(variables), allowVarShadowing, varAssign.name, v.value)
                 else Assign(old(variables), allowImplicitVar, varAssign.name, v.value);
        r.Ok? == s.Ok? && variables == if s.Ok? then s.value else old(variables)
    {
      var evaluated := EvalExpr(varAssign.val);
      if evaluated.Err? {
        return Err(());
      }
      if rule == DeclareRule {
        r := NewVariable(varAssign.name, evaluated.value);
      } else {
        r := SetVariable(varAssign.name, evaluated.value);
      }
    }

    /** `exec_package`. */
    method ExecPackage(package: ParsedPackage) returns (r: Result<(), ()>)
      modifies this
      ensures unchanged(this`builtins, this`allowVarShadowing, this`allowImplicitVar)
      ensures var s := ExecPackageSpec(old(variables), allowVarShadowing, allowImplicitVar, package);
        r.Ok? == s.Ok? && variables == if s.Ok? then s.value else old(variables)
    {
      match package.parsed
      case VarDecl(a) =>
        r := EvalVarAssign(a, DeclareRule);
      case VarSet(a) =>
        r := EvalVarAssign(a, AssignRule);
      case FuncCall(c) =>
        var v := EvalFuncCall(c);
        if v.Err? {
          return Err(());
        }
        return Ok(());
    }
  }
}
