/** Scopes of the runtime (src/runtime/environment.ts).

    An environment is a scope with an optional parent. The abstract value of an
    environment is its chain of scopes, innermost first; the chain functions
    below say what each operation does to that value, and the Environment class
    implements them on linked objects.

    Of the members, the constructor, declareVar, lookupVar and resolve are in
    the source; assignVar, declareFun, lookupFun, setFunEnv and destroyFunEnv
    are called by the interpreter but not defined there, and are reconstructed
    by analogy with declareVar (this scope only) and resolve (walk outward). */
module Environments {
  import opened Wrappers
  import opened Ast
  import opened Values

  /** One scope: its variables, its declared functions, and the names whose
      call is in progress (the keys of the slots setFunEnv fills). */
  datatype Scope = Scope(
    variables: map<string, RuntimeValue>,
    functions: map<string, seq<Stmt>>,
    funEnvs: set<string>)

  const EmptyScope := Scope(map[], map[], {})

  /** A chain of scopes, innermost first. */
  type Chain = seq<Scope>

  // ---------------------------------------------------------------------------
  // Chain-level specification

  /** Position of the nearest scope that binds `name` as a variable. */
  function ResolveIndex(c: Chain, name: string): (r: Option<nat>)
    ensures r.Some? ==> r.value < |c| && name in c[r.value].variables
    ensures r.Some? ==> forall k :: 0 <= k < r.value ==> name !in c[k].variables
    ensures r.None? ==> forall k :: 0 <= k < |c| ==> name !in c[k].variables
  {
    if |c| == 0 then None
    else if name in c[0].variables then Some(0)
    else match ResolveIndex(c[1..], name)
      case None => None
      case Some(k) => Some(k + 1)
  }

  /** Value of the nearest binding of `name`. */
  function LookupVarIn(c: Chain, name: string): (r: Result<RuntimeValue, EvalError>)
    ensures r.Err? <==> forall k :: 0 <= k < |c| ==> name !in c[k].variables
    ensures r.Err? ==> r.error == Unresolved(name)
    ensures r.Ok? ==> exists k :: 0 <= k < |c| && name in c[k].variables && r.value == c[k].variables[name] &&
                        (forall j :: 0 <= j < k ==> name !in c[j].variables)
  {
    match ResolveIndex(c, name)
    case None => Err(Unresolved(name))
    case Some(k) => Ok(c[k].variables[name])
  }

  /** Binding a fresh name in the innermost scope; a name already bound there is refused. */
  function DeclareVarIn(c: Chain, name: string, v: RuntimeValue): (r: Result<Chain, EvalError>)
    requires |c| > 0
    ensures r.Err? <==> name in c[0].variables
    ensures r.Err? ==> r.error == AlreadyDeclared(name)
    ensures r.Ok? ==> |r.value| == |c| && r.value[1..] == c[1..]
    ensures r.Ok? ==> r.value[0] == c[0].(variables := c[0].variables[name := v])
  {
    if name in c[0].variables then Err(AlreadyDeclared(name))
    else Ok([c[0].(variables := c[0].variables[name := v])] + c[1..])
  }

  /** Rebinding `name` in the scope that resolves it. */
  function AssignVarIn(c: Chain, name: string, v: RuntimeValue): (r: Result<Chain, EvalError>)
    ensures r.Err? <==> ResolveIndex(c, name).None?
    ensures r.Err? ==> r.error == Unresolved(name)
    ensures r.Ok? ==> r.value == c[ResolveIndex(c, name).value := c[ResolveIndex(c, name).value].(variables := c[ResolveIndex(c, name).value].variables[name := v])]
  {
    match ResolveIndex(c, name)
    case None => Err(Unresolved(name))
    case Some(k) => Ok(c[k := c[k].(variables := c[k].variables[name := v])])
  }

  /** Assignment past a scope that does not bind the name leaves that scope
      alone and assigns in the rest of the chain. */
  lemma AssignVarInStep(c: Chain, name: string, v: RuntimeValue)
    requires |c| > 0 && name !in c[0].variables
    ensures AssignVarIn(c, name, v) == match AssignVarIn(c[1..], name, v)
      case Ok(t) => Ok([c[0]] + t)
      case Err(e) => Err(e)
  {
    match ResolveIndex(c[1..], name)
    case None =>
    case Some(k) =>
      assert ResolveIndex(c, name) == Some(k + 1);
      var t := c[1..][k := c[1..][k].(variables := c[1..][k].variables[name := v])];
      assert c[k + 1 := c[k + 1].(variables := c[k + 1].variables[name := v])] == [c[0]] + t;
  }

  /** Registering a function body in the innermost scope; a name already registered there is refused. */
  function DeclareFunIn(c: Chain, name: string, body: seq<Stmt>): (r: Result<Chain, EvalError>)
    requires |c| > 0
    ensures r.Err? <==> name in c[0].functions
    ensures r.Err? ==> r.error == FunctionAlreadyDeclared(name)
    ensures r.Ok? ==> |r.value| == |c| && r.value[1..] == c[1..]
    ensures r.Ok? ==> r.value[0] == c[0].(functions := c[0].functions[name := body])
  {
    if name in c[0].functions then Err(FunctionAlreadyDeclared(name))
    else Ok([c[0].(functions := c[0].functions[name := body])] + c[1..])
  }

  /** Body of the nearest function registered under `name`. */
  function LookupFunIn(c: Chain, name: string): (r: Result<seq<Stmt>, EvalError>)
    ensures r.Err? <==> forall k :: 0 <= k < |c| ==> name !in c[k].functions
    ensures r.Err? ==> r.error == UnresolvedFunction(name)
    ensures r.Ok? ==> exists k :: 0 <= k < |c| && name in c[k].functions && r.value == c[k].functions[name] &&
                        (forall j :: 0 <= j < k ==> name !in c[j].functions)
  {
    if |c| == 0 then Err(UnresolvedFunction(name))
    else if name in c[0].functions then Ok(c[0].functions[name])
    else LookupFunIn(c[1..], name)
  }

  /** Filling and clearing the innermost scope's call slot for `name`. */
  function SetFunEnvIn(c: Chain, name: string): (r: Chain)
    requires |c| > 0
    ensures |r| == |c| && r[1..] == c[1..] && r[0] == c[0].(funEnvs := c[0].funEnvs + {name})
  {
    [c[0].(funEnvs := c[0].funEnvs + {name})] + c[1..]
  }

  function DestroyFunEnvIn(c: Chain, name: string): (r: Chain)
    requires |c| > 0
    ensures |r| == |c| && r[1..] == c[1..] && r[0] == c[0].(funEnvs := c[0].funEnvs - {name})
  {
    [c[0].(funEnvs := c[0].funEnvs - {name})] + c[1..]
  }

  // ---------------------------------------------------------------------------
  // The linked implementation

  class Environment {
    const parent: Environment?
    /** This environment and all its ancestors. */
    ghost const Repr: set<Environment>
    var variables: map<string, RuntimeValue>
    var functions: map<string, seq<Stmt>>
    var funEnvs: map<string, Environment>

    ghost predicate Valid()
      decreases Repr
    {
      this in Repr &&
      (parent == null ==> Repr == {this}) &&
      (parent != null ==>
         parent in Repr && this !in parent.Repr && parent.Repr < Repr &&
         Repr == {this} + parent.Repr && parent.Valid())
    }

    /** This scope alone. */
    function Current(): Scope
      reads this
    {
      Scope(variables, functions, funEnvs.Keys)
    }

    /** The abstract value: this scope followed by the parent's chain. */
    ghost function Scopes(): (c: Chain)
      requires Valid()
      reads Repr
      decreases Repr, 1
      ensures |c| >= 1 && c[0] == Current() && c[1..] == Outer()
    {
      [Current()] + Outer()
    }

    /** The chain of the enclosing scopes. */
    ghost function Outer(): (c: Chain)
      requires Valid()
      reads Repr
      decreases Repr, 0
      ensures parent == null ==> c == []
      ensures parent != null ==> c == parent.Scopes()
    {
      if parent == null then [] else parent.Scopes()
    }

    /** A fresh scope. The interpreter's setParentEnv call is folded into the
        argument: in evalIfExpr it directly follows construction, and in
        evalFunCall only setFunEnv on the calling scope comes between them,
        which leaves the fresh scope's parent alone. */
    constructor (parent: Environment?)
      requires parent != null ==> parent.Valid()
      ensures Valid() && fresh(this)
      ensures this.parent == parent
      ensures parent != null ==> Repr == {this} + parent.Repr && Scopes() == [EmptyScope] + parent.Scopes()
      ensures parent == null ==> Repr == {this} && Scopes() == [EmptyScope]
    {
      this.parent := parent;
      Repr := if parent == null then {this} else {this} + parent.Repr;
      variables := map[];
      functions := map[];
      funEnvs := map[];
      new;
      assert funEnvs.Keys == {};
      assert Current() == EmptyScope;
    }

    method DeclareVar(name: string, value: RuntimeValue) returns (r: Result<RuntimeValue, EvalError>)
      requires Valid()
      modifies this`variables
      ensures Valid()
      ensures match DeclareVarIn(old(Scopes()), name, value)
        case Ok(c) => r == Ok(value) && Scopes() == c
        case Err(e) => r == Err(e) && Scopes() == old(Scopes())
    {
      if name in variables {
        return Err(AlreadyDeclared(name));
      }
      ghost var outer := Outer();
      variables := variables[name := value];
      r := Ok(value);
      assert Outer() == outer;
    }

    /** The environment of the nearest scope binding `name`. */
    function Resolve(name: string): (r: Result<Environment, EvalError>)
      requires Valid()
      reads Repr
      decreases Repr
      ensures r.Err? <==> ResolveIndex(Scopes(), name).None?
      ensures r.Err? ==> r.error == Unresolved(name)
      ensures r.Ok? ==> r.value in Repr && r.value.Valid() && name in r.value.variables
      ensures r.Ok? ==> r.value.Scopes() == Scopes()[ResolveIndex(Scopes(), name).value..]
    {
      if name in variables then Ok(this)
      else if parent == null then Err(Unresolved(name))
      else parent.Resolve(name)
    }

    function LookupVar(name: string): (r: Result<RuntimeValue, EvalError>)
      requires Valid()
      reads Repr
      ensures r == LookupVarIn(Scopes(), name)
    {
      var env :- Resolve(name);
      Ok(env.variables[name])
    }

    /** Reconstructed: rebinding in the scope resolve picks. */
    method AssignVar(name: string, value: RuntimeValue) returns (r: Result<RuntimeValue, EvalError>)
      requires Valid()
      modifies Repr
      decreases Repr
      ensures Valid()
      ensures match AssignVarIn(old(Scopes()), name, value)
        case Ok(c) => r == Ok(value) && Scopes() == c
        case Err(e) => r == Err(e) && Scopes() == old(Scopes())
    {
      if name in variables {
        ghost var outer := Outer();
        variables := variables[name := value];
        assert Outer() == outer;
        return Ok(value);
      }
      if parent == null {
        return Err(Unresolved(name));
      }
      ghost var current := Current();
      AssignVarInStep(old(Scopes()), name, value);
      r := parent.AssignVar(name, value);
      assert Current() == current;
      assert Scopes() == [current] + parent.Scopes();
    }

    /** Reconstructed: registering a function body in this scope. */
    method DeclareFun(name: string, body: seq<Stmt>) returns (r: Result<seq<Stmt>, EvalError>)
      requires Valid()
      modifies this`functions
      ensures Valid()
      ensures match DeclareFunIn(old(Scopes()), name, body)
        case Ok(c) => r == Ok(body) && Scopes() == c
        case Err(e) => r == Err(e) && Scopes() == old(Scopes())
    {
      if name in functions {
        return Err(FunctionAlreadyDeclared(name));
      }
      ghost var outer := Outer();
      functions := functions[name := body];
      r := Ok(body);
      assert Outer() == outer;
    }

    /** Reconstructed: the body of the nearest registered function. */
    function LookupFun(name: string): (r: Result<seq<Stmt>, EvalError>)
      requires Valid()
      reads Repr
      decreases Repr
      ensures r == LookupFunIn(Scopes(), name)
    {
      if name in functions then Ok(functions[name])
      else if parent == null then Err(UnresolvedFunction(name))
      else parent.LookupFun(name)
    }

    /** Reconstructed: recording the scope of a call in progress. */
    method SetFunEnv(name: string, env: Environment)
      requires Valid()
      modifies this`funEnvs
      ensures Valid()
      ensures funEnvs == old(funEnvs)[name := env]
      ensures Scopes() == SetFunEnvIn(old(Scopes()), name)
    {
      ghost var outer := Outer();
      funEnvs := funEnvs[name := env];
      assert funEnvs.Keys == old(funEnvs).Keys + {name};
      assert Outer() == outer;
    }

    /** Reconstructed: dropping that record once the call is over. */
    method DestroyFunEnv(name: string)
      requires Valid()
      modifies this`funEnvs
      ensures Valid()
      ensures funEnvs == old(funEnvs) - {name}
      ensures Scopes() == DestroyFunEnvIn(old(Scopes()), name)
    {
      ghost var outer := Outer();
      funEnvs := funEnvs - {name};
      assert funEnvs.Keys == old(funEnvs).Keys - {name};
      assert Outer() == outer;
    }
  }
}
