/** The interpreter of src/runtime/interpreter.ts, running on Environment
    objects. Each method returns its node's result and the values it printed,
    and is proved to produce exactly the result, printed values and scopes of
    the Semantics functions. A fatal error is returned as Err and ends the run
    of every caller, as the source's thrown exception does. */
module Interpreter {
  import opened Wrappers
  import opened Ast
  import opened Values
  import opened Environments
  import opened Semantics

  /** evaluate, for statement nodes. */
  method Evaluate(h: HostArith, fuel: nat, node: Stmt, env: Environment) returns (r: Result<RuntimeValue, EvalError>, printed: seq<RuntimeValue>)
    requires env.Valid()
    modifies env.Repr
    ensures Evaluation(r, env.Scopes(), printed) == Eval(h, fuel, node, old(env.Scopes()))
    decreases fuel, node, 1
  {
    match node
    case Program(body) => r, printed := EvalProgram(h, fuel, body, env);
    case VarDeclaration(_, _) => r, printed := EvalVarDeclaration(h, fuel, node, env);
    case VarAssignment(_, _) => r, printed := EvalValAssignment(h, fuel, node, env);
    case FunDeclaration(_, _) => r, printed := EvalFunDeclaration(node, env);
    case PrintStmt(_) => r, printed := EvalPrintStmt(h, fuel, node, env);
    case ReturnStmt(_) => r, printed := EvalReturnStmt(h, fuel, node, env);
    case ExprStmt(e) => r, printed := EvaluateExpr(h, fuel, e, env);
  }

  /** evaluate, for expression nodes. */
  method EvaluateExpr(h: HostArith, fuel: nat, node: Expr, env: Environment) returns (r: Result<RuntimeValue, EvalError>, printed: seq<RuntimeValue>)
    requires env.Valid()
    modifies env.Repr
    ensures Evaluation(r, env.Scopes(), printed) == EvalExpr(h, fuel, node, old(env.Scopes()))
    decreases fuel, node, 1
  {
    match node
    case IntLiteral(n) => r, printed := Ok(IntValue(n)), [];
    case NullLiteral => r, printed := Ok(NullValue), [];
    case Identifier(_) => r, printed := EvalIdentifier(node, env), [];
    case BinaryExpr(_, _, _) => r, printed := EvalBinaryExpr(h, fuel, node, env);
    case FunCall(_) => r, printed := EvalFunCall(h, fuel, node, env);
    case IfExpr(_, _, _) => r, printed := EvalIfExpr(h, fuel, node, env);
  }

  method EvalProgram(h: HostArith, fuel: nat, body: seq<Stmt>, env: Environment) returns (r: Result<RuntimeValue, EvalError>, printed: seq<RuntimeValue>)
    requires env.Valid()
    modifies env.Repr
    ensures Evaluation(r, env.Scopes(), printed) == Eval(h, fuel, Program(body), old(env.Scopes()))
    decreases fuel, body, 0
  {
    ghost var total := ProgramLoop(h, fuel, body, 0, NullValue, env.Scopes());
    var lastEvaluated := NullValue;
    printed := [];
    var i := 0;
    while i < |body|
      invariant i <= |body|
      invariant total == Then(printed, ProgramLoop(h, fuel, body, i, lastEvaluated, env.Scopes()))
    {
      var v, out := Evaluate(h, fuel, body[i], env);
      printed := printed + out;
      if v.Err? {
        return v, printed;
      }
      lastEvaluated := v.value;
      if lastEvaluated.ReturnValue? {
        return Ok(lastEvaluated.wrapped), printed;
      }
      i := i + 1;
    }
    r := Ok(lastEvaluated);
  }

  method EvalBinaryExpr(h: HostArith, fuel: nat, node: Expr, env: Environment) returns (r: Result<RuntimeValue, EvalError>, printed: seq<RuntimeValue>)
    requires node.BinaryExpr? && env.Valid()
    modifies env.Repr
    ensures Evaluation(r, env.Scopes(), printed) == EvalExpr(h, fuel, node, old(env.Scopes()))
    decreases fuel, node, 0
  {
    var lhs, outLeft := EvaluateExpr(h, fuel, node.left, env);
    if lhs.Err? {
      return lhs, outLeft;
    }
    var rhs, outRight := EvaluateExpr(h, fuel, node.right, env);
    printed := outLeft + outRight;
    if rhs.Err? {
      return rhs, printed;
    }
    var l, rv := lhs.value, rhs.value;
    if l.ReturnValue? {
      l := l.wrapped;
    }
    if rv.ReturnValue? {
      rv := rv.wrapped;
    }
    if l.IntValue? && rv.IntValue? {
      return Ok(IntValue(IntegralOp(h, l.n, rv.n, node.operator))), printed;
    }
    r := Ok(NullValue);
  }

  function EvalIdentifier(node: Expr, env: Environment): (r: Result<RuntimeValue, EvalError>)
    requires node.Identifier? && env.Valid()
    reads env.Repr
    ensures r == LookupVarIn(env.Scopes(), node.symbol)
  {
    env.LookupVar(node.symbol)
  }

  method EvalVarDeclaration(h: HostArith, fuel: nat, node: Stmt, env: Environment) returns (r: Result<RuntimeValue, EvalError>, printed: seq<RuntimeValue>)
    requires node.VarDeclaration? && env.Valid()
    modifies env.Repr
    ensures Evaluation(r, env.Scopes(), printed) == Eval(h, fuel, node, old(env.Scopes()))
    decreases fuel, node, 0
  {
    match node
    case VarDeclaration(identifier, Some(e)) =>
      var value, out := EvaluateExpr(h, fuel, e, env);
      printed := out;
      if value.Err? {
        return value, printed;
      }
      var declared := env.DeclareVar(identifier, value.value);
      if declared.Err? {
        return Err(declared.error), printed;
      }
      r := value;
    case VarDeclaration(identifier, None) =>
      printed := [];
      var declared := env.DeclareVar(identifier, NullValue);
      if declared.Err? {
        return Err(declared.error), printed;
      }
      r := Ok(NullValue);
  }

  method EvalValAssignment(h: HostArith, fuel: nat, node: Stmt, env: Environment) returns (r: Result<RuntimeValue, EvalError>, printed: seq<RuntimeValue>)
    requires node.VarAssignment? && env.Valid()
    modifies env.Repr
    ensures Evaluation(r, env.Scopes(), printed) == Eval(h, fuel, node, old(env.Scopes()))
    decreases fuel, node, 0
  {
    var value, out := EvaluateExpr(h, fuel, node.assignedValue, env);
    printed := out;
    if value.Err? {
      return value, printed;
    }
    r := env.AssignVar(node.identifier, value.value);
  }

  method EvalFunDeclaration(node: Stmt, env: Environment) returns (r: Result<RuntimeValue, EvalError>, printed: seq<RuntimeValue>)
    requires node.FunDeclaration? && env.Valid()
    modifies env`functions
    ensures forall h: HostArith, fuel: nat :: Evaluation(r, env.Scopes(), printed) == Eval(h, fuel, node, old(env.Scopes()))
  {
    printed := [];
    var declared := env.DeclareFun(node.identifier, node.body);
    if declared.Err? {
      return Err(declared.error), printed;
    }
    r := Ok(NullValue);
  }

  method EvalFunCall(h: HostArith, fuel: nat, node: Expr, env: Environment) returns (r: Result<RuntimeValue, EvalError>, printed: seq<RuntimeValue>)
    requires node.FunCall? && env.Valid()
    modifies env.Repr
    ensures Evaluation(r, env.Scopes(), printed) == EvalCall(h, fuel, node.identifier, old(env.Scopes()))
    decreases fuel, node, 0
  {
    var lookup := env.LookupFun(node.identifier);
    if lookup.Err? {
      return Err(lookup.error), [];
    }
    if fuel == 0 {
      return Err(OutOfFuel), [];
    }
    ghost var caller := env.Scopes();
    ghost var outcome := CallLoop(h, fuel - 1, lookup.value, 0, NullValue, [EmptyScope] + SetFunEnvIn(caller, node.identifier));
    CallOutcome(h, fuel, node.identifier, caller, outcome);
    r, printed := CallBody(h, fuel, node.identifier, lookup.value, env, outcome);
    if r.Err? {
      return;
    }
    env.DestroyFunEnv(node.identifier);
  }

  /** The part of evalFunCall between the lookup and the release of the
      call's record: the call's own scope is pushed and the body runs in it,
      with `outcome` as the specified result of that run. */
  method CallBody(h: HostArith, fuel: nat, name: string, funBody: seq<Stmt>, env: Environment, ghost outcome: Evaluation) returns (r: Result<RuntimeValue, EvalError>, printed: seq<RuntimeValue>)
    requires env.Valid() && fuel > 0
    requires outcome == CallLoop(h, fuel - 1, funBody, 0, NullValue, [EmptyScope] + SetFunEnvIn(env.Scopes(), name))
    modifies env.Repr
    ensures r == outcome.result && printed == outcome.out && env.Scopes() == outcome.chain[1..]
    decreases fuel - 1, funBody, 2
  {
    ghost var caller := env.Scopes();
    var funEnv := new Environment(env);
    env.SetFunEnv(name, funEnv);
    assert funEnv.Scopes() == [EmptyScope] + SetFunEnvIn(caller, name);
    r, printed := RunFunctionBody(h, fuel - 1, funBody, funEnv, outcome);
    assert env.Scopes() == funEnv.Scopes()[1..];
  }

  /** The loop of evalFunCall: the body's statements in the function's scope,
      up to the first return statement or return-tagged result; `outcome` is
      the specified result of the whole loop. */
  method RunFunctionBody(h: HostArith, fuel: nat, funBody: seq<Stmt>, funEnv: Environment, ghost outcome: Evaluation) returns (r: Result<RuntimeValue, EvalError>, printed: seq<RuntimeValue>)
    requires funEnv.Valid() && outcome == CallLoop(h, fuel, funBody, 0, NullValue, funEnv.Scopes())
    modifies funEnv.Repr
    ensures Evaluation(r, funEnv.Scopes(), printed) == outcome
    decreases fuel, funBody, 1
  {
    ghost var total := outcome;
    var lastEvaluated := NullValue;
    printed := [];
    var i := 0;
    while i < |funBody|
      invariant i <= |funBody|
      invariant total == Then(printed, CallLoop(h, fuel, funBody, i, lastEvaluated, funEnv.Scopes()))
    {
      var funStmt := funBody[i];
      ghost var before := funEnv.Scopes();
      if !funStmt.ReturnStmt? {
        var v, out := Evaluate(h, fuel, funStmt, funEnv);
        CallLoopStep(h, fuel, funBody, i, lastEvaluated, before);
        ThenAssoc(printed, out, CallLoop(h, fuel, funBody, i + 1, if v.Ok? then v.value else NullValue, funEnv.Scopes()));
        printed := printed + out;
        if v.Err? {
          return v, printed;
        }
        lastEvaluated := v.value;
        if lastEvaluated.ReturnValue? {
          lastEvaluated := lastEvaluated.wrapped;
          break;
        }
      } else {
        match funStmt.value {
          case Some(e) =>
            assert funBody decreases to funStmt; assert funStmt decreases to funStmt.value; assert funStmt.value decreases to e;
            var v, out := EvaluateExpr(h, fuel, e, funEnv);
            assert CallLoop(h, fuel, funBody, i, lastEvaluated, before) == Evaluation(v, funEnv.Scopes(), out);
            printed := printed + out;
            if v.Err? {
              return v, printed;
            }
            lastEvaluated := v.value;
          case None =>
            lastEvaluated := NullValue;
        }
        break;
      }
      i := i + 1;
    }
    r := Ok(lastEvaluated);
  }

  method EvalIfExpr(h: HostArith, fuel: nat, node: Expr, env: Environment) returns (r: Result<RuntimeValue, EvalError>, printed: seq<RuntimeValue>)
    requires node.IfExpr? && env.Valid()
    modifies env.Repr
    ensures Evaluation(r, env.Scopes(), printed) == EvalExpr(h, fuel, node, old(env.Scopes()))
    decreases fuel, node, 0
  {
    var ifEnv := new Environment(env);
    var conditionValue, out := EvaluateExpr(h, fuel, node.condition, env);
    if conditionValue.Err? {
      return conditionValue, out;
    }
    if !conditionValue.value.BooleanValue? {
      return Err(ConditionNotBoolean), out;
    }
    var block;
    if conditionValue.value.b {
      r, block := RunBlock(h, fuel, node.ifBlock, ifEnv, true);
    } else if node.elseBlock.Else? {
      r, block := RunBlock(h, fuel, node.elseBlock.stmts, ifEnv, false);
    } else {
      r, block := Ok(NullValue), [];
    }
    assert env.Scopes() == ifEnv.Scopes()[1..];
    printed := out + block;
  }

  /** The loops of evalIfExpr: every statement of a block in the block's
      scope, except that in the then-block (`thenBlock`) a return statement is
      evaluated in the enclosing scope. */
  method RunBlock(h: HostArith, fuel: nat, block: seq<Stmt>, ifEnv: Environment, thenBlock: bool) returns (r: Result<RuntimeValue, EvalError>, printed: seq<RuntimeValue>)
    requires ifEnv.Valid() && ifEnv.parent != null
    modifies ifEnv.Repr
    ensures Evaluation(r, ifEnv.Scopes(), printed) == BlockLoop(h, fuel, block, 0, NullValue, old(ifEnv.Scopes()), thenBlock)
    decreases fuel, block, 1
  {
    ghost var total := BlockLoop(h, fuel, block, 0, NullValue, ifEnv.Scopes(), thenBlock);
    var env := ifEnv.parent;
    var lastEvaluated := NullValue;
    printed := [];
    var i := 0;
    while i < |block|
      invariant i <= |block|
      invariant total == Then(printed, BlockLoop(h, fuel, block, i, lastEvaluated, ifEnv.Scopes(), thenBlock))
    {
      var blockStmt := block[i];
      ghost var before := ifEnv.Scopes();
      var v, out;
      if thenBlock && blockStmt.ReturnStmt? {
        ghost var own := ifEnv.Current();
        v, out := EvalReturnStmt(h, fuel, blockStmt, env);
        assert ifEnv.Current() == own;
        assert ifEnv.Scopes() == [before[0]] + env.Scopes();
      } else {
        v, out := Evaluate(h, fuel, blockStmt, ifEnv);
      }
      assert Evaluation(v, ifEnv.Scopes(), out) == BlockStmt(h, fuel, block, i, before, thenBlock);
      BlockLoopStep(h, fuel, block, i, lastEvaluated, before, thenBlock);
      if v.Err? {
        return v, printed + out;
      }
      ThenAssoc(printed, out, BlockLoop(h, fuel, block, i + 1, v.value, ifEnv.Scopes(), thenBlock));
      printed := printed + out;
      lastEvaluated := v.value;
      i := i + 1;
    }
    r := Ok(lastEvaluated);
  }

  method EvalReturnStmt(h: HostArith, fuel: nat, node: Stmt, env: Environment) returns (r: Result<RuntimeValue, EvalError>, printed: seq<RuntimeValue>)
    requires node.ReturnStmt? && env.Valid()
    modifies env.Repr
    ensures Evaluation(r, env.Scopes(), printed) == Eval(h, fuel, node, old(env.Scopes()))
    ensures r.Ok? ==> r.value.ReturnValue?
    decreases fuel, node, 0
  {
    match node
    case ReturnStmt(Some(e)) =>
      var value, out := EvaluateExpr(h, fuel, e, env);
      printed := out;
      if value.Err? {
        return value, printed;
      }
      r := Ok(ReturnValue(value.value));
    case ReturnStmt(None) =>
      r, printed := Ok(ReturnValue(NullValue)), [];
  }

  method EvalPrintStmt(h: HostArith, fuel: nat, node: Stmt, env: Environment) returns (r: Result<RuntimeValue, EvalError>, printed: seq<RuntimeValue>)
    requires node.PrintStmt? && env.Valid()
    modifies env.Repr
    ensures Evaluation(r, env.Scopes(), printed) == Eval(h, fuel, node, old(env.Scopes()))
    decreases fuel, node, 0
  {
    var value, out := EvaluateExpr(h, fuel, node.argument, env);
    if value.Err? {
      return value, out;
    }
    r, printed := Ok(NullValue), out + [value.value];
  }
}
