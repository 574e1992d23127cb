/** The meaning of evaluation (src/runtime/interpreter.ts), as functions over
    scope chains. Evaluating a node in a chain gives its result (a value or a
    fatal error), the chain afterwards, and the values printed on the way.
    The Interpreter module runs the same steps on Environment objects and is
    proved to agree with these functions.

    Calls can recurse without bound, so evaluation carries fuel: each function
    call spends one unit, and a call with none left is the OutOfFuel error.
    JavaScript `/` and `%` act on doubles and `/` does not truncate (10 / 3 is
    3.333..., and (10 / 3) * 3 is 10). They are taken as the integer-valued
    host functions `h.divide` and `h.remainder`, so a non-integer quotient and
    all arithmetic on one fall outside the model. */
module Semantics {
  import opened Wrappers
  import opened Ast
  import opened Values
  import opened Environments

  /** The host's `/` and `%`, restricted to integer results: exact only where
      JavaScript's quotient or remainder of two integers is itself an integer. */
  datatype HostArith = HostArith(divide: (int, int) -> int, remainder: (int, int) -> int)

  datatype Evaluation = Evaluation(result: Result<RuntimeValue, EvalError>, chain: Chain, out: seq<RuntimeValue>)

  /** An evaluation preceded by output already printed. */
  function Then(printed: seq<RuntimeValue>, e: Evaluation): Evaluation {
    Evaluation(e.result, e.chain, printed + e.out)
  }

  lemma ThenAssoc(a: seq<RuntimeValue>, b: seq<RuntimeValue>, e: Evaluation)
    ensures Then(a, Then(b, e)) == Then(a + b, e)
  {
    assert a + (b + e.out) == (a + b) + e.out;
  }

  /** The values an expression can produce and a variable can hold. */
  predicate Plain(v: RuntimeValue) {
    v.NullValue? || v.IntValue?
  }

  /** The values a statement can produce: plain, or a return tag around a plain value. */
  predicate PlainOrReturned(v: RuntimeValue) {
    Plain(v) || (v.ReturnValue? && Plain(v.wrapped))
  }

  predicate PlainChain(c: Chain) {
    forall k, x :: 0 <= k < |c| && x in c[k].variables ==> Plain(c[k].variables[x])
  }

  /** A return-tagged value gives up its payload; any other value stays. */
  function Unwrap(v: RuntimeValue): (r: RuntimeValue)
    ensures v.ReturnValue? ==> r == v.wrapped
    ensures !v.ReturnValue? ==> r == v
  {
    if v.ReturnValue? then v.wrapped else v
  }

  /** evalIntegralBinaryExpr: the operator string chooses the operation, and
      every string other than the first four means remainder. */
  function IntegralOp(h: HostArith, a: int, b: int, operator: string): int {
    if operator == "+" then a + b
    else if operator == "-" then a - b
    else if operator == "*" then a * b
    else if operator == "/" then h.divide(a, b)
    else h.remainder(a, b)
  }

  /** The value of a binary expression once both operands are known. */
  function BinaryResult(h: HostArith, lhs: RuntimeValue, rhs: RuntimeValue, operator: string): (r: RuntimeValue)
    ensures r.IntValue? <==> Unwrap(lhs).IntValue? && Unwrap(rhs).IntValue?
    ensures !r.IntValue? ==> r == NullValue
    ensures r.IntValue? ==> r.n == IntegralOp(h, Unwrap(lhs).n, Unwrap(rhs).n, operator)
  {
    var l := Unwrap(lhs);
    var r := Unwrap(rhs);
    if l.IntValue? && r.IntValue? then IntValue(IntegralOp(h, l.n, r.n, operator)) else NullValue
  }

  /** The outcome of a binding operation that yields `v` on success. */
  function Bound(r: Result<Chain, EvalError>, v: RuntimeValue, c: Chain, out: seq<RuntimeValue>): (e: Evaluation)
    ensures r.Ok? ==> e == Evaluation(Ok(v), r.value, out)
    ensures r.Err? ==> e == Evaluation(Err(r.error), c, out)
  {
    match r
    case Ok(c2) => Evaluation(Ok(v), c2, out)
    case Err(err) => Evaluation(Err(err), c, out)
  }

  lemma PlainAfterDeclare(c: Chain, name: string, v: RuntimeValue)
    requires |c| > 0
    ensures PlainChain(c) && Plain(v) && DeclareVarIn(c, name, v).Ok? ==> PlainChain(DeclareVarIn(c, name, v).value)
  {
    if PlainChain(c) && Plain(v) && DeclareVarIn(c, name, v).Ok? {
      var d := DeclareVarIn(c, name, v).value;
      forall k, x | 0 <= k < |d| && x in d[k].variables ensures Plain(d[k].variables[x]) {
        if k > 0 { assert d[k] == d[1..][k - 1] == c[k]; }
      }
    }
  }

  lemma PlainAfterAssign(c: Chain, name: string, v: RuntimeValue)
    ensures PlainChain(c) && Plain(v) && AssignVarIn(c, name, v).Ok? ==> PlainChain(AssignVarIn(c, name, v).value)
  {
  }

  lemma PlainAfterDeclareFun(c: Chain, name: string, body: seq<Stmt>)
    requires |c| > 0
    ensures PlainChain(c) && DeclareFunIn(c, name, body).Ok? ==> PlainChain(DeclareFunIn(c, name, body).value)
  {
    if PlainChain(c) && DeclareFunIn(c, name, body).Ok? {
      var d := DeclareFunIn(c, name, body).value;
      forall k, x | 0 <= k < |d| && x in d[k].variables ensures Plain(d[k].variables[x]) {
        if k > 0 { assert d[k] == d[1..][k - 1] == c[k]; }
      }
    }
  }

  lemma PlainSlots(c: Chain, name: string)
    requires |c| > 0
    ensures PlainChain(c) ==> PlainChain(SetFunEnvIn(c, name)) && PlainChain(DestroyFunEnvIn(c, name))
  {
    if PlainChain(c) {
      var s, d := SetFunEnvIn(c, name), DestroyFunEnvIn(c, name);
      forall k, x | 0 <= k < |c| && x in s[k].variables ensures Plain(s[k].variables[x]) {
        if k > 0 { assert s[k] == s[1..][k - 1] == c[k]; }
      }
      forall k, x | 0 <= k < |c| && x in d[k].variables ensures Plain(d[k].variables[x]) {
        if k > 0 { assert d[k] == d[1..][k - 1] == c[k]; }
      }
    }
  }

  lemma PlainPush(c: Chain)
    ensures PlainChain(c) ==> PlainChain([EmptyScope] + c)
  {
    if PlainChain(c) {
      var d := [EmptyScope] + c;
      forall k, x | 0 <= k < |d| && x in d[k].variables ensures Plain(d[k].variables[x]) {
        assert k > 0 && d[k] == c[k - 1];
      }
    }
  }

  lemma PlainPop(c: Chain)
    requires |c| > 0
    ensures PlainChain(c) ==> PlainChain(c[1..])
  {
    if PlainChain(c) {
      forall k, x | 0 <= k < |c| - 1 && x in c[1..][k].variables ensures Plain(c[1..][k].variables[x]) {
        assert c[1..][k] == c[k + 1];
      }
    }
  }

  /** evaluate(node, env) for statements; an expression statement is its expression. */
  function Eval(h: HostArith, fuel: nat, s: Stmt, c: Chain): (r: Evaluation)
    requires |c| > 0
    ensures |r.chain| == |c|
    decreases fuel, s, 0
  {
    match s
    case Program(body) => ProgramLoop(h, fuel, body, 0, NullValue, c)
    case VarDeclaration(name, None) =>
      Bound(DeclareVarIn(c, name, NullValue), NullValue, c, [])
    case VarDeclaration(name, Some(e)) =>
      var ev := EvalExpr(h, fuel, e, c);
      if ev.result.Err? then ev
      else
        var v := ev.result.value;
        Bound(DeclareVarIn(ev.chain, name, v), v, ev.chain, ev.out)
    case VarAssignment(name, e) =>
      var ev := EvalExpr(h, fuel, e, c);
      if ev.result.Err? then ev
      else
        var v := ev.result.value;
        Bound(AssignVarIn(ev.chain, name, v), v, ev.chain, ev.out)
    case FunDeclaration(name, body) =>
      Bound(DeclareFunIn(c, name, body), NullValue, c, [])
    case PrintStmt(e) =>
      var ev := EvalExpr(h, fuel, e, c);
      if ev.result.Err? then ev
      else Evaluation(Ok(NullValue), ev.chain, ev.out + [ev.result.value])
    case ReturnStmt(None) => Evaluation(Ok(ReturnValue(NullValue)), c, [])
    case ReturnStmt(Some(e)) =>
      var ev := EvalExpr(h, fuel, e, c);
      if ev.result.Err? then ev
      else Evaluation(Ok(ReturnValue(ev.result.value)), ev.chain, ev.out)
    case ExprStmt(e) => EvalExpr(h, fuel, e, c)
  }

  /** evaluate(node, env) for expressions. */
  function EvalExpr(h: HostArith, fuel: nat, e: Expr, c: Chain): (r: Evaluation)
    requires |c| > 0
    ensures |r.chain| == |c|
    decreases fuel, e, 1
  {
    match e
    case IntLiteral(n) => Evaluation(Ok(IntValue(n)), c, [])
    case NullLiteral => Evaluation(Ok(NullValue), c, [])
    case Identifier(name) => Evaluation(LookupVarIn(c, name), c, [])
    case BinaryExpr(left, right, operator) =>
      var el := EvalExpr(h, fuel, left, c);
      if el.result.Err? then el
      else
        var er := EvalExpr(h, fuel, right, el.chain);
        if er.result.Err? then Evaluation(er.result, er.chain, el.out + er.out)
        else Evaluation(Ok(BinaryResult(h, el.result.value, er.result.value, operator)), er.chain, el.out + er.out)
    case FunCall(name) => EvalCall(h, fuel, name, c)
    case IfExpr(condition, ifBlock, NoElse) =>
      var ev := EvalExpr(h, fuel, condition, c);
      if ev.result.Err? then ev
      else if !ev.result.value.BooleanValue? then Evaluation(Err(ConditionNotBoolean), ev.chain, ev.out)
      else if ev.result.value.b then
        var eb := BlockLoop(h, fuel, ifBlock, 0, NullValue, [EmptyScope] + ev.chain, true);
        Evaluation(eb.result, eb.chain[1..], ev.out + eb.out)
      else Evaluation(Ok(NullValue), ev.chain, ev.out)
    case IfExpr(condition, ifBlock, Else(elseBlock)) =>
      var ev := EvalExpr(h, fuel, condition, c);
      if ev.result.Err? then ev
      else if !ev.result.value.BooleanValue? then Evaluation(Err(ConditionNotBoolean), ev.chain, ev.out)
      else
        var eb := if ev.result.value.b then BlockLoop(h, fuel, ifBlock, 0, NullValue, [EmptyScope] + ev.chain, true)
                  else BlockLoop(h, fuel, elseBlock, 0, NullValue, [EmptyScope] + ev.chain, false);
        Evaluation(eb.result, eb.chain[1..], ev.out + eb.out)
  }

  /** evalFunCall: the nearest function registered under `name` runs in a
      fresh scope above the caller's chain, with the caller's call slot for
      `name` set; the fresh scope is dropped and, unless the body failed, the
      slot cleared. Each call spends one unit of fuel. */
  function EvalCall(h: HostArith, fuel: nat, name: string, c: Chain): (r: Evaluation)
    requires |c| > 0
    ensures |r.chain| == |c|
    decreases fuel, FunCall(name), 0
  {
    match LookupFunIn(c, name)
    case Err(err) => Evaluation(Err(err), c, [])
    case Ok(body) =>
      if fuel == 0 then Evaluation(Err(OutOfFuel), c, [])
      else
        var called := SetFunEnvIn(c, name);
        var ec := CallLoop(h, fuel - 1, body, 0, NullValue, [EmptyScope] + called);
        if ec.result.Err? then Evaluation(ec.result, ec.chain[1..], ec.out)
        else
          Evaluation(ec.result, DestroyFunEnvIn(ec.chain[1..], name), ec.out)
  }

  /** The loop of evalProgram from statement i on, `last` being the latest value. */
  function ProgramLoop(h: HostArith, fuel: nat, body: seq<Stmt>, i: nat, last: RuntimeValue, c: Chain): (r: Evaluation)
    requires i <= |body| && |c| > 0
    ensures |r.chain| == |c|
    decreases fuel, body, |body| - i
  {
    if i == |body| then Evaluation(Ok(last), c, [])
    else
      var e := Eval(h, fuel, body[i], c);
      if e.result.Err? then e
      else if e.result.value.ReturnValue? then Evaluation(Ok(e.result.value.wrapped), e.chain, e.out)
      else
        var rest := ProgramLoop(h, fuel, body, i + 1, e.result.value, e.chain);
        Evaluation(rest.result, rest.chain, e.out + rest.out)
  }

  /** The loop of evalFunCall from statement i on, in the chain of the function's scope. */
  function CallLoop(h: HostArith, fuel: nat, body: seq<Stmt>, i: nat, last: RuntimeValue, c: Chain): (r: Evaluation)
    requires i <= |body| && |c| > 0
    ensures |r.chain| == |c|
    decreases fuel, body, |body| - i
  {
    if i == |body| then Evaluation(Ok(last), c, [])
    else if body[i].ReturnStmt? then
      match body[i].value
      case None => Evaluation(Ok(NullValue), c, [])
      case Some(e) =>
        assert body decreases to body[i]; assert body[i] decreases to body[i].value; assert body[i].value decreases to e;
        EvalExpr(h, fuel, e, c)
    else
      var e := Eval(h, fuel, body[i], c);
      if e.result.Err? then e
      else if e.result.value.ReturnValue? then Evaluation(Ok(e.result.value.wrapped), e.chain, e.out)
      else
        var rest := CallLoop(h, fuel, body, i + 1, e.result.value, e.chain);
        Evaluation(rest.result, rest.chain, e.out + rest.out)
  }

  /** The loops of evalIfExpr from statement i on, in a chain whose first scope
      is the block's own. Every statement runs; in the then-block
      (`thenBlock`) a return statement is evaluated in the enclosing chain. */
  function BlockLoop(h: HostArith, fuel: nat, block: seq<Stmt>, i: nat, last: RuntimeValue, c: Chain, thenBlock: bool): (r: Evaluation)
    requires i <= |block| && |c| > 1
    ensures |r.chain| == |c|
    decreases fuel, block, |block| - i
  {
    if i == |block| then Evaluation(Ok(last), c, [])
    else
      var e :=
        if thenBlock && block[i].ReturnStmt? then
          var er := Eval(h, fuel, block[i], c[1..]);
          Evaluation(er.result, [c[0]] + er.chain, er.out)
        else Eval(h, fuel, block[i], c);
      if e.result.Err? then e
      else
        var rest := BlockLoop(h, fuel, block, i + 1, e.result.value, e.chain, thenBlock);
        Evaluation(rest.result, rest.chain, e.out + rest.out)
  }

  /** One step of the call loop at a statement other than a return statement. */
  lemma CallLoopStep(h: HostArith, fuel: nat, body: seq<Stmt>, i: nat, last: RuntimeValue, c: Chain)
    requires i < |body| && |c| > 0 && !body[i].ReturnStmt?
    ensures var e := Eval(h, fuel, body[i], c);
      CallLoop(h, fuel, body, i, last, c) ==
        if e.result.Err? then e
        else if e.result.value.ReturnValue? then Evaluation(Ok(e.result.value.wrapped), e.chain, e.out)
        else Then(e.out, CallLoop(h, fuel, body, i + 1, e.result.value, e.chain))
  {
  }

  /** Statement i of a block: in the then-block a return statement runs in
      the enclosing chain and the block's own scope is kept in front. */
  function BlockStmt(h: HostArith, fuel: nat, block: seq<Stmt>, i: nat, c: Chain, thenBlock: bool): (e: Evaluation)
    requires i < |block| && |c| > 1
    ensures |e.chain| == |c|
    ensures thenBlock && block[i].ReturnStmt? ==> e.chain[0] == c[0]
  {
    if thenBlock && block[i].ReturnStmt? then
      var er := Eval(h, fuel, block[i], c[1..]);
      Evaluation(er.result, [c[0]] + er.chain, er.out)
    else Eval(h, fuel, block[i], c)
  }

  /** One step of a block loop. */
  lemma BlockLoopStep(h: HostArith, fuel: nat, block: seq<Stmt>, i: nat, last: RuntimeValue, c: Chain, thenBlock: bool)
    requires i < |block| && |c| > 1
    ensures var e := BlockStmt(h, fuel, block, i, c, thenBlock);
      BlockLoop(h, fuel, block, i, last, c, thenBlock) ==
        if e.result.Err? then e
        else Then(e.out, BlockLoop(h, fuel, block, i + 1, e.result.value, e.chain, thenBlock))
  {
  }

  /** A call of a declared function with fuel left. */
  lemma CallStep(h: HostArith, fuel: nat, name: string, c: Chain)
    requires |c| > 0 && fuel > 0 && LookupFunIn(c, name).Ok?
    ensures var ec := CallLoop(h, fuel - 1, LookupFunIn(c, name).value, 0, NullValue, [EmptyScope] + SetFunEnvIn(c, name));
      EvalExpr(h, fuel, FunCall(name), c) == EvalCall(h, fuel, name, c) ==
        if ec.result.Err? then Evaluation(ec.result, ec.chain[1..], ec.out)
        else Evaluation(ec.result, DestroyFunEnvIn(ec.chain[1..], name), ec.out)
  {
    var body := LookupFunIn(c, name).value;
    var ec := CallLoop(h, fuel - 1, body, 0, NullValue, [EmptyScope] + SetFunEnvIn(c, name));
    assert EvalCall(h, fuel, name, c) ==
        if ec.result.Err? then Evaluation(ec.result, ec.chain[1..], ec.out)
        else Evaluation(ec.result, DestroyFunEnvIn(ec.chain[1..], name), ec.out);
  }

  /** The two ways a call with fuel left can end, given how its body ran. */
  lemma CallOutcome(h: HostArith, fuel: nat, name: string, c: Chain, ec: Evaluation)
    requires |c| > 0 && fuel > 0 && LookupFunIn(c, name).Ok?
    requires ec == CallLoop(h, fuel - 1, LookupFunIn(c, name).value, 0, NullValue, [EmptyScope] + SetFunEnvIn(c, name))
    ensures ec.result.Err? ==> EvalCall(h, fuel, name, c) == Evaluation(ec.result, ec.chain[1..], ec.out)
    ensures ec.result.Ok? ==> EvalCall(h, fuel, name, c) == Evaluation(ec.result, DestroyFunEnvIn(ec.chain[1..], name), ec.out)
  {
    CallStep(h, fuel, name, c);
  }

  // The values of the language are Null and Int (and a return tag around
  // one of them): nothing produces a Boolean, so every if expression fails.

  lemma {:induction false} EvalKeepsPlain(h: HostArith, fuel: nat, s: Stmt, c: Chain)
    requires |c| > 0 && PlainChain(c)
    ensures var r := Eval(h, fuel, s, c);
      PlainChain(r.chain) && (r.result.Ok? ==> PlainOrReturned(r.result.value))
    decreases fuel, s, 0
  {
    match s
    case Program(body) => ProgramLoopKeepsPlain(h, fuel, body, 0, NullValue, c);
    case VarDeclaration(name, None) => PlainAfterDeclare(c, name, NullValue);
    case VarDeclaration(name, Some(e)) =>
      EvalExprKeepsPlain(h, fuel, e, c);
      var ev := EvalExpr(h, fuel, e, c);
      if ev.result.Ok? { PlainAfterDeclare(ev.chain, name, ev.result.value); }
    case VarAssignment(name, e) =>
      EvalExprKeepsPlain(h, fuel, e, c);
      var ev := EvalExpr(h, fuel, e, c);
      if ev.result.Ok? { PlainAfterAssign(ev.chain, name, ev.result.value); }
    case FunDeclaration(name, body) => PlainAfterDeclareFun(c, name, body);
    case PrintStmt(e) => EvalExprKeepsPlain(h, fuel, e, c);
    case ReturnStmt(None) =>
    case ReturnStmt(Some(e)) => EvalExprKeepsPlain(h, fuel, e, c);
    case ExprStmt(e) => EvalExprKeepsPlain(h, fuel, e, c);
  }

  lemma {:induction false} EvalExprKeepsPlain(h: HostArith, fuel: nat, e: Expr, c: Chain)
    requires |c| > 0 && PlainChain(c)
    ensures var r := EvalExpr(h, fuel, e, c);
      PlainChain(r.chain) && (r.result.Ok? ==> Plain(r.result.value)) && (e.IfExpr? ==> r.result.Err?)
    decreases fuel, e, 1
  {
    match e
    case IntLiteral(_) =>
    case NullLiteral =>
    case Identifier(name) =>
    case BinaryExpr(left, right, _) =>
      EvalExprKeepsPlain(h, fuel, left, c);
      var el := EvalExpr(h, fuel, left, c);
      if el.result.Ok? { EvalExprKeepsPlain(h, fuel, right, el.chain); }
    case FunCall(name) => EvalCallKeepsPlain(h, fuel, name, c);
    case IfExpr(condition, _, _) => EvalExprKeepsPlain(h, fuel, condition, c);
  }

  lemma {:induction false} EvalCallKeepsPlain(h: HostArith, fuel: nat, name: string, c: Chain)
    requires |c| > 0 && PlainChain(c)
    ensures var r := EvalCall(h, fuel, name, c);
      PlainChain(r.chain) && (r.result.Ok? ==> Plain(r.result.value))
    decreases fuel, FunCall(name), 0
  {
    match LookupFunIn(c, name)
    case Err(_) =>
    case Ok(body) =>
      if fuel > 0 {
        var called := SetFunEnvIn(c, name);
        var ec := CallLoop(h, fuel - 1, body, 0, NullValue, [EmptyScope] + called);
        PlainSlots(c, name); PlainPush(called);
        CallLoopKeepsPlain(h, fuel - 1, body, 0, NullValue, [EmptyScope] + called);
        PlainPop(ec.chain);
        CallOutcome(h, fuel, name, c, ec);
        var r := EvalCall(h, fuel, name, c);
        assert r.result == ec.result;
        if ec.result.Ok? {
          PlainSlots(ec.chain[1..], name);
          assert r.chain == DestroyFunEnvIn(ec.chain[1..], name);
        } else {
          assert r.chain == ec.chain[1..];
        }
      }
  }

  lemma {:induction false} ProgramLoopKeepsPlain(h: HostArith, fuel: nat, body: seq<Stmt>, i: nat, last: RuntimeValue, c: Chain)
    requires i <= |body| && |c| > 0 && PlainChain(c) && Plain(last)
    ensures var r := ProgramLoop(h, fuel, body, i, last, c);
      PlainChain(r.chain) && (r.result.Ok? ==> Plain(r.result.value))
    decreases fuel, body, |body| - i
  {
    if i < |body| {
      EvalKeepsPlain(h, fuel, body[i], c);
      var e := Eval(h, fuel, body[i], c);
      if e.result.Ok? && !e.result.value.ReturnValue? {
        ProgramLoopKeepsPlain(h, fuel, body, i + 1, e.result.value, e.chain);
      }
    }
  }

  lemma {:induction false} CallLoopKeepsPlain(h: HostArith, fuel: nat, body: seq<Stmt>, i: nat, last: RuntimeValue, c: Chain)
    requires i <= |body| && |c| > 0 && PlainChain(c) && Plain(last)
    ensures var r := CallLoop(h, fuel, body, i, last, c);
      PlainChain(r.chain) && (r.result.Ok? ==> Plain(r.result.value))
    decreases fuel, body, |body| - i
  {
    if i < |body| {
      if body[i].ReturnStmt? {
        match body[i].value
        case None =>
        case Some(e) =>
          assert body decreases to body[i]; assert body[i] decreases to body[i].value; assert body[i].value decreases to e;
          EvalExprKeepsPlain(h, fuel, e, c);
      } else {
        EvalKeepsPlain(h, fuel, body[i], c);
        var e := Eval(h, fuel, body[i], c);
        if e.result.Ok? && !e.result.value.ReturnValue? {
          CallLoopKeepsPlain(h, fuel, body, i + 1, e.result.value, e.chain);
        }
      }
    }
  }
}
