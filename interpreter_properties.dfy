/** Properties of evaluation, stated on the Semantics functions (which the
    Interpreter methods are proved to follow). */
module InterpreterProperties {
  import opened Wrappers
  import opened Ast
  import opened Values
  import opened Environments
  import opened Semantics
  import EnvironmentProperties

  /** An empty program yields Null and changes nothing. */
  lemma ProgramEmpty(h: HostArith, fuel: nat, c: Chain)
    requires |c| > 0
    ensures Eval(h, fuel, Program([]), c) == Evaluation(Ok(NullValue), c, [])
  {
  }

  /** A program runs its first statement, then the rest in the scopes it left,
      printing in that order; a plain result is overwritten by what follows. */
  lemma ProgramRunsInOrder(h: HostArith, fuel: nat, s: Stmt, rest: seq<Stmt>, c: Chain)
    requires |c| > 0
    requires Eval(h, fuel, s, c).result.Ok? && !Eval(h, fuel, s, c).result.value.ReturnValue?
    ensures var e := Eval(h, fuel, s, c);
      Eval(h, fuel, Program([s] + rest), c) == Then(e.out, ProgramLoop(h, fuel, [s] + rest, 1, e.result.value, e.chain))
  {
  }

  /** The first return-tagged result ends the program with its payload; the
      statements after it do not run and print nothing. */
  lemma ProgramStopsAtReturn(h: HostArith, fuel: nat, s: Stmt, rest: seq<Stmt>, c: Chain)
    requires |c| > 0
    requires Eval(h, fuel, s, c).result.Ok? && Eval(h, fuel, s, c).result.value.ReturnValue?
    ensures var e := Eval(h, fuel, s, c);
      Eval(h, fuel, Program([s] + rest), c) == Evaluation(Ok(e.result.value.wrapped), e.chain, e.out)
  {
  }

  /** Two integer operands give the operator's result. */
  lemma BinaryOfIntegers(h: HostArith, fuel: nat, a: int, b: int, c: Chain)
    requires |c| > 0
    ensures EvalExpr(h, fuel, BinaryExpr(IntLiteral(a), IntLiteral(b), "+"), c) == Evaluation(Ok(IntValue(a + b)), c, [])
    ensures EvalExpr(h, fuel, BinaryExpr(IntLiteral(a), IntLiteral(b), "-"), c) == Evaluation(Ok(IntValue(a - b)), c, [])
    ensures EvalExpr(h, fuel, BinaryExpr(IntLiteral(a), IntLiteral(b), "*"), c) == Evaluation(Ok(IntValue(a * b)), c, [])
    ensures EvalExpr(h, fuel, BinaryExpr(IntLiteral(a), IntLiteral(b), "/"), c) == Evaluation(Ok(IntValue(h.divide(a, b))), c, [])
    ensures EvalExpr(h, fuel, BinaryExpr(IntLiteral(a), IntLiteral(b), "^"), c) == Evaluation(Ok(IntValue(h.remainder(a, b))), c, [])
  {
  }

  /** A null operand makes the whole expression null, whatever the operator. */
  lemma BinaryWithNull(h: HostArith, fuel: nat, e: Expr, operator: string, c: Chain)
    requires |c| > 0 && EvalExpr(h, fuel, e, c).result.Ok?
    ensures EvalExpr(h, fuel, BinaryExpr(NullLiteral, e, operator), c).result == Ok(NullValue)
    ensures EvalExpr(h, fuel, BinaryExpr(e, NullLiteral, operator), c).result == Ok(NullValue)
  {
  }

  /** An operand's return tag is removed once, not repeatedly. */
  lemma BinaryUnwrapsOnce(h: HostArith, a: int, b: int)
    ensures BinaryResult(h, ReturnValue(IntValue(a)), IntValue(b), "+") == IntValue(a + b)
    ensures BinaryResult(h, IntValue(a), ReturnValue(IntValue(b)), "*") == IntValue(a * b)
    ensures BinaryResult(h, ReturnValue(ReturnValue(IntValue(a))), IntValue(b), "+") == NullValue
  {
  }

  /** The left operand is evaluated first and an error there is final: the
      right operand is not evaluated. */
  lemma BinaryLeftFirst(h: HostArith, fuel: nat, left: Expr, right: Expr, operator: string, c: Chain)
    requires |c| > 0 && EvalExpr(h, fuel, left, c).result.Err?
    ensures EvalExpr(h, fuel, BinaryExpr(left, right, operator), c) == EvalExpr(h, fuel, left, c)
  {
  }

  /** `let x;` binds Null; `let x = e;` binds e's value; both give the value bound. */
  lemma DeclarationBinds(h: HostArith, fuel: nat, name: string, e: Expr, c: Chain)
    requires |c| > 0 && name !in c[0].variables
    ensures Eval(h, fuel, VarDeclaration(name, None), c).result == Ok(NullValue)
    ensures LookupVarIn(Eval(h, fuel, VarDeclaration(name, None), c).chain, name) == Ok(NullValue)
    ensures var ev := EvalExpr(h, fuel, e, c);
      ev.result.Ok? && name !in ev.chain[0].variables ==>
        Eval(h, fuel, VarDeclaration(name, Some(e)), c).result == ev.result &&
        LookupVarIn(Eval(h, fuel, VarDeclaration(name, Some(e)), c).chain, name) == ev.result
  {
    EnvironmentProperties.DeclareThenLookup(c, name, NullValue);
    var ev := EvalExpr(h, fuel, e, c);
    if ev.result.Ok? && name !in ev.chain[0].variables {
      EnvironmentProperties.DeclareThenLookup(ev.chain, name, ev.result.value);
    }
  }

  /** Declaring a name already bound in the current scope is fatal. */
  lemma RedeclarationFails(h: HostArith, fuel: nat, name: string, c: Chain)
    requires |c| > 0 && name in c[0].variables
    ensures Eval(h, fuel, VarDeclaration(name, None), c).result == Err(AlreadyDeclared(name))
  {
  }

  /** Assigning a name no scope binds is fatal; assigning a bound one makes
      its lookup give the new value. */
  lemma AssignmentUpdates(h: HostArith, fuel: nat, name: string, e: Expr, c: Chain)
    requires |c| > 0 && EvalExpr(h, fuel, e, c).result.Ok?
    ensures var ev := EvalExpr(h, fuel, e, c);
      var r := Eval(h, fuel, VarAssignment(name, e), c);
      (LookupVarIn(ev.chain, name).Err? ==> r.result == Err(Unresolved(name))) &&
      (LookupVarIn(ev.chain, name).Ok? ==> r.result == ev.result && LookupVarIn(r.chain, name) == ev.result)
  {
    var ev := EvalExpr(h, fuel, e, c);
    if AssignVarIn(ev.chain, name, ev.result.value).Ok? {
      EnvironmentProperties.AssignThenLookup(ev.chain, name, ev.result.value);
    }
  }

  /** A function declaration registers its body in the current scope and gives Null. */
  lemma FunDeclarationRegisters(h: HostArith, fuel: nat, name: string, body: seq<Stmt>, c: Chain)
    requires |c| > 0 && name !in c[0].functions
    ensures Eval(h, fuel, FunDeclaration(name, body), c).result == Ok(NullValue)
    ensures LookupFunIn(Eval(h, fuel, FunDeclaration(name, body), c).chain, name) == Ok(body)
  {
  }

  /** A call of an undeclared function is fatal. */
  lemma CallOfUndeclared(h: HostArith, fuel: nat, name: string, c: Chain)
    requires |c| > 0 && forall k :: 0 <= k < |c| ==> name !in c[k].functions
    ensures EvalExpr(h, fuel, FunCall(name), c).result == Err(UnresolvedFunction(name))
  {
  }

  /** A return statement at the top level of a call body ends the call: its
      expression is evaluated in the function's scope and its value, untagged,
      is the call's; the statements after it neither run nor print. Without an
      expression the call gives Null. */
  lemma CallStopsAtReturn(h: HostArith, fuel: nat, body: seq<Stmt>, i: nat, last: RuntimeValue, c: Chain)
    requires i < |body| && |c| > 0 && body[i].ReturnStmt?
    ensures body[i].value.None? ==> CallLoop(h, fuel, body, i, last, c) == Evaluation(Ok(NullValue), c, [])
    ensures body[i].value.Some? ==> CallLoop(h, fuel, body, i, last, c) == EvalExpr(h, fuel, body[i].value.value, c)
  {
  }

  /** A function body runs in a fresh scope whose parent is the calling scope:
      a body that starts with `return x;` gives the caller's `x`, whatever
      follows. */
  lemma CallSeesCallerScope(h: HostArith, fuel: nat, f: string, x: string, c: Chain)
    requires |c| > 0 && fuel > 0 && LookupFunIn(c, f).Ok?
    requires |LookupFunIn(c, f).value| > 0 && LookupFunIn(c, f).value[0] == ReturnStmt(Some(Identifier(x)))
    requires LookupVarIn(c, x).Ok?
    ensures EvalExpr(h, fuel, FunCall(f), c).result == LookupVarIn(c, x)
  {
    var body := LookupFunIn(c, f).value;
    var inner := [EmptyScope] + SetFunEnvIn(c, f);
    CallVariables(c, f);
    CallStep(h, fuel, f, c);
    CallStopsAtReturn(h, fuel - 1, body, 0, NullValue, inner);
    assert LookupVarIn(inner, x) == LookupVarIn(c, x);
  }

  /** The scope of a call is gone once it returns: a variable the body
      declares is not visible to the caller, and the call slot is cleared. */
  lemma CallScopeDiscarded(h: HostArith, fuel: nat, f: string, y: string, n: int, c: Chain)
    requires |c| > 0 && fuel > 0
    requires LookupFunIn(c, f) == Ok([VarDeclaration(y, Some(IntLiteral(n)))])
    requires LookupVarIn(c, y).Err?
    ensures EvalExpr(h, fuel, FunCall(f), c).result == Ok(IntValue(n))
    ensures LookupVarIn(EvalExpr(h, fuel, FunCall(f), c).chain, y).Err?
    ensures f !in EvalExpr(h, fuel, FunCall(f), c).chain[0].funEnvs
  {
    var body := [VarDeclaration(y, Some(IntLiteral(n)))];
    var called := SetFunEnvIn(c, f);
    var inner := [EmptyScope] + called;
    var d := DeclareVarIn(inner, y, IntValue(n)).value;
    assert Eval(h, fuel - 1, body[0], inner) == Evaluation(Ok(IntValue(n)), d, []);
    CallLoopStep(h, fuel - 1, body, 0, NullValue, inner);
    assert CallLoop(h, fuel - 1, body, 1, IntValue(n), d) == Evaluation(Ok(IntValue(n)), d, []);
    assert CallLoop(h, fuel - 1, body, 0, NullValue, inner) == Evaluation(Ok(IntValue(n)), d, []);
    assert d[1..] == called;
    var r := DestroyFunEnvIn(called, f);
    CallStep(h, fuel, f, c);
    forall k | 0 <= k < |c| ensures r[k].variables == c[k].variables {
      if k > 0 { assert r[k] == r[1..][k - 1] == called[1..][k - 1] == c[k]; }
    }
  }

  /** The scope a call runs in binds the caller's variables, and only those. */
  lemma CallVariables(c: Chain, f: string)
    requires |c| > 0
    ensures forall x :: LookupVarIn([EmptyScope] + SetFunEnvIn(c, f), x) == LookupVarIn(c, x)
  {
    var inner := [EmptyScope] + SetFunEnvIn(c, f);
    forall x ensures LookupVarIn(inner, x) == LookupVarIn(c, x) {
      match ResolveIndex(c, x)
      case None =>
        assert forall k :: 0 <= k < |inner| ==> x !in inner[k].variables by {
          forall k | 0 <= k < |inner| ensures x !in inner[k].variables {
            if k > 1 { assert inner[k] == c[k - 1]; }
          }
        }
      case Some(k) =>
        assert inner[k + 1].variables == c[k].variables;
        forall j | 0 <= j < k + 1 ensures x !in inner[j].variables {
          if j > 1 { assert inner[j] == c[j - 1]; }
        }
        EnvironmentProperties.ResolveIndexNearest(inner, x, k + 1);
    }
  }

  /** A call with no fuel left is the OutOfFuel error. */
  lemma CallWithoutFuel(h: HostArith, name: string, c: Chain)
    requires |c| > 0 && LookupFunIn(c, name).Ok?
    ensures EvalExpr(h, 0, FunCall(name), c).result == Err(OutOfFuel)
  {
  }

  /** A return statement tags the value of its expression; without one it tags Null. */
  lemma ReturnWraps(h: HostArith, fuel: nat, e: Expr, c: Chain)
    requires |c| > 0
    ensures Eval(h, fuel, ReturnStmt(None), c).result == Ok(ReturnValue(NullValue))
    ensures EvalExpr(h, fuel, e, c).result.Ok? ==>
      Eval(h, fuel, ReturnStmt(Some(e)), c).result == Ok(ReturnValue(EvalExpr(h, fuel, e, c).result.value))
  {
  }

  /** print emits its argument's value, whatever its tag, after the argument's
      own output, and gives Null. */
  lemma PrintAppends(h: HostArith, fuel: nat, e: Expr, c: Chain)
    requires |c| > 0 && EvalExpr(h, fuel, e, c).result.Ok?
    ensures Eval(h, fuel, PrintStmt(e), c).result == Ok(NullValue)
    ensures Eval(h, fuel, PrintStmt(e), c).out == EvalExpr(h, fuel, e, c).out + [EvalExpr(h, fuel, e, c).result.value]
  {
  }

  /** Starting from an empty scope, no expression ever yields a Boolean, so
      every if expression is fatal, and a program yields Null or an Int. */
  lemma {:induction false} NoBooleans(h: HostArith, fuel: nat, body: seq<Stmt>, e: Expr)
    ensures var r := Eval(h, fuel, Program(body), [EmptyScope]);
      r.result.Ok? ==> r.result.value.NullValue? || r.result.value.IntValue?
    ensures e.IfExpr? ==> EvalExpr(h, fuel, e, [EmptyScope]).result.Err?
    ensures EvalExpr(h, fuel, e, [EmptyScope]).result.Ok? ==> !EvalExpr(h, fuel, e, [EmptyScope]).result.value.BooleanValue?
  {
    assert PlainChain([EmptyScope]);
    ProgramLoopKeepsPlain(h, fuel, body, 0, NullValue, [EmptyScope]);
    EvalExprKeepsPlain(h, fuel, e, [EmptyScope]);
  }

  const ReturnThenPrint: seq<Stmt> := [ReturnStmt(Some(IntLiteral(1))), PrintStmt(IntLiteral(2))]

  /** In a then-block a return statement does not end the block: its
      expression is evaluated in the enclosing scope, the block's own scope is
      kept, and the loop goes on at the next statement with the return-tagged
      value as the last one. */
  lemma ReturnInBlock(h: HostArith, fuel: nat, block: seq<Stmt>, i: nat, last: RuntimeValue, cc: Chain, e: Expr)
    requires i < |block| && |cc| > 1 && block[i] == ReturnStmt(Some(e))
    ensures var er := EvalExpr(h, fuel, e, cc[1..]);
      er.result.Ok? ==>
        BlockLoop(h, fuel, block, i, last, cc, true) ==
        Then(er.out, BlockLoop(h, fuel, block, i + 1, ReturnValue(er.result.value), [cc[0]] + er.chain, true))
  {
    BlockLoopStep(h, fuel, block, i, last, cc, true);
  }

  /** For the block `return 1; print 2;`, the statement after the return
      still runs and prints. */
  lemma PrintAfterReturn(h: HostArith, fuel: nat, cc: Chain)
    requires |cc| > 1
    ensures BlockLoop(h, fuel, ReturnThenPrint, 1, ReturnValue(IntValue(1)), cc, true) ==
      Evaluation(Ok(NullValue), cc, [IntValue(2)])
  {
    assert EvalExpr(h, fuel, IntLiteral(2), cc) == Evaluation(Ok(IntValue(2)), cc, []);
    assert [] + [IntValue(2)] == [IntValue(2)];
    assert BlockStmt(h, fuel, ReturnThenPrint, 1, cc, true) == Evaluation(Ok(NullValue), cc, [IntValue(2)]);
    BlockLoopStep(h, fuel, ReturnThenPrint, 1, ReturnValue(IntValue(1)), cc, true);
  }

  /** Were a condition Boolean true, every statement of the then-block would
      run: a return statement does not end the block. */
  lemma IfRunsWholeBlock(h: HostArith, fuel: nat, b: string, c: Chain)
    requires |c| > 0 && LookupVarIn(c, b) == Ok(BooleanValue(true))
    ensures var r := EvalExpr(h, fuel, IfExpr(Identifier(b), ReturnThenPrint, NoElse), c);
      r.result == Ok(NullValue) && r.out == [IntValue(2)] && r.chain == c
  {
    var cc := [EmptyScope] + c;
    ReturnInBlock(h, fuel, ReturnThenPrint, 0, NullValue, cc, IntLiteral(1));
    assert [cc[0]] + cc[1..] == cc;
    PrintAfterReturn(h, fuel, cc);
    assert cc[1..] == c;
  }

  /** A false condition with no else block gives Null. */
  lemma IfFalseWithoutElse(h: HostArith, fuel: nat, b: string, thenBlock: seq<Stmt>, c: Chain)
    requires |c| > 0 && LookupVarIn(c, b) == Ok(BooleanValue(false))
    ensures EvalExpr(h, fuel, IfExpr(Identifier(b), thenBlock, NoElse), c) == Evaluation(Ok(NullValue), c, [])
  {
  }
}
