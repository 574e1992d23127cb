/** The grammar of the recursive-descent parser (src/parser/parser.ts).

    The functions here say what each parse routine does when called at
    token position `i`: the node it builds and the position after it, or the
    fatal error. The source stops the process on a token of the wrong kind
    (UnexpectedToken); reading past the last token gives `undefined`, whose
    `type` the source then reads, a TypeError (EndOfTokens). The Parser class
    (module Parsing) runs the same routines on a mutable index and is proved
    to agree with these functions. */
module Grammar {
  import opened Wrappers
  import opened Tokens
  import opened Lexing
  import opened Ast

  datatype ParseError = UnexpectedToken(at: nat) | EndOfTokens

  type Parse<T> = Result<(T, nat), ParseError>

  // ---------------------------------------------------------------------------
  // Literals

  /** parseInt on a token literal: the decimal value of its leading digits. */
  function LeadingDigits(s: string): string {
    if |s| == 0 || !IsDigit(s[0]) then "" else [s[0]] + LeadingDigits(s[1..])
  }

  function DigitsValue(s: string): (n: nat)
    decreases |s|
  {
    if |s| == 0 then 0 else DigitsValue(s[..|s| - 1]) * 10 + DigitOf(s[|s| - 1])
  }

  function DigitOf(c: char): (d: nat)
    ensures IsDigit(c) ==> d < 10
  {
    if IsDigit(c) then (c as int - '0' as int) else 0
  }

  function ParseInt(literal: string): nat {
    DigitsValue(LeadingDigits(literal))
  }

  // ---------------------------------------------------------------------------
  // What the parser produces

  /** Expressions the parser can build: no if expressions (the parser has no
      rule for them) and no null literals (that rule is commented out). */
  predicate ParsedExpr(e: Expr) {
    match e
    case IntLiteral(_) => true
    case Identifier(_) => true
    case FunCall(_) => true
    case BinaryExpr(l, r, _) => ParsedExpr(l) && ParsedExpr(r)
    case NullLiteral => false
    case IfExpr(_, _, _) => false
  }

  /** Statements the parser can build: no nested programs, and a return
      statement always carries an expression. */
  predicate ParsedStmt(s: Stmt) {
    match s
    case Program(_) => false
    case VarDeclaration(_, None) => true
    case VarDeclaration(_, Some(e)) => ParsedExpr(e)
    case VarAssignment(_, e) => ParsedExpr(e)
    case FunDeclaration(_, body) => forall k :: 0 <= k < |body| ==> ParsedStmt(body[k])
    case PrintStmt(e) => ParsedExpr(e)
    case ReturnStmt(None) => false
    case ReturnStmt(Some(e)) => ParsedExpr(e)
    case ExprStmt(e) => ParsedExpr(e)
  }

  /** A parse that succeeds moves forward and stays within the tokens. */
  ghost predicate Advances<T>(r: Parse<T>, toks: seq<Token>, i: nat) {
    r.Ok? ==> i < r.value.1 <= |toks|
  }

  // ---------------------------------------------------------------------------
  // Grammar

  /** expect(kind) at position i. */
  function ExpectAt(toks: seq<Token>, i: nat, kind: TokenType): (r: Parse<Token>)
    ensures r.Ok? <==> i < |toks| && toks[i].kind == kind
    ensures r.Ok? ==> r.value == (toks[i], i + 1)
    ensures i >= |toks| ==> r == Err(EndOfTokens)
  {
    if i >= |toks| then Err(EndOfTokens)
    else if toks[i].kind == kind then Ok((toks[i], i + 1))
    else Err(UnexpectedToken(i))
  }

  function ParseExpr(toks: seq<Token>, i: nat): (r: Parse<Expr>)
    requires i <= |toks|
    ensures Advances(r, toks, i) && (r.Ok? ==> ParsedExpr(r.value.0))
    decreases |toks| - i, 4
  {
    ParseAdditive(toks, i)
  }

  function ParseAdditive(toks: seq<Token>, i: nat): (r: Parse<Expr>)
    requires i <= |toks|
    ensures Advances(r, toks, i) && (r.Ok? ==> ParsedExpr(r.value.0))
    decreases |toks| - i, 3
  {
    var left :- ParseMultiplicative(toks, i);
    AdditiveTail(toks, left.0, left.1)
  }

  /** The loop of parseAdditiveExpr after its left operand, ending before `j`. */
  function AdditiveTail(toks: seq<Token>, left: Expr, j: nat): (r: Parse<Expr>)
    requires j <= |toks|
    ensures r.Ok? ==> j <= r.value.1 <= |toks|
    ensures r.Ok? && ParsedExpr(left) ==> ParsedExpr(r.value.0)
    decreases |toks| - j, 5
  {
    if j >= |toks| then Err(EndOfTokens)
    else if toks[j].kind == Plus || toks[j].kind == Minus then
      var right :- ParseMultiplicative(toks, j + 1);
      AdditiveTail(toks, BinaryExpr(left, right.0, toks[j].literal), right.1)
    else Ok((left, j))
  }

  function ParseMultiplicative(toks: seq<Token>, i: nat): (r: Parse<Expr>)
    requires i <= |toks|
    ensures Advances(r, toks, i) && (r.Ok? ==> ParsedExpr(r.value.0))
    decreases |toks| - i, 2
  {
    var left :- ParsePrimary(toks, i);
    MultiplicativeTail(toks, left.0, left.1)
  }

  /** The loop of parseMultiplicative after its left operand. */
  function MultiplicativeTail(toks: seq<Token>, left: Expr, j: nat): (r: Parse<Expr>)
    requires j <= |toks|
    ensures r.Ok? ==> j <= r.value.1 <= |toks|
    ensures r.Ok? && ParsedExpr(left) ==> ParsedExpr(r.value.0)
    decreases |toks| - j, 5
  {
    if j >= |toks| then Err(EndOfTokens)
    else if toks[j].kind == Asterisk || toks[j].kind == Slash then
      var right :- ParsePrimary(toks, j + 1);
      MultiplicativeTail(toks, BinaryExpr(left, right.0, toks[j].literal), right.1)
    else Ok((left, j))
  }

  /** The cases of the two operator loops, spelled out for the parser
      object's proof. */
  lemma AdditiveCases(toks: seq<Token>, i: nat)
    requires i <= |toks|
    ensures var left := ParseMultiplicative(toks, i);
      && (left.Err? ==> ParseAdditive(toks, i) == Err(left.error))
      && (left.Ok? ==> ParseAdditive(toks, i) == AdditiveTail(toks, left.value.0, left.value.1))
  {
  }

  lemma AdditiveTailCases(toks: seq<Token>, left: Expr, j: nat)
    requires j <= |toks|
    ensures j == |toks| ==> AdditiveTail(toks, left, j) == Err(EndOfTokens)
    ensures j < |toks| && toks[j].kind != Plus && toks[j].kind != Minus ==> AdditiveTail(toks, left, j) == Ok((left, j))
  {
  }

  /** One turn of the loop: `right` is what the operand parser returned from
      j + 1 and k the position it left the cursor at. */
  lemma AdditiveTailStep(toks: seq<Token>, left: Expr, j: nat, right: Result<Expr, ParseError>, k: nat)
    requires j < |toks| && (toks[j].kind == Plus || toks[j].kind == Minus)
    requires Agrees(right, ParseMultiplicative(toks, j + 1), k)
    ensures right.Err? ==> AdditiveTail(toks, left, j) == Err(right.error)
    ensures right.Ok? ==> AdditiveTail(toks, left, j) == AdditiveTail(toks, BinaryExpr(left, right.value, toks[j].literal), k)
  {
  }

  lemma MultiplicativeCases(toks: seq<Token>, i: nat)
    requires i <= |toks|
    ensures var left := ParsePrimary(toks, i);
      && (left.Err? ==> ParseMultiplicative(toks, i) == Err(left.error))
      && (left.Ok? ==> ParseMultiplicative(toks, i) == MultiplicativeTail(toks, left.value.0, left.value.1))
  {
  }

  lemma MultiplicativeTailCases(toks: seq<Token>, left: Expr, j: nat)
    requires j <= |toks|
    ensures j == |toks| ==> MultiplicativeTail(toks, left, j) == Err(EndOfTokens)
    ensures j < |toks| && toks[j].kind != Asterisk && toks[j].kind != Slash ==> MultiplicativeTail(toks, left, j) == Ok((left, j))
  {
  }

  /** One turn of the loop: `right` is what the operand parser returned from
      j + 1 and k the position it left the cursor at. */
  lemma MultiplicativeTailStep(toks: seq<Token>, left: Expr, j: nat, right: Result<Expr, ParseError>, k: nat)
    requires j < |toks| && (toks[j].kind == Asterisk || toks[j].kind == Slash)
    requires Agrees(right, ParsePrimary(toks, j + 1), k)
    ensures right.Err? ==> MultiplicativeTail(toks, left, j) == Err(right.error)
    ensures right.Ok? ==> MultiplicativeTail(toks, left, j) == MultiplicativeTail(toks, BinaryExpr(left, right.value, toks[j].literal), k)
  {
  }

  function ParsePrimary(toks: seq<Token>, i: nat): (r: Parse<Expr>)
    requires i <= |toks|
    ensures Advances(r, toks, i) && (r.Ok? ==> ParsedExpr(r.value.0))
    ensures r.Ok? ==> toks[i].kind in {TokenType.Identifier, Int, LeftParenthesis}
    decreases |toks| - i, 1
  {
    if i >= |toks| then Err(EndOfTokens)
    else
      var current := toks[i];
      if current.kind == TokenType.Identifier then
        if i + 1 >= |toks| then Err(EndOfTokens)
        else if toks[i + 1].kind == LeftParenthesis then ParseFunCall(toks, current, i + 1)
        else Ok((Expr.Identifier(current.literal), i + 1))
      else if current.kind == Int then Ok((IntLiteral(ParseInt(current.literal)), i + 1))
      else if current.kind == LeftParenthesis then
        var inner :- ParseExpr(toks, i + 1);
        if inner.1 >= |toks| then Err(EndOfTokens)
        else if toks[inner.1].kind == RightParenthesis then Ok((inner.0, inner.1 + 1))
        else Err(UnexpectedToken(i))
      else Err(UnexpectedToken(i))
  }

  /** parseFunCall, with `(` at position j. */
  function ParseFunCall(toks: seq<Token>, ident: Token, j: nat): (r: Parse<Expr>)
    requires j < |toks|
    ensures r.Ok? <==> j + 1 < |toks| && toks[j + 1].kind == RightParenthesis
    ensures r.Ok? ==> r.value == (FunCall(ident.literal), j + 2)
  {
    var close :- ExpectAt(toks, j + 1, RightParenthesis);
    Ok((FunCall(ident.literal), close.1))
  }

  function ParseStmt(toks: seq<Token>, i: nat): (r: Parse<Stmt>)
    requires i <= |toks|
    ensures Advances(r, toks, i) && (r.Ok? ==> ParsedStmt(r.value.0))
    decreases |toks| - i, 10
  {
    if i >= |toks| then Err(EndOfTokens)
    else
      var kind := toks[i].kind;
      if kind == Let then ParseVarDeclaration(toks, i)
      else if kind == TokenType.Identifier then ParseVarAssignment(toks, i)
      else if kind == Function then ParseFunDeclaration(toks, i)
      else if kind == Print then ParsePrint(toks, i)
      else if kind == Return then ParseReturnStmt(toks, i)
      else
        var e :- ParseExpr(toks, i);
        Ok((ExprStmt(e.0), e.1))
  }

  function ParseVarDeclaration(toks: seq<Token>, i: nat): (r: Parse<Stmt>)
    requires i < |toks|
    ensures Advances(r, toks, i) && (r.Ok? ==> ParsedStmt(r.value.0) && r.value.0.VarDeclaration?)
    decreases |toks| - i, 9
  {
    var name :- ExpectAt(toks, i + 1, TokenType.Identifier);
    if name.1 >= |toks| then Err(EndOfTokens)
    else if toks[name.1].kind == Semicolon then Ok((VarDeclaration(name.0.literal, None), name.1 + 1))
    else
      var equal :- ExpectAt(toks, name.1, Assign);
      var value :- ParseExpr(toks, equal.1);
      var semi :- ExpectAt(toks, value.1, Semicolon);
      Ok((VarDeclaration(name.0.literal, Some(value.0)), semi.1))
  }

  function ParseVarAssignment(toks: seq<Token>, i: nat): (r: Parse<Stmt>)
    requires i < |toks|
    ensures Advances(r, toks, i) && (r.Ok? ==> ParsedStmt(r.value.0))
    decreases |toks| - i, 9
  {
    var name := toks[i].literal;
    if i + 1 >= |toks| then Err(EndOfTokens)
    else if toks[i + 1].kind == Assign then
      var value :- ParseExpr(toks, i + 2);
      var semi :- ExpectAt(toks, value.1, Semicolon);
      Ok((VarAssignment(name, value.0), semi.1))
    else
      var e :- ParseExpr(toks, i);
      Ok((ExprStmt(e.0), e.1))
  }

  function ParseFunDeclaration(toks: seq<Token>, i: nat): (r: Parse<Stmt>)
    requires i < |toks|
    ensures Advances(r, toks, i) && (r.Ok? ==> ParsedStmt(r.value.0) && r.value.0.FunDeclaration?)
    decreases |toks| - i, 9
  {
    if i + 1 >= |toks| then Err(EndOfTokens)
    else
      var funName := toks[i + 1];
      var open :- ExpectAt(toks, i + 2, LeftParenthesis);
      var close :- ExpectAt(toks, open.1, RightParenthesis);
      var brace :- ExpectAt(toks, close.1, LeftBrace);
      var body :- FunBodyFrom(toks, brace.1, []);
      Ok((FunDeclaration(funName.literal, body.0), body.1))
  }

  /** The loop of parseFunDeclaration: statements up to the closing brace,
      appended to `acc`, and the position after the brace. */
  function FunBodyFrom(toks: seq<Token>, j: nat, acc: seq<Stmt>): (r: Parse<seq<Stmt>>)
    requires j <= |toks|
    ensures r.Ok? ==> j < r.value.1 <= |toks|
    ensures r.Ok? && (forall k :: 0 <= k < |acc| ==> ParsedStmt(acc[k])) ==>
      forall k :: 0 <= k < |r.value.0| ==> ParsedStmt(r.value.0[k])
    decreases |toks| - j, 11
  {
    if j >= |toks| then Err(EndOfTokens)
    else if toks[j].kind == RightBrace then Ok((acc, j + 1))
    else
      var s :- ParseStmt(toks, j);
      FunBodyFrom(toks, s.1, acc + [s.0])
  }

  /** How parseFunDeclaration ends, by the first of its steps that fails. */
  lemma FunDeclarationCases(toks: seq<Token>, i: nat)
    requires i < |toks|
    ensures i + 1 >= |toks| ==> ParseFunDeclaration(toks, i) == Err(EndOfTokens)
    ensures i + 1 < |toks| && ExpectAt(toks, i + 2, LeftParenthesis).Err? ==>
      ParseFunDeclaration(toks, i) == Err(ExpectAt(toks, i + 2, LeftParenthesis).error)
    ensures i + 1 < |toks| && ExpectAt(toks, i + 2, LeftParenthesis).Ok? && ExpectAt(toks, i + 3, RightParenthesis).Err? ==>
      ParseFunDeclaration(toks, i) == Err(ExpectAt(toks, i + 3, RightParenthesis).error)
    ensures i + 1 < |toks| && ExpectAt(toks, i + 2, LeftParenthesis).Ok? && ExpectAt(toks, i + 3, RightParenthesis).Ok? &&
            ExpectAt(toks, i + 4, LeftBrace).Err? ==>
      ParseFunDeclaration(toks, i) == Err(ExpectAt(toks, i + 4, LeftBrace).error)
    ensures i + 1 < |toks| && ExpectAt(toks, i + 2, LeftParenthesis).Ok? && ExpectAt(toks, i + 3, RightParenthesis).Ok? &&
            ExpectAt(toks, i + 4, LeftBrace).Ok? ==>
      var body := FunBodyFrom(toks, i + 5, []);
      && (body.Err? ==> ParseFunDeclaration(toks, i) == Err(body.error))
      && (body.Ok? ==> ParseFunDeclaration(toks, i) == Ok((FunDeclaration(toks[i + 1].literal, body.value.0), body.value.1)))
  {
  }

  lemma FunBodyStops(toks: seq<Token>, j: nat, acc: seq<Stmt>)
    requires j <= |toks|
    ensures j == |toks| ==> FunBodyFrom(toks, j, acc) == Err(EndOfTokens)
    ensures j < |toks| && toks[j].kind == RightBrace ==> FunBodyFrom(toks, j, acc) == Ok((acc, j + 1))
  {
  }

  /** One turn of the body loop: `s` is what the statement parser returned
      from j and k the position it left the cursor at. */
  lemma FunBodyTurn(toks: seq<Token>, j: nat, acc: seq<Stmt>, s: Result<Stmt, ParseError>, k: nat)
    requires j < |toks| && toks[j].kind != RightBrace
    requires Agrees(s, ParseStmt(toks, j), k)
    ensures s.Err? ==> FunBodyFrom(toks, j, acc) == Err(s.error)
    ensures s.Ok? ==> FunBodyFrom(toks, j, acc) == FunBodyFrom(toks, k, acc + [s.value])
  {
  }

  function ParsePrint(toks: seq<Token>, i: nat): (r: Parse<Stmt>)
    requires i < |toks|
    ensures Advances(r, toks, i) && (r.Ok? ==> ParsedStmt(r.value.0) && r.value.0.PrintStmt?)
    decreases |toks| - i, 9
  {
    var e :- ParseExpr(toks, i + 1);
    var semi :- ExpectAt(toks, e.1, Semicolon);
    Ok((PrintStmt(e.0), semi.1))
  }

  function ParseReturnStmt(toks: seq<Token>, i: nat): (r: Parse<Stmt>)
    requires i < |toks|
    ensures Advances(r, toks, i) && (r.Ok? ==> ParsedStmt(r.value.0) && r.value.0.ReturnStmt?)
    decreases |toks| - i, 9
  {
    var e :- ParseExpr(toks, i + 1);
    var semi :- ExpectAt(toks, e.1, Semicolon);
    Ok((ReturnStmt(Some(e.0)), semi.1))
  }

  /** The loop of produceAST from position i, the statements so far in `acc`. */
  function ProgramFrom(toks: seq<Token>, i: nat, acc: seq<Stmt>): (r: Result<Stmt, ParseError>)
    requires i <= |toks|
    ensures r.Ok? ==> r.value.Program?
    ensures r.Ok? && (forall k :: 0 <= k < |acc| ==> ParsedStmt(acc[k])) ==>
      forall k :: 0 <= k < |r.value.body| ==> ParsedStmt(r.value.body[k])
    decreases |toks| - i
  {
    if i >= |toks| then Err(EndOfTokens)
    else if toks[i].kind == EOF then Ok(Program(acc))
    else
      var s :- ParseStmt(toks, i);
      ProgramFrom(toks, s.1, acc + [s.0])
  }

  function ProduceAST(toks: seq<Token>): (r: Result<Stmt, ParseError>)
    ensures r.Ok? ==> r.value.Program? && forall k :: 0 <= k < |r.value.body| ==> ParsedStmt(r.value.body[k])
  {
    ProgramFrom(toks, 0, [])
  }

  /** A result of a routine agrees with the grammar's when both fail alike,
      or both give the same node and the index is where the grammar ends. */
  predicate Agrees<T(==)>(r: Result<T, ParseError>, spec: Parse<T>, index: nat) {
    if spec.Ok? then r == Ok(spec.value.0) && index == spec.value.1
    else r == Err(spec.error)
  }
}
