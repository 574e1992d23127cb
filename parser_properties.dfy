/** What the grammar of src/parser/parser.ts accepts and what it builds. */
module ParserProperties {
  import opened Wrappers
  import opened Tokens
  import opened Lexing
  import opened Ast
  import opened Grammar

  function Tok(kind: TokenType): Token { Token(kind, "") }

  // ---------------------------------------------------------------------------
  // Literals

  /** parseInt reads the longest run of digits at the start of the literal. */
  lemma {:induction false} LeadingDigitsMaximal(s: string)
    ensures var r := LeadingDigits(s);
      && |r| <= |s| && r == s[..|r|]
      && (forall k :: 0 <= k < |r| ==> IsDigit(r[k]))
      && (|r| < |s| ==> !IsDigit(s[|r|]))
  {
    if |s| > 0 && IsDigit(s[0]) {
      LeadingDigitsMaximal(s[1..]);
      var t := LeadingDigits(s[1..]);
      assert LeadingDigits(s) == [s[0]] + t;
      assert s[..|t| + 1] == [s[0]] + s[1..][..|t|];
    }
  }

  /** A literal made of digits only, as the lexer produces, is read whole. */
  lemma {:induction false} LeadingDigitsWhole(s: string)
    requires forall k :: 0 <= k < |s| ==> IsDigit(s[k])
    ensures LeadingDigits(s) == s
  {
    if |s| > 0 {
      LeadingDigitsWhole(s[1..]);
    }
  }

  /** parseInt of a digit string is its decimal value: one more digit
      multiplies by ten and adds the digit. */
  lemma ParseIntDecimal(s: string, c: char)
    requires forall k :: 0 <= k < |s| ==> IsDigit(s[k])
    requires IsDigit(c)
    ensures ParseInt(s + [c]) == ParseInt(s) * 10 + (c as int - '0' as int)
  {
    LeadingDigitsWhole(s);
    LeadingDigitsWhole(s + [c]);
    assert (s + [c])[..|s + [c]| - 1] == s;
  }

  lemma ParseIntExamples()
    ensures ParseInt("0") == 0 && ParseInt("7") == 7 && ParseInt("42") == 42
  {
    ParseIntDecimal("4", '2');
  }

  // ---------------------------------------------------------------------------
  // Expressions

  /** An operand of a binary operator is a primary expression in
      parentheses, a call, an identifier or an integer; every other token
      where a primary is expected stops the parser at that token. */
  lemma PrimaryRejects(toks: seq<Token>, i: nat)
    requires i < |toks| && toks[i].kind !in {TokenType.Identifier, Int, LeftParenthesis}
    ensures ParsePrimary(toks, i) == Err(UnexpectedToken(i))
  {
  }

  /** An identifier followed by `(` `)` is a call; followed by anything
      other than `(` it is a variable reference. */
  lemma PrimaryIdentifier(toks: seq<Token>, i: nat)
    requires i + 1 < |toks| && toks[i].kind == TokenType.Identifier
    ensures toks[i + 1].kind != LeftParenthesis ==>
      ParsePrimary(toks, i) == Ok((Expr.Identifier(toks[i].literal), i + 1))
    ensures toks[i + 1].kind == LeftParenthesis && i + 2 < |toks| && toks[i + 2].kind == RightParenthesis ==>
      ParsePrimary(toks, i) == Ok((FunCall(toks[i].literal), i + 3))
    ensures toks[i + 1].kind == LeftParenthesis && i + 2 < |toks| && toks[i + 2].kind != RightParenthesis ==>
      ParsePrimary(toks, i) == Err(UnexpectedToken(i + 2))
  {
  }

  /** Parentheses group: `(` e `)` is e itself, and a missing `)` is fatal. */
  lemma PrimaryParentheses(toks: seq<Token>, i: nat, e: Expr, j: nat)
    requires i < |toks| && toks[i].kind == LeftParenthesis
    requires ParseExpr(toks, i + 1) == Ok((e, j)) && j < |toks|
    ensures toks[j].kind == RightParenthesis ==> ParsePrimary(toks, i) == Ok((e, j + 1))
    ensures toks[j].kind != RightParenthesis ==> ParsePrimary(toks, i) == Err(UnexpectedToken(i))
  {
  }

  /** The additive loop folds to the left: after `a op b` the loop goes on
      with the combined expression as its left operand. */
  lemma AdditiveFoldsLeft(toks: seq<Token>, i: nat, a: Expr, j: nat, b: Expr, k: nat)
    requires i <= |toks|
    requires ParseMultiplicative(toks, i) == Ok((a, j))
    requires j < |toks| && toks[j].kind in {Plus, Minus}
    requires ParseMultiplicative(toks, j + 1) == Ok((b, k))
    ensures ParseAdditive(toks, i) == AdditiveTail(toks, BinaryExpr(a, b, toks[j].literal), k)
  {
  }

  /** The multiplicative loop folds to the left in the same way. */
  lemma MultiplicativeFoldsLeft(toks: seq<Token>, i: nat, a: Expr, j: nat, b: Expr, k: nat)
    requires i <= |toks|
    requires ParsePrimary(toks, i) == Ok((a, j))
    requires j < |toks| && toks[j].kind in {Asterisk, Slash}
    requires ParsePrimary(toks, j + 1) == Ok((b, k))
    ensures ParseMultiplicative(toks, i) == MultiplicativeTail(toks, BinaryExpr(a, b, toks[j].literal), k)
  {
  }

  /** A loop stops at the first token that is not one of its operators. */
  lemma TailStops(toks: seq<Token>, left: Expr, j: nat)
    requires j < |toks|
    ensures toks[j].kind !in {Plus, Minus} ==> AdditiveTail(toks, left, j) == Ok((left, j))
    ensures toks[j].kind !in {Asterisk, Slash} ==> MultiplicativeTail(toks, left, j) == Ok((left, j))
  {
  }

  /** An integer literal (at i) followed by a token that is no operator. */
  lemma IntOperand(toks: seq<Token>, i: nat)
    requires i + 1 < |toks| && toks[i].kind == Int
    ensures toks[i + 1].kind !in {Asterisk, Slash} ==>
      ParseMultiplicative(toks, i) == Ok((IntLiteral(ParseInt(toks[i].literal)), i + 1))
  {
    TailStops(toks, IntLiteral(ParseInt(toks[i].literal)), i + 1);
  }

  /** The operators the two loops look for. */
  predicate IsOperator(t: Token) {
    t.kind in {Plus, Minus, Asterisk, Slash}
  }

  /** Three integers joined by operators at positions 1 and 3, followed by
      a token that is no operator. */
  predicate ThreeOperands(toks: seq<Token>, a: string, op1: TokenType, b: string, op2: TokenType, c: string) {
    |toks| > 5 && toks[0] == Token(Int, a) && toks[1].kind == op1 && toks[2] == Token(Int, b)
    && toks[3].kind == op2 && toks[4] == Token(Int, c) && !IsOperator(toks[5])
  }

  /** `a - b - c` is (a - b) - c. */
  lemma SubtractionLeftAssociative(toks: seq<Token>, a: string, b: string, c: string)
    requires ThreeOperands(toks, a, Minus, b, Minus, c)
    ensures ParseExpr(toks, 0) ==
      Ok((BinaryExpr(BinaryExpr(IntLiteral(ParseInt(a)), IntLiteral(ParseInt(b)), toks[1].literal),
                     IntLiteral(ParseInt(c)), toks[3].literal), 5))
  {
    var ab := BinaryExpr(IntLiteral(ParseInt(a)), IntLiteral(ParseInt(b)), toks[1].literal);
    IntOperand(toks, 0);
    IntOperand(toks, 2);
    IntOperand(toks, 4);
    AdditiveFoldsLeft(toks, 0, IntLiteral(ParseInt(a)), 1, IntLiteral(ParseInt(b)), 3);
    assert AdditiveTail(toks, ab, 3) == AdditiveTail(toks, BinaryExpr(ab, IntLiteral(ParseInt(c)), toks[3].literal), 5);
    TailStops(toks, BinaryExpr(ab, IntLiteral(ParseInt(c)), toks[3].literal), 5);
  }

  /** `a + b * c` is a + (b * c): products bind tighter than sums. */
  lemma ProductBindsTighterRight(toks: seq<Token>, a: string, b: string, c: string)
    requires ThreeOperands(toks, a, Plus, b, Asterisk, c)
    ensures ParseExpr(toks, 0) ==
      Ok((BinaryExpr(IntLiteral(ParseInt(a)),
                     BinaryExpr(IntLiteral(ParseInt(b)), IntLiteral(ParseInt(c)), toks[3].literal), toks[1].literal), 5))
  {
    var bc := BinaryExpr(IntLiteral(ParseInt(b)), IntLiteral(ParseInt(c)), toks[3].literal);
    IntOperand(toks, 0);
    IntOperand(toks, 4);
    MultiplicativeFoldsLeft(toks, 2, IntLiteral(ParseInt(b)), 3, IntLiteral(ParseInt(c)), 5);
    TailStops(toks, bc, 5);
    AdditiveFoldsLeft(toks, 0, IntLiteral(ParseInt(a)), 1, bc, 5);
    TailStops(toks, BinaryExpr(IntLiteral(ParseInt(a)), bc, toks[1].literal), 5);
  }

  /** `a * b + c` is (a * b) + c. */
  lemma ProductBindsTighterLeft(toks: seq<Token>, a: string, b: string, c: string)
    requires ThreeOperands(toks, a, Asterisk, b, Plus, c)
    ensures ParseExpr(toks, 0) ==
      Ok((BinaryExpr(BinaryExpr(IntLiteral(ParseInt(a)), IntLiteral(ParseInt(b)), toks[1].literal),
                     IntLiteral(ParseInt(c)), toks[3].literal), 5))
  {
    var ab := BinaryExpr(IntLiteral(ParseInt(a)), IntLiteral(ParseInt(b)), toks[1].literal);
    IntOperand(toks, 2);
    IntOperand(toks, 4);
    MultiplicativeFoldsLeft(toks, 0, IntLiteral(ParseInt(a)), 1, IntLiteral(ParseInt(b)), 3);
    TailStops(toks, ab, 3);
    AdditiveFoldsLeft(toks, 0, ab, 3, IntLiteral(ParseInt(c)), 5);
    TailStops(toks, BinaryExpr(ab, IntLiteral(ParseInt(c)), toks[3].literal), 5);
  }

  // ---------------------------------------------------------------------------
  // Statements

  /** `let x;` declares without a value. */
  lemma DeclarationWithoutValue(toks: seq<Token>, i: nat)
    requires i + 2 < |toks|
    requires toks[i].kind == Let && toks[i + 1].kind == TokenType.Identifier && toks[i + 2].kind == Semicolon
    ensures ParseStmt(toks, i) == Ok((VarDeclaration(toks[i + 1].literal, None), i + 3))
  {
  }

  /** `let x = e;` declares with the value e. */
  lemma DeclarationWithValue(toks: seq<Token>, i: nat, e: Expr, j: nat)
    requires i + 2 < |toks|
    requires toks[i].kind == Let && toks[i + 1].kind == TokenType.Identifier && toks[i + 2].kind == Assign
    requires ParseExpr(toks, i + 3) == Ok((e, j))
    ensures j < |toks| && toks[j].kind == Semicolon ==>
      ParseStmt(toks, i) == Ok((VarDeclaration(toks[i + 1].literal, Some(e)), j + 1))
    ensures j < |toks| && toks[j].kind != Semicolon ==> ParseStmt(toks, i) == Err(UnexpectedToken(j))
  {
  }

  /** After `let`, anything but an identifier is fatal, and after the name
      anything but `;` or `=` is fatal. */
  lemma DeclarationErrors(toks: seq<Token>, i: nat)
    requires i + 1 < |toks| && toks[i].kind == Let
    ensures toks[i + 1].kind != TokenType.Identifier ==> ParseStmt(toks, i) == Err(UnexpectedToken(i + 1))
    ensures toks[i + 1].kind == TokenType.Identifier && i + 2 < |toks| && toks[i + 2].kind !in {Semicolon, Assign} ==>
      ParseStmt(toks, i) == Err(UnexpectedToken(i + 2))
  {
  }

  /** An identifier starts an assignment exactly when the next token is `=`;
      otherwise the statement is the expression that starts there. */
  lemma AssignmentLookahead(toks: seq<Token>, i: nat)
    requires i + 1 < |toks| && toks[i].kind == TokenType.Identifier
    ensures toks[i + 1].kind != Assign ==>
      ParseStmt(toks, i) == (var e :- ParseExpr(toks, i); Ok((ExprStmt(e.0), e.1)))
    ensures toks[i + 1].kind == Assign ==>
      ParseStmt(toks, i) ==
        (var value :- ParseExpr(toks, i + 2);
         var semi :- ExpectAt(toks, value.1, Semicolon);
         Ok((VarAssignment(toks[i].literal, value.0), semi.1)))
  {
  }

  /** `print e;` and `return e;`: the expression is required, and so is the `;`. */
  lemma PrintAndReturn(toks: seq<Token>, i: nat, e: Expr, j: nat)
    requires i < |toks| && toks[i].kind in {Print, Return}
    requires ParseExpr(toks, i + 1) == Ok((e, j)) && j < |toks|
    ensures toks[j].kind == Semicolon && toks[i].kind == Print ==> ParseStmt(toks, i) == Ok((PrintStmt(e), j + 1))
    ensures toks[j].kind == Semicolon && toks[i].kind == Return ==> ParseStmt(toks, i) == Ok((ReturnStmt(Some(e)), j + 1))
    ensures toks[j].kind != Semicolon ==> ParseStmt(toks, i) == Err(UnexpectedToken(j))
  {
  }

  /** `return;` is not accepted: return always carries an expression. */
  lemma BareReturnRejected(toks: seq<Token>, i: nat)
    requires i + 1 < |toks| && toks[i].kind == Return && toks[i + 1].kind == Semicolon
    ensures ParseStmt(toks, i) == Err(UnexpectedToken(i + 1))
  {
    SemicolonIsNoExpression(toks, i + 1);
  }

  /** A `;` where an expression is expected stops the parser there. */
  lemma SemicolonIsNoExpression(toks: seq<Token>, i: nat)
    requires i < |toks| && toks[i].kind == Semicolon
    ensures ParseExpr(toks, i) == Err(UnexpectedToken(i))
    ensures ParseStmt(toks, i) == Err(UnexpectedToken(i))
  {
    assert ParsePrimary(toks, i) == Err(UnexpectedToken(i));
    assert ParseMultiplicative(toks, i) == Err(UnexpectedToken(i));
    assert ParseAdditive(toks, i) == Err(UnexpectedToken(i));
  }

  /** `fun NAME ( ) { body }`: the name is whatever token follows `fun`, and
      the body runs to the matching closing brace. */
  lemma FunDeclarationShape(toks: seq<Token>, i: nat, body: seq<Stmt>, j: nat)
    requires i + 4 < |toks| && toks[i].kind == Function
    requires toks[i + 2].kind == LeftParenthesis && toks[i + 3].kind == RightParenthesis
    requires toks[i + 4].kind == LeftBrace
    requires FunBodyFrom(toks, i + 5, []) == Ok((body, j))
    ensures ParseStmt(toks, i) == Ok((FunDeclaration(toks[i + 1].literal, body), j))
  {
  }

  /** Any token other than let, an identifier, fun, print and return starts
      an expression statement. */
  lemma ExpressionStatement(toks: seq<Token>, i: nat)
    requires i < |toks| && toks[i].kind !in {Let, TokenType.Identifier, Function, Print, Return}
    ensures ParseStmt(toks, i) == (var e :- ParseExpr(toks, i); Ok((ExprStmt(e.0), e.1)))
  {
  }

  /** A statement that does not begin with a keyword or an identifier is an
      expression statement, and its `;` is not consumed. */
  lemma ExpressionStatementLeavesSemicolon(toks: seq<Token>, i: nat)
    requires i + 1 < |toks| && toks[i].kind == Int && toks[i + 1].kind == Semicolon
    ensures ParseStmt(toks, i) == Ok((ExprStmt(IntLiteral(ParseInt(toks[i].literal))), i + 1))
  {
    var lit := IntLiteral(ParseInt(toks[i].literal));
    IntOperand(toks, i);
    TailStops(toks, lit, i + 1);
    assert ParseAdditive(toks, i) == AdditiveTail(toks, lit, i + 1) == Ok((lit, i + 1));
    assert ParseExpr(toks, i) == Ok((lit, i + 1));
  }

  // ---------------------------------------------------------------------------
  // Sequences of statements

  function PrependBody(acc: seq<Stmt>, r: Result<Stmt, ParseError>): Result<Stmt, ParseError>
    requires r.Ok? ==> r.value.Program?
  {
    match r
    case Ok(p) => Ok(Program(acc + p.body))
    case Err(e) => Err(e)
  }

  /** The program loop only appends: what it has gathered so far stays, in
      order, in front of what it parses from i on. */
  lemma PrependBodyTwice(acc: seq<Stmt>, s: Stmt, r: Result<Stmt, ParseError>)
    requires r.Ok? ==> r.value.Program?
    ensures PrependBody(acc, PrependBody([s], r)) == PrependBody(acc + [s], r)
  {
    if r.Ok? {
      assert acc + [s] + r.value.body == acc + ([s] + r.value.body);
    }
  }

  /** One turn of the program loop. */
  lemma ProgramFromStep(toks: seq<Token>, i: nat, acc: seq<Stmt>)
    requires i < |toks| && toks[i].kind != EOF
    ensures ProgramFrom(toks, i, acc) ==
      (var s :- ParseStmt(toks, i); ProgramFrom(toks, s.1, acc + [s.0]))
  {
  }

  lemma {:induction false} ProgramFromAppends(toks: seq<Token>, i: nat, acc: seq<Stmt>)
    requires i <= |toks|
    ensures ProgramFrom(toks, i, acc) == PrependBody(acc, ProgramFrom(toks, i, []))
    decreases |toks| - i
  {
    if i >= |toks| {
    } else if toks[i].kind == EOF {
      assert acc + [] == acc;
    } else {
      var s := ParseStmt(toks, i);
      ProgramFromStep(toks, i, acc);
      ProgramFromStep(toks, i, []);
      if s.Ok? {
        var (stmt, j) := s.value;
        assert [] + [stmt] == [stmt];
        ProgramFromAppends(toks, j, acc + [stmt]);
        ProgramFromAppends(toks, j, [stmt]);
        PrependBodyTwice(acc, stmt, ProgramFrom(toks, j, []));
      }
    }
  }

  /** produceAST reads the statements in source order: the first statement
      of the body is the one parsed at the start, followed by the rest. */
  lemma ProgramInSourceOrder(toks: seq<Token>, i: nat, s: Stmt, j: nat)
    requires i < |toks| && toks[i].kind != EOF
    requires ParseStmt(toks, i) == Ok((s, j))
    ensures ProgramFrom(toks, i, []) == PrependBody([s], ProgramFrom(toks, j, []))
  {
    ProgramFromStep(toks, i, []);
    assert [] + [s] == [s];
    ProgramFromAppends(toks, j, [s]);
  }

  /** An empty token list cannot even be asked whether it is at its end;
      a lone EOF is the empty program. */
  lemma ProgramEnds()
    ensures ProduceAST([]) == Err(EndOfTokens)
    ensures ProduceAST([Tok(EOF)]) == Ok(Program([]))
  {
  }

  function PrependStmts(acc: seq<Stmt>, r: Parse<seq<Stmt>>): Parse<seq<Stmt>> {
    match r
    case Ok((b, j)) => Ok((acc + b, j))
    case Err(e) => Err(e)
  }

  /** The function-body loop only appends, like the program loop. */
  lemma PrependStmtsTwice(acc: seq<Stmt>, s: Stmt, r: Parse<seq<Stmt>>)
    ensures PrependStmts(acc, PrependStmts([s], r)) == PrependStmts(acc + [s], r)
  {
    if r.Ok? {
      assert acc + [s] + r.value.0 == acc + ([s] + r.value.0);
    }
  }

  /** One turn of the function-body loop. */
  lemma FunBodyStep(toks: seq<Token>, j: nat, acc: seq<Stmt>)
    requires j < |toks| && toks[j].kind != RightBrace
    ensures FunBodyFrom(toks, j, acc) ==
      (var s :- ParseStmt(toks, j); FunBodyFrom(toks, s.1, acc + [s.0]))
  {
  }

  lemma {:induction false} FunBodyAppends(toks: seq<Token>, j: nat, acc: seq<Stmt>)
    requires j <= |toks|
    ensures FunBodyFrom(toks, j, acc) == PrependStmts(acc, FunBodyFrom(toks, j, []))
    decreases |toks| - j
  {
    if j >= |toks| {
    } else if toks[j].kind == RightBrace {
      assert acc + [] == acc;
    } else {
      var s := ParseStmt(toks, j);
      FunBodyStep(toks, j, acc);
      FunBodyStep(toks, j, []);
      if s.Ok? {
        var (stmt, k) := s.value;
        assert [] + [stmt] == [stmt];
        FunBodyAppends(toks, k, acc + [stmt]);
        FunBodyAppends(toks, k, [stmt]);
        PrependStmtsTwice(acc, stmt, FunBodyFrom(toks, k, []));
      }
    }
  }

  /** The body of a function is its statements in source order. */
  lemma FunBodyInSourceOrder(toks: seq<Token>, j: nat, s: Stmt, k: nat)
    requires j < |toks| && toks[j].kind != RightBrace
    requires ParseStmt(toks, j) == Ok((s, k))
    ensures FunBodyFrom(toks, j, []) == PrependStmts([s], FunBodyFrom(toks, k, []))
  {
    FunBodyStep(toks, j, []);
    assert [] + [s] == [s];
    FunBodyAppends(toks, k, [s]);
  }

  /** Since an expression statement leaves its `;`, a program made of one
      stops the parser at that `;`. */
  lemma ExpressionProgramRejected(lit: string)
    ensures ProduceAST([Token(Int, lit), Tok(Semicolon), Tok(EOF)]) == Err(UnexpectedToken(1))
  {
    var toks := [Token(Int, lit), Tok(Semicolon), Tok(EOF)];
    ExpressionStatementLeavesSemicolon(toks, 0);
    SemicolonIsNoExpression(toks, 1);
    ProgramFromStep(toks, 0, []);
    ProgramFromStep(toks, 1, [ExprStmt(IntLiteral(ParseInt(lit)))]);
  }
}
