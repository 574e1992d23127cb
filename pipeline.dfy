/** Source text through the scanner, the parser and the evaluator composed:
    scan, build the program, evaluate it in one empty scope. The entry point
    src/main.ts never does this (it only scans a file and logs the tokens);
    these lemmas connect stages that the source leaves unconnected. */
module Pipeline {
  import opened Wrappers
  import opened Tokens
  import opened Lexing
  import opened LexerProperties
  import opened Ast
  import opened Grammar
  import opened ParserProperties
  import opened Values
  import opened Environments
  import opened Semantics
  import opened InterpreterProperties

  const ArithmeticTokens: seq<Token> :=
    [Token(Int, "1"), Token(Plus, "+"), Token(Int, "2"), Token(Asterisk, "*"),
     Token(Int, "3"), Token(Semicolon, ";"), Token(EOF, "")]

  const Arithmetic: Expr := BinaryExpr(IntLiteral(1), BinaryExpr(IntLiteral(2), IntLiteral(3), "*"), "+")

  /** The tokens of `1 + 2 * 3;` start the expression statement 1 + (2 * 3),
      which ends before the `;`. */
  lemma ArithmeticStatement(toks: seq<Token>)
    requires toks == ArithmeticTokens
    ensures ParseStmt(toks, 0) == Ok((ExprStmt(Arithmetic), 5))
  {
    assert ParseInt("1") == 1 && ParseInt("2") == 2 && ParseInt("3") == 3;
    ProductBindsTighterRight(toks, "1", "2", "3");
    assert ParseExpr(toks, 0) == Ok((Arithmetic, 5));
    ExpressionStatement(toks, 0);
  }

  /** ... and the `;` then cannot start a statement. */
  lemma ArithmeticTokensRejected(toks: seq<Token>)
    requires toks == ArithmeticTokens
    ensures ProduceAST(toks) == Err(UnexpectedToken(5))
  {
    ArithmeticStatement(toks);
    SemicolonIsNoExpression(toks, 5);
    ProgramFromStep(toks, 0, []);
    ProgramFromStep(toks, 5, [ExprStmt(Arithmetic)]);
  }

  /** `1 + 2 * 3;` as a whole program is rejected at its `;`. */
  lemma ArithmeticProgramRejected()
    ensures ProduceAST(Scan("1 + 2 * 3;")) == Err(UnexpectedToken(5))
  {
    ScanArithmetic("1 + 2 * 3;");
    ArithmeticTokensRejected(Scan("1 + 2 * 3;"));
  }

  lemma ScanPrintProductTail(s: string)
    requires s == "print 6 * 7;"
    ensures ScanFrom(s, 7) == [Token(Asterisk, "*"), Token(Int, "7"), Token(Semicolon, ";"), Token(EOF, "")]
  {
    assert ScanFrom(s, 10) == [Token(Int, "7"), Token(Semicolon, ";"), Token(EOF, "")] by {
      ScanPunctuation(s, 11);
      ScanNumber(s, 10, 11);
      assert s[10..11] == "7";
    }
    ScanSkips(s, 9);
    ScanPunctuation(s, 8);
    ScanSkips(s, 7);
  }

  lemma ScanPrintProductOperands(s: string)
    requires s == "print 6 * 7;"
    ensures ScanFrom(s, 5) == PrintProductTokens[1..]
  {
    ScanPrintProductTail(s);
    ScanNumber(s, 6, 7);
    assert s[6..7] == "6";
    ScanSkips(s, 5);
  }

  lemma ScanPrintProduct(s: string)
    requires s == "print 6 * 7;"
    ensures Scan(s) == PrintProductTokens
  {
    ScanPrintProductOperands(s);
    assert WordKind("print") == Print by {
      KeywordMapContents();
    }
    assert s[0..5] == "print";
    ScanWord(s, 0, 5);
  }

  const PrintProductTokens: seq<Token> :=
    [Token(Print, "print"), Token(Int, "6"), Token(Asterisk, "*"), Token(Int, "7"),
     Token(Semicolon, ";"), Token(EOF, "")]

  const Product: Expr := BinaryExpr(IntLiteral(6), IntLiteral(7), "*")

  lemma ParsePrintProduct(toks: seq<Token>)
    requires toks == PrintProductTokens
    ensures ProduceAST(toks) == Ok(Program([PrintStmt(Product)]))
  {
    assert ParseInt("6") == 6 && ParseInt("7") == 7;
    IntOperand(toks, 3);
    MultiplicativeFoldsLeft(toks, 1, IntLiteral(6), 2, IntLiteral(7), 4);
    TailStops(toks, Product, 4);
    assert ParseExpr(toks, 1) == Ok((Product, 4));
    PrintAndReturn(toks, 0, Product, 4);
    assert ParseStmt(toks, 0) == Ok((PrintStmt(Product), 5));
    ProgramFromStep(toks, 0, []);
    assert [] + [PrintStmt(Product)] == [PrintStmt(Product)];
    assert |toks| == 6 && toks[5].kind == EOF;
    assert ProgramFrom(toks, 5, [PrintStmt(Product)]) == Ok(Program([PrintStmt(Product)]));
  }

  lemma RunPrintProduct(h: HostArith, fuel: nat)
    ensures Eval(h, fuel, Program([PrintStmt(Product)]), [EmptyScope]) ==
      Evaluation(Ok(NullValue), [EmptyScope], [IntValue(42)])
  {
    BinaryOfIntegers(h, fuel, 6, 7, [EmptyScope]);
    PrintAppends(h, fuel, Product, [EmptyScope]);
    ProgramRunsInOrder(h, fuel, PrintStmt(Product), [], [EmptyScope]);
    assert [PrintStmt(Product)] + [] == [PrintStmt(Product)];
  }

  /** `print 6 * 7;` is one print statement, and running it prints 42 and
      leaves the single scope as it was. */
  lemma PrintProduct(h: HostArith, fuel: nat)
    ensures ProduceAST(Scan("print 6 * 7;")) == Ok(Program([PrintStmt(Product)]))
    ensures Eval(h, fuel, ProduceAST(Scan("print 6 * 7;")).value, [EmptyScope]) ==
      Evaluation(Ok(NullValue), [EmptyScope], [IntValue(42)])
  {
    ScanPrintProduct("print 6 * 7;");
    ParsePrintProduct(Scan("print 6 * 7;"));
    RunPrintProduct(h, fuel);
  }
}
