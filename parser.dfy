/** The parser object of src/parser/parser.ts: a token list and a cursor
    that the parse routines move forward. Each routine is proved to agree
    with the grammar function of the same name in module Grammar. */
module Parsing {
  import opened Wrappers
  import opened Tokens
  import opened Ast
  import opened Grammar

  class Parser {
    const tokens: seq<Token>
    var index: nat

    constructor (tokens: seq<Token>)
      ensures this.tokens == tokens && index == 0
    {
      this.tokens := tokens;
      index := 0;
    }

    /** peek: the current token, None past the end. */
    function Peek(): (t: Option<Token>)
      reads this
      ensures t.Some? <==> index < |tokens|
      ensures t.Some? ==> t.value == tokens[index]
    {
      if index < |tokens| then Some(tokens[index]) else None
    }

    /** peekNext: the token after the current one. */
    function PeekNext(): (t: Option<Token>)
      reads this
      ensures t.Some? <==> index + 1 < |tokens|
      ensures t.Some? ==> t.value == tokens[index + 1]
    {
      if index + 1 < |tokens| then Some(tokens[index + 1]) else None
    }

    /** The kind of the current token; reading it past the end is fatal. */
    function PeekKind(): (r: Result<TokenType, ParseError>)
      reads this
      ensures r.Ok? <==> index < |tokens|
      ensures r.Ok? ==> r.value == tokens[index].kind
    {
      match Peek()
      case None => Err(EndOfTokens)
      case Some(t) => Ok(t.kind)
    }

    /** isEOF: whether the current token is EOF; fatal past the end. */
    function IsEOF(): (r: Result<bool, ParseError>)
      reads this
      ensures r.Ok? <==> index < |tokens|
      ensures r.Ok? ==> (r.value <==> tokens[index].kind == EOF)
    {
      var kind :- PeekKind();
      Ok(kind == EOF)
    }

    method Advance() returns (t: Option<Token>)
      modifies this
      ensures index == old(index) + 1
      ensures t == old(Peek())
    {
      t := Peek();
      index := index + 1;
    }

    method Expect(expectedType: TokenType) returns (r: Result<Token, ParseError>)
      modifies this
      ensures index == old(index) + 1
      ensures Agrees(r, ExpectAt(tokens, old(index), expectedType), index)
    {
      var parsed := Advance();
      if parsed.None? {
        return Err(EndOfTokens);
      }
      if parsed.value.kind == expectedType {
        return Ok(parsed.value);
      }
      r := Err(UnexpectedToken(index - 1));
    }

    method ProduceAST() returns (r: Result<Stmt, ParseError>)
      requires index == 0
      modifies this
      ensures r == Grammar.ProduceAST(tokens)
    {
      var body: seq<Stmt> := [];
      var eof :- IsEOF();
      while !eof
        invariant index <= |tokens|
        invariant ProgramFrom(tokens, index, body) == Grammar.ProduceAST(tokens)
        invariant index < |tokens| && eof == (tokens[index].kind == EOF)
        decreases |tokens| - index
      {
        var s :- ParseStmt();
        body := body + [s];
        eof :- IsEOF();
      }
      r := Ok(Program(body));
    }

    method ParseStmt() returns (r: Result<Stmt, ParseError>)
      requires index <= |tokens|
      modifies this
      ensures Agrees(r, Grammar.ParseStmt(tokens, old(index)), index)
      decreases |tokens| - index, 10
    {
      var kind :- PeekKind();
      if kind == Let {
        r := ParseVarDeclaration();
      } else if kind == TokenType.Identifier {
        r := ParseVarAssignment();
      } else if kind == Function {
        r := ParseFunDeclaration();
      } else if kind == Print {
        r := ParsePrint();
      } else if kind == Return {
        r := ParseReturnStmt();
      } else {
        var e :- ParseExpr();
        r := Ok(ExprStmt(e));
      }
    }

    method ParseVarDeclaration() returns (r: Result<Stmt, ParseError>)
      requires index < |tokens|
      modifies this
      ensures Agrees(r, Grammar.ParseVarDeclaration(tokens, old(index)), index)
      decreases |tokens| - index, 9
    {
      var letToken := Advance();
      var varName :- Expect(TokenType.Identifier);
      var next :- PeekKind();
      if next == Semicolon {
        var _ := Advance();
        return Ok(VarDeclaration(varName.literal, None));
      }
      var equal :- Expect(Assign);
      var valExpr :- ParseExpr();
      var semi :- Expect(Semicolon);
      r := Ok(VarDeclaration(varName.literal, Some(valExpr)));
    }

    method ParseVarAssignment() returns (r: Result<Stmt, ParseError>)
      requires index < |tokens|
      modifies this
      ensures Agrees(r, Grammar.ParseVarAssignment(tokens, old(index)), index)
      decreases |tokens| - index, 9
    {
      var varName := Peek().value.literal;
      var next := PeekNext();
      if next.None? {
        return Err(EndOfTokens);
      }
      if next.value.kind == Assign {
        var _ := Advance();
        var _ := Advance();
        var valExpr :- ParseExpr();
        var semi :- Expect(Semicolon);
        return Ok(VarAssignment(varName, valExpr));
      }
      var e :- ParseExpr();
      r := Ok(ExprStmt(e));
    }

    method ParseFunDeclaration() returns (r: Result<Stmt, ParseError>)
      requires index < |tokens|
      modifies this
      ensures Agrees(r, Grammar.ParseFunDeclaration(tokens, old(index)), index)
      decreases |tokens| - index, 9
    {
      FunDeclarationCases(tokens, index);
      var _ := Advance();
      var funName := Advance();
      if funName.None? {
        return Err(EndOfTokens);
      }
      var _ :- Expect(LeftParenthesis);
      var _ :- Expect(RightParenthesis);
      var _ :- Expect(LeftBrace);
      assert index == old(index) + 5;
      assert ExpectAt(tokens, old(index) + 2, LeftParenthesis).Ok? && ExpectAt(tokens, old(index) + 3, RightParenthesis).Ok? &&
             ExpectAt(tokens, old(index) + 4, LeftBrace).Ok?;
      var body :- FunBody();
      r := Ok(FunDeclaration(funName.value.literal, body));
    }

    /** The loop of parseFunDeclaration: statements up to the closing brace,
        which it then consumes. */
    method FunBody() returns (r: Result<seq<Stmt>, ParseError>)
      requires index <= |tokens|
      modifies this
      ensures Agrees(r, FunBodyFrom(tokens, old(index), []), index)
      decreases |tokens| - index, 11
    {
      var body: seq<Stmt> := [];
      FunBodyStops(tokens, index, body);
      var kind :- PeekKind();
      while kind != RightBrace
        invariant old(index) <= index < |tokens|
        invariant FunBodyFrom(tokens, index, body) == FunBodyFrom(tokens, old(index), [])
        invariant kind == tokens[index].kind
        decreases |tokens| - index
      {
        ghost var at := index;
        var funStmt := ParseStmt();
        FunBodyTurn(tokens, at, body, funStmt, index);
        if funStmt.Err? {
          return Err(funStmt.error);
        }
        body := body + [funStmt.value];
        FunBodyStops(tokens, index, body);
        kind :- PeekKind();
      }
      FunBodyStops(tokens, index, body);
      var _ := Advance();
      r := Ok(body);
    }

    method ParsePrint() returns (r: Result<Stmt, ParseError>)
      requires index < |tokens|
      modifies this
      ensures Agrees(r, Grammar.ParsePrint(tokens, old(index)), index)
      decreases |tokens| - index, 9
    {
      var _ := Advance();
      var expr :- ParseExpr();
      var _ :- Expect(Semicolon);
      r := Ok(PrintStmt(expr));
    }

    method ParseReturnStmt() returns (r: Result<Stmt, ParseError>)
      requires index < |tokens|
      modifies this
      ensures Agrees(r, Grammar.ParseReturnStmt(tokens, old(index)), index)
      decreases |tokens| - index, 9
    {
      var _ := Advance();
      var value :- ParseExpr();
      var _ :- Expect(Semicolon);
      r := Ok(ReturnStmt(Some(value)));
    }

    method ParseExpr() returns (r: Result<Expr, ParseError>)
      requires index <= |tokens|
      modifies this
      ensures Agrees(r, Grammar.ParseExpr(tokens, old(index)), index)
      decreases |tokens| - index, 4
    {
      r := ParseAdditiveExpr();
    }

    method ParseAdditiveExpr() returns (r: Result<Expr, ParseError>)
      requires index <= |tokens|
      modifies this
      ensures Agrees(r, Grammar.ParseAdditive(tokens, old(index)), index)
      decreases |tokens| - index, 3
    {
      AdditiveCases(tokens, index);
      var left :- ParseMultiplicative();
      r := AdditiveLoop(left);
    }

    /** The loop of parseAdditiveExpr: while the current token is `+` or `-`,
        read the operator and the next operand and combine to the left. */
    method AdditiveLoop(first: Expr) returns (r: Result<Expr, ParseError>)
      requires index <= |tokens|
      modifies this
      ensures Agrees(r, AdditiveTail(tokens, first, old(index)), index)
      decreases |tokens| - index, 5
    {
      var left := first;
      while true
        invariant old(index) <= index <= |tokens|
        invariant AdditiveTail(tokens, left, index) == AdditiveTail(tokens, first, old(index))
        decreases |tokens| - index
      {
        AdditiveTailCases(tokens, left, index);
        var next := Peek();
        if next.None? {
          return Err(EndOfTokens);
        }
        if next.value.kind != Plus && next.value.kind != Minus {
          return Ok(left);
        }
        ghost var at := index;
        var operator := Advance();
        var right := ParseMultiplicative();
        AdditiveTailStep(tokens, left, at, right, index);
        if right.Err? {
          return Err(right.error);
        }
        left := BinaryExpr(left, right.value, operator.value.literal);
      }
    }

    method ParseMultiplicative() returns (r: Result<Expr, ParseError>)
      requires index <= |tokens|
      modifies this
      ensures Agrees(r, Grammar.ParseMultiplicative(tokens, old(index)), index)
      decreases |tokens| - index, 2
    {
      MultiplicativeCases(tokens, index);
      var left :- ParsePrimary();
      r := MultiplicativeLoop(left);
    }

    /** The loop of parseMultiplicative: while the current token is `*` or `/`,
        read the operator and the next operand and combine to the left. */
    method MultiplicativeLoop(first: Expr) returns (r: Result<Expr, ParseError>)
      requires index <= |tokens|
      modifies this
      ensures Agrees(r, MultiplicativeTail(tokens, first, old(index)), index)
      decreases |tokens| - index, 5
    {
      var left := first;
      while true
        invariant old(index) <= index <= |tokens|
        invariant MultiplicativeTail(tokens, left, index) == MultiplicativeTail(tokens, first, old(index))
        decreases |tokens| - index
      {
        MultiplicativeTailCases(tokens, left, index);
        var next := Peek();
        if next.None? {
          return Err(EndOfTokens);
        }
        if next.value.kind != Asterisk && next.value.kind != Slash {
          return Ok(left);
        }
        ghost var at := index;
        var operator := Advance();
        var right := ParsePrimary();
        MultiplicativeTailStep(tokens, left, at, right, index);
        if right.Err? {
          return Err(right.error);
        }
        left := BinaryExpr(left, right.value, operator.value.literal);
      }
    }

    method ParsePrimary() returns (r: Result<Expr, ParseError>)
      requires index <= |tokens|
      modifies this
      ensures Agrees(r, Grammar.ParsePrimary(tokens, old(index)), index)
      decreases |tokens| - index, 1
    {
      var start := index;
      var currentToken := Advance();
      if currentToken.None? {
        return Err(EndOfTokens);
      }
      var current := currentToken.value;
      if current.kind == TokenType.Identifier {
        var next :- PeekKind();
        if next == LeftParenthesis {
          r := ParseFunCall(current);
        } else {
          r := Ok(Expr.Identifier(current.literal));
        }
      } else if current.kind == Int {
        r := Ok(IntLiteral(ParseInt(current.literal)));
      } else if current.kind == LeftParenthesis {
        var expr :- ParseExpr();
        var close := Advance();
        if close.None? {
          return Err(EndOfTokens);
        }
        if close.value.kind == RightParenthesis {
          return Ok(expr);
        }
        // `(` e followed by anything but `)` falls through to the fatal default
        r := Err(UnexpectedToken(start));
      } else {
        r := Err(UnexpectedToken(start));
      }
    }

    method ParseFunCall(identToken: Token) returns (r: Result<Expr, ParseError>)
      requires index < |tokens| && tokens[index].kind == LeftParenthesis
      modifies this
      ensures Agrees(r, Grammar.ParseFunCall(tokens, identToken, old(index)), index)
    {
      var _ := Advance();
      var _ :- Expect(RightParenthesis);
      r := Ok(FunCall(identToken.literal));
    }
  }
}
