# arctic: a verified model of the interpreter core

arctic is a small tree-walking interpreter written in TypeScript. A source
text is turned into tokens by a hand-written scanner (`Lexer`). A
recursive-descent parser (`Parser`) builds a `Program` node from the tokens.
An evaluator (`evaluate`) runs a program against an `Environment`, a chain of
scopes; it prints the values of `print` statements, and a fatal error stops
the run. The entry point `src/main.ts` only lexes a file and logs the tokens:
it never calls the parser or the evaluator, and no global `Environment` is
created anywhere in the source.

This project models the three stages in Dafny and proves properties of each.
The `Pipeline` lemmas compose scanning, parsing and evaluation on a few
programs, a composition the source itself never performs.

- **Tokens and keywords** (`token.dfy`, module `Tokens`). The token kinds, the
  keyword table (six reserved words; `proc`, `true`, `false` and `null` are
  commented out in the source), and the word classifier of `tokeniseIdent`.
- **Scanner** (`lexer.dfy`, `lexer_properties.dfy`).
  - `Lexing.ScanFrom` is a reference definition of the token sequence.
  - The `Lexer` class has a mutable index and is proved to produce exactly
    that sequence: `peek`, `advance`, `tokenise`, `tokeniseNumber`,
    `tokeniseIdent` and `lex`.
  - The lemmas say what each kind of character yields:
    - a punctuation token;
    - a maximal digit run;
    - a maximal word, which is a keyword or an identifier;
    - nothing, for spaces. The `'/t'`, `'/r'`, `'/n'` cases can never match
      one character, so tabs and newlines are skipped by the default branch
      instead.
  - The output always ends in exactly one `EOF`. `==` and `!=` come out as
    two tokens each, because those cases of the switch can never match a
    single character.
- **Syntax tree** (`ast.dfy`) and **runtime values** (`values.dfy`). The
  datatypes carry the `type` tags the source dispatches on, and the tags are
  proved to determine the kind of node and value.
- **Parser** (`grammar.dfy`, `parser.dfy`, `parser_properties.dfy`).
  - Module `Grammar` gives each parse routine as a function from a token
    position to a node and a new position, or a fatal error.
  - The `Parser` class runs the routines on a mutable cursor, and each of
    its methods is proved to agree with the grammar function of the same
    name.
  - The lemmas cover: precedence and left associativity, parentheses, the
    one-token lookahead that separates an assignment from an expression,
    statements gathered in source order, and the shapes that are rejected.
- **Environment** (`environment.dfy`, `environment_properties.dfy`).
  - A scope holds variables, registered functions and call slots. A chain of
    scopes, innermost first, is the abstract value of a linked `Environment`
    object.
  - The chain functions are the specification; the class methods are proved
    against them.
  - The lemmas cover lookup after declaration, shadowing, refused
    redeclaration, assignment in the resolving scope, separate namespaces,
    and "nothing else changes".
- **Evaluator** (`semantics.dfy`, `interpreter.dfy`,
  `interpreter_properties.dfy`).
  - `Semantics` gives the meaning of every node as a function. It yields the
    result, the chain afterwards and the values printed.
  - `Interpreter` runs the same steps on `Environment` objects. Every method
    is proved to produce exactly the result, output and scopes of those
    functions.
  - The lemmas cover the interpreter's behaviour:
    - statements run in order and a return tag stops a program;
    - arithmetic, and the Null result for non-integer operands;
    - binding, assignment, declaring functions, and calls in a fresh scope
      that is dropped afterwards;
    - `print` appending to the output;
    - the peculiar `return` inside an `if` block.
  - Provably, no expression ever yields a Boolean. Every `if` expression
    therefore fails at its condition.
- **Pipeline** (`pipeline.dfy`). The path from text to output for two
  concrete programs:
  - `print 6 * 7;` prints 42;
  - `1 + 2 * 3;` is rejected at its `;`, because an expression statement
    does not consume its semicolon.

Three modelling choices hold throughout:

- **Fuel.** Function calls may recurse without bound. Evaluation therefore
  carries a fuel count; each call spends one unit, and a call with none left
  is the `OutOfFuel` error.
- **Host division.** JavaScript `/` and `%` act on doubles, and `/` does not
  truncate. The model takes them as integer-valued host functions
  (`HostArith`), so non-integer quotients are outside the model. `+`, `-`
  and `*` are exact on integers.
- **Fatal errors.** Every way the source stops the process is a `Result`
  error that ends every enclosing routine: an exception, `process.exit`, or
  a `TypeError` from reading a token past the end.

Some declared features have no code behind them, and the model follows what
the code does:

- token.ts declares `If`, `Else`, `LessThan`, `GreaterThan`, `Equal` and
  `NotEqual`, but the parser has no rule for `if`, so an `if` token is fatal;
  the scanner produces `<` and `>` tokens but never `Equal` or `NotEqual`,
  and the parser has no rule for any comparison;
- values.ts declares `BooleanValue` and the evaluator has a case for if
  expressions, but nothing constructs a Boolean;
- the evaluator handles a `return` without a value, but the parser always
  reads an expression after `return`;
- expression statements leave their `;` unread.

## Model

| member | source | states |
|---|---|---|
| Tokens.WordKind | src/lexer/lexer.ts:174-178 | a word is an Identifier exactly when it is not in the keyword table, otherwise it has the table's kind; never EOF, Int or IDK |
| Tokens.KeywordMapContents | src/lexer/token.ts:52-63 | the reserved words are exactly fun, let, if, else, return, print, each with its kind |
| Tokens.KeywordMapInjective | src/lexer/token.ts:52-63 | no two reserved words share a token kind |
| Tokens.NotKeywords | src/lexer/token.ts:55-61 | proc, true, false and null are not reserved and scan as identifiers |
| Tokens.KeywordKinds | src/lexer/token.ts:52-63 | no keyword stands for EOF, Identifier, Int or IDK |
| Values.ValueType | src/runtime/values.ts:1-45 | the tag is one of the four names and identifies the variant, in both directions |
| Values.AllFourTags | src/runtime/values.ts:11-45 | each of the four tags is carried by some value |
| Ast.NodeType | src/parser/ast.ts:3-12 | a statement's tag is a statement tag unless it is an expression statement, whose tag is an expression tag; ReturnStmt exactly for return statements |
| Ast.ExprType | src/parser/ast.ts:3-12 | an expression's tag is one of the expression tags |
| Ast.NodeTypeDeterminesKind | src/parser/ast.ts:3-12 | two statements with the same tag are of the same kind, so the interpreter's dispatch on the tag is a dispatch on the node kind |
| Ast.ExprTypeDeterminesKindHolds | src/parser/ast.ts:3-12 | two expressions with the same tag are of the same kind |
| Lexing.IsDigit | src/lexer/lexer.ts:138-141 | isDigit on one character; Lexing.CharacterClasses states which characters it holds |
| Lexing.IsAlpha | src/lexer/lexer.ts:143-145 | isAlpha on one character; Lexing.CharacterClasses states which characters it holds |
| Lexing.IsAlphaNumeric | src/lexer/lexer.ts:147-149 | isAlphaNumeric on one character; Lexing.CharacterClasses states which characters it holds |
| Lexing.CharacterClasses | src/lexer/lexer.ts:138-149 | a character is a digit exactly when it is one of `0`-`9`, a letter exactly when it is one of `a`-`z` or `A`-`Z`, and alphanumeric exactly when it is one of the two |
| Lexing.DigitAt | src/lexer/lexer.ts:159 | tokeniseNumber's loop guard `isDigit(this.peek())`; past the end the anchored `/^\d$/` rejects "undefined", so the guard fails; Lexing.PeekGuards states it |
| Lexing.AlphaNumericAt | src/lexer/lexer.ts:170 | tokeniseIdent's loop guard, corrected to fail past the end; Lexing.PeekGuards states it |
| Lexing.AlphaNumericAsWritten | src/lexer/lexer.ts:147-149 | tokeniseIdent's guard `isAlphaNumeric(this.peek())` as written: past the end peek gives `undefined` (lines 191-193), and the unanchored pattern finds a letter in "undefined", so the guard holds; Lexing.PeekGuards states it |
| Lexing.PeekGuards | src/lexer/lexer.ts:138-149 | the digit guard holds exactly on a digit, the corrected word guard exactly on a letter or digit, and the word guard as written also past the end |
| Lexing.CharAt | src/lexer/lexer.ts:191-197 | reading at an index gives the character there, and nothing past the end |
| Lexing.PunctuationKind | src/lexer/lexer.ts:36-112 | a punctuation character's kind is never EOF, Identifier, Int, Equal, NotEqual or IDK, and such a character is no letter or digit |
| Lexing.NumberEnd | src/lexer/lexer.ts:155-164 | the loop of tokeniseNumber stops at the first non-digit or the end, and everything it passed is a digit |
| Lexing.WordEnd | src/lexer/lexer.ts:166-181 | the loop of tokeniseIdent, corrected to stop at the end of the text, stops at the first character that is no letter or digit, and everything it passed is one |
| Lexing.NumberEndUnique | src/lexer/lexer.ts:155-164 | any maximal digit run from the start position ends where the number loop stops |
| Lexing.WordEndUnique | src/lexer/lexer.ts:166-181 | any maximal letter-or-digit run ends where the word loop stops |
| Lexing.ReadToken | src/lexer/lexer.ts:33-135 | tokenise never yields EOF, Equal or NotEqual, consumes only forward, and the placeholder IDK consumes nothing and has an empty literal |
| Lexing.ScanFromStep | src/lexer/lexer.ts:15-31 | one turn of lex: a placeholder token is dropped, any other is kept in front of the rest |
| Lexing.ScanFrom | src/lexer/lexer.ts:15-31 | the reference definition of lex from a position; LexerProperties.ScanShape states its shape and Lexing.Lexer.Lex is proved equal to it |
| Lexing.Scan | src/lexer/lexer.ts:15-31 | lex over the whole text, ScanFrom from position 0 |
| Lexing.Lexer.constructor | src/lexer/lexer.ts:10-13 | a lexer starts at index 0 over its text |
| Lexing.Lexer.Peek | src/lexer/lexer.ts:191-193 | peek gives the character at the current index, and nothing past the end |
| Lexing.Lexer.PeekNext | src/lexer/lexer.ts:195-197 | peekNext reads one past the current index |
| Lexing.Lexer.Advance | src/lexer/lexer.ts:183-189 | advance returns the current character and moves the index by one |
| Lexing.Lexer.TokeniseNumber | src/lexer/lexer.ts:155-164 | the token is an Int whose literal is the first digit and the maximal digit run after it, and the index ends after that run |
| Lexing.Lexer.TokeniseIdent | src/lexer/lexer.ts:166-181 | the literal is the first letter and the maximal run of letters and digits after it, and the kind is the keyword's or Identifier |
| Lexing.Lexer.Tokenise | src/lexer/lexer.ts:33-135 | the token and the new index are exactly those of the reference ReadToken |
| Lexing.Lexer.Lex | src/lexer/lexer.ts:15-31 | the tokens are exactly the reference scan of the lexer's text, and the whole text is consumed |
| LexerProperties.ScanShape | src/lexer/lexer.ts:15-31 | the output ends in exactly one EOF token with an empty literal, and no placeholder token is kept |
| LexerProperties.ScanPunctuation | src/lexer/lexer.ts:36-112 | a punctuation character yields one token of its kind whose literal is the character |
| LexerProperties.ScanSkips | src/lexer/lexer.ts:113-131 | a character that is no digit, letter or punctuation yields no token |
| LexerProperties.ScanNumber | src/lexer/lexer.ts:118-123 | a digit starts an Int token whose literal is the maximal digit run |
| LexerProperties.ScanWord | src/lexer/lexer.ts:124-128 | a letter starts one token whose literal is the maximal letter-or-digit run, a keyword's kind if it is reserved and Identifier otherwise |
| LexerProperties.NoTwoCharacterOperators | src/lexer/lexer.ts:41-48 | `==` scans as two Assign tokens and `!=` as Bang, Assign |
| LexerProperties.ScanArithmeticTail | src/lexer/lexer.ts:15-31 | the tail `* 3;` of `1 + 2 * 3;` scans as Asterisk, Int, Semicolon, EOF |
| LexerProperties.ScanArithmeticMiddle | src/lexer/lexer.ts:15-31 | the part from `+` scans as Plus, Int, Asterisk, Int, Semicolon, EOF |
| LexerProperties.ScanArithmetic | src/lexer/lexer.ts:15-31 | `1 + 2 * 3;` scans as Int, Plus, Int, Asterisk, Int, Semicolon, EOF |
| LexerProperties.WordLoopNeverStopsAsWritten | src/lexer/lexer.ts:147-149 | with the loop guard as written, a word reaching the end of the text never stops: the guard holds at every index past the end |
| LexerProperties.WordAtEndAsWritten | src/lexer/lexer.ts:170-172 | for the text `x` the guard as written never fails, while the corrected loop stops at 1 and scans one Identifier and EOF |
| Grammar.DigitOf | src/parser/parser.ts:155 | a digit character's value is below ten |
| Grammar.ExpectAt | src/parser/parser.ts:195-204 | expect succeeds exactly on a token of the expected kind and moves one past it; past the end it fails with EndOfTokens |
| Grammar.ParseExpr | src/parser/parser.ts:108-110 | a successful parse moves forward within the tokens and builds a parsable expression (no if, no null literal) |
| Grammar.ParseAdditive | src/parser/parser.ts:112-126 | a successful parse moves forward within the tokens and builds a parsable expression |
| Grammar.AdditiveTail | src/parser/parser.ts:115-123 | the loop never moves back and keeps the result parsable |
| Grammar.ParseMultiplicative | src/parser/parser.ts:128-142 | a successful parse moves forward within the tokens and builds a parsable expression |
| Grammar.MultiplicativeTail | src/parser/parser.ts:131-139 | the loop never moves back and keeps the result parsable |
| Grammar.AdditiveCases | src/parser/parser.ts:112-126 | a failing left operand fails the whole sum; otherwise the loop continues from where it ended |
| Grammar.AdditiveTailCases | src/parser/parser.ts:115-118 | at the end of the tokens the loop fails; at a token other than + or - it stops there |
| Grammar.AdditiveTailStep | src/parser/parser.ts:119-122 | one turn: a failing right operand fails the loop; otherwise the loop goes on with the combined node |
| Grammar.MultiplicativeCases | src/parser/parser.ts:128-142 | a failing left operand fails the whole product; otherwise the loop continues from where it ended |
| Grammar.MultiplicativeTailCases | src/parser/parser.ts:131-134 | at the end of the tokens the loop fails; at a token other than * or / it stops there |
| Grammar.MultiplicativeTailStep | src/parser/parser.ts:135-138 | one turn: a failing right operand fails the loop; otherwise the loop goes on with the combined node |
| Grammar.ParsePrimary | src/parser/parser.ts:144-168 | a primary expression starts only at an identifier, an integer or `(`, moves forward and is parsable |
| Grammar.ParseFunCall | src/parser/parser.ts:170-175 | a call succeeds exactly when `)` follows the `(`, giving a call node and the position after the `)` |
| Grammar.ParseStmt | src/parser/parser.ts:26-41 | a successful parse moves forward within the tokens and builds a parsable statement (no nested program, return with an expression) |
| Grammar.ParseVarDeclaration | src/parser/parser.ts:43-56 | a successful parse moves forward and builds a parsable declaration |
| Grammar.ParseVarAssignment | src/parser/parser.ts:58-69 | a successful parse moves forward and builds a parsable statement |
| Grammar.ParseFunDeclaration | src/parser/parser.ts:71-88 | a successful parse moves forward and builds a function declaration of parsable statements |
| Grammar.FunBodyFrom | src/parser/parser.ts:81-85 | the body loop moves past its closing brace and gathers only parsable statements |
| Grammar.FunDeclarationCases | src/parser/parser.ts:71-88 | a declaration fails with the first of `(`, `)`, `{` or the body that fails, and otherwise holds the name token's literal and the body |
| Grammar.FunBodyStops | src/parser/parser.ts:81-85 | the body loop fails at the end of the tokens and stops after a `}` with what it has gathered |
| Grammar.FunBodyTurn | src/parser/parser.ts:81-84 | one turn: a failing statement fails the body; otherwise the loop goes on with the statement appended |
| Grammar.ParsePrint | src/parser/parser.ts:90-97 | a successful parse moves forward and builds a parsable print statement |
| Grammar.ParseReturnStmt | src/parser/parser.ts:99-106 | a successful parse moves forward and builds a return statement with a parsable expression |
| Grammar.ProgramFrom | src/parser/parser.ts:19-21 | the program loop builds a Program whose statements are all parsable |
| Grammar.ProduceAST | src/parser/parser.ts:16-24 | a successful parse is a Program made of parsable statements |
| Parsing.Parser.constructor | src/parser/parser.ts:11-14 | a parser starts at index 0 over its tokens |
| Parsing.Parser.Peek | src/parser/parser.ts:177-179 | peek gives the current token, and nothing past the end |
| Parsing.Parser.PeekNext | src/parser/parser.ts:181-183 | peekNext gives the token after the current one, and nothing past the end |
| Parsing.Parser.PeekKind | src/parser/parser.ts:177-179 | the current token's kind, which is fatal to read past the end |
| Parsing.Parser.IsEOF | src/parser/parser.ts:191-193 | whether the current token is EOF, which is fatal to ask past the end |
| Parsing.Parser.Advance | src/parser/parser.ts:185-189 | advance returns the current token and moves the index by one |
| Parsing.Parser.Expect | src/parser/parser.ts:195-204 | expect moves the index by one and agrees with the grammar's ExpectAt |
| Parsing.Parser.ProduceAST | src/parser/parser.ts:16-24 | the result is exactly the grammar's ProduceAST of the tokens |
| Parsing.Parser.ParseStmt | src/parser/parser.ts:26-41 | the node, the error and the final index agree with Grammar.ParseStmt |
| Parsing.Parser.ParseVarDeclaration | src/parser/parser.ts:43-56 | agrees with Grammar.ParseVarDeclaration |
| Parsing.Parser.ParseVarAssignment | src/parser/parser.ts:58-69 | agrees with Grammar.ParseVarAssignment |
| Parsing.Parser.ParseFunDeclaration | src/parser/parser.ts:71-88 | agrees with Grammar.ParseFunDeclaration |
| Parsing.Parser.FunBody | src/parser/parser.ts:81-85 | the body loop agrees with Grammar.FunBodyFrom |
| Parsing.Parser.ParsePrint | src/parser/parser.ts:90-97 | agrees with Grammar.ParsePrint |
| Parsing.Parser.ParseReturnStmt | src/parser/parser.ts:99-106 | agrees with Grammar.ParseReturnStmt |
| Parsing.Parser.ParseExpr | src/parser/parser.ts:108-110 | agrees with Grammar.ParseExpr |
| Parsing.Parser.ParseAdditiveExpr | src/parser/parser.ts:112-126 | agrees with Grammar.ParseAdditive |
| Parsing.Parser.AdditiveLoop | src/parser/parser.ts:115-123 | the loop agrees with Grammar.AdditiveTail |
| Parsing.Parser.ParseMultiplicative | src/parser/parser.ts:128-142 | agrees with Grammar.ParseMultiplicative |
| Parsing.Parser.MultiplicativeLoop | src/parser/parser.ts:131-139 | the loop agrees with Grammar.MultiplicativeTail |
| Parsing.Parser.ParsePrimary | src/parser/parser.ts:144-168 | agrees with Grammar.ParsePrimary |
| Parsing.Parser.ParseFunCall | src/parser/parser.ts:170-175 | agrees with Grammar.ParseFunCall |
| Grammar.ParseInt | src/parser/parser.ts:155 | parseInt on a literal; ParserProperties.LeadingDigitsMaximal, LeadingDigitsWhole and ParseIntDecimal state what it reads |
| Grammar.LeadingDigits | src/parser/parser.ts:155 | the digit prefix parseInt reads; ParserProperties.LeadingDigitsMaximal states that it is the longest one |
| Grammar.DigitsValue | src/parser/parser.ts:155 | the decimal value of a digit run; ParserProperties.ParseIntDecimal states its step |
| ParserProperties.LeadingDigitsMaximal | src/parser/parser.ts:155 | parseInt reads the longest run of digits at the start of the literal |
| ParserProperties.LeadingDigitsWhole | src/parser/parser.ts:155 | a literal made only of digits is read whole |
| ParserProperties.ParseIntDecimal | src/parser/parser.ts:155 | one more digit multiplies the value by ten and adds the digit |
| ParserProperties.ParseIntExamples | src/parser/parser.ts:155 | "0", "7" and "42" read as 0, 7 and 42 |
| ParserProperties.PrimaryRejects | src/parser/parser.ts:164-166 | any token other than an identifier, an integer or `(` is fatal where an operand is expected |
| ParserProperties.PrimaryIdentifier | src/parser/parser.ts:148-153 | an identifier is a variable unless `(` follows; then it is a call if `)` comes next, and fatal otherwise |
| ParserProperties.PrimaryParentheses | src/parser/parser.ts:158-166 | `( e )` is e itself, and a missing `)` is fatal |
| ParserProperties.AdditiveFoldsLeft | src/parser/parser.ts:112-126 | after `a op b` the sum continues with the node (a op b) as its left operand |
| ParserProperties.MultiplicativeFoldsLeft | src/parser/parser.ts:128-142 | after `a op b` the product continues with (a op b) as its left operand |
| ParserProperties.TailStops | src/parser/parser.ts:115-134 | each operator loop stops at the first token that is not one of its operators |
| ParserProperties.IntOperand | src/parser/parser.ts:154-155 | an integer followed by a non-operator is one literal operand |
| ParserProperties.SubtractionLeftAssociative | src/parser/parser.ts:112-126 | `a - b - c` parses as (a - b) - c |
| ParserProperties.ProductBindsTighterRight | src/parser/parser.ts:112-142 | `a + b * c` parses as a + (b * c) |
| ParserProperties.ProductBindsTighterLeft | src/parser/parser.ts:112-142 | `a * b + c` parses as (a * b) + c |
| ParserProperties.DeclarationWithoutValue | src/parser/parser.ts:47-50 | `let x;` is a declaration without a value |
| ParserProperties.DeclarationWithValue | src/parser/parser.ts:52-55 | `let x = e;` declares x with e, and a missing `;` is fatal |
| ParserProperties.DeclarationErrors | src/parser/parser.ts:43-56 | after `let`, a non-identifier is fatal, and after the name anything but `;` or `=` is fatal |
| ParserProperties.AssignmentLookahead | src/parser/parser.ts:58-69 | an identifier starts an assignment exactly when `=` follows it; otherwise it starts an expression |
| ParserProperties.PrintAndReturn | src/parser/parser.ts:90-106 | print and return each need an expression and a `;`; a missing `;` is fatal |
| ParserProperties.BareReturnRejected | src/parser/parser.ts:99-106 | `return;` is fatal: a return statement always carries an expression |
| ParserProperties.SemicolonIsNoExpression | src/parser/parser.ts:164-166 | a `;` where an expression or statement should start is fatal |
| ParserProperties.FunDeclarationShape | src/parser/parser.ts:71-88 | `fun NAME ( ) { body }` takes any token as its name and gives the declaration of that body |
| ParserProperties.ExpressionStatement | src/parser/parser.ts:38-39 | any other leading token makes the statement an expression |
| ParserProperties.ExpressionStatementLeavesSemicolon | src/parser/parser.ts:38-39 | an expression statement ends before its `;` |
| ParserProperties.PrependBodyTwice | src/parser/parser.ts:19-21 | prepending statements to a parse result, in two steps or one, gives the same |
| ParserProperties.ProgramFromStep | src/parser/parser.ts:19-21 | one turn of the program loop: a failing statement fails the program; otherwise the loop goes on with it appended |
| ParserProperties.ProgramFromAppends | src/parser/parser.ts:19-21 | the statements the loop has already gathered stay, in order, in front of the rest |
| ParserProperties.ProgramInSourceOrder | src/parser/parser.ts:16-24 | the program is its first statement followed by the program parsed from where that statement ends |
| ParserProperties.ProgramEnds | src/parser/parser.ts:191-193 | an empty token list is fatal, and an EOF alone is the empty program |
| ParserProperties.PrependStmtsTwice | src/parser/parser.ts:81-84 | prepending statements to a body result, in two steps or one, gives the same |
| ParserProperties.FunBodyStep | src/parser/parser.ts:81-84 | one turn of the body loop, with the statement appended |
| ParserProperties.FunBodyAppends | src/parser/parser.ts:81-84 | the body loop keeps what it has gathered, in order, in front of the rest |
| ParserProperties.FunBodyInSourceOrder | src/parser/parser.ts:81-85 | a body is its first statement followed by the body parsed from where that statement ends |
| ParserProperties.ExpressionProgramRejected | src/parser/parser.ts:16-41 | a program of one integer and `;` is rejected at the `;` |
| Environments.ResolveIndex | src/runtime/environment.ts:26-36 | resolve finds the nearest scope binding the name; every scope before it lacks the name, and it finds none only when no scope binds it |
| Environments.LookupVarIn | src/runtime/environment.ts:21-24 | lookup fails with Unresolved exactly when no scope binds the name; otherwise it gives that name's value in a binding scope |
| Environments.DeclareVarIn | src/runtime/environment.ts:12-19 | declaring is refused exactly when the innermost scope already binds the name; otherwise only the innermost scope changes, gaining the binding |
| Environments.AssignVarIn | src/runtime/interpreter.ts:90 | assignment fails exactly when no scope binds the name; otherwise it rebinds the name in the resolving scope only |
| Environments.AssignVarInStep | src/runtime/interpreter.ts:90 | assignment passes over a scope without the name, leaving it unchanged |
| Environments.DeclareFunIn | src/runtime/interpreter.ts:94 | registering is refused exactly when the innermost scope already has the name; otherwise only the innermost scope changes |
| Environments.LookupFunIn | src/runtime/interpreter.ts:101 | lookup fails exactly when no scope registers the name; otherwise it gives the body in the nearest registering scope |
| Environments.SetFunEnvIn | src/runtime/interpreter.ts:106 | only the innermost scope changes, gaining the call slot |
| Environments.DestroyFunEnvIn | src/runtime/interpreter.ts:136 | only the innermost scope changes, losing the call slot |
| Environments.Environment.Scopes | src/runtime/environment.ts:3-10 | an environment's chain is its own scope followed by its parent's chain |
| Environments.Environment.Outer | src/runtime/environment.ts:3-10 | with no parent there are no enclosing scopes; otherwise they are the parent's chain |
| Environments.Environment.constructor | src/runtime/environment.ts:7-10 | a new environment is an empty scope in front of its parent's chain |
| Environments.Environment.DeclareVar | src/runtime/environment.ts:12-19 | the result and the new chain are those of DeclareVarIn; on refusal nothing changes |
| Environments.Environment.Resolve | src/runtime/environment.ts:26-36 | gives the environment whose chain starts at the nearest binding scope, and fails exactly when no scope binds the name |
| Environments.Environment.LookupVar | src/runtime/environment.ts:21-24 | equals LookupVarIn of the environment's chain |
| Environments.Environment.AssignVar | src/runtime/interpreter.ts:90 | the result and the new chain are those of AssignVarIn, through the linked parents |
| Environments.Environment.DeclareFun | src/runtime/interpreter.ts:94 | the result and the new chain are those of DeclareFunIn |
| Environments.Environment.LookupFun | src/runtime/interpreter.ts:101 | equals LookupFunIn of the environment's chain |
| Environments.Environment.SetFunEnv | src/runtime/interpreter.ts:106 | the slot is recorded, and the chain is that of SetFunEnvIn |
| Environments.Environment.DestroyFunEnv | src/runtime/interpreter.ts:136 | the slot is removed, and the chain is that of DestroyFunEnvIn |
| EnvironmentProperties.ResolveIndexNearest | src/runtime/environment.ts:26-36 | a binding scope with none before it is the one resolve returns |
| EnvironmentProperties.DeclareThenLookup | src/runtime/environment.ts:12-24 | right after declaring n as v, looking up n gives v |
| EnvironmentProperties.DeclareKeepsOtherNames | src/runtime/environment.ts:12-24 | declaring leaves the lookup of every other name as it was |
| EnvironmentProperties.Shadowing | src/runtime/environment.ts:12-19 | a name bound in an enclosing scope can be declared again in a new scope, shadowing it and leaving the enclosing scopes alone |
| EnvironmentProperties.RedeclarationRefused | src/runtime/environment.ts:13-15 | a second declaration in the same scope is refused |
| EnvironmentProperties.AssignThenLookup | src/runtime/interpreter.ts:88-91 | after assigning v to n, looking up n gives v, and every scope binds the same names as before |
| EnvironmentProperties.AssignKeepsOtherNames | src/runtime/interpreter.ts:88-91 | assignment changes the value of no other name |
| EnvironmentProperties.NamespacesIndependent | src/runtime/interpreter.ts:93-97 | registering a function changes no variable, and declaring a variable changes no function |
| EnvironmentProperties.DeclareFunThenLookup | src/runtime/interpreter.ts:93-97 | right after registering a body under n, looking up n gives that body |
| EnvironmentProperties.SlotRoundTrip | src/runtime/interpreter.ts:106-136 | filling and clearing a call slot leaves the chain as it was |
| Semantics.Then | src/runtime/interpreter.ts:177-181 | an evaluation preceded by output already printed; Semantics.ThenAssoc states how two stages compose |
| Semantics.IntegralOp | src/runtime/interpreter.ts:28-45 | the operator on two integers; InterpreterProperties.BinaryOfIntegers states its cases |
| Semantics.ThenAssoc | src/runtime/interpreter.ts:177-181 | output printed in two stages concatenates in order |
| Semantics.Unwrap | src/runtime/interpreter.ts:51-57 | a return-tagged operand gives up its payload, and any other operand stays |
| Semantics.BinaryResult | src/runtime/interpreter.ts:47-70 | the result is an integer exactly when both unwrapped operands are integers, and it is then the operator's result; otherwise Null |
| Semantics.Bound | src/runtime/interpreter.ts:77-97 | a binding that succeeds yields its value and the new chain; a refused one yields the error and leaves the chain |
| Semantics.PlainAfterDeclare | src/runtime/environment.ts:12-19 | declaring a non-Boolean, untagged value keeps every variable non-Boolean and untagged |
| Semantics.PlainAfterAssign | src/runtime/interpreter.ts:88-91 | likewise for assignment |
| Semantics.PlainAfterDeclareFun | src/runtime/interpreter.ts:93-97 | registering a function keeps the variables as they were |
| Semantics.PlainSlots | src/runtime/interpreter.ts:106-136 | filling or clearing a call slot keeps the variables as they were |
| Semantics.PlainPush | src/runtime/interpreter.ts:102-107 | a fresh scope adds no variable |
| Semantics.PlainPop | src/runtime/interpreter.ts:136-139 | dropping a scope keeps the remaining variables |
| Semantics.Eval | src/runtime/interpreter.ts:183-217 | the statement leaves a chain of as many scopes as it started with |
| Semantics.EvalExpr | src/runtime/interpreter.ts:183-217 | the expression leaves a chain of as many scopes as it started with |
| Semantics.EvalCall | src/runtime/interpreter.ts:99-140 | a call leaves the caller's chain with as many scopes as before |
| Semantics.ProgramLoop | src/runtime/interpreter.ts:9-26 | the program loop keeps the number of scopes |
| Semantics.CallLoop | src/runtime/interpreter.ts:110-133 | the loop of a call keeps the number of scopes |
| Semantics.BlockLoop | src/runtime/interpreter.ts:150-161 | the loops of an if block keep the number of scopes |
| Semantics.CallLoopStep | src/runtime/interpreter.ts:111-123 | a statement other than return runs, and a return tag or an error ends the loop; otherwise the loop goes on after its output |
| Semantics.BlockStmt | src/runtime/interpreter.ts:151-155 | in the then-block a return statement runs in the enclosing chain and leaves the block's own scope as it was |
| Semantics.BlockLoopStep | src/runtime/interpreter.ts:150-161 | one block statement runs and, unless it fails, the block goes on after its output; a return tag does not stop the block |
| Semantics.CallStep | src/runtime/interpreter.ts:99-140 | a call with fuel left runs the body in a fresh scope over the caller's chain with the slot set; the scope is dropped, and unless the body failed the slot is cleared |
| Semantics.CallOutcome | src/runtime/interpreter.ts:99-140 | the two ways a call with fuel left ends, by whether its body failed |
| Semantics.EvalKeepsPlain | src/runtime/interpreter.ts:183-217 | from variables that are not Boolean, a statement keeps them so and yields a plain value or a return tag around one |
| Semantics.EvalExprKeepsPlain | src/runtime/interpreter.ts:142-149 | from such variables an expression yields no Boolean and no tag, and an if expression always fails |
| Semantics.EvalCallKeepsPlain | src/runtime/interpreter.ts:99-140 | a call yields no Boolean and no tag, and keeps the variables plain |
| Semantics.ProgramLoopKeepsPlain | src/runtime/interpreter.ts:9-26 | a program yields no Boolean and no tag, and keeps the variables plain |
| Semantics.CallLoopKeepsPlain | src/runtime/interpreter.ts:110-133 | a call body yields no Boolean and no tag, and keeps the variables plain |
| Interpreter.Evaluate | src/runtime/interpreter.ts:183-217 | the result, the output and the new scopes are exactly Semantics.Eval of the statement in the old scopes |
| Interpreter.EvaluateExpr | src/runtime/interpreter.ts:183-217 | the result, the output and the new scopes are exactly Semantics.EvalExpr |
| Interpreter.EvalProgram | src/runtime/interpreter.ts:9-26 | equals Semantics.Eval of the Program node |
| Interpreter.EvalBinaryExpr | src/runtime/interpreter.ts:47-70 | equals Semantics.EvalExpr of the binary node |
| Interpreter.EvalIdentifier | src/runtime/interpreter.ts:72-75 | equals the variable lookup in the environment's chain |
| Interpreter.EvalVarDeclaration | src/runtime/interpreter.ts:77-86 | equals Semantics.Eval of the declaration |
| Interpreter.EvalValAssignment | src/runtime/interpreter.ts:88-91 | equals Semantics.Eval of the assignment |
| Interpreter.EvalFunDeclaration | src/runtime/interpreter.ts:93-97 | equals Semantics.Eval of the declaration, whatever the fuel and host arithmetic |
| Interpreter.EvalFunCall | src/runtime/interpreter.ts:99-140 | the result, the output and the caller's new scopes equal Semantics.EvalCall |
| Interpreter.CallBody | src/runtime/interpreter.ts:102-133 | the body runs in a fresh scope over the caller with the slot set, and the caller is left with the scopes the body left below that scope |
| Interpreter.RunFunctionBody | src/runtime/interpreter.ts:110-133 | the loop's result, output and scopes equal Semantics.CallLoop |
| Interpreter.EvalIfExpr | src/runtime/interpreter.ts:142-167 | equals Semantics.EvalExpr of the if expression |
| Interpreter.RunBlock | src/runtime/interpreter.ts:150-161 | the block loop's result, output and scopes equal Semantics.BlockLoop |
| Interpreter.EvalReturnStmt | src/runtime/interpreter.ts:169-175 | equals Semantics.Eval of the return statement, and a success is always a return tag |
| Interpreter.EvalPrintStmt | src/runtime/interpreter.ts:177-181 | equals Semantics.Eval of the print statement |
| InterpreterProperties.ProgramEmpty | src/runtime/interpreter.ts:9-26 | an empty program yields Null and changes nothing |
| InterpreterProperties.ProgramRunsInOrder | src/runtime/interpreter.ts:11-24 | a program runs its first statement, then the rest in the scopes it left, and prints in that order |
| InterpreterProperties.ProgramStopsAtReturn | src/runtime/interpreter.ts:13-23 | the first return-tagged result ends the program with its payload, and later statements do not run |
| InterpreterProperties.BinaryOfIntegers | src/runtime/interpreter.ts:28-45 | `+`, `-`, `*` on integers are exact, `/` is the host's division, and any other operator is the host's remainder |
| InterpreterProperties.BinaryWithNull | src/runtime/interpreter.ts:59-69 | a Null operand makes the expression Null, whatever the operator |
| InterpreterProperties.BinaryUnwrapsOnce | src/runtime/interpreter.ts:51-57 | an operand's return tag is removed once, not repeatedly |
| InterpreterProperties.BinaryLeftFirst | src/runtime/interpreter.ts:47-49 | the left operand is evaluated first, and an error there is the result |
| InterpreterProperties.DeclarationBinds | src/runtime/interpreter.ts:77-86 | `let x;` binds and gives Null; `let x = e;` binds and gives e's value |
| InterpreterProperties.RedeclarationFails | src/runtime/interpreter.ts:84 | declaring a name bound in the current scope is fatal |
| InterpreterProperties.AssignmentUpdates | src/runtime/interpreter.ts:88-91 | assigning an unbound name is fatal; assigning a bound one updates it and gives the value |
| InterpreterProperties.FunDeclarationRegisters | src/runtime/interpreter.ts:93-97 | a declaration registers the body in the current scope and gives Null |
| InterpreterProperties.CallOfUndeclared | src/runtime/interpreter.ts:101 | calling an undeclared function is fatal |
| InterpreterProperties.CallStopsAtReturn | src/runtime/interpreter.ts:124-131 | a top-level return ends the call with its expression's value evaluated in the function's scope, and nothing after it runs or prints; a bare return gives Null |
| InterpreterProperties.CallSeesCallerScope | src/runtime/interpreter.ts:102-131 | a body that starts with `return x;` gives the caller's `x`, whatever follows: the body sees the caller's variables through its scope's parent |
| InterpreterProperties.CallScopeDiscarded | src/runtime/interpreter.ts:99-140 | example: for the body `let y = n;`, the variable the body declares is gone after the call, and the call slot is cleared |
| InterpreterProperties.CallVariables | src/runtime/interpreter.ts:102-107 | the call's scope binds exactly the caller's variables, with their values |
| InterpreterProperties.CallWithoutFuel | src/runtime/interpreter.ts:99-140 | a call with no fuel left is the OutOfFuel error |
| InterpreterProperties.ReturnWraps | src/runtime/interpreter.ts:169-175 | a return tags its expression's value, and without an expression it tags Null |
| InterpreterProperties.PrintAppends | src/runtime/interpreter.ts:177-181 | print outputs its argument's value after the argument's own output and gives Null |
| InterpreterProperties.NoBooleans | src/runtime/interpreter.ts:142-149 | from an empty scope no program or expression yields a Boolean, and every if expression fails at its condition |
| InterpreterProperties.ReturnInBlock | src/runtime/interpreter.ts:150-157 | in a then-block, a return whose expression succeeds tags its value and the block goes on at the next statement, keeping the block's scope |
| InterpreterProperties.PrintAfterReturn | src/runtime/interpreter.ts:150-157 | example: in the block `return 1; print 2;`, the statement after the return still runs and prints |
| InterpreterProperties.IfRunsWholeBlock | src/runtime/interpreter.ts:150-157 | example: with a true condition, the then-block `return 1; print 2;` runs past its return, prints 2 and gives Null |
| InterpreterProperties.IfFalseWithoutElse | src/runtime/interpreter.ts:158-164 | a false condition with no else block gives Null and changes nothing |
| Pipeline.ArithmeticStatement | src/parser/parser.ts:26-41 | the tokens of `1 + 2 * 3;` start the expression statement 1 + (2 * 3), ending before the `;` |
| Pipeline.ArithmeticTokensRejected | src/parser/parser.ts:16-24 | the `;` that follows cannot start a statement, so the program is rejected there |
| Pipeline.ArithmeticProgramRejected | src/parser/parser.ts:16-24 | scanning then parsing `1 + 2 * 3;` is rejected at its `;` |
| Pipeline.ScanPrintProductTail | src/lexer/lexer.ts:15-31 | the tail `* 7;` of `print 6 * 7;` scans as Asterisk, Int, Semicolon, EOF |
| Pipeline.ScanPrintProductOperands | src/lexer/lexer.ts:15-31 | the part after `print` scans as Int, Asterisk, Int, Semicolon, EOF |
| Pipeline.ScanPrintProduct | src/lexer/lexer.ts:15-31 | `print 6 * 7;` scans as Print, Int, Asterisk, Int, Semicolon, EOF |
| Pipeline.ParsePrintProduct | src/parser/parser.ts:16-24 | those tokens are the program of one print statement of 6 * 7 |
| Pipeline.RunPrintProduct | src/runtime/interpreter.ts:9-26 | that program prints 42, gives Null and leaves the single scope as it was |
| Pipeline.PrintProduct | src/runtime/interpreter.ts:9-26 | scanning, parsing and running `print 6 * 7;` prints 42 |

## Left out

- src/main.ts: it reads a file, lexes it and logs the token list; its read-eval loop is commented out. Reading files and logging are I/O. The Pipeline lemmas compose stages that the source never connects.
- Lexer.printTokens and Token.toString: they only format text for the console.
- The text of error messages and the process exit codes: every fatal stop is one error value of the model.
- Console output formatting: print records the runtime value itself, where the source logs its `value` field.
- Semantics.BinaryResult: JavaScript `/` and `%` act on doubles, and `/` does not truncate: 10 / 3 is 3.333…, and (10 / 3) * 3 is 10. The model's host functions `h.divide` and `h.remainder` return integers, so a non-integer quotient, every later operation on one, and the Infinity and NaN of a division by zero fall outside the model; it is faithful only where each quotient is an integer the host function returns.
- Semantics.BinaryResult: integers are unbounded. The source's numbers are doubles, so this does not model precision loss above 2^53.
- Grammar.ParseInt: parseInt is modelled on the digit literals the lexer produces. NaN and precision limits are not modelled.
- Lexing.IsDigit, Lexing.IsAlpha, Lexing.IsAlphaNumeric: the regular expressions of isDigit, isAlpha and isAlphaNumeric are modelled as ASCII ranges on one character. The unanchored match on `undefined` is kept separately as the as-written guard of the finding below.
- Semantics.CallLoop: a function body that ends without a value gives Null. The source returns `undefined` there, and any later use of that value fails in ways the model does not follow.
- Semantics.EvalCall: evaluation carries fuel, and a call with none left is OutOfFuel. Unbounded recursion, which ends in a stack overflow in the source, is not modelled.
- Environments.Environment.constructor: setParentEnv is folded into the constructor. In evalIfExpr it directly follows construction. In evalFunCall setFunEnv comes between the two (src/runtime/interpreter.ts:103-107); setFunEnv changes the calling scope and not the fresh scope's parent, so the order does not change the result.
- Environments.Environment.AssignVar, DeclareFun, LookupFun, SetFunEnv, DestroyFunEnv: these methods are called by the interpreter but are not in environment.ts. They are reconstructed by analogy with declareVar (innermost scope only) and resolve (walk outward).
- Ast: the node kinds FunDeclaration, PrintStmt, FunCall, ReturnStmt, IfExpr and NullLiteral are reconstructed from the fields the parser and the interpreter use. They are not declared in ast.ts.
- Ast: an expression used as a statement is wrapped in ExprStmt, which carries its expression's tag. The source uses the expression node itself.
- Interpreter.Evaluate: the default branch of evaluate, for node kinds without a rule, cannot be reached, because the datatype has no other kinds.
- The loops of evalFunCall, evalIfExpr, parseAdditiveExpr, parseMultiplicative and parseFunDeclaration are separate methods (RunFunctionBody, RunBlock, AdditiveLoop, MultiplicativeLoop, FunBody), each proved against its own grammar or semantics function.
- Grammar: reading a token past the end of the list is the error EndOfTokens, standing for the TypeError the source raises. The position in UnexpectedToken is a choice of the model, not a value the source reports.
- If statements, Boolean values and comparison operators have declarations in token.ts and values.ts but no parser rule and no constructor call; the model has them only where the evaluator handles them (IfExpr, BooleanValue).

## Findings

| source | as written | input that shows it | evidently intended | confidence | as-written member | corrected member |
|---|---|---|---|---|---|---|
| src/lexer/lexer.ts:147-149 | isAlphaNumeric tests an unanchored `[a-zA-Z0-9]` against its argument, and peek past the end gives `undefined`, which is stringified to "undefined" and matches, so the loop of tokeniseIdent (lines 170-172) never stops at the end of the text | the text `x` | the word loop stops at the end of the text, as tokeniseNumber's anchored test does | not executed | LexerProperties.WordLoopNeverStopsAsWritten, LexerProperties.WordAtEndAsWritten | Lexing.WordEnd |
