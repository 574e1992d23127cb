/** Token kinds, the keyword table and tokens (src/lexer/token.ts). */
module Tokens {

  /** The closed set of token kinds, in the order of the source enumeration. */
  datatype TokenType =
    | EOF
    | Identifier | Int
    | Assign | Plus | Minus | Bang | Asterisk | Slash | LessThan | GreaterThan | Equal | NotEqual
    | Comma | Semicolon
    | Function | Procedure | Let | If | Else | Return | Print
    | LeftParenthesis | RightParenthesis | LeftBrace | RightBrace
    | String
    | LeftBracket | RightBracket
    | Colon
    | IDK   // placeholder kind, used only while a character is being classified

  /** A token: its kind and the text it was read from. The source's mutable
      class only ever has its two fields set once they leave the scanner. */
  datatype Token = Token(kind: TokenType, literal: string)

  /** The reserved words. `proc`, `true`, `false` and `null` are commented out in the source. */
  const KeywordMap: map<string, TokenType> :=
    map["fun" := Function, "let" := Let, "if" := If, "else" := Else, "return" := Return, "print" := Print]

  /** The kind of a word the scanner has read: its keyword kind, else Identifier. */
  function WordKind(literal: string): (k: TokenType)
    ensures k == Identifier <==> literal !in KeywordMap
    ensures literal in KeywordMap ==> k == KeywordMap[literal]
    ensures k != EOF && k != Int && k != IDK
  {
    if literal in KeywordMap then KeywordMap[literal] else Identifier
  }

  /** The keyword table holds exactly the six reserved words with their kinds. */
  lemma KeywordMapContents()
    ensures KeywordMap.Keys == {"fun", "let", "if", "else", "return", "print"}
    ensures KeywordMap["fun"] == Function && KeywordMap["let"] == Let
    ensures KeywordMap["if"] == If && KeywordMap["else"] == Else
    ensures KeywordMap["return"] == Return && KeywordMap["print"] == Print
  {
  }

  /** No two reserved words share a token kind. */
  lemma KeywordMapInjective(a: string, b: string)
    requires a in KeywordMap && b in KeywordMap
    requires KeywordMap[a] == KeywordMap[b]
    ensures a == b
  {
  }

  /** The commented-out entries are not reserved, so they scan as identifiers. */
  lemma NotKeywords()
    ensures "proc" !in KeywordMap && "true" !in KeywordMap
    ensures "false" !in KeywordMap && "null" !in KeywordMap
    ensures WordKind("proc") == Identifier && WordKind("true") == Identifier
    ensures WordKind("false") == Identifier && WordKind("null") == Identifier
  {
  }

  /** No keyword stands for end of input, an identifier, a number or the placeholder. */
  lemma KeywordKinds(w: string)
    requires w in KeywordMap
    ensures KeywordMap[w] !in {EOF, Identifier, Int, IDK}
  {
  }
}
