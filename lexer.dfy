/** The scanner (src/lexer/lexer.ts): a reference definition of the token
    sequence a source text yields, and the Lexer class that builds it one
    character at a time. */
module Lexing {
  import opened Wrappers
  import opened Tokens

  /** The characters of the classes \d, a-z and A-Z, listed out. */
  const Digits := "0123456789"
  const Lower := "abcdefghijklmnopqrstuvwxyz"
  const Upper := "ABCDEFGHIJKLMNOPQRSTUVWXYZ"

  lemma LowerRange()
    ensures forall k :: 0 <= k < |Lower| ==> Lower[k] as int == 'a' as int + k
  {
    assert forall k :: 0 <= k < 13 ==> Lower[k] as int == 'a' as int + k;
    assert forall k :: 13 <= k < 26 ==> Lower[k] as int == 'a' as int + k;
  }

  lemma UpperRange()
    ensures forall k :: 0 <= k < |Upper| ==> Upper[k] as int == 'A' as int + k
  {
    assert forall k :: 0 <= k < 13 ==> Upper[k] as int == 'A' as int + k;
    assert forall k :: 13 <= k < 26 ==> Upper[k] as int == 'A' as int + k;
  }

  /** isDigit, the anchored pattern ^\d$ on one character. */
  predicate IsDigit(c: char) {
    '0' <= c <= '9'
  }

  /** isAlpha, the pattern [a-zA-Z] on one character. */
  predicate IsAlpha(c: char) {
    'a' <= c <= 'z' || 'A' <= c <= 'Z'
  }

  /** isAlphaNumeric, the pattern [a-zA-Z0-9] on one character. */
  predicate IsAlphaNumeric(c: char) {
    IsAlpha(c) || IsDigit(c)
  }

  /** The three classes hold exactly the characters of their patterns. */
  lemma CharacterClasses(c: char)
    ensures IsDigit(c) <==> c in Digits
    ensures IsAlpha(c) <==> c in Lower || c in Upper
    ensures IsAlphaNumeric(c) <==> c in Lower || c in Upper || c in Digits
  {
    assert forall k :: 0 <= k < |Digits| ==> Digits[k] as int == '0' as int + k;
    LowerRange();
    UpperRange();
  }

  /** Reading the source at index i: past the end there is no character
      (the source's `undefined`). */
  function CharAt(src: string, i: nat): (o: Option<char>)
    ensures o.Some? <==> i < |src|
    ensures o.Some? ==> o.value == src[i]
  {
    if i < |src| then Some(src[i]) else None
  }

  /** The digit test applied to a peeked character; past the end is no digit. */
  predicate DigitAt(o: Option<char>) {
    o.Some? && IsDigit(o.value)
  }

  /** The letter-or-digit test applied to a peeked character. Past the end is
      treated as no letter or digit: see AlphaNumericAsWritten for what the
      source's regular expression does there. */
  predicate AlphaNumericAt(o: Option<char>) {
    o.Some? && IsAlphaNumeric(o.value)
  }

  /** The source's isAlphaNumeric on a peeked character: the unanchored
      pattern [a-zA-Z0-9] is applied to the text "undefined" when there
      is no character, and finds a letter in it. */
  predicate AlphaNumericAsWritten(o: Option<char>) {
    o.None? || IsAlphaNumeric(o.value)
  }

  /** What the three loop guards hold on a peeked character: the digit and the
      corrected word guards fail past the end, and the word guard as written
      holds there. */
  lemma PeekGuards(o: Option<char>)
    ensures DigitAt(o) <==> o.Some? && o.value in Digits
    ensures AlphaNumericAt(o) <==> o.Some? && (o.value in Lower || o.value in Upper || o.value in Digits)
    ensures AlphaNumericAsWritten(o) <==> o.None? || AlphaNumericAt(o)
  {
    if o.Some? {
      CharacterClasses(o.value);
    }
  }

  /** The single-character cases of tokenise's switch. The cases '==' and '!='
      compare a one-character string with a two-character one and never match,
      so Equal and NotEqual have no entry. */
  function PunctuationKind(c: char): (k: Option<TokenType>)
    ensures k.Some? ==> k.value !in {EOF, Identifier, Int, Equal, NotEqual, IDK}
    ensures k.Some? ==> !IsAlphaNumeric(c)
  {
    match c
    case '=' => Some(Assign)
    case '+' => Some(Plus)
    case '-' => Some(Minus)
    case '*' => Some(Asterisk)
    case '!' => Some(Bang)
    case '>' => Some(GreaterThan)
    case '<' => Some(LessThan)
    case '/' => Some(Slash)
    case ';' => Some(Semicolon)
    case ',' => Some(Comma)
    case '(' => Some(LeftParenthesis)
    case ')' => Some(RightParenthesis)
    case '{' => Some(LeftBrace)
    case '}' => Some(RightBrace)
    case '[' => Some(LeftBracket)
    case ']' => Some(RightBracket)
    case ':' => Some(Colon)
    case _ => None
  }

  /** Where tokeniseNumber's loop stops when it starts peeking at i: the end
      of the run of digits beginning at i. */
  function NumberEnd(src: string, i: nat): (j: nat)
    requires i <= |src|
    ensures i <= j <= |src|
    ensures forall k :: i <= k < j ==> IsDigit(src[k])
    ensures !DigitAt(CharAt(src, j))
    decreases |src| - i
  {
    if DigitAt(CharAt(src, i)) then NumberEnd(src, i + 1) else i
  }

  /** Where tokeniseIdent's loop stops when it starts peeking at i: the end
      of the run of letters and digits beginning at i. */
  function WordEnd(src: string, i: nat): (j: nat)
    requires i <= |src|
    ensures i <= j <= |src|
    ensures forall k :: i <= k < j ==> IsAlphaNumeric(src[k])
    ensures !AlphaNumericAt(CharAt(src, j))
    decreases |src| - i
  {
    if AlphaNumericAt(CharAt(src, i)) then WordEnd(src, i + 1) else i
  }

  /** The end of a run of digits is determined by the run. */
  lemma {:induction false} NumberEndUnique(src: string, i: nat, j: nat)
    requires i <= j <= |src|
    requires forall k :: i <= k < j ==> IsDigit(src[k])
    requires j == |src| || !IsDigit(src[j])
    ensures NumberEnd(src, i) == j
    decreases j - i
  {
    if i < j {
      NumberEndUnique(src, i + 1, j);
    }
  }

  /** The end of a run of letters and digits is determined by the run. */
  lemma {:induction false} WordEndUnique(src: string, i: nat, j: nat)
    requires i <= j <= |src|
    requires forall k :: i <= k < j ==> IsAlphaNumeric(src[k])
    requires j == |src| || !IsAlphaNumeric(src[j])
    ensures WordEnd(src, i) == j
    decreases j - i
  {
    if i < j {
      WordEndUnique(src, i + 1, j);
    }
  }

  /** What tokenise(c) yields when c has just been read and the next unread
      index is j, together with the next unread index afterwards. Characters
      that start no token (space, tab, newline, anything unrecognised) give
      the placeholder IDK. */
  function ReadToken(src: string, c: char, j: nat): (r: (Token, nat))
    requires j <= |src|
    ensures j <= r.1 <= |src|
    ensures r.0.kind !in {EOF, Equal, NotEqual}
    ensures r.0.kind == IDK ==> r.0.literal == "" && r.1 == j
  {
    match PunctuationKind(c)
    case Some(k) => (Token(k, [c]), j)
    case None =>
      if IsDigit(c) then
        var e := NumberEnd(src, j);
        (Token(Int, [c] + src[j..e]), e)
      else if IsAlpha(c) then
        var e := WordEnd(src, j);
        var word := [c] + src[j..e];
        (Token(WordKind(word), word), e)
      else
        (Token(IDK, ""), j)
  }

  /** The tokens lex produces from index i on: one token per non-placeholder
      tokenise, then the end-of-input token. */
  function ScanFrom(src: string, i: nat): seq<Token>
    decreases |src| - i
  {
    if |src| <= i then
      [Token(EOF, "")]
    else
      var (t, j) := ReadToken(src, src[i], i + 1);
      (if t.kind == IDK then [] else [t]) + ScanFrom(src, j)
  }

  /** One iteration of lex's loop, as an equation on ScanFrom. */
  lemma ScanFromStep(src: string, i: nat)
    requires i < |src|
    ensures var (t, j) := ReadToken(src, src[i], i + 1);
            ScanFrom(src, i) == (if t.kind == IDK then [] else [t]) + ScanFrom(src, j)
  {
  }

  /** lex on the whole text. */
  function Scan(src: string): seq<Token> {
    ScanFrom(src, 0)
  }

  class Lexer {
    const src: string
    var index: nat
    var peekIndex: nat

    ghost predicate Valid()
      reads this
    {
      index <= |src| && peekIndex == index + 1
    }

    constructor (src: string)
      ensures Valid() && this.src == src && index == 0
    {
      this.src := src;
      index := 0;
      peekIndex := 1;
    }

    /** peek: the current character, None past the end. */
    function Peek(): (o: Option<char>)
      reads this
      ensures o.Some? <==> index < |src|
      ensures o.Some? ==> o.value == src[index]
    {
      CharAt(src, index)
    }

    function PeekNext(): (o: Option<char>)
      reads this
      requires Valid()
      ensures o == CharAt(src, index + 1)
    {
      CharAt(src, peekIndex)
    }

    method Advance() returns (c: char)
      requires Valid() && index < |src|
      modifies this
      ensures Valid() && index == old(index) + 1
      ensures c == src[old(index)]
    {
      c := src[index];
      index := index + 1;
      peekIndex := peekIndex + 1;
    }

    method TokeniseNumber(c: char) returns (t: Token)
      requires Valid()
      modifies this
      ensures Valid() && index == NumberEnd(src, old(index))
      ensures t == Token(Int, [c] + src[old(index)..index])
    {
      t := Token(Int, [c]);
      while DigitAt(Peek())
        invariant Valid() && old(index) <= index
        invariant NumberEnd(src, index) == NumberEnd(src, old(index))
        invariant t == Token(Int, [c] + src[old(index)..index])
        decreases |src| - index
      {
        var d := Advance();
        t := t.(literal := t.literal + [d]);
      }
    }

    method TokeniseIdent(c: char) returns (t: Token)
      requires Valid()
      modifies this
      ensures Valid() && index == WordEnd(src, old(index))
      ensures t == Token(WordKind([c] + src[old(index)..index]), [c] + src[old(index)..index])
    {
      var literal := [c];
      while AlphaNumericAt(Peek())
        invariant Valid() && old(index) <= index
        invariant WordEnd(src, index) == WordEnd(src, old(index))
        invariant literal == [c] + src[old(index)..index]
        decreases |src| - index
      {
        var d := Advance();
        literal := literal + [d];
      }
      if literal in KeywordMap {
        t := Token(KeywordMap[literal], literal);
      } else {
        t := Token(Identifier, literal);
      }
    }

    method Tokenise(c: char) returns (t: Token)
      requires Valid()
      modifies this
      ensures Valid()
      ensures (t, index) == ReadToken(src, c, old(index))
    {
      var k := PunctuationKind(c);
      if k.Some? {
        t := Token(k.value, [c]);
      } else if IsDigit(c) {
        t := TokeniseNumber(c);
      } else if IsAlpha(c) {
        t := TokeniseIdent(c);
      } else {
        t := Token(IDK, "");
      }
    }

    /** lex ignores its argument and scans the text the lexer was built with. */
    method Lex(source: string) returns (tokens: seq<Token>)
      requires Valid()
      modifies this
      ensures Valid() && index == |src|
      ensures tokens == ScanFrom(src, old(index))
    {
      tokens := [];
      while index < |src|
        invariant Valid()
        invariant tokens + ScanFrom(src, index) == ScanFrom(src, old(index))
        decreases |src| - index
      {
        ghost var i := index;
        var c := Advance();
        var t := Tokenise(c);
        ScanFromStep(src, i);
        if t.kind != IDK {
          tokens := tokens + [t];
        }
      }
      tokens := tokens + [Token(EOF, "")];
    }
  }
}
