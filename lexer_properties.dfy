/** What the scanner guarantees about the token sequence it produces. */
module LexerProperties {
  import opened Wrappers
  import opened Tokens
  import opened Lexing

  /** The output ends with exactly one end-of-input token, whose literal is
      empty, and holds no placeholder and no two-character operator. */
  lemma {:induction false} ScanShape(src: string, i: nat)
    ensures var r := ScanFrom(src, i);
            && |r| >= 1
            && r[|r| - 1] == Token(EOF, "")
            && (forall k :: 0 <= k < |r| - 1 ==> r[k].kind != EOF)
            && (forall k :: 0 <= k < |r| ==> r[k].kind !in {IDK, Equal, NotEqual})
    decreases |src| - i
  {
    if i < |src| {
      var (t, j) := ReadToken(src, src[i], i + 1);
      ScanShape(src, j);
      ScanFromStep(src, i);
    }
  }

  /** A punctuation character yields one token of its kind whose literal is the character. */
  lemma ScanPunctuation(src: string, i: nat)
    requires i < |src| && PunctuationKind(src[i]).Some?
    ensures ScanFrom(src, i) == [Token(PunctuationKind(src[i]).value, [src[i]])] + ScanFrom(src, i + 1)
  {
    ScanFromStep(src, i);
  }

  /** Any character that is no digit, no letter and no punctuation (space, tab,
      carriage return, newline, '.', '"', ...) produces no token. */
  lemma ScanSkips(src: string, i: nat)
    requires i < |src|
    requires PunctuationKind(src[i]).None? && !IsDigit(src[i]) && !IsAlpha(src[i])
    ensures ScanFrom(src, i) == ScanFrom(src, i + 1)
  {
    ScanFromStep(src, i);
  }

  /** A digit starts an Int token whose literal is the maximal run of digits src[i..j]. */
  lemma ScanNumber(src: string, i: nat, j: nat)
    requires i < j <= |src|
    requires forall k :: i <= k < j ==> IsDigit(src[k])
    requires j == |src| || !IsDigit(src[j])
    ensures ScanFrom(src, i) == [Token(Int, src[i..j])] + ScanFrom(src, j)
  {
    ScanFromStep(src, i);
    NumberEndUnique(src, i + 1, j);
    assert [src[i]] + src[i + 1..j] == src[i..j];
  }

  /** A letter starts a token whose literal is the maximal run of letters and
      digits src[i..j]; its kind is the keyword's kind or Identifier. */
  lemma ScanWord(src: string, i: nat, j: nat)
    requires i < j <= |src| && IsAlpha(src[i])
    requires forall k :: i <= k < j ==> IsAlphaNumeric(src[k])
    requires j == |src| || !IsAlphaNumeric(src[j])
    ensures ScanFrom(src, i) == [Token(WordKind(src[i..j]), src[i..j])] + ScanFrom(src, j)
    ensures src[i..j] in KeywordMap ==> ScanFrom(src, i)[0].kind == KeywordMap[src[i..j]]
    ensures src[i..j] !in KeywordMap ==> ScanFrom(src, i)[0].kind == Identifier
  {
    ScanFromStep(src, i);
    WordEndUnique(src, i + 1, j);
    assert [src[i]] + src[i + 1..j] == src[i..j];
  }

  /** `==` is two Assign tokens and `!=` is Bang then Assign. */
  lemma NoTwoCharacterOperators()
    ensures Scan("==") == [Token(Assign, "="), Token(Assign, "="), Token(EOF, "")]
    ensures Scan("!=") == [Token(Bang, "!"), Token(Assign, "="), Token(EOF, "")]
  {
    ScanPunctuation("==", 0);
    ScanPunctuation("==", 1);
    ScanPunctuation("!=", 0);
    ScanPunctuation("!=", 1);
  }

  lemma ScanArithmeticTail(s: string)
    requires s == "1 + 2 * 3;"
    ensures ScanFrom(s, 6) == [Token(Asterisk, "*"), Token(Int, "3"), Token(Semicolon, ";"), Token(EOF, "")]
  {
    assert ScanFrom(s, 8) == [Token(Int, "3"), Token(Semicolon, ";"), Token(EOF, "")] by {
      ScanPunctuation(s, 9);
      ScanNumber(s, 8, 9);
      assert s[8..9] == "3";
    }
    ScanSkips(s, 7);
    ScanPunctuation(s, 6);
  }

  lemma ScanArithmeticMiddle(s: string)
    requires s == "1 + 2 * 3;"
    ensures ScanFrom(s, 2) == [Token(Plus, "+"), Token(Int, "2"), Token(Asterisk, "*"),
                               Token(Int, "3"), Token(Semicolon, ";"), Token(EOF, "")]
  {
    ScanArithmeticTail(s);
    ScanSkips(s, 5);
    ScanNumber(s, 4, 5);
    assert s[4..5] == "2";
    ScanSkips(s, 3);
    ScanPunctuation(s, 2);
  }

  /** The scanner reads `1 + 2 * 3;` as Int, Plus, Int, Asterisk, Int, Semicolon, EOF. */
  lemma ScanArithmetic(s: string)
    requires s == "1 + 2 * 3;"
    ensures ScanFrom(s, 0) == [Token(Int, "1"), Token(Plus, "+"), Token(Int, "2"),
                        Token(Asterisk, "*"), Token(Int, "3"), Token(Semicolon, ";"),
                        Token(EOF, "")]
  {
    ScanArithmeticMiddle(s);
    ScanSkips(s, 1);
    ScanNumber(s, 0, 1);
    assert s[0..1] == "1";
  }

  /** With the source's isAlphaNumeric, tokeniseIdent's loop guard is true at
      every index it can reach once the remaining text is all letters and
      digits: the loop never stops when the source ends inside a word. */
  lemma WordLoopNeverStopsAsWritten(src: string, i: nat)
    requires i <= |src|
    requires forall k :: i <= k < |src| ==> IsAlphaNumeric(src[k])
    ensures forall k: nat :: i <= k ==> AlphaNumericAsWritten(CharAt(src, k))
  {
  }

  /** The concrete case: the text `x`. After reading `x`, the as-written guard
      holds at every later index, while the modelled loop stops at the end. */
  lemma WordAtEndAsWritten()
    ensures forall k: nat :: 1 <= k ==> AlphaNumericAsWritten(CharAt("x", k))
    ensures WordEnd("x", 1) == 1
    ensures Scan("x") == [Token(Identifier, "x"), Token(EOF, "")]
  {
    WordLoopNeverStopsAsWritten("x", 1);
    ScanWord("x", 0, 1);
    assert "x"[0..1] == "x";
    assert WordKind("x") == Identifier;
  }
}
