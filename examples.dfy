/** Concrete inputs and the token sequences the scanner produces for them.
    By `Lexer.LexAll`, scanning an input returns `WithEof(Tokenize(input))`,
    so each lemma states the scanner's output. */
module Examples {
  import opened Token
  import opened Reference

  /** Builds a tokenization back to front: a token emitted at `i` followed by
      the tokens from `j`. */
  lemma ConsToken(input: string, i: nat, j: nat, want: seq<TokenType>, k: nat)
    requires i <= j <= |input| && k < |want|
    requires LexFrom(input, i) == Prepend([want[k]], LexFrom(input, j))
    requires LexFrom(input, j) == Ok(want[k + 1..])
    ensures LexFrom(input, i) == Ok(want[k..])
  {
    assert [want[k]] + want[k + 1..] == want[k..];
  }

  /** A word from `i` to `j` is the `k`-th token. */
  lemma ConsWord(input: string, i: nat, j: nat, want: seq<TokenType>, k: nat)
    requires i < j <= |input| && k < |want|
    requires IsWordChar(input[i]) && !IsDigit(input[i]) && WordRunEnd(input, i) == j
    requires want[k] == Keyword(input[i..j])
    requires LexFrom(input, j) == Ok(want[k + 1..])
    ensures LexFrom(input, i) == Ok(want[k..])
  {
    ConsToken(input, i, j, want, k);
  }

  /** A digit run from `i` to `j` is the `k`-th token. */
  lemma ConsNumber(input: string, i: nat, j: nat, want: seq<TokenType>, k: nat)
    requires i < j <= |input| && k < |want|
    requires IsDigit(input[i]) && DigitRunEnd(input, i) == j
    requires DecimalValue(input[i..j]) <= USIZE_MAX
    requires want[k] == Number(DecimalValue(input[i..j]) as usize)
    requires LexFrom(input, j) == Ok(want[k + 1..])
    ensures LexFrom(input, i) == Ok(want[k..])
  {
    ConsToken(input, i, j, want, k);
  }

  /** A symbol at `i`, of one or two characters, is the `k`-th token. */
  lemma ConsSymbol(input: string, i: nat, want: seq<TokenType>, k: nat)
    requires i < |input| && k < |want| && IsSymbol(input[i])
    requires var op := SymbolToken(input[i], NextIsEquals(input, i + 1));
      want[k] == op.0 && LexFrom(input, i + 1 + op.1) == Ok(want[k + 1..])
    ensures LexFrom(input, i) == Ok(want[k..])
  {
    LexFromSymbol(input, i);
    var op := SymbolToken(input[i], NextIsEquals(input, i + 1));
    ConsToken(input, i, i + 1 + op.1, want, k);
  }

  lemma EndOfInput(input: string, want: seq<TokenType>)
    ensures LexFrom(input, |input|) == Ok(want[|want|..])
  {
    assert want[|want|..] == [];
  }

  lemma Whole(input: string, want: seq<TokenType>, full: seq<TokenType>)
    requires LexFrom(input, 0) == Ok(want[0..])
    requires |full| == |want| + 1 && full[|want|] == EOF
    requires forall k :: 0 <= k < |want| ==> full[k] == want[k]
    ensures WithEof(Tokenize(input)) == Ok(full)
  {
    assert want[0..] == want;
    assert want + [EOF] == full;
  }

  /** `s` has the characters of `t`. Stated character by character, so that
      the proofs below unfold the scan one position at a time. */
  predicate Spells(s: string, t: string) {
    |s| == |t| && forall k :: 0 <= k < |t| ==> s[k] == t[k]
  }

  // The worked example `let num = 3 in num * num`, a token or two at a time
  // from the end.

  /** Where the lexemes of `let num` end, and what they spell. */
  lemma LetExampleHeadLexemes(s: string)
    requires Spells(s, "let num = 3 in num * num")
    ensures WordRunEnd(s, 0) == 3 && s[0..3] == "let"
    ensures WordRunEnd(s, 4) == 7 && s[4..7] == "num"
  {
    assert WordRunEnd(s, 3) == 3;
    assert WordRunEnd(s, 2) == 3;
    assert WordRunEnd(s, 1) == 3;
    assert WordRunEnd(s, 0) == 3;
    assert s[0..3] == "let";
    assert WordRunEnd(s, 7) == 7;
    assert WordRunEnd(s, 6) == 7;
    assert WordRunEnd(s, 5) == 7;
    assert WordRunEnd(s, 4) == 7;
    assert s[4..7] == "num";
  }

  /** Where the number `3` ends, and its value. */
  lemma LetExampleNumberLexeme(s: string)
    requires Spells(s, "let num = 3 in num * num")
    ensures DigitRunEnd(s, 10) == 11 && DecimalValue(s[10..11]) == 3
  {
    assert DigitRunEnd(s, 11) == 11;
    assert DigitRunEnd(s, 10) == 11;
    assert s[10..11] == "3";
    assert DecimalValue("3") == 3;
  }

  /** Where the lexemes of `in num * num` end, and what they spell. */
  lemma LetExampleTailLexemes(s: string)
    requires Spells(s, "let num = 3 in num * num")
    ensures WordRunEnd(s, 12) == 14 && s[12..14] == "in"
    ensures WordRunEnd(s, 15) == 18 && s[15..18] == "num"
    ensures WordRunEnd(s, 21) == 24 && s[21..24] == "num"
  {
    assert WordRunEnd(s, 14) == 14;
    assert WordRunEnd(s, 13) == 14;
    assert WordRunEnd(s, 12) == 14;
    assert s[12..14] == "in";
    assert WordRunEnd(s, 18) == 18;
    assert WordRunEnd(s, 17) == 18;
    assert WordRunEnd(s, 16) == 18;
    assert WordRunEnd(s, 15) == 18;
    assert s[15..18] == "num";
    assert WordRunEnd(s, 24) == 24;
    assert WordRunEnd(s, 23) == 24;
    assert WordRunEnd(s, 22) == 24;
    assert WordRunEnd(s, 21) == 24;
    assert s[21..24] == "num";
  }

  /** `* num`, from position 19. */
  lemma LetExampleFrom19(s: string)
    requires Spells(s, "let num = 3 in num * num")
    ensures LexFrom(s, 19) == Ok([Operator(Asterisk), Identifier("num")])
  {
    LetExampleTailLexemes(s);
    var want := [Operator(Asterisk), Identifier("num")];
    EndOfInput(s, want);
    ConsWord(s, 21, 24, want, 1);
    LexFromWhitespace(s, 20);
    ConsSymbol(s, 19, want, 0);
    assert want[0..] == want;
  }

  /** `in num * num`, from position 12. */
  lemma LetExampleFrom12(s: string)
    requires Spells(s, "let num = 3 in num * num")
    ensures LexFrom(s, 12) == Ok([In, Identifier("num"), Operator(Asterisk), Identifier("num")])
  {
    LetExampleTailLexemes(s);
    var want := [In, Identifier("num"), Operator(Asterisk), Identifier("num")];
    LetExampleFrom19(s);
    assert want[2..] == [Operator(Asterisk), Identifier("num")];
    LexFromWhitespace(s, 18);
    ConsWord(s, 15, 18, want, 1);
    LexFromWhitespace(s, 14);
    ConsWord(s, 12, 14, want, 0);
    assert want[0..] == want;
  }

  /** `3 in num * num`, from position 10. */
  lemma LetExampleFrom10(s: string)
    requires Spells(s, "let num = 3 in num * num")
    ensures LexFrom(s, 10)
      == Ok([Number(3), In, Identifier("num"), Operator(Asterisk), Identifier("num")])
  {
    LetExampleNumberLexeme(s);
    var want := [Number(3), In, Identifier("num"), Operator(Asterisk), Identifier("num")];
    LetExampleFrom12(s);
    assert want[1..] == [In, Identifier("num"), Operator(Asterisk), Identifier("num")];
    LexFromWhitespace(s, 11);
    ConsNumber(s, 10, 11, want, 0);
    assert want[0..] == want;
  }

  /** `num = 3 in num * num`, from position 4. */
  lemma LetExampleFrom4(s: string)
    requires Spells(s, "let num = 3 in num * num")
    ensures LexFrom(s, 4)
      == Ok([Identifier("num"), Assignment, Number(3), In, Identifier("num"), Operator(Asterisk), Identifier("num")])
  {
    LetExampleHeadLexemes(s);
    var want := [Identifier("num"), Assignment, Number(3), In, Identifier("num"), Operator(Asterisk), Identifier("num")];
    LetExampleFrom10(s);
    assert want[2..] == [Number(3), In, Identifier("num"), Operator(Asterisk), Identifier("num")];
    LexFromWhitespace(s, 9);
    ConsSymbol(s, 8, want, 1);
    LexFromWhitespace(s, 7);
    ConsWord(s, 4, 7, want, 0);
    assert want[0..] == want;
  }

  /** `let num = 3 in num * num` gives
      `[Let, Identifier("num"), Assignment, Number(3), In, Identifier("num"), Operator(Asterisk), Identifier("num"), EOF]`. */
  lemma LetExample(s: string)
    requires Spells(s, "let num = 3 in num * num")
    ensures WithEof(Tokenize(s)) == Ok([
      Let, Identifier("num"), Assignment, Number(3), In,
      Identifier("num"), Operator(Asterisk), Identifier("num"), EOF])
  {
    LetExampleHeadLexemes(s);
    var want := [Let, Identifier("num"), Assignment, Number(3), In,
                 Identifier("num"), Operator(Asterisk), Identifier("num")];
    LetExampleFrom4(s);
    assert want[1..] == [Identifier("num"), Assignment, Number(3), In, Identifier("num"), Operator(Asterisk), Identifier("num")];
    LexFromWhitespace(s, 3);
    ConsWord(s, 0, 3, want, 0);
    Whole(s, want, [
      Let, Identifier("num"), Assignment, Number(3), In,
      Identifier("num"), Operator(Asterisk), Identifier("num"), EOF]);
  }

  // The unit test beside the scanner feeds it `let num = 3 in num * num` but
  // expects the tokens of `== = a <= true >`.

  /** The expectation written in the unit test does not hold for its input. */
  lemma LexerTestAsWritten(s: string)
    requires Spells(s, "let num = 3 in num * num")
    ensures WithEof(Tokenize(s)) != Ok([
      Operator(Equal), Assignment, Identifier("a"), Operator(Ltoeq),
      Boolean(True), Operator(Gt), EOF])
  {
    LetExample(s);
  }

  lemma LexerTestLexemes(s: string)
    requires Spells(s, "== = a <= true >")
    ensures WordRunEnd(s, 5) == 6 && s[5..6] == "a"
    ensures WordRunEnd(s, 10) == 14 && s[10..14] == "true"
  {
    assert WordRunEnd(s, 6) == 6;
    assert WordRunEnd(s, 5) == 6;
    assert s[5..6] == "a";
    assert WordRunEnd(s, 14) == 14;
    assert WordRunEnd(s, 13) == 14;
    assert WordRunEnd(s, 12) == 14;
    assert WordRunEnd(s, 11) == 14;
    assert WordRunEnd(s, 10) == 14;
    assert s[10..14] == "true";
  }

  /** `<= true >`, from position 7 of the input the unit test's expectation fits. */
  lemma LexerTestFrom7(s: string)
    requires Spells(s, "== = a <= true >")
    ensures LexFrom(s, 7) == Ok([Operator(Ltoeq), Boolean(True), Operator(Gt)])
  {
    LexerTestLexemes(s);
    var want := [Operator(Ltoeq), Boolean(True), Operator(Gt)];
    EndOfInput(s, want);
    ConsSymbol(s, 15, want, 2);
    LexFromWhitespace(s, 14);
    ConsWord(s, 10, 14, want, 1);
    LexFromWhitespace(s, 9);
    ConsSymbol(s, 7, want, 0);
    assert want[0..] == want;
  }

  /** The unit test's expectation is the scan of `== = a <= true >`. */
  lemma LexerTestIntended(s: string)
    requires Spells(s, "== = a <= true >")
    ensures WithEof(Tokenize(s)) == Ok([
      Operator(Equal), Assignment, Identifier("a"), Operator(Ltoeq),
      Boolean(True), Operator(Gt), EOF])
  {
    LexerTestLexemes(s);
    var want := [Operator(Equal), Assignment, Identifier("a"), Operator(Ltoeq), Boolean(True), Operator(Gt)];
    LexerTestFrom7(s);
    assert want[3..] == [Operator(Ltoeq), Boolean(True), Operator(Gt)];
    LexFromWhitespace(s, 6);
    ConsWord(s, 5, 6, want, 2);
    LexFromWhitespace(s, 4);
    ConsSymbol(s, 3, want, 1);
    LexFromWhitespace(s, 2);
    ConsSymbol(s, 0, want, 0);
    Whole(s, want, [
      Operator(Equal), Assignment, Identifier("a"), Operator(Ltoeq),
      Boolean(True), Operator(Gt), EOF]);
  }

  /** `<==` is `<=` followed by a lone `=`: the lookahead consumes one `=` only. */
  lemma LtoeqThenAssignment()
    ensures WithEof(Tokenize("<==")) == Ok([Operator(Ltoeq), Assignment, EOF])
  {
    var s := "<==";
    var want := [Operator(Ltoeq), Assignment];
    EndOfInput(s, want);
    ConsSymbol(s, 2, want, 1);
    ConsSymbol(s, 0, want, 0);
    Whole(s, want, [Operator(Ltoeq), Assignment, EOF]);
  }

  /** `a <= b` gives `[Identifier("a"), Operator(Ltoeq), Identifier("b"), EOF]`. */
  lemma LessOrEqualExample(s: string)
    requires Spells(s, "a <= b")
    ensures WithEof(Tokenize(s)) == Ok([Identifier("a"), Operator(Ltoeq), Identifier("b"), EOF])
  {
    assert WordRunEnd(s, 6) == 6;
    assert WordRunEnd(s, 5) == 6;
    assert s[5..6] == "b";
    assert WordRunEnd(s, 1) == 1;
    assert WordRunEnd(s, 0) == 1;
    assert s[0..1] == "a";
    var want := [Identifier("a"), Operator(Ltoeq), Identifier("b")];
    EndOfInput(s, want);
    ConsWord(s, 5, 6, want, 2);
    LexFromWhitespace(s, 4);
    ConsSymbol(s, 2, want, 1);
    LexFromWhitespace(s, 1);
    ConsWord(s, 0, 1, want, 0);
    Whole(s, want, [Identifier("a"), Operator(Ltoeq), Identifier("b"), EOF]);
  }

  /** `x == 10` gives `[Identifier("x"), Operator(Equal), Number(10), EOF]`. */
  lemma EqualExample(s: string)
    requires Spells(s, "x == 10")
    ensures WithEof(Tokenize(s)) == Ok([Identifier("x"), Operator(Equal), Number(10), EOF])
  {
    assert DigitRunEnd(s, 7) == 7;
    assert DigitRunEnd(s, 6) == 7;
    assert DigitRunEnd(s, 5) == 7;
    assert s[5..7] == "10";
    assert DecimalValue("10") == 10;
    assert WordRunEnd(s, 1) == 1;
    assert WordRunEnd(s, 0) == 1;
    assert s[0..1] == "x";
    var want := [Identifier("x"), Operator(Equal), Number(10)];
    EndOfInput(s, want);
    ConsNumber(s, 5, 7, want, 2);
    LexFromWhitespace(s, 4);
    ConsSymbol(s, 2, want, 1);
    LexFromWhitespace(s, 1);
    ConsWord(s, 0, 1, want, 0);
    Whole(s, want, [Identifier("x"), Operator(Equal), Number(10), EOF]);
  }

  /** A run of digits is one number: `123` gives `[Number(123), EOF]`. */
  lemma DigitRunExample()
    ensures WithEof(Tokenize("123")) == Ok([Number(123), EOF])
  {
    var s := "123";
    var want := [Number(123)];
    EndOfInput(s, want);
    assert DigitRunEnd(s, 0) == 3 && s[0..3] == s;
    DecimalValueAppend("12", '3');
    assert "12" + ['3'] == s;
    ConsNumber(s, 0, 3, want, 0);
    Whole(s, want, [Number(123), EOF]);
  }

  /** A word may continue with digits: `x1` gives `[Identifier("x1"), EOF]`. */
  lemma TrailingDigitExample()
    ensures WithEof(Tokenize("x1")) == Ok([Identifier("x1"), EOF])
  {
    var s := "x1";
    var want := [Identifier("x1")];
    EndOfInput(s, want);
    assert WordRunEnd(s, 0) == 2 && s[0..2] == s;
    ConsWord(s, 0, 2, want, 0);
    Whole(s, want, [Identifier("x1"), EOF]);
  }

  /** A letter ends a number: `1x2` gives `[Number(1), Identifier("x2"), EOF]`. */
  lemma NumberThenWordExample()
    ensures WithEof(Tokenize("1x2")) == Ok([Number(1), Identifier("x2"), EOF])
  {
    var s := "1x2";
    var want := [Number(1), Identifier("x2")];
    EndOfInput(s, want);
    assert WordRunEnd(s, 1) == 3 && s[1..3] == "x2";
    ConsWord(s, 1, 3, want, 1);
    assert DigitRunEnd(s, 0) == 1 && s[0..1] == "1";
    assert DecimalValue("1") == 1;
    ConsNumber(s, 0, 1, want, 0);
    Whole(s, want, [Number(1), Identifier("x2"), EOF]);
  }

  /** A keyword prefix of a longer word is not a keyword: `inx` gives `[Identifier("inx"), EOF]`. */
  lemma KeywordPrefixExample()
    ensures WithEof(Tokenize("inx")) == Ok([Identifier("inx"), EOF])
  {
    var s := "inx";
    var want := [Identifier("inx")];
    EndOfInput(s, want);
    assert WordRunEnd(s, 0) == 3 && s[0..3] == s;
    ConsWord(s, 0, 3, want, 0);
    Whole(s, want, [Identifier("inx"), EOF]);
  }

  /** A reserved word alone: `true` gives `[Boolean(True), EOF]`. */
  lemma TrueExample()
    ensures WithEof(Tokenize("true")) == Ok([Boolean(True), EOF])
  {
    var s := "true";
    var want := [Boolean(True)];
    EndOfInput(s, want);
    assert WordRunEnd(s, 0) == 4 && s[0..4] == s;
    ConsWord(s, 0, 4, want, 0);
    Whole(s, want, [Boolean(True), EOF]);
  }

  /** Empty and whitespace-only inputs give just `[EOF]`. */
  lemma BlankExamples()
    ensures WithEof(Tokenize("")) == Ok([EOF])
    ensures WithEof(Tokenize(" \t\n")) == Ok([EOF])
  {
    var s := " \t\n";
    LexFromWhitespace(s, 2);
    LexFromWhitespace(s, 1);
    LexFromWhitespace(s, 0);
    assert LexFrom(s, 3) == Ok([]);
  }
}
