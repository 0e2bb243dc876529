/** A reference tokenizer for the expression language, written independently of
    the scanner's state machine: it reads the input lexeme by lexeme with maximal
    munch. The scanner in module Lexer is proved to produce exactly its result. */
module Reference {
  import opened Token

  /** Prefixes a token list to a successful result; an error stays an error. */
  function Prepend(ts: seq<TokenType>, r: Result<seq<TokenType>>): (p: Result<seq<TokenType>>)
    ensures p.Ok? <==> r.Ok?
    ensures p.Ok? ==> p.value == ts + r.value
    ensures p.Err? ==> p.error == r.error
  {
    match r
    case Ok(v) => Ok(ts + v)
    case Err(e) => Err(e)
  }

  lemma PrependPrepend(a: seq<TokenType>, b: seq<TokenType>, r: Result<seq<TokenType>>)
    ensures Prepend(a, Prepend(b, r)) == Prepend(a + b, r)
  {
    if r.Ok? {
      assert a + (b + r.value) == (a + b) + r.value;
    }
  }

  lemma PrependEmpty(r: Result<seq<TokenType>>)
    ensures Prepend([], r) == r
  {
    if r.Ok? {
      assert [] + r.value == r.value;
    }
  }

  predicate DigitsIn(input: string, i: int, j: int)
    requires 0 <= i <= j <= |input|
  {
    forall k :: i <= k < j ==> IsDigit(input[k])
  }

  predicate WordCharsIn(input: string, i: int, j: int)
    requires 0 <= i <= j <= |input|
  {
    forall k :: i <= k < j ==> IsWordChar(input[k])
  }

  /** Whether the character at position `k`, if any, is `=`: the one-character lookahead. */
  predicate NextIsEquals(input: string, k: nat) {
    k < |input| && input[k] == '='
  }

  /** The end of the maximal run of digits starting at `i`. */
  function DigitRunEnd(input: string, i: nat): (j: nat)
    requires i <= |input|
    ensures i <= j <= |input|
    ensures DigitsIn(input, i, j)
    ensures j < |input| ==> !IsDigit(input[j])
    decreases |input| - i
  {
    if i < |input| && IsDigit(input[i]) then DigitRunEnd(input, i + 1) else i
  }

  /** The end of the maximal run of word characters (letters, digits, anything
      but whitespace and symbols) starting at `i`. */
  function WordRunEnd(input: string, i: nat): (j: nat)
    requires i <= |input|
    ensures i <= j <= |input|
    ensures WordCharsIn(input, i, j)
    ensures j < |input| ==> !IsWordChar(input[j])
    decreases |input| - i
  {
    if i < |input| && IsWordChar(input[i]) then WordRunEnd(input, i + 1) else i
  }

  /** A run of digits that cannot be extended ends where `DigitRunEnd` says. */
  lemma {:induction false} DigitRunEndIs(input: string, i: nat, k: nat)
    requires i <= k <= |input| && DigitsIn(input, i, k)
    requires k < |input| ==> !IsDigit(input[k])
    ensures DigitRunEnd(input, i) == k
    decreases k - i
  {
    if i < k {
      DigitRunEndIs(input, i + 1, k);
    }
  }

  /** Any run of digits from `i` lies inside the maximal one. */
  lemma {:induction false} DigitRunEndAtLeast(input: string, i: nat, k: nat)
    requires i <= k <= |input| && DigitsIn(input, i, k)
    ensures DigitRunEnd(input, i) >= k
    decreases k - i
  {
    if i < k {
      DigitRunEndAtLeast(input, i + 1, k);
    }
  }

  /** A run of word characters that cannot be extended ends where `WordRunEnd` says. */
  lemma {:induction false} WordRunEndIs(input: string, i: nat, k: nat)
    requires i <= k <= |input| && WordCharsIn(input, i, k)
    requires k < |input| ==> !IsWordChar(input[k])
    ensures WordRunEnd(input, i) == k
    decreases k - i
  {
    if i < k {
      WordRunEndIs(input, i + 1, k);
    }
  }

  /** The tokens of `input[i..]`: whitespace is skipped; a symbol gives one
      operator (two characters when `<`, `>` or `=` is followed by `=`); a maximal
      digit run gives one number, or an overflow error; a maximal word run that
      starts with a non-digit gives a keyword or identifier. */
  function LexFrom(input: string, i: nat): Result<seq<TokenType>>
    requires i <= |input|
    decreases |input| - i
  {
    if i == |input| then Ok([])
    else
      var c := input[i];
      if IsWhitespace(c) then LexFrom(input, i + 1)
      else if IsSymbol(c) then
        var (t, extra) := SymbolToken(c, NextIsEquals(input, i + 1));
        Prepend([t], LexFrom(input, i + 1 + extra))
      else if IsDigit(c) then
        var j := DigitRunEnd(input, i);
        var v := DecimalValue(input[i..j]);
        if v > USIZE_MAX then Err(NumericOverflow)
        else Prepend([Number(v as usize)], LexFrom(input, j))
      else
        var j := WordRunEnd(input, i);
        Prepend([Keyword(input[i..j])], LexFrom(input, j))
  }

  /** Whitespace is skipped. */
  lemma LexFromWhitespace(input: string, i: nat)
    requires i < |input| && IsWhitespace(input[i])
    ensures LexFrom(input, i) == LexFrom(input, i + 1)
  {
  }

  /** A symbol gives exactly one token, consuming one character or two. */
  lemma LexFromSymbol(input: string, i: nat)
    requires i < |input| && IsSymbol(input[i])
    ensures var op := SymbolToken(input[i], NextIsEquals(input, i + 1));
      LexFrom(input, i) == Prepend([op.0], LexFrom(input, i + 1 + op.1))
  {
  }

  /** One unfolding of `LexFrom` at a digit run that ends at `j` and fits a `usize`. */
  lemma LexFromNumber(input: string, i: nat, j: nat)
    requires i < j <= |input| && DigitsIn(input, i, j)
    requires j < |input| ==> !IsDigit(input[j])
    requires DecimalValue(input[i..j]) <= USIZE_MAX
    ensures LexFrom(input, i) == Prepend([Number(DecimalValue(input[i..j]) as usize)], LexFrom(input, j))
  {
    assert IsDigit(input[i]);
    DigitRunEndIs(input, i, j);
  }

  /** One unfolding of `LexFrom` at a word run that ends at `j`. */
  lemma LexFromWord(input: string, i: nat, j: nat)
    requires i < j <= |input| && WordCharsIn(input, i, j) && !IsDigit(input[i])
    requires j < |input| ==> !IsWordChar(input[j])
    ensures LexFrom(input, i) == Prepend([Keyword(input[i..j])], LexFrom(input, j))
  {
    assert IsWordChar(input[i]);
    WordRunEndIs(input, i, j);
  }

  /** The token sequence of a whole input, without the end-of-input sentinel. */
  function Tokenize(input: string): Result<seq<TokenType>> {
    LexFrom(input, 0)
  }

  /** What the scanner's driver returns: the tokens followed by the sentinel. */
  function WithEof(r: Result<seq<TokenType>>): (e: Result<seq<TokenType>>)
    ensures e.Ok? <==> r.Ok?
    ensures e.Ok? ==> |e.value| > 0 && e.value[|e.value| - 1] == EOF && e.value[..|e.value| - 1] == r.value
  {
    match r
    case Ok(ts) => Ok(ts + [EOF])
    case Err(e) => Err(e)
  }

  /** An identifier as the tokenizer forms it: non-empty, not starting with a
      digit, free of whitespace and symbols, and not a reserved word. */
  predicate ValidIdentifier(name: string) {
    |name| > 0 && !IsDigit(name[0]) && !IsKeyword(name)
    && forall k :: 0 <= k < |name| ==> IsWordChar(name[k])
  }

  predicate WellFormedToken(t: TokenType) {
    t != EOF && (t.Identifier? ==> ValidIdentifier(t.name))
  }

  predicate WellFormedTokens(ts: seq<TokenType>) {
    forall k :: 0 <= k < |ts| ==> WellFormedToken(ts[k])
  }

  /** Every token the tokenizer produces is well formed; in particular `EOF`
      never occurs and no identifier is a reserved word. */
  lemma {:induction false} LexFromWellFormed(input: string, i: nat)
    requires i <= |input|
    ensures LexFrom(input, i).Ok? ==> WellFormedTokens(LexFrom(input, i).value)
    decreases |input| - i
  {
    if i < |input| {
      var c := input[i];
      if IsWhitespace(c) {
        LexFromWellFormed(input, i + 1);
      } else if IsSymbol(c) {
        var (t, extra) := SymbolToken(c, NextIsEquals(input, i + 1));
        LexFromWellFormed(input, i + 1 + extra);
      } else if IsDigit(c) {
        LexFromWellFormed(input, DigitRunEnd(input, i));
      } else {
        var j := WordRunEnd(input, i);
        LexFromWellFormed(input, j);
        var w := input[i..j];
        assert w[0] == c;
        assert forall k :: 0 <= k < |w| ==> IsWordChar(w[k]) by {
          forall k | 0 <= k < |w| ensures IsWordChar(w[k]) {
            assert w[k] == input[i + k];
          }
        }
      }
    }
  }

  /** The driver's result ends with exactly one `EOF`, at the end. */
  lemma TokenizeEndsWithEof(input: string)
    ensures var r := WithEof(Tokenize(input));
      r.Ok? ==>
        && |r.value| > 0 && r.value[|r.value| - 1] == EOF
        && forall k :: 0 <= k < |r.value| - 1 ==> r.value[k] != EOF
  {
    LexFromWellFormed(input, 0);
    var r := WithEof(Tokenize(input));
    if r.Ok? {
      forall k | 0 <= k < |r.value| - 1 ensures r.value[k] != EOF {
        assert r.value[k] == Tokenize(input).value[k];
      }
    }
  }
}
