/** Tokens of the expression language and the character classification the
    scanner relies on (src/lexer.rs:1-38, 116-118, 121-129, 137, 147-155). */
module Token {

  /** Width of the source's `usize` (a 64-bit target). */
  const USIZE_MAX: int := 0xFFFF_FFFF_FFFF_FFFF

  newtype usize = x: int | 0 <= x <= 0xFFFF_FFFF_FFFF_FFFF

  datatype Option<+T> = None | Some(value: T)

  /** The one way a scan can fail: a digit run whose value does not fit a `usize`. */
  datatype LexError = NumericOverflow

  datatype Result<+T> = Ok(value: T) | Err(error: LexError)

  datatype OperatorType = Plus | Minus | Asterisk | Slash | Equal | Lt | Ltoeq | Gt | Gtoeq

  datatype BooleanType = True | False

  datatype LexerState = Initial | Numbers | Alphabets

  datatype TokenType =
    | Identifier(name: string)
    | Number(value: usize)
    | Boolean(b: BooleanType)
    | Operator(op: OperatorType)
    | Let
    | Assignment
    | In
    | EOF

  // ---------------------------------------------------------------------------
  // Character classes, restricted to ASCII

  predicate IsAscii(s: string) {
    forall i :: 0 <= i < |s| ==> s[i] < 128 as char
  }

  /** `char::is_whitespace` on ASCII: space, tab, line feed, vertical tab, form feed, carriage return. */
  predicate IsWhitespace(c: char) {
    c == ' ' || c == '\t' || c == '\n' || c == 11 as char || c == 12 as char || c == '\r'
  }

  /** The operator symbols that end a lexeme and start an operator token. */
  predicate IsSymbol(c: char) {
    c == '+' || c == '-' || c == '*' || c == '/' || c == '<' || c == '>' || c == '='
  }

  /** `char::is_numeric` on ASCII. */
  predicate IsDigit(c: char) {
    '0' <= c <= '9'
  }

  /** A character that may be part of a word: everything except whitespace and symbols. */
  predicate IsWordChar(c: char) {
    !IsWhitespace(c) && !IsSymbol(c)
  }

  function DigitValue(c: char): (d: nat)
    requires IsDigit(c)
    ensures d < 10
  {
    (c - '0') as nat
  }

  predicate AllDigits(s: string) {
    forall i :: 0 <= i < |s| ==> IsDigit(s[i])
  }

  /** The decimal value of a digit string, most significant digit first. */
  function DecimalValue(s: string): nat
    requires AllDigits(s)
  {
    if |s| == 0 then 0 else 10 * DecimalValue(s[..|s| - 1]) + DigitValue(s[|s| - 1])
  }

  /** Appending a digit multiplies by ten and adds it: what re-parsing a grown
      digit run computes. */
  lemma DecimalValueAppend(s: string, c: char)
    requires AllDigits(s) && IsDigit(c)
    ensures AllDigits(s + [c])
    ensures DecimalValue(s + [c]) == 10 * DecimalValue(s) + DigitValue(c)
  {
    assert (s + [c])[..|s|] == s;
  }

  /** A prefix of a digit string never has a larger value, so a run overflows
      as soon as one of its prefixes does. */
  lemma {:induction false} DecimalValuePrefix(s: string, k: nat)
    requires AllDigits(s) && k <= |s|
    ensures DecimalValue(s[..k]) <= DecimalValue(s)
  {
    if k < |s| {
      assert s[..|s| - 1][..k] == s[..k];
      DecimalValuePrefix(s[..|s| - 1], k);
    } else {
      assert s[..k] == s;
    }
  }

  // ---------------------------------------------------------------------------
  // Keywords

  predicate IsKeyword(word: string) {
    word == "true" || word == "false" || word == "let" || word == "in"
  }

  /** The text a keyword token stands for; the inverse of `Keyword`. */
  function KeywordText(t: TokenType): string {
    match t
    case Boolean(True) => "true"
    case Boolean(False) => "false"
    case Let => "let"
    case In => "in"
    case _ => ""
  }

  /** Resolves a whole lexeme: one of the reserved words gives its own token,
      anything else an identifier carrying the lexeme. */
  function Keyword(word: string): (t: TokenType)
    ensures t.Identifier? <==> !IsKeyword(word)
    ensures t.Identifier? ==> t.name == word
    ensures !t.Identifier? ==> KeywordText(t) == word
    ensures t.Boolean? || t.Let? || t.In? || t.Identifier?
  {
    if word == "true" then Boolean(True)
    else if word == "false" then Boolean(False)
    else if word == "let" then Let
    else if word == "in" then In
    else Identifier(word)
  }

  // ---------------------------------------------------------------------------
  // Operators

  /** Whether a symbol followed by `=` forms a two-character operator. */
  predicate TakesEquals(c: char) {
    c == '<' || c == '>' || c == '='
  }

  /** The source spelling of an operator token; the inverse of `SymbolToken`. */
  function OperatorText(t: TokenType): string {
    match t
    case Operator(Plus) => "+"
    case Operator(Minus) => "-"
    case Operator(Asterisk) => "*"
    case Operator(Slash) => "/"
    case Operator(Lt) => "<"
    case Operator(Ltoeq) => "<="
    case Operator(Gt) => ">"
    case Operator(Gtoeq) => ">="
    case Operator(Equal) => "=="
    case Assignment => "="
    case _ => ""
  }

  /** Resolves a symbol character, given whether the next character is `=`, to
      its token and the number of extra characters consumed by the lookahead. */
  function SymbolToken(c: char, nextIsEquals: bool): (r: (TokenType, nat))
    requires IsSymbol(c)
    ensures r.0.Operator? || r.0 == Assignment
    ensures r.1 == 1 <==> nextIsEquals && TakesEquals(c)
    ensures r.1 <= 1
  {
    match c
    case '+' => (Operator(Plus), 0)
    case '-' => (Operator(Minus), 0)
    case '*' => (Operator(Asterisk), 0)
    case '/' => (Operator(Slash), 0)
    case '<' => if nextIsEquals then (Operator(Ltoeq), 1) else (Operator(Lt), 0)
    case '>' => if nextIsEquals then (Operator(Gtoeq), 1) else (Operator(Gt), 0)
    case _ => if nextIsEquals then (Operator(Equal), 1) else (Assignment, 0)
  }

  /** The token a symbol resolves to is spelled by the characters it consumes. */
  lemma SymbolTokenSpelling(c: char, nextIsEquals: bool)
    requires IsSymbol(c)
    ensures var r := SymbolToken(c, nextIsEquals);
      OperatorText(r.0) == [c] + (if r.1 == 1 then "=" else "")
  {
  }

  /** Different spellings give different tokens: the operator resolution is exact. */
  lemma SymbolTokenInjective(c1: char, e1: bool, c2: char, e2: bool)
    requires IsSymbol(c1) && IsSymbol(c2)
    requires SymbolToken(c1, e1).0 == SymbolToken(c2, e2).0
    ensures c1 == c2 && SymbolToken(c1, e1).1 == SymbolToken(c2, e2).1
  {
    var t := SymbolToken(c1, e1).0;
    SymbolTokenSpelling(c1, e1);
    SymbolTokenSpelling(c2, e2);
    assert OperatorText(t)[0] == c1 && OperatorText(t)[0] == c2;
  }
}
