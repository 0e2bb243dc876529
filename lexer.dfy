/** The scanner of src/lexer.rs: a single-pass state machine over the input
    (the `Lexer` struct and its `impl`, src/lexer.rs:40-176).

    `Step` and `Run` state, as functions of a snapshot of the scanner's fields,
    what one call of `lex_char` and the loop of `exec` do; the class `Lexer`
    updates those fields in place, as the source does, and its methods are
    proved to follow them. `Inv` is the invariant every step keeps, and
    `StepPreservesMeaning` shows that the state machine computes the reference
    tokenizer of module Reference. */
module Lexer {
  import opened Token
  import opened Reference

  /** The fields of a `Lexer` other than its input. `start` is an integer:
      the source's final flush sets it to `current - 1`, which is -1 on empty input. */
  datatype Scan = Scan(
    state: LexerState,
    start: int,
    current: nat,
    pending: Option<TokenType>,
    tokens: seq<TokenType>)

  /** The scanner's state right after `Lexer::new`. */
  function InitialScan(): Scan {
    Scan(Initial, 0, 0, None, [])
  }

  function PendingList(p: Option<TokenType>): seq<TokenType> {
    if p.Some? then [p.value] else []
  }

  /** The effect of `push_current_token` (src/lexer.rs:61-67). */
  function Flushed(s: Scan): Scan {
    s.(tokens := s.tokens + PendingList(s.pending), pending := None, start := s.current - 1)
  }

  /** The effect of `push_token` (src/lexer.rs:69-73). */
  function Pushed(s: Scan, t: TokenType): Scan {
    s.(tokens := s.tokens + [t], pending := None, start := s.current)
  }

  /** The scanner invariant: the offsets are in bounds, the state agrees with
      the pending token and with the lexeme `input[start..current]`, and the
      emitted tokens never include `EOF`. */
  ghost predicate Inv(input: string, s: Scan) {
    && 0 <= s.start <= s.current <= |input|
    && (forall k :: 0 <= k < |s.tokens| ==> s.tokens[k] != EOF)
    && match s.state
       case Initial =>
         s.start == s.current && s.pending == None
       case Numbers =>
         && s.start < s.current
         && DigitsIn(input, s.start, s.current)
         && DecimalValue(input[s.start..s.current]) <= USIZE_MAX
         && s.pending == Some(Number(DecimalValue(input[s.start..s.current]) as usize))
       case Alphabets =>
         && s.start < s.current
         && !IsDigit(input[s.start])
         && WordCharsIn(input, s.start, s.current)
         && s.pending == Some(Keyword(input[s.start..s.current]))
  }

  /** One call of `lex_char` (src/lexer.rs:114-165): read the character at
      `current` and advance. Whitespace and symbols flush the pending token, a
      symbol then pushes its operator (with lookahead for `<=`, `>=`, `==`); a
      digit in state Initial or Numbers re-parses `input[start..current]` as the
      pending number; any other character flushes a pending number and re-resolves
      `input[start..current]` as a keyword or identifier. */
  ghost function Step(input: string, s: Scan): (r: Result<Scan>)
    requires Inv(input, s) && s.current < |input|
    ensures r.Ok? ==> Inv(input, r.value)
    ensures r.Ok? ==> s.current < r.value.current <= s.current + 2 && r.value.current <= |input|
    ensures r.Ok? ==> s.tokens <= r.value.tokens
    ensures r.Err? ==> IsDigit(input[s.current]) && s.state != Alphabets
  {
    var c := input[s.current];
    if IsWhitespace(c) || IsSymbol(c) then Ok(StepDelimiter(input, s))
    else if IsDigit(c) && (s.state == Initial || s.state == Numbers) then StepDigit(input, s)
    else Ok(StepWord(input, s))
  }

  /** `lex_char` on whitespace or a symbol (src/lexer.rs:118-135). */
  ghost function StepDelimiter(input: string, s: Scan): (r: Scan)
    requires Inv(input, s) && s.current < |input|
    requires IsWhitespace(input[s.current]) || IsSymbol(input[s.current])
    ensures Inv(input, r) && r.state == Initial
    ensures s.current < r.current <= s.current + 2 && r.current <= |input|
    ensures s.tokens <= r.tokens
  {
    var c := input[s.current];
    var s2 := Flushed(s.(current := s.current + 1));
    var s3 :=
      if IsWhitespace(c) then s2
      else
        var (t, extra) := SymbolToken(c, NextIsEquals(input, s2.current));
        Pushed(s2.(current := s2.current + extra), t);
    s3.(start := s3.current, state := Initial)
  }

  /** `lex_char` on a digit in state Initial or Numbers (src/lexer.rs:137-141):
      the grown digit run is re-parsed; a value beyond `usize` is an overflow. */
  ghost function StepDigit(input: string, s: Scan): (r: Result<Scan>)
    requires Inv(input, s) && s.current < |input|
    requires IsDigit(input[s.current]) && s.state != Alphabets
    ensures r.Ok? ==> Inv(input, r.value) && r.value.state == Numbers
    ensures r.Ok? ==> r.value.current == s.current + 1 && r.value.tokens == s.tokens
  {
    assert DigitsIn(input, s.start, s.current + 1);
    var v := DecimalValue(input[s.start..s.current + 1]);
    if v > USIZE_MAX then Err(NumericOverflow)
    else Ok(s.(current := s.current + 1, pending := Some(Number(v as usize)), state := Numbers))
  }

  /** `lex_char` on any other character (src/lexer.rs:142-161): a pending number
      is flushed, and the lexeme from `start` is re-resolved as a keyword or
      identifier. */
  ghost function StepWord(input: string, s: Scan): (r: Scan)
    requires Inv(input, s) && s.current < |input|
    requires IsWordChar(input[s.current])
    requires IsDigit(input[s.current]) ==> s.state == Alphabets
    ensures Inv(input, r) && r.state == Alphabets
    ensures r.current == s.current + 1 && s.tokens <= r.tokens
  {
    var s1 := s.(current := s.current + 1);
    var s2 := if s.pending.Some? && s.pending.value.Number? then Flushed(s1) else s1;
    assert s2.start == s.start || s2.start == s.current;
    assert WordCharsIn(input, s2.start, s2.current);
    s2.(pending := Some(Keyword(input[s2.start..s2.current])), state := Alphabets)
  }

  /** The loop of `exec` (src/lexer.rs:168-170): step until the input is consumed. */
  ghost function Run(input: string, s: Scan): (r: Result<Scan>)
    requires Inv(input, s)
    ensures r.Ok? ==> Inv(input, r.value) && r.value.current == |input| && s.tokens <= r.value.tokens
    decreases |input| - s.current
  {
    if s.current == |input| then Ok(s)
    else
      match Step(input, s)
      case Err(e) => Err(e)
      case Ok(next) => Run(input, next)
  }

  /** What a scan in state `s` will still produce: the tokens already emitted
      followed by the reference tokenization from the start of the pending lexeme. */
  ghost function Meaning(input: string, s: Scan): Result<seq<TokenType>>
    requires 0 <= s.start <= |input|
  {
    Prepend(s.tokens, LexFrom(input, s.start))
  }

  /** When the character at `current` cannot extend the pending lexeme (or the
      input is exhausted), the reference tokenization from `start` is the pending
      token followed by the tokenization from `current`. */
  lemma PendingEndsAtCurrent(input: string, s: Scan)
    requires Inv(input, s)
    requires s.current < |input| && s.state == Numbers ==> !IsDigit(input[s.current])
    requires s.current < |input| && s.state == Alphabets ==> !IsWordChar(input[s.current])
    ensures LexFrom(input, s.start) == Prepend(PendingList(s.pending), LexFrom(input, s.current))
  {
    match s.state
    case Initial =>
      PrependEmpty(LexFrom(input, s.current));
    case Numbers =>
      LexFromNumber(input, s.start, s.current);
    case Alphabets =>
      LexFromWord(input, s.start, s.current);
  }

  /** A digit run that already overflows at `current` makes the reference
      tokenization from its start fail as well. */
  lemma OverflowFromStart(input: string, st: nat, p: nat)
    requires st <= p < |input| && DigitsIn(input, st, p + 1)
    requires DecimalValue(input[st..p + 1]) > USIZE_MAX
    ensures LexFrom(input, st) == Err(NumericOverflow)
  {
    DigitRunEndAtLeast(input, st, p + 1);
    var j := DigitRunEnd(input, st);
    assert input[st..j][..p + 1 - st] == input[st..p + 1];
    DecimalValuePrefix(input[st..j], p + 1 - st);
  }

  /** Whitespace: the pending token is emitted and nothing else. */
  lemma WhitespacePreservesMeaning(input: string, s: Scan)
    requires Inv(input, s) && s.current < |input| && IsWhitespace(input[s.current])
    ensures Meaning(input, StepDelimiter(input, s)) == Meaning(input, s)
  {
    var p := s.current;
    var pl := PendingList(s.pending);
    PendingEndsAtCurrent(input, s);
    PrependPrepend(s.tokens, pl, LexFrom(input, p));
    LexFromWhitespace(input, p);
    var next := StepDelimiter(input, s);
    assert next.tokens == s.tokens + pl && next.start == p + 1;
  }

  /** A symbol first flushes the pending token, then emits exactly one operator
      token, chosen with one character of lookahead; the scan restarts in state
      Initial right after the operator's last character. */
  lemma StepSymbolEmitsOne(input: string, s: Scan)
    requires Inv(input, s) && s.current < |input| && IsSymbol(input[s.current])
    ensures var op := SymbolToken(input[s.current], NextIsEquals(input, s.current + 1));
      var next := StepDelimiter(input, s);
      && next.tokens == s.tokens + PendingList(s.pending) + [op.0]
      && next.current == next.start == s.current + 1 + op.1
      && next.state == Initial && next.pending == None
  {
  }

  /** Whitespace emits no token of its own: only the pending one is flushed,
      and the scan restarts in state Initial after the whitespace. */
  lemma StepWhitespaceEmitsPending(input: string, s: Scan)
    requires Inv(input, s) && s.current < |input| && IsWhitespace(input[s.current])
    ensures var next := StepDelimiter(input, s);
      && Step(input, s) == Ok(next)
      && next.tokens == s.tokens + PendingList(s.pending)
      && next.current == next.start == s.current + 1
      && next.state == Initial && next.pending == None
  {
  }

  /** A digit in state Initial or Numbers emits nothing: the run from `start`
      grows by one digit and the pending number becomes its decimal value; the
      step fails exactly when that value exceeds the `usize` range. */
  lemma StepDigitGrowsNumber(input: string, s: Scan)
    requires Inv(input, s) && s.current < |input|
    requires IsDigit(input[s.current]) && s.state != Alphabets
    ensures DigitsIn(input, s.start, s.current + 1)
    ensures Step(input, s).Ok? <==> DecimalValue(input[s.start..s.current + 1]) <= USIZE_MAX
    ensures Step(input, s).Ok? ==>
      var next := Step(input, s).value;
      && next.tokens == s.tokens && next.start == s.start && next.state == Numbers
      && next.pending == Some(Number(DecimalValue(input[s.start..s.current + 1]) as usize))
  {
    assert DigitsIn(input, s.start, s.current + 1);
  }

  /** Any other character flushes a pending number, and only a number; the
      lexeme from `start` is then resolved afresh as a keyword or identifier. */
  lemma StepWordResolvesLexeme(input: string, s: Scan)
    requires Inv(input, s) && s.current < |input|
    requires IsWordChar(input[s.current])
    requires IsDigit(input[s.current]) ==> s.state == Alphabets
    ensures var next := StepWord(input, s);
      && Step(input, s) == Ok(next)
      && next.tokens == s.tokens + (if s.state == Numbers then PendingList(s.pending) else [])
      && next.start == (if s.state == Numbers then s.current else s.start)
      && next.current == s.current + 1
      && next.state == Alphabets
      && next.pending == Some(Keyword(input[next.start..next.current]))
  {
    if s.state != Numbers {
      assert s.pending.Some? ==> !s.pending.value.Number?;
    }
  }

  /** A symbol: the pending token is emitted, then exactly one operator. */
  lemma SymbolPreservesMeaning(input: string, s: Scan)
    requires Inv(input, s) && s.current < |input| && IsSymbol(input[s.current])
    ensures Meaning(input, StepDelimiter(input, s)) == Meaning(input, s)
  {
    var p := s.current;
    var pl := PendingList(s.pending);
    var op := SymbolToken(input[p], NextIsEquals(input, p + 1));
    var rest := LexFrom(input, p + 1 + op.1);
    var next := StepDelimiter(input, s);
    StepSymbolEmitsOne(input, s);
    assert next.tokens == s.tokens + pl + [op.0] && next.start == p + 1 + op.1;
    calc {
      Meaning(input, s);
      Prepend(s.tokens, LexFrom(input, s.start));
      { PendingEndsAtCurrent(input, s); }
      Prepend(s.tokens, Prepend(pl, LexFrom(input, p)));
      { PrependPrepend(s.tokens, pl, LexFrom(input, p)); }
      Prepend(s.tokens + pl, LexFrom(input, p));
      { LexFromSymbol(input, p); }
      Prepend(s.tokens + pl, Prepend([op.0], rest));
      { PrependPrepend(s.tokens + pl, [op.0], rest); }
      Prepend(s.tokens + pl + [op.0], rest);
      Prepend(next.tokens, LexFrom(input, next.start));
      Meaning(input, next);
    }
  }

  /** A letter, or a digit inside a word: only a pending number is emitted. */
  lemma WordPreservesMeaning(input: string, s: Scan)
    requires Inv(input, s) && s.current < |input|
    requires IsWordChar(input[s.current])
    requires IsDigit(input[s.current]) ==> s.state == Alphabets
    ensures Meaning(input, StepWord(input, s)) == Meaning(input, s)
  {
    var next := StepWord(input, s);
    if s.pending.Some? && s.pending.value.Number? {
      assert s.state == Numbers;
      assert next.tokens == s.tokens + PendingList(s.pending) && next.start == s.current;
      PendingEndsAtCurrent(input, s);
      PrependPrepend(s.tokens, PendingList(s.pending), LexFrom(input, s.current));
    } else {
      assert next.tokens == s.tokens && next.start == s.start;
    }
  }

  /** Each step keeps what the scan will produce: the state machine never
      loses, duplicates or reorders a token of the reference tokenization, and it
      fails exactly where the reference reports an overflow. */
  lemma StepPreservesMeaning(input: string, s: Scan)
    requires Inv(input, s) && s.current < |input|
    ensures match Step(input, s)
      case Ok(next) => Meaning(input, next) == Meaning(input, s)
      case Err(e) => Meaning(input, s) == Err(e)
  {
    var c := input[s.current];
    if IsWhitespace(c) {
      WhitespacePreservesMeaning(input, s);
    } else if IsSymbol(c) {
      SymbolPreservesMeaning(input, s);
    } else if IsDigit(c) && (s.state == Initial || s.state == Numbers) {
      if StepDigit(input, s).Err? {
        OverflowFromStart(input, s.start, s.current);
      }
    } else {
      WordPreservesMeaning(input, s);
    }
  }

  /** The whole loop followed by the final flush computes the reference
      tokenization, or fails with the same error. */
  lemma {:induction false} RunMeaning(input: string, s: Scan)
    requires Inv(input, s)
    ensures match Run(input, s)
      case Ok(f) => Meaning(input, s) == Ok(Flushed(f).tokens)
      case Err(e) => Meaning(input, s) == Err(e)
    decreases |input| - s.current
  {
    if s.current == |input| {
      PendingEndsAtCurrent(input, s);
      var pl := PendingList(s.pending);
      PrependPrepend(s.tokens, pl, LexFrom(input, s.current));
      assert (s.tokens + pl) + [] == Flushed(s).tokens;
    } else {
      StepPreservesMeaning(input, s);
      if Step(input, s).Ok? {
        RunMeaning(input, Step(input, s).value);
      }
    }
  }

  /** The scanner started on `input` produces the reference tokenization. */
  lemma ScanComputesTokenize(input: string)
    ensures Inv(input, InitialScan())
    ensures Meaning(input, InitialScan()) == Tokenize(input)
    ensures match Run(input, InitialScan())
      case Ok(f) => Tokenize(input) == Ok(Flushed(f).tokens)
      case Err(e) => Tokenize(input) == Err(e)
  {
    PrependEmpty(Tokenize(input));
    RunMeaning(input, InitialScan());
  }

  /** The scanner proper. The input is read-only; every other field is updated
      in place by the methods below, as in the source. */
  class Lexer {
    const input: string
    var state: LexerState
    var start: int
    var current: nat
    var currentToken: Option<TokenType>
    var tokens: seq<TokenType>

    function Snapshot(): Scan
      reads this
    {
      Scan(state, start, current, currentToken, tokens)
    }

    ghost predicate Valid()
      reads this
    {
      IsAscii(input) && Inv(input, Snapshot())
    }

    /** `Lexer::new` (src/lexer.rs:50-59). */
    constructor (input: string)
      requires IsAscii(input)
      ensures this.input == input
      ensures Snapshot() == InitialScan()
      ensures Valid()
    {
      this.input := input;
      state := Initial;
      start := 0;
      current := 0;
      currentToken := None;
      tokens := [];
    }

    /** `push_current_token` (src/lexer.rs:61-67): emit the pending token, if
        any, and set `start` to the position of the character just read. */
    method PushCurrentToken()
      modifies this
      ensures Snapshot() == Flushed(old(Snapshot()))
    {
      if currentToken.Some? {
        tokens := tokens + [currentToken.value];
        currentToken := None;
      }
      start := current - 1;
    }

    /** `push_token` (src/lexer.rs:69-73): emit `token` and start a new lexeme at `current`. */
    method PushToken(token: TokenType)
      modifies this
      ensures Snapshot() == Pushed(old(Snapshot()), token)
    {
      tokens := tokens + [token];
      currentToken := None;
      start := current;
    }

    /** `lt_ahead` (src/lexer.rs:75-86). */
    method LtAhead() returns (token: TokenType)
      modifies this`current
      ensures NextIsEquals(input, old(current)) ==> token == Operator(Ltoeq) && current == old(current) + 1
      ensures !NextIsEquals(input, old(current)) ==> token == Operator(Lt) && current == old(current)
    {
      if current < |input| && input[current] == '=' {
        current := current + 1;
        token := Operator(Ltoeq);
      } else {
        token := Operator(Lt);
      }
    }

    /** `gt_ahead` (src/lexer.rs:88-99). */
    method GtAhead() returns (token: TokenType)
      modifies this`current
      ensures NextIsEquals(input, old(current)) ==> token == Operator(Gtoeq) && current == old(current) + 1
      ensures !NextIsEquals(input, old(current)) ==> token == Operator(Gt) && current == old(current)
    {
      if current < |input| && input[current] == '=' {
        current := current + 1;
        token := Operator(Gtoeq);
      } else {
        token := Operator(Gt);
      }
    }

    /** `eq_ahead` (src/lexer.rs:101-112): `==` is an operator, a lone `=` is `Assignment`. */
    method EqAhead() returns (token: TokenType)
      modifies this`current
      ensures NextIsEquals(input, old(current)) ==> token == Operator(Equal) && current == old(current) + 1
      ensures !NextIsEquals(input, old(current)) ==> token == Assignment && current == old(current)
    {
      if current < |input| && input[current] == '=' {
        current := current + 1;
        token := Operator(Equal);
      } else {
        token := Assignment;
      }
    }

    /** The `match c` of `lex_char` (src/lexer.rs:121-130): resolve a symbol
        character, just read, to its token, consuming a following `=` where it
        forms a two-character operator. Its `unreachable!()` arm is: `c` is a symbol. */
    method SymbolAhead(c: char) returns (token: TokenType)
      requires IsSymbol(c)
      modifies this`current
      ensures (token, current - old(current)) == SymbolToken(c, NextIsEquals(input, old(current)))
    {
      if c == '+' {
        token := Operator(Plus);
      } else if c == '-' {
        token := Operator(Minus);
      } else if c == '*' {
        token := Operator(Asterisk);
      } else if c == '/' {
        token := Operator(Slash);
      } else if c == '<' {
        token := LtAhead();
      } else if c == '>' {
        token := GtAhead();
      } else {
        assert c == '=';
        token := EqAhead();
      }
    }

    /** `lex_char` (src/lexer.rs:114-165). The source's `None` arm, a read past
        the end, cannot happen: the caller guarantees `current < |input|`.
        A numeric overflow, a panic in the source, is reported as `Fail`.
        Each arm of the source's `match` is one of the three methods below. */
    method LexChar() returns (status: Outcome)
      requires Valid() && current < |input|
      modifies this
      ensures match Step(input, old(Snapshot()))
        case Ok(next) => status == Pass && Snapshot() == next && Valid()
        case Err(e) => status == Fail(e) && Snapshot() == old(Snapshot()).(current := old(current) + 1)
    {
      ghost var s0 := Snapshot();
      current := current + 1;
      var c := input[current - 1];
      if IsWhitespace(c) || IsSymbol(c) {
        LexDelimiter(c, s0);
        assert Step(input, s0) == Ok(Snapshot());
        status := Pass;
      } else if IsDigit(c) && (state == Initial || state == Numbers) {
        status := LexDigit(s0);
      } else {
        LexWordChar(s0);
        assert Step(input, s0) == Ok(Snapshot());
        status := Pass;
      }
    }

    /** The whitespace-or-symbol arm of `lex_char` (src/lexer.rs:118-135). */
    method LexDelimiter(c: char, ghost s0: Scan)
      requires Inv(input, s0) && s0.current < |input| && Snapshot() == s0.(current := s0.current + 1)
      requires c == input[s0.current] && (IsWhitespace(c) || IsSymbol(c))
      modifies this
      ensures Snapshot() == StepDelimiter(input, s0)
    {
      PushCurrentToken();
      if !IsWhitespace(c) {
        var token := SymbolAhead(c);
        PushToken(token);
      }
      start := current;
      state := Initial;
    }

    /** The digit arm of `lex_char` in state Initial or Numbers (src/lexer.rs:137-141). */
    method LexDigit(ghost s0: Scan) returns (status: Outcome)
      requires Inv(input, s0) && s0.current < |input| && Snapshot() == s0.(current := s0.current + 1)
      requires IsDigit(input[s0.current]) && s0.state != Alphabets
      modifies this
      ensures match StepDigit(input, s0)
        case Ok(next) => status == Pass && Snapshot() == next && Step(input, s0) == Ok(next)
        case Err(e) => status == Fail(e) && Snapshot() == old(Snapshot()) && Step(input, s0) == Err(e)
    {
      assert DigitsIn(input, start, current);
      var value := DecimalValue(input[start..current]);
      if value > USIZE_MAX {
        return Fail(NumericOverflow);
      }
      currentToken := Some(Number(value as usize));
      state := Numbers;
      status := Pass;
    }

    /** The remaining arm of `lex_char` (src/lexer.rs:142-161): a letter, or a
        digit once a word has started. */
    method LexWordChar(ghost s0: Scan)
      requires Inv(input, s0) && s0.current < |input| && Snapshot() == s0.(current := s0.current + 1)
      requires IsWordChar(input[s0.current])
      requires IsDigit(input[s0.current]) ==> s0.state == Alphabets
      modifies this
      ensures Snapshot() == StepWord(input, s0)
    {
      if currentToken.Some? && currentToken.value.Number? {
        PushCurrentToken();
      }
      var word := input[start..current];
      currentToken := Some(Keyword(word));
      state := Alphabets;
    }

    /** `exec` (src/lexer.rs:167-175): lex every character, flush the last
        pending token and return the tokens followed by `EOF`. The result is the
        reference tokenization of what is left to scan, followed by `EOF`. */
    method Exec() returns (r: Result<seq<TokenType>>)
      requires Valid()
      modifies this
      ensures r == WithEof(Meaning(input, old(Snapshot())))
      ensures match Run(input, old(Snapshot()))
        case Ok(f) => Snapshot() == Flushed(f) && r == Ok(f.tokens + PendingList(f.pending) + [EOF])
        case Err(e) => r == Err(e)
    {
      ghost var s0 := Snapshot();
      RunMeaning(input, s0);
      while current < |input|
        invariant Valid()
        invariant Run(input, Snapshot()) == Run(input, s0)
        decreases |input| - current
      {
        var status := LexChar();
        if status.Fail? {
          return Err(status.error);
        }
      }
      PushCurrentToken();
      r := Ok(tokens + [EOF]);
    }
  }

  datatype Outcome = Pass | Fail(error: LexError)

  /** What the source's callers do (`Lexer::new(code)` then `exec`): the whole
      input's tokens, ending in the single sentinel `EOF`. */
  method LexAll(input: string) returns (r: Result<seq<TokenType>>)
    requires IsAscii(input)
    ensures r == WithEof(Tokenize(input))
    ensures r.Ok? ==> |r.value| > 0 && r.value[|r.value| - 1] == EOF
    ensures r.Ok? ==> forall k :: 0 <= k < |r.value| - 1 ==> r.value[k] != EOF
  {
    var lexer := new Lexer(input);
    ScanComputesTokenize(input);
    TokenizeEndsWithEof(input);
    r := lexer.Exec();
  }
}
