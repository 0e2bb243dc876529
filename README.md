# Lexer of rust-parser, modelled in Dafny

The repository's lexer (`src/lexer.rs`) turns the source text of a small
expression language (`let x = 1 in x * x`, comparisons, booleans) into a vector
of tokens. It is one pass over the input driven by a three-state machine.
`Initial` means no lexeme is pending. `Numbers` means a run of digits is
pending. `Alphabets` means a word is pending. The machine keeps two offsets,
`start` and `current`, one pending token and an append-only output vector.
`lex_char` reads one character. `exec` calls it until the input is consumed,
flushes the pending token and appends `EOF`.

The model has four modules:

- `Token` (`token.dfy`) holds the token types and the ASCII character classes.
  It also holds the two pure classifications of `lex_char`: a symbol with its
  `=` lookahead (`SymbolToken`), and a whole lexeme resolved as a keyword or
  an identifier (`Keyword`). A number is a `usize`: a newtype bounded by
  2^64 - 1.
- `Reference` (`reference.dfy`) is a tokenizer written independently of the
  state machine. It reads the input lexeme by lexeme with maximal munch
  (`LexFrom`, `Tokenize`). It also proves what every tokenization looks like:
  no `EOF` inside, and no identifier that is a keyword, empty or starts with a
  digit.
- `Lexer` (`lexer.dfy`) has two layers.
  - Pure layer: `Step` is one call of `lex_char` on a snapshot of the
    scanner's fields, and `Run` is the loop of `exec`. `Inv` is the invariant
    each step keeps. It covers the offset bounds, the agreement of the state
    with the pending token and with the lexeme `input[start..current]`, and
    the absence of `EOF` from the output.
  - Imperative layer: the class `Lexer` holds the same fields and updates
    them in place, one method per function of the Rust `impl`. Each method is
    proved to follow `Step`/`Run`.
  - The main theorem is `StepPreservesMeaning`. Each step keeps "tokens
    emitted so far, followed by the reference tokenization from `start`"
    unchanged. So `exec` on a fresh lexer returns exactly
    `Tokenize(input) + [EOF]`, or fails exactly where the reference reports an
    overflow (`LexAll`).
- `Examples` (`examples.dfy`) proves the scanner's output on concrete inputs.
  These include the worked example `let num = 3 in num * num` and the
  operator lookahead cases.

Modelling choices:

- The input is restricted to ASCII. Whitespace is ' ', '\t', '\n', '\x0B',
  '\x0C' and '\r'. Digits are '0'..'9'.
- A digit run whose value exceeds `usize` panics in the source at the
  `unwrap`. The model reports it as `Err(NumericOverflow)` (`Outcome.Fail`
  for one step).
- `start` is an unbounded integer. On empty input the final
  `push_current_token` sets it to `current - 1 = -1`. The source underflows
  there.

## Model

| member | source | states |
|---|---|---|
| Token.Keyword | src/lexer.rs:146-160 | A lexeme gives a non-identifier token iff it is one of `true`, `false`, `let`, `in`. That token spells the lexeme back (`KeywordText`). Any other lexeme gives `Identifier` carrying exactly the lexeme. |
| Token.SymbolToken | src/lexer.rs:118-130 | A symbol gives an `Operator` or `Assignment`. It consumes one extra character iff the symbol is `<`, `>` or `=` and the next character is `=`. It never consumes more than one. |
| Token.SymbolTokenSpelling | src/lexer.rs:75-130 | The token of a symbol is spelled by exactly the characters consumed: `<`+`=` is `Ltoeq`, a lone `=` is `Assignment`, and so on. |
| Token.SymbolTokenInjective | src/lexer.rs:121-130 | Distinct symbol spellings never give the same token. |
| Token.DecimalValueAppend | src/lexer.rs:137-140 | Re-parsing a digit run grown by one digit gives ten times the old value plus the digit. |
| Token.DecimalValuePrefix | src/lexer.rs:138-139 | A prefix of a digit run never has a larger value, so a run overflows `usize` as soon as one of its prefixes does. |
| Reference.DigitRunEnd | src/lexer.rs:137-141 | The end of the digit run from `i` is maximal: every character before it is a digit, and the character at it, if any, is not. |
| Reference.WordRunEnd | src/lexer.rs:142-161 | The end of the word from `i` is maximal: no whitespace or symbol before it, and a whitespace or symbol at it, if any. |
| Reference.DigitRunEndIs | src/lexer.rs:137-141 | A digit run that cannot be extended ends where `DigitRunEnd` says. |
| Reference.DigitRunEndAtLeast | src/lexer.rs:137-141 | Every digit run from `i` lies inside the maximal one. |
| Reference.WordRunEndIs | src/lexer.rs:142-161 | A word run that cannot be extended ends where `WordRunEnd` says. |
| Reference.LexFromWhitespace | src/lexer.rs:118-120 | Whitespace contributes no token. |
| Reference.LexFromSymbol | src/lexer.rs:118-131 | A symbol contributes exactly its `SymbolToken`, and scanning resumes after the characters it consumed. |
| Reference.LexFromNumber | src/lexer.rs:137-141 | A maximal digit run whose value fits a `usize` contributes one `Number` carrying its decimal value. |
| Reference.LexFromWord | src/lexer.rs:142-161 | A maximal word starting with a non-digit contributes one token: `Keyword` of the whole word. |
| Reference.WithEof | src/lexer.rs:171-174 | The driver's result is the tokens followed by `EOF`. An error stays an error. |
| Reference.LexFromWellFormed | src/lexer.rs:137-160 | Every produced token is well formed: never `EOF`. An identifier is non-empty, does not start with a digit, has no whitespace or symbol, and is not a keyword. |
| Reference.TokenizeEndsWithEof | src/lexer.rs:167-175 | A successful result ends with `EOF`, and `EOF` occurs nowhere else in it. |
| Lexer.Step | src/lexer.rs:114-165 | One step keeps `Inv`, advances `current` by 1 or 2 without passing the end of the input, and only appends to `tokens`. It fails only on a digit outside a word. |
| Lexer.StepDelimiter | src/lexer.rs:118-135 | After whitespace or a symbol the state is `Initial` and `Inv` holds. `current` advanced by 1 or 2. `tokens` is only extended. |
| Lexer.StepDigit | src/lexer.rs:137-141 | A digit in state `Initial` or `Numbers` moves to `Numbers`, keeps `Inv` and emits nothing. |
| Lexer.StepWord | src/lexer.rs:142-161 | Any other character moves to `Alphabets` and keeps `Inv`. `tokens` is only extended. |
| Lexer.Run | src/lexer.rs:168-170 | The loop ends with the whole input consumed, `Inv` kept and the earlier tokens kept as a prefix. |
| Lexer.PendingEndsAtCurrent | src/lexer.rs:61-67 | When the next character cannot extend the pending lexeme, the reference tokenization from `start` is the pending token followed by the tokenization from `current`. |
| Lexer.OverflowFromStart | src/lexer.rs:138-139 | A digit run that overflows at `current` makes the reference tokenization from its start fail with the same error. |
| Lexer.StepWhitespaceEmitsPending | src/lexer.rs:118-135 | Whitespace emits no token of its own. Only the pending token is flushed. Afterwards `state = Initial`, nothing is pending and `start = current`. |
| Lexer.StepSymbolEmitsOne | src/lexer.rs:118-135 | A symbol flushes the pending token, then emits exactly one operator token chosen by lookahead. Afterwards `state = Initial`, nothing is pending and `start = current`, just past the operator. |
| Lexer.StepDigitGrowsNumber | src/lexer.rs:137-141 | A digit in state `Initial`/`Numbers` emits nothing. The pending number becomes the decimal value of `input[start..current]`. The step fails exactly when that value exceeds `usize`. |
| Lexer.StepWordResolvesLexeme | src/lexer.rs:142-161 | Any other character flushes a pending number, and only a number. The pending token becomes `Keyword(input[start..current])`, with `start` moved to this character iff a number was flushed. |
| Lexer.WhitespacePreservesMeaning | src/lexer.rs:118-135 | A whitespace step keeps "emitted tokens + reference tokenization from `start`" unchanged. |
| Lexer.SymbolPreservesMeaning | src/lexer.rs:118-135 | A symbol step keeps that value unchanged. |
| Lexer.WordPreservesMeaning | src/lexer.rs:142-161 | A word-character step keeps that value unchanged. |
| Lexer.StepPreservesMeaning | src/lexer.rs:114-165 | Every step keeps that value unchanged. A failing step fails exactly where the reference reports the overflow. |
| Lexer.RunMeaning | src/lexer.rs:167-171 | The loop plus the final flush produces exactly the reference tokenization from the current state, or the same error. |
| Lexer.ScanComputesTokenize | src/lexer.rs:167-171 | From the state `new` creates, the scanner's output is `Tokenize(input)`, or the same error. |
| Lexer.Lexer.constructor | src/lexer.rs:50-59 | `new` starts in state `Initial`, at offset 0, with nothing pending and no tokens. The invariant holds. |
| Lexer.Lexer.PushCurrentToken | src/lexer.rs:61-67 | The pending token, if any, is appended and cleared. `start` becomes `current - 1`. |
| Lexer.Lexer.PushToken | src/lexer.rs:69-73 | The token is appended, nothing is pending and `start = current`. |
| Lexer.Lexer.LtAhead | src/lexer.rs:75-86 | `<` followed by `=` gives `Ltoeq` and consumes the `=`. Otherwise, including at end of input, it gives `Lt` and consumes nothing. |
| Lexer.Lexer.GtAhead | src/lexer.rs:88-99 | `>` followed by `=` gives `Gtoeq` and consumes the `=`. Otherwise it gives `Gt` and consumes nothing. |
| Lexer.Lexer.EqAhead | src/lexer.rs:101-112 | `=` followed by `=` gives `Equal` and consumes it. Otherwise it gives `Assignment` and consumes nothing. |
| Lexer.Lexer.SymbolAhead | src/lexer.rs:121-130 | The `match` on a symbol returns `SymbolToken`'s token and consumes its extra character. The `unreachable!()` arm cannot be taken. |
| Lexer.Lexer.LexChar | src/lexer.rs:114-165 | `lex_char` updates the fields to `Step`'s result and keeps the invariant. On overflow it reports the error. The `None` arm cannot be reached. |
| Lexer.Lexer.LexDelimiter | src/lexer.rs:118-135 | The whitespace/symbol arm leaves the fields as `StepDelimiter` says. |
| Lexer.Lexer.LexDigit | src/lexer.rs:137-141 | The digit arm leaves the fields as `StepDigit` says, or reports the overflow. |
| Lexer.Lexer.LexWordChar | src/lexer.rs:142-161 | The remaining arm leaves the fields as `StepWord` says. |
| Lexer.Lexer.Exec | src/lexer.rs:167-175 | `exec` returns the reference tokenization of what is left to scan, followed by `EOF`. On success the fields are the final flush of `Run`'s result. |
| Lexer.LexAll | src/lexer.rs:167-175 | `Lexer::new(input).exec()` returns `Tokenize(input) + [EOF]`. On success that ends in `EOF`, and `EOF` occurs nowhere else. |
| Examples.LetExample | src/lexer.rs:114-175 | `let num = 3 in num * num` gives `[Let, Identifier("num"), Assignment, Number(3), In, Identifier("num"), Operator(Asterisk), Identifier("num"), EOF]`. |
| Examples.LetExampleFrom4 | src/lexer.rs:114-165 | The same input scanned from offset 4 gives its last seven tokens. |
| Examples.LetExampleFrom10 | src/lexer.rs:114-165 | The same input scanned from offset 10 gives its last five tokens. |
| Examples.LetExampleFrom12 | src/lexer.rs:114-165 | The same input scanned from offset 12 gives its last four tokens. |
| Examples.LetExampleFrom19 | src/lexer.rs:114-165 | The same input scanned from offset 19 gives `[Operator(Asterisk), Identifier("num")]`. |
| Examples.LetExampleHeadLexemes | src/lexer.rs:142-161 | In that input the words `let` and `num` end at offsets 3 and 7. |
| Examples.LetExampleNumberLexeme | src/lexer.rs:137-141 | In that input the digit run `3` ends at offset 11 and has value 3. |
| Examples.LetExampleTailLexemes | src/lexer.rs:142-161 | In that input the words `in`, `num` and `num` end at offsets 14, 18 and 24. |
| Examples.LexerTestAsWritten | src/lexer.rs:183-193 | The unit test's expected vector is not the scan of the test's own input. |
| Examples.LexerTestLexemes | src/lexer.rs:142-161 | In `== = a <= true >` the words `a` and `true` end at offsets 6 and 14. |
| Examples.LexerTestFrom7 | src/lexer.rs:114-165 | `== = a <= true >` scanned from offset 7 gives `[Operator(Ltoeq), Boolean(True), Operator(Gt)]`. |
| Examples.LexerTestIntended | src/lexer.rs:183-193 | The unit test's expected vector is exactly the scan of `== = a <= true >`. |
| Examples.LtoeqThenAssignment | src/lexer.rs:75-112 | `<==` gives `[Operator(Ltoeq), Assignment, EOF]`: the lookahead consumes one `=` only. |
| Examples.LessOrEqualExample | src/lexer.rs:75-135 | `a <= b` gives `[Identifier("a"), Operator(Ltoeq), Identifier("b"), EOF]`. |
| Examples.EqualExample | src/lexer.rs:101-141 | `x == 10` gives `[Identifier("x"), Operator(Equal), Number(10), EOF]`. |
| Examples.DigitRunExample | src/lexer.rs:137-141 | `123` gives the single token `Number(123)` before `EOF`. |
| Examples.TrailingDigitExample | src/lexer.rs:137-160 | `x1` gives `[Identifier("x1"), EOF]`: a word may continue with digits. |
| Examples.NumberThenWordExample | src/lexer.rs:137-146 | `1x2` gives `[Number(1), Identifier("x2"), EOF]`: a letter flushes the number. |
| Examples.KeywordPrefixExample | src/lexer.rs:146-160 | `inx` gives `[Identifier("inx"), EOF]`: a keyword prefix of a longer word is not a keyword. |
| Examples.TrueExample | src/lexer.rs:147-150 | `true` gives `[Boolean(True), EOF]`. |
| Examples.BlankExamples | src/lexer.rs:167-175 | The empty input and a whitespace-only input both give `[EOF]`. |

## Left out

- `src/main.rs` is not part of this model. It holds HTTP routes and framework glue with no lexing logic.
- Non-ASCII input is excluded: `Lexer.Lexer.constructor` and `Lexer.LexAll` require ASCII. The source mixes a byte-length loop bound, character-indexed reads and byte slices. These agree only on ASCII.
- The `None => panic!` arm of `lex_char` is not modelled as a branch. It is unreachable because `Lexer.Lexer.LexChar` is only called with `current` inside the input.
- Rust's `parse::<usize>()` is modelled only as the decimal value of the digit run. A value above 2^64 - 1 is the error `NumericOverflow`, where the source panics.
- Lexer.Lexer.PushCurrentToken: `start` is an unbounded integer. On empty input the source's `current - 1` underflows (a panic in debug builds, a wrap-around in release builds). The model sets `start` to -1.
- Lexer.Lexer.Exec: on an overflow it returns the error and does not describe the fields. The source panics there.
- Lexer.Lexer.Exec: the invariant is not promised after the final flush. So a second `exec` on the same lexer is not modelled.
- `current` and `start` are unbounded integers. The source's `usize` offsets cannot overflow for any input that fits in memory.
- The `Clone`, `Debug` and `PartialEq` derives are not modelled. `tokens` is a value sequence, so the clone in `exec` is a plain copy.
- The commented-out earlier `lex_char` (src/lexer.rs:199-232) is not modelled.

## Findings

| source | as written | input that shows it | evidently intended | confidence | as-written member | corrected member |
|---|---|---|---|---|---|---|
| src/lexer.rs:183-193 | The unit test scans `let num = 3 in num * num` but expects `[Operator(Equal), Assignment, Identifier("a"), Operator(Ltoeq), Boolean(True), Operator(Gt), EOF]`. | `let num = 3 in num * num`: its scan starts with `Let` (`Examples.LetExample`). | The expected vector is the scan of `== = a <= true >`. For the test's own input the expectation is `Examples.LetExample`'s list. | high; not executed | Examples.LexerTestAsWritten | Examples.LexerTestIntended |
