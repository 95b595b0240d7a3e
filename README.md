# Arithmetic evaluator: a verified model

This project is a Dafny model of the evaluation pipeline of a small Rust
arithmetic evaluator (MikaBuchholz/Arithmetic-Evaluator). An expression
string goes through four stages:

1. **Tokeniser** (`src/ast/lexer.rs`). `Lexer` reads the characters through a
   peekable iterator. It keeps two counters, `current_pos` and `len`. It turns
   numbers, words, the symbols `* - + / ^ ( )` and the keywords
   `sin cos tan pi log` into tokens.
2. **Rewrite passes** (`src/ast/parser.rs`).
   - `insert_parenthesis` wraps every unary function, and every `^` with its
     two operands, in explicit parentheses.
   - `balance_operators` collapses sign pairs.
3. **Shunting-yard conversion** (`Parser::parse`). It builds a postfix queue
   with an operator stack. `Parser::execute` then evaluates that queue on a
   number stack.
4. **Composition** (`Interpreter::interpret`, `src/ast/interpreter.rs`). It
   rejects the empty expression, then runs lex, parse and execute.

Each stage has two halves:

- a **specification function** that continues the source's loop from a given
  index and state: `Scan`/`LexFrom`, `InsertFrom`, `BalanceFrom`,
  `Run`/`Shunt` and `ExecRun`;
- the **imperative method**, with the source's loops, whose `ensures` ties it
  to that function: `Lexer.Lex`, `InsertParenthesis`, `BalanceOperators`,
  `Parse` and `Execute`.

The lemmas then state what the source promises about those functions:

- the token classes and the precedence table;
- which errors and which panics each stage can produce;
- a closed form of each rewrite pass;
- the stack and operand invariants of the conversion;
- the order in which operands are applied.

`Reference` gives an independent definition. For every fully parenthesised
expression over `+ - * /`, parse and execute compute what direct evaluation
of the expression tree computes. `Examples` works through the repository's
own test expressions end to end, from the input text to the result. It also
covers `pi`, the four functions, `^` and the quirks listed below.

**Outcome type.** Results are `Outcome<T>`, which has three cases:

- `Ok`;
- `Err(ParseError)`, a returned `ParseError`;
- `Panic(PanicSite)`, a crash, tagged with its site:
  - `LiteralParse`: `str::parse::<f32>().unwrap()` on a literal with two
    dots;
  - `EmptyStackUnwrap`: `pop().unwrap()` on an empty number stack;
  - `Unreachable`: the `unreachable!` arms;
  - `EmptyOperatorStack`: reading the top of an empty operator stack as
    `operator_stack[operator_stack.len() - 1]`. In a debug build the
    subtraction overflows; in a release build it wraps and the index is out
    of bounds. Either way the program panics there.

`Outcome` supports `:-`, so `?` propagation reads as in the source.

**Numbers and maths.**

- Numbers are `real`.
- The value of `PI`, `sin`, `cos`, `tan`, `log10` and `powf`, and the
  conversion from a literal to its value, are fields of a `Maths` record
  passed to every function that needs them.
- `+ - * /` are exact, and the division test is the exact `== 0.0` of the
  source.

**Quirks modelled literally.** The model keeps the source's behaviour where
it departs from ordinary arithmetic or from what the code evidently intends:

- **Unknown characters.** An unknown character ends lexing; it is not
  skipped.
- **One-letter words.** A one-letter word swallows the character after it.
- **Spacing matters after a one-letter word.** Because of that swallowed
  character, `x+1` lexes to an identifier and `1`, while `x + 1` keeps its
  `+`. So `x+1` gives 1 and `x + 1` fails with `MissingExpression`.
- **Power rewrite.** The power rewrite removes `out[index - 1]`, using an
  index into the input on the output.
- **Sign pairs.** The `skip_next` flag of `balance_operators` is never
  cleared.
- **Precedence.** The precedence of the stack top is read once, before the
  pop loop, so `1 + 2 * 3 * 4` is 28.
- **Unclosed parenthesis.** `10*(10+1` panics at `unreachable!` and does not
  return `ParensMismatch`.
- **Unopened parenthesis.** `1)` panics on subtracting from or indexing the
  empty operator stack; it does not report a
  mismatch.
- **Bad literals.** `1.2.3` makes the lexer panic.

## Model

| member | source | states |
|---|---|---|
| Tokens.Precedence | src/ast/lexer.rs:79-89 | precedence is defined exactly for operators and parentheses, with a level from 1 to 5; every other kind reaches the `unreachable!` arm (None) |
| Tokens.PrecedenceLevels | src/ast/lexer.rs:79-89 | signs 1, `*` and `/` 2, `^` and parentheses 3, functions 4, `pi` 5; numbers and identifiers have none |
| Tokens.OperatorClasses | src/ast/lexer.rs:51-77 | `is_operator` holds for exactly the ten listed kinds, and never for a number, an identifier or a parenthesis |
| Lexing.SkipRun | src/ast/lexer.rs:153-165 | the cursor after skipping is the end of the maximal run of the target character: every skipped character is the target and the next one is not |
| Lexing.RunEnd | src/ast/lexer.rs:134-148 | the end of the run is the first stop character at or after the start, or the end of the input |
| Lexing.Collect | src/ast/lexer.rs:121-151 | the collected word starts with the current character and is never empty; the cursor stays within the input |
| Lexing.Scan | src/ast/lexer.rs:167-241 | one call of `next_token` never returns an error, and a returned token advances the cursor within the input |
| Lexing.Lexer.constructor | src/ast/lexer.rs:114-119 | a new lexer has both counters at zero |
| Lexing.Lexer.Peek | src/ast/lexer.rs:243-245 | peeking yields the character at the cursor exactly when the input is not exhausted |
| Lexing.Lexer.NextChar | src/ast/lexer.rs:247-257 | the iterator always advances; `current_pos` advances only while below `len`; the character is returned only when both allow it |
| Lexing.Lexer.SkipWhile | src/ast/lexer.rs:153-165 | the cursor and `current_pos` end at `SkipRun`, still in step |
| Lexing.Lexer.CollectUntil | src/ast/lexer.rs:121-151 | buffer and cursor are exactly `Collect` |
| Lexing.Lexer.NextToken | src/ast/lexer.rs:167-241 | the token, cursor and panic are those of `Scan`; once `current_pos` reaches `len` the result is `None` |
| Lexing.Lexer.Lex | src/ast/lexer.rs:259-271 | the token stream is `Tokenize` of the input, `len` is the input length, and unless it panicked `current_pos` is back at 0 |
| Lexing.LexTwice | src/ast/lexer.rs:259-271 | unless the first run panics, lexing the same input twice on one lexer gives equal results |
| LexerProperties.ScanWord | src/ast/lexer.rs:194-207 | a letter starts a word token: the maximal letter run, lower-cased and mapped to a keyword or an identifier; a one-letter word also consumes the character after it |
| LexerProperties.ScanNumber | src/ast/lexer.rs:176-192 | a digit starts one number token over the maximal run of digits and dots; the stop character stays unread; two or more dots panic |
| LexerProperties.ScanSymbol | src/ast/lexer.rs:209-218 | each symbol character is one token of its kind and advances the cursor by one |
| LexerProperties.SymbolTable | src/ast/lexer.rs:211-218 | exactly `* - + / ^ ( )` are symbols, distinct characters give distinct kinds, and each is an operator or a parenthesis |
| LexerProperties.UnknownEndsLexing | src/ast/lexer.rs:219-240 | an unrecognised character ends lexing: no token from it onwards |
| LexerProperties.SpaceSkipped | src/ast/lexer.rs:172 | a leading space changes neither the next token nor the rest of the stream |
| LexerProperties.SpacesSkipped | src/ast/lexer.rs:153-172 | a run of spaces before a token produces no tokens: lexing from the first space is lexing from the token |
| LexerProperties.SpacesOnly | src/ast/lexer.rs:172-174 | input made only of spaces gives the empty stream |
| LexerProperties.LexNeverErrs | src/ast/lexer.rs:259-271 | lexing never returns an error, and its only panic is the literal parse |
| LexerProperties.IdentifiersAreLowerCase | src/ast/lexer.rs:194-206 | every identifier in the stream is a non-empty lower-case word that is not a keyword |
| LexerProperties.ScannedIdentifier | src/ast/lexer.rs:197-203 | an identifier produced by one scan is a non-empty lower-case non-keyword |
| LexerProperties.WordLetters | src/ast/lexer.rs:195-197 | a collected word is all letters and its lower-casing all lower-case letters |
| LexerProperties.LowerWordSpells | src/ast/lexer.rs:197 | a word lower-cases to a given lower-case keyword exactly when it has the keyword's length and each letter is that keyword's letter or its upper-case form |
| LexerProperties.KeywordsAnyCase | src/ast/lexer.rs:197-204 | for every word: it is `sin`, `cos`, `tan`, `pi` or `log` exactly when it spells that keyword in some mix of cases, and it becomes an identifier exactly when it spells none of them |
| LexerProperties.BadLiteralPanics | src/ast/lexer.rs:176-192 | for every input: a number literal with two or more dots, reached after any run of spaces, ends lexing with the literal-parse panic |
| Rewrite.InsertParenthesis | src/ast/parser.rs:88-138 | the loop returns exactly `InsertParens` of its input |
| Rewrite.BalanceOperators | src/ast/parser.rs:34-86 | the loop returns exactly `Balance` of its input |
| RewriteProperties.InsertFromFails | src/ast/parser.rs:88-138 | from any point of the loop: no panic; the only error is `MissingExpression`, exactly for a leading `^` or a trailing function or `^` |
| RewriteProperties.InsertParensFails | src/ast/parser.rs:97-116 | `insert_parenthesis` fails exactly when the input starts with `^` or ends with a function or `^`, and then with `MissingExpression` |
| RewriteProperties.InsertFromPlain | src/ast/parser.rs:126-133 | without functions and powers the rest of the input is copied unchanged |
| RewriteProperties.InsertParensPlain | src/ast/parser.rs:88-138 | input without functions and powers is returned unchanged |
| RewriteProperties.InsertFromFunctions | src/ast/parser.rs:93-103 | from any point: each function and its argument become `( f x )`, and the argument is not emitted again |
| RewriteProperties.InsertParensFunctions | src/ast/parser.rs:93-130 | without powers and without a trailing function, the output is every function wrapped with its argument |
| RewriteProperties.InsertFromPlainPrefix | src/ast/parser.rs:126-133 | a prefix without functions and powers is copied through |
| RewriteProperties.PowerAfterPlainPrefix | src/ast/parser.rs:104-121 | the first `^` after a plain prefix removes the base from the output and appends `( base ^ exponent )`, then skips the exponent |
| RewriteProperties.PowerRemovesByInputIndex | src/ast/parser.rs:109-113 | after a function rewrite, the removal at the input index deletes the wrong output token and the base appears twice |
| RewriteProperties.BalanceFromCharacterised | src/ast/parser.rs:41-83 | from any point: a later sign followed by `+` is `UnexpectedOperator(Plus)`, else a trailing sign is `MissingExpression`, else the output is the reference `Balanced` |
| RewriteProperties.BalanceCharacterised | src/ast/parser.rs:34-86 | `balance_operators` is `UnexpectedOperator(Plus)` if some sign is followed by `+`, else `MissingExpression` for a trailing sign, else `Balanced` |
| RewriteProperties.BalancedCopies | src/ast/parser.rs:81 | with every sign followed by a non-sign, the reference output is the input |
| RewriteProperties.BalanceSeparated | src/ast/parser.rs:34-86 | input whose signs are all followed by a non-sign is returned unchanged |
| RewriteProperties.SkipNeverCleared | src/ast/parser.rs:50-61 | after `- -` collapses to `+`, the later `-` is dropped because the flag is never cleared |
| ShuntingYard.Parse | src/ast/parser.rs:217-287 | the rewrite passes and the conversion loop, with its pop loops and final drain, return exactly `ParseTokens` |
| ParserProperties.RunAppend | src/ast/parser.rs:230-280 | the conversion of `a + b` is the conversion of `a` continued with `b` |
| ParserProperties.IdentifierIgnored | src/ast/parser.rs:230-258 | an identifier anywhere in the stream does not change the conversion |
| ParserProperties.PopToParenForm | src/ast/parser.rs:242-250 | popping for an operator moves everything above the nearest `(` to the output front, in order |
| ParserProperties.CloseStepForm | src/ast/parser.rs:260-279 | `)` moves everything above the nearest `(` to the output and drops the `(`; with no `(` it panics on subtracting from or indexing the empty operator stack |
| ParserProperties.OperatorStepKeeps | src/ast/parser.rs:235-254 | an operator step succeeds, keeps stack and output well formed, and leaves the output's operands unchanged |
| ParserProperties.CloseStepKeeps | src/ast/parser.rs:260-279 | `)` never returns an error, panics only with no `(`, and keeps the operands |
| ParserProperties.StepKeeps | src/ast/parser.rs:230-279 | each token keeps the stack and output well formed and adds only its own operand; the only panic is `)` with no `(` |
| ParserProperties.RunKeeps | src/ast/parser.rs:230-280 | over the loop, the output's operands are those of the input in emission order, and the only panic is reading the top of the empty operator stack |
| ParserProperties.ShuntOutcomes | src/ast/parser.rs:227-287 | the conversion never returns an error; its queue holds no `)` and no identifier and keeps every number of the input, in reverse input order |
| ParserProperties.ParseOutcomes | src/ast/parser.rs:217-287 | `parse` returns only `MissingExpression` or `UnexpectedOperator(Plus)`, and panics only on reading the top of the empty operator stack |
| ParserProperties.OperatorPushed | src/ast/parser.rs:235-254 | an operator over an empty stack, a `(`, or a lower-precedence top is pushed with nothing popped |
| ParserProperties.OperatorPopsToParen | src/ast/parser.rs:239-250 | when the top binds at least as tightly, everything above the nearest `(` is popped, whatever the precedence below the top |
| ParserProperties.CloseParenPops | src/ast/parser.rs:260-279 | `)` pops the operators above the `(` into the output and removes the `(` |
| ParserProperties.PopsPastLowerPrecedence | src/ast/parser.rs:239-242 | the precedence read once lets `*` pop a lower `+` that a re-read would keep |
| Evaluator.Execute | src/ast/parser.rs:141-214 | the `pop_back` loop returns exactly `Evaluate` of the queue |
| EvaluatorProperties.ExecRunAppend | src/ast/parser.rs:144 | the queue is consumed from the back: the queue `a + b` evaluates `b` first and then `a` |
| EvaluatorProperties.IdentifierSkipped | src/ast/parser.rs:156-158 | an identifier anywhere in the queue is skipped |
| EvaluatorProperties.ExecRunOutcomes | src/ast/parser.rs:141-214 | the errors are `MissingExpression` and `DivisionByZero`; `unreachable!` needs a parenthesis in the queue; an empty-stack `unwrap` needs a function |
| EvaluatorProperties.BinaryOrder | src/ast/parser.rs:159-209 | the top value is the left operand and the one below it the right: `+` and `*` combine them; `-`, `/` and `^` give rhs - lhs, rhs / lhs and rhs raised to lhs; a zero divisor is `DivisionByZero` |
| EvaluatorProperties.MissingOperand | src/ast/parser.rs:159-203 | for every queue and stack: a binary operator taken when fewer than two values are on the stack is `MissingExpression` |
| EvaluatorProperties.ResultIsTop | src/ast/parser.rs:213 | the result is the top of the final stack, with lower values ignored, or 0.0 for an empty stack |
| EvaluatorProperties.FunctionApplied | src/ast/parser.rs:167-193 | for every queue, stack and function: the function replaces the top value by its sine, cosine, tangent or base-10 logarithm and evaluation continues; on an empty stack the `unwrap` panics |
| EvaluatorProperties.ParenUnreachable | src/ast/parser.rs:155-194 | for every queue in front and every stack: a parenthesis reached by evaluation hits `unreachable!` |
| Reference.RunRender | src/ast/parser.rs:230-280 | a fully parenthesised expression converts to its postfix form and leaves the operator stack as it was |
| Reference.ExecPostfix | src/ast/parser.rs:141-214 | evaluating the postfix form of an expression pushes the value direct evaluation gives, or fails with its division by zero |
| Reference.RenderShape | src/ast/parser.rs:34-138 | a rendered expression has no function or power and no adjacent signs, so both rewrite passes leave it unchanged |
| Reference.ParenthesisedMatchesEval | src/ast/parser.rs:217-287 | for every fully parenthesised expression, `parse` gives its postfix form and `execute` gives its value |
| Interpreting.Interpreter.constructor | src/ast/interpreter.rs:14-19 | the interpreter starts with a fresh lexer at position zero |
| Interpreting.Interpreter.Interpret | src/ast/interpreter.rs:44-54 | the result is `InterpretSpec`: empty input is `ExpressionEmpty`, else lex, parse and execute with the first failure returned; unless it panicked, the lexer is ready for the next call |
| Interpreting.ExpressionEmptyExactly | src/ast/interpreter.rs:45-47 | `ExpressionEmpty` is returned exactly for the empty expression |
| Interpreting.InterpretOutcomes | src/ast/interpreter.rs:44-54 | the returned errors are `MissingExpression`, `UnexpectedOperator(Plus)` and `DivisionByZero`; the literal-parse panic happens exactly when lexing panics, the empty-operator-stack panic exactly when parsing panics, and the `unreachable!` and empty-stack panics exactly when execution panics |
| Examples.OnePlusOne | src/lib.rs:7-12 | `1 + 1`, and `1+1` without spaces, evaluate to 2 |
| Examples.TenTimesTenMinusOne | src/lib.rs:14-19 | `10 * 10 - 1`, and `10*10-1` without spaces, evaluate to 99 |
| Examples.TenTimesEleven | src/lib.rs:21-29 | `10 * (10 + 1)`, and `10*(10+1)` without spaces, evaluate to 110 |
| Examples.MixedExpression | src/lib.rs:31-41 | `33 * 10 - (10 / 2 / 2 + 1) * 3 - 1` evaluates to 318.5 |
| Examples.MixedExpressionEnclosed | src/lib.rs:64-72 | `(33*10-(10/2/2+1)*3-1)` evaluates to 318.5 |
| Examples.UnclosedParenthesis | src/lib.rs:74-80 | `10*(10+1` panics: the unmatched `(` is drained to the queue and reaches `unreachable!` |
| Examples.TrailingSign | src/lib.rs:90-96 | `1 +` fails with `MissingExpression` |
| Examples.ParseTrailingSign | src/ast/parser.rs:63-67 | a sign as the last token is rejected by `balance_operators` with `MissingExpression` |
| Examples.LeadingSign | src/lib.rs:98-104 | `+ 1` fails with `MissingExpression`, in `execute` |
| Examples.PrecedenceReadOnce | src/ast/parser.rs:239-242 | `1 + 2 * 3 * 4` evaluates to 28 |
| Examples.LetterSwallowsNext | src/ast/lexer.rs:132-137 | `x+1` lexes without its `+` and evaluates to 1 |
| Examples.LetterSwallowsSpace | src/ast/lexer.rs:132-137 | `x + 1` loses only its space, keeps the `+`, and fails with `MissingExpression` |
| Examples.PiConstant | src/ast/parser.rs:145-147 | `pi` and `PI` evaluate to the value of `PI` |
| Examples.SineOfOne | src/ast/parser.rs:93-103 | `sin 1` is rewritten to `( sin 1 )` and evaluates to the sine of 1 |
| Examples.CosineProduct | src/ast/parser.rs:160-179 | `cos 1 * cos 2` evaluates to the product of the two cosines |
| Examples.TangentPlusLog | src/ast/parser.rs:159-193 | `tan 1 + log 10` evaluates to the tangent of 1 plus the base-10 logarithm of 10 |
| Examples.PowerTimesThree | src/ast/parser.rs:104-121 | `2^2 * 3` is rewritten to `( 2 ^ 2 ) * 3` and evaluates to 3 times `powf(2, 2)`, so to 12 when `powf` squares exactly |
| Examples.UnknownCharacterEnds | src/ast/lexer.rs:219-240 | `2 # 3` stops at `#` and evaluates to 2 |
| Examples.SkipFlagNeverCleared | src/ast/parser.rs:58-61 | `1 - - 2 - 3` loses its last `-` and evaluates to 5 |
| Examples.DivideByZero | src/ast/parser.rs:205-207 | `10 / (5 - 5)` fails with `DivisionByZero` |
| Examples.OneOverZero | src/ast/parser.rs:205-207 | `1/0` fails with `DivisionByZero` |
| Examples.UnopenedParenthesis | src/ast/parser.rs:261 | `1)` panics on subtracting from or indexing the empty operator stack |
| Examples.LexTwoDots | src/ast/lexer.rs:187-191 | the characters `1.2.3` make the lexer panic, as an instance of `BadLiteralPanics` |
| Examples.TwoDots | src/ast/lexer.rs:187-191 | `1.2.3` panics in the literal parse |

## Left out

- **Console and program entry.** `Interpreter::console` (src/ast/interpreter.rs:21-42) and `src/main.rs` are a stdin/stdout loop and process startup. They are I/O and are not modelled.
- **Printing.** Debug printing (src/ast/parser.rs:84, 221-224; src/ast/interpreter.rs:50) and the coloured warning for an unknown character (src/ast/lexer.rs:221-229) are output only. The model keeps only the fact that lexing stops.
- **Display and messages.** `TokenKind`'s `Display` (src/ast/lexer.rs:27-48) and `ParseError::message` (src/ast/parser.rs:15-25) are formatting through `format!` and `Debug`.
- **Floating point.**
  - f32 rounding is not modelled: `+ - * /` are exact on `real`.
  - `interpret` is declared to return `f64` (src/ast/interpreter.rs:44), but line 53 returns the `f32` result of `execute` unconverted, a type mismatch. The model has one number type, so it treats both as the same `real`.
  - `PI`, `sin`, `cos`, `tan`, `log10`, `powf` and the conversion of a valid literal are uninterpreted parameters (the `Maths` record).
  - What the model keeps of `str::parse::<f32>` is when it fails: a digit-and-dot run with two or more dots.
- **Unicode.**
  - Characters are ASCII: `is_numeric`, `is_alphabetic` and `to_lowercase` are their ASCII versions.
  - `len` is the character count, so the byte-length `len` versus character-count `current_pos` mismatch of src/ast/lexer.rs:262 is not modelled.
- **The `Token` wrapper.** `Token` (src/ast/lexer.rs:92-105) is modelled by the `TokenKind` it wraps, since it has no other field or behaviour.
- **The `Parser` struct.** `Parser` (src/ast/parser.rs:27-32) has no state, so its methods are top-level members.
- **`skip_while`.**
  - The `Option` that `skip_while` returns is ignored by its caller (src/ast/lexer.rs:172), so `SkipWhile` returns only the new cursor.
  - The source's inner `while next == target` always holds on entry, so the method writes the loop with the peek test as its guard; the characters consumed are the same.
- **Unreachable `ParensMismatch` returns.** The returns at src/ast/parser.rs:264-266 and 271-276 cannot be reached: the top of the stack is read before the stack is tested. They are not written in `Parse`. `CloseStepForm` and `CloseStepKeeps` state that `)` never returns an error.
- **Lexing.Lexer.Lex:** requires `current_pos == 0` on entry. This is the state the constructor and every completed `lex` leave, and the state `Interpreter.Valid` keeps between calls. A lexer left mid-stream by a panic is not modelled.
- **Interpreting.Interpreter.Interpret:** after a panic it does not promise anything about the lexer's counters, since the program unwinds.
- **Reference.ParenthesisedMatchesEval:** covers fully parenthesised expressions over `+ - * /`. Unparenthesised precedence, `pi`, functions and `^` are covered only by the per-step lemmas for all inputs and by the concrete expressions of `Examples` (`PiConstant`, `SineOfOne`, `CosineProduct`, `TangentPlusLog`, `PowerTimesThree`).
