# Tokenizer of the n_pol toy language, in Dafny

This project models the tokenizer in `src/lexer.rs`. A `Tokenizer` is built
from a source line by splitting it on the single character `' '`, with empty
pieces kept. `tokenize` then walks the words once, left to right. It keeps two
locals: a flag that says whether it is inside a string literal, and a string
buffer.

- A word that starts with `"` outside a string opens a literal. Its leading
  quotes are dropped into the buffer.
- Inside a string, each word is appended after one space.
- The first word that ends with `"` closes the literal. That word may be the
  opening word itself. Closing emits a `Literal(Str)` token whose text is the
  buffer with its trailing quotes removed.
- Every other word goes through a fixed chain. The first rule that matches
  wins:
  1. integer literal: only ASCII digits and `-`;
  2. keyword: `main`, `in`, `out`, `int`, `str`;
  3. identifier: a lowercase first letter, then lowercase letters, digits or
     `_`;
  4. operator: `:=`, `+`, `-`;
  5. otherwise the error `Unknown token: <word>` is recorded and the word is
     skipped.

The identifier test itself records `Identifiers should start with a
lowercase letter.` when the first character is not a lowercase letter.

The project has three modules:

- `RustStr` (`rust_str.dfy`): the parts of Rust's string API that the code
  uses: `split(" ")` and the join that inverts it, `trim_start_matches` and
  `trim_end_matches` with a single character, `starts_with` and `ends_with`,
  and the ASCII character classes.
- `Lexer` (`lexer.dfy`): the `Literal`, `TokenType` and `Token` datatypes and
  the pure predicates `is_literal`, `is_keyword` and `is_operator`.
  `is_identifier` appends to `error`, so it is the method
  `Tokenizer.IsIdentifier`; its two tests are the predicates
  `StartsLowercase` and `IdentifierTail`. It also holds a reference definition of one scan, written as
  a fold: `Classify` handles one word outside a string, `CloseIfQuoted` the
  closing of a string, `Step` one loop iteration, and `Run` the whole word
  list. Last, the class `Tokenizer` with the fields `input`, `tokens` and
  `error`. Its `Tokenize` is the source's loop, proved to append exactly what
  `Run` appends. The loop body is the method `ScanWord`, proved to do
  what one `Step` does. Two parts of it are methods of their own, each proved
  against its function: `CloseIfQuotedWord`, the closing block the source
  repeats in both string branches, and `ClassifyWord`, the rule chain for a
  word outside a string. `IsIdentifier` is the method that appends to
  `error` in place.
- `Scenarios` (`scenarios.dfy`): the unit test's input and a few lines worked
  through the fold.

Behaviour the code has and the model keeps:

- The empty word counts as an integer literal. Outside a string, a leading,
  trailing or doubled space therefore yields a `Literal(Int)` token with
  empty text. Inside a string the empty piece is appended after one space
  like any other word, so the doubled space stays in the Str text: `"a  b"`
  gives the single token `Literal(Str)` with text `a  b`.
- `-` is an integer literal, so the `-` operator is never emitted.
- `:=` and `+` yield an `Operator` token plus one identifier error.
- `Main` and `@foo` yield two errors: the identifier error, then the
  unknown-token error.
- A string still open at the end of the input is dropped without an error.
- The line `main := "Hello World"` gives the tokens `main`, `:=` and
  `Hello World`, plus the one identifier error raised for `:=`.

Some consequences of how the code is written, which the model keeps:

- A quote is looked for only as a word's first character (to open a string)
  and its last character (to close one). A quote in the middle of a word is
  an ordinary character, and nothing after a closing quote is classified
  again.
- When the identifier test fails on the first character, the word is not
  skipped: the operator rule and then the unknown-token rule still apply to
  it.

## Model

| member | source | states |
|---|---|---|
| RustStr.Split | src/lexer.rs:31 | `split(" ")` yields at least one piece, and no piece contains a space |
| RustStr.JoinSplit | src/lexer.rs:29-35 | joining the pieces of any string with single spaces gives back the string exactly, empty pieces included |
| RustStr.SplitJoin | src/lexer.rs:31 | splitting the space-join of space-free words gives back the same words, so no piece is lost or merged |
| RustStr.TrimStartMatchesSpec | src/lexer.rs:44 | `trim_start_matches('"')` leaves a suffix; every character dropped is the quote; the suffix does not start with the quote |
| RustStr.TrimEndMatchesSpec | src/lexer.rs:48 | `trim_end_matches('"')` leaves a prefix; every character dropped is the quote; the prefix does not end with the quote |
| RustStr.StartsWithPrefix | src/lexer.rs:42 | `starts_with('"')` holds exactly when the one-character string is a prefix of the word |
| RustStr.EndsWithSuffix | src/lexer.rs:46 | `ends_with('"')` holds exactly when the word is some string followed by the quote |
| RustStr.All | src/lexer.rs:99 | `chars().all(p)`, folded over the characters, holds exactly when every character satisfies `p` |
| RustStr.TrimStartMatches | src/lexer.rs:44 | `trim_start_matches('"')` is no longer than its argument and does not start with the quote |
| RustStr.TrimEndMatches | src/lexer.rs:48 | `trim_end_matches('"')` is no longer than its argument and does not end with the quote |
| RustStr.JoinSnoc | src/lexer.rs:59-60 | adding one more word to the buffer adds exactly one space and the word |
| Lexer.IsLiteral | src/lexer.rs:98-101 | `is_literal` holds exactly when every character is an ASCII digit or `-`, so the empty word is a literal |
| Lexer.StartsLowercase | src/lexer.rs:109 | the first test of `is_identifier`: a word that passes is not empty, is not an integer literal and does not open a string |
| Lexer.IdentifierTail | src/lexer.rs:115-118 | the second test of `is_identifier` holds exactly when every character after the first is a lowercase letter, a digit or `_` |
| Lexer.IsKeyword | src/lexer.rs:103-106 | `is_keyword` holds exactly for `main`, `in`, `out`, `int` and `str`; each keyword would also pass both identifier tests and is no integer literal |
| Lexer.IsOperator | src/lexer.rs:121-124 | `is_operator` holds exactly for `:=`, `+` and `-`; no operator starts with a lowercase letter, and `-` is the one operator that is also an integer literal |
| Lexer.Classify | src/lexer.rs:77-93 | one word outside a string gives one token carrying the word, or no token with the unknown-token error last. A word gets a `Literal(Int)` token exactly when it is an integer literal (`""` and `-` included), and then no error. Keyword, identifier and operator are each chosen only when every earlier rule fails, and no token is given exactly when every rule fails. The `-` operator token never occurs. The errors are exactly: the identifier error when the identifier rule is reached with a word that does not start lowercase, then the unknown-token error when no token is given |
| Lexer.UnknownNonLowercaseWord | src/lexer.rs:77-88 | a word that is no literal, keyword or operator and does not start lowercase gives no token and exactly two errors: the identifier error, then `Unknown token: <word>` |
| Lexer.PlainWordClassified | src/lexer.rs:77-84 | a literal, keyword or well-formed identifier word never opens a string, and gives exactly one token, with its text and the kind of the first rule it satisfies (`Literal(Int)`, then `Keyword`, then `Identifier`), and no error |
| Lexer.RunPlainWordsState | src/lexer.rs:41-93 | a run of literal, keyword and identifier words keeps the scan outside a string with its buffer and errors unchanged, and appends one token per word, in order: the word with the kind of the first rule it satisfies |
| Lexer.RunPlainWords | src/lexer.rs:77-93 | such a run raises no error and gives one token per word, in word order, each carrying its word and the kind of the first rule the word satisfies |
| Lexer.CloseText | src/lexer.rs:46-54 | closing a string appends exactly one Str token and no error, and leaves the scan outside a string with an empty buffer. The token's text is a prefix of the buffer, every character cut off is a quote, and the text does not end with a quote: exactly the trailing quotes are removed |
| Lexer.Step | src/lexer.rs:42-93 | one loop iteration only appends: the old tokens and errors are kept as a prefix, with at most one token and two errors added |
| Lexer.Run | src/lexer.rs:41-95 | the scan of a word list only appends, at most one token per word |
| Lexer.RunConcat | src/lexer.rs:41-95 | scanning `a` and then `b` equals scanning `a + b`: the loop carries its whole state from word to word |
| Lexer.CloseWellFormed | src/lexer.rs:61-70 | closing a buffer with no leading quote emits a Str token with no quote at either end, and leaves the buffer empty |
| Lexer.StepWellFormed | src/lexer.rs:42-72 | one loop iteration keeps the invariant: the buffer is empty outside a string; inside one it is non-empty with no quote at either end; Str tokens carry no quote at either end |
| Lexer.RunWellFormed | src/lexer.rs:38-72 | the whole scan keeps that invariant from the initial state |
| Lexer.RunNeverEmitsMinusOperator | src/lexer.rs:77-84 | no scan ever emits an `Operator` token with text `-` |
| Lexer.RunOpenString | src/lexer.rs:42-72 | after an opening word that does not close, each word not ending with a quote is added after one space, and no token or error is produced, so an unterminated string is dropped |
| Lexer.RunQuotedString | src/lexer.rs:42-72 | an opening word, then words not ending with a quote, then a closing word give exactly one Str token. Its text is the opening word without leading quotes and the later words, joined by single spaces, minus trailing quotes. The scan is then outside a string with an empty buffer |
| Lexer.Tokenizer.constructor | src/lexer.rs:29-35 | `input` is the split of the source, and joining it back gives the source; `tokens` and `error` start empty |
| Lexer.Tokenizer.IsIdentifier | src/lexer.rs:108-119 | without a lowercase first letter it appends exactly one error and answers false; otherwise it appends nothing and answers whether every later character is lowercase, a digit or `_`. Its callers never pass the empty word (proved at the call in `ClassifyWord`) |
| Lexer.Tokenizer.ScanWord | src/lexer.rs:42-93 | one pass of the loop body leaves the loop's locals, `tokens` and `error` exactly as one `Step` of the fold does |
| Lexer.Tokenizer.CloseIfQuotedWord | src/lexer.rs:61-70 | the closing block of a string: the loop's locals and `tokens` become what `CloseIfQuoted` gives for the word and the buffer |
| Lexer.Tokenizer.ClassifyWord | src/lexer.rs:77-93 | the rule chain for a word outside a string appends to `tokens` and `error` exactly what `Classify` gives |
| Lexer.Tokenizer.Tokenize | src/lexer.rs:37-96 | `tokens` and `error` become exactly what the fold `Run` yields from their old contents over `input`; both only grow; `input` is not changed |
| Scenarios.HelloWorld | src/lexer.rs:42-93 | `main := "Hello World"` gives `Keyword main`, `Operator :=` and `Literal(Str) Hello World`, plus one identifier error |
| Scenarios.SourceTestInput | src/lexer.rs:131-141 | the unit test's input leaves the string open: `Keyword main` and `Operator :=` are emitted and the quoted part is dropped |
| Scenarios.ThreeFragments | src/lexer.rs:42-93 | the line `x := "a b c"` gives `Identifier x`, `Operator :=` and `Literal(Str) a b c`, plus the identifier error raised for `:=` |
| Scenarios.ClassifyAssign | src/lexer.rs:81-84 | `:=` is an `Operator` token and also records the identifier error |
| Scenarios.ClassifyUnknownWords | src/lexer.rs:77-88 | `Main` and `@foo` each give no token and two errors: the identifier error, then the unknown-token error |
| Scenarios.ClassifyMinus | src/lexer.rs:98-100 | `-1` and `-` are `Literal(Int)` tokens |
| Scenarios.KeywordsClassifyAsKeywords | src/lexer.rs:103-106 | every keyword is classified as `Keyword` with no error |
| Scenarios.DoubledSpace | src/lexer.rs:31 | a doubled space yields an empty piece, and the empty word is a `Literal(Int)` token with no error |
| Scenarios.QuotedDoubledSpace | src/lexer.rs:58-70 | inside a string a doubled space is kept: the line `"a  b"` gives the single token `Literal(Str) a  b` and no error |

## Left out

- `#[derive(Debug)]` and the test's `println!` calls: formatting and output only.
- The unit test's `assert!(tokenizer.tokens.is_empty())`: the code does not satisfy it. `Scenarios.SourceTestInput` states what the code produces for that input instead.
- The commented-out `split_whitespace` loop: it is not part of the code.
- Rust `String` is UTF-8 with Unicode scalar values. Here a string is a `seq<char>`, and `is_ascii_digit` and `is_ascii_lowercase` are character ranges.
- The `self.input.clone()` the loop iterates over: the model reads `input`, which the loop never changes.
- Re-tokenizing the same line always gives the same result. In the model this holds by construction, because `Run` is a function; no separate lemma states it.
