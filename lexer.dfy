/** The tokenizer of the toy language: a source line is split on single
    spaces, and the words are scanned left to right by a two-state machine
    (outside or inside a quoted string). Outside a string each word is
    classified, first rule wins, as an integer literal, a keyword, an
    identifier or an operator, and otherwise recorded as an unknown token.

    `Classify`, `Step` and `Run` are the reference definition of one scan,
    written as a fold over the words; `Tokenizer.Tokenize` is the loop the
    source runs, proved to produce exactly what `Run` produces. */
module Lexer {
  import opened RustStr

  datatype LiteralKind = Int | Str

  datatype TokenType = Identifier | Keyword | Literal(kind: LiteralKind) | Operator

  datatype Token = Token(tokenType: TokenType, tokenData: string)

  const Keywords: seq<string> := ["main", "in", "out", "int", "str"]

  const Operators: seq<string> := [":=", "+", "-"]

  // Written as two literals so that the verifier can read its first character.
  const IdentifierStartError: string := "Identifiers" + " should start with a lowercase letter."

  function UnknownTokenError(w: string): string { "Unknown token: " + w }

  predicate IsLiteralChar(c: char) { IsAsciiDigit(c) || c == '-' }

  predicate IsIdentifierChar(c: char) { IsAsciiLowercase(c) || IsAsciiDigit(c) || c == '_' }

  /** `is_literal`: every character is an ASCII digit or `-` (vacuously true
      of the empty word). */
  predicate IsLiteral(w: string)
    ensures IsLiteral(w) <==> forall i :: 0 <= i < |w| ==> IsAsciiDigit(w[i]) || w[i] == '-'
  {
    All(w, IsLiteralChar)
  }

  /** `is_identifier`'s first test, `chars().next().unwrap().is_ascii_lowercase()`;
      failing it records an error. A word that passes is neither an integer
      literal nor the start of a string. */
  predicate StartsLowercase(w: string)
    ensures StartsLowercase(w) ==> w != [] && !IsLiteral(w) && !StartsWith(w, '"')
  {
    |w| > 0 && IsAsciiLowercase(w[0])
  }

  /** `is_identifier`'s second test, `chars().skip(1).all(..)`: every
      character after the first is a lowercase letter, a digit or `_`. */
  predicate IdentifierTail(w: string)
    ensures IdentifierTail(w) <==> forall i :: 1 <= i < |w| ==> IsAsciiLowercase(w[i]) || IsAsciiDigit(w[i]) || w[i] == '_'
  {
    All(if w == [] then [] else w[1..], IsIdentifierChar)
  }

  /** `is_keyword`: one of the fixed keywords, case-sensitively. Every
      keyword would also pass as an identifier, so the order of the rules
      decides that it becomes a keyword. */
  predicate IsKeyword(w: string)
    ensures IsKeyword(w) <==> w == "main" || w == "in" || w == "out" || w == "int" || w == "str"
    ensures IsKeyword(w) ==> !IsLiteral(w) && StartsLowercase(w) && IdentifierTail(w)
  {
    w in Keywords
  }

  /** `is_operator`: one of the fixed operators. None of them starts with a
      lowercase letter, and `-` alone is also an integer literal. */
  predicate IsOperator(w: string)
    ensures IsOperator(w) <==> w == ":=" || w == "+" || w == "-"
    ensures IsOperator(w) ==> !StartsLowercase(w)
    ensures IsOperator(w) && IsLiteral(w) <==> w == "-"
  {
    w in Operators
  }

  /** What classifying one word outside a string appends. */
  datatype Outcome = Outcome(tokens: seq<Token>, errors: seq<string>)

  lemma ErrorMessagesDiffer(w: string)
    ensures IdentifierStartError != UnknownTokenError(w)
  {
    assert IdentifierStartError[0] == 'I';
    assert UnknownTokenError(w)[0] == 'U';
  }

  /** The classification chain applied to a word outside a string. */
  function Classify(w: string): (r: Outcome)
    // Either exactly one token carrying the word, or no token and the
    // unknown-token error last; the scan goes on in both cases.
    ensures || (|r.tokens| == 1 && r.tokens[0].tokenData == w && r.tokens[0].tokenType != Literal(Str)
                && UnknownTokenError(w) !in r.errors)
            || (r.tokens == [] && r.errors != [] && r.errors[|r.errors| - 1] == UnknownTokenError(w))
    // Words of digits and `-` (the empty word and `-` included) are integer
    // literals and raise nothing.
    ensures IsLiteral(w) ==> r == Outcome([Token(Literal(Int), w)], [])
    // Precedence: a later category is chosen only when every earlier one fails.
    ensures r.tokens == [Token(Keyword, w)] <==> !IsLiteral(w) && IsKeyword(w)
    ensures r.tokens == [Token(Identifier, w)] <==>
              !IsLiteral(w) && !IsKeyword(w) && StartsLowercase(w) && IdentifierTail(w)
    ensures r.tokens == [Token(Operator, w)] <==>
              !IsLiteral(w) && !IsKeyword(w) && !(StartsLowercase(w) && IdentifierTail(w)) && IsOperator(w)
    ensures Token(Operator, "-") !in r.tokens
    // The identifier error is raised exactly when the identifier rule is
    // reached with a word that does not start with a lowercase letter,
    // even if the word is then accepted as an operator.
    ensures IdentifierStartError in r.errors <==> !IsLiteral(w) && !IsKeyword(w) && !StartsLowercase(w)
    // Integer literals, and only they, give a `Literal(Int)` token; a word
    // that fails every rule gives no token.
    ensures r.tokens == [Token(Literal(Int), w)] <==> IsLiteral(w)
    ensures r.tokens == [] <==>
              !IsLiteral(w) && !IsKeyword(w) && !(StartsLowercase(w) && IdentifierTail(w)) && !IsOperator(w)
    // The errors exactly: the identifier error when that rule is reached
    // without a lowercase start, then the unknown-token error when no token
    // is given.
    ensures r.errors == (if !IsLiteral(w) && !IsKeyword(w) && !StartsLowercase(w) then [IdentifierStartError] else [])
                        + (if r.tokens == [] then [UnknownTokenError(w)] else [])
  {
    ErrorMessagesDiffer(w);
    if IsLiteral(w) then Outcome([Token(Literal(Int), w)], [])
    else if IsKeyword(w) then Outcome([Token(Keyword, w)], [])
    else
      var idErrors := if StartsLowercase(w) then [] else [IdentifierStartError];
      if StartsLowercase(w) && IdentifierTail(w) then Outcome([Token(Identifier, w)], idErrors)
      else if IsOperator(w) then Outcome([Token(Operator, w)], idErrors)
      else Outcome([], idErrors + [UnknownTokenError(w)])
  }

  /** A word that is no integer literal, no keyword and no operator, and
      that does not start with a lowercase letter, gives no token and two
      errors: the identifier error, then the unknown-token error. */
  lemma UnknownNonLowercaseWord(w: string)
    requires !IsLiteral(w) && !IsKeyword(w) && !StartsLowercase(w) && !IsOperator(w)
    ensures Classify(w) == Outcome([], [IdentifierStartError, UnknownTokenError(w)])
  {
  }

  /** The scan state between words: the two locals of `tokenize` and the two
      lists it appends to. */
  datatype Scan = Scan(inString: bool, buffer: string, tokens: seq<Token>, errors: seq<string>)

  /** The state before the first word, given what the lists already hold. */
  function Initial(tokens: seq<Token>, errors: seq<string>): Scan {
    Scan(false, "", tokens, errors)
  }

  /** If the word ends with a quote, the string closes: its text is the
      buffer with trailing quotes removed, and the buffer is emptied. */
  function CloseIfQuoted(s: Scan, w: string): (r: Scan)
    ensures EndsWith(w, '"') ==> !r.inString && r.buffer == "" && r.errors == s.errors
                                 && r.tokens == s.tokens + [Token(Literal(Str), TrimEndMatches(s.buffer, '"'))]
    ensures !EndsWith(w, '"') ==> r == s
  {
    if EndsWith(w, '"') then
      Scan(false, "", s.tokens + [Token(Literal(Str), TrimEndMatches(s.buffer, '"'))], s.errors)
    else s
  }

  /** Closing a string appends exactly one Str token and nothing else. Its
      text is a prefix of the buffer, every character cut off is a quote, and
      the text does not end with a quote: exactly the trailing run of quotes
      is removed. */
  lemma CloseText(s: Scan, w: string)
    requires EndsWith(w, '"')
    ensures var r := CloseIfQuoted(s, w);
            && !r.inString && r.buffer == "" && r.errors == s.errors
            && |r.tokens| == |s.tokens| + 1 && r.tokens[..|s.tokens|] == s.tokens
            && r.tokens[|s.tokens|].tokenType == Literal(Str)
            && var t := r.tokens[|s.tokens|].tokenData;
               && t == s.buffer[..|t|]
               && (forall i :: |t| <= i < |s.buffer| ==> s.buffer[i] == '"')
               && !EndsWith(t, '"')
  {
    TrimEndMatchesSpec(s.buffer, '"');
    assert CloseIfQuoted(s, w).tokens[..|s.tokens|] == s.tokens;
  }

  /** One iteration of the scan loop. */
  function Step(s: Scan, w: string): (r: Scan)
    ensures s.tokens <= r.tokens && |r.tokens| <= |s.tokens| + 1
    ensures s.errors <= r.errors && |r.errors| <= |s.errors| + 2
  {
    if !s.inString && StartsWith(w, '"') then
      CloseIfQuoted(s.(inString := true, buffer := s.buffer + TrimStartMatches(w, '"')), w)
    else if s.inString then
      CloseIfQuoted(s.(buffer := s.buffer + " " + w), w)
    else
      var o := Classify(w);
      s.(tokens := s.tokens + o.tokens, errors := s.errors + o.errors)
  }

  /** The scan of the words from state `s`, a fold taking the words left to
      right (it peels the last word, as the loop's invariant reads it). */
  function Run(s: Scan, ws: seq<string>): (r: Scan)
    decreases |ws|
    // The scan only appends: nothing already emitted is removed or reordered.
    ensures s.tokens <= r.tokens && |r.tokens| <= |s.tokens| + |ws|
    ensures s.errors <= r.errors
  {
    if ws == [] then s else Step(Run(s, ws[..|ws| - 1]), ws[|ws| - 1])
  }

  /** Scanning two runs of words one after the other is scanning them
      together: the fold carries its whole state from one word to the next. */
  lemma {:induction false} RunConcat(s: Scan, a: seq<string>, b: seq<string>)
    ensures Run(s, a + b) == Run(Run(s, a), b)
  {
    if b == [] {
      assert a + b == a;
    } else {
      assert (a + b)[..|a + b| - 1] == a + b[..|b| - 1];
      RunConcat(s, a, b[..|b| - 1]);
    }
  }

  /** Adding one more word to a scan is one more step. */
  lemma RunSnoc(s: Scan, ws: seq<string>, w: string)
    ensures Run(s, ws + [w]) == Step(Run(s, ws), w)
  {
    assert (ws + [w])[..|ws|] == ws;
  }

  /** The three cases of one step, stated separately so that proofs about
      one case need not consider the others. */
  lemma StepOpening(s: Scan, w: string)
    requires !s.inString && StartsWith(w, '"')
    ensures Step(s, w) == CloseIfQuoted(s.(inString := true, buffer := s.buffer + TrimStartMatches(w, '"')), w)
  {
  }

  lemma StepInside(s: Scan, w: string)
    requires s.inString
    ensures Step(s, w) == CloseIfQuoted(s.(buffer := s.buffer + " " + w), w)
  {
  }

  lemma StepOutside(s: Scan, w: string)
    requires !s.inString && !StartsWith(w, '"')
    ensures Step(s, w) == s.(tokens := s.tokens + Classify(w).tokens, errors := s.errors + Classify(w).errors)
  {
  }

  /** Str tokens never begin or end with the quote character. */
  predicate StrTokensUnquoted(tokens: seq<Token>) {
    forall i :: 0 <= i < |tokens| && tokens[i].tokenType == Literal(Str) ==>
      !StartsWith(tokens[i].tokenData, '"') && !EndsWith(tokens[i].tokenData, '"')
  }

  /** The buffer is empty outside a string, and inside one it is non-empty
      with no quote at either end; emitted strings carry no quotes. */
  predicate WellFormed(s: Scan) {
    && (if s.inString then s.buffer != "" && !StartsWith(s.buffer, '"') && !EndsWith(s.buffer, '"')
        else s.buffer == "")
    && StrTokensUnquoted(s.tokens)
  }

  /** Closing a string whose buffer has no leading quote emits a Str token
      with no quote at either end. */
  lemma CloseWellFormed(s: Scan, w: string)
    requires StrTokensUnquoted(s.tokens) && !StartsWith(s.buffer, '"')
    requires EndsWith(w, '"')
    ensures WellFormed(CloseIfQuoted(s, w))
  {
    var text := TrimEndMatches(s.buffer, '"');
    TrimEndMatchesSpec(s.buffer, '"');
    assert text != [] ==> text[0] == s.buffer[0];
    assert CloseIfQuoted(s, w).tokens == s.tokens + [Token(Literal(Str), text)];
  }

  lemma StepWellFormed(s: Scan, w: string)
    requires WellFormed(s)
    ensures WellFormed(Step(s, w))
  {
    if !s.inString && StartsWith(w, '"') {
      var t := TrimStartMatches(w, '"');
      TrimStartMatchesSpec(w, '"');
      assert s.buffer + t == t;
      if EndsWith(w, '"') {
        CloseWellFormed(s.(inString := true, buffer := t), w);
      } else {
        assert t != [] by { assert w[|w| - 1] != '"'; }
        assert t[|t| - 1] == w[|w| - 1];
      }
    } else if s.inString {
      var b := s.buffer + " " + w;
      assert b[0] == s.buffer[0];
      if EndsWith(w, '"') {
        CloseWellFormed(s.(buffer := b), w);
      } else {
        assert b[|b| - 1] != '"';
      }
    } else {
      var o := Classify(w);
      assert forall i :: 0 <= i < |o.tokens| ==> o.tokens[i].tokenType != Literal(Str);
      assert Step(s, w).tokens == s.tokens + o.tokens;
    }
  }

  /** Every scan from a well-formed state stays well-formed. */
  lemma {:induction false} RunWellFormed(s: Scan, ws: seq<string>)
    requires WellFormed(s)
    ensures WellFormed(Run(s, ws))
  {
    if ws != [] {
      RunWellFormed(s, ws[..|ws| - 1]);
      StepWellFormed(Run(s, ws[..|ws| - 1]), ws[|ws| - 1]);
    }
  }

  /** `-` is always an integer literal, so the `-` operator is never emitted. */
  lemma {:induction false} RunNeverEmitsMinusOperator(s: Scan, ws: seq<string>)
    requires Token(Operator, "-") !in s.tokens
    ensures Token(Operator, "-") !in Run(s, ws).tokens
  {
    if ws != [] {
      var p := Run(s, ws[..|ws| - 1]);
      RunNeverEmitsMinusOperator(s, ws[..|ws| - 1]);
      var w := ws[|ws| - 1];
      assert Token(Operator, "-") != Token(Literal(Str), TrimEndMatches(p.buffer + " " + w, '"'));
    }
  }

  /** After an opening word that does not close, each further word that does
      not end with a quote is added to the buffer after one space, and no
      token and no error is produced; a string left open at the end of the
      input is therefore dropped. */
  lemma {:induction false} RunOpenString(s: Scan, w0: string, mid: seq<string>)
    requires !s.inString && s.buffer == ""
    requires StartsWith(w0, '"') && !EndsWith(w0, '"')
    requires forall i :: 0 <= i < |mid| ==> !EndsWith(mid[i], '"')
    ensures Run(s, [w0] + mid) == Scan(true, Join([TrimStartMatches(w0, '"')] + mid), s.tokens, s.errors)
  {
    var t := TrimStartMatches(w0, '"');
    if mid == [] {
      RunSnoc(s, [], w0);
      assert [] + [w0] == [w0] + mid;
      StepOpening(s, w0);
      assert s.buffer + t == t;
      assert [t] + mid == [t];
    } else {
      var front := mid[..|mid| - 1];
      var w := mid[|mid| - 1];
      RunOpenString(s, w0, front);
      var p := Run(s, [w0] + front);
      RunSnoc(s, [w0] + front, w);
      assert ([w0] + front) + [w] == [w0] + mid;
      StepInside(p, w);
      assert [t] + mid == ([t] + front) + [w];
      JoinSnoc([t] + front, w);
    }
  }

  /** String reassembly: an opening word, words without a closing quote, and
      a first word ending with a quote (possibly the opening word itself)
      give exactly one Str token. Its text is the opening word without its
      leading quotes and the later words, joined by single spaces, with the
      trailing quotes removed; afterwards the scan is outside a string with
      an empty buffer. */
  lemma {:induction false} RunQuotedString(s: Scan, ws: seq<string>)
    requires !s.inString && s.buffer == ""
    requires |ws| > 0 && StartsWith(ws[0], '"') && EndsWith(ws[|ws| - 1], '"')
    requires forall i :: 0 <= i < |ws| - 1 ==> !EndsWith(ws[i], '"')
    ensures Run(s, ws) == Scan(false, "",
                               s.tokens + [Token(Literal(Str), TrimEndMatches(Join([TrimStartMatches(ws[0], '"')] + ws[1..]), '"'))],
                               s.errors)
  {
    var t := TrimStartMatches(ws[0], '"');
    if |ws| == 1 {
      RunSnoc(s, [], ws[0]);
      assert [] + [ws[0]] == ws;
      StepOpening(s, ws[0]);
      assert s.buffer + t == t;
      assert [t] + ws[1..] == [t];
    } else {
      var mid := ws[1..|ws| - 1];
      var w := ws[|ws| - 1];
      RunOpenString(s, ws[0], mid);
      var p := Run(s, [ws[0]] + mid);
      RunSnoc(s, [ws[0]] + mid, w);
      assert ([ws[0]] + mid) + [w] == ws;
      StepInside(p, w);
      assert [t] + ws[1..] == ([t] + mid) + [w];
      JoinSnoc([t] + mid, w);
    }
  }

  /** A word that is an integer literal, a keyword or a well-formed
      identifier. */
  predicate IsPlainWord(w: string) {
    IsLiteral(w) || IsKeyword(w) || (StartsLowercase(w) && IdentifierTail(w))
  }

  /** The texts of a token sequence, in order. */
  function Texts(tokens: seq<Token>): seq<string> {
    seq(|tokens|, i requires 0 <= i < |tokens| => tokens[i].tokenData)
  }

  lemma TextsAppend(a: seq<Token>, b: seq<Token>)
    ensures Texts(a + b) == Texts(a) + Texts(b)
  {
  }

  /** The kind the first matching rule gives a plain word. */
  function PlainKind(w: string): TokenType {
    if IsLiteral(w) then Literal(Int) else if IsKeyword(w) then Keyword else Identifier
  }

  /** The tokens of a run of plain words, one per word, in order. */
  function PlainTokens(ws: seq<string>): seq<Token> {
    seq(|ws|, i requires 0 <= i < |ws| => Token(PlainKind(ws[i]), ws[i]))
  }

  /** A plain word does not open a string and is classified without error. */
  lemma PlainWordClassified(w: string)
    requires IsPlainWord(w)
    ensures !StartsWith(w, '"')
    ensures Classify(w).errors == [] && Texts(Classify(w).tokens) == [w]
    ensures Classify(w).tokens == [Token(PlainKind(w), w)]
  {
    if IsLiteral(w) && w != [] { assert IsAsciiDigit(w[0]) || w[0] == '-'; }
    if IsKeyword(w) { assert w[0] != '"'; }
  }

  /** Plain words leave the scan outside a string, raise nothing, and append
      one token per word: the word, with the kind of the first rule it
      satisfies. */
  lemma {:induction false} RunPlainWordsState(s: Scan, ws: seq<string>)
    requires !s.inString
    requires forall i :: 0 <= i < |ws| ==> IsPlainWord(ws[i])
    ensures Run(s, ws) == s.(tokens := s.tokens + PlainTokens(ws))
  {
    if ws == [] {
      assert PlainTokens(ws) == [];
    } else {
      var front := ws[..|ws| - 1];
      var w := ws[|ws| - 1];
      assert front + [w] == ws;
      assert PlainTokens(ws) == PlainTokens(front) + [Token(PlainKind(w), w)];
      RunPlainWordsState(s, front);
      PlainWordClassified(w);
      RunSnoc(s, front, w);
      StepOutside(Run(s, front), w);
    }
  }

  /** Literals, keywords and lowercase identifiers give one token each, in
      order, carrying the word, and no error at all. */
  lemma RunPlainWords(s: Scan, ws: seq<string>)
    requires !s.inString
    requires forall i :: 0 <= i < |ws| ==> IsPlainWord(ws[i])
    ensures !Run(s, ws).inString && Run(s, ws).errors == s.errors
    ensures Texts(Run(s, ws).tokens) == Texts(s.tokens) + ws
    // Each new token has the kind of the first rule its word satisfies.
    ensures Run(s, ws).tokens == s.tokens + PlainTokens(ws)
  {
    RunPlainWordsState(s, ws);
    TextsAppend(s.tokens, PlainTokens(ws));
    assert Texts(PlainTokens(ws)) == ws;
  }

  /** The tokenizer: the input words, the tokens and the error messages. */
  class Tokenizer {
    var input: seq<string>
    var tokens: seq<Token>
    var error: seq<string>

    /** `new`: splits the source on single spaces; joining the words back
        with single spaces gives the source again. */
    constructor (source: string)
      ensures input == Split(source) && Join(input) == source
      ensures tokens == [] && error == []
    {
      input := Split(source);
      tokens := [];
      error := [];
      JoinSplit(source);
    }

    /** `is_identifier`: records the identifier error and answers false when
        the word does not start with a lowercase letter; otherwise records
        nothing and checks the remaining characters. The caller never passes
        the empty word, which is an integer literal. */
    method IsIdentifier(w: string) returns (ok: bool)
      requires w != ""
      modifies this`error
      ensures ok <==> StartsLowercase(w) && IdentifierTail(w)
      ensures error == old(error) + (if StartsLowercase(w) then [] else [IdentifierStartError])
    {
      if !IsAsciiLowercase(w[0]) {
        error := error + [IdentifierStartError];
        return false;
      }
      ok := IdentifierTail(w);
    }

    /** The block `tokenize` runs, inside a string, once the word has been
        added to the buffer: a word ending with a quote closes the string,
        pushing the buffer without its trailing quotes as a Str token and
        clearing the buffer; otherwise the string stays open. It does what
        `CloseIfQuoted` does. */
    method CloseIfQuotedWord(w: string, buffer: string) returns (inString: bool, rest: string)
      modifies this`tokens
      ensures Scan(inString, rest, tokens, error) == CloseIfQuoted(Scan(true, buffer, old(tokens), error), w)
    {
      inString, rest := true, buffer;
      if EndsWith(w, '"') {
        inString := false;
        rest := TrimEndMatches(rest, '"');
        tokens := tokens + [Token(Literal(Str), rest)];
        rest := "";
      }
    }

    /** The end of `tokenize`'s loop body, for a word outside a string: the
        first rule that holds gives the token type and the token is pushed;
        a word no rule accepts records the unknown-token error instead.
        It appends exactly what `Classify` gives. */
    method ClassifyWord(w: string)
      modifies this`tokens, this`error
      ensures tokens == old(tokens) + Classify(w).tokens
      ensures error == old(error) + Classify(w).errors
    {
      var tokenType: TokenType;
      if IsLiteral(w) {
        tokenType := Literal(Int);
        assert Classify(w) == Outcome([Token(tokenType, w)], []);
      } else if IsKeyword(w) {
        tokenType := Keyword;
        assert Classify(w) == Outcome([Token(tokenType, w)], []);
      } else {
        ghost var idErrors := if StartsLowercase(w) then [] else [IdentifierStartError];
        var ident := IsIdentifier(w);
        if ident {
          tokenType := Identifier;
        } else if IsOperator(w) {
          tokenType := Operator;
        } else {
          error := error + [UnknownTokenError(w)];
          assert Classify(w) == Outcome([], idErrors + [UnknownTokenError(w)]);
          return;
        }
        assert Classify(w) == Outcome([Token(tokenType, w)], idErrors);
      }
      tokens := tokens + [Token(tokenType, w)];
    }

    /** One pass of `tokenize`'s loop body over the word `w`, given the
        loop's two locals: it opens a string, adds to an open one, or
        classifies the word, and yields the new locals. It does exactly what
        one `Step` does. */
    method ScanWord(w: string, inString: bool, buffer: string) returns (inString': bool, buffer': string)
      modifies this`tokens, this`error
      ensures Scan(inString', buffer', tokens, error) == Step(Scan(inString, buffer, old(tokens), old(error)), w)
    {
      ghost var before := Scan(inString, buffer, tokens, error);
      if !inString && StartsWith(w, '"') {
        StepOpening(before, w);
        inString', buffer' := CloseIfQuotedWord(w, buffer + TrimStartMatches(w, '"'));
      } else if inString {
        StepInside(before, w);
        inString', buffer' := CloseIfQuotedWord(w, buffer + " " + w);
      } else {
        StepOutside(before, w);
        ClassifyWord(w);
        inString', buffer' := inString, buffer;
      }
    }

    /** `tokenize`: scans every input word once, appending to `tokens` and
        `error` exactly what the reference fold `Run` appends. */
    method Tokenize()
      modifies this`tokens, this`error
      ensures tokens == Run(Initial(old(tokens), old(error)), input).tokens
      ensures error == Run(Initial(old(tokens), old(error)), input).errors
      ensures old(tokens) <= tokens && old(error) <= error
    {
      var inString := false;
      var buffer := "";
      for i := 0 to |input|
        invariant Run(Initial(old(tokens), old(error)), input[..i]) == Scan(inString, buffer, tokens, error)
      {
        var w := input[i];
        assert input[..i] + [w] == input[..i + 1];
        RunSnoc(Initial(old(tokens), old(error)), input[..i], w);
        inString, buffer := ScanWord(w, inString, buffer);
      }
      assert input[..|input|] == input;
    }
  }
}
