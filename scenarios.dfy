/** The input of the source's unit test and a few other lines and words,
    worked through the reference fold. Each line or
    state is a parameter fixed by a `requires`, so that the verifier reasons
    about it step by step instead of evaluating the whole scan at once. */
module Scenarios {
  import opened RustStr
  import opened Lexer

  /** The scan of the words of `line` from a fresh tokenizer. */
  function TokenizeLine(line: string): Scan {
    Run(Initial([], []), Split(line))
  }

  /** A state outside a string with an empty buffer, as between words. */
  predicate Between(s: Scan) { !s.inString && s.buffer == "" }

  lemma ClassifyMain()
    ensures Classify("main") == Outcome([Token(Keyword, "main")], [])
  {
    assert !IsLiteral("main") by { assert !IsAsciiDigit("main"[0]); }
    assert IsKeyword("main") by { assert Keywords[0] == "main"; }
  }

  /** `:=` is an operator, but not before the identifier rule has recorded
      its error. */
  lemma ClassifyAssign()
    ensures Classify(":=") == Outcome([Token(Operator, ":=")], [IdentifierStartError])
  {
    assert !IsLiteral(":=") by { assert !IsAsciiDigit(":="[0]); }
    assert !IsKeyword(":=");
    assert IsOperator(":=") by { assert Operators[0] == ":="; }
  }

  lemma IdentifierX()
    ensures Classify("x") == Outcome([Token(Identifier, "x")], [])
  {
    assert !IsLiteral("x") by { assert !IsAsciiDigit("x"[0]); }
    assert !IsKeyword("x");
  }

  /** A scan of two runs of words, given the state in between and the
      final state. */
  lemma Through(s: Scan, a: seq<string>, b: seq<string>, mid: Scan, fin: Scan)
    requires Run(s, a) == mid && Run(mid, b) == fin
    ensures Run(s, a + b) == fin
  {
    RunConcat(s, a, b);
  }

  /** Two words outside a string, each classified on its own. */
  lemma TwoPlainWords(s: Scan, a: string, b: string, ws: seq<string>)
    requires Between(s) && !StartsWith(a, '"') && !StartsWith(b, '"') && ws == [a, b]
    ensures Run(s, ws) == Scan(false, "", s.tokens + Classify(a).tokens + Classify(b).tokens,
                                   s.errors + Classify(a).errors + Classify(b).errors)
  {
    RunSnoc(s, [], a);
    assert [] + [a] == [a];
    StepOutside(s, a);
    var s1 := Run(s, [a]);
    RunSnoc(s, [a], b);
    assert [a] + [b] == [a, b];
    StepOutside(s1, b);
  }

  lemma SplitHelloWorld(line: string)
    requires line == "main := \"Hello World\""
    ensures Split(line) == ["main", ":=", "\"Hello", "World\""]
  {
    var ws := ["main", ":=", "\"Hello", "World\""];
    assert Join(ws) == line;
    SplitJoin(ws);
  }

  lemma TrimHello()
    ensures TrimStartMatches("\"Hello", '"') == "Hello"
  {
    assert "\"Hello"[1..] == "Hello";
  }

  lemma TrimWorld()
    ensures TrimEndMatches("Hello World\"", '"') == "Hello World"
  {
    assert "Hello World\""[..11] == "Hello World";
  }

  lemma QuotedHelloWorld(s: Scan, ws: seq<string>)
    requires Between(s) && ws == ["\"Hello", "World\""]
    ensures Run(s, ws) == Scan(false, "", s.tokens + [Token(Literal(Str), "Hello World")], s.errors)
  {
    RunQuotedString(s, ws);
    var t := TrimStartMatches(ws[0], '"');
    TrimHello();
    assert t == "Hello";
    assert [t] + ws[1..] == ["Hello", "World\""];
    var j := Join([t] + ws[1..]);
    assert j == "Hello World\"";
    TrimWorld();
  }

  lemma HelloWorldWords(ws: seq<string>)
    requires ws == ["main", ":=", "\"Hello", "World\""]
    ensures Run(Initial([], []), ws)
         == Scan(false, "", [Token(Keyword, "main"), Token(Operator, ":="), Token(Literal(Str), "Hello World")],
                 [IdentifierStartError])
  {
    var front, back := ws[..2], ws[2..];
    assert front + back == ws;
    assert [] + [Token(Keyword, "main")] + [Token(Operator, ":=")] == [Token(Keyword, "main"), Token(Operator, ":=")];
    assert [] + [] + [IdentifierStartError] == [IdentifierStartError];
    var s0 := Initial([], []);
    var mid := Scan(false, "", [Token(Keyword, "main"), Token(Operator, ":=")], [IdentifierStartError]);
    ClassifyMain();
    ClassifyAssign();
    TwoPlainWords(s0, "main", ":=", front);
    QuotedHelloWorld(mid, back);
    Through(s0, front, back, mid, Scan(false, "", mid.tokens + [Token(Literal(Str), "Hello World")], mid.errors));
  }


  /** `main := "Hello World"` gives the keyword, the operator and the
      reassembled string, plus the identifier error raised for `:=`. */
  lemma HelloWorld(line: string)
    requires line == "main := \"Hello World\""
    ensures TokenizeLine(line)
         == Scan(false, "", [Token(Keyword, "main"), Token(Operator, ":="), Token(Literal(Str), "Hello World")],
                 [IdentifierStartError])
  {
    SplitHelloWorld(line);
    HelloWorldWords(Split(line));
  }

  lemma SplitSourceTest(line: string)
    requires line == "main := \"Hello World\"\n"
    ensures Split(line) == ["main", ":=", "\"Hello", "World\"\n"]
  {
    var ws := ["main", ":=", "\"Hello", "World\"\n"];
    assert Join(ws) == line;
    SplitJoin(ws);
  }

  lemma OpenHelloWorldNewline(s: Scan, ws: seq<string>)
    requires Between(s) && ws == ["\"Hello", "World\"\n"]
    ensures Run(s, ws) == Scan(true, "Hello World\"\n", s.tokens, s.errors)
  {
    RunOpenString(s, "\"Hello", ["World\"\n"]);
    assert ["\"Hello"] + ["World\"\n"] == ws;
    var t := TrimStartMatches("\"Hello", '"');
    TrimHello();
    assert [t] + ["World\"\n"] == ["Hello", "World\"\n"];
    assert Join(["Hello", "World\"\n"]) == "Hello World\"\n";
  }

  lemma SourceTestWords(ws: seq<string>)
    requires ws == ["main", ":=", "\"Hello", "World\"\n"]
    ensures Run(Initial([], []), ws)
         == Scan(true, "Hello World\"\n", [Token(Keyword, "main"), Token(Operator, ":=")], [IdentifierStartError])
  {
    var front, back := ws[..2], ws[2..];
    assert front + back == ws;
    assert [] + [Token(Keyword, "main")] + [Token(Operator, ":=")] == [Token(Keyword, "main"), Token(Operator, ":=")];
    assert [] + [] + [IdentifierStartError] == [IdentifierStartError];
    var s0 := Initial([], []);
    var mid := Scan(false, "", [Token(Keyword, "main"), Token(Operator, ":=")], [IdentifierStartError]);
    ClassifyMain();
    ClassifyAssign();
    TwoPlainWords(s0, "main", ":=", front);
    OpenHelloWorldNewline(mid, back);
    Through(s0, front, back, mid, Scan(true, "Hello World\"\n", mid.tokens, mid.errors));
  }


  /** The input of the source's unit test ends in a newline, so its last
      word does not end with a quote: the string stays open and is dropped,
      while the keyword and the operator are still emitted (the token list
      is not empty). */
  lemma SourceTestInput(line: string)
    requires line == "main := \"Hello World\"\n"
    ensures TokenizeLine(line)
         == Scan(true, "Hello World\"\n", [Token(Keyword, "main"), Token(Operator, ":=")], [IdentifierStartError])
  {
    SplitSourceTest(line);
    SourceTestWords(Split(line));
  }

  /** A word starting with an uppercase letter, and `@foo`, raise two
      errors each: the identifier error and then the unknown-token error. */
  lemma ClassifyUnknownWords()
    ensures Classify("Main") == Outcome([], [IdentifierStartError, UnknownTokenError("Main")])
    ensures Classify("@foo") == Outcome([], [IdentifierStartError, UnknownTokenError("@foo")])
  {
    assert !IsLiteral("Main") by { assert !IsAsciiDigit("Main"[0]); }
    UnknownNonLowercaseWord("Main");
    assert !IsLiteral("@foo") by { assert !IsAsciiDigit("@foo"[0]); }
    UnknownNonLowercaseWord("@foo");
  }

  /** `-1` and `-` alone are integer literals, never operators. */
  lemma ClassifyMinus()
    ensures Classify("-1") == Outcome([Token(Literal(Int), "-1")], [])
    ensures Classify("-") == Outcome([Token(Literal(Int), "-")], [])
  {
  }

  /** Every keyword is reachable: none of them is an integer literal. */
  lemma KeywordsClassifyAsKeywords(k: string)
    requires k in Keywords
    ensures Classify(k) == Outcome([Token(Keyword, k)], [])
  {
    assert !IsAsciiDigit(k[0]) && k[0] != '-';
  }

  lemma TrimA()
    ensures TrimStartMatches("\"a", '"') == "a"
  {
    assert "\"a"[1..] == "a";
  }

  lemma TrimABC()
    ensures TrimEndMatches("a b c\"", '"') == "a b c"
  {
    assert "a b c\""[..5] == "a b c";
  }

  lemma JoinABC()
    ensures Join(["a", "b", "c\""]) == "a b c\""
  {
    assert Join(["b", "c\""]) == "b c\"";
    assert ["a", "b", "c\""][1..] == ["b", "c\""];
  }

  lemma QuotedABC(s: Scan, ws: seq<string>)
    requires Between(s) && ws == ["\"a", "b", "c\""]
    ensures Run(s, ws) == Scan(false, "", s.tokens + [Token(Literal(Str), "a b c")], s.errors)
  {
    RunQuotedString(s, ws);
    var t := TrimStartMatches(ws[0], '"');
    TrimA();
    assert t == "a";
    assert [t] + ws[1..] == ["a", "b", "c\""];
    var j := Join([t] + ws[1..]);
    JoinABC();
    assert j == "a b c\"";
    TrimABC();
  }

  lemma ThreeFragmentsWords(s: Scan, ws: seq<string>)
    requires Between(s) && ws == ["x", ":=", "\"a", "b", "c\""]
    ensures Run(s, ws)
         == Scan(false, "", s.tokens + [Token(Identifier, "x"), Token(Operator, ":="), Token(Literal(Str), "a b c")],
                 s.errors + [IdentifierStartError])
  {
    var front, back := ws[..2], ws[2..];
    assert front + back == ws;
    assert s.tokens + [Token(Identifier, "x")] + [Token(Operator, ":=")] == s.tokens + [Token(Identifier, "x"), Token(Operator, ":=")];
    assert s.errors + [] + [IdentifierStartError] == s.errors + [IdentifierStartError];
    var mid := Scan(false, "", s.tokens + [Token(Identifier, "x"), Token(Operator, ":=")], s.errors + [IdentifierStartError]);
    IdentifierX();
    ClassifyAssign();
    TwoPlainWords(s, "x", ":=", front);
    QuotedABC(mid, back);
    Through(s, front, back, mid, Scan(false, "", mid.tokens + [Token(Literal(Str), "a b c")], mid.errors));
  }


  lemma SplitThreeFragments(line: string)
    requires line == "x := \"a b c\""
    ensures Split(line) == ["x", ":=", "\"a", "b", "c\""]
  {
    var ws := ["x", ":=", "\"a", "b", "c\""];
    assert Join(ws) == line;
    SplitJoin(ws);
  }

  /** A string spanning three words is reassembled with single spaces. */
  lemma ThreeFragments(line: string)
    requires line == "x := \"a b c\""
    ensures TokenizeLine(line)
         == Scan(false, "", [Token(Identifier, "x"), Token(Operator, ":="), Token(Literal(Str), "a b c")],
                 [IdentifierStartError])
  {
    SplitThreeFragments(line);
    ThreeFragmentsWords(Initial([], []), Split(line));
  }

  /** A doubled space yields an empty word, which is an integer literal
      with empty text. */
  lemma DoubledSpace(line: string)
    requires line == "x  1"
    ensures Split(line) == ["x", "", "1"]
    ensures Classify("") == Outcome([Token(Literal(Int), "")], [])
  {
    assert Join(["x", "", "1"]) == line;
    SplitJoin(["x", "", "1"]);
  }

  lemma SplitQuotedDoubledSpace(line: string)
    requires line == "\"a  b\""
    ensures Split(line) == ["\"a", "", "b\""]
  {
    var ws := ["\"a", "", "b\""];
    assert Join(ws) == line;
    SplitJoin(ws);
  }

  lemma JoinADoubledB()
    ensures Join(["a", "", "b\""]) == "a  b\""
  {
    assert Join(["", "b\""]) == " b\"";
    assert ["a", "", "b\""][1..] == ["", "b\""];
  }

  lemma TrimADoubledB()
    ensures TrimEndMatches("a  b\"", '"') == "a  b"
  {
    assert "a  b\""[..4] == "a  b";
  }

  /** Inside a string a doubled space is kept: the empty piece between the
      two spaces is appended after one space like any other word, and no
      `Literal(Int)` token is emitted for it. */
  lemma QuotedDoubledSpace(line: string)
    requires line == "\"a  b\""
    ensures TokenizeLine(line) == Scan(false, "", [Token(Literal(Str), "a  b")], [])
  {
    SplitQuotedDoubledSpace(line);
    var ws := Split(line);
    RunQuotedString(Initial([], []), ws);
    var t := TrimStartMatches(ws[0], '"');
    TrimA();
    assert [t] + ws[1..] == ["a", "", "b\""];
    JoinADoubledB();
    TrimADoubledB();
  }
}
