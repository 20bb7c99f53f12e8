/** The few pieces of Rust's `str` API that the tokenizer relies on, written
    over `string` (a `seq<char>`): `split(" ")`, the inverse join,
    `trim_start_matches`/`trim_end_matches` with a single character,
    `starts_with`/`ends_with` with a single character, and the ASCII
    character classes. */
module RustStr {

  predicate IsAsciiDigit(c: char) { '0' <= c <= '9' }

  predicate IsAsciiLowercase(c: char) { 'a' <= c <= 'z' }

  /** `s.starts_with(c)` */
  predicate StartsWith(s: string, c: char) { |s| > 0 && s[0] == c }

  /** `s.ends_with(c)` */
  predicate EndsWith(s: string, c: char) { |s| > 0 && s[|s| - 1] == c }

  /** `starts_with` with a character pattern: the one-character string is a
      prefix of `s`. */
  lemma StartsWithPrefix(s: string, c: char)
    ensures StartsWith(s, c) <==> [c] <= s
  {
  }

  /** `ends_with` with a character pattern: `s` is some string followed by
      that character. */
  lemma EndsWithSuffix(s: string, c: char)
    ensures EndsWith(s, c) <==> |s| > 0 && s == s[..|s| - 1] + [c]
  {
  }

  /** `s.chars().all(p)`, folded from the first character: every character
      of `s` satisfies `p`. */
  predicate All(s: string, p: char -> bool)
    ensures All(s, p) <==> forall i :: 0 <= i < |s| ==> p(s[i])
  {
    s == [] || (p(s[0]) && All(s[1..], p))
  }

  /** The words joined back with one space between neighbours; the inverse
      of `Split`. */
  function Join(ws: seq<string>): string
    requires |ws| > 0
  {
    if |ws| == 1 then ws[0] else ws[0] + " " + Join(ws[1..])
  }

  /** `s.split(" ")`: the maximal space-free pieces between single spaces,
      empty pieces included (a leading, trailing or doubled space gives an
      empty piece, and the empty string splits into one empty piece). */
  function Split(s: string): (r: seq<string>)
    ensures |r| > 0
    ensures forall i :: 0 <= i < |r| ==> ' ' !in r[i]
  {
    if s == [] then [""]
    else
      var rest := Split(s[1..]);
      if s[0] == ' ' then [""] + rest
      else [[s[0]] + rest[0]] + rest[1..]
  }

  /** `s.trim_start_matches(c)`: drops every leading `c`. What is left is no
      longer than `s` and does not start with `c`; `TrimStartMatchesSpec`
      states the rest. */
  function TrimStartMatches(s: string, c: char): (r: string)
    ensures |r| <= |s| && !StartsWith(r, c)
  {
    if s != [] && s[0] == c then TrimStartMatches(s[1..], c) else s
  }

  /** `s.trim_end_matches(c)`: drops every trailing `c`. What is left is no
      longer than `s` and does not end with `c`; `TrimEndMatchesSpec` states
      the rest. */
  function TrimEndMatches(s: string, c: char): (r: string)
    ensures |r| <= |s| && !EndsWith(r, c)
  {
    if s != [] && s[|s| - 1] == c then TrimEndMatches(s[..|s| - 1], c) else s
  }

  /** What is left is a suffix of `s`, everything dropped is `c`, and what is
      left does not start with `c`: exactly the longest run of `c` is gone. */
  lemma {:induction false} TrimStartMatchesSpec(s: string, c: char)
    ensures var r := TrimStartMatches(s, c);
            && |r| <= |s| && r == s[|s| - |r|..]
            && (forall i :: 0 <= i < |s| - |r| ==> s[i] == c)
            && (r == [] || r[0] != c)
  {
    if s != [] && s[0] == c {
      TrimStartMatchesSpec(s[1..], c);
      var r := TrimStartMatches(s[1..], c);
      assert s[1..][|s| - 1 - |r|..] == s[|s| - |r|..];
      assert forall i :: 1 <= i < |s| - |r| ==> s[i] == s[1..][i - 1];
    }
  }

  /** What is left is a prefix of `s`, everything dropped is `c`, and what is
      left does not end with `c`. */
  lemma {:induction false} TrimEndMatchesSpec(s: string, c: char)
    ensures var r := TrimEndMatches(s, c);
            && |r| <= |s| && r == s[..|r|]
            && (forall i :: |r| <= i < |s| ==> s[i] == c)
            && (r == [] || r[|r| - 1] != c)
  {
    if s != [] && s[|s| - 1] == c {
      TrimEndMatchesSpec(s[..|s| - 1], c);
      var r := TrimEndMatches(s[..|s| - 1], c);
      assert s[..|s| - 1][..|r|] == s[..|r|];
      assert forall i :: |r| <= i < |s| - 1 ==> s[i] == s[..|s| - 1][i];
    }
  }

  /** Appending a last word adds one space and the word. */
  lemma {:induction false} JoinSnoc(ws: seq<string>, w: string)
    requires |ws| > 0
    ensures Join(ws + [w]) == Join(ws) + " " + w
  {
    if |ws| == 1 {
      assert ws + [w] == [ws[0], w];
    } else {
      assert (ws + [w])[1..] == ws[1..] + [w];
      JoinSnoc(ws[1..], w);
    }
  }

  /** Joining the pieces of `s` with single spaces gives `s` back exactly. */
  lemma {:induction false} JoinSplit(s: string)
    ensures Join(Split(s)) == s
  {
    if s != [] {
      var rest := Split(s[1..]);
      JoinSplit(s[1..]);
      if s[0] == ' ' {
        assert ([""] + rest)[1..] == rest;
      } else {
        var r := [[s[0]] + rest[0]] + rest[1..];
        if |rest| == 1 {
          assert r == [[s[0]] + rest[0]];
        } else {
          assert r[1..] == rest[1..];
          assert Join(rest) == rest[0] + " " + Join(rest[1..]);
        }
      }
    }
  }

  /** A space-free prefix followed by a space is the first piece. */
  lemma {:induction false} SplitAtSpace(x: string, y: string)
    requires ' ' !in x
    ensures Split(x + " " + y) == [x] + Split(y)
  {
    if x == [] {
      assert x + " " + y == [' '] + y;
      assert ([' '] + y)[1..] == y;
    } else {
      assert (x + " " + y)[1..] == x[1..] + " " + y;
      assert ' ' !in x[1..] by { assert forall c :: c in x[1..] ==> c in x; }
      SplitAtSpace(x[1..], y);
      assert [x[0]] + x[1..] == x;
    }
  }

  /** A space-free string is a single piece. */
  lemma {:induction false} SplitNoSpace(x: string)
    requires ' ' !in x
    ensures Split(x) == [x]
  {
    if x != [] {
      assert ' ' !in x[1..] by { assert forall c :: c in x[1..] ==> c in x; }
      SplitNoSpace(x[1..]);
      assert [x[0]] + x[1..] == x;
    }
  }

  /** Splitting a join of space-free words gives the words back, so
      `Split` loses nothing, not even empty pieces. */
  lemma {:induction false} SplitJoin(ws: seq<string>)
    requires |ws| > 0
    requires forall i :: 0 <= i < |ws| ==> ' ' !in ws[i]
    ensures Split(Join(ws)) == ws
  {
    if |ws| == 1 {
      SplitNoSpace(ws[0]);
    } else {
      SplitJoin(ws[1..]);
      SplitAtSpace(ws[0], Join(ws[1..]));
      assert [ws[0]] + ws[1..] == ws;
    }
  }
}
