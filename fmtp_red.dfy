/** The fmtp value of the redundant-audio payload format (RFC 2198, section 5):
    an ordered list of block payload types written "111/112".
    `RedFmtp` is `redFMTP` of internal/fmtp/red.go; `Fmtp` stands for the FMTP
    interface its `Match` receives, of which only the red variant is modelled. */
module Fmtp {

  /** The fixed MIME type reported by every red fmtp value. */
  const MimeTypeRed: string := "audio/red"

  datatype RedFmtp = RedFmtp(parameters: seq<string>)

  /** An FMTP value: a red one, or one of another codec (h264, vp9, generic, ...)
      whose own parsing and matching are not part of this model. */
  datatype Fmtp = Red(red: RedFmtp) | Other(mimeType: string, line: string)

  // ---------------------------------------------------------------------------
  // Case-insensitive comparison (strings.EqualFold), restricted to ASCII letters

  function ToLowerAscii(c: char): char {
    if 'A' <= c <= 'Z' then (c as int + 32) as char else c
  }

  predicate EqualFold(a: string, b: string) {
    |a| == |b| && forall i :: 0 <= i < |a| ==> ToLowerAscii(a[i]) == ToLowerAscii(b[i])
  }

  // ---------------------------------------------------------------------------
  // MimeType, Match, Parameter

  /** The MIME type of a red fmtp value; it does not depend on the parameters. */
  function MimeType(r: RedFmtp): (m: string)
    ensures m == "audio/red"
  {
    MimeTypeRed
  }

  /** Element-wise comparison of two equally long parameter lists, stopping at
      the first position where they differ. */
  function ElementsEqual(a: seq<string>, b: seq<string>): bool
    requires |a| == |b|
  {
    if |a| == 0 then true
    else if b[0] != a[0] then false
    else ElementsEqual(a[1..], b[1..])
  }

  lemma {:induction false} ElementsEqualIsEquality(a: seq<string>, b: seq<string>)
    requires |a| == |b|
    ensures ElementsEqual(a, b) <==> a == b
  {
    if |a| != 0 {
      ElementsEqualIsEquality(a[1..], b[1..]);
      if a[0] == b[0] && a[1..] == b[1..] {
        assert a == [a[0]] + a[1..] && b == [b[0]] + b[1..];
      }
    }
  }

  /** Two fmtp values match iff the other one is also red, the MIME types agree
      case-insensitively and the parameter lists are equal in length and in
      every position. */
  function Match(r: RedFmtp, b: Fmtp): (m: bool)
    ensures m <==> b.Red? && b.red.parameters == r.parameters
  {
    match b
    case Other(_, _) => false
    case Red(c) =>
      if !EqualFold(MimeType(r), MimeType(c)) || |c.parameters| != |r.parameters| then false
      else
        ElementsEqualIsEquality(r.parameters, c.parameters);
        ElementsEqual(r.parameters, c.parameters)
  }

  /** The search of `Parameter`: the first parameter equal to `key`. */
  function Lookup(parameters: seq<string>, key: string): (res: (string, bool))
    ensures res.1 <==> key in parameters
    ensures res.0 == if res.1 then key else ""
  {
    if |parameters| == 0 then ("", false)
    else if parameters[0] == key then (key, true)
    else Lookup(parameters[1..], key)
  }

  /** `Parameter(key)` reports whether `key` is one of the block payload types. */
  function Parameter(r: RedFmtp, key: string): (res: (string, bool))
    ensures res == if key in r.parameters then (key, true) else ("", false)
  {
    Lookup(r.parameters, key)
  }

  // ---------------------------------------------------------------------------
  // Properties of Match

  lemma MatchReflexive(r: RedFmtp)
    ensures Match(r, Red(r))
  {
  }

  lemma MatchSymmetric(a: RedFmtp, b: RedFmtp)
    ensures Match(a, Red(b)) <==> Match(b, Red(a))
  {
  }

  lemma MatchOnlyRed(r: RedFmtp, mimeType: string, line: string)
    ensures !Match(r, Other(mimeType, line))
  {
  }

  lemma MatchNeedsSameLength(a: RedFmtp, b: RedFmtp)
    requires |a.parameters| != |b.parameters|
    ensures !Match(a, Red(b)) && !Match(b, Red(a))
  {
  }

  lemma MatchNeedsSameElements(a: RedFmtp, b: RedFmtp, i: nat)
    requires |a.parameters| == |b.parameters| && i < |a.parameters|
    requires a.parameters[i] != b.parameters[i]
    ensures !Match(a, Red(b)) && !Match(b, Red(a))
  {
  }

  lemma MatchTransitive(a: RedFmtp, b: RedFmtp, c: RedFmtp)
    ensures Match(a, Red(b)) && Match(b, Red(c)) ==> Match(a, Red(c))
  {
  }

  // ---------------------------------------------------------------------------
  // A reconstructed parse. The parser of red fmtp lines lives in another file
  // of the package that is not part of this model; this one follows the
  // test cases of internal/fmtp/red_test.go: trim the line, split it on '/',
  // trim every token.

  /** Go's unicode.IsSpace, which strings.TrimSpace uses. */
  predicate IsSpace(c: char) {
    c == ' ' || c == '\t' || c == '\n' || c == '\U{000B}' || c == '\U{000C}' || c == '\r'
    || c == '\U{0085}' || c == '\U{00A0}' || c == '\U{1680}'
    || ('\U{2000}' <= c <= '\U{200A}')
    || c == '\U{2028}' || c == '\U{2029}' || c == '\U{202F}' || c == '\U{205F}' || c == '\U{3000}'
  }

  predicate AllSpace(s: string) {
    forall i :: 0 <= i < |s| ==> IsSpace(s[i])
  }

  function TrimLeft(s: string): string {
    if |s| > 0 && IsSpace(s[0]) then TrimLeft(s[1..]) else s
  }

  function TrimRight(s: string): string {
    if |s| > 0 && IsSpace(s[|s| - 1]) then TrimRight(s[..|s| - 1]) else s
  }

  function TrimSpace(s: string): string {
    TrimLeft(TrimRight(s))
  }

  /** strings.Split with a one-character separator: never empty, and "" gives [""]. */
  function Split(s: string, sep: char): (tokens: seq<string>)
    ensures |tokens| >= 1
  {
    if |s| == 0 then [""]
    else
      var rest := Split(s[1..], sep);
      if s[0] == sep then [""] + rest
      else [[s[0]] + rest[0]] + rest[1..]
  }

  function Join(tokens: seq<string>, sep: char): string
    requires |tokens| >= 1
  {
    if |tokens| == 1 then tokens[0] else tokens[0] + [sep] + Join(tokens[1..], sep)
  }

  function TrimAll(tokens: seq<string>): (r: seq<string>)
    ensures |r| == |tokens|
    ensures forall i :: 0 <= i < |tokens| ==> r[i] == TrimSpace(tokens[i])
  {
    if |tokens| == 0 then [] else [TrimSpace(tokens[0])] + TrimAll(tokens[1..])
  }

  /** Reconstructed parse of a red fmtp line (the real parser is not part of this model). */
  function ParseRed(line: string): RedFmtp {
    RedFmtp(TrimAll(Split(TrimSpace(line), '/')))
  }

  // ---------------------------------------------------------------------------
  // Properties of the reconstructed parse

  lemma {:induction false} SplitJoin(s: string, sep: char)
    ensures Join(Split(s, sep), sep) == s
    ensures forall i :: 0 <= i < |Split(s, sep)| ==> sep !in Split(s, sep)[i]
  {
    if |s| > 0 {
      var rest := Split(s[1..], sep);
      SplitJoin(s[1..], sep);
      if s[0] == sep {
        assert Join(Split(s, sep), sep) == "" + [sep] + Join(rest, sep);
      } else {
        var tokens := Split(s, sep);
        assert tokens[1..] == rest[1..];
        if |rest| == 1 {
          assert Join(tokens, sep) == [s[0]] + rest[0];
        } else {
          assert Join(rest, sep) == rest[0] + [sep] + Join(rest[1..], sep);
          assert Join(tokens, sep) == [s[0]] + rest[0] + [sep] + Join(rest[1..], sep);
        }
        assert s == [s[0]] + s[1..];
        forall i | 0 <= i < |tokens| ensures sep !in tokens[i] {
          if i > 0 { assert tokens[i] == rest[i]; }
        }
      }
    }
  }

  lemma {:induction false} SplitWithoutSeparator(s: string, sep: char)
    requires sep !in s
    ensures Split(s, sep) == [s]
  {
    if |s| > 0 {
      SplitWithoutSeparator(s[1..], sep);
      assert s == [s[0]] + s[1..];
    }
  }

  lemma {:induction false} SplitAtFirstSeparator(a: string, b: string, sep: char)
    requires sep !in a
    ensures Split(a + [sep] + b, sep) == [a] + Split(b, sep)
  {
    var s := a + [sep] + b;
    if |a| == 0 {
      assert s[0] == sep && s[1..] == b;
    } else {
      assert s[0] == a[0] && s[1..] == a[1..] + [sep] + b;
      SplitAtFirstSeparator(a[1..], b, sep);
      assert [a[0]] + a[1..] == a;
    }
  }

  lemma {:induction false} TrimRightOfSpace(w: string)
    requires AllSpace(w)
    ensures TrimRight(w) == ""
  {
    if |w| > 0 {
      TrimRightOfSpace(w[..|w| - 1]);
    }
  }

  lemma {:induction false} TrimLeftSkipsSpace(w: string, x: string)
    requires AllSpace(w)
    ensures TrimLeft(w + x) == TrimLeft(x)
  {
    if |w| > 0 {
      assert (w + x)[0] == w[0] && (w + x)[1..] == w[1..] + x;
      TrimLeftSkipsSpace(w[1..], x);
    } else {
      assert w + x == x;
    }
  }

  lemma {:induction false} TrimRightSkipsSpace(x: string, w: string)
    requires AllSpace(w)
    ensures TrimRight(x + w) == TrimRight(x)
  {
    if |w| > 0 {
      var xw := x + w;
      assert xw[|xw| - 1] == w[|w| - 1] && xw[..|xw| - 1] == x + w[..|w| - 1];
      TrimRightSkipsSpace(x, w[..|w| - 1]);
    } else {
      assert x + w == x;
    }
  }

  lemma {:induction false} TrimRightAfterSpace(w: string, s: string)
    requires AllSpace(w)
    ensures TrimRight(w + s) == if AllSpace(s) then "" else w + TrimRight(s)
  {
    if |s| == 0 {
      assert w + s == w;
      TrimRightOfSpace(w);
    } else if IsSpace(s[|s| - 1]) {
      var ws := w + s;
      assert ws[|ws| - 1] == s[|s| - 1] && ws[..|ws| - 1] == w + s[..|s| - 1];
      TrimRightAfterSpace(w, s[..|s| - 1]);
      assert AllSpace(s) <==> AllSpace(s[..|s| - 1]) by {
        if AllSpace(s[..|s| - 1]) {
          forall i | 0 <= i < |s| ensures IsSpace(s[i]) {
            if i < |s| - 1 { assert s[i] == s[..|s| - 1][i]; }
          }
        }
      }
    } else {
      assert !AllSpace(s);
    }
  }

  /** Whitespace around a line never changes its trimmed form. */
  lemma TrimSpaceIgnoresSurroundingSpace(w1: string, s: string, w2: string)
    requires AllSpace(w1) && AllSpace(w2)
    ensures TrimSpace(w1 + s + w2) == TrimSpace(s)
  {
    TrimRightSkipsSpace(w1 + s, w2);
    TrimRightAfterSpace(w1, s);
    if AllSpace(s) {
      TrimRightOfSpace(s);
    } else {
      TrimLeftSkipsSpace(w1, TrimRight(s));
    }
  }

  /** Whitespace around the input does not change the parsed list. */
  lemma ParseIgnoresSurroundingSpace(w1: string, s: string, w2: string)
    requires AllSpace(w1) && AllSpace(w2)
    ensures ParseRed(w1 + s + w2) == ParseRed(s)
  {
    TrimSpaceIgnoresSurroundingSpace(w1, s, w2);
  }

  // ---------------------------------------------------------------------------
  // The examples of internal/fmtp/red_test.go

  lemma NoSurroundingSpace(s: string)
    requires |s| > 0 && !IsSpace(s[0]) && !IsSpace(s[|s| - 1])
    ensures TrimSpace(s) == s
  {
  }

  /** A token without separator and without surrounding whitespace parses to itself. */
  lemma ParseOneToken(a: string)
    requires |a| > 0 && '/' !in a && !IsSpace(a[0]) && !IsSpace(a[|a| - 1])
    ensures ParseRed(a) == RedFmtp([a])
  {
    NoSurroundingSpace(a);
    SplitWithoutSeparator(a, '/');
  }

  lemma ParseTwoTokens(a: string, b: string)
    requires |a| > 0 && '/' !in a && !IsSpace(a[0]) && !IsSpace(a[|a| - 1])
    requires |b| > 0 && '/' !in b && !IsSpace(b[0]) && !IsSpace(b[|b| - 1])
    ensures ParseRed(a + "/" + b) == RedFmtp([a, b])
  {
    var s := a + "/" + b;
    assert s[0] == a[0] && s[|s| - 1] == b[|b| - 1];
    NoSurroundingSpace(s);
    NoSurroundingSpace(a);
    NoSurroundingSpace(b);
    SplitAtFirstSeparator(a, b, '/');
    SplitWithoutSeparator(b, '/');
    assert Split(s, '/') == [a, b];
  }

  lemma ParseOneParam()
    ensures ParseRed("111") == RedFmtp(["111"])
  {
    ParseOneToken("111");
  }

  lemma ParseOneParamWithSpace()
    ensures ParseRed("\t111 ") == RedFmtp(["111"])
  {
    ParseOneParam();
    assert "\t111 " == "\t" + "111" + " ";
    ParseIgnoresSurroundingSpace("\t", "111", " ");
  }

  lemma ParseTwoParams()
    ensures ParseRed("111/112") == RedFmtp(["111", "112"])
  {
    assert "111/112" == "111" + "/" + "112";
    ParseTwoTokens("111", "112");
  }

  lemma ParseTwoParamsWithSpace()
    ensures ParseRed("\n\t111/112 ") == RedFmtp(["111", "112"])
  {
    ParseTwoParams();
    assert "\n\t111/112 " == "\n\t" + "111/112" + " ";
    ParseIgnoresSurroundingSpace("\n\t", "111/112", " ");
  }

  /** Case "Equal". */
  lemma CompareEqual()
    ensures Match(ParseRed("111/111"), Red(ParseRed("111/111")))
  {
    ParseTwoTokens("111", "111");
    assert "111" + "/" + "111" == "111/111";
  }

  /** Case "EqualWithWhitespaceVariants", in both directions. */
  lemma CompareWhitespaceVariants()
    ensures Match(ParseRed("111/111"), Red(ParseRed("  \n 111/111\t\n")))
    ensures Match(ParseRed("  \n 111/111\t\n"), Red(ParseRed("111/111")))
  {
    ParseIgnoresSurroundingSpace("  \n ", "111/111", "\t\n");
    assert "  \n 111/111\t\n" == "  \n " + "111/111" + "\t\n";
  }

  /** Case "Inconsistent", in both directions. */
  lemma CompareInconsistent()
    ensures !Match(ParseRed("111/112"), Red(ParseRed("112/112")))
    ensures !Match(ParseRed("112/112"), Red(ParseRed("111/112")))
  {
    ParseTwoTokens("111", "112");
    assert "111" + "/" + "112" == "111/112";
    ParseTwoTokens("112", "112");
    assert "112" + "/" + "112" == "112/112";
    MatchNeedsSameElements(ParseRed("111/112"), ParseRed("112/112"), 0);
  }

  /** Case "Inconsistent_OneHasExtraParam", in both directions. */
  lemma CompareExtraParam()
    ensures !Match(ParseRed("111"), Red(ParseRed("111/111")))
    ensures !Match(ParseRed("111/111"), Red(ParseRed("111")))
  {
    ParseOneToken("111");
    ParseTwoTokens("111", "111");
    assert "111" + "/" + "111" == "111/111";
    MatchNeedsSameLength(ParseRed("111"), ParseRed("111/111"));
  }
}
