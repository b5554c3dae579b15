/**
 * The handful of Python `str` operations the extractor and the notes parser rely on:
 * `strip`, `strip(chars)`, `split(sep)`, `sep.join`, `startswith`, `in`, `replace(old, "")`,
 * slicing `s[:n]` and `int()` of a digit string.
 */
module Text {

  /** Python's `str.isspace` for one character: the characters `str.strip()` and
      the regular-expression class `\s` treat as whitespace. */
  predicate IsSpace(c: char) {
    || ('\U{0009}' <= c <= '\U{000D}')
    || ('\U{001C}' <= c <= '\U{0020}')
    || c == '\U{0085}' || c == '\U{00A0}' || c == '\U{1680}'
    || ('\U{2000}' <= c <= '\U{200A}')
    || c == '\U{2028}' || c == '\U{2029}' || c == '\U{202F}' || c == '\U{205F}' || c == '\U{3000}'
  }

  predicate IsAsciiDigit(c: char) {
    '0' <= c <= '9'
  }

  /** Drops the longest prefix of characters satisfying `p`. */
  function TrimStart(s: string, p: char -> bool): string {
    if s != [] && p(s[0]) then TrimStart(s[1..], p) else s
  }

  /** Drops the longest suffix of characters satisfying `p`. */
  function TrimEnd(s: string, p: char -> bool): string {
    if s != [] && p(s[|s| - 1]) then TrimEnd(s[..|s| - 1], p) else s
  }

  /** Python `s.strip(chars)`, with the character set given as a predicate. */
  function StripBy(s: string, p: char -> bool): string {
    TrimEnd(TrimStart(s, p), p)
  }

  /** Python `s.strip()`. */
  function Strip(s: string): string {
    StripBy(s, IsSpace)
  }

  /** Every line stripped. */
  function StripAll(lines: seq<string>): (r: seq<string>)
    ensures |r| == |lines|
  {
    if lines == [] then [] else StripAll(lines[..|lines| - 1]) + [Strip(lines[|lines| - 1])]
  }

  /** The `k`-th line stripped. */
  lemma {:induction false} StripAllAt(lines: seq<string>, k: nat)
    requires k < |lines|
    ensures StripAll(lines)[k] == Strip(lines[k])
  {
    if k < |lines| - 1 {
      StripAllAt(lines[..|lines| - 1], k);
    }
  }

  predicate IsCommaOrSpace(c: char) {
    c == ',' || c == ' '
  }

  /** What `TrimStart` leaves: a suffix of `s` that does not start with a character
      satisfying `p`, after a prefix of such characters. */
  lemma {:induction false} TrimStartIs(s: string, p: char -> bool)
    ensures var r := TrimStart(s, p);
            && |r| <= |s| && r == s[|s| - |r|..]
            && (forall i :: 0 <= i < |s| - |r| ==> p(s[i]))
            && (r != [] ==> !p(r[0]))
  {
    if s != [] && p(s[0]) {
      TrimStartIs(s[1..], p);
      var r := TrimStart(s, p);
      assert s[1..][|s| - 1 - |r|..] == s[|s| - |r|..];
      forall i | 0 <= i < |s| - |r| ensures p(s[i]) {
        if i > 0 { assert s[i] == s[1..][i - 1]; }
      }
    }
  }

  /** What `TrimEnd` leaves: a prefix of `s` that does not end with a character
      satisfying `p`, before a suffix of such characters. */
  lemma {:induction false} TrimEndIs(s: string, p: char -> bool)
    ensures var r := TrimEnd(s, p);
            && |r| <= |s| && r == s[..|r|]
            && (forall i :: |r| <= i < |s| ==> p(s[i]))
            && (r != [] ==> !p(r[|r| - 1]))
  {
    if s != [] && p(s[|s| - 1]) {
      var init := s[..|s| - 1];
      TrimEndIs(init, p);
      var r := TrimEnd(s, p);
      assert init[..|r|] == s[..|r|];
      forall i | |r| <= i < |s| ensures p(s[i]) {
        if i < |s| - 1 { assert s[i] == init[i]; }
      }
    }
  }

  /** `s.strip(chars)` is the infix of `s` left once the runs of such characters at
      either end are dropped. */
  lemma StripByIs(s: string, p: char -> bool)
    ensures var r := StripBy(s, p);
            && (exists i, j :: 0 <= i <= j <= |s| && r == s[i..j]
                               && (forall k :: 0 <= k < i ==> p(s[k]))
                               && (forall k :: j <= k < |s| ==> p(s[k])))
            && (r != [] ==> !p(r[0]) && !p(r[|r| - 1]))
  {
    var t := TrimStart(s, p);
    var r := TrimEnd(t, p);
    TrimStartIs(s, p);
    TrimEndIs(t, p);
    var i := |s| - |t|;
    var j := i + |r|;
    assert r == s[i..j];
    forall k | j <= k < |s| ensures p(s[k]) {
      assert s[k] == t[k - i];
    }
  }

  /** A string made only of stripped characters strips to nothing. */
  lemma StripByAll(s: string, p: char -> bool)
    requires forall i :: 0 <= i < |s| ==> p(s[i])
    ensures StripBy(s, p) == ""
  {
    TrimStartIs(s, p);
  }

  /** Python `s.startswith(prefix)`. */
  predicate StartsWith(s: string, prefix: string) {
    |prefix| <= |s| && s[..|prefix|] == prefix
  }

  /** Python `s[:n]` for `n >= 0`. */
  function Prefix(s: string, n: nat): (r: string)
    ensures |r| == if |s| < n then |s| else n
    ensures r == s[..|r|]
  {
    if |s| <= n then s else s[..n]
  }

  /** Python `sep.join(parts)`. */
  function Join(parts: seq<string>, sep: string): string
    decreases |parts|
  {
    if |parts| == 0 then ""
    else if |parts| == 1 then parts[0]
    else parts[0] + sep + Join(parts[1..], sep)
  }

  /** Python `s.split(sep)` for a one-character separator: the pieces between
      separators, never an empty list. */
  function Split(s: string, sep: char): (r: seq<string>)
    ensures |r| >= 1
    ensures forall i :: 0 <= i < |r| ==> sep !in r[i]
  {
    if s == [] then [""]
    else
      var t := Split(s[1..], sep);
      if s[0] == sep then [""] + t
      else
        assert forall i :: 1 <= i < |t| ==> sep !in t[i];
        [[s[0]] + t[0]] + t[1..]
  }
  /** The last piece of a split is the text after the last separator (all of `s` when
      there is none). */
  lemma {:induction false} SplitLast(s: string, sep: char)
    ensures LastPiece(s, Split(s, sep), sep)
  {
    if s != [] {
      SplitLast(s[1..], sep);
      var t := Split(s[1..], sep);
      if s[0] == sep {
        assert Split(s, sep) == [""] + t;
        LastPieceSep(s, t, sep);
      } else {
        assert Split(s, sep) == [[s[0]] + t[0]] + t[1..];
        LastPieceChar(s, t, sep);
      }
    }
  }

  /** `last` of `r` is the text after the last `sep` in `s`, or all of `s`; a single
      piece is `s` itself. */
  predicate LastPiece(s: string, r: seq<string>, sep: char) {
    && |r| >= 1
    && var last := r[|r| - 1];
       && |last| <= |s| && last == s[|s| - |last|..] && (|last| == |s| || s[|s| - |last| - 1] == sep)
       && (|r| == 1 ==> r[0] == s) && (|r| > 1 ==> |last| < |s|)
  }

  lemma LastPieceSep(s: string, t: seq<string>, sep: char)
    requires s != [] && s[0] == sep && LastPiece(s[1..], t, sep)
    ensures LastPiece(s, [""] + t, sep)
  {
    var tl := t[|t| - 1];
    assert ([""] + t)[|t|] == tl;
    assert s[1..][|s| - 1 - |tl|..] == s[|s| - |tl|..];
    if |tl| < |s| - 1 {
      assert s[1..][|s| - 1 - |tl| - 1] == s[|s| - |tl| - 1];
    }
  }

  lemma LastPieceChar(s: string, t: seq<string>, sep: char)
    requires s != [] && s[0] != sep && LastPiece(s[1..], t, sep)
    ensures LastPiece(s, [[s[0]] + t[0]] + t[1..], sep)
  {
    var r := [[s[0]] + t[0]] + t[1..];
    var tl := t[|t| - 1];
    if |t| == 1 {
      assert s == [s[0]] + s[1..];
    } else {
      assert r[|r| - 1] == tl;
      assert s[1..][|s| - 1 - |tl|..] == s[|s| - |tl|..];
      if |tl| < |s| - 1 {
        assert s[1..][|s| - 1 - |tl| - 1] == s[|s| - |tl| - 1];
      }
    }
  }

  /** The first piece of a split is the text before the first separator (all of `s`
      when there is none). */
  lemma {:induction false} SplitFirst(s: string, sep: char)
    ensures var first := Split(s, sep)[0];
            |first| <= |s| && first == s[..|first|] && (|first| == |s| || s[|first|] == sep)
  {
    if s != [] && s[0] != sep {
      SplitFirst(s[1..], sep);
    }
  }

  /** Python `s.split('/')[-1]`: the text after the last `/`, or all of `s`. */
  function LastSegment(s: string): (r: string)
    ensures '/' !in r
    ensures |r| <= |s| && r == s[|s| - |r|..]
    ensures |r| == |s| || s[|s| - |r| - 1] == '/'
  {
    var parts := Split(s, '/');
    SplitLast(s, '/');
    parts[|parts| - 1]
  }

  /** Python `t in s` for strings. */
  predicate Contains(s: string, t: string) {
    exists i :: 0 <= i <= |s| - |t| && StartsWith(s[i..], t)
  }

  /** Python `s.replace(pat, "")`: every non-overlapping occurrence of `pat`, scanned
      from the left, removed. */
  function RemoveAll(s: string, pat: string): (r: string)
    requires pat != []
    ensures |r| <= |s|
    ensures !Contains(s, pat) ==> r == s
    decreases |s|
  {
    if StartsWith(s, pat) then
      assert s[0..] == s;
      RemoveAll(s[|pat|..], pat)
    else if s == [] then
      []
    else
      var rest := RemoveAll(s[1..], pat);
      assert Contains(s[1..], pat) ==> Contains(s, pat) by {
        if Contains(s[1..], pat) {
          var i :| 0 <= i <= |s[1..]| - |pat| && StartsWith(s[1..][i..], pat);
          assert s[1..][i..] == s[i + 1..];
        }
      }
      [s[0]] + rest
  }

  /** A text that starts with the pattern loses that occurrence, and the scan goes on
      after it. */
  lemma RemoveAllLeading(pat: string, t: string)
    requires pat != []
    ensures RemoveAll(pat + t, pat) == RemoveAll(t, pat)
    ensures !Contains(t, pat) ==> RemoveAll(pat + t, pat) == t
  {
    assert (pat + t)[..|pat|] == pat;
    assert (pat + t)[|pat|..] == t;
  }

  predicate AllDigits(s: string) {
    forall i :: 0 <= i < |s| ==> IsAsciiDigit(s[i])
  }

  /** The value of a string of ASCII decimal digits (Python `int(s)` on such a string). */
  function DigitsValue(s: string): nat
    requires AllDigits(s)
  {
    if s == [] then 0
    else DigitsValue(s[..|s| - 1]) * 10 + (s[|s| - 1] as int - '0' as int)
  }
}
