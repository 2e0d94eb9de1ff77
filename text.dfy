/**
 * The few JavaScript string operations the application relies on, stated over
 * `seq<char>`: the `\s` character class, `trim()`, `split(sep)[0]`,
 * `replace(/\s+/g, sub)` and `Number.prototype.toString()` on non-negative integers.
 */
module Text {

  /** The characters in JavaScript's `\s` class; `trim()` strips exactly these. */
  predicate IsWhitespace(c: char) {
    c == ' ' || '\t' <= c <= '\r' || ('\U{A0}' <= c && IsWideWhitespace(c))
  }

  /** The white-space characters beyond ASCII: no-break and Unicode spaces, line and paragraph separators, the byte-order mark. */
  predicate IsWideWhitespace(c: char) {
    c == '\U{A0}' || c == '\U{1680}' || ('\U{2000}' <= c <= '\U{200A}') ||
    c == '\U{2028}' || c == '\U{2029}' || c == '\U{202F}' || c == '\U{205F}' ||
    c == '\U{3000}' || c == '\U{FEFF}'
  }

  /** Every character is white space (the empty string included). */
  predicate IsBlank(s: string) {
    forall i :: 0 <= i < |s| ==> IsWhitespace(s[i])
  }

  /** No character is white space. */
  predicate NoWhitespace(s: string) {
    forall i :: 0 <= i < |s| ==> !IsWhitespace(s[i])
  }

  /** `s` without its leading white space: the longest suffix that does not start with it. */
  function TrimStart(s: string): (r: string)
    ensures |r| <= |s| && r == s[|s| - |r|..]
    ensures r == [] || !IsWhitespace(r[0])
    ensures IsBlank(s[..|s| - |r|])
    ensures r == [] <==> IsBlank(s)
  {
    if s != [] && IsWhitespace(s[0]) then
      var t := TrimStart(s[1..]);
      assert s[..|s| - |t|] == [s[0]] + s[1..][..|s[1..]| - |t|];
      t
    else
      s
  }

  /** `s` without its trailing white space: the longest prefix that does not end with it. */
  function TrimEnd(s: string): (r: string)
    ensures |r| <= |s| && r == s[..|r|]
    ensures r == [] || !IsWhitespace(r[|r| - 1])
    ensures IsBlank(s[|r|..])
    ensures r == [] <==> IsBlank(s)
  {
    if s != [] && IsWhitespace(s[|s| - 1]) then
      var t := TrimEnd(s[..|s| - 1]);
      assert s[|t|..] == s[..|s| - 1][|t|..] + [s[|s| - 1]];
      t
    else
      s
  }

  /** JavaScript's `s.trim()`: the slice of `s` left after cutting white space, and only white space, from both ends; empty exactly for blank input. */
  function Trim(s: string): (r: string)
    ensures exists i, j :: 0 <= i <= j <= |s| && r == s[i..j] && IsBlank(s[..i]) && IsBlank(s[j..])
    ensures r == [] || (!IsWhitespace(r[0]) && !IsWhitespace(r[|r| - 1]))
    ensures r == [] <==> IsBlank(s)
  {
    var t := TrimStart(s);
    var u := TrimEnd(t);
    BetweenBlanks(s, t, u);
    assert t != [] ==> !IsBlank(t);
    u
  }

  /**
   * A prefix `u` of a suffix `t` of `s`, where `s` minus `t` and `t` minus `u` are
   * blank, is a slice of `s` with blank text on both sides.
   */
  lemma BetweenBlanks(s: string, t: string, u: string)
    requires |t| <= |s| && t == s[|s| - |t|..] && IsBlank(s[..|s| - |t|])
    requires |u| <= |t| && u == t[..|u|] && IsBlank(t[|u|..])
    ensures exists i, j :: 0 <= i <= j <= |s| && u == s[i..j] && IsBlank(s[..i]) && IsBlank(s[j..])
  {
    var i := |s| - |t|;
    var j := i + |u|;
    assert u == s[i..j];
    assert s[j..] == t[|u|..];
  }

  /** JavaScript's `s.split(sep)[0]`: the part of `s` before the first `sep`, or all of `s`. */
  function BeforeFirst(s: string, sep: char): (r: string)
    ensures r <= s
    ensures sep !in r
    ensures |r| < |s| ==> s[|r|] == sep
  {
    if s == [] || s[0] == sep then [] else [s[0]] + BeforeFirst(s[1..], sep)
  }

  /** JavaScript's `s.replace(/\s+/g, sub)`: every maximal run of white space becomes one `sub`. */
  function ReplaceWhitespaceRuns(s: string, sub: char): (r: string)
    ensures |r| <= |s|
    decreases |s|
  {
    if s == [] then []
    else if IsWhitespace(s[0]) then
      var rest := TrimStart(s);
      assert |rest| < |s|;
      [sub] + ReplaceWhitespaceRuns(rest, sub)
    else
      [s[0]] + ReplaceWhitespaceRuns(s[1..], sub)
  }

  /** Replacing by a character that is not white space leaves none. */
  lemma {:induction false} ReplaceLeavesNoWhitespace(s: string, sub: char)
    requires !IsWhitespace(sub)
    ensures NoWhitespace(ReplaceWhitespaceRuns(s, sub))
    decreases |s|
  {
    if s != [] {
      if IsWhitespace(s[0]) {
        ReplaceLeavesNoWhitespace(TrimStart(s), sub);
      } else {
        ReplaceLeavesNoWhitespace(s[1..], sub);
      }
    }
  }

  /** Text without white space is left as it is. */
  lemma {:induction false} ReplaceIdentity(s: string, sub: char)
    requires NoWhitespace(s)
    ensures ReplaceWhitespaceRuns(s, sub) == s
  {
    if s != [] {
      ReplaceIdentity(s[1..], sub);
    }
  }

  /** Leading white space followed by a non-blank start is exactly what `TrimStart` removes. */
  lemma {:induction false} TrimStartBlankPrefix(w: string, b: string)
    requires IsBlank(w)
    requires b == [] || !IsWhitespace(b[0])
    ensures TrimStart(w + b) == b
  {
    if w != [] {
      assert (w + b)[1..] == w[1..] + b;
      TrimStartBlankPrefix(w[1..], b);
    }
  }

  /** A stretch without white space passes through the replacement unchanged, whatever follows it. */
  lemma {:induction false} ReplacePlainPrefix(a: string, t: string, sub: char)
    requires NoWhitespace(a)
    ensures ReplaceWhitespaceRuns(a + t, sub) == a + ReplaceWhitespaceRuns(t, sub)
  {
    if a == [] {
      assert a + t == t;
    } else {
      var s := a + t;
      assert ReplaceWhitespaceRuns(s, sub) == [a[0]] + ReplaceWhitespaceRuns(a[1..] + t, sub) by {
        assert s[0] == a[0] && s[1..] == a[1..] + t;
        ReplaceStep(s, sub);
      }
      ReplacePlainPrefix(a[1..], t, sub);
      assert a == [a[0]] + a[1..];
    }
  }

  /** A whole leading run of white space becomes a single `sub`. */
  lemma LeadingRun(w: string, b: string, sub: char)
    requires w != [] && IsBlank(w)
    requires b == [] || !IsWhitespace(b[0])
    ensures ReplaceWhitespaceRuns(w + b, sub) == [sub] + ReplaceWhitespaceRuns(b, sub)
  {
    assert (w + b)[0] == w[0];
    ReplaceStep(w + b, sub);
    TrimStartBlankPrefix(w, b);
  }

  /** A maximal run of white space after a stretch without any becomes a single `sub`; the rest is handled alike. */
  lemma ReplaceRun(a: string, w: string, b: string, sub: char)
    requires NoWhitespace(a)
    requires w != [] && IsBlank(w)
    requires b == [] || !IsWhitespace(b[0])
    ensures ReplaceWhitespaceRuns(a + (w + b), sub) == a + ([sub] + ReplaceWhitespaceRuns(b, sub))
  {
    ReplacePlainPrefix(a, w + b, sub);
    LeadingRun(w, b, sub);
  }

  /** One step of the replacement: a leading run becomes `sub`, any other first character is kept. */
  lemma ReplaceStep(s: string, sub: char)
    requires s != []
    ensures IsWhitespace(s[0]) ==> ReplaceWhitespaceRuns(s, sub) == [sub] + ReplaceWhitespaceRuns(TrimStart(s), sub)
    ensures !IsWhitespace(s[0]) ==> ReplaceWhitespaceRuns(s, sub) == [s[0]] + ReplaceWhitespaceRuns(s[1..], sub)
  {
  }

  /** The decimal digit for `d`. */
  function Digit(d: nat): (r: char)
    requires d < 10
    ensures '0' <= r <= '9' && r as int - '0' as int == d
  {
    "0123456789"[d]
  }

  /** JavaScript's `n.toString()` for a non-negative integer: decimal digits, no leading zero. */
  function Decimal(n: nat): (r: string)
    ensures r != [] && forall i :: 0 <= i < |r| ==> '0' <= r[i] <= '9'
    ensures r[0] == '0' ==> n == 0
  {
    if n < 10 then [Digit(n)] else Decimal(n / 10) + [Digit(n % 10)]
  }

  /** The number a string of decimal digits denotes. */
  function DecimalValue(s: string): (r: nat)
    requires forall i :: 0 <= i < |s| ==> '0' <= s[i] <= '9'
  {
    if s == [] then 0
    else DecimalValue(s[..|s| - 1]) * 10 + (s[|s| - 1] as int - '0' as int)
  }

  /** Reading back what `Decimal` wrote gives the number: the rendering loses nothing. */
  lemma {:induction false} DecimalRoundTrip(n: nat)
    ensures DecimalValue(Decimal(n)) == n
  {
    if n >= 10 {
      var s := Decimal(n);
      assert s[..|s| - 1] == Decimal(n / 10);
      DecimalRoundTrip(n / 10);
    }
  }

  /** Distinct numbers render as distinct strings, so ids made by `Decimal` from distinct times differ. */
  lemma DecimalInjective(a: nat, b: nat)
    requires a != b
    ensures Decimal(a) != Decimal(b)
  {
    DecimalRoundTrip(a);
    DecimalRoundTrip(b);
  }
}
