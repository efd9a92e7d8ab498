/** The Python string built-ins the backend relies on: `strip`, `lower`, `join`, `startswith`,
    `endswith`, slicing `s[:n]` and `str(n)` of a natural number. */
module Text {

  /** The characters for which Python's `str.isspace()` holds; `str.strip()` removes them. */
  predicate IsSpace(c: char) {
    || c == ' '
    || '\t' <= c <= '\r'
    || '\U{1C}' <= c <= '\U{1F}'
    || c == '\U{85}' || c == '\U{A0}' || c == '\U{1680}'
    || '\U{2000}' <= c <= '\U{200A}'
    || c == '\U{2028}' || c == '\U{2029}' || c == '\U{202F}' || c == '\U{205F}' || c == '\U{3000}'
  }

  predicate AllSpace(s: string) {
    forall i :: 0 <= i < |s| ==> IsSpace(s[i])
  }

  predicate StartsWith(s: string, prefix: string) {
    |prefix| <= |s| && s[..|prefix|] == prefix
  }

  predicate EndsWith(s: string, suffix: string) {
    |suffix| <= |s| && s[|s| - |suffix|..] == suffix
  }

  /** `r` occurs in `s` as a contiguous block starting at index `i`. */
  predicate OccursAt(r: string, s: string, i: int) {
    0 <= i && i + |r| <= |s| && s[i..i + |r|] == r
  }

  ghost predicate Substring(r: string, s: string) {
    exists i :: OccursAt(r, s, i)
  }

  /** Python's `s.lstrip()`: drops the leading whitespace and nothing else. */
  function LStrip(s: string): string {
    if s != [] && IsSpace(s[0]) then LStrip(s[1..]) else s
  }

  /** Python's `s.rstrip()`: drops the trailing whitespace and nothing else. */
  function RStrip(s: string): string {
    if s != [] && IsSpace(s[|s| - 1]) then RStrip(s[..|s| - 1]) else s
  }

  /** Python's `s.strip()`. */
  function Strip(s: string): string {
    RStrip(LStrip(s))
  }

  /** `lstrip` keeps a suffix: it removes whitespace only, and stops at the first other character. */
  lemma {:induction false} LStripFacts(s: string)
    ensures var r := LStrip(s); |r| <= |s| && r == s[|s| - |r|..] && AllSpace(s[..|s| - |r|])
                                && (r == [] || !IsSpace(r[0]))
    decreases |s|
  {
    if s != [] && IsSpace(s[0]) {
      LStripFacts(s[1..]);
      var r := LStrip(s[1..]);
      assert s[1..][|s| - 1 - |r|..] == s[|s| - |r|..];
      assert s[..|s| - |r|] == [s[0]] + s[1..][..|s| - 1 - |r|];
      AllSpaceConcat([s[0]], s[1..][..|s| - 1 - |r|]);
    } else {
      assert s[|s| - |s|..] == s;
      assert AllSpace(s[..0]);
    }
  }

  /** `rstrip` keeps a prefix: it removes whitespace only, and stops at the last other character. */
  lemma {:induction false} RStripFacts(s: string)
    ensures var r := RStrip(s); |r| <= |s| && r == s[..|r|] && AllSpace(s[|r|..])
                                && (r == [] || !IsSpace(r[|r| - 1]))
    decreases |s|
  {
    if s != [] && IsSpace(s[|s| - 1]) {
      var t := s[..|s| - 1];
      RStripFacts(t);
      var r := RStrip(t);
      assert t[..|r|] == s[..|r|];
      assert s[|r|..] == t[|r|..] + [s[|s| - 1]];
      AllSpaceConcat(t[|r|..], [s[|s| - 1]]);
    } else {
      assert s[..|s|] == s;
      assert AllSpace(s[|s|..]);
    }
  }

  /** `strip` leaves one block of `s`: all that precedes and follows it is whitespace, it neither
      begins nor ends with whitespace, and it is empty exactly when `s` is all whitespace. */
  lemma StripFacts(s: string) returns (i: int)
    ensures var r := Strip(s); OccursAt(r, s, i) && AllSpace(s[..i]) && AllSpace(s[i + |r|..])
    ensures var r := Strip(s); r == [] || (!IsSpace(r[0]) && !IsSpace(r[|r| - 1]))
    ensures Strip(s) == [] <==> AllSpace(s)
  {
    var l := LStrip(s);
    LStripFacts(s);
    var r := RStrip(l);
    RStripFacts(l);
    StripBlock(s, l, r);
    i := |s| - |l|;
    if r != [] {
      assert r[0] == l[0];
    }
  }

  lemma StripBlock(s: string, l: string, r: string)
    requires |l| <= |s| && l == s[|s| - |l|..] && AllSpace(s[..|s| - |l|]) && (l == [] || !IsSpace(l[0]))
    requires |r| <= |l| && r == l[..|r|] && AllSpace(l[|r|..])
    ensures r == [] <==> AllSpace(s)
    ensures OccursAt(r, s, |s| - |l|) && AllSpace(s[..|s| - |l|]) && AllSpace(s[|s| - |l| + |r|..])
  {
    var i := |s| - |l|;
    assert s[i..] == l;
    assert s[i..i + |r|] == l[..|r|];
    assert s[i + |r|..] == l[|r|..];
    if r == [] {
      assert AllSpace(l);
      assert s == s[..i] + l;
      AllSpaceConcat(s[..i], l);
    }
  }

  lemma AllSpaceConcat(a: string, b: string)
    requires AllSpace(a) && AllSpace(b)
    ensures AllSpace(a + b)
  {
    forall k | 0 <= k < |a + b| ensures IsSpace((a + b)[k]) {
      if k < |a| { assert (a + b)[k] == a[k]; } else { assert (a + b)[k] == b[k - |a|]; }
    }
  }

  lemma {:induction false} LStripSpacePrefix(w: string, x: string)
    requires AllSpace(w)
    ensures LStrip(w + x) == LStrip(x)
    decreases |w|
  {
    if w != [] {
      assert (w + x)[0] == w[0];
      assert (w + x)[1..] == w[1..] + x;
      LStripSpacePrefix(w[1..], x);
    } else {
      assert w + x == x;
    }
  }

  lemma {:induction false} RStripSpaceSuffix(x: string, w: string)
    requires AllSpace(w)
    ensures RStrip(x + w) == RStrip(x)
    decreases |w|
  {
    if w != [] {
      assert (x + w)[|x + w| - 1] == w[|w| - 1];
      assert (x + w)[..|x + w| - 1] == x + w[..|w| - 1];
      RStripSpaceSuffix(x, w[..|w| - 1]);
    } else {
      assert x + w == x;
    }
  }

  lemma {:induction false} LStripKeepsTail(x: string, w: string)
    requires !AllSpace(x)
    ensures LStrip(x + w) == LStrip(x) + w
    decreases |x|
  {
    if IsSpace(x[0]) {
      assert (x + w)[1..] == x[1..] + w;
      assert !AllSpace(x[1..]) by {
        var k :| 0 <= k < |x| && !IsSpace(x[k]);
        assert x[1..][k - 1] == x[k];
      }
      LStripKeepsTail(x[1..], w);
    }
  }

  /** `lstrip` of a string of whitespace is empty. */
  lemma LStripAllSpace(s: string)
    requires AllSpace(s)
    ensures LStrip(s) == []
  {
    LStripFacts(s);
  }

  /** Whitespace around a text does not change what `strip` leaves of it. */
  lemma StripAround(w1: string, b: string, w2: string)
    requires AllSpace(w1) && AllSpace(w2)
    ensures Strip(w1 + b + w2) == Strip(b)
  {
    assert w1 + b + w2 == w1 + (b + w2);
    LStripSpacePrefix(w1, b + w2);
    if AllSpace(b) {
      AllSpaceConcat(b, w2);
      LStripAllSpace(b + w2);
      LStripAllSpace(b);
    } else {
      LStripKeepsTail(b, w2);
      RStripSpaceSuffix(LStrip(b), w2);
    }
  }

  /** Where the stripped string sits in the original. */
  lemma StripOccurs(s: string) returns (i: int)
    ensures OccursAt(Strip(s), s, i)
  {
    i := StripFacts(s);
  }

  /** A string that neither begins nor ends with whitespace is left alone by `strip`. */
  lemma StripUnpadded(s: string)
    requires s == [] || (!IsSpace(s[0]) && !IsSpace(s[|s| - 1]))
    ensures Strip(s) == s
  {
    var i := StripFacts(s);
    AllSpacePieces(s, i, i + |Strip(s)|);
  }

  lemma AllSpacePieces(s: string, i: int, j: int)
    requires 0 <= i <= j <= |s| && AllSpace(s[..i]) && AllSpace(s[j..])
    ensures forall k :: 0 <= k < i ==> IsSpace(s[k])
    ensures forall k :: j <= k < |s| ==> IsSpace(s[k])
  {
    forall k | 0 <= k < i ensures IsSpace(s[k]) {
      assert s[..i][k] == s[k];
    }
    forall k | j <= k < |s| ensures IsSpace(s[k]) {
      assert s[j..][k - j] == s[k];
    }
  }

  /** Stripping twice is stripping once. */
  lemma StripIdempotent(s: string)
    ensures Strip(Strip(s)) == Strip(s)
  {
    var _ := StripFacts(s);
    StripUnpadded(Strip(s));
  }

  /** A block of a block of `s` is a block of `s`. */
  lemma SubstringTransitive(a: string, b: string, c: string, i: int, j: int)
    requires OccursAt(a, b, i) && OccursAt(b, c, j)
    ensures OccursAt(a, c, i + j)
  {
    forall k | 0 <= k < |a| ensures c[i + j + k] == a[k] {
      assert c[j..j + |b|][i + k] == b[i + k];
      assert b[i..i + |a|][k] == a[k];
    }
  }

  /** The middle piece of a concatenation occurs right after the first piece. */
  lemma OccursInMiddle(a: string, b: string, c: string)
    ensures OccursAt(b, a + b + c, |a|)
  {
    assert (a + b + c)[|a|..|a| + |b|] == b;
  }

  /** A concatenation starts with its first piece and ends with its second. */
  lemma Concatenation(a: string, b: string)
    ensures StartsWith(a + b, a) && EndsWith(a + b, b)
  {
    assert (a + b)[..|a|] == a;
    assert (a + b)[|a|..] == b;
  }

  /** ASCII case folding of one character. */
  function LowerChar(c: char): char {
    if 'A' <= c <= 'Z' then (c as int + 32) as char else c
  }

  /** Python's `s.lower()`, restricted to the ASCII letters. */
  function Lower(s: string): (r: string)
    ensures |r| == |s|
    ensures forall i :: 0 <= i < |s| ==> r[i] == LowerChar(s[i])
  {
    seq(|s|, i requires 0 <= i < |s| => LowerChar(s[i]))
  }

  /** Python's `sep.join(parts)`. */
  function Join(parts: seq<string>, sep: string): string {
    if |parts| == 0 then ""
    else if |parts| == 1 then parts[0]
    else parts[0] + sep + Join(parts[1..], sep)
  }

  /** Python's `s[:n]` for a non-negative `n`. */
  function Take(s: string, n: nat): (r: string)
    ensures |r| == if |s| < n then |s| else n
    ensures r == s[..|r|]
  {
    if |s| <= n then s else s[..n]
  }

  function DigitChar(d: nat): (c: char)
    requires d < 10
    ensures '0' <= c <= '9' && c as int - '0' as int == d
  {
    (d + '0' as int) as char
  }

  /** The number a string of decimal digits denotes, most significant digit first. */
  function DigitsValue(s: string): nat
    requires forall i :: 0 <= i < |s| ==> '0' <= s[i] <= '9'
  {
    if s == [] then 0
    else 10 * DigitsValue(s[..|s| - 1]) + (s[|s| - 1] as int - '0' as int)
  }

  /** Python's `str(n)` for a natural number: its decimal digits, most significant first,
      denoting `n` and with no leading zero. */
  function NatToString(n: nat): (r: string)
    ensures |r| >= 1
    ensures forall i :: 0 <= i < |r| ==> '0' <= r[i] <= '9'
    ensures DigitsValue(r) == n
    ensures |r| > 1 ==> r[0] != '0'
  {
    if n < 10 then [DigitChar(n)]
    else
      var r := NatToString(n / 10) + [DigitChar(n % 10)];
      assert r[..|r| - 1] == NatToString(n / 10);
      r
  }
}
