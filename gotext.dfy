/** The pieces of Go's runtime and standard library that josa.go relies on,
    restated over strings of Unicode codepoints: the truncating remainder of
    `%` on runes, `utf8.DecodeLastRuneInString`, `unicode.IsSpace` and
    `strings.TrimSpace`. */
module GoText {

  /** Go's `/` on signed integers truncates toward zero (Dafny's `/` is
      Euclidean). */
  function GoQuot(a: int, b: int): int
    requires b > 0
  {
    if a >= 0 then a / b else -((-a) / b)
  }

  /** Go's `%` on signed integers: the remainder that goes with the truncating
      quotient, so it takes the sign of the dividend (Dafny's `%` is Euclidean
      and never negative). */
  function GoRem(a: int, b: int): (r: int)
    requires b > 0
    ensures a >= 0 ==> 0 <= r < b
    ensures a < 0 ==> -b < r <= 0
    ensures a == GoQuot(a, b) * b + r
  {
    if a >= 0 then a % b
    else
      var q := (-a) / b;
      assert -a == q * b + (-a) % b;
      assert (-q) * b == -(q * b);
      -((-a) % b)
  }

  /** Go's replacement rune U+FFFD, which `utf8.DecodeLastRuneInString`
      returns for the empty string. */
  const RuneError: char := '\U{FFFD}'

  /** The codepoint that `utf8.DecodeLastRuneInString` yields for a string
      of valid codepoints. */
  function LastRune(s: string): (c: char)
    ensures s != [] ==> c == s[|s| - 1]
    ensures s == [] ==> c == RuneError
  {
    if s == [] then RuneError else s[|s| - 1]
  }

  /** `unicode.IsSpace`: the Latin-1 spaces and the other characters with
      the Unicode White_Space property. */
  predicate IsSpace(c: char) {
    c == '\t' || c == '\n' || c == '\U{000B}' || c == '\U{000C}' || c == '\r' || c == ' '
    || c == '\U{0085}' || c == '\U{00A0}' || c == '\U{1680}'
    || ('\U{2000}' <= c <= '\U{200A}')
    || c == '\U{2028}' || c == '\U{2029}' || c == '\U{202F}' || c == '\U{205F}' || c == '\U{3000}'
  }

  /** The number of white-space characters `s` starts with. */
  function LeadingSpace(s: string): (n: nat)
    ensures n <= |s|
    ensures forall i :: 0 <= i < n ==> IsSpace(s[i])
    ensures n == |s| || !IsSpace(s[n])
  {
    if s != [] && IsSpace(s[0]) then 1 + LeadingSpace(s[1..]) else 0
  }

  /** Drops the trailing white space. */
  function TrimRightSpace(s: string): (r: string)
    ensures |r| <= |s| && r == s[..|r|]
    ensures forall i :: |r| <= i < |s| ==> IsSpace(s[i])
    ensures r == [] || !IsSpace(r[|r| - 1])
  {
    if s != [] && IsSpace(s[|s| - 1]) then TrimRightSpace(s[..|s| - 1]) else s
  }

  /** `strings.TrimSpace`: the infix of `s` that remains once the leading and
      the trailing white space are cut off; it neither starts nor ends with
      white space. */
  function TrimSpace(s: string): (r: string)
    ensures LeadingSpace(s) + |r| <= |s|
    ensures r == s[LeadingSpace(s)..LeadingSpace(s) + |r|]
    ensures forall i :: LeadingSpace(s) + |r| <= i < |s| ==> IsSpace(s[i])
    ensures r == [] || (!IsSpace(r[0]) && !IsSpace(r[|r| - 1]))
  {
    var a := LeadingSpace(s);
    TrimRightOfSuffix(s, a);
    TrimRightSpace(s[a..])
  }

  /** Trimming the right of a suffix `s[a..]` leaves an infix of `s`
      followed by white space only. */
  lemma TrimRightOfSuffix(s: string, a: nat)
    requires a <= |s|
    ensures var r := TrimRightSpace(s[a..]);
      && r == s[a..a + |r|]
      && forall i :: a + |r| <= i < |s| ==> IsSpace(s[i])
  {
    var left := s[a..];
    var r := TrimRightSpace(left);
    forall i | a + |r| <= i < |s|
      ensures IsSpace(s[i])
    {
      assert s[i] == left[i - a];
    }
  }

  /** Trimming twice is trimming once; a string that neither starts nor ends
      with white space is its own trim. */
  lemma TrimSpaceFixedPoint(s: string)
    requires s == [] || (!IsSpace(s[0]) && !IsSpace(s[|s| - 1]))
    ensures TrimSpace(s) == s
  {
  }

  lemma TrimSpaceIdempotent(s: string)
    ensures TrimSpace(TrimSpace(s)) == TrimSpace(s)
  {
    TrimSpaceFixedPoint(TrimSpace(s));
  }

  /** White space around a string that neither starts nor ends with white
      space is exactly what `TrimSpace` removes. */
  lemma TrimSpacePadded(p: string, k: string, q: string)
    requires forall i :: 0 <= i < |p| ==> IsSpace(p[i])
    requires forall i :: 0 <= i < |q| ==> IsSpace(q[i])
    requires k != [] && !IsSpace(k[0]) && !IsSpace(k[|k| - 1])
    ensures TrimSpace(p + k + q) == k
  {
    var s := p + k + q;
    LeadingPadded(p, k + q);
    assert s == p + (k + q);
    assert s[|p|..] == k + q;
    TrimRightPadded(k, q);
  }

  lemma {:induction false} LeadingPadded(p: string, m: string)
    requires forall i :: 0 <= i < |p| ==> IsSpace(p[i])
    requires m != [] && !IsSpace(m[0])
    ensures LeadingSpace(p + m) == |p|
  {
    if p != [] {
      assert (p + m)[1..] == p[1..] + m;
      LeadingPadded(p[1..], m);
    }
  }

  lemma {:induction false} TrimRightPadded(m: string, q: string)
    requires forall i :: 0 <= i < |q| ==> IsSpace(q[i])
    requires m != [] && !IsSpace(m[|m| - 1])
    ensures TrimRightSpace(m + q) == m
  {
    if q != [] {
      assert (m + q)[..|m + q| - 1] == m + q[..|q| - 1];
      TrimRightPadded(m, q[..|q| - 1]);
    }
  }
}
