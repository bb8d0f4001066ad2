// Strings as sequences of Unicode characters: trimming and the decimal
// formats that end up in dedup keys and cache keys.

module Text {

  // The white space of Go's unicode.IsSpace.
  predicate IsSpace(c: char) {
    || '\t' <= c <= '\r' || c == ' ' || c == '\U{85}' || c == '\U{A0}'
    || c == '\U{1680}' || '\U{2000}' <= c <= '\U{200A}' || c == '\U{2028}'
    || c == '\U{2029}' || c == '\U{202F}' || c == '\U{205F}' || c == '\U{3000}'
  }

  const SPACES := "\t\n\U{0B}\U{0C}\r \U{85}\U{A0}\U{1680}"
    + "\U{2000}\U{2001}\U{2002}\U{2003}\U{2004}\U{2005}\U{2006}\U{2007}\U{2008}\U{2009}\U{200A}"
    + "\U{2028}\U{2029}\U{202F}\U{205F}\U{3000}"

  // These 25 characters are white space.
  lemma SpaceIff(c: char)
    ensures IsSpace(c) <==> c in SPACES
  {
    if '\U{2000}' <= c <= '\U{200A}' {
      assert c == SPACES[9 + (c as int - 0x2000)];
    } else if '\t' <= c <= '\r' {
      assert c == SPACES[c as int - 9];
    }
  }

  // The first position from i on that is not white space.
  function SkipLeft(s: string, i: nat): (r: nat)
    requires i <= |s|
    ensures i <= r <= |s|
    decreases |s| - i
  {
    if i < |s| && IsSpace(s[i]) then SkipLeft(s, i + 1) else i
  }

  // The end of the text before j once white space after lo is dropped.
  function SkipRight(s: string, lo: nat, j: nat): (r: nat)
    requires lo <= j <= |s|
    ensures lo <= r <= j
  {
    if lo < j && IsSpace(s[j - 1]) then SkipRight(s, lo, j - 1) else j
  }

  // strings.TrimSpace
  function TrimSpace(s: string): (r: string)
    ensures |r| <= |s|
  {
    var lo := SkipLeft(s, 0);
    s[lo..SkipRight(s, lo, |s|)]
  }

  ghost predicate Trimmed(s: string) {
    s != [] ==> !IsSpace(s[0]) && !IsSpace(s[|s| - 1])
  }

  lemma {:induction false} SkipLeftStops(s: string, i: nat)
    requires i <= |s|
    ensures var r := SkipLeft(s, i); r < |s| ==> !IsSpace(s[r])
    decreases |s| - i
  {
    if i < |s| && IsSpace(s[i]) {
      SkipLeftStops(s, i + 1);
    }
  }

  lemma {:induction false} SkipRightStops(s: string, lo: nat, j: nat)
    requires lo <= j <= |s|
    ensures var r := SkipRight(s, lo, j); lo < r ==> !IsSpace(s[r - 1])
  {
    if lo < j && IsSpace(s[j - 1]) {
      SkipRightStops(s, lo, j - 1);
    }
  }

  lemma TrimSpaceIdempotent(s: string)
    ensures Trimmed(TrimSpace(s)) && TrimSpace(TrimSpace(s)) == TrimSpace(s)
  {
    var lo := SkipLeft(s, 0);
    SkipLeftStops(s, 0);
    SkipRightStops(s, lo, |s|);
  }

  ghost predicate Blank(s: string) {
    forall c | c in s :: IsSpace(c)
  }

  lemma {:induction false} SkipLeftSkips(s: string, i: nat)
    requires i <= |s|
    ensures forall k | i <= k < SkipLeft(s, i) :: IsSpace(s[k])
    decreases |s| - i
  {
    if i < |s| && IsSpace(s[i]) {
      SkipLeftSkips(s, i + 1);
    }
  }

  lemma {:induction false} SkipRightSkips(s: string, lo: nat, j: nat)
    requires lo <= j <= |s|
    ensures forall k | SkipRight(s, lo, j) <= k < j :: IsSpace(s[k])
  {
    if lo < j && IsSpace(s[j - 1]) {
      SkipRightSkips(s, lo, j - 1);
    }
  }

  // r is s without the white space around it.
  ghost predicate IsTrimOf(r: string, s: string) {
    Trimmed(r) && exists a, b :: s == a + r + b && Blank(a) && Blank(b)
  }

  lemma TrimSpaceTrims(s: string)
    ensures IsTrimOf(TrimSpace(s), s)
  {
    var lo := SkipLeft(s, 0);
    var hi := SkipRight(s, lo, |s|);
    SkipLeftSkips(s, 0);
    SkipRightSkips(s, lo, |s|);
    TrimSpaceIdempotent(s);
    assert s == s[..lo] + TrimSpace(s) + s[hi..] && Blank(s[..lo]) && Blank(s[hi..]);
  }

  lemma Around(a: string, r: string, b: string)
    requires Blank(a) && Blank(b) && Trimmed(r)
    ensures var s, end := a + r + b, |a| + |r|;
            && s[|a|..end] == r
            && (forall k | 0 <= k < |a| :: IsSpace(s[k])) && (forall k | end <= k < |s| :: IsSpace(s[k]))
            && (r != [] ==> !IsSpace(s[|a|]) && !IsSpace(s[end - 1]))
  {
  }

  // A text has one such part.
  lemma TrimIsUnique(r: string, q: string, s: string)
    requires IsTrimOf(r, s) && IsTrimOf(q, s)
    ensures r == q
  {
    var a, b :| s == a + r + b && Blank(a) && Blank(b);
    var x, y :| s == x + q + y && Blank(x) && Blank(y);
    Around(a, r, b);
    Around(x, q, y);
  }

  // TrimSpace takes away exactly the white space around a text.
  lemma TrimSpaceIff(r: string, s: string)
    ensures TrimSpace(s) == r <==> IsTrimOf(r, s)
  {
    TrimSpaceTrims(s);
    if IsTrimOf(r, s) {
      TrimIsUnique(r, TrimSpace(s), s);
    }
  }

  function DigitChar(d: nat): (c: char)
    requires d < 10
  {
    ('0' as int + d) as char
  }

  // The decimal digits of n, without leading zeros.
  function Digits(n: nat): (s: string)
    ensures |s| >= 1
    ensures forall i :: 0 <= i < |s| ==> '0' <= s[i] <= '9'
  {
    if n < 10 then [DigitChar(n)] else Digits(n / 10) + [DigitChar(n % 10)]
  }

  // The last w decimal digits of n, with leading zeros.
  function Pad(n: nat, w: nat): (s: string)
    ensures |s| == w
    ensures forall i :: 0 <= i < |s| ==> '0' <= s[i] <= '9'
  {
    if w == 0 then [] else Pad(n / 10, w - 1) + [DigitChar(n % 10)]
  }

  function Pow10(d: nat): (r: nat)
    ensures r >= 1
  {
    if d == 0 then 1 else 10 * Pow10(d - 1)
  }

  // The nearest integer, a tie going to the even one.
  function RoundHalfEven(x: real): (m: nat)
    requires x >= 0.0
    ensures x - 0.5 <= m as real <= x + 0.5
  {
    var f := x.Floor;
    var r := x - f as real;
    if r < 0.5 || (r == 0.5 && f % 2 == 0) then f else f + 1
  }

  // m is the integer nearest to x, or the even one of two.
  ghost predicate Nearest(x: real, m: int) {
    -0.5 <= x - m as real <= 0.5 && (x - m as real == 0.5 || x - m as real == -0.5 ==> m % 2 == 0)
  }

  lemma RoundIsNearest(x: real, m: nat)
    requires x >= 0.0
    ensures RoundHalfEven(x) == m <==> Nearest(x, m)
  {
    var n := RoundHalfEven(x);
    assert (m - n) as real == m as real - n as real;
  }

  function Abs(x: real): (r: real)
    ensures r >= 0.0
  {
    if x < 0.0 then -x else x
  }

  // x in units of 10^-d.
  function Scaled(x: real, d: nat): nat {
    RoundHalfEven(Abs(x) * Pow10(d) as real)
  }

  function Quotient(m: nat, p: nat): nat
    requires p >= 1
  {
    m / p
  }

  function Remainder(m: nat, p: nat): nat
    requires p >= 1
  {
    m % p
  }

  // m * 10^-d, with d digits after the point.
  function PointAt(m: nat, d: nat): string {
    Digits(Quotient(m, Pow10(d))) + "." + Pad(Remainder(m, Pow10(d)), d)
  }

  // strconv.FormatFloat(x, 'f', d, 64) over exact reals.
  function FormatFixed(x: real, d: nat): string {
    (if x < 0.0 then "-" else "") + PointAt(Scaled(x, d), d)
  }

  // strconv.Itoa
  function Itoa(n: int): string {
    if n < 0 then "-" + Digits(-n) else Digits(n)
  }

  // strconv.FormatBool
  function FormatBool(b: bool): string {
    if b then "true" else "false"
  }

  // Where c first occurs in s, or |s|.
  function IndexOf(s: string, c: char): (i: nat)
    ensures i <= |s|
  {
    if s == [] || s[0] == c then 0 else 1 + IndexOf(s[1..], c)
  }

  lemma {:induction false} IndexOfFirst(a: string, c: char, rest: string)
    requires c !in a
    ensures IndexOf(a + [c] + rest, c) == |a|
    ensures (a + [c] + rest)[..|a|] == a && (a + [c] + rest)[|a| + 1..] == rest
  {
    if a != [] {
      IndexOfFirst(a[1..], c, rest);
      assert (a + [c] + rest)[1..] == a[1..] + [c] + rest;
    }
  }
}
