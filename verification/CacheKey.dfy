// cache: MakeCacheKey, and a decoder that inverts it.

module CacheKey {
  import opened Model
  import opened Text

  // ---------- strconv.Quote ----------

  function HexChar(d: nat): char
    requires d < 16
  {
    if d < 10 then ('0' as int + d) as char else ('a' as int + (d - 10)) as char
  }

  // The last w hexadecimal digits of n.
  function Hex(n: nat, w: nat): (s: string)
    ensures |s| == w
  {
    if w == 0 then [] else Hex(n / 16, w - 1) + [HexChar(n % 16)]
  }

  // The letter of Go's one-letter escapes.
  function ShortEscape(c: char): Option<char> {
    if c == '\U{7}' then Some('a') else if c == '\U{8}' then Some('b') else if c == '\U{C}' then Some('f')
    else if c == '\n' then Some('n') else if c == '\r' then Some('r') else if c == '\t' then Some('t')
    else if c == '\U{B}' then Some('v') else None
  }

  // How one character is quoted; printable stands for strconv.IsPrint.
  function Escape(printable: char -> bool, c: char): string {
    if c == '"' || c == '\\' then ['\\', c]
    else if printable(c) then [c]
    else if ShortEscape(c).Some? then ['\\', ShortEscape(c).value]
    else if c < ' ' || c == '\U{7F}' then ['\\', 'x'] + Hex(c as int, 2)
    else if c as int < 0x10000 then ['\\', 'u'] + Hex(c as int, 4)
    else ['\\', 'U'] + Hex(c as int, 8)
  }

  function EscapeAll(printable: char -> bool, s: string): string {
    if s == [] then [] else Escape(printable, s[0]) + EscapeAll(printable, s[1..])
  }

  function Quote(printable: char -> bool, s: string): string {
    ['"'] + EscapeAll(printable, s) + ['"']
  }

  // ---------- The key ----------

  function Append(head: string, field: string): string {
    head + ("|" + field)
  }

  // Query, mode and collection.
  function KeyHead(printable: char -> bool, query: string, mode: string, collection: string): string {
    Append(Append(Quote(printable, query), mode), collection)
  }

  function AppendFive(head: string, a: string, b: string, c: string, d: string, e: string): string {
    Append(Append(Append(Append(Append(head, a), b), c), d), e)
  }

  // The last five fields never contain a bar.
  function AppendTail(head: string, minScore: real, n: int, fallback: bool, filesOnly: bool, filesAll: bool): string {
    AppendFive(head, FormatFixed(minScore, 6), Itoa(n), FormatBool(fallback), FormatBool(filesOnly),
               FormatBool(filesAll))
  }

  function MakeCacheKey(printable: char -> bool, query: string, mode: string, collection: string, minScore: real,
                        n: int, fallback: bool, filesOnly: bool, filesAll: bool): string {
    AppendTail(KeyHead(printable, query, mode, collection), minScore, n, fallback, filesOnly, filesAll)
  }

  // ---------- Reading quoted text back ----------

  function HexDigit(c: char): Option<nat> {
    if '0' <= c <= '9' then Some(c as int - '0' as int)
    else if 'a' <= c <= 'f' then Some(c as int - 'a' as int + 10)
    else None
  }

  function ReadHex(s: string): Option<nat> {
    if s == [] then Some(0) else
    var hi, lo := ReadHex(s[..|s| - 1]), HexDigit(s[|s| - 1]);
    if hi.Some? && lo.Some? then Some(hi.value * 16 + lo.value) else None
  }

  function CharOf(code: nat): Option<char> {
    if code < 0xD800 || 0xE000 <= code < 0x11_0000 then Some(code as char) else None
  }

  function ShortUnescape(c: char): Option<char> {
    if c == 'a' then Some('\U{7}') else if c == 'b' then Some('\U{8}') else if c == 'f' then Some('\U{C}')
    else if c == 'n' then Some('\n') else if c == 'r' then Some('\r') else if c == 't' then Some('\t')
    else if c == 'v' then Some('\U{B}') else if c == '"' || c == '\\' then Some(c) else None
  }

  // How many hexadecimal digits follow an escape letter.
  function HexWidth(c: char): nat {
    if c == 'x' then 2 else if c == 'u' then 4 else if c == 'U' then 8 else 0
  }

  // One quoted character and the text after it.
  function ReadChar(s: string): Option<(char, string)> {
    if s == [] then None
    else if s[0] != '\\' then Some((s[0], s[1..]))
    else if |s| == 1 then None
    else if ShortUnescape(s[1]).Some? then Some((ShortUnescape(s[1]).value, s[2..]))
    else
      var w := HexWidth(s[1]);
      if w == 0 || |s| < 2 + w then None else
      var code := ReadHex(s[2..2 + w]);
      if code.None? || CharOf(code.value).None? then None else Some((CharOf(code.value).value, s[2 + w..]))
  }

  // Quoted text up to its closing quote, and what follows the quote.
  function ReadQuoted(s: string): Option<(string, string)>
    decreases |s|
  {
    if s == [] then None
    else if s[0] == '"' then Some(([], s[1..]))
    else
      var c := ReadChar(s);
      if c.None? || |c.value.1| >= |s| then None else
      var r := ReadQuoted(c.value.1);
      if r.None? then None else Some(([c.value.0] + r.value.0, r.value.1))
  }

  lemma {:induction false} HexRoundTrip(n: nat, w: nat)
    requires n < Pow16(w)
    ensures ReadHex(Hex(n, w)) == Some(n)
  {
    if w > 0 {
      HexRoundTrip(n / 16, w - 1);
    }
  }

  function Pow16(w: nat): nat {
    if w == 0 then 1 else 16 * Pow16(w - 1)
  }

  lemma HexEscapeReads(letter: char, c: char, t: string)
    requires HexWidth(letter) > 0 && (c as int) < Pow16(HexWidth(letter))
    ensures ReadChar(['\\', letter] + Hex(c as int, HexWidth(letter)) + t) == Some((c, t))
  {
    var w := HexWidth(letter);
    var h := Hex(c as int, w);
    var s := ['\\', letter] + h + t;
    HexRoundTrip(c as int, w);
    assert s[2..2 + w] == h && s[2 + w..] == t;
  }

  lemma EscapeReads(printable: char -> bool, c: char, t: string)
    ensures ReadChar(Escape(printable, c) + t) == Some((c, t))
    ensures Escape(printable, c) != [] && Escape(printable, c)[0] != '"'
  {
    var e := Escape(printable, c);
    if c == '"' || c == '\\' || (!printable(c) && ShortEscape(c).Some?) {
      assert |e| == 2 && e[0] == '\\' && (e + t)[2..] == t;
    } else if printable(c) {
      assert (e + t)[1..] == t;
    } else if c < ' ' || c == '\U{7F}' {
      assert Pow16(2) == 256;
      HexEscapeReads('x', c, t);
    } else if c as int < 0x10000 {
      assert Pow16(4) == 0x10000;
      HexEscapeReads('u', c, t);
    } else {
      assert Pow16(8) == 0x1_0000_0000;
      HexEscapeReads('U', c, t);
    }
  }

  lemma {:induction false} QuotedReads(printable: char -> bool, q: string, t: string)
    ensures ReadQuoted(EscapeAll(printable, q) + (['"'] + t)) == Some((q, t))
  {
    if q == [] {
      assert (['"'] + t)[1..] == t;
      assert EscapeAll(printable, q) + (['"'] + t) == ['"'] + t;
    } else {
      var e, rest := Escape(printable, q[0]), EscapeAll(printable, q[1..]) + (['"'] + t);
      QuotedReads(printable, q[1..], t);
      EscapeReads(printable, q[0], rest);
      Associative(e, EscapeAll(printable, q[1..]), ['"'] + t);
      ReadOne(e, rest, q[0]);
      assert [q[0]] + q[1..] == q;
    }
  }

  // One step of ReadQuoted.
  lemma ReadOne(e: string, rest: string, c: char)
    requires e != [] && e[0] != '"' && ReadChar(e + rest) == Some((c, rest))
    ensures var r := ReadQuoted(rest);
            ReadQuoted(e + rest) == if r.None? then None else Some(([c] + r.value.0, r.value.1))
  {
  }

  // ---------- Reading the bar-free fields back ----------

  function ReadNat(s: string): nat {
    if s == [] then 0 else
    var d := s[|s| - 1];
    10 * ReadNat(s[..|s| - 1]) + if '0' <= d <= '9' then d as int - '0' as int else 0
  }

  function ReadInt(s: string): int {
    if s != [] && s[0] == '-' then 0 - ReadNat(s[1..]) else ReadNat(s)
  }

  // The digits of a number with six decimals.
  function ReadPoint(s: string): nat {
    var i := IndexOf(s, '.');
    ReadNat(s[..i]) * 1_000_000 + ReadNat(if i < |s| then s[i + 1..] else [])
  }

  function ReadFixed(s: string): (bool, nat) {
    if s != [] && s[0] == '-' then (true, ReadPoint(s[1..])) else (false, ReadPoint(s))
  }

  // Cuts s at its last bar.
  function CutLast(s: string): (string, string) {
    if s == [] then ([], [])
    else if s[|s| - 1] == '|' then (s[..|s| - 1], [])
    else
      var (head, field) := CutLast(s[..|s| - 1]);
      (head, field + [s[|s| - 1]])
  }

  // A score to six decimals: its sign and its millionths.
  datatype Tail = Tail(negative: bool, micros: nat, n: int, fallback: bool, filesOnly: bool, filesAll: bool)

  function CutFive(key: string): (string, seq<string>) {
    var (s4, e) := CutLast(key);
    var (s3, d) := CutLast(s4);
    var (s2, c) := CutLast(s3);
    var (s1, b) := CutLast(s2);
    var (s0, a) := CutLast(s1);
    (s0, [a, b, c, d, e])
  }

  function ReadTail(key: string): (string, Tail) {
    var (head, f) := CutFive(key);
    var (negative, micros) := ReadFixed(f[0]);
    (head, Tail(negative, micros, ReadInt(f[1]), f[2] == "true", f[3] == "true", f[4] == "true"))
  }

  lemma {:induction false} CutLastField(head: string, field: string)
    requires '|' !in field
    ensures CutLast(Append(head, field)) == (head, field)
  {
    if field == [] {
      assert (head + ("|" + field))[..|head|] == head;
    } else {
      var init, c := field[..|field| - 1], field[|field| - 1];
      CutLastField(head, init);
      InitAndLast(field);
      CutLastStep(Append(head, init), c);
      assert Append(head, init) + [c] == Append(head, field);
    }
  }

  lemma CutLastStep(s: string, c: char)
    requires c != '|'
    ensures CutLast(s + [c]) == (CutLast(s).0, CutLast(s).1 + [c])
  {
    assert (s + [c])[..|s|] == s;
  }

  lemma ReadNatStep(s: string, d: nat)
    requires d < 10
    ensures ReadNat(s + [DigitChar(d)]) == 10 * ReadNat(s) + d
  {
    assert (s + [DigitChar(d)])[..|s|] == s;
  }

  lemma {:induction false} DigitsRoundTrip(n: nat)
    ensures ReadNat(Digits(n)) == n
  {
    if n < 10 {
      ReadNatStep([], n);
      assert [] + [DigitChar(n)] == Digits(n);
    } else {
      DigitsRoundTrip(n / 10);
      ReadNatStep(Digits(n / 10), n % 10);
    }
  }

  lemma {:induction false} PadRoundTrip(n: nat, w: nat)
    requires n < Pow10(w)
    ensures ReadNat(Pad(n, w)) == n
  {
    if w > 0 {
      PadRoundTrip(n / 10, w - 1);
      ReadNatStep(Pad(n / 10, w - 1), n % 10);
    }
  }

  lemma IntRoundTrip(n: int)
    ensures ReadInt(Itoa(n)) == n
  {
    DigitsRoundTrip(if n < 0 then -n else n);
    if n < 0 {
      assert Itoa(n)[1..] == Digits(-n);
    }
  }

  lemma PointRoundTrip(m: nat)
    ensures ReadPoint(PointAt(m, 6)) == m
  {
    var whole, frac := Digits(Quotient(m, 1_000_000)), Pad(Remainder(m, 1_000_000), 6);
    assert Pow10(6) == 1_000_000;
    DigitsRoundTrip(Quotient(m, 1_000_000));
    PadRoundTrip(Remainder(m, 1_000_000), 6);
    PointSplits(whole, frac);
  }

  lemma PointSplits(whole: string, frac: string)
    requires '.' !in whole
    ensures ReadPoint(whole + "." + frac) == ReadNat(whole) * 1_000_000 + ReadNat(frac)
  {
    IndexOfFirst(whole, '.', frac);
  }

  lemma SignSplits(s: string)
    requires s != [] && s[0] != '-'
    ensures ReadFixed("-" + s) == (true, ReadPoint(s)) && ReadFixed(s) == (false, ReadPoint(s))
  {
    assert ("-" + s)[1..] == s;
  }

  lemma FixedRoundTrip(x: real)
    ensures ReadFixed(FormatFixed(x, 6)) == (x < 0.0, Scaled(x, 6))
  {
    var p := PointAt(Scaled(x, 6), 6);
    PointRoundTrip(Scaled(x, 6));
    assert p[0] == Digits(Quotient(Scaled(x, 6), Pow10(6)))[0];
    SignSplits(p);
    assert "" + p == p;
  }

  lemma NoBars(minScore: real, n: int)
    ensures '|' !in FormatFixed(minScore, 6) && '|' !in Itoa(n)
  {
  }

  lemma CutFiveFields(head: string, a: string, b: string, c: string, d: string, e: string)
    requires '|' !in a && '|' !in b && '|' !in c && '|' !in d && '|' !in e
    ensures CutFive(AppendFive(head, a, b, c, d, e)) == (head, [a, b, c, d, e])
  {
    var s1 := Append(head, a);
    var s2 := Append(s1, b);
    var s3 := Append(s2, c);
    var s4 := Append(s3, d);
    CutLastField(head, a);
    CutLastField(s1, b);
    CutLastField(s2, c);
    CutLastField(s3, d);
    CutLastField(s4, e);
  }

  lemma ReadTailFields(head: string, a: string, b: string, c: string, d: string, e: string)
    requires '|' !in a && '|' !in b && '|' !in c && '|' !in d && '|' !in e
    ensures ReadTail(AppendFive(head, a, b, c, d, e))
         == (head, Tail(ReadFixed(a).0, ReadFixed(a).1, ReadInt(b), c == "true", d == "true", e == "true"))
  {
    CutFiveFields(head, a, b, c, d, e);
  }

  lemma BoolRoundTrip(b: bool)
    ensures (FormatBool(b) == "true") == b && '|' !in FormatBool(b)
  {
    assert |"true"| != |"false"|;
  }

  function TailOf(minScore: real, n: int, fallback: bool, filesOnly: bool, filesAll: bool): Tail {
    Tail(minScore < 0.0, Scaled(minScore, 6), n, fallback, filesOnly, filesAll)
  }

  // The last five fields read back whatever precedes them.
  lemma TailRoundTrip(head: string, minScore: real, n: int, fallback: bool, filesOnly: bool, filesAll: bool)
    ensures ReadTail(AppendTail(head, minScore, n, fallback, filesOnly, filesAll))
         == (head, TailOf(minScore, n, fallback, filesOnly, filesAll))
  {
    FixedRoundTrip(minScore);
    IntRoundTrip(n);
    NoBars(minScore, n);
    BoolRoundTrip(fallback);
    BoolRoundTrip(filesOnly);
    BoolRoundTrip(filesAll);
    ReadTailFields(head, FormatFixed(minScore, 6), Itoa(n), FormatBool(fallback),
                   FormatBool(filesOnly), FormatBool(filesAll));
  }

  // ---------- The whole key ----------

  datatype Fields = Fields(query: string, mode: string, collection: string, tail: Tail)

  // The quoted query from the left, the mode up to the next bar, and the rest.
  function ReadHead(head: string): Option<(string, string, string)> {
    if head == [] || head[0] != '"' then None else
    var quoted := ReadQuoted(head[1..]);
    if quoted.None? || quoted.value.1 == [] || quoted.value.1[0] != '|' then None else
    var rest := quoted.value.1[1..];
    var i := IndexOf(rest, '|');
    if i == |rest| then None else Some((quoted.value.0, rest[..i], rest[i + 1..]))
  }

  // Five bar-free fields from the right; the collection is what is left between.
  function Decode(key: string): Option<Fields> {
    var (head, tail) := ReadTail(key);
    var h := ReadHead(head);
    if h.None? then None else Some(Fields(h.value.0, h.value.1, h.value.2, tail))
  }

  lemma HeadRoundTrip(printable: char -> bool, query: string, mode: string, collection: string)
    requires '|' !in mode
    ensures ReadHead(KeyHead(printable, query, mode, collection)) == Some((query, mode, collection))
  {
    var after := ['|'] + (mode + ['|'] + collection);
    QuotedReads(printable, query, after);
    HeadShape(EscapeAll(printable, query), mode, collection);
    IndexOfFirst(mode, '|', collection);
  }

  lemma HeadShape(quoted: string, mode: string, collection: string)
    ensures var head := Append(Append(['"'] + quoted + ['"'], mode), collection);
            && head != [] && head[0] == '"'
            && head[1..] == quoted + (['"'] + (['|'] + (mode + ['|'] + collection)))
    ensures (['|'] + (mode + ['|'] + collection))[1..] == mode + ['|'] + collection
  {
  }

  // Decoding recovers all eight fields, even when the query or the collection
  // contains bars.
  lemma KeyRoundTrip(printable: char -> bool, query: string, mode: string, collection: string, minScore: real,
                     n: int, fallback: bool, filesOnly: bool, filesAll: bool)
    requires '|' !in mode
    ensures Decode(MakeCacheKey(printable, query, mode, collection, minScore, n, fallback, filesOnly, filesAll))
         == Some(Fields(query, mode, collection, TailOf(minScore, n, fallback, filesOnly, filesAll)))
  {
    HeadRoundTrip(printable, query, mode, collection);
    TailRoundTrip(KeyHead(printable, query, mode, collection), minScore, n, fallback, filesOnly, filesAll);
  }

  // Two requests with bar-free modes share a key exactly when they agree on all
  // fields, scores being compared to six decimals.
  lemma SameKeyIff(printable: char -> bool,
                   q: string, m: string, c: string, s: real, n: int, fb: bool, fo: bool, fa: bool,
                   q': string, m': string, c': string, s': real, n': int, fb': bool, fo': bool, fa': bool)
    requires '|' !in m && '|' !in m'
    ensures MakeCacheKey(printable, q, m, c, s, n, fb, fo, fa)
            == MakeCacheKey(printable, q', m', c', s', n', fb', fo', fa')
            <==> q == q' && m == m' && c == c' && TailOf(s, n, fb, fo, fa) == TailOf(s', n', fb', fo', fa')
  {
    KeyRoundTrip(printable, q, m, c, s, n, fb, fo, fa);
    KeyRoundTrip(printable, q', m', c', s', n', fb', fo', fa');
    if TailOf(s, n, fb, fo, fa) == TailOf(s', n', fb', fo', fa') {
      assert FormatFixed(s, 6) == FormatFixed(s', 6);
    }
  }

  // A bar in the mode lets different requests share a key.
  lemma BarInModeCollides(printable: char -> bool, q: string, a: string, b: string, c: string,
                          s: real, n: int, fb: bool, fo: bool, fa: bool)
    ensures MakeCacheKey(printable, q, a + "|" + b, c, s, n, fb, fo, fa)
         == MakeCacheKey(printable, q, a, b + "|" + c, s, n, fb, fo, fa)
  {
    Regroup(Quote(printable, q), a, b, c);
  }

  lemma Regroup(head: string, a: string, b: string, c: string)
    ensures Append(Append(head, a + "|" + b), c) == Append(Append(head, a), b + "|" + c)
  {
  }

  // The result count can be read off any key, whatever the mode.
  function KeyCount(key: string): int {
    ReadTail(key).1.n
  }

  lemma KeyCountRoundTrip(printable: char -> bool, query: string, mode: string, collection: string, minScore: real,
                          n: int, fallback: bool, filesOnly: bool, filesAll: bool)
    ensures KeyCount(MakeCacheKey(printable, query, mode, collection, minScore, n, fallback, filesOnly, filesAll)) == n
  {
    TailRoundTrip(KeyHead(printable, query, mode, collection), minScore, n, fallback, filesOnly, filesAll);
  }
}
