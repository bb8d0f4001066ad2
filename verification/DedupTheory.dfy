// Which hits DedupSortLimit takes for the same, and which it leaves out, said of
// the fields of the hits.

module DedupTheory {
  import opened Model
  import opened Text
  import opened CacheKey
  import opened Selection
  import opened SelectionTheory

  // ---------- Outcomes and keys ----------

  lemma OutcomeKeysDiffer(results: seq<Hit>, topK: int, out: seq<Hit>)
    requires Selected(HIT_NAMES, results, topK, out)
    ensures DistinctKeys(HIT_NAMES, out)
  {
    SelectedShape(HIT_NAMES, results, topK, out);
    DedupDistinct(HIT_NAMES, results);
    DistinctSubset(HIT_NAMES, out, Dedup(HIT_NAMES, results));
  }

  // No two hits of an outcome have the same document id.
  lemma OneHitPerDocument(results: seq<Hit>, topK: int, out: seq<Hit>, i: nat, j: nat)
    requires Selected(HIT_NAMES, results, topK, out) && i < j < |out|
    ensures TrimSpace(out[i].docID) != "" ==> TrimSpace(out[i].docID) != TrimSpace(out[j].docID)
  {
    OutcomeKeysDiffer(results, topK, out);
    assert HIT_NAMES.key(out[i]) != HIT_NAMES.key(out[j]);
  }

  // Nor do two hits without a document id have the same file.
  lemma OneHitPerFile(results: seq<Hit>, topK: int, out: seq<Hit>, i: nat, j: nat)
    requires Selected(HIT_NAMES, results, topK, out) && i < j < |out|
    requires TrimSpace(out[i].docID) == "" && TrimSpace(out[j].docID) == ""
    ensures TrimSpace(out[i].file) != "" ==> TrimSpace(out[i].file) != TrimSpace(out[j].file)
  {
    OutcomeKeysDiffer(results, topK, out);
    assert HIT_NAMES.key(out[i]) != HIT_NAMES.key(out[j]);
  }

  // No hit before i has the document id that hit i has.
  ghost predicate NewDocument(results: seq<Hit>, i: int) {
    0 <= i < |results| && forall j | 0 <= j < i :: TrimSpace(results[j].docID) != TrimSpace(results[i].docID)
  }

  // Without a limit, of hits that all have document ids exactly the first of each
  // document is kept, whatever else the hits share.
  lemma FirstOfEachDocument(results: seq<Hit>, topK: int, out: seq<Hit>)
    requires topK <= 0 && Selected(HIT_NAMES, results, topK, out)
    requires forall h | h in results :: TrimSpace(h.docID) != ""
    ensures forall h :: h in out <==> exists i :: NewDocument(results, i) && results[i] == h
  {
    AllKept(results, topK, out);
    forall h
      ensures h in out <==> exists i :: NewDocument(results, i) && results[i] == h
    {
      if i :| 0 <= i < |results| && results[i] == h && HIT_NAMES.key(h) !in Keys(HIT_NAMES, results[..i]) {
        EarlierDocuments(results, i);
      }
      if i :| NewDocument(results, i) && results[i] == h {
        EarlierDocuments(results, i);
      }
    }
  }

  lemma AllKept(results: seq<Hit>, topK: int, out: seq<Hit>)
    requires topK <= 0 && Selected(HIT_NAMES, results, topK, out)
    ensures multiset(out) == multiset(Dedup(HIT_NAMES, results))
    ensures forall h :: h in out <==> First(HIT_NAMES, results, h)
  {
    DedupKeepsFirst(HIT_NAMES, results);
    assert forall h :: h in out <==> h in multiset(out);
  }

  lemma EarlierDocuments(results: seq<Hit>, i: nat)
    requires i < |results| && forall h | h in results :: TrimSpace(h.docID) != ""
    ensures HIT_NAMES.key(results[i]) !in Keys(HIT_NAMES, results[..i]) <==> NewDocument(results, i)
  {
    if HIT_NAMES.key(results[i]) in Keys(HIT_NAMES, results[..i]) {
      var h :| h in results[..i] && HIT_NAMES.key(h) == HIT_NAMES.key(results[i]);
      var j :| 0 <= j < i && results[j] == h;
    }
    forall j | 0 <= j < i
      ensures results[j] in results[..i]
    {
    }
  }

  // Hits of different documents are all kept.
  lemma DifferentDocumentsStay(results: seq<Hit>, topK: int, out: seq<Hit>)
    requires topK <= 0 && Selected(HIT_NAMES, results, topK, out)
    requires forall i | 0 <= i < |results| :: TrimSpace(results[i].docID) != "" && NewDocument(results, i)
    ensures multiset(out) == multiset(results)
  {
    AllKept(results, topK, out);
    forall i, j | 0 <= i < j < |results|
      ensures HIT_NAMES.key(results[i]) != HIT_NAMES.key(results[j])
    {
      assert NewDocument(results, j);
    }
    DedupOfDistinct(HIT_NAMES, results);
  }

  // ---------- Two hits ----------

  // a and b are taken for the same: no outcome has both.
  ghost predicate TakenAsOne(a: Hit, b: Hit) {
    forall topK: int, out | Selected(HIT_NAMES, [a, b], topK, out) :: |out| <= 1
  }

  lemma TakenAsOneIff(a: Hit, b: Hit)
    ensures TakenAsOne(a, b) <==> HIT_NAMES.key(a) == HIT_NAMES.key(b)
  {
    if HIT_NAMES.key(a) == HIT_NAMES.key(b) {
      forall topK: int, out | Selected(HIT_NAMES, [a, b], topK, out)
        ensures |out| <= 1
      {
        OnlyOne(a, b, topK, out);
      }
    } else if a.score >= b.score {
      BothStay(a, b, [a, b]);
    } else {
      BothStay(a, b, [b, a]);
    }
  }

  lemma {:induction false} BothStay(a: Hit, b: Hit, out: seq<Hit>)
    requires HIT_NAMES.key(a) != HIT_NAMES.key(b) && Sorted(out) && (out == [a, b] || out == [b, a])
    ensures Selected(HIT_NAMES, [a, b], 0, out) && |out| == 2
  {
    assert DistinctKeys(HIT_NAMES, [a, b]);
    DedupOfDistinct(HIT_NAMES, [a, b]);
    assert multiset(out) == multiset([a, b]);
  }

  lemma OnlyOne(a: Hit, b: Hit, topK: int, out: seq<Hit>)
    requires HIT_NAMES.key(a) == HIT_NAMES.key(b) && Selected(HIT_NAMES, [a, b], topK, out)
    ensures |out| <= 1
  {
    OutcomeKeysDiffer([a, b], topK, out);
    SelectedShape(HIT_NAMES, [a, b], topK, out);
    DedupDistinct(HIT_NAMES, [a, b]);
    forall i | 0 <= i < |out|
      ensures HIT_NAMES.key(out[i]) == HIT_NAMES.key(a)
    {
      OneOfTwo(out, a, b, i);
    }
  }

  lemma OneOfTwo(out: seq<Hit>, a: Hit, b: Hit, i: nat)
    requires multiset(out) <= multiset([a, b]) && i < |out|
    ensures out[i] == a || out[i] == b
  {
    assert out[i] in multiset(out) && out[i] in multiset([a, b]);
  }

  // A hit's document id, or the file that stands in for it.
  ghost predicate Identified(h: Hit) {
    TrimSpace(h.docID) != "" || TrimSpace(h.file) != ""
  }

  // A document id counts before a file, and a file that stands in for the id is
  // compared with ids as well.
  lemma SameDocumentIff(a: Hit, b: Hit)
    requires Identified(a) && Identified(b)
    ensures var ida, idb := TrimSpace(a.docID), TrimSpace(b.docID);
            var filea, fileb := TrimSpace(a.file), TrimSpace(b.file);
            TakenAsOne(a, b) <==>
              || (ida != "" && ida == idb)
              || (ida == idb == "" && filea == fileb)
              || (ida != "" && idb == "" && ida == fileb)
              || (ida == "" && idb != "" && filea == idb)
  {
    TakenAsOneIff(a, b);
  }

  // m is |x| in ten-thousandths.
  ghost predicate FourDecimals(x: real, m: nat) {
    Nearest((if x < 0.0 then -x else x) * 10000.0, m)
  }

  ghost predicate SameToFourDecimals(x: real, y: real) {
    (x < 0.0 <==> y < 0.0) && exists m: nat :: FourDecimals(x, m) && FourDecimals(y, m)
  }

  lemma FourDecimalsAre(x: real, m: nat)
    ensures FourDecimals(x, m) <==> Scaled(x, 4) == m
  {
    assert Pow10(1) == 10 * Pow10(0);
    assert Pow10(2) == 10 * Pow10(1);
    assert Pow10(3) == 10 * Pow10(2);
    assert Pow10(4) == 10 * Pow10(3);
    RoundIsNearest(Abs(x) * 10000.0, m);
  }

  lemma PointAtFour(m: nat)
    ensures ReadPoint(PointAt(m, 4)) == m / 10000 * 1_000_000 + m % 10000
  {
    var whole, frac := Digits(Quotient(m, 10000)), Pad(Remainder(m, 10000), 4);
    assert Pow10(4) == 10000;
    DigitsRoundTrip(Quotient(m, 10000));
    PadRoundTrip(Remainder(m, 10000), 4);
    PointSplits(whole, frac);
  }

  lemma ReadSign(negative: bool, p: string)
    requires p != [] && p[0] != '-'
    ensures ReadFixed((if negative then "-" else "") + p) == (negative, ReadPoint(p))
  {
    SignSplits(p);
    assert "" + p == p;
  }

  lemma PointStarts(m: nat, d: nat)
    ensures PointAt(m, d) != [] && PointAt(m, d)[0] != '-'
  {
    assert PointAt(m, d)[0] == Digits(Quotient(m, Pow10(d)))[0];
  }

  lemma SignAndPoint(negative: bool, m: nat)
    ensures ReadFixed((if negative then "-" else "") + PointAt(m, 4)) == (negative, m / 10000 * 1_000_000 + m % 10000)
  {
    PointStarts(m, 4);
    PointAtFour(m);
    ReadSign(negative, PointAt(m, 4));
  }

  lemma SameTensOfThousandths(m: nat, n: nat)
    requires m / 10000 * 1_000_000 + m % 10000 == n / 10000 * 1_000_000 + n % 10000
    ensures m == n
  {
  }

  lemma SameScoreTextIff(x: real, y: real)
    ensures FormatFixed(x, 4) == FormatFixed(y, 4) <==> SameToFourDecimals(x, y)
  {
    SignAndPoint(x < 0.0, Scaled(x, 4));
    SignAndPoint(y < 0.0, Scaled(y, 4));
    if FormatFixed(x, 4) == FormatFixed(y, 4) {
      SameTensOfThousandths(Scaled(x, 4), Scaled(y, 4));
    }
    FourDecimalsAre(x, Scaled(x, 4));
    FourDecimalsAre(y, Scaled(x, 4));
    if SameToFourDecimals(x, y) {
      var m: nat :| FourDecimals(x, m) && FourDecimals(y, m);
      FourDecimalsAre(x, m);
      FourDecimalsAre(y, m);
    }
  }

  lemma LastBarSplits(head: string, field: string, otherHead: string, otherField: string)
    requires '|' !in field && '|' !in otherField
    ensures head + "|" + field == otherHead + "|" + otherField <==> head == otherHead && field == otherField
  {
    CutLastField(head, field);
    CutLastField(otherHead, otherField);
    assert Append(head, field) == head + "|" + field;
    assert Append(otherHead, otherField) == otherHead + "|" + otherField;
  }

  lemma NoBarInScore(x: real)
    ensures '|' !in FormatFixed(x, 4)
  {
  }

  // Hits with neither are the same exactly if their scores agree to four decimals
  // and their titles and snippets, with a bar between, are the same text.
  lemma SameTextIff(a: Hit, b: Hit)
    requires !Identified(a) && !Identified(b)
    ensures TakenAsOne(a, b) <==>
              a.title + "|" + a.snippet == b.title + "|" + b.snippet && SameToFourDecimals(a.score, b.score)
  {
    TakenAsOneIff(a, b);
    NoBarInScore(a.score);
    NoBarInScore(b.score);
    SameScoreTextIff(a.score, b.score);
    LastBarSplits(a.title + "|" + a.snippet, FormatFixed(a.score, 4), b.title + "|" + b.snippet,
                  FormatFixed(b.score, 4));
  }

  // As long as the titles have no bars, if all three agree.
  lemma SameFieldsIff(a: Hit, b: Hit)
    requires !Identified(a) && !Identified(b) && '|' !in a.title && '|' !in b.title
    ensures TakenAsOne(a, b) <==>
              a.title == b.title && a.snippet == b.snippet && SameToFourDecimals(a.score, b.score)
  {
    SameTextIff(a, b);
    IndexOfFirst(a.title, '|', a.snippet);
    IndexOfFirst(b.title, '|', b.snippet);
  }

  // With a bar in one, two different hits are taken for the same.
  lemma BarInTitleMerges()
    ensures TakenAsOne(Hit("a|b", "", "", 0.5, "c", ""), Hit("a", "", "", 0.5, "b|c", ""))
  {
    var a, b := Hit("a|b", "", "", 0.5, "c", ""), Hit("a", "", "", 0.5, "b|c", "");
    SameTextIff(a, b);
    SameScoreTextIff(0.5, 0.5);
    assert "a|b" + "|" + "c" == "a" + "|" + "b|c";
  }

  // ---------- What the limits leave out ----------

  lemma {:induction false} FileTwice(s: seq<Hit>, f: string)
    ensures FileBag(HIT_NAMES, s)[f] >= 1 ==> exists i :: 0 <= i < |s| && TrimSpace(s[i].file) == f
    ensures FileBag(HIT_NAMES, s)[f] >= 2 ==>
              exists i, j :: 0 <= i < j < |s| && TrimSpace(s[i].file) == f && TrimSpace(s[j].file) == f
  {
    if s != [] {
      FileTwice(s[..|s| - 1], f);
    }
  }

  lemma {:induction false} FileThrice(s: seq<Hit>, f: string, i: nat, j: nat, k: nat)
    requires i < j < k < |s|
    requires TrimSpace(s[i].file) == f && TrimSpace(s[j].file) == f && TrimSpace(s[k].file) == f
    ensures FileBag(HIT_NAMES, s)[f] >= 3
  {
    FileAt(s, k);
    FileAt(s[..k], j);
    FileAt(s[..k][..j], i);
  }

  lemma {:induction false} FileAt(s: seq<Hit>, i: nat)
    requires i < |s|
    ensures FileBag(HIT_NAMES, s)[TrimSpace(s[i].file)] >= 1 + FileBag(HIT_NAMES, s[..i])[TrimSpace(s[i].file)]
  {
    var init := s[..|s| - 1];
    if i < |init| {
      FileAt(init, i);
      assert init[..i] == s[..i];
    }
  }

  // At most two hits have the same file, if they have one.
  lemma AtMostTwoPerFile(results: seq<Hit>, topK: int, out: seq<Hit>, i: nat, j: nat, k: nat)
    requires topK > 0 && Selected(HIT_NAMES, results, topK, out) && i < j < k < |out|
    requires TrimSpace(out[i].file) == TrimSpace(out[j].file) == TrimSpace(out[k].file)
    ensures TrimSpace(out[i].file) == ""
  {
    SelectedShape(HIT_NAMES, results, topK, out);
    FileThrice(out, TrimSpace(out[i].file), i, j, k);
  }

  // Two hits of the file of h score no less than h.
  ghost predicate TwoBetter(g: seq<Hit>, h: Hit) {
    TrimSpace(h.file) != "" &&
    exists i, j :: 0 <= i < j < |g| && TrimSpace(g[i].file) == TrimSpace(h.file) && g[i].score >= h.score
      && TrimSpace(g[j].file) == TrimSpace(h.file) && g[j].score >= h.score
  }

  lemma StillTwoBetter(g: seq<Hit>, more: seq<Hit>, h: Hit)
    requires TwoBetter(g, h) && g <= more
    ensures TwoBetter(more, h)
  {
    var i, j :| 0 <= i < j < |g| && TrimSpace(g[i].file) == TrimSpace(h.file) && g[i].score >= h.score
      && TrimSpace(g[j].file) == TrimSpace(h.file) && g[j].score >= h.score;
    assert more[i] == g[i] && more[j] == g[j];
  }

  // Why h is not among the hits g.
  ghost predicate NoRoom(g: seq<Hit>, k: nat, h: Hit) {
    || (|g| >= k && forall x | x in g :: x.score >= h.score)
    || TwoBetter(g, h)
  }

  lemma RefusedForRoom(g: seq<Hit>, k: nat, h: Hit)
    requires !(|g| < k && Accepts(HIT_NAMES, g, h)) && forall x | x in g :: x.score >= h.score
    ensures NoRoom(g, k, h)
  {
    FileTwice(g, TrimSpace(h.file));
  }

  // The greedy pass leaves out a hit only for a full list or a full file.
  lemma {:induction false} GreedyLeavesOut(s: seq<Hit>, k: nat, h: Hit)
    requires Sorted(s) && h in s && h !in Greedy(HIT_NAMES, s, k)
    ensures NoRoom(Greedy(HIT_NAMES, s, k), k, h)
  {
    var n := |s| - 1;
    var g := Greedy(HIT_NAMES, s[..n], k);
    InitAndLast(s);
    LastIsLeast(s);
    GreedyAppend(HIT_NAMES, s[..n], s[n], k);
    if h in s[..n] {
      GreedyLeavesOut(s[..n], k, h);
    } else {
      AllBefore(s[..n], g, s[n], k);
    }
    LeftOutNext(g, s[n], k, Greedy(HIT_NAMES, s, k), h);
  }

  lemma LastIsLeast(s: seq<Hit>)
    requires Sorted(s) && s != []
    ensures Sorted(s[..|s| - 1]) && forall x | x in s[..|s| - 1] :: x.score >= s[|s| - 1].score
  {
  }

  lemma LeftOutNext(g: seq<Hit>, last: Hit, k: nat, next: seq<Hit>, h: Hit)
    requires next == if |g| < k && Accepts(HIT_NAMES, g, last) then g + [last] else g
    requires NoRoom(g, k, h) || (h == last && h !in next && forall x | x in g :: x.score >= h.score)
    ensures NoRoom(next, k, h)
  {
    if NoRoom(g, k, h) {
      StillNoRoom(g, last, k, h);
    } else {
      RefusedForRoom(g, k, h);
    }
  }

  lemma StillNoRoom(g: seq<Hit>, last: Hit, k: nat, h: Hit)
    requires NoRoom(g, k, h)
    ensures |g| < k ==> NoRoom(g + [last], k, h)
  {
    if TwoBetter(g, h) {
      StillTwoBetter(g, g + [last], h);
    }
  }

  lemma AllBefore(init: seq<Hit>, g: seq<Hit>, last: Hit, k: nat)
    requires g == Greedy(HIT_NAMES, init, k) && forall x | x in init :: x.score >= last.score
    ensures forall x | x in g :: x.score >= last.score
  {
    GreedySubset(HIT_NAMES, init, k);
    forall x | x in g
      ensures x in init
    {
      assert x in multiset(g) && x in multiset(init);
    }
  }

  // A limit leaves out only what it must: a hit that an unlimited outcome has is
  // missing only from a full list of hits no worse, or behind two hits of its file
  // that are no worse.
  lemma LeftOutForALimit(results: seq<Hit>, topK: int, whole: seq<Hit>, out: seq<Hit>, h: Hit)
    requires topK > 0 && Selected(HIT_NAMES, results, 0, whole) && Selected(HIT_NAMES, results, topK, out)
    requires h in whole && h !in out
    ensures |out| <= topK && NoRoom(out, topK, h)
  {
    var sorted: seq<Hit> :| Sorted(sorted) && multiset(sorted) == multiset(Dedup(HIT_NAMES, results))
      && out == Greedy(HIT_NAMES, sorted, topK);
    assert h in multiset(whole) && h in multiset(sorted);
    GreedyLeavesOut(sorted, topK, h);
    SelectedShape(HIT_NAMES, results, topK, out);
  }
}
