// The order in which the collections of a tier answer: exactly when it shows in
// the scores that DedupSortLimit selects.

module ArrivalTheory {
  import opened Model
  import opened Text
  import opened Selection
  import opened SelectionTheory

  // ---------- When the order does not show ----------

  // Where two collections have the same dedup key, their first hits of that key
  // agree in score and file.
  ghost predicate FirstsAgree(nm: Naming, lists: seq<seq<Hit>>) {
    forall i, j, a, b |
      && 0 <= i < |lists| && 0 <= j < |lists| && i != j
      && First(nm, lists[i], a) && First(nm, lists[j], b) && nm.key(a) == nm.key(b) ::
      SameFace(nm, a, b)
  }

  ghost predicate SameFace(nm: Naming, a: Hit, b: Hit) {
    a.score == b.score && nm.file(a) == nm.file(b)
  }

  // Across a and b, equal keys mean equal score and file.
  ghost predicate Matching(nm: Naming, a: seq<Hit>, b: seq<Hit>) {
    forall x, y | x in a && y in b && nm.key(x) == nm.key(y) :: SameFace(nm, x, y)
  }

  lemma AboveTakeOut(nm: Naming, b: seq<Hit>, i: nat, t: real)
    requires i < |b|
    ensures FileBag(nm, Above(b, t))
         == FileBag(nm, Above(b[..i] + b[i + 1..], t)) + FileBag(nm, Above([b[i]], t))
  {
    SplitAround(b, i);
    AboveConcat(b[..i] + [b[i]], b[i + 1..], t);
    AboveConcat(b[..i], [b[i]], t);
    AboveConcat(b[..i], b[i + 1..], t);
    FileBagConcat(nm, Above(b[..i], t) + Above([b[i]], t), Above(b[i + 1..], t));
    FileBagConcat(nm, Above(b[..i], t), Above([b[i]], t));
    FileBagConcat(nm, Above(b[..i], t), Above(b[i + 1..], t));
  }

  lemma OneFace(nm: Naming, a: Hit, b: Hit, t: real)
    requires SameFace(nm, a, b)
    ensures FileBag(nm, Above([a], t)) == FileBag(nm, Above([b], t))
  {
    assert [a][..0] == [] && [b][..0] == [];
  }

  lemma KeysWithout(nm: Naming, b: seq<Hit>, i: nat)
    requires DistinctKeys(nm, b) && i < |b|
    ensures DistinctKeys(nm, b[..i] + b[i + 1..])
    ensures Keys(nm, b[..i] + b[i + 1..]) == Keys(nm, b) - {nm.key(b[i])}
    ensures forall h | h in b[..i] + b[i + 1..] :: h in b
  {
    var rest := b[..i] + b[i + 1..];
    forall h | h in b && h != b[i]
      ensures h in rest
    {
      SplitAround(b, i);
    }
    forall h | h in rest
      ensures h in b && nm.key(h) != nm.key(b[i])
    {
      var k :| 0 <= k < |rest| && rest[k] == h;
      assert h == b[if k < i then k else k + 1];
    }
  }

  // Two lists without repeated keys that match key by key have the same faces.
  lemma {:induction false} MatchingFaces(nm: Naming, a: seq<Hit>, b: seq<Hit>, t: real)
    requires DistinctKeys(nm, a) && DistinctKeys(nm, b) && Keys(nm, a) == Keys(nm, b) && Matching(nm, a, b)
    ensures FileBag(nm, Above(a, t)) == FileBag(nm, Above(b, t))
  {
    NoKeys(nm, a);
    NoKeys(nm, b);
    if a != [] {
      var n := |a| - 1;
      assert nm.key(a[n]) in Keys(nm, a);
      var i :| 0 <= i < |b| && nm.key(b[i]) == nm.key(a[n]);
      var rest := b[..i] + b[i + 1..];
      KeysWithout(nm, a, n);
      KeysWithout(nm, b, i);
      assert a[..n] + a[n + 1..] == a[..n];
      MatchingFaces(nm, a[..n], rest, t);
      AboveTakeOut(nm, a, n, t);
      AboveTakeOut(nm, b, i, t);
      OneFace(nm, a[n], b[i], t);
    }
  }

  lemma NoKeys(nm: Naming, b: seq<Hit>)
    ensures Keys(nm, b) == {} <==> b == []
  {
    if b != [] {
      assert nm.key(b[0]) in Keys(nm, b);
    }
  }

  // Whatever other collections answered before, and for every limit, any two orders
  // of arrival have the same scores.
  ghost predicate OrderNeverShows(nm: Naming, lists: seq<seq<Hit>>) {
    forall before, p, q, topK: nat, x, y |
      && topK > 0 && multiset(p) == multiset(lists) && multiset(q) == multiset(lists)
      && Selected(nm, before + Flatten(p), topK, x) && Selected(nm, before + Flatten(q), topK, y) ::
      Scores(x) == Scores(y)
  }

  // A hit that comes first among all lists comes first in its own.
  lemma {:induction false} FirstInOne(nm: Naming, lists: seq<seq<Hit>>, h: Hit) returns (i: nat)
    requires First(nm, Flatten(lists), h)
    ensures i < |lists| && First(nm, lists[i], h)
  {
    var n := |lists| - 1;
    var before, last := Flatten(lists[..n]), lists[n];
    var k :| 0 <= k < |Flatten(lists)| && Flatten(lists)[k] == h && nm.key(h) !in Keys(nm, Flatten(lists)[..k]);
    if k < |before| {
      assert Flatten(lists)[..k] == before[..k];
      i := FirstInOne(nm, lists[..n], h);
    } else {
      i := n;
      FirstBehind(nm, before, last, k, h);
    }
  }

  lemma FirstBehind(nm: Naming, before: seq<Hit>, last: seq<Hit>, k: nat, h: Hit)
    requires |before| <= k < |before + last| && (before + last)[k] == h && nm.key(h) !in Keys(nm, (before + last)[..k])
    ensures First(nm, last, h)
  {
    var i := k - |before|;
    forall x | x in last[..i]
      ensures x in (before + last)[..k]
    {
      assert (before + last)[..k] == before + last[..i];
    }
    assert last[i] == h;
  }

  lemma OneFirst(nm: Naming, s: seq<Hit>, a: Hit, b: Hit)
    requires First(nm, s, a) && First(nm, s, b) && nm.key(a) == nm.key(b)
    ensures a == b
  {
    var i :| 0 <= i < |s| && s[i] == a && nm.key(a) !in Keys(nm, s[..i]);
    var j :| 0 <= j < |s| && s[j] == b && nm.key(b) !in Keys(nm, s[..j]);
    EarlierKeys(nm, s, i);
    EarlierKeys(nm, s, j);
  }

  lemma EarlierKeys(nm: Naming, s: seq<Hit>, j: nat)
    requires j <= |s|
    ensures forall i | 0 <= i < j :: nm.key(s[i]) in Keys(nm, s[..j])
  {
    forall i | 0 <= i < j
      ensures nm.key(s[i]) in Keys(nm, s[..j])
    {
      assert s[..j][i] in s[..j];
    }
  }

  lemma FirstsMatch(nm: Naming, lists: seq<seq<Hit>>, p: seq<seq<Hit>>, q: seq<seq<Hit>>, x: Hit, y: Hit)
    requires FirstsAgree(nm, lists) && (forall l | l in p :: l in lists) && forall l | l in q :: l in lists
    requires First(nm, Flatten(p), x) && First(nm, Flatten(q), y) && nm.key(x) == nm.key(y)
    ensures SameFace(nm, x, y)
  {
    var i := FirstInOne(nm, p, x);
    var k := FirstInOne(nm, q, y);
    assert p[i] in lists && q[k] in lists;
    var m: nat :| m < |lists| && lists[m] == p[i];
    var n: nat :| n < |lists| && lists[n] == q[k];
    if m == n {
      OneFirst(nm, lists[m], x, y);
    }
  }

  // A first hit is from before, or the first of a key that was not there before.
  lemma FirstAfter(nm: Naming, before: seq<Hit>, s: seq<Hit>, h: Hit)
    requires First(nm, before + s, h)
    ensures if nm.key(h) in Keys(nm, before) then First(nm, before, h) else First(nm, s, h)
  {
    var k :| 0 <= k < |before + s| && (before + s)[k] == h && nm.key(h) !in Keys(nm, (before + s)[..k]);
    if k < |before| {
      assert (before + s)[..k] == before[..k];
      assert before[k] in before;
    } else {
      FirstBehind(nm, before, s, k, h);
      assert (before + s)[..k] == before + s[..k - |before|];
      KeysConcat(nm, before, s[..k - |before|]);
    }
  }

  lemma FlattenKeys(nm: Naming, a: seq<seq<Hit>>, b: seq<seq<Hit>>)
    requires forall l | l in a :: l in b
    ensures Keys(nm, Flatten(a)) <= Keys(nm, Flatten(b))
  {
    forall h | h in Flatten(a)
      ensures h in Flatten(b)
    {
      InFlatten(a, h);
      var i :| 0 <= i < |a| && h in a[i];
      assert a[i] in b;
      InFlatten(b, h);
    }
  }

  // The order in which the collections of a tier answer does not show in the
  // scores, when first hits that share a dedup key agree in score and file.
  lemma ArrivalOrderDoesNotShow(nm: Naming, before: seq<Hit>, lists: seq<seq<Hit>>, p: seq<seq<Hit>>,
                                q: seq<seq<Hit>>, topK: nat, x: seq<Hit>, y: seq<Hit>)
    requires topK > 0 && multiset(p) == multiset(lists) && multiset(q) == multiset(lists) && FirstsAgree(nm, lists)
    requires Selected(nm, before + Flatten(p), topK, x) && Selected(nm, before + Flatten(q), topK, y)
    ensures Scores(x) == Scores(y)
  {
    assert forall l | l in p :: l in multiset(lists);
    assert forall l | l in q :: l in multiset(lists);
    assert forall l | l in lists :: l in multiset(p) && l in multiset(q);
    var a, b := Dedup(nm, before + Flatten(p)), Dedup(nm, before + Flatten(q));
    DedupKeepsFirst(nm, before + Flatten(p));
    DedupKeepsFirst(nm, before + Flatten(q));
    DedupDistinct(nm, before + Flatten(p));
    DedupDistinct(nm, before + Flatten(q));
    KeysConcat(nm, before, Flatten(p));
    KeysConcat(nm, before, Flatten(q));
    FlattenKeys(nm, p, q);
    FlattenKeys(nm, q, p);
    forall g, h | g in a && h in b && nm.key(g) == nm.key(h)
      ensures SameFace(nm, g, h)
    {
      FirstAfter(nm, before, Flatten(p), g);
      FirstAfter(nm, before, Flatten(q), h);
      if nm.key(g) in Keys(nm, before) {
        OneFirst(nm, before, g, h);
      } else {
        FirstsMatch(nm, lists, p, q, g, h);
      }
    }
    forall t
      ensures FileBag(nm, Above(a, t)) == FileBag(nm, Above(b, t))
    {
      MatchingFaces(nm, a, b, t);
    }
    FacesDecideScores(nm, before + Flatten(p), before + Flatten(q), topK, x, y);
  }

  // ---------- When it shows ----------

  // Every list has an outcome.
  lemma SomeOutcome(nm: Naming, s: seq<Hit>, topK: nat) returns (out: seq<Hit>)
    requires topK > 0
    ensures Selected(nm, s, topK, out)
  {
    var sorted := SomeArrangement(Dedup(nm, s));
    out := Greedy(nm, sorted, topK);
  }

  lemma {:induction false} SomeArrangement(s: seq<Hit>) returns (sorted: seq<Hit>)
    ensures Sorted(sorted) && multiset(sorted) == multiset(s)
  {
    sorted := s;
    if s != [] {
      var rest := SomeArrangement(s[..|s| - 1]);
      var h := s[|s| - 1];
      AboveSorted(rest, h.score);
      var n := |Above(rest, h.score)|;
      InsertAt(rest, n, h);
      InitAndLast(s);
      sorted := rest[..n] + [h] + rest[n..];
    }
  }

  // Where the room above some score differs, so do the scores under a wide limit.
  lemma RoomShows(nm: Naming, a: seq<Hit>, b: seq<Hit>, t: real) returns (topK: nat, x: seq<Hit>, y: seq<Hit>)
    requires Room(nm, Above(Dedup(nm, a), t)) != Room(nm, Above(Dedup(nm, b), t))
    ensures topK > 0 && Selected(nm, a, topK, x) && Selected(nm, b, topK, y) && Scores(x) != Scores(y)
  {
    topK := Room(nm, Above(Dedup(nm, a), t)) + Room(nm, Above(Dedup(nm, b), t)) + 1;
    x := SomeOutcome(nm, a, topK);
    y := SomeOutcome(nm, b, topK);
    SelectedCount(nm, a, topK, x, t);
    SelectedCount(nm, b, topK, y, t);
    if Scores(x) == Scores(y) {
      SameScoresSameCounts(x, y, t);
    }
  }

  lemma {:induction false} SameScoresSameCounts(x: seq<Hit>, y: seq<Hit>, t: real)
    requires Scores(x) == Scores(y)
    ensures |Above(x, t)| == |Above(y, t)|
  {
    assert |x| == |Scores(x)| && |y| == |Scores(y)|;
    if x != [] {
      var n := |x| - 1;
      assert x[n].score == Scores(x)[n] && y[n].score == Scores(y)[n];
      assert Scores(x[..n]) == Scores(x)[..n] && Scores(y[..n]) == Scores(y)[..n];
      SameScoresSameCounts(x[..n], y[..n], t);
    }
  }

  // Keys that were there before change nothing.
  lemma {:induction false} DedupAbsorbs(nm: Naming, s: seq<Hit>, more: seq<Hit>)
    requires forall h | h in more :: nm.key(h) in Keys(nm, s)
    ensures Dedup(nm, s + more) == Dedup(nm, s)
  {
    if more == [] {
      EmptyRight(s);
    } else {
      DedupAbsorbs(nm, s, more[..|more| - 1]);
      InitOfConcat(s, more);
      DedupKeepsFirst(nm, s);
    }
  }

  lemma DedupNext(nm: Naming, s: seq<Hit>, h: Hit)
    requires nm.key(h) !in Keys(nm, s)
    ensures Dedup(nm, s + [h]) == Dedup(nm, s) + [h]
  {
    assert (s + [h])[..|s|] == s;
    DedupKeepsFirst(nm, s);
  }

  // When all other keys were there before, only the first hit of key k is new.
  lemma DedupOneNew(nm: Naming, before: seq<Hit>, s: seq<Hit>, x: Hit)
    requires First(nm, s, x) && nm.key(x) !in Keys(nm, before)
    requires forall h | h in s :: nm.key(h) == nm.key(x) || nm.key(h) in Keys(nm, before)
    ensures Dedup(nm, before + s) == Dedup(nm, before) + [x]
  {
    var a, b := SplitFirst(nm, s, x);
    DedupUntilNew(nm, before, a, x);
    DedupAfterNew(nm, before, a, x, b);
    FourParts(before, a, [x], b);
  }

  lemma SplitFirst(nm: Naming, s: seq<Hit>, x: Hit) returns (a: seq<Hit>, b: seq<Hit>)
    requires First(nm, s, x)
    ensures s == a + [x] + b && nm.key(x) !in Keys(nm, a)
    ensures forall h | h in a :: h in s && nm.key(h) != nm.key(x)
    ensures forall h | h in b :: h in s
  {
    var i :| 0 <= i < |s| && s[i] == x && nm.key(x) !in Keys(nm, s[..i]);
    a, b := s[..i], s[i + 1..];
    SplitAround(s, i);
  }

  lemma FourParts<T>(a: seq<T>, b: seq<T>, c: seq<T>, d: seq<T>)
    ensures a + (b + c + d) == a + b + c + d
  {
  }

  lemma DedupUntilNew(nm: Naming, before: seq<Hit>, a: seq<Hit>, x: Hit)
    requires nm.key(x) !in Keys(nm, before) && forall h | h in a :: nm.key(h) in Keys(nm, before)
    ensures Dedup(nm, before + a + [x]) == Dedup(nm, before) + [x]
  {
    DedupAbsorbs(nm, before, a);
    KeysConcat(nm, before, a);
    DedupNext(nm, before + a, x);
  }

  lemma DedupAfterNew(nm: Naming, before: seq<Hit>, a: seq<Hit>, x: Hit, b: seq<Hit>)
    requires forall h | h in b :: nm.key(h) == nm.key(x) || nm.key(h) in Keys(nm, before)
    ensures Dedup(nm, before + a + [x] + b) == Dedup(nm, before + a + [x])
  {
    KeysConcat(nm, before, a);
    KeysAppend(nm, before + a, x);
    DedupAbsorbs(nm, before + a + [x], b);
  }

  // A list may come first.
  lemma ToFront(lists: seq<seq<Hit>>, i: nat) returns (p: seq<seq<Hit>>)
    requires i < |lists|
    ensures multiset(p) == multiset(lists) && p != [] && p[0] == lists[i]
    ensures exists rest :: Flatten(p) == lists[i] + rest
  {
    var others := lists[..i] + lists[i + 1..];
    p := [lists[i]] + others;
    SplitAround(lists, i);
    FlattenConcat([lists[i]], others);
    assert [lists[i]][..0] == [];
    assert Flatten([lists[i]]) == lists[i];
  }

  lemma FirstStays(nm: Naming, s: seq<Hit>, rest: seq<Hit>, x: Hit)
    requires First(nm, s, x)
    ensures First(nm, s + rest, x)
  {
    var i :| 0 <= i < |s| && s[i] == x && nm.key(x) !in Keys(nm, s[..i]);
    assert (s + rest)[..i] == s[..i] && (s + rest)[i] == x;
  }

  // All keys of the lists but k were there before, and k was not.
  ghost predicate Covers(nm: Naming, before: seq<Hit>, lists: seq<seq<Hit>>, k: string) {
    && k !in Keys(nm, before)
    && forall h | h in Flatten(lists) :: nm.key(h) == k || nm.key(h) in Keys(nm, before)
  }

  // Then some order of arrival lets the first hit of k in a given list through.
  lemma ComesFirst(nm: Naming, before: seq<Hit>, lists: seq<seq<Hit>>, i: nat, x: Hit) returns (p: seq<seq<Hit>>)
    requires i < |lists| && First(nm, lists[i], x) && Covers(nm, before, lists, nm.key(x))
    ensures multiset(p) == multiset(lists) && Dedup(nm, before + Flatten(p)) == Dedup(nm, before) + [x]
  {
    p := ToFront(lists, i);
    var rest :| Flatten(p) == lists[i] + rest;
    FirstStays(nm, lists[i], rest, x);
    forall h | h in Flatten(p)
      ensures h in Flatten(lists)
    {
      InFlatten(p, h);
      var j :| 0 <= j < |p| && h in p[j];
      assert p[j] in multiset(p);
      InFlatten(lists, h);
    }
    DedupOneNew(nm, before, Flatten(p), x);
  }

  lemma OrderShows(nm: Naming, before: seq<Hit>, lists: seq<seq<Hit>>, i: nat, j: nat, x: Hit, y: Hit, t: real)
    requires i < |lists| && j < |lists| && First(nm, lists[i], x) && First(nm, lists[j], y)
    requires nm.key(x) == nm.key(y) && Covers(nm, before, lists, nm.key(x))
    requires Room(nm, Above(Dedup(nm, before) + [x], t)) != Room(nm, Above(Dedup(nm, before) + [y], t))
    ensures !OrderNeverShows(nm, lists)
  {
    var p := ComesFirst(nm, before, lists, i, x);
    var q := ComesFirst(nm, before, lists, j, y);
    var topK, u, v := RoomShows(nm, before + Flatten(p), before + Flatten(q), t);
  }

  // ---------- What to find before ----------

  ghost predicate Nameless(s: seq<Hit>) {
    forall h | h in s :: FileOf(h) == ""
  }

  lemma {:induction false} NamelessBag(s: seq<Hit>, f: string)
    requires Nameless(s) && f != ""
    ensures FileBag(HIT_NAMES, s)[f] == 0
  {
    if s != [] {
      NamelessBag(s[..|s| - 1], f);
      InitAndLast(s);
    }
  }

  lemma NamelessAbove(s: seq<Hit>, t: real)
    requires Nameless(s)
    ensures Nameless(Above(s, t))
  {
    forall h | h in Above(s, t)
      ensures h in s
    {
      AboveCounts(s, t, h);
      assert h in multiset(Above(s, t));
    }
  }

  // A hit of the same key without a file.
  function WithoutFile(h: Hit): Hit {
    if TrimSpace(h.docID) != "" then h.(file := "") else
    if TrimSpace(h.file) != "" then h.(docID := h.file, file := "") else h
  }

  lemma WithoutFileKeepsKey(h: Hit)
    ensures DedupKey(WithoutFile(h)) == DedupKey(h) && FileOf(WithoutFile(h)) == ""
  {
  }

  // Hits without files for all keys of s but k.
  lemma {:induction false} Cover(s: seq<Hit>, k: string) returns (before: seq<Hit>)
    ensures Nameless(before) && k !in Keys(HIT_NAMES, before)
    ensures forall h | h in s :: DedupKey(h) == k || DedupKey(h) in Keys(HIT_NAMES, before)
  {
    before := [];
    if s != [] {
      var h := s[|s| - 1];
      before := Cover(s[..|s| - 1], k);
      InitAndLast(s);
      if DedupKey(h) != k {
        WithoutFileKeepsKey(h);
        KeysAppend(HIT_NAMES, before, WithoutFile(h));
        before := before + [WithoutFile(h)];
      }
    }
  }

  lemma RoomNext(nm: Naming, s: seq<Hit>, h: Hit)
    ensures Room(nm, s + [h]) == Room(nm, s) + if Accepts(nm, s, h) then 1 else 0
  {
    assert (s + [h])[..|s|] == s;
  }

  // Different scores: nothing but the other keys need be there.
  lemma ScoreShows(lists: seq<seq<Hit>>, i: nat, j: nat, x: Hit, y: Hit)
    requires i < |lists| && j < |lists| && First(HIT_NAMES, lists[i], x) && First(HIT_NAMES, lists[j], y)
    requires DedupKey(x) == DedupKey(y) && x.score > y.score
    ensures !OrderNeverShows(HIT_NAMES, lists)
  {
    var before := Cover(Flatten(lists), DedupKey(x));
    var d := Dedup(HIT_NAMES, before);
    NamelessDedup(before);
    NamelessAbove(d, x.score);
    AboveAppend(d, x, x.score);
    AboveAppend(d, y, x.score);
    if FileOf(x) != "" {
      NamelessBag(Above(d, x.score), FileOf(x));
    }
    RoomNext(HIT_NAMES, Above(d, x.score), x);
    OrderShows(HIT_NAMES, before, lists, i, j, x, y, x.score);
  }

  lemma NamelessDedup(s: seq<Hit>)
    requires Nameless(s)
    ensures Nameless(Dedup(HIT_NAMES, s))
  {
    DedupKeepsFirst(HIT_NAMES, s);
  }

  // A doc id that no key is.
  lemma FreshKey(keys: set<string>) returns (k: string)
    ensures k !in keys && k != "" && TrimSpace(k) == k
  {
    var n := Longest(keys);
    k := seq(n + 1, _ => 'x');
  }

  lemma {:induction false} Longest(keys: set<string>) returns (n: nat)
    ensures forall k | k in keys :: |k| <= n
  {
    n := 0;
    if keys != {} {
      var k :| k in keys;
      var m := Longest(keys - {k});
      n := if |k| > m then |k| else m;
    }
  }

  // A hit with a new key, other than k, in a given file.
  lemma Filler(before: seq<Hit>, k: string, file: string, score: real) returns (h: Hit)
    requires k !in Keys(HIT_NAMES, before)
    ensures h.score == score && h.file == file && k !in Keys(HIT_NAMES, before + [h])
    ensures Dedup(HIT_NAMES, before + [h]) == Dedup(HIT_NAMES, before) + [h]
    ensures Keys(HIT_NAMES, before) <= Keys(HIT_NAMES, before + [h])
  {
    var id := FreshKey(Keys(HIT_NAMES, before) + {k});
    h := Hit("", file, "", score, "", id);
    KeysAppend(HIT_NAMES, before, h);
    DedupNext(HIT_NAMES, before, h);
  }

  // Different files: two other hits fill the file of one of them.
  lemma FileShows(lists: seq<seq<Hit>>, i: nat, j: nat, x: Hit, y: Hit)
    requires i < |lists| && j < |lists| && First(HIT_NAMES, lists[i], x) && First(HIT_NAMES, lists[j], y)
    requires DedupKey(x) == DedupKey(y) && x.score == y.score && FileOf(x) != FileOf(y) && FileOf(x) != ""
    ensures !OrderNeverShows(HIT_NAMES, lists)
  {
    var cover := Cover(Flatten(lists), DedupKey(x));
    var a := Filler(cover, DedupKey(x), x.file, x.score);
    var b := Filler(cover + [a], DedupKey(x), x.file, x.score);
    NamelessDedup(cover);
    FilledFile(Dedup(HIT_NAMES, cover), a, b, x, y);
    OrderShows(HIT_NAMES, cover + [a] + [b], lists, i, j, x, y, x.score);
  }

  // Behind two hits of its file a hit finds no room, where one of another file does.
  lemma FilledFile(d: seq<Hit>, a: Hit, b: Hit, x: Hit, y: Hit)
    requires Nameless(d) && FileOf(x) != FileOf(y) && FileOf(x) != ""
    requires FileOf(a) == FileOf(x) && FileOf(b) == FileOf(x)
    requires a.score == x.score && b.score == x.score && y.score == x.score
    ensures Room(HIT_NAMES, Above(d + [a] + [b] + [x], x.score))
         != Room(HIT_NAMES, Above(d + [a] + [b] + [y], x.score))
  {
    var t := x.score;
    var s := Above(d, t);
    NamelessAbove(d, t);
    AboveAppend(d, a, t);
    AboveAppend(d + [a], b, t);
    AboveAppend(d + [a] + [b], x, t);
    AboveAppend(d + [a] + [b], y, t);
    NamelessBag(s, FileOf(x));
    if FileOf(y) != "" {
      NamelessBag(s, FileOf(y));
    }
    GreedyAppend(HIT_NAMES, s, a, 0);
    GreedyAppend(HIT_NAMES, s + [a], b, 0);
    RoomNext(HIT_NAMES, s + [a] + [b], x);
    RoomNext(HIT_NAMES, s + [a] + [b], y);
  }

  // The order of arrival never shows exactly when first hits of a key agree.
  lemma ArrivalOrderIff(lists: seq<seq<Hit>>)
    ensures OrderNeverShows(HIT_NAMES, lists) <==> FirstsAgree(HIT_NAMES, lists)
  {
    if FirstsAgree(HIT_NAMES, lists) {
      forall before, p, q, topK: nat, x, y |
        && topK > 0 && multiset(p) == multiset(lists) && multiset(q) == multiset(lists)
        && Selected(HIT_NAMES, before + Flatten(p), topK, x) && Selected(HIT_NAMES, before + Flatten(q), topK, y)
        ensures Scores(x) == Scores(y)
      {
        ArrivalOrderDoesNotShow(HIT_NAMES, before, lists, p, q, topK, x, y);
      }
    } else {
      var i, j, a, b :|
        && 0 <= i < |lists| && 0 <= j < |lists| && i != j && First(HIT_NAMES, lists[i], a)
        && First(HIT_NAMES, lists[j], b) && HIT_NAMES.key(a) == HIT_NAMES.key(b) && !SameFace(HIT_NAMES, a, b);
      if a.score > b.score {
        ScoreShows(lists, i, j, a, b);
      } else if b.score > a.score {
        ScoreShows(lists, j, i, b, a);
      } else if FileOf(a) != "" {
        FileShows(lists, i, j, a, b);
      } else {
        FileShows(lists, j, i, b, a);
      }
    }
  }

  // With a shared key the first arrival wins, whatever it scores: two collections
  // that both know a document, each with its own score, are enough.
  lemma SharedKeyLetsOrderShow(nm: Naming, a: Hit, b: Hit, topK: nat)
    requires topK > 0 && nm.key(a) == nm.key(b)
    ensures Selected(nm, Flatten([[a], [b]]), topK, [a]) && Selected(nm, Flatten([[b], [a]]), topK, [b])
  {
    OnlyFirst(nm, a, b, topK);
    OnlyFirst(nm, b, a, topK);
  }

  lemma OnlyFirst(nm: Naming, a: Hit, b: Hit, topK: nat)
    requires topK > 0 && nm.key(a) == nm.key(b)
    ensures Selected(nm, Flatten([[a], [b]]), topK, [a])
  {
    FlattenPair(a, b);
    DedupPair(nm, a, b);
    SelectedSingle(nm, [a, b], a, topK);
  }

  lemma FlattenPair<T>(a: T, b: T)
    ensures Flatten([[a], [b]]) == [a, b]
  {
    assert [[a], [b]][..1] == [[a]] && [[a]][..0] == [];
    assert Flatten([[a]]) == [a];
    assert [a] + [b] == [a, b];
  }

  lemma DedupPair(nm: Naming, a: Hit, b: Hit)
    requires nm.key(a) == nm.key(b)
    ensures Dedup(nm, [a, b]) == [a]
  {
    assert [a, b][..1] == [a] && [a][..0] == [];
    assert Dedup(nm, [a]) == [a];
    assert a in [a] && nm.key(a) in Keys(nm, [a]);
  }

  lemma SelectedSingle(nm: Naming, results: seq<Hit>, a: Hit, topK: nat)
    requires topK > 0 && Dedup(nm, results) == [a]
    ensures Selected(nm, results, topK, [a])
  {
    assert [a][..0] == [];
    assert Greedy(nm, [a], topK) == [a];
    assert Sorted([a]);
  }
}
