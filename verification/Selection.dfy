// internal/searchutil: DedupSortLimit, and the theory of what it selects.

module Selection {
  import opened Model
  import opened Text

  const MAX_PER_FILE := 2

  // The names DedupSortLimit goes by: a hit's dedup key and its file name. The
  // theory holds for any naming; HIT_NAMES is the one in the code.
  datatype Naming = Naming(key: Hit -> string, file: Hit -> string)

  function FileOf(h: Hit): string {
    TrimSpace(h.file)
  }

  function DedupKey(h: Hit): string {
    var id := TrimSpace(h.docID);
    if id != "" then id else
    var file := TrimSpace(h.file);
    if file != "" then file else h.title + "|" + h.snippet + "|" + FormatFixed(h.score, 4)
  }

  const HIT_NAMES := Naming(DedupKey, FileOf)

  // ---------- Specification ----------

  ghost function Keys(nm: Naming, s: seq<Hit>): set<string> {
    set h | h in s :: nm.key(h)
  }

  // The first hit of each key, in order.
  ghost function Dedup(nm: Naming, s: seq<Hit>): seq<Hit> {
    if s == [] then [] else
    var d, h := Dedup(nm, s[..|s| - 1]), s[|s| - 1];
    if nm.key(h) in Keys(nm, d) then d else d + [h]
  }

  ghost predicate Sorted(s: seq<Hit>) {
    forall i, j :: 0 <= i < j < |s| ==> s[i].score >= s[j].score
  }

  // How many hits of s each trimmed file name has.
  ghost function FileBag(nm: Naming, s: seq<Hit>): multiset<string> {
    if s == [] then multiset{} else FileBag(nm, s[..|s| - 1]) + multiset{nm.file(s[|s| - 1])}
  }

  ghost predicate Accepts(nm: Naming, g: seq<Hit>, h: Hit) {
    nm.file(h) == "" || FileBag(nm, g)[nm.file(h)] < MAX_PER_FILE
  }

  // The greedy pass over a sorted list.
  ghost function Greedy(nm: Naming, s: seq<Hit>, k: nat): (g: seq<Hit>) {
    if s == [] then [] else
    var g, h := Greedy(nm, s[..|s| - 1], k), s[|s| - 1];
    if |g| < k && Accepts(nm, g, h) then g + [h] else g
  }

  // out may be returned for results: sort.Slice is not stable, so any sorted
  // arrangement of the deduplicated hits may have fed the greedy pass.
  ghost predicate Selected(nm: Naming, results: seq<Hit>, topK: int, out: seq<Hit>) {
    exists sorted: seq<Hit> ::
      && Sorted(sorted)
      && multiset(sorted) == multiset(Dedup(nm, results))
      && out == if topK > 0 then Greedy(nm, sorted, topK) else sorted
  }

  // At most two hits of a named file, at most topK hits in all.
  ghost predicate Feasible(nm: Naming, pick: seq<Hit>, topK: nat) {
    && |pick| <= topK
    && forall f | f != "" :: FileBag(nm, pick)[f] <= MAX_PER_FILE
  }

  // The hits of s with score at least t.
  ghost function Above(s: seq<Hit>, t: real): seq<Hit> {
    if s == [] then [] else
    var a, h := Above(s[..|s| - 1], t), s[|s| - 1];
    if h.score >= t then a + [h] else a
  }

  ghost function Scores(s: seq<Hit>): seq<real> {
    seq(|s|, i requires 0 <= i < |s| => s[i].score)
  }

  // ---------- The code ----------

  // sort.Slice by descending score; callers learn only that the result is some
  // sorted permutation.
  method SortByScore(s: seq<Hit>) returns (r: seq<Hit>)
    ensures Sorted(r)
    ensures multiset(r) == multiset(s)
  {
    r := [];
    for i := 0 to |s|
      invariant Sorted(r)
      invariant multiset(r) == multiset(s[..i])
    {
      r := InsertByScore(r, s[i]);
      TakeOneMore(s, i);
    }
    assert s[..|s|] == s;
  }

  method InsertByScore(s: seq<Hit>, h: Hit) returns (r: seq<Hit>)
    requires Sorted(s)
    ensures Sorted(r)
    ensures multiset(r) == multiset(s) + multiset{h}
  {
    var i := 0;
    while i < |s| && s[i].score > h.score
      invariant 0 <= i <= |s|
      invariant forall j :: 0 <= j < i ==> s[j].score > h.score
    {
      i := i + 1;
    }
    r := s[..i] + [h] + s[i..];
    InsertAt(s, i, h);
  }

  lemma InsertAt(s: seq<Hit>, i: nat, h: Hit)
    requires Sorted(s) && i <= |s|
    requires forall j :: 0 <= j < i ==> s[j].score >= h.score
    requires i < |s| ==> s[i].score <= h.score
    ensures Sorted(s[..i] + [h] + s[i..])
    ensures multiset(s[..i] + [h] + s[i..]) == multiset(s) + multiset{h}
  {
    InsertAtBag(s, i, h);
  }

  lemma InsertAtBag<T>(s: seq<T>, i: nat, h: T)
    requires i <= |s|
    ensures multiset(s[..i] + [h] + s[i..]) == multiset(s) + multiset{h}
  {
    assert s == s[..i] + s[i..];
  }

  // The first loop of DedupSortLimit.
  method KeepFirst(nm: Naming, results: seq<Hit>) returns (deduped: seq<Hit>)
    ensures deduped == Dedup(nm, results)
  {
    var seen: set<string> := {};
    deduped := [];
    for i := 0 to |results|
      invariant deduped == Dedup(nm, results[..i])
      invariant seen == Keys(nm, deduped)
    {
      var r := results[i];
      assert results[..i + 1][..i] == results[..i];
      var key := nm.key(r);
      if key in seen {
        continue;
      }
      KeysAppend(nm, deduped, r);
      seen := seen + {key};
      deduped := deduped + [r];
    }
    assert results[..|results|] == results;
  }

  lemma KeysAppend(nm: Naming, s: seq<Hit>, h: Hit)
    ensures Keys(nm, s + [h]) == Keys(nm, s) + {nm.key(h)}
  {
    assert h in s + [h];
    forall x | x in s ensures x in s + [h] {
    }
  }

  ghost predicate CountsAgree(counts: map<string, nat>, bag: multiset<string>) {
    forall f | f != "" :: bag[f] == if f in counts then counts[f] else 0
  }

  lemma CountOneMore(nm: Naming, counts: map<string, nat>, s: seq<Hit>, h: Hit)
    requires CountsAgree(counts, FileBag(nm, s))
    ensures var f := nm.file(h);
            && (f == "" ==> CountsAgree(counts, FileBag(nm, s + [h])))
            && (f != "" ==> CountsAgree(counts[f := (if f in counts then counts[f] else 0) + 1], FileBag(nm, s + [h])))
  {
    GreedyAppend(nm, s, h, 0);
  }

  lemma GreedyAppend(nm: Naming, s: seq<Hit>, h: Hit, k: nat)
    ensures var g := Greedy(nm, s, k);
            Greedy(nm, s + [h], k) == if |g| < k && Accepts(nm, g, h) then g + [h] else g
    ensures FileBag(nm, s + [h]) == FileBag(nm, s) + multiset{nm.file(h)}
  {
    assert (s + [h])[..|s|] == s;
  }

  // The second loop of DedupSortLimit.
  method PickDiverse(nm: Naming, deduped: seq<Hit>, topK: nat) returns (diverse: seq<Hit>)
    requires topK > 0
    ensures diverse == Greedy(nm, deduped, topK)
  {
    var fileCounts: map<string, nat> := map[];
    diverse := [];
    for i := 0 to |deduped|
      invariant diverse == Greedy(nm, deduped[..i], topK)
      invariant |diverse| < topK
      invariant CountsAgree(fileCounts, FileBag(nm, diverse))
    {
      TakeOneMore(deduped, i);
      GreedyAppend(nm, deduped[..i], deduped[i], topK);
      fileCounts, diverse := PickOne(nm, fileCounts, diverse, deduped[i]);
      if |diverse| >= topK {
        GreedyStops(nm, deduped, i + 1, topK);
        return;
      }
    }
    assert deduped[..|deduped|] == deduped;
  }

  // The body of that loop: r is taken unless its file has had its share.
  method PickOne(nm: Naming, fileCounts: map<string, nat>, diverse: seq<Hit>, r: Hit)
    returns (counts: map<string, nat>, more: seq<Hit>)
    requires CountsAgree(fileCounts, FileBag(nm, diverse))
    ensures CountsAgree(counts, FileBag(nm, more))
    ensures more == if Accepts(nm, diverse, r) then diverse + [r] else diverse
  {
    counts, more := fileCounts, diverse;
    var file := nm.file(r);
    var count := if file in fileCounts then fileCounts[file] else 0;
    if file != "" && count >= MAX_PER_FILE {
      return;
    }
    CountOneMore(nm, fileCounts, diverse, r);
    if file != "" {
      counts := fileCounts[file := count + 1];
    }
    more := diverse + [r];
  }

  method DedupSortLimit(nm: Naming, results: seq<Hit>, topK: int) returns (out: seq<Hit>)
    ensures Selected(nm, results, topK, out)
  {
    var deduped := KeepFirst(nm, results);
    deduped := SortByScore(deduped);
    out := deduped;
    if topK > 0 {
      out := PickDiverse(nm, deduped, topK);
    }
  }

  // Once topK hits are chosen, the rest of the list adds none.
  lemma {:induction false} GreedyStops(nm: Naming, s: seq<Hit>, i: nat, k: nat)
    requires i <= |s| && |Greedy(nm, s[..i], k)| >= k
    ensures Greedy(nm, s, k) == Greedy(nm, s[..i], k)
  {
    if i < |s| {
      assert s[..|s| - 1][..i] == s[..i];
      GreedyStops(nm, s[..|s| - 1], i, k);
    } else {
      assert s[..i] == s;
    }
  }
}
