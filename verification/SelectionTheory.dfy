// What DedupSortLimit selects: greedy is optimal for "at most two per file, at
// most topK in all", its scores do not depend on tie order, and selecting per
// collection before selecting on the union loses nothing.
//
// The proofs count. For a threshold t, the number of selected hits scoring at
// least t is min(topK, Room(hits scoring at least t)), where Room is the size
// of the largest selection the per-file limit allows.

module SelectionTheory {
  import opened Model
  import opened Selection

  // ---------- Room: the rank function of the per-file limit ----------

  // The size of the largest part of s with at most two hits of a named file.
  ghost function Room(nm: Naming, s: seq<Hit>): nat {
    if s == [] then 0 else
    Room(nm, s[..|s| - 1]) + if Accepts(nm, s[..|s| - 1], s[|s| - 1]) then 1 else 0
  }

  // What the per-file limit leaves of n hits of file f.
  ghost function Clip(f: string, n: nat): nat {
    if f != "" && n > MAX_PER_FILE then MAX_PER_FILE else n
  }

  ghost predicate WithinLimit(bag: multiset<string>) {
    forall f | f != "" :: bag[f] <= MAX_PER_FILE
  }

  lemma {:induction false} FileBagSize(nm: Naming, s: seq<Hit>)
    ensures |FileBag(nm, s)| == |s|
  {
    if s != [] {
      FileBagSize(nm, s[..|s| - 1]);
    }
  }

  lemma {:induction false} FileBagConcat(nm: Naming, a: seq<Hit>, b: seq<Hit>)
    ensures FileBag(nm, a + b) == FileBag(nm, a) + FileBag(nm, b)
  {
    if b == [] {
      EmptyRight(a);
    } else {
      FileBagConcat(nm, a, b[..|b| - 1]);
      InitOfConcat(a, b);
    }
  }

  // No choice of files within the limit is larger than Room.
  lemma {:induction false} RoomBound(nm: Naming, p: multiset<string>, s: seq<Hit>)
    requires p <= FileBag(nm, s) && WithinLimit(p)
    ensures |p| <= Room(nm, s)
  {
    if s != [] {
      var init, f := s[..|s| - 1], nm.file(s[|s| - 1]);
      if p[f] <= FileBag(nm, init)[f] {
        RoomBound(nm, p, init);
      } else {
        RoomBound(nm, p - multiset{f}, init);
      }
    }
  }

  // g holds exactly what the limit leaves of s.
  ghost predicate Fills(g: multiset<string>, s: multiset<string>) {
    forall f :: g[f] == Clip(f, s[f])
  }

  lemma FillsOneMore(g: multiset<string>, s: multiset<string>, file: string)
    requires Fills(g, s)
    ensures Fills(if file == "" || g[file] < MAX_PER_FILE then g + multiset{file} else g, s + multiset{file})
  {
  }

  // The greedy pass keeps within the limits, and unless it filled up it keeps
  // everything the per-file limit leaves.
  lemma {:induction false} GreedyFills(nm: Naming, s: seq<Hit>, k: nat)
    ensures |Greedy(nm, s, k)| == Min(k, Room(nm, s))
    ensures |Greedy(nm, s, k)| < k ==> Fills(FileBag(nm, Greedy(nm, s, k)), FileBag(nm, s))
  {
    if s != [] {
      var init, h := s[..|s| - 1], s[|s| - 1];
      GreedyFills(nm, init, k);
      var g := Greedy(nm, init, k);
      GreedyAppend(nm, g, h, k);
      if |g| < k {
        FillsOneMore(FileBag(nm, g), FileBag(nm, init), nm.file(h));
      }
    }
  }

  lemma {:induction false} GreedyFeasible(nm: Naming, s: seq<Hit>, k: nat)
    ensures Feasible(nm, Greedy(nm, s, k), k)
    ensures FileBag(nm, Greedy(nm, s, k)) <= FileBag(nm, s)
  {
    if s != [] {
      var init, h := s[..|s| - 1], s[|s| - 1];
      GreedyFeasible(nm, init, k);
      GreedyAppend(nm, Greedy(nm, init, k), h, k);
    }
  }

  // Room depends only on what the limit leaves of each file.
  lemma RoomMonotone(nm: Naming, a: seq<Hit>, b: seq<Hit>)
    requires forall f :: Clip(f, FileBag(nm, a)[f]) <= Clip(f, FileBag(nm, b)[f])
    ensures Room(nm, a) <= Room(nm, b)
  {
    var k := Room(nm, a) + 1;
    var g := Greedy(nm, a, k);
    GreedyFills(nm, a, k);
    GreedyFeasible(nm, a, k);
    assert FileBag(nm, g) <= FileBag(nm, b);
    FileBagSize(nm, g);
    RoomBound(nm, FileBag(nm, g), b);
  }

  // ---------- Thresholds ----------

  lemma {:induction false} AboveSorted(s: seq<Hit>, t: real)
    requires Sorted(s)
    ensures var n := |Above(s, t)|;
            && n <= |s|
            && (forall i :: 0 <= i < n ==> s[i].score >= t)
            && (forall i :: n <= i < |s| ==> s[i].score < t)
            && Above(s, t) == s[..n]
  {
    if s != [] {
      AboveSorted(s[..|s| - 1], t);
    }
  }

  lemma {:induction false} AboveConcat(a: seq<Hit>, b: seq<Hit>, t: real)
    ensures Above(a + b, t) == Above(a, t) + Above(b, t)
  {
    if b == [] {
      EmptyRight(a);
    } else {
      AboveConcat(a, b[..|b| - 1], t);
      InitOfConcat(a, b);
    }
  }

  lemma {:induction false} AboveCounts(s: seq<Hit>, t: real, h: Hit)
    ensures multiset(Above(s, t))[h] == if h.score >= t then multiset(s)[h] else 0
  {
    if s != [] {
      AboveCounts(s[..|s| - 1], t, h);
      InitAndLast(s);
    }
  }

  lemma AboveBag(a: seq<Hit>, b: seq<Hit>, t: real)
    requires multiset(a) <= multiset(b)
    ensures multiset(Above(a, t)) <= multiset(Above(b, t))
  {
    forall h: Hit
      ensures multiset(Above(a, t))[h] <= multiset(Above(b, t))[h]
    {
      AboveCounts(a, t, h);
      AboveCounts(b, t, h);
    }
  }

  lemma {:induction false} FileBagMonotone(nm: Naming, a: seq<Hit>, b: seq<Hit>)
    requires multiset(a) <= multiset(b)
    ensures FileBag(nm, a) <= FileBag(nm, b)
  {
    if a != [] {
      var init, h := a[..|a| - 1], a[|a| - 1];
      var i, rest := WithoutOne(nm, a, b);
      FileBagMonotone(nm, init, rest);
    }
  }

  lemma WithoutOne(nm: Naming, a: seq<Hit>, b: seq<Hit>) returns (i: nat, rest: seq<Hit>)
    requires a != [] && multiset(a) <= multiset(b)
    ensures multiset(a[..|a| - 1]) <= multiset(rest)
    ensures FileBag(nm, b) == FileBag(nm, rest) + multiset{nm.file(a[|a| - 1])}
  {
    var h := a[|a| - 1];
    InitAndLast(a);
    assert h in multiset(b);
    i := TakeOut(b, h);
    rest := b[..i] + b[i + 1..];
    CancelOne(multiset(a[..|a| - 1]), multiset(rest), h);
    FileBagConcat(nm, b[..i] + [h], b[i + 1..]);
    FileBagConcat(nm, b[..i], b[i + 1..]);
    GreedyAppend(nm, b[..i], h, 0);
  }

  lemma {:induction false} GreedySubset(nm: Naming, s: seq<Hit>, k: nat)
    ensures multiset(Greedy(nm, s, k)) <= multiset(s)
    ensures k > 0 && s != [] ==> Greedy(nm, s, k) != []
  {
    if s != [] {
      GreedySubset(nm, s[..|s| - 1], k);
      InitAndLast(s);
    }
  }

  lemma {:induction false} GreedySorted(nm: Naming, s: seq<Hit>, k: nat)
    requires Sorted(s)
    ensures Sorted(Greedy(nm, s, k))
  {
    if s != [] {
      var init, h := s[..|s| - 1], s[|s| - 1];
      GreedySorted(nm, init, k);
      GreedySubset(nm, init, k);
      forall x | x in Greedy(nm, init, k)
        ensures x.score >= h.score
      {
        assert x in multiset(init);
      }
    }
  }

  lemma AboveAppend(s: seq<Hit>, h: Hit, t: real)
    ensures Above(s + [h], t) == if h.score >= t then Above(s, t) + [h] else Above(s, t)
  {
    assert (s + [h])[..|s|] == s;
  }

  lemma {:induction false} AboveAll(s: seq<Hit>, t: real)
    requires forall h :: h in s ==> h.score >= t
    ensures Above(s, t) == s
  {
    if s != [] {
      AboveAll(s[..|s| - 1], t);
      InitAndLast(s);
    }
  }

  lemma AboveGreedyAll(nm: Naming, s: seq<Hit>, k: nat, t: real)
    requires forall h :: h in s ==> h.score >= t
    ensures Above(Greedy(nm, s, k), t) == Greedy(nm, s, k)
  {
    GreedySubset(nm, s, k);
    forall h | h in Greedy(nm, s, k)
      ensures h.score >= t
    {
      assert h in multiset(s);
    }
    AboveAll(Greedy(nm, s, k), t);
  }

  // Cutting a sorted list at a threshold commutes with the greedy pass.
  lemma {:induction false} GreedyAbove(nm: Naming, s: seq<Hit>, k: nat, t: real)
    requires Sorted(s)
    ensures Above(Greedy(nm, s, k), t) == Greedy(nm, Above(s, t), k)
  {
    if s != [] {
      var init, h := s[..|s| - 1], s[|s| - 1];
      if h.score >= t {
        AboveAll(s, t);
        AboveGreedyAll(nm, s, k, t);
      } else {
        GreedyAbove(nm, init, k, t);
        var g := Greedy(nm, init, k);
        assert Greedy(nm, s, k) == g || Greedy(nm, s, k) == g + [h];
        AboveAppend(g, h, t);
      }
    }
  }

  // Counting at every threshold compares score lists position by position.
  lemma {:induction false} CountsDominate(x: seq<Hit>, y: seq<Hit>)
    requires Sorted(x) && Sorted(y)
    requires forall t :: |Above(x, t)| <= |Above(y, t)|
    ensures |x| <= |y|
    ensures forall i :: 0 <= i < |x| ==> x[i].score <= y[i].score
  {
    forall i | 0 <= i < |x|
      ensures i < |y| && x[i].score <= y[i].score
    {
      AboveSorted(x, x[i].score);
      AboveSorted(y, x[i].score);
    }
    assert x != [] ==> x[|x| - 1].score <= y[|x| - 1].score;
  }

  // ---------- Every outcome of DedupSortLimit ----------

  ghost predicate DistinctKeys(nm: Naming, s: seq<Hit>) {
    forall i, j :: 0 <= i < j < |s| ==> nm.key(s[i]) != nm.key(s[j])
  }

  // h is the first hit of its key in s.
  ghost predicate First(nm: Naming, s: seq<Hit>, h: Hit) {
    exists i :: 0 <= i < |s| && s[i] == h && nm.key(h) !in Keys(nm, s[..i])
  }

  lemma FirstAppend(nm: Naming, s: seq<Hit>, x: Hit, h: Hit)
    ensures First(nm, s + [x], h) <==> First(nm, s, h) || (h == x && nm.key(x) !in Keys(nm, s))
  {
    assert (s + [x])[..|s|] == s;
    assert forall i :: 0 <= i <= |s| ==> (s + [x])[..i] == s[..i];
    if First(nm, s, h) {
      var i :| 0 <= i < |s| && s[i] == h && nm.key(h) !in Keys(nm, s[..i]);
      assert (s + [x])[i] == h;
    }
    if h == x && nm.key(x) !in Keys(nm, s) {
      assert (s + [x])[|s|] == h;
    }
  }

  // Dedup keeps exactly the hits that came first under their key.
  lemma {:induction false} DedupKeepsFirst(nm: Naming, s: seq<Hit>)
    ensures forall h :: h in Dedup(nm, s) <==> First(nm, s, h)
    ensures Keys(nm, Dedup(nm, s)) == Keys(nm, s)
  {
    if s != [] {
      var init, x := s[..|s| - 1], s[|s| - 1];
      DedupKeepsFirst(nm, init);
      InitAndLast(s);
      KeysAppend(nm, init, x);
      KeysAppend(nm, Dedup(nm, init), x);
      forall h
        ensures h in Dedup(nm, s) <==> First(nm, s, h)
      {
        FirstAppend(nm, init, x, h);
      }
    }
  }

  lemma {:induction false} DedupDistinct(nm: Naming, s: seq<Hit>)
    ensures DistinctKeys(nm, Dedup(nm, s))
    ensures multiset(Dedup(nm, s)) <= multiset(s)
  {
    if s != [] {
      var d, h := Dedup(nm, s[..|s| - 1]), s[|s| - 1];
      DedupDistinct(nm, s[..|s| - 1]);
      InitAndLast(s);
      forall i | 0 <= i < |d|
        ensures nm.key(d[i]) in Keys(nm, d)
      {
      }
    }
  }

  // The number of selected hits at a threshold, whatever the tie order was.
  lemma SelectedCount(nm: Naming, results: seq<Hit>, topK: nat, out: seq<Hit>, t: real)
    requires topK > 0 && Selected(nm, results, topK, out)
    ensures Sorted(out)
    ensures |Above(out, t)| == Min(topK, Room(nm, Above(Dedup(nm, results), t)))
  {
    var d := Dedup(nm, results);
    var sorted: seq<Hit> :| Sorted(sorted) && multiset(sorted) == multiset(d) && out == Greedy(nm, sorted, topK);
    GreedySorted(nm, sorted, topK);
    GreedyAbove(nm, sorted, topK, t);
    GreedyFills(nm, Above(sorted, t), topK);
    AboveBag(sorted, d, t);
    AboveBag(d, sorted, t);
    FileBagMonotone(nm, Above(sorted, t), Above(d, t));
    FileBagMonotone(nm, Above(d, t), Above(sorted, t));
    RoomMonotone(nm, Above(sorted, t), Above(d, t));
    RoomMonotone(nm, Above(d, t), Above(sorted, t));
  }

  // Everything else a caller relies on.
  lemma SelectedShape(nm: Naming, results: seq<Hit>, topK: int, out: seq<Hit>)
    requires Selected(nm, results, topK, out)
    ensures Sorted(out)
    ensures multiset(out) <= multiset(Dedup(nm, results))
    ensures topK > 0 ==> Feasible(nm, out, topK)
    ensures topK <= 0 ==> multiset(out) == multiset(Dedup(nm, results))
    ensures results != [] ==> out != []
  {
    var d := Dedup(nm, results);
    var sorted: seq<Hit> :| Sorted(sorted) && multiset(sorted) == multiset(d)
                            && out == if topK > 0 then Greedy(nm, sorted, topK) else sorted;
    if topK > 0 {
      GreedySorted(nm, sorted, topK);
      GreedySubset(nm, sorted, topK);
      GreedyFeasible(nm, sorted, topK);
    }
    if results != [] {
      DedupKeepsFirst(nm, results);
      assert nm.key(results[0]) in Keys(nm, results);
      assert |multiset(sorted)| == |multiset(d)|;
    }
  }

  // ---------- Main theorems ----------

  // Greedy selection is optimal: any other selection within the limits is no
  // longer, and its i-th best score is no better.
  lemma GreedyIsOptimal(nm: Naming, results: seq<Hit>, topK: nat, out: seq<Hit>, pick: seq<Hit>)
    requires topK > 0 && Selected(nm, results, topK, out)
    requires multiset(pick) <= multiset(Dedup(nm, results)) && Feasible(nm, pick, topK) && Sorted(pick)
    ensures |pick| <= |out|
    ensures forall i :: 0 <= i < |pick| ==> pick[i].score <= out[i].score
  {
    forall t
      ensures |Above(pick, t)| <= |Above(out, t)|
    {
      SelectedCount(nm, results, topK, out, t);
      AboveSorted(pick, t);
      FileBagSize(nm, Above(pick, t));
      AboveBag(pick, Dedup(nm, results), t);
      FileBagMonotone(nm, Above(pick, t), Above(Dedup(nm, results), t));
      AboveBag(pick, pick, t);
      assert multiset(Above(pick, t)) <= multiset(pick) by {
        forall h: Hit
          ensures multiset(Above(pick, t))[h] <= multiset(pick)[h]
        {
          AboveCounts(pick, t, h);
        }
      }
      FileBagMonotone(nm, Above(pick, t), pick);
      RoomBound(nm, FileBag(nm, Above(pick, t)), Above(Dedup(nm, results), t));
    }
    SelectedCount(nm, results, topK, out, 0.0);
    CountsDominate(pick, out);
  }

  lemma SameCountsSameScores(x: seq<Hit>, y: seq<Hit>)
    requires Sorted(x) && Sorted(y)
    requires forall t :: |Above(x, t)| == |Above(y, t)|
    ensures Scores(x) == Scores(y)
  {
    CountsDominate(x, y);
    CountsDominate(y, x);
  }

  // At every score, a and b have the same files.
  ghost predicate SameFaces(nm: Naming, a: seq<Hit>, b: seq<Hit>) {
    forall t :: FileBag(nm, Above(a, t)) == FileBag(nm, Above(b, t))
  }

  // Scores and files decide the scores that are selected.
  lemma FacesDecideScores(nm: Naming, a: seq<Hit>, b: seq<Hit>, topK: nat, x: seq<Hit>, y: seq<Hit>)
    requires topK > 0 && SameFaces(nm, Dedup(nm, a), Dedup(nm, b))
    requires Selected(nm, a, topK, x) && Selected(nm, b, topK, y)
    ensures Scores(x) == Scores(y)
  {
    forall t
      ensures |Above(x, t)| == |Above(y, t)|
    {
      SelectedCount(nm, a, topK, x, t);
      SelectedCount(nm, b, topK, y, t);
      RoomMonotone(nm, Above(Dedup(nm, a), t), Above(Dedup(nm, b), t));
      RoomMonotone(nm, Above(Dedup(nm, b), t), Above(Dedup(nm, a), t));
    }
    SelectedCount(nm, a, topK, x, 0.0);
    SelectedCount(nm, b, topK, y, 0.0);
    SameCountsSameScores(x, y);
  }

  // Any two outcomes for lists with the same deduplicated hits have the same
  // scores: neither tie order nor list order shows.
  lemma ScoresAreUnique(nm: Naming, a: seq<Hit>, b: seq<Hit>, topK: nat, x: seq<Hit>, y: seq<Hit>)
    requires topK > 0
    requires multiset(Dedup(nm, a)) == multiset(Dedup(nm, b))
    requires Selected(nm, a, topK, x) && Selected(nm, b, topK, y)
    ensures Scores(x) == Scores(y)
  {
    forall t
      ensures FileBag(nm, Above(Dedup(nm, a), t)) == FileBag(nm, Above(Dedup(nm, b), t))
    {
      AboveBag(Dedup(nm, a), Dedup(nm, b), t);
      AboveBag(Dedup(nm, b), Dedup(nm, a), t);
      FileBagMonotone(nm, Above(Dedup(nm, a), t), Above(Dedup(nm, b), t));
      FileBagMonotone(nm, Above(Dedup(nm, b), t), Above(Dedup(nm, a), t));
    }
    FacesDecideScores(nm, a, b, topK, x, y);
  }

  // ---------- Several collections ----------

  ghost predicate DisjointKeys(nm: Naming, lists: seq<seq<Hit>>) {
    forall i, j, a, b | 0 <= i < j < |lists| && a in lists[i] && b in lists[j] :: nm.key(a) != nm.key(b)
  }

  lemma {:induction false} InFlatten(lists: seq<seq<Hit>>, h: Hit)
    ensures h in Flatten(lists) <==> exists i :: 0 <= i < |lists| && h in lists[i]
  {
    if lists != [] {
      InFlatten(lists[..|lists| - 1], h);
    }
  }

  lemma {:induction false} DedupConcat(nm: Naming, a: seq<Hit>, b: seq<Hit>)
    requires forall x, y | x in a && y in b :: nm.key(x) != nm.key(y)
    ensures Dedup(nm, a + b) == Dedup(nm, a) + Dedup(nm, b)
  {
    if b == [] {
      EmptyRight(a);
    } else {
      var init, h := b[..|b| - 1], b[|b| - 1];
      DedupConcat(nm, a, init);
      InitOfConcat(a, b);
      DedupKeepsFirst(nm, a);
      KeysConcat(nm, Dedup(nm, a), Dedup(nm, init));
    }
  }

  lemma KeysConcat(nm: Naming, a: seq<Hit>, b: seq<Hit>)
    ensures Keys(nm, a + b) == Keys(nm, a) + Keys(nm, b)
  {
    forall h | h in a || h in b
      ensures h in a + b
    {
    }
  }

  ghost function DedupEach(nm: Naming, lists: seq<seq<Hit>>): (ds: seq<seq<Hit>>) {
    seq(|lists|, i requires 0 <= i < |lists| => Dedup(nm, lists[i]))
  }

  lemma DedupEachAppend(nm: Naming, a: seq<seq<Hit>>, b: seq<Hit>)
    ensures DedupEach(nm, a + [b]) == DedupEach(nm, a) + [Dedup(nm, b)]
  {
  }

  // With disjoint keys, deduplicating the union deduplicates each part.
  lemma {:induction false} DedupUnion(nm: Naming, lists: seq<seq<Hit>>)
    requires DisjointKeys(nm, lists)
    ensures Dedup(nm, Flatten(lists)) == Flatten(DedupEach(nm, lists))
  {
    if lists != [] {
      var init, last := lists[..|lists| - 1], lists[|lists| - 1];
      DedupUnion(nm, init);
      forall x, y | x in Flatten(init) && y in last
        ensures nm.key(x) != nm.key(y)
      {
        InFlatten(init, x);
      }
      DedupConcat(nm, Flatten(init), last);
      DedupEachAppend(nm, init, last);
      InitAndLast(lists);
      FlattenAppend(DedupEach(nm, init), Dedup(nm, last));
    }
  }

  ghost predicate SelectedEach(nm: Naming, lists: seq<seq<Hit>>, topK: nat, outs: seq<seq<Hit>>) {
    && |outs| == |lists|
    && forall i :: 0 <= i < |lists| ==> Selected(nm, lists[i], topK, outs[i])
  }

  ghost function AboveEach(ls: seq<seq<Hit>>, t: real): seq<seq<Hit>> {
    seq(|ls|, i requires 0 <= i < |ls| => Above(ls[i], t))
  }

  lemma {:induction false} AboveFlatten(ls: seq<seq<Hit>>, t: real)
    ensures Above(Flatten(ls), t) == Flatten(AboveEach(ls, t))
  {
    if ls != [] {
      var init := ls[..|ls| - 1];
      AboveFlatten(init, t);
      AboveConcat(Flatten(init), ls[|ls| - 1], t);
      assert AboveEach(ls, t)[..|init|] == AboveEach(init, t);
    }
  }

  // g is a greedy choice from hits with the files of p.
  ghost predicate Chosen(nm: Naming, g: seq<Hit>, p: seq<Hit>, k: nat) {
    && |g| <= k
    && WithinLimit(FileBag(nm, g))
    && FileBag(nm, g) <= FileBag(nm, p)
    && (|g| < k ==> Fills(FileBag(nm, g), FileBag(nm, p)))
  }

  ghost predicate SameClip(a: multiset<string>, b: multiset<string>) {
    forall f :: Clip(f, a[f]) == Clip(f, b[f])
  }

  lemma SameClipSum(a: multiset<string>, b: multiset<string>, x: multiset<string>, y: multiset<string>)
    requires SameClip(a, b) && Fills(x, y)
    ensures SameClip(a + x, b + y)
  {
    forall f
      ensures Clip(f, (a + x)[f]) == Clip(f, (b + y)[f])
    {
      assert Clip(f, a[f]) == Clip(f, b[f]) && x[f] == Clip(f, y[f]);
    }
  }

  lemma {:induction false} UnionClips(nm: Naming, gs: seq<seq<Hit>>, ps: seq<seq<Hit>>, k: nat)
    requires |gs| == |ps|
    requires forall i :: 0 <= i < |gs| ==> Chosen(nm, gs[i], ps[i], k) && |gs[i]| < k
    ensures SameClip(FileBag(nm, Flatten(gs)), FileBag(nm, Flatten(ps)))
  {
    if gs != [] {
      var n := |gs| - 1;
      UnionClips(nm, gs[..n], ps[..n], k);
      FileBagConcat(nm, Flatten(gs[..n]), gs[n]);
      FileBagConcat(nm, Flatten(ps[..n]), ps[n]);
      SameClipSum(FileBag(nm, Flatten(gs[..n])), FileBag(nm, Flatten(ps[..n])),
                  FileBag(nm, gs[n]), FileBag(nm, ps[n]));
    }
  }

  lemma PartInUnion(nm: Naming, ls: seq<seq<Hit>>, i: nat)
    requires i < |ls|
    ensures FileBag(nm, ls[i]) <= FileBag(nm, Flatten(ls))
  {
    FlattenAt(ls, i);
    FileBagConcat(nm, Flatten(ls[..i]) + ls[i], Flatten(ls[i + 1..]));
    FileBagConcat(nm, Flatten(ls[..i]), ls[i]);
  }

  // Choosing greedily from each part leaves the union as much room as before,
  // up to k.
  lemma UnionOfChoices(nm: Naming, gs: seq<seq<Hit>>, ps: seq<seq<Hit>>, k: nat)
    requires |gs| == |ps|
    requires forall i :: 0 <= i < |gs| ==> Chosen(nm, gs[i], ps[i], k)
    ensures Min(k, Room(nm, Flatten(gs))) == Min(k, Room(nm, Flatten(ps)))
  {
    if i :| 0 <= i < |gs| && |gs[i]| == k {
      PartInUnion(nm, gs, i);
      PartInUnion(nm, ps, i);
      FileBagSize(nm, gs[i]);
      RoomBound(nm, FileBag(nm, gs[i]), Flatten(gs));
      RoomBound(nm, FileBag(nm, gs[i]), Flatten(ps));
    } else {
      UnionClips(nm, gs, ps, k);
      RoomMonotone(nm, Flatten(gs), Flatten(ps));
      RoomMonotone(nm, Flatten(ps), Flatten(gs));
    }
  }

  lemma SelectedIsChosen(nm: Naming, list: seq<Hit>, topK: nat, out: seq<Hit>, t: real)
    requires topK > 0 && Selected(nm, list, topK, out)
    ensures Chosen(nm, Above(out, t), Above(Dedup(nm, list), t), topK)
  {
    var d := Dedup(nm, list);
    var sorted: seq<Hit> :| Sorted(sorted) && multiset(sorted) == multiset(d) && out == Greedy(nm, sorted, topK);
    GreedyAbove(nm, sorted, topK, t);
    GreedyFills(nm, Above(sorted, t), topK);
    GreedyFeasible(nm, Above(sorted, t), topK);
    AboveBag(sorted, d, t);
    AboveBag(d, sorted, t);
    FileBagMonotone(nm, Above(sorted, t), Above(d, t));
    FileBagMonotone(nm, Above(d, t), Above(sorted, t));
  }

  // What was selected per collection has distinct keys over all collections.
  lemma SelectedStaysDistinct(nm: Naming, lists: seq<seq<Hit>>, topK: nat, outs: seq<seq<Hit>>)
    requires topK > 0 && DisjointKeys(nm, lists) && SelectedEach(nm, lists, topK, outs)
    ensures DisjointKeys(nm, outs)
    ensures DedupEach(nm, outs) == outs
  {
    forall i | 0 <= i < |outs|
      ensures forall h :: h in outs[i] ==> h in lists[i]
      ensures Dedup(nm, outs[i]) == outs[i]
    {
      SelectedShape(nm, lists[i], topK, outs[i]);
      DedupDistinct(nm, lists[i]);
      forall h | h in outs[i]
        ensures h in lists[i]
      {
        assert h in multiset(outs[i]) && h in multiset(lists[i]);
      }
      DistinctSubset(nm, outs[i], Dedup(nm, lists[i]));
      DedupOfDistinct(nm, outs[i]);
    }
  }

  lemma DistinctSubset(nm: Naming, a: seq<Hit>, b: seq<Hit>)
    requires DistinctKeys(nm, b) && multiset(a) <= multiset(b)
    ensures DistinctKeys(nm, a)
  {
    forall i, j | 0 <= i < j < |a|
      ensures nm.key(a[i]) != nm.key(a[j])
    {
      assert a[i] in multiset(b) && a[j] in multiset(b);
      if a[i] == a[j] {
        TwiceInBag(a, i, j);
        OnceInBag(nm, b, a[i]);
      }
    }
  }

  lemma TwiceInBag(a: seq<Hit>, i: nat, j: nat)
    requires i < j < |a| && a[i] == a[j]
    ensures multiset(a)[a[i]] >= 2
  {
    assert a == a[..j] + a[j..];
    assert a[i] in a[..j] && a[i] in a[j..];
  }

  lemma {:induction false} OnceInBag(nm: Naming, b: seq<Hit>, h: Hit)
    requires DistinctKeys(nm, b)
    ensures multiset(b)[h] <= 1
  {
    if h in b {
      var i := TakeOut(b, h);
      assert h !in b[..i] + b[i + 1..];
      assert h !in multiset(b[..i] + b[i + 1..]);
    }
  }

  lemma {:induction false} DedupOfDistinct(nm: Naming, s: seq<Hit>)
    requires DistinctKeys(nm, s)
    ensures Dedup(nm, s) == s
  {
    if s != [] {
      DedupOfDistinct(nm, s[..|s| - 1]);
      InitAndLast(s);
    }
  }

  // Two-stage selection: selecting in each collection and again on the
  // concatenation gives the scores of selecting once on everything, whichever
  // files the collections share.
  lemma TwoStageEqualsOneStage(nm: Naming, lists: seq<seq<Hit>>, topK: nat,
                               outs: seq<seq<Hit>>, merged: seq<Hit>, direct: seq<Hit>)
    requires topK > 0 && DisjointKeys(nm, lists)
    requires SelectedEach(nm, lists, topK, outs)
    requires Selected(nm, Flatten(outs), topK, merged)
    requires Selected(nm, Flatten(lists), topK, direct)
    ensures Scores(merged) == Scores(direct)
  {
    DedupUnion(nm, lists);
    SelectedStaysDistinct(nm, lists, topK, outs);
    DedupUnion(nm, outs);
    var ds := DedupEach(nm, lists);
    forall t
      ensures |Above(merged, t)| == |Above(direct, t)|
    {
      SelectedCount(nm, Flatten(outs), topK, merged, t);
      SelectedCount(nm, Flatten(lists), topK, direct, t);
      forall i | 0 <= i < |outs|
        ensures Chosen(nm, AboveEach(outs, t)[i], AboveEach(ds, t)[i], topK)
      {
        SelectedIsChosen(nm, lists[i], topK, outs[i], t);
      }
      UnionOfChoices(nm, AboveEach(outs, t), AboveEach(ds, t), topK);
      AboveFlatten(outs, t);
      AboveFlatten(ds, t);
    }
    SelectedCount(nm, Flatten(outs), topK, merged, 0.0);
    SelectedCount(nm, Flatten(lists), topK, direct, 0.0);
    SameCountsSameScores(merged, direct);
  }

  lemma FlattenAt<T>(b: seq<seq<T>>, i: nat)
    requires i < |b|
    ensures Flatten(b) == Flatten(b[..i]) + b[i] + Flatten(b[i + 1..])
  {
    SplitAround(b, i);
    FlattenConcat(b[..i] + [b[i]], b[i + 1..]);
    FlattenAppend(b[..i], b[i]);
  }

  lemma FlattenAppend<T>(b: seq<seq<T>>, x: seq<T>)
    ensures Flatten(b + [x]) == Flatten(b) + x
  {
    assert (b + [x])[..|b|] == b;
  }

  lemma {:induction false} FlattenConcat<T>(a: seq<seq<T>>, b: seq<seq<T>>)
    ensures Flatten(a + b) == Flatten(a) + Flatten(b)
  {
    if b == [] {
      EmptyRight(a);
    } else {
      var init, last := b[..|b| - 1], b[|b| - 1];
      FlattenConcat(a, init);
      InitOfConcat(a, b);
      Associative(Flatten(a), Flatten(init), last);
    }
  }
}
