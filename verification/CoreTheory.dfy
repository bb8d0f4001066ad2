// What every response guarantees, and what it may cost the executor.

module CoreTheory {
  import opened Model
  import opened Selection
  import opened SelectionTheory
  import opened SearchSpec
  import opened Core
  import SearchTheory

  // ---------- The parts of a request ----------

  // While overloaded, a request costs the executor plain searches only and leaves
  // the negative cache alone: the escalation that an empty plain search could have
  // led to is switched off.
  lemma {:induction false} OverloadCostsPlainSearches(s: Settings, req: Request, requested: string, rejected: bool,
                                                      collections: seq<string>, stored: map<string, SearchResult>,
                                                      parts: seq<Part>)
    requires PartsSpec(s, req, PlanFor(requested, true, rejected), collections, stored, parts)
    ensures SearchTheory.PlainCalls(Trace(parts))
    decreases |parts|
  {
    if parts != [] {
      var n, plan := |parts| - 1, PlanFor(requested, true, rejected);
      OverloadCostsPlainSearches(s, req, requested, rejected, collections[..n], stored, parts[..n]);
      if parts[n].x.ph.Some? {
        SearchTheory.PlainSearchStaysPlain(s, Normalized(s, CoreParams(s, req, plan, collections[n])),
                                           parts[n].x.ph.value, parts[n].x.out);
      }
    }
  }

  // What PartsSpec says of the modes alone.
  ghost predicate InMode(parts: seq<Part>, mode: string) {
    forall part | part in parts :: part.x.p.mode == mode
  }

  lemma InModeNext(parts: seq<Part>, part: Part, mode: string)
    requires InMode(parts, mode) && part.x.p.mode == mode
    ensures InMode(parts + [part], mode)
  {
  }

  // Every part is searched in the planned mode.
  lemma {:induction false} PartModes(s: Settings, req: Request, plan: Plan, collections: seq<string>,
                                     stored: map<string, SearchResult>, parts: seq<Part>)
    requires PartsSpec(s, req, plan, collections, stored, parts)
    ensures InMode(parts, plan.mode)
    decreases |parts|
  {
    if parts != [] {
      var n := |parts| - 1;
      PartModes(s, req, plan, collections[..n], stored, parts[..n]);
      InModeNext(parts[..n], parts[n], plan.mode);
      InitAndLast(parts);
    }
  }

  // ---------- The response ----------

  lemma {:induction false} MergedHits(parts: seq<Part>, h: Hit)
    ensures h in Merged(parts).hits <==>
              exists i :: 0 <= i < |parts| && parts[i].x.out.Found? && h in parts[i].x.out.result.results
  {
    if parts != [] {
      var init := parts[..|parts| - 1];
      MergedHits(init, h);
      if h in Merged(init).hits {
        var i :| 0 <= i < |init| && init[i].x.out.Found? && h in init[i].x.out.result.results;
        assert parts[i] == init[i];
      }
      if i :| 0 <= i < |parts| && parts[i].x.out.Found? && h in parts[i].x.out.result.results {
        assert i < |init| ==> init[i] == parts[i];
      }
    }
  }

  lemma SelectedIsShaped(s: Settings, req: Request, hits: seq<Hit>, topK: int, sel: seq<Hit>, out: seq<Hit>)
    requires Selected(HIT_NAMES, hits, topK, sel)
    requires out == if Capped(s, req, sel) then sel[..s.filesAllMaxHits] else sel
    ensures Sorted(out) && (topK > 0 ==> Feasible(HIT_NAMES, out, topK))
    ensures req.filesOnly && req.filesAll && s.filesAllMaxHits > 0 ==> |out| <= s.filesAllMaxHits
    ensures forall h | h in out :: h in hits
  {
    SelectedShape(HIT_NAMES, hits, topK, sel);
    DedupDistinct(HIT_NAMES, hits);
    SearchTheory.SameFiles(out, sel);
    forall h | h in out
      ensures h in hits
    {
      assert h in sel;
      SearchTheory.BagMember(sel, hits, h);
    }
  }

  // A response is sorted and within its limits, and every hit is one that some
  // collection's search answered with.
  lemma {:induction false} ResponseShape(s: Settings, req: Request, requested: string, plan: Plan, topK: int,
                                         parts: seq<Part>, r: Response)
    requires ResponseSpec(s, req, requested, plan, topK, Merged(parts), r)
    ensures Sorted(r.results)
    ensures topK > 0 ==> Feasible(HIT_NAMES, r.results, topK)
    ensures req.filesOnly && req.filesAll && s.filesAllMaxHits > 0 ==> |r.results| <= s.filesAllMaxHits
    ensures forall h | h in r.results ::
              exists i :: 0 <= i < |parts| && parts[i].x.out.Found? && h in parts[i].x.out.result.results
  {
    var m := Merged(parts);
    var sel :| Selected(HIT_NAMES, m.hits, topK, sel) && r == ResponseFor(s, req, requested, plan, m, sel);
    SelectedIsShaped(s, req, m.hits, topK, sel, r.results);
    forall h | h in r.results
      ensures exists i :: 0 <= i < |parts| && parts[i].x.out.Found? && h in parts[i].x.out.result.results
    {
      MergedHits(parts, h);
    }
  }

  // A response says it was served deep exactly when some collection was, and a
  // request for deep that was not served deep says so and why.
  lemma ServedHonestly(s: Settings, req: Request, requested: string, plan: Plan, topK: int, parts: seq<Part>,
                       r: Response)
    requires ResponseSpec(s, req, requested, plan, topK, Merged(parts), r)
    ensures r.servedMode == "deep" <==>
              exists i :: 0 <= i < |parts| && parts[i].x.out.Found? && parts[i].x.out.result.mode == MODE_QUERY
    ensures requested == "deep" && r.servedMode != "deep" ==> r.degraded && r.degradeReason != ""
    ensures plan.reason != "" ==> r.degraded && r.degradeReason != ""
  {
    MergedFacts(parts);
    SaysWhy(s, req, requested, plan, topK, Merged(parts), r);
  }

  lemma DeepMeansQuery(requested: string, modeUsed: string, fallback: bool, degraded: bool)
    ensures ServedMode(requested, modeUsed, fallback, degraded) == "deep" <==> modeUsed == MODE_QUERY
  {
    assert "broad"[0] != 'd' && "core"[0] != 'd';
  }

  lemma SaysWhy(s: Settings, req: Request, requested: string, plan: Plan, topK: int, m: Merge, r: Response)
    requires ResponseSpec(s, req, requested, plan, topK, m, r)
    ensures r.servedMode == "deep" <==> m.modeUsed == MODE_QUERY
    ensures requested == "deep" && r.servedMode != "deep" ==> r.degraded && r.degradeReason != ""
    ensures plan.reason != "" ==> r.degraded && r.degradeReason != ""
  {
    DeepMeansQuery(requested, if m.modeUsed == "" then MODE_SEARCH else m.modeUsed, m.fallback, m.degraded);
    assert |DEEP_REJECTED| > 0 && |FILES_CAPPED| > 0 && |MODE_SEARCH| == 6 && |MODE_QUERY| == 5;
  }

  // ---------- Merging loses nothing ----------

  // Lists i is what survived the filters of the search for collection i.
  ghost predicate MadeOf(s: Settings, req: Request, plan: Plan, collections: seq<string>, parts: seq<Part>,
                         lists: seq<seq<Hit>>) {
    && |lists| == |parts| == |collections|
    && forall i | 0 <= i < |parts| ::
         MadeAt(s, CoreParams(s, req, plan, collections[i]), parts[i], lists[i])
  }

  ghost predicate MadeAt(s: Settings, p: Params, part: Part, list: seq<Hit>) {
    part.x.out.Found? && Finalized(s, Normalized(s, p), list, part.x.out.result.results)
  }

  ghost function ResultsOf(parts: seq<Part>): seq<seq<Hit>>
    requires forall part | part in parts :: part.x.out.Found?
  {
    seq(|parts|, i requires 0 <= i < |parts| => parts[i].x.out.result.results)
  }

  lemma {:induction false} MergedIsFlat(parts: seq<Part>)
    requires forall part | part in parts :: part.x.out.Found?
    ensures Merged(parts).hits == Flatten(ResultsOf(parts))
  {
    if parts != [] {
      var n := |parts| - 1;
      assert forall part | part in parts[..n] :: part in parts;
      MergedIsFlat(parts[..n]);
      assert ResultsOf(parts)[..n] == ResultsOf(parts[..n]);
    }
  }

  // For a request for files alone, selecting within each collection and again on
  // the merge gives the scores of one selection over everything that survived
  // the collections' filters, as long as the collections share no dedup key.
  lemma MergeIsOneSelection(s: Settings, req: Request, requested: string, plan: Plan, collections: seq<string>,
                            parts: seq<Part>, lists: seq<seq<Hit>>, r: Response, direct: seq<Hit>)
    requires req.filesOnly && !req.filesAll
    requires MadeOf(s, req, plan, collections, parts, lists) && DisjointKeys(HIT_NAMES, lists)
    requires var topK := CoreParams(s, req, plan, "").n;
             && topK > 0
             && ResponseSpec(s, req, requested, plan, topK, Merged(parts), r)
             && Selected(HIT_NAMES, Flatten(lists), topK, direct)
    ensures Scores(r.results) == Scores(direct)
  {
    var topK := CoreParams(s, req, plan, "").n;
    forall i | 0 <= i < |parts|
      ensures Selected(HIT_NAMES, lists[i], topK, ResultsOf(parts)[i])
    {
      assert CoreParams(s, req, plan, collections[i]).n == topK;
    }
    MergedIsFlat(parts);
    var sel :| Selected(HIT_NAMES, Merged(parts).hits, topK, sel)
      && r == ResponseFor(s, req, requested, plan, Merged(parts), sel);
    TwoStageEqualsOneStage(HIT_NAMES, lists, topK, ResultsOf(parts), sel, direct);
  }

  lemma OneMoreMade(s: Settings, req: Request, plan: Plan, collections: seq<string>, parts: seq<Part>,
                    lists: seq<seq<Hit>>, list: seq<Hit>, n: nat)
    requires n + 1 == |parts| == |collections|
    requires MadeOf(s, req, plan, collections[..n], parts[..n], lists)
    requires MadeAt(s, CoreParams(s, req, plan, collections[n]), parts[n], list)
    ensures MadeOf(s, req, plan, collections, parts, lists + [list])
  {
    var more := lists + [list];
    forall i | 0 <= i < |parts|
      ensures MadeAt(s, CoreParams(s, req, plan, collections[i]), parts[i], more[i])
    {
      if i < n {
        assert MadeAt(s, CoreParams(s, req, plan, collections[..n][i]), parts[..n][i], lists[i]);
      }
    }
  }
}
