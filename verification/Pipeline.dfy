// The result pipeline of the orchestrator: filters, cleaning, finalization.

module Pipeline {
  import opened Model
  import opened Selection
  import opened Snippet
  import opened SearchSpec

  // filterExclude
  method FilterExclude(lib: Lib, hits: seq<Hit>, col: Collection) returns (filtered: seq<Hit>)
    ensures filtered == Unexcluded(lib, col, hits)
  {
    if |col.exclude| == 0 {
      NothingExcluded(lib, col, hits);
      return hits;
    }
    filtered := [];
    for i := 0 to |hits|
      invariant filtered == Unexcluded(lib, col, hits[..i])
    {
      UnexcludedAppend(lib, col, hits[..i], hits[i]);
      TakeOneMore(hits, i);
      var excluded := false;
      for k := 0 to |col.exclude|
        invariant !excluded
        invariant AnyMatch(lib, col.path, col.exclude, hits[i].file)
             <==> AnyMatch(lib, col.path, col.exclude[k..], hits[i].file)
      {
        if lib.matches(col.path, col.exclude[k], hits[i].file) {
          excluded := true;
          break;
        }
        assert col.exclude[k..][1..] == col.exclude[k + 1..];
      }
      if !excluded {
        filtered := filtered + [hits[i]];
      }
    }
    assert hits[..|hits|] == hits;
  }

  lemma UnexcludedAppend(lib: Lib, col: Collection, hits: seq<Hit>, h: Hit)
    ensures Unexcluded(lib, col, hits + [h]) == Unexcluded(lib, col, hits) + if Excluded(lib, col, h) then [] else [h]
  {
    assert (hits + [h])[..|hits|] == hits;
  }

  lemma {:induction false} NothingExcluded(lib: Lib, col: Collection, hits: seq<Hit>)
    requires col.exclude == []
    ensures Unexcluded(lib, col, hits) == hits
  {
    if hits != [] {
      NothingExcluded(lib, col, hits[..|hits| - 1]);
      InitAndLast(hits);
    }
  }

  // filterMinScore
  method FilterMinScore(hits: seq<Hit>, minScore: real) returns (filtered: seq<Hit>)
    ensures filtered == Scored(hits, minScore)
  {
    if minScore <= 0.0 {
      AllScored(hits, minScore);
      return hits;
    }
    filtered := [];
    for i := 0 to |hits|
      invariant filtered == Scored(hits[..i], minScore)
    {
      ScoredAppend(hits[..i], hits[i], minScore);
      TakeOneMore(hits, i);
      if hits[i].score >= minScore {
        filtered := filtered + [hits[i]];
      }
    }
    assert hits[..|hits|] == hits;
  }

  lemma ScoredAppend(hits: seq<Hit>, h: Hit, minScore: real)
    ensures Scored(hits + [h], minScore) == Scored(hits, minScore) + if ScoreOk(h, minScore) then [h] else []
  {
    assert (hits + [h])[..|hits|] == hits;
  }

  lemma {:induction false} AllScored(hits: seq<Hit>, minScore: real)
    requires minScore <= 0.0
    ensures Scored(hits, minScore) == hits
  {
    if hits != [] {
      AllScored(hits[..|hits| - 1], minScore);
      InitAndLast(hits);
    }
  }

  // cleanResultSnippets
  method CleanSnippets(lib: Lib, hits: seq<Hit>) returns (cleaned: seq<Hit>)
    ensures CleanedAll(lib, hits, cleaned)
  {
    cleaned := hits;
    for i := 0 to |hits|
      invariant |cleaned| == |hits|
      invariant forall j :: i <= j < |hits| ==> cleaned[j] == hits[j]
      invariant forall j :: 0 <= j < i ==>
                  && SameHit(cleaned[j], hits[j])
                  && IsTruncation(lib.clean(hits[j].snippet), MAX_SNIPPET, cleaned[j].snippet)
    {
      var snippet := Truncate(lib.clean(cleaned[i].snippet), MAX_SNIPPET);
      cleaned := cleaned[i := cleaned[i].(snippet := snippet)];
    }
  }

  // finalizeResults
  method Finalize(s: Settings, p: Params, hits: seq<Hit>) returns (out: seq<Hit>)
    ensures Finalized(s, p, hits, out)
  {
    if p.filesOnly {
      var sel := DedupSortLimit(HIT_NAMES, hits, p.n);
      out := if p.filesAll then CapFiles(s, sel) else sel;
    } else {
      var cleaned := CleanSnippets(s.lib, hits);
      var sel := DedupSortLimit(HIT_NAMES, cleaned, p.n);
      out := EnforceMaxChars(sel, s.maxChars);
    }
  }

  // findCollection
  method FindByName(cols: seq<Collection>, name: string) returns (col: Option<Collection>)
    ensures col == FindCollection(cols, name)
  {
    for i := 0 to |cols|
      invariant FindCollection(cols, name) == FindCollection(cols[i..], name)
    {
      if cols[i].name == name {
        return Some(cols[i]);
      }
      assert cols[i..][1..] == cols[i + 1..];
    }
    assert cols[|cols|..] == [];
    return None;
  }

  // collectionsByTier
  method CollectionsByTier(cols: seq<Collection>, tier: int) returns (result: seq<Collection>)
    ensures result == Tier(cols, tier)
  {
    result := [];
    for i := 0 to |cols|
      invariant result == Tier(cols[..i], tier)
    {
      TakeOneMore(cols, i);
      assert cols[..i + 1][..i] == cols[..i];
      if cols[i].tier == tier && !cols[i].requireExplicit {
        result := result + [cols[i]];
      }
    }
    assert cols[..|cols|] == cols;
  }
}
