// Every answer of Search over a whole run, fresh or from the cache.

module Answers {
  import opened Model
  import opened SearchSpec
  import opened Orchestrator
  import CacheKey
  import SearchTheory
  import Text

  // The last fresh result under each key.
  ghost function Stored(s: Settings, xs: seq<Exchange>): map<string, SearchResult> {
    if xs == [] then map[] else
    var before, x := Stored(s, xs[..|xs| - 1]), xs[|xs| - 1];
    if x.ph.Some? then Remember(before, KeyOf(s, x.p), x.out) else before
  }

  // What a new orchestrator answered, call by call.
  ghost predicate History(s: Settings, xs: seq<Exchange>) {
    forall i | 0 <= i < |xs| :: Exchanged(s, Stored(s, xs[..i]), xs[i], Stored(s, xs[..i + 1]))
  }

  // One more call of Search, as its contract describes it, extends the history.
  lemma HistoryGrows(s: Settings, xs: seq<Exchange>, x: Exchange, after: map<string, SearchResult>)
    requires History(s, xs) && Exchanged(s, Stored(s, xs), x, after)
    ensures History(s, xs + [x]) && Stored(s, xs + [x]) == after
  {
    var more := xs + [x];
    assert more[..|xs|] == xs && more[..|more|] == more;
    forall i | 0 <= i < |more|
      ensures Exchanged(s, Stored(s, more[..i]), more[i], Stored(s, more[..i + 1]))
    {
      if i < |xs| {
        assert more[..i] == xs[..i] && more[..i + 1] == xs[..i + 1];
      }
    }
  }

  // Exchange j was a fresh search under key and found r.
  ghost predicate FreshAt(s: Settings, xs: seq<Exchange>, j: int, key: string, r: SearchResult) {
    && 0 <= j < |xs|
    && xs[j].ph.Some? && xs[j].out == Found(r) && KeyOf(s, xs[j].p) == key
    && MissSpec(s, xs[j].p, xs[j].ph.value, xs[j].out)
  }

  predicate FreshUnder(s: Settings, x: Exchange, key: string) {
    x.ph.Some? && x.out.Found? && KeyOf(s, x.p) == key
  }

  lemma {:induction false} StoredWasFresh(s: Settings, xs: seq<Exchange>, n: nat, key: string) returns (j: nat)
    requires History(s, xs) && n <= |xs| && key in Stored(s, xs[..n])
    ensures j < n && FreshAt(s, xs, j, key, Stored(s, xs[..n])[key])
  {
    TakeOneMore(xs, n - 1);
    assert xs[..n][..n - 1] == xs[..n - 1];
    j := n - 1;
    assert Exchanged(s, Stored(s, xs[..j]), xs[j], Stored(s, xs[..j + 1]));
    if !FreshUnder(s, xs[j], key) {
      j := StoredWasFresh(s, xs, j, key);
    }
  }

  // Every answer is that of a fresh search under the same key, which is this one
  // or an earlier one whose answer the cache repeats.
  lemma AnswerWasFresh(s: Settings, xs: seq<Exchange>, i: nat) returns (j: nat)
    requires History(s, xs) && i < |xs| && xs[i].out.Found?
    ensures j <= i && xs[j].out.Found? && FreshAt(s, xs, j, KeyOf(s, xs[i].p), xs[j].out.result)
    ensures xs[i].out.result == if xs[i].ph.Some? then xs[j].out.result else Again(xs[j].out.result)
  {
    assert Exchanged(s, Stored(s, xs[..i]), xs[i], Stored(s, xs[..i + 1]));
    if xs[i].ph.Some? {
      j := i;
    } else {
      j := StoredWasFresh(s, xs, i, KeyOf(s, xs[i].p));
    }
  }

  predicate PlainMode(mode: string) {
    '|' !in mode
  }

  // Two requests that the cache does not tell apart: they may differ in whether
  // they confirm, whether escalation is off, and in minScore beyond six decimals.
  ghost predicate Alike(p: Params, q: Params) {
    p == q.(minScore := p.minScore, confirm := p.confirm, disableDeepEscalation := p.disableDeepEscalation)
    && Text.FormatFixed(p.minScore, 6) == Text.FormatFixed(q.minScore, 6)
  }

  lemma SameKeyAlike(s: Settings, p: Params, q: Params)
    requires PlainMode(p.mode) && PlainMode(q.mode) && KeyOf(s, p) == KeyOf(s, q)
    ensures Alike(p, q)
  {
    CacheKey.SameKeyIff(s.lib.printable, p.query, p.mode, p.collection, p.minScore, p.n, p.fallback, p.filesOnly,
                        p.filesAll,
                        q.query, q.mode, q.collection, q.minScore, q.n, q.fallback, q.filesOnly, q.filesAll);
  }

  // Over a whole run every answer, cached or not, has the shape its own request
  // asks for, and its hits are traced to executor replies to a request like it.
  lemma EveryAnswerIsGuaranteed(s: Settings, xs: seq<Exchange>, i: nat) returns (j: nat)
    requires History(s, xs) && i < |xs| && xs[i].out.Found?
    requires forall x | x in xs :: PlainMode(x.p.mode)
    ensures j <= i && xs[j].ph.Some? && xs[j].out.Found? && Alike(xs[j].p, xs[i].p)
    ensures SearchTheory.ShapeOk(s, xs[i].p, xs[i].out.result.results)
    ensures SearchTheory.Guarantee(s, xs[j].p, xs[j].ph.value.All(), xs[j].out.result)
    ensures xs[i].out.result.results == xs[j].out.result.results && xs[i].out.result.mode == xs[j].out.result.mode
    ensures xs[i].out.result.mode == MODE_QUERY ==> xs[i].out.result.results != [] && !xs[i].out.result.degraded
  {
    j := AnswerWasFresh(s, xs, i);
    SearchTheory.PipelineGuarantee(s, xs[j].p, xs[j].ph.value, xs[j].out);
    SameKeyAlike(s, xs[j].p, xs[i].p);
  }

  // Whoever asks for a plain search with escalation off gets a plain answer, even
  // from the cache, as long as everyone switches escalation off with plain search.
  lemma PlainAnswersStayPlain(s: Settings, xs: seq<Exchange>, i: nat)
    requires History(s, xs) && i < |xs| && xs[i].out.Found? && xs[i].p.mode == MODE_SEARCH
    requires forall x | x in xs :: PlainMode(x.p.mode) && (x.p.disableDeepEscalation <==> x.p.mode == MODE_SEARCH)
    ensures xs[i].out.result.mode == MODE_SEARCH
  {
    var j := AnswerWasFresh(s, xs, i);
    SameKeyAlike(s, xs[j].p, xs[i].p);
    SearchTheory.PlainSearchStaysPlain(s, xs[j].p, xs[j].ph.value, xs[j].out);
  }
}
