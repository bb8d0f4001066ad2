// What every fresh search guarantees, whichever of the five paths it took.

module SearchTheory {
  import opened Model
  import opened Selection
  import opened SelectionTheory
  import opened Snippet
  import opened NegativeCache
  import opened SearchSpec
  import Text

  // ---------- finalizeResults ----------

  lemma {:induction false} SameFiles(a: seq<Hit>, b: seq<Hit>)
    requires |a| <= |b| && forall i :: 0 <= i < |a| ==> SameHit(a[i], b[i])
    ensures FileBag(HIT_NAMES, a) <= FileBag(HIT_NAMES, b)
    decreases |b|
  {
    if |a| == |b| {
      if a != [] {
        SameFiles(a[..|a| - 1], b[..|b| - 1]);
        SameFile(a[|a| - 1], b[|b| - 1]);
      }
    } else {
      SameFiles(a, b[..|b| - 1]);
    }
  }

  lemma SameFile(a: Hit, b: Hit)
    requires SameHit(a, b)
    ensures HIT_NAMES.file(a) == HIT_NAMES.file(b)
  {
  }

  // h is, up to its snippet, one of hits.
  ghost predicate Descends(h: Hit, hits: seq<Hit>) {
    exists r :: r in hits && SameHit(h, r)
  }

  ghost predicate ShapeOk(s: Settings, p: Params, out: seq<Hit>) {
    && Sorted(out)
    && (p.n > 0 ==> Feasible(HIT_NAMES, out, p.n))
    && (!p.filesOnly ==> forall h | h in out :: |h.snippet| <= 1500)
    && (!p.filesOnly && s.maxChars > 0 ==> TotalChars(out) <= s.maxChars)
    && (p.filesOnly && p.filesAll && s.filesAllMaxHits > 0 ==> |out| <= s.filesAllMaxHits)
  }

  lemma EmptyBag<T>(a: seq<T>, b: seq<T>)
    requires multiset(a) <= multiset(b) && b == []
    ensures a == []
  {
    assert |multiset(a)| <= |multiset(b)|;
  }

  lemma BagMember<T>(a: seq<T>, b: seq<T>, x: T)
    requires multiset(a) <= multiset(b) && x in a
    ensures x in b
  {
    assert x in multiset(a) && x in multiset(b);
  }

  // Leading hits of a well-shaped list are well-shaped.
  lemma PrefixShape(s: Settings, p: Params, sel: seq<Hit>, out: seq<Hit>)
    requires p.filesOnly && out <= sel && Sorted(sel)
    requires p.filesAll && s.filesAllMaxHits > 0 ==> |out| <= s.filesAllMaxHits
    requires p.n > 0 ==> Feasible(HIT_NAMES, sel, p.n)
    ensures ShapeOk(s, p, out)
  {
    SameFiles(out, sel);
  }

  // The cap takes the leading hits of a longer list and leaves any other alone.
  lemma CapTakesFirst(s: Settings, sel: seq<Hit>)
    ensures CapFiles(s, sel) <= sel
    ensures |CapFiles(s, sel)| == if s.filesAllMaxHits > 0 then Min(s.filesAllMaxHits, |sel|) else |sel|
  {
  }

  lemma PrefixBag<T>(a: seq<T>, b: seq<T>)
    requires a <= b
    ensures multiset(a) <= multiset(b)
  {
    assert b == a + b[|a|..];
  }

  lemma FilesFinalized(s: Settings, p: Params, hits: seq<Hit>, sel: seq<Hit>, out: seq<Hit>)
    requires p.filesOnly && Selected(HIT_NAMES, hits, p.n, sel)
    requires out == if p.filesAll then CapFiles(s, sel) else sel
    ensures ShapeOk(s, p, out)
    ensures forall h | h in out :: h in hits
    ensures out == [] <==> hits == []
  {
    SelectedShape(HIT_NAMES, hits, p.n, sel);
    DedupDistinct(HIT_NAMES, hits);
    CapTakesFirst(s, sel);
    PrefixShape(s, p, sel, out);
    FilesMembers(hits, sel, out);
  }

  lemma FilesMembers(hits: seq<Hit>, sel: seq<Hit>, out: seq<Hit>)
    requires multiset(sel) <= multiset(hits) && out <= sel && (hits != [] ==> sel != []) && (sel != [] ==> out != [])
    ensures forall h | h in out :: h in hits
    ensures out == [] <==> hits == []
  {
    PrefixBag(out, sel);
    forall h | h in out
      ensures h in hits
    {
      BagMember(out, hits, h);
    }
    if hits == [] {
      EmptyBag(sel, hits);
    }
  }

  // A selected hit of cleaned text descends from the raw hit and is short.
  lemma CleanedMember(lib: Lib, hits: seq<Hit>, cleaned: seq<Hit>, h: Hit)
    requires CleanedAll(lib, hits, cleaned) && h in multiset(cleaned)
    ensures Descends(h, hits) && |h.snippet| <= MAX_SNIPPET
  {
    var k :| 0 <= k < |cleaned| && cleaned[k] == h;
    TruncationFits(lib.clean(hits[k].snippet), MAX_SNIPPET, cleaned[k].snippet);
    assert hits[k] in hits && SameHit(h, hits[k]);
  }

  // Cleaned text of up to 1500 characters is left as it is, and longer text keeps its
  // beginning.
  lemma ShortSnippetsStay(lib: Lib, hits: seq<Hit>, cleaned: seq<Hit>, i: nat)
    requires CleanedAll(lib, hits, cleaned) && i < |hits|
    ensures var text := lib.clean(hits[i].snippet);
            if |text| <= 1500 then cleaned[i].snippet == text
            else exists cut: nat :: 1297 <= cut <= 1497 && cleaned[i].snippet == Text.TrimSpace(text[..cut]) + "..."
  {
    TruncationFits(lib.clean(hits[i].snippet), MAX_SNIPPET, cleaned[i].snippet);
  }

  lemma BudgetedMember(lib: Lib, hits: seq<Hit>, cleaned: seq<Hit>, sel: seq<Hit>, maxChars: int, out: seq<Hit>, h: Hit)
    requires CleanedAll(lib, hits, cleaned) && multiset(sel) <= multiset(cleaned)
    requires Budgeted(sel, maxChars, out) && h in out
    ensures Descends(h, hits) && |h.snippet| <= MAX_SNIPPET
  {
    BudgetHolds(sel, maxChars, out);
    var i :| 0 <= i < |out| && out[i] == h;
    assert sel[i] in multiset(sel);
    CleanedMember(lib, hits, cleaned, sel[i]);
    var r :| r in hits && SameHit(sel[i], r);
    assert SameHit(h, r);
  }

  lemma SnippetsFinalized(s: Settings, p: Params, hits: seq<Hit>, cleaned: seq<Hit>, sel: seq<Hit>, out: seq<Hit>)
    requires !p.filesOnly && CleanedAll(s.lib, hits, cleaned)
    requires Selected(HIT_NAMES, cleaned, p.n, sel) && Budgeted(sel, s.maxChars, out)
    ensures ShapeOk(s, p, out)
    ensures forall h | h in out :: Descends(h, hits)
    ensures out == [] <==> hits == []
  {
    SelectedShape(HIT_NAMES, cleaned, p.n, sel);
    DedupDistinct(HIT_NAMES, cleaned);
    BudgetHolds(sel, s.maxChars, out);
    SameFiles(out, sel);
    forall h | h in out
      ensures Descends(h, hits) && |h.snippet| <= MAX_SNIPPET
    {
      BudgetedMember(s.lib, hits, cleaned, sel, s.maxChars, out, h);
    }
    if hits == [] {
      EmptyBag(sel, cleaned);
    }
  }

  // What finalizeResults returns is sorted, within its limits, made of its
  // input, and empty only if its input is.
  lemma FinalizedShape(s: Settings, p: Params, hits: seq<Hit>, out: seq<Hit>)
    requires Finalized(s, p, hits, out)
    ensures ShapeOk(s, p, out)
    ensures forall h | h in out :: Descends(h, hits)
    ensures out == [] <==> hits == []
  {
    if p.filesOnly {
      var sel :| Selected(HIT_NAMES, hits, p.n, sel) && out == if p.filesAll then CapFiles(s, sel) else sel;
      FilesFinalized(s, p, hits, sel, out);
      forall h | h in out
        ensures Descends(h, hits)
      {
        assert h in hits && SameHit(h, h);
      }
    } else {
      var cleaned, sel :| CleanedAll(s.lib, hits, cleaned) && Selected(HIT_NAMES, cleaned, p.n, sel)
        && Budgeted(sel, s.maxChars, out);
      SnippetsFinalized(s, p, hits, cleaned, sel, out);
    }
  }

  // ---------- Where hits come from ----------

  // The calls that a mode makes: deep ones for "query", vector ones for "vsearch",
  // and plain ones for any other.
  ghost predicate OfKind(mode: string, kind: Kind) {
    (kind == Deep <==> mode == "query") && (kind == Vector <==> mode == "vsearch")
  }

  // Some exclude pattern of the collection matches the hit.
  ghost predicate Matched(s: Settings, col: Collection, h: Hit) {
    exists k :: 0 <= k < |col.exclude| && s.lib.matches(col.path, col.exclude[k], h.file)
  }

  lemma {:induction false} AnyMatchIff(lib: Lib, path: string, patterns: seq<string>, file: string)
    ensures AnyMatch(lib, path, patterns, file)
       <==> exists k :: 0 <= k < |patterns| && lib.matches(path, patterns[k], file)
  {
    if patterns != [] {
      AnyMatchIff(lib, path, patterns[1..], file);
      if k :| 0 <= k < |patterns[1..]| && lib.matches(path, patterns[1..][k], file) {
        assert patterns[k + 1] == patterns[1..][k];
      }
      if k :| 1 <= k < |patterns| && lib.matches(path, patterns[k], file) {
        assert patterns[1..][k - 1] == patterns[k];
      }
    }
  }

  lemma ExcludedIff(s: Settings, col: Collection, h: Hit)
    ensures Excluded(s.lib, col, h) <==> Matched(s, col, h)
  {
    AnyMatchIff(s.lib, col.path, col.exclude, h.file);
  }

  // e is a successful attempt of the given mode on a configured collection, whose
  // reply contains raw and which does not exclude it.
  ghost predicate Supplied(s: Settings, mode: string, e: Event, raw: Hit) {
    && e.Attempt? && e.reply.Hits? && raw in e.reply.hits
    && OfKind(mode, e.call.kind) && e.call.collection == e.col.name && e.col in s.collections
    && !Matched(s, e.col, raw)
  }

  lemma {:induction false} UnexcludedMember(lib: Lib, col: Collection, hits: seq<Hit>, h: Hit)
    requires h in Unexcluded(lib, col, hits)
    ensures h in hits && !Excluded(lib, col, h)
  {
    if h in Unexcluded(lib, col, hits[..|hits| - 1]) {
      UnexcludedMember(lib, col, hits[..|hits| - 1], h);
    }
  }

  lemma {:induction false} ScoredMember(hits: seq<Hit>, minScore: real, h: Hit)
    requires h in Scored(hits, minScore)
    ensures h in hits && ScoreOk(h, minScore)
  {
    if h in Scored(hits[..|hits| - 1], minScore) {
      ScoredMember(hits[..|hits| - 1], minScore, h);
    }
  }

  lemma {:induction false} GatheredMember(s: Settings, evs: seq<Event>, h: Hit) returns (e: Event)
    requires h in Gathered(s, evs)
    ensures e in evs && e.Attempt? && e.reply.Hits? && h in e.reply.hits && !Excluded(s.lib, e.col, h)
    ensures e.col.name in Searched(evs)
  {
    e := evs[|evs| - 1];
    if h in Gathered(s, evs[..|evs| - 1]) {
      e := GatheredMember(s, evs[..|evs| - 1], h);
    } else {
      UnexcludedMember(s.lib, e.col, e.reply.hits, h);
    }
  }

  // A hit of the answer, traced back to its executor reply.
  ghost predicate Traced(s: Settings, p: Params, evs: seq<Event>, r: SearchResult, h: Hit) {
    && (p.minScore > 0.0 ==> h.score >= p.minScore)
    && exists e, raw ::
         e in evs && Supplied(s, r.mode, e, raw) && SameHit(h, raw) && e.col.name in r.collections
  }

  ghost predicate AllAttempts(s: Settings, p: Params, mode: string, evs: seq<Event>) {
    forall e | e in evs :: IsAttempt(s, p, mode, e)
  }

  ghost predicate Configured(s: Settings, evs: seq<Event>) {
    forall e | e in evs && e.Attempt? :: e.col in s.collections
  }

  lemma SurvivorsTraced(s: Settings, p: Params, mode: string, evs: seq<Event>, all: seq<Event>, out: seq<Hit>,
                        r: SearchResult)
    requires AllAttempts(s, p, mode, evs) && Finalized(s, p, Surviving(s, p, evs), out) && Configured(s, all)
    requires r.mode == mode
    requires forall e | e in evs :: e in all
    requires forall name | name in Searched(evs) :: name in r.collections
    ensures forall h | h in out :: Traced(s, p, all, r, h)
  {
    FinalizedShape(s, p, Surviving(s, p, evs), out);
    forall h | h in out
      ensures Traced(s, p, all, r, h)
    {
      var raw :| raw in Surviving(s, p, evs) && SameHit(h, raw);
      ScoredMember(Gathered(s, evs), p.minScore, raw);
      var e := GatheredMember(s, evs, raw);
      ExcludedIff(s, e.col, raw);
      assert e in all && Supplied(s, r.mode, e, raw);
    }
  }

  lemma {:induction false} SearchedIsAttempted(evs: seq<Event>, col: Collection)
    requires forall e | e in evs && e.Attempt? :: e.col == col
    ensures forall name | name in Searched(evs) :: name == col.name
  {
    if evs != [] {
      SearchedIsAttempted(evs[..|evs| - 1], col);
    }
  }

  lemma {:induction false} FoundByName(cols: seq<Collection>, name: string)
    ensures var c := FindCollection(cols, name); c.Some? ==> c.value in cols && c.value.name == name
  {
    if cols != [] {
      FoundByName(cols[1..], name);
    }
  }

  lemma {:induction false} AttemptedMember(evs: seq<Event>, e: Event)
    requires e in evs && e.Attempt?
    ensures e.col in Attempted(evs)
  {
    if e != evs[|evs| - 1] {
      AttemptedMember(evs[..|evs| - 1], e);
    }
  }

  lemma TierMember(s: Settings, p: Params, mode: string, cols: seq<Collection>, evs: seq<Event>, e: Event)
    requires TierSpec(s, p, mode, cols, evs) && e in evs
    ensures e.Attempt? && e.col in cols && e.call.kind == KindOf(mode) && e.call.collection == e.col.name
  {
    AttemptedMember(evs, e);
    assert e.col in multiset(Attempted(evs));
  }

  // ---------- The pipeline guarantee ----------

  // Every hit is traced to a reply, the shape is right, and a result that
  // claims mode "query" is a non-empty, undegraded one.
  ghost predicate Guarantee(s: Settings, p: Params, evs: seq<Event>, r: SearchResult) {
    && (forall h | h in r.results :: Traced(s, p, evs, r, h))
    && ShapeOk(s, p, r.results)
    && (r.mode == "query" ==> r.results != [] && !r.degraded)
  }

  // r was finalized from what the attempts evs, all in r's mode, brought in.
  ghost predicate MadeFrom(s: Settings, p: Params, evs: seq<Event>, r: SearchResult) {
    && AllAttempts(s, p, r.mode, evs)
    && Finalized(s, p, Surviving(s, p, evs), r.results)
    && (forall name | name in Searched(evs) :: name in r.collections)
    && (r.mode == MODE_QUERY ==> Surviving(s, p, evs) != [] && !r.degraded)
  }

  lemma Delivered(s: Settings, p: Params, evs: seq<Event>, all: seq<Event>, r: SearchResult)
    requires MadeFrom(s, p, evs, r) && Configured(s, all)
    requires forall e | e in evs :: e in all
    ensures Guarantee(s, p, all, r)
  {
    FinalizedShape(s, p, Surviving(s, p, evs), r.results);
    SurvivorsTraced(s, p, r.mode, evs, all, r.results, r);
  }

  lemma OneCollection(s: Settings, p: Params, mode: string, col: Collection, evs: seq<Event>)
    requires TierSpec(s, p, mode, [col], evs)
    ensures forall name | name in Searched(evs) :: name == col.name
  {
    forall e | e in evs
      ensures e.col == col
    {
      TierMember(s, p, mode, [col], evs, e);
    }
    SearchedIsAttempted(evs, col);
  }

  lemma SingleMade(s: Settings, p: Params, mode: string, evs: seq<Event>, out: Outcome)
    requires SingleSpec(s, p, mode, evs, out) && out.Found? && mode != MODE_QUERY
    ensures MadeFrom(s, p, evs, out.result)
  {
    FoundByName(s.collections, p.collection);
    OneCollection(s, p, mode, FindCollection(s.collections, p.collection).value, evs);
  }

  // What a deep attempt leaves: its own hits, or the broad ones.
  lemma DeepOutcomeMade(s: Settings, p: Params, scope: string, failed: bool, deep: seq<Event>, deepNames: seq<string>,
                        broad: seq<Event>, broadNames: seq<string>, fallback: bool, mark: seq<Event>, out: Outcome)
    requires DeepOutcome(s, p, scope, failed, Surviving(s, p, deep), deepNames, Surviving(s, p, broad), broadNames,
                         fallback, mark, out)
    requires AllAttempts(s, p, MODE_SEARCH, broad) && AllAttempts(s, p, MODE_QUERY, deep)
    requires forall name | name in Searched(broad) :: name in broadNames
    requires forall name | name in Searched(deep) :: name in deepNames
    ensures MadeFrom(s, p, if out.result.mode == MODE_QUERY then deep else broad, out.result)
  {
    assert |MODE_SEARCH| != |MODE_QUERY|;
  }

  // A result in a mode other than query, made of evs.
  lemma PlainMade(s: Settings, p: Params, mode: string, evs: seq<Event>, names: seq<string>,
                  fallback: bool, reason: string, out: Outcome)
    requires mode != MODE_QUERY && AllAttempts(s, p, mode, evs)
    requires forall name | name in Searched(evs) :: name in names
    requires out.Found? && Finalized(s, p, Surviving(s, p, evs), out.result.results)
    requires out == Fresh(out.result.results, mode, names, fallback, reason)
    ensures MadeFrom(s, p, evs, out.result) && out.result.mode != MODE_QUERY
  {
  }

  lemma SingleDeepMade(s: Settings, p: Params, ask: seq<Event>, broad: seq<Event>, deep: seq<Event>, mark: seq<Event>,
                       out: Outcome)
    requires SingleDeepSpec(s, p, ask, broad, deep, mark, out) && out.Found?
    ensures MadeFrom(s, p, if out.result.mode == MODE_QUERY then deep else broad, out.result)
  {
    FoundByName(s.collections, p.collection);
    var col := FindCollection(s.collections, p.collection).value;
    var names := [p.collection];
    OneCollection(s, p, MODE_SEARCH, col, broad);
    if ask[0].answer == Go {
      OneCollection(s, p, MODE_QUERY, col, deep);
      DeepOutcomeMade(s, p, p.collection, AnyFailed(deep), deep, names, broad, names, false, mark, out);
    } else {
      PlainMade(s, p, MODE_SEARCH, broad, names, false, SkipReason(ask[0].answer), out);
    }
  }

  lemma PrimaryAttempts(s: Settings, p: Params, mode: string, first: seq<Event>, second: seq<Event>)
    requires PrimarySpec(s, p, mode, first, second)
    ensures AllAttempts(s, p, mode, first + second)
  {
  }

  lemma DeepMade(s: Settings, p: Params, ask: seq<Event>, first: seq<Event>, second: seq<Event>,
                 deep: seq<Event>, mark: seq<Event>, out: Outcome)
    requires DeepSpec(s, p, ask, first, second, deep, mark, out)
    ensures MadeFrom(s, p, if out.result.mode == MODE_QUERY then deep else first + second, out.result)
  {
    PrimaryAttempts(s, p, MODE_SEARCH, first, second);
  }

  lemma FallbackMade(s: Settings, p: Params, mode: string, first: seq<Event>, second: seq<Event>,
                     look: seq<Event>, deep: seq<Event>, mark: seq<Event>, out: Outcome)
    requires FallbackSpec(s, p, mode, first, second, look, deep, mark, out) && mode != MODE_QUERY
    ensures MadeFrom(s, p, if out.result.mode == MODE_QUERY then deep else first + second, out.result)
  {
    PrimaryAttempts(s, p, mode, first, second);
    if Escalates(s, p, mode, Surviving(s, p, first + second)) {
      var used, reason :| EscalationSpec(s, p, look, deep, mark, used, reason)
        && if used then Plain(s, p, Surviving(s, p, deep), MODE_QUERY, Searched(deep), second != [], "", out)
           else Plain(s, p, Surviving(s, p, first + second), mode, Searched(first + second), second != [], reason, out);
    }
  }

  // Every fresh search makes its result of what some of its attempts brought in.
  lemma MadeOfAttempts(s: Settings, p: Params, ph: Phases, out: Outcome) returns (evs: seq<Event>)
    requires MissSpec(s, p, ph, out) && out.Found?
    ensures MadeFrom(s, p, evs, out.result) && forall e | e in evs :: e in ph.All()
  {
    var mode := Resolve(s, p.mode, p.query, ph.look[0].overloaded);
    if p.collection != "" && mode == MODE_QUERY {
      SingleDeepMade(s, p, ph.ask, ph.first, ph.deep, ph.mark, out);
      evs := if out.result.mode == MODE_QUERY then ph.deep else ph.first;
    } else if p.collection != "" {
      SingleMade(s, p, mode, ph.first, out);
      evs := ph.first;
    } else {
      if mode == MODE_QUERY {
        DeepMade(s, p, ph.ask, ph.first, ph.second, ph.deep, ph.mark, out);
      } else {
        FallbackMade(s, p, mode, ph.first, ph.second, ph.relook, ph.deep, ph.mark, out);
      }
      evs := if out.result.mode == MODE_QUERY then ph.deep else ph.first + ph.second;
    }
  }

  // Every fresh search delivers what Guarantee says.
  lemma PipelineGuarantee(s: Settings, p: Params, ph: Phases, out: Outcome)
    requires MissSpec(s, p, ph, out) && out.Found?
    ensures Guarantee(s, p, ph.All(), out.result)
  {
    var evs := MadeOfAttempts(s, p, ph, out);
    ExecutorCallSafety(s, p, ph, out);
    SafeIsConfigured(s, p, ph.All());
    Delivered(s, p, evs, ph.All(), out.result);
  }

  // ---------- Executor-call safety ----------

  // The scope of a search in the negative cache.
  function Scope(p: Params): string {
    if p.collection == "" then ALL_SCOPE else p.collection
  }

  ghost predicate Let(s: Settings, p: Params, e: Event) {
    IsAsk(s, p, Scope(p), e) && e.answer == Go
  }

  ghost predicate Known(s: Settings, scope: string) {
    scope == ALL_SCOPE || exists col :: col in s.collections && col.name == scope
  }

  // The call asks for what the request does, and for its own number of candidates:
  // all of them for files_all, else the configured number, or 20.
  ghost predicate Carries(s: Settings, p: Params, col: Collection, call: Call) {
    && call.query == p.query && call.collection == col.name && call.minScore == p.minScore
    && call.filesOnly == p.filesOnly && (call.all <==> p.filesOnly && p.filesAll)
    && (call.all ==> call.n == 0)
    && (!call.all ==> (s.coarseK > 0 && call.n == s.coarseK) || (s.coarseK <= 0 && call.n == 20))
  }

  // Only configured collections are attempted, and those that need confirmation only
  // with it. A deep-query call happens only with the capability and after the negative
  // cache let the same search through, a vector call only with the capability.
  // A failure is recorded only for the scope that was let through, which is a
  // configured collection or all of them.
  ghost predicate CallSafe(s: Settings, p: Params, evs: seq<Event>, i: int)
    requires 0 <= i < |evs|
  {
    && (evs[i].Attempt? ==>
          && (evs[i].call.kind == Deep ==> s.deepQuery && exists j :: 0 <= j < i && Let(s, p, evs[j]))
          && (evs[i].call.kind == Vector ==> s.vector)
          && Carries(s, p, evs[i].col, evs[i].call) && evs[i].col in s.collections
          && (evs[i].col.requireExplicit && evs[i].col.safetyPrompt ==> p.confirm))
    && (evs[i].Marked? ==>
          && IsMark(s, p, Scope(p), evs[i]) && Known(s, evs[i].scope)
          && exists j :: 0 <= j < i && Let(s, p, evs[j]))
  }

  ghost predicate CallsSafe(s: Settings, p: Params, evs: seq<Event>) {
    forall i | 0 <= i < |evs| :: CallSafe(s, p, evs, i)
  }

  lemma SafeIsConfigured(s: Settings, p: Params, evs: seq<Event>)
    requires CallsSafe(s, p, evs)
    ensures Configured(s, evs)
  {
    forall e | e in evs && e.Attempt?
      ensures e.col in s.collections
    {
      var i :| 0 <= i < |evs| && evs[i] == e;
      assert CallSafe(s, p, evs, i);
    }
  }

  // Attempts of one mode on configured, unguarded collections.
  ghost predicate ModeSafe(s: Settings, p: Params, mode: string, evs: seq<Event>) {
    && (mode == MODE_VSEARCH ==> s.vector)
    && (mode == MODE_QUERY ==> s.deepQuery)
    && forall e | e in evs :: IsAttempt(s, p, mode, e) && e.col in s.collections && !Guarded(e.col, p)
  }

  ghost predicate LetThrough(s: Settings, p: Params, evs: seq<Event>) {
    exists e :: e in evs && Let(s, p, e)
  }

  ghost predicate Quiet(evs: seq<Event>) {
    forall e | e in evs :: !e.Attempt? && !e.Marked?
  }

  lemma QuietSafe(s: Settings, p: Params, before: seq<Event>, evs: seq<Event>)
    requires CallsSafe(s, p, before) && Quiet(evs)
    ensures CallsSafe(s, p, before + evs)
  {
    forall i | 0 <= i < |before + evs|
      ensures CallSafe(s, p, before + evs, i)
    {
      if i < |before| {
        assert CallSafe(s, p, before, i);
        StaysSafe(s, p, before, evs, i);
      }
    }
  }

  lemma StaysSafe(s: Settings, p: Params, before: seq<Event>, evs: seq<Event>, i: nat)
    requires i < |before| && CallSafe(s, p, before, i)
    ensures CallSafe(s, p, before + evs, i)
  {
    if j :| 0 <= j < i && Let(s, p, before[j]) {
      assert (before + evs)[j] == before[j];
    }
  }

  lemma AttemptsSafe(s: Settings, p: Params, mode: string, before: seq<Event>, evs: seq<Event>)
    requires CallsSafe(s, p, before) && ModeSafe(s, p, mode, evs)
    requires mode == MODE_QUERY && evs != [] ==> LetThrough(s, p, before)
    ensures CallsSafe(s, p, before + evs)
  {
    var all := before + evs;
    forall i | 0 <= i < |all|
      ensures CallSafe(s, p, all, i)
    {
      if i < |before| {
        assert CallSafe(s, p, before, i);
        StaysSafe(s, p, before, evs, i);
      } else {
        assert evs[i - |before|] in evs;
        if mode == MODE_QUERY {
          var e :| e in before && Let(s, p, e);
          var j :| 0 <= j < |before| && before[j] == e;
          assert all[j] == e;
        }
      }
    }
  }

  lemma {:induction false} TierIsOpen(cols: seq<Collection>, tier: int)
    ensures forall c | c in Tier(cols, tier) :: c in cols && !c.requireExplicit
  {
    if cols != [] {
      TierIsOpen(cols[..|cols| - 1], tier);
    }
  }

  lemma TierModeSafe(s: Settings, p: Params, mode: string, cols: seq<Collection>, evs: seq<Event>)
    requires TierSpec(s, p, mode, cols, evs)
    requires forall c | c in cols :: c in s.collections && !Guarded(c, p)
    requires (mode == MODE_VSEARCH ==> s.vector) && (mode == MODE_QUERY ==> s.deepQuery)
    ensures ModeSafe(s, p, mode, evs)
  {
    forall e | e in evs
      ensures IsAttempt(s, p, mode, e) && e.col in s.collections && !Guarded(e.col, p)
    {
      TierMember(s, p, mode, cols, evs, e);
    }
  }

  lemma PrimaryModeSafe(s: Settings, p: Params, mode: string, first: seq<Event>, second: seq<Event>)
    requires PrimarySpec(s, p, mode, first, second)
    requires (mode == MODE_VSEARCH ==> s.vector) && mode != MODE_QUERY
    ensures ModeSafe(s, p, mode, first) && ModeSafe(s, p, mode, second)
  {
    TierIsOpen(s.collections, 1);
    TierIsOpen(s.collections, 2);
    TierModeSafe(s, p, mode, Tier(s.collections, 1), first);
    if second != [] {
      TierModeSafe(s, p, mode, Tier(s.collections, 2), second);
    }
  }

  lemma ThenSafe(s: Settings, p: Params, before: seq<Event>, quiet: seq<Event>, mode: string, evs: seq<Event>)
    requires CallsSafe(s, p, before) && Quiet(quiet) && ModeSafe(s, p, mode, evs) && mode != MODE_QUERY
    ensures CallsSafe(s, p, before + quiet + evs)
  {
    QuietSafe(s, p, before, quiet);
    AttemptsSafe(s, p, mode, before + quiet, evs);
  }

  // A deep phase, let through by gate, and its mark.
  lemma DeepSafe(s: Settings, p: Params, before: seq<Event>, gate: seq<Event>, deep: seq<Event>, mark: seq<Event>)
    requires CallsSafe(s, p, before) && Quiet(gate) && OneMark(s, p, mark)
    requires deep != [] || mark != [] ==> LetThrough(s, p, before) || LetThrough(s, p, gate)
    requires deep != [] ==> ModeSafe(s, p, MODE_QUERY, deep)
    ensures CallsSafe(s, p, before + gate + deep + mark)
  {
    QuietSafe(s, p, before, gate);
    if deep == [] {
      assert before + gate + deep == before + gate;
    } else {
      LetThroughConcat(s, p, before, gate);
      AttemptsSafe(s, p, MODE_QUERY, before + gate, deep);
    }
    if mark == [] {
      assert before + gate + deep + mark == before + gate + deep;
    } else {
      LetThroughConcat(s, p, before, gate);
      LetThroughConcat(s, p, before + gate, deep);
      MarkSafe(s, p, before + gate + deep, mark);
    }
  }

  ghost predicate OneMark(s: Settings, p: Params, mark: seq<Event>) {
    mark == [] || (|mark| == 1 && IsMark(s, p, Scope(p), mark[0]) && Known(s, Scope(p)))
  }

  lemma MarkSafe(s: Settings, p: Params, before: seq<Event>, mark: seq<Event>)
    requires CallsSafe(s, p, before) && LetThrough(s, p, before) && mark != [] && OneMark(s, p, mark)
    ensures CallsSafe(s, p, before + mark)
  {
    var all := before + mark;
    forall i | 0 <= i < |all|
      ensures CallSafe(s, p, all, i)
    {
      if i < |before| {
        assert CallSafe(s, p, before, i);
        StaysSafe(s, p, before, mark, i);
      } else {
        var e :| e in before && Let(s, p, e);
        var j :| 0 <= j < |before| && before[j] == e;
        assert all[j] == e;
      }
    }
  }

  lemma LetThroughConcat(s: Settings, p: Params, a: seq<Event>, b: seq<Event>)
    requires LetThrough(s, p, a) || LetThrough(s, p, b)
    ensures LetThrough(s, p, a + b)
  {
    var e :| (e in a || e in b) && Let(s, p, e);
    assert e in a + b;
  }

  // Phases that are quiet or safe, the deep one let through, make a safe search.
  lemma PhasesSafe(s: Settings, p: Params, ph: Phases, mode: string)
    requires Quiet(ph.look) && Quiet(ph.ask) && Quiet(ph.relook) && OneMark(s, p, ph.mark)
    requires mode != MODE_QUERY && ModeSafe(s, p, mode, ph.first) && ModeSafe(s, p, mode, ph.second)
    requires ph.deep != [] || ph.mark != [] ==> LetThrough(s, p, ph.ask) || LetThrough(s, p, ph.relook)
    requires ph.deep != [] ==> ModeSafe(s, p, MODE_QUERY, ph.deep)
    ensures CallsSafe(s, p, ph.All())
  {
    var a := ph.look + ph.ask;
    assert [] + ph.look == ph.look && a + ph.first + [] == a + ph.first;
    QuietSafe(s, p, [], ph.look);
    ThenSafe(s, p, ph.look, ph.ask, mode, ph.first);
    ThenSafe(s, p, a + ph.first, [], mode, ph.second);
    if LetThrough(s, p, ph.ask) {
      LetThroughConcat(s, p, ph.look, ph.ask);
      LetThroughConcat(s, p, a, ph.first);
      LetThroughConcat(s, p, a + ph.first, ph.second);
    }
    DeepSafe(s, p, a + ph.first + ph.second, ph.relook, ph.deep, ph.mark);
  }

  // What the safety argument needs to know of a path: its gate and its attempts.
  ghost predicate Skeleton(s: Settings, p: Params, gate: seq<Event>, deep: seq<Event>, mark: seq<Event>,
                           cols: seq<Collection>) {
    && Quiet(gate) && OneMark(s, p, mark)
    && (deep != [] || mark != [] ==> LetThrough(s, p, gate))
    && (deep != [] ==> TierSpec(s, p, MODE_QUERY, cols, deep))
  }

  lemma QuietGate(evs: seq<Event>)
    requires |evs| <= 2
    requires |evs| >= 1 ==> !evs[0].Attempt? && !evs[0].Marked?
    requires |evs| == 2 ==> !evs[1].Attempt? && !evs[1].Marked?
    ensures Quiet(evs)
  {
  }

  lemma GateOpens(s: Settings, p: Params, evs: seq<Event>, i: nat)
    requires i < |evs| && Let(s, p, evs[i])
    ensures LetThrough(s, p, evs)
  {
  }

  lemma SingleDeepSkeleton(s: Settings, p: Params, ask: seq<Event>, broad: seq<Event>, deep: seq<Event>,
                           mark: seq<Event>, out: Outcome)
    requires SingleDeepSpec(s, p, ask, broad, deep, mark, out) && p.collection != ""
    ensures var col := FindCollection(s.collections, p.collection);
            if ask == [] then broad == deep == mark == []
            else col.Some? && !Guarded(col.value, p) && TierSpec(s, p, MODE_SEARCH, [col.value], broad)
                 && Skeleton(s, p, ask, deep, mark, [col.value])
  {
    FoundByName(s.collections, p.collection);
    QuietGate(ask);
    if ask != [] && ask[0].answer == Go {
      GateOpens(s, p, ask, 0);
    }
  }

  lemma DeepSkeleton(s: Settings, p: Params, ask: seq<Event>, first: seq<Event>, second: seq<Event>,
                     deep: seq<Event>, mark: seq<Event>, out: Outcome)
    requires DeepSpec(s, p, ask, first, second, deep, mark, out) && p.collection == ""
    ensures PrimarySpec(s, p, MODE_SEARCH, first, second)
    ensures Skeleton(s, p, ask, deep, mark, Tier(s.collections, 1))
  {
    QuietGate(ask);
    if ask[0].answer == Go {
      GateOpens(s, p, ask, 0);
    }
  }

  lemma EscalationSkeleton(s: Settings, p: Params, look: seq<Event>, deep: seq<Event>, mark: seq<Event>, used: bool,
                           reason: string)
    requires EscalationSpec(s, p, look, deep, mark, used, reason) && p.collection == ""
    ensures Skeleton(s, p, look, deep, mark, Tier(s.collections, 1))
  {
    QuietGate(look);
    if |look| == 2 && look[1].answer == Go {
      GateOpens(s, p, look, 1);
    }
  }

  lemma FallbackSkeleton(s: Settings, p: Params, mode: string, first: seq<Event>, second: seq<Event>,
                         look: seq<Event>, deep: seq<Event>, mark: seq<Event>, out: Outcome)
    requires FallbackSpec(s, p, mode, first, second, look, deep, mark, out) && p.collection == ""
    ensures PrimarySpec(s, p, mode, first, second)
    ensures Skeleton(s, p, look, deep, mark, Tier(s.collections, 1))
    ensures deep != [] ==> s.deepQuery
  {
    if Escalates(s, p, mode, Surviving(s, p, first + second)) {
      var used, reason :| EscalationSpec(s, p, look, deep, mark, used, reason);
      EscalationSkeleton(s, p, look, deep, mark, used, reason);
    }
  }

  lemma SinglePathSafe(s: Settings, p: Params, ph: Phases, mode: string, out: Outcome)
    requires SingleSpec(s, p, mode, ph.first, out) && mode != MODE_QUERY
    requires (mode == MODE_VSEARCH ==> s.vector) && Quiet(ph.look)
    requires ph.ask == ph.second == ph.relook == ph.deep == ph.mark == []
    ensures CallsSafe(s, p, ph.All())
  {
    FoundByName(s.collections, p.collection);
    if ph.first != [] {
      TierModeSafe(s, p, mode, [FindCollection(s.collections, p.collection).value], ph.first);
    }
    PhasesSafe(s, p, ph, mode);
  }

  lemma SingleDeepPathSafe(s: Settings, p: Params, ph: Phases, out: Outcome)
    requires SingleDeepSpec(s, p, ph.ask, ph.first, ph.deep, ph.mark, out) && s.deepQuery && p.collection != ""
    requires ph.second == ph.relook == [] && Quiet(ph.look)
    ensures CallsSafe(s, p, ph.All())
  {
    SingleDeepSkeleton(s, p, ph.ask, ph.first, ph.deep, ph.mark, out);
    FoundByName(s.collections, p.collection);
    if ph.ask != [] {
      var cols := [FindCollection(s.collections, p.collection).value];
      TierModeSafe(s, p, MODE_SEARCH, cols, ph.first);
      if ph.deep != [] {
        TierModeSafe(s, p, MODE_QUERY, cols, ph.deep);
      }
    }
    PhasesSafe(s, p, ph, MODE_SEARCH);
  }

  lemma TiersPathSafe(s: Settings, p: Params, ph: Phases, mode: string)
    requires PrimarySpec(s, p, mode, ph.first, ph.second) && Quiet(ph.look) && Quiet(ph.ask) && Quiet(ph.relook)
    requires (mode == MODE_VSEARCH ==> s.vector) && mode != MODE_QUERY
    requires Skeleton(s, p, ph.ask, ph.deep, ph.mark, Tier(s.collections, 1))
          || Skeleton(s, p, ph.relook, ph.deep, ph.mark, Tier(s.collections, 1))
    requires ph.deep != [] ==> s.deepQuery
    ensures CallsSafe(s, p, ph.All())
  {
    PrimaryModeSafe(s, p, mode, ph.first, ph.second);
    if ph.deep != [] {
      TierIsOpen(s.collections, 1);
      TierModeSafe(s, p, MODE_QUERY, Tier(s.collections, 1), ph.deep);
    }
    PhasesSafe(s, p, ph, mode);
  }

  // A mode is only resolved to if the executor is capable of it.
  lemma ResolvedIsCapable(s: Settings, requested: string, query: string, overloaded: bool)
    ensures var mode := Resolve(s, requested, query, overloaded);
            (mode == MODE_QUERY ==> s.deepQuery) && (mode == MODE_VSEARCH ==> s.vector)
  {
  }

  lemma NamedPathSafe(s: Settings, p: Params, ph: Phases, out: Outcome)
    requires MissSpec(s, p, ph, out) && p.collection != "" && Quiet(ph.look)
    ensures CallsSafe(s, p, ph.All())
  {
    var mode := Resolve(s, p.mode, p.query, ph.look[0].overloaded);
    ResolvedIsCapable(s, p.mode, p.query, ph.look[0].overloaded);
    if mode == MODE_QUERY {
      SingleDeepPathSafe(s, p, ph, out);
    } else {
      SinglePathSafe(s, p, ph, mode, out);
    }
  }

  lemma UnnamedPathSafe(s: Settings, p: Params, ph: Phases, out: Outcome)
    requires MissSpec(s, p, ph, out) && p.collection == "" && Quiet(ph.look)
    ensures CallsSafe(s, p, ph.All())
  {
    var mode := Resolve(s, p.mode, p.query, ph.look[0].overloaded);
    ResolvedIsCapable(s, p.mode, p.query, ph.look[0].overloaded);
    if mode == MODE_QUERY {
      DeepSkeleton(s, p, ph.ask, ph.first, ph.second, ph.deep, ph.mark, out);
      TiersPathSafe(s, p, ph, MODE_SEARCH);
    } else {
      FallbackSkeleton(s, p, mode, ph.first, ph.second, ph.relook, ph.deep, ph.mark, out);
      TiersPathSafe(s, p, ph, mode);
    }
  }

  lemma LookIsQuiet(look: seq<Event>)
    requires |look| == 1 && look[0].Looked?
    ensures Quiet(look)
  {
  }

  // Every executor call of every fresh search is safe.
  lemma ExecutorCallSafety(s: Settings, p: Params, ph: Phases, out: Outcome)
    requires MissSpec(s, p, ph, out)
    ensures CallsSafe(s, p, ph.All())
  {
    LookIsQuiet(ph.look);
    if p.collection == "" {
      UnnamedPathSafe(s, p, ph, out);
    } else {
      NamedPathSafe(s, p, ph, out);
    }
  }

  lemma PlainStaysPlain(s: Settings, query: string, overloaded: bool)
    ensures Resolve(s, MODE_SEARCH, query, overloaded) == MODE_SEARCH
  {
    assert |MODE_SEARCH| == 6 && |MODE_QUERY| == 5 && |MODE_VSEARCH| == 7;
  }

  lemma PlainSingle(s: Settings, p: Params, evs: seq<Event>, out: Outcome)
    requires SingleSpec(s, p, MODE_SEARCH, evs, out)
    ensures AllAttempts(s, p, MODE_SEARCH, evs) && (out.Found? ==> out.result.mode == MODE_SEARCH)
  {
  }

  lemma PlainFallback(s: Settings, p: Params, first: seq<Event>, second: seq<Event>,
                      look: seq<Event>, deep: seq<Event>, mark: seq<Event>, out: Outcome)
    requires FallbackSpec(s, p, MODE_SEARCH, first, second, look, deep, mark, out) && p.disableDeepEscalation
    ensures look == deep == mark == [] && out.result.mode == MODE_SEARCH
    ensures AllAttempts(s, p, MODE_SEARCH, first) && AllAttempts(s, p, MODE_SEARCH, second)
  {
  }

  lemma PlainPhases(s: Settings, p: Params, ph: Phases, out: Outcome)
    requires MissSpec(s, p, ph, out) && p.mode == MODE_SEARCH && p.disableDeepEscalation
    ensures |ph.look| == 1 && ph.look[0].Looked? && ph.ask == ph.relook == ph.deep == ph.mark == []
    ensures AllAttempts(s, p, MODE_SEARCH, ph.first) && AllAttempts(s, p, MODE_SEARCH, ph.second)
    ensures out.Found? ==> out.result.mode == MODE_SEARCH
  {
    PlainStaysPlain(s, p.query, ph.look[0].overloaded);
    if p.collection == "" {
      PlainFallback(s, p, ph.first, ph.second, ph.relook, ph.deep, ph.mark, out);
    } else {
      PlainSingle(s, p, ph.first, out);
    }
  }

  // With escalation off, a plain search makes only plain calls, leaves the negative
  // cache alone and answers in plain mode, whatever the load does meanwhile.
  lemma PlainSearchStaysPlain(s: Settings, p: Params, ph: Phases, out: Outcome)
    requires MissSpec(s, p, ph, out) && p.mode == MODE_SEARCH && p.disableDeepEscalation
    ensures PlainCalls(ph.All())
    ensures out.Found? ==> out.result.mode == MODE_SEARCH
  {
    PlainPhases(s, p, ph, out);
    PlainTrace(s, p, ph.look, ph.first, ph.second);
    FewPhases(ph);
  }

  lemma FewPhases(ph: Phases)
    requires ph.ask == ph.relook == ph.deep == ph.mark == []
    ensures ph.All() == ph.look + ph.first + ph.second
  {
  }

  ghost predicate PlainCalls(evs: seq<Event>) {
    forall e | e in evs :: !e.Marked? && !e.Asked? && (e.Attempt? ==> e.call.kind == Bm25)
  }

  lemma PlainTrace(s: Settings, p: Params, look: seq<Event>, first: seq<Event>, second: seq<Event>)
    requires |look| == 1 && look[0].Looked?
    requires AllAttempts(s, p, MODE_SEARCH, first) && AllAttempts(s, p, MODE_SEARCH, second)
    ensures PlainCalls(look + first + second)
  {
  }
}
