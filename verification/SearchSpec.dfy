// What one Search may observe and answer: a relation between the events of the
// search and its outcome, for the five search paths of the orchestrator.

module SearchSpec {
  import opened Model
  import opened Selection
  import opened Snippet
  import opened NegativeCache

  // ---------- Configuration and requests ----------

  datatype Collection = Collection(name: string, path: string, exclude: seq<string>, tier: int,
                                   requireExplicit: bool, safetyPrompt: bool)

  // Library semantics and the deep-query heuristics, left abstract.
  datatype Lib = Lib(matches: (string, string, string) -> bool,  // collection path, pattern, file
                     clean: string -> string,                    // the regex part of CleanSnippet
                     detect: (string, bool, bool) -> string,     // router.DetectMode
                     allowDeep: string -> bool,                  // allowAutoDeepQuery
                     normalize: string -> string,                // the query in deepNegativeExactKey
                     printable: char -> bool)                    // strconv.IsPrint

  datatype Settings = Settings(collections: seq<Collection>, topK: int, minScore: real, maxChars: int,
                               filesAllMaxHits: int, coarseK: int, fallbackEnabled: bool,
                               vector: bool, deepQuery: bool, lib: Lib)

  datatype Params = Params(query: string, mode: string, collection: string, n: int, minScore: real,
                           fallback: bool, filesOnly: bool, filesAll: bool,
                           disableDeepEscalation: bool, confirm: bool)

  const MODE_SEARCH := "search"
  const MODE_VSEARCH := "vsearch"
  const MODE_QUERY := "query"
  const DEEP_FAILED := "deep_failed_fallback_broad"
  const DEEP_EMPTY := "deep_empty_fallback_broad"
  const ALL_SCOPE := "all"

  // The defaults at the head of Search.
  function Normalized(s: Settings, p: Params): Params {
    p.(n := if p.n <= 0 then s.topK else p.n,
       minScore := if p.minScore <= 0.0 then s.minScore else p.minScore)
  }

  // ---------- Executor calls and the event trace ----------

  datatype Kind = Bm25 | Vector | Deep

  datatype Call = Call(kind: Kind, query: string, collection: string, n: int, minScore: real,
                       filesOnly: bool, all: bool)

  // Refused: the overload queue stayed busy, and the executor was not called.
  datatype Reply = Hits(hits: seq<Hit>) | Failed | Refused

  datatype Event =
    | Looked(overloaded: bool)
    | Asked(query: string, scope: string, now: int, answer: Answer)
    | Marked(query: string, scope: string, now: int)
    | Swept(now: int)
    | Attempt(col: Collection, call: Call, reply: Reply)

  function KindOf(mode: string): Kind {
    if mode == MODE_VSEARCH then Vector else if mode == MODE_QUERY then Deep else Bm25
  }

  function CallOf(s: Settings, p: Params, mode: string, collection: string): Call {
    var all := p.filesOnly && p.filesAll;
    Call(KindOf(mode), p.query, collection,
         if all then 0 else if s.coarseK <= 0 then 20 else s.coarseK,
         p.minScore, p.filesOnly, all)
  }

  datatype SearchResult = SearchResult(results: seq<Hit>, mode: string, collections: seq<string>,
                                       fallbackTriggered: bool, cacheHit: bool,
                                       degraded: bool, degradeReason: string)

  datatype Outcome = Found(result: SearchResult) | UnknownCollection | NeedsConfirm | SearchFailed

  function Fresh(results: seq<Hit>, mode: string, searched: seq<string>, fallback: bool, reason: string): Outcome {
    Found(SearchResult(results, mode, searched, fallback, false, reason != "", reason))
  }

  // ---------- Filters ----------

  function AnyMatch(lib: Lib, path: string, patterns: seq<string>, file: string): bool {
    patterns != [] && (lib.matches(path, patterns[0], file) || AnyMatch(lib, path, patterns[1..], file))
  }

  predicate Excluded(lib: Lib, col: Collection, h: Hit) {
    AnyMatch(lib, col.path, col.exclude, h.file)
  }

  ghost function Unexcluded(lib: Lib, col: Collection, hits: seq<Hit>): seq<Hit> {
    if hits == [] then [] else
    var h := hits[|hits| - 1];
    Unexcluded(lib, col, hits[..|hits| - 1]) + if Excluded(lib, col, h) then [] else [h]
  }

  predicate ScoreOk(h: Hit, minScore: real) {
    minScore <= 0.0 || h.score >= minScore
  }

  ghost function Scored(hits: seq<Hit>, minScore: real): seq<Hit> {
    if hits == [] then [] else
    var h := hits[|hits| - 1];
    Scored(hits[..|hits| - 1], minScore) + if ScoreOk(h, minScore) then [h] else []
  }

  // ---------- finalizeResults ----------

  ghost predicate CleanedAll(lib: Lib, hits: seq<Hit>, cleaned: seq<Hit>) {
    && |cleaned| == |hits|
    && forall i :: 0 <= i < |hits| ==>
         SameHit(cleaned[i], hits[i]) && IsTruncation(lib.clean(hits[i].snippet), MAX_SNIPPET, cleaned[i].snippet)
  }

  function CapFiles(s: Settings, hits: seq<Hit>): seq<Hit> {
    if s.filesAllMaxHits <= 0 || |hits| <= s.filesAllMaxHits then hits else hits[..s.filesAllMaxHits]
  }

  ghost predicate Finalized(s: Settings, p: Params, hits: seq<Hit>, out: seq<Hit>) {
    if p.filesOnly
    then exists sel :: Selected(HIT_NAMES, hits, p.n, sel) && out == if p.filesAll then CapFiles(s, sel) else sel
    else exists cleaned, sel ::
      CleanedAll(s.lib, hits, cleaned) && Selected(HIT_NAMES, cleaned, p.n, sel) && Budgeted(sel, s.maxChars, out)
  }

  // ---------- What the attempts of a search brought in ----------

  ghost function Brought(s: Settings, e: Event): seq<Hit> {
    if e.Attempt? && e.reply.Hits? then Unexcluded(s.lib, e.col, e.reply.hits) else []
  }

  ghost function Gathered(s: Settings, evs: seq<Event>): seq<Hit> {
    if evs == [] then [] else Gathered(s, evs[..|evs| - 1]) + Brought(s, evs[|evs| - 1])
  }

  ghost function Searched(evs: seq<Event>): seq<string> {
    if evs == [] then [] else
    var e := evs[|evs| - 1];
    Searched(evs[..|evs| - 1]) + if e.Attempt? && e.reply.Hits? then [e.col.name] else []
  }

  ghost function Attempted(evs: seq<Event>): seq<Collection> {
    if evs == [] then [] else
    var e := evs[|evs| - 1];
    Attempted(evs[..|evs| - 1]) + if e.Attempt? then [e.col] else []
  }

  ghost predicate AnyFailed(evs: seq<Event>) {
    exists e :: e in evs && e.Attempt? && !e.reply.Hits?
  }

  // The gathered hits that score high enough.
  ghost function Surviving(s: Settings, p: Params, evs: seq<Event>): seq<Hit> {
    Scored(Gathered(s, evs), p.minScore)
  }

  // ---------- The paths ----------

  function FindCollection(cols: seq<Collection>, name: string): Option<Collection> {
    if cols == [] then None else if cols[0].name == name then Some(cols[0]) else FindCollection(cols[1..], name)
  }

  function Tier(cols: seq<Collection>, tier: int): seq<Collection> {
    if cols == [] then [] else
    Tier(cols[..|cols| - 1], tier)
    + if cols[|cols| - 1].tier == tier && !cols[|cols| - 1].requireExplicit then [cols[|cols| - 1]] else []
  }

  predicate Guarded(col: Collection, p: Params) {
    col.requireExplicit && col.safetyPrompt && !p.confirm
  }

  ghost predicate IsAttempt(s: Settings, p: Params, mode: string, e: Event) {
    e.Attempt? && e.call == CallOf(s, p, mode, e.col.name)
  }

  // One attempt for each collection of cols, in any order of arrival.
  ghost predicate TierSpec(s: Settings, p: Params, mode: string, cols: seq<Collection>, evs: seq<Event>) {
    && multiset(Attempted(evs)) == multiset(cols)
    && |evs| == |cols|
    && forall e :: e in evs ==> IsAttempt(s, p, mode, e)
  }

  ghost predicate SingleSpec(s: Settings, p: Params, mode: string, evs: seq<Event>, out: Outcome) {
    match FindCollection(s.collections, p.collection)
    case None => evs == [] && out == UnknownCollection
    case Some(col) =>
      if Guarded(col, p) then evs == [] && out == NeedsConfirm else
      && TierSpec(s, p, mode, [col], evs)
      && if AnyFailed(evs) then out == SearchFailed
         else out.Found? && Finalized(s, p, Surviving(s, p, evs), out.result.results)
              && out == Fresh(out.result.results, mode, [p.collection], false, "")
  }

  function SkipReason(a: Answer): string {
    match a
    case SkipExact => "deep_negative_cached_fallback_broad"
    case SkipCooldown => "deep_negative_scope_cooldown"
    case Go => ""
  }

  ghost predicate IsAsk(s: Settings, p: Params, scope: string, e: Event) {
    e.Asked? && e.query == s.lib.normalize(p.query) && e.scope == scope
  }

  ghost predicate IsMark(s: Settings, p: Params, scope: string, e: Event) {
    e.Marked? && e.query == s.lib.normalize(p.query) && e.scope == scope
  }

  // A failure is recorded once, anything else is not.
  ghost predicate MarkSpec(s: Settings, p: Params, scope: string, failed: bool, mark: seq<Event>) {
    if failed then |mark| == 1 && IsMark(s, p, scope, mark[0]) else mark == []
  }

  // How a deep attempt ended: how the broad results are marked when it is not
  // used, and whether the failure was recorded.
  ghost predicate DeepOutcome(s: Settings, p: Params, scope: string, failed: bool, deep: seq<Hit>,
                              deepSearched: seq<string>,
                              broad: seq<Hit>, broadSearched: seq<string>, fallback: bool,
                              mark: seq<Event>, out: Outcome) {
    && out.Found?
    && MarkSpec(s, p, scope, failed, mark)
    && if failed || deep == []
       then Finalized(s, p, broad, out.result.results)
            && out == Fresh(out.result.results, MODE_SEARCH, broadSearched, fallback,
                            if failed then DEEP_FAILED else DEEP_EMPTY)
       else Finalized(s, p, deep, out.result.results)
            && out == Fresh(out.result.results, MODE_QUERY, deepSearched, false, "")
  }

  // ask, then the broad attempts, then (unless skipped) the deep attempts and
  // perhaps the mark of their failure.
  ghost predicate SingleDeepSpec(s: Settings, p: Params, ask: seq<Event>, broad: seq<Event>, deep: seq<Event>,
                                 mark: seq<Event>, out: Outcome) {
    match FindCollection(s.collections, p.collection)
    case None => ask == broad == deep == mark == [] && out == UnknownCollection
    case Some(col) =>
      if Guarded(col, p) then ask == broad == deep == mark == [] && out == NeedsConfirm else
      && |ask| == 1 && IsAsk(s, p, p.collection, ask[0])
      && TierSpec(s, p, MODE_SEARCH, [col], broad)
      && if ask[0].answer != Go
         then deep == mark == [] && out.Found? && Finalized(s, p, Surviving(s, p, broad), out.result.results)
              && out == Fresh(out.result.results, MODE_SEARCH, [p.collection], false, SkipReason(ask[0].answer))
         else TierSpec(s, p, MODE_QUERY, [col], deep)
              && DeepOutcome(s, p, p.collection, AnyFailed(deep), Surviving(s, p, deep), [p.collection],
                             Surviving(s, p, broad), [p.collection], false, mark, out)
  }

  // searchPrimaryWithTierFallback: tier 1, and tier 2 when nothing survived.
  ghost predicate PrimarySpec(s: Settings, p: Params, mode: string, first: seq<Event>, second: seq<Event>) {
    && TierSpec(s, p, mode, Tier(s.collections, 1), first)
    && if Surviving(s, p, first) == [] && p.fallback && s.fallbackEnabled
       then TierSpec(s, p, mode, Tier(s.collections, 2), second)
       else second == []
  }

  // searchDeepTier1, whose lack of a tier-1 collection is a failure.
  ghost predicate DeepTierSpec(s: Settings, p: Params, deep: seq<Event>) {
    TierSpec(s, p, MODE_QUERY, Tier(s.collections, 1), deep)
  }

  ghost predicate DeepTierFailed(s: Settings, deep: seq<Event>) {
    Tier(s.collections, 1) == [] || (Gathered(s, deep) == [] && AnyFailed(deep))
  }

  ghost predicate DeepSpec(s: Settings, p: Params, ask: seq<Event>, first: seq<Event>, second: seq<Event>,
                           deep: seq<Event>, mark: seq<Event>, out: Outcome) {
    && |ask| == 1 && IsAsk(s, p, ALL_SCOPE, ask[0])
    && PrimarySpec(s, p, MODE_SEARCH, first, second)
    && var broad, searched, fallback := Surviving(s, p, first + second), Searched(first + second), second != [];
       if ask[0].answer != Go
       then deep == mark == [] && out.Found? && Finalized(s, p, broad, out.result.results)
            && out == Fresh(out.result.results, MODE_SEARCH, searched, fallback, SkipReason(ask[0].answer))
       else DeepTierSpec(s, p, deep)
            && DeepOutcome(s, p, ALL_SCOPE, DeepTierFailed(s, deep), Surviving(s, p, deep), Searched(deep),
                           broad, searched, fallback, mark, out)
  }

  // Whether a plain search that found nothing looks at escalating to deep query.
  ghost predicate Escalates(s: Settings, p: Params, mode: string, found: seq<Hit>) {
    !p.disableDeepEscalation && mode == MODE_SEARCH && found == [] && s.deepQuery
  }

  // An escalation: look holds the load reading and, if the load and the gate
  // allow it, the ask. Either its deep hits are used, or reason says why not.
  ghost predicate EscalationSpec(s: Settings, p: Params, look: seq<Event>, deep: seq<Event>, mark: seq<Event>,
                                 used: bool, reason: string) {
    && |look| >= 1 && look[0].Looked?
    && if look[0].overloaded || !s.lib.allowDeep(p.query)
       then |look| == 1 && deep == mark == [] && !used && reason == ""
       else
         && |look| == 2 && IsAsk(s, p, ALL_SCOPE, look[1])
         && if look[1].answer != Go
            then deep == mark == [] && !used && reason == SkipReason(look[1].answer)
            else
              && DeepTierSpec(s, p, deep)
              && MarkSpec(s, p, ALL_SCOPE, DeepTierFailed(s, deep), mark)
              && (used <==> !DeepTierFailed(s, deep) && Surviving(s, p, deep) != [])
              && (!used ==> reason == if DeepTierFailed(s, deep) then DEEP_FAILED else DEEP_EMPTY)
  }

  ghost predicate FallbackSpec(s: Settings, p: Params, mode: string, first: seq<Event>, second: seq<Event>,
                               look: seq<Event>, deep: seq<Event>, mark: seq<Event>, out: Outcome) {
    && PrimarySpec(s, p, mode, first, second)
    && out.Found?
    && var found, searched, fallback := Surviving(s, p, first + second), Searched(first + second), second != [];
       if !Escalates(s, p, mode, found)
       then look == deep == mark == [] && Plain(s, p, found, mode, searched, fallback, "", out)
       else exists used, reason ::
         && EscalationSpec(s, p, look, deep, mark, used, reason)
         && if used then Plain(s, p, Surviving(s, p, deep), MODE_QUERY, Searched(deep), fallback, "", out)
            else Plain(s, p, found, mode, searched, fallback, reason, out)
  }

  ghost predicate Plain(s: Settings, p: Params, hits: seq<Hit>, mode: string, searched: seq<string>,
                        fallback: bool, reason: string, out: Outcome)
    requires out.Found?
  {
    Finalized(s, p, hits, out.result.results) && out == Fresh(out.result.results, mode, searched, fallback, reason)
  }

  // ---------- resolveMode ----------

  predicate IsAuto(requested: string) {
    requested == "" || requested == "auto"
  }

  function Resolve(s: Settings, requested: string, query: string, overloaded: bool): string {
    var mode := if IsAuto(requested) then s.lib.detect(query, s.vector, s.deepQuery) else requested;
    if overloaded && mode != MODE_SEARCH then MODE_SEARCH
    else if mode == MODE_QUERY && (!s.deepQuery || (IsAuto(requested) && !s.lib.allowDeep(query))) then MODE_SEARCH
    else if mode == MODE_VSEARCH && !s.vector then MODE_SEARCH
    else mode
  }

  // ---------- Search on a cache miss ----------

  // The phases of a search, in order.
  datatype Phases = Phases(look: seq<Event>, ask: seq<Event>, first: seq<Event>, second: seq<Event>,
                           relook: seq<Event>, deep: seq<Event>, mark: seq<Event>)
  {
    function All(): seq<Event> {
      look + ask + first + second + relook + deep + mark
    }
  }

  // p is already normalized.
  ghost predicate MissSpec(s: Settings, p: Params, ph: Phases, out: Outcome) {
    && |ph.look| == 1 && ph.look[0].Looked?
    && var mode := Resolve(s, p.mode, p.query, ph.look[0].overloaded);
       if p.collection != "" && mode == MODE_QUERY
       then ph.second == ph.relook == [] && SingleDeepSpec(s, p, ph.ask, ph.first, ph.deep, ph.mark, out)
       else if p.collection != ""
       then ph.ask == ph.second == ph.relook == ph.deep == ph.mark == [] && SingleSpec(s, p, mode, ph.first, out)
       else if mode == MODE_QUERY
       then ph.relook == [] && DeepSpec(s, p, ph.ask, ph.first, ph.second, ph.deep, ph.mark, out)
       else ph.ask == [] && FallbackSpec(s, p, mode, ph.first, ph.second, ph.relook, ph.deep, ph.mark, out)
  }
}
