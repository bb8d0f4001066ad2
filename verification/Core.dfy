// api: the parts of executeSearchCore, which downgrades under overload, sheds under
// critical load, searches each requested collection and merges the results.

module Core {
  import opened Model
  import opened Text
  import opened Selection
  import opened SearchSpec
  import opened Orchestrator
  import opened NegativeCache
  import opened NegativeTrace
  import opened Answers
  import LruCache
  import World

  datatype Request = Request(query: string, requestedMode: string, collections: seq<string>, allowFallback: bool,
                             topK: int, minScore: real, filesOnly: bool, filesAll: bool, confirm: bool)

  datatype Response = Response(results: seq<Hit>, modeUsed: string, servedMode: string, collections: set<string>,
                               fallbackTriggered: bool, cacheHit: bool, degraded: bool, degradeReason: string)

  datatype CoreOutcome = QueryRequired | Shed | Unserved(first: Outcome) | Served(response: Response)

  const CPU_OVERLOAD := "CPU_OVERLOAD_PROTECT"
  const DEEP_REJECTED := "DEEP_GATE_REJECTED"
  const FILES_CAPPED := "FILES_ALL_CAPPED"

  // ---------- Request normalization ----------

  function Lower(s: string): string {
    if s == [] then [] else
    [if 'A' <= s[0] <= 'Z' then (s[0] as int - 'A' as int + 'a' as int) as char else s[0]] + Lower(s[1..])
  }

  // normalizeRequestedMode
  function NormalizeMode(mode: string): string {
    var m := Lower(TrimSpace(mode));
    if m == "core" || m == "search" then "core"
    else if m == "broad" || m == "vsearch" then "broad"
    else if m == "deep" || m == "query" then "deep"
    else "auto"
  }

  // requestedModeToOrchestratorMode
  function OrchestratorMode(requested: string): string {
    if requested == "core" || requested == "broad" then MODE_SEARCH
    else if requested == "deep" then MODE_QUERY
    else "auto"
  }

  // The mode, the escalation switch and the reason for degrading up front.
  datatype Plan = Plan(mode: string, disableDeepEscalation: bool, reason: string)

  function PlanFor(requested: string, overloaded: bool, rejected: bool): Plan {
    if rejected then Plan(MODE_SEARCH, true, DEEP_REJECTED)
    else if overloaded then Plan(MODE_SEARCH, true, CPU_OVERLOAD)
    else Plan(OrchestratorMode(requested), requested == "core" || requested == "broad", "")
  }

  // The deep gate of low-resource mode.
  predicate Rejected(s: Settings, req: Request, requested: string, query: string) {
    requested == "deep" && req.allowFallback && !s.lib.allowDeep(query)
  }

  function CoreParams(s: Settings, req: Request, plan: Plan, collection: string): Params {
    Params(TrimSpace(req.query), plan.mode, collection,
           if req.topK > 0 then req.topK else if req.filesOnly && req.filesAll then 0 else s.topK,
           if req.minScore <= 0.0 then s.minScore else req.minScore,
           req.allowFallback, req.filesOnly, req.filesAll, plan.disableDeepEscalation, req.confirm)
  }

  // The deep gate leaves the planned mode alone exactly when it does not reject
  // or the load had already downgraded the request.
  lemma GateKeepsModeIff(s: Settings, req: Request, requested: string, query: string, overloaded: bool)
    ensures PlanFor(requested, overloaded, Rejected(s, req, requested, query)).mode
         == PlanFor(requested, overloaded, false).mode
        <==> overloaded || !Rejected(s, req, requested, query)
  {
    assert |MODE_SEARCH| != |MODE_QUERY| && "deep"[0] != 'c' && "deep"[0] != 'b';
  }

  // So the keys that the shedding check looks up are those that are searched for
  // exactly when that condition holds. (When it does not, the check never hits.)
  lemma CheckedIsSearchedIff(s: Settings, req: Request, requested: string, query: string, overloaded: bool,
                             collection: string)
    ensures CoreKey(s, req, PlanFor(requested, overloaded, Rejected(s, req, requested, query)), collection)
         == CoreKey(s, req, PlanFor(requested, overloaded, false), collection)
        <==> overloaded || !Rejected(s, req, requested, query)
  {
    var a := PlanFor(requested, overloaded, Rejected(s, req, requested, query));
    var b := PlanFor(requested, overloaded, false);
    GateKeepsModeIff(s, req, requested, query, overloaded);
    var p, q := CachedParams(s, CoreParams(s, req, a, collection)), CachedParams(s, CoreParams(s, req, b, collection));
    if a.mode == b.mode {
      SameKeyText(s, p, q);
    } else if KeyOf(s, p) == KeyOf(s, q) {
      SameKeyAlike(s, p, q);
    }
  }

  // Escalation is switched off exactly for plain searches, so leaving the switch
  // out of the cache key loses nothing.
  lemma SwitchFollowsMode(requested: string, overloaded: bool, rejected: bool)
    ensures var plan := PlanFor(requested, overloaded, rejected);
            '|' !in plan.mode && (plan.disableDeepEscalation <==> plan.mode == MODE_SEARCH)
  {
  }

  // The parameters that executeSearchCore passes for some request.
  ghost predicate FromCore(s: Settings, p: Params) {
    exists req: Request, requested, overloaded, collection ::
      p == CoreParams(s, req, PlanFor(requested, overloaded, Rejected(s, req, requested, TrimSpace(req.query))),
                      collection)
  }

  // A deep search that may fall back has passed the deep gate.
  ghost predicate Permitted(s: Settings, p: Params) {
    PlainMode(p.mode) && (p.mode == MODE_QUERY && p.fallback ==> s.lib.allowDeep(p.query))
  }

  lemma PlanIsPermitted(s: Settings, req: Request, requested: string, overloaded: bool, collection: string)
    ensures var rejected := Rejected(s, req, requested, TrimSpace(req.query));
            Permitted(s, CoreParams(s, req, PlanFor(requested, overloaded, rejected), collection))
  {
    assert |MODE_SEARCH| == 6 && |MODE_QUERY| == 5 && |"auto"| == 4;
  }

  lemma CoreSwitch(s: Settings, p: Params)
    requires FromCore(s, p)
    ensures Permitted(s, p) && (p.disableDeepEscalation <==> p.mode == MODE_SEARCH)
  {
    var req: Request, requested, overloaded, collection :|
      p == CoreParams(s, req, PlanFor(requested, overloaded, Rejected(s, req, requested, TrimSpace(req.query))),
                      collection);
    SwitchFollowsMode(requested, overloaded, Rejected(s, req, requested, TrimSpace(req.query)));
    PlanIsPermitted(s, req, requested, overloaded, collection);
  }

  lemma SameKeySameSwitch(s: Settings, p: Params, q: Params)
    requires FromCore(s, p) && FromCore(s, q) && KeyOf(s, p) == KeyOf(s, q)
    ensures p.disableDeepEscalation == q.disableDeepEscalation
  {
    CoreSwitch(s, p);
    CoreSwitch(s, q);
    SameKeyAlike(s, p, q);
  }

  // ---------- Merging ----------

  // What the loop over the collections has accumulated.
  datatype Merge = Merge(hits: seq<Hit>, modeUsed: string, names: set<string>, fallback: bool, cacheHit: bool,
                         degraded: bool, reason: string, successes: nat, firstError: Option<Outcome>)

  const NOTHING := Merge([], "", {}, false, false, false, "", 0, None)

  // One search per collection, in turn, and the results stored before it.
  datatype Part = Part(before: map<string, SearchResult>, x: Exchange)

  ghost function NonEmpty(names: seq<string>): set<string> {
    set n | n in names && n != ""
  }

  ghost function Add(m: Merge, collection: string, out: Outcome): Merge {
    if !out.Found? then m.(firstError := if m.firstError.None? then Some(out) else m.firstError) else
    var r := out.result;
    Merge(m.hits + r.results,
          if r.mode == MODE_QUERY || m.modeUsed == "" then r.mode else m.modeUsed,
          m.names + if r.collections == [] then NonEmpty([collection]) else NonEmpty(r.collections),
          m.fallback || r.fallbackTriggered, m.cacheHit || r.cacheHit, m.degraded || r.degraded,
          if m.reason == "" then r.degradeReason else m.reason,
          m.successes + 1, m.firstError)
  }

  ghost function Merged(parts: seq<Part>): Merge {
    if parts == [] then NOTHING else
    var x := parts[|parts| - 1].x;
    Add(Merged(parts[..|parts| - 1]), x.p.collection, x.out)
  }

  // deriveServedMode
  function ServedMode(requested: string, modeUsed: string, fallback: bool, degraded: bool): string {
    if modeUsed == MODE_QUERY then "deep"
    else if requested == "deep" || requested == "broad" then "broad"
    else if requested == "core" then (if fallback then "broad" else "core")
    else if fallback || degraded then "broad" else "core"
  }

  function FirstReason(a: string, degraded: bool, b: string): string {
    if a == "" && degraded then b else a
  }

  function Capped(s: Settings, req: Request, sel: seq<Hit>): bool {
    req.filesOnly && req.filesAll && s.filesAllMaxHits > 0 && |sel| > s.filesAllMaxHits
  }

  // The response for a merge of which sel was selected.
  function ResponseFor(s: Settings, req: Request, requested: string, plan: Plan, m: Merge, sel: seq<Hit>): Response {
    var capped := Capped(s, req, sel);
    var modeUsed := if m.modeUsed == "" then MODE_SEARCH else m.modeUsed;
    var served := ServedMode(requested, modeUsed, m.fallback, m.degraded);
    var undelivered := requested == "deep" && served != "deep";
    Response(if capped then sel[..s.filesAllMaxHits] else sel, modeUsed, served, m.names, m.fallback, m.cacheHit,
             m.degraded || undelivered || plan.reason != "" || capped,
             FirstReason(FirstReason(FirstReason(m.reason, undelivered, DEEP_REJECTED),
                                     plan.reason != "", plan.reason), capped, FILES_CAPPED))
  }

  ghost predicate ResponseSpec(s: Settings, req: Request, requested: string, plan: Plan, topK: int, m: Merge,
                               r: Response) {
    exists sel :: Selected(HIT_NAMES, m.hits, topK, sel) && r == ResponseFor(s, req, requested, plan, m, sel)
  }

  // Whatever the order of the parts: "query" is claimed exactly when some part
  // answered in query mode, and each flag is up exactly when it is up in a part.
  lemma {:induction false} MergedFacts(parts: seq<Part>)
    ensures var m := Merged(parts);
            && (m.successes > 0 <==> exists i :: 0 <= i < |parts| && parts[i].x.out.Found?)
            && (m.modeUsed == MODE_QUERY <==>
                  exists i :: 0 <= i < |parts| && parts[i].x.out.Found? && parts[i].x.out.result.mode == MODE_QUERY)
            && (m.degraded <==>
                  exists i :: 0 <= i < |parts| && parts[i].x.out.Found? && parts[i].x.out.result.degraded)
            && (m.fallback <==>
                  exists i :: 0 <= i < |parts| && parts[i].x.out.Found? && parts[i].x.out.result.fallbackTriggered)
  {
    if parts != [] {
      MergedFacts(parts[..|parts| - 1]);
    }
  }

  // ---------- The cache under critical load ----------

  // Looking up key now would hit.
  ghost predicate WouldHit(cfg: LruCache.Config, c: LruCache.Lru, now: int, key: string) {
    LruCache.SpecGet(cfg, c, now, key).1.Some?
  }

  lemma HitMovesOnly(cfg: LruCache.Config, c: LruCache.Lru, now: int, key: string)
    requires LruCache.Distinct(c.order) && WouldHit(cfg, c, now, key)
    ensures var d := LruCache.SpecGet(cfg, c, now, key).0;
            d.version == c.version && forall k :: LruCache.Find(d.order, k) == LruCache.Find(c.order, k)
  {
    var d := LruCache.SpecGet(cfg, c, now, key).0;
    LruCache.FindKey(c.order, key);
    forall k
      ensures LruCache.Find(d.order, k) == LruCache.Find(c.order, k)
    {
      FindInDrop(c.order, key, k);
      assert d.order[1..] == LruCache.Drop(c.order, {key});
    }
  }

  lemma {:induction false} FindInDrop(s: seq<LruCache.Node>, key: string, k: string)
    ensures k != key ==> LruCache.Find(LruCache.Drop(s, {key}), k) == LruCache.Find(s, k)
  {
    if s != [] {
      FindInDrop(s[1..], key, k);
      if s[0].key == key {
        assert LruCache.Drop(s, {key}) == LruCache.Drop(s[1..], {key});
      } else {
        assert LruCache.Drop(s, {key})[1..] == LruCache.Drop(s[1..], {key});
      }
    }
  }

  // A hit leaves every other lookup's outcome as it was.
  lemma HitKeepsHits(cfg: LruCache.Config, c: LruCache.Lru, now: int, key: string, k: string)
    requires LruCache.Distinct(c.order) && WouldHit(cfg, c, now, key)
    ensures WouldHit(cfg, LruCache.SpecGet(cfg, c, now, key).0, now, k) <==> WouldHit(cfg, c, now, k)
  {
    HitMovesOnly(cfg, c, now, key);
  }

  // A request that HasCachedResult finds cached is one that Search will find: the
  // keys differ only for files_all without a count, which is never cached.
  lemma CachedMeansSearchHits(s: Settings, cfg: LruCache.Config, c: LruCache.Lru, stored: map<string, SearchResult>,
                              now: int, p: Params)
    requires LruCache.Distinct(c.order) && Backed(s, c.order, stored)
    requires WouldHit(cfg, c, now, KeyOf(s, CachedParams(s, p)))
    ensures KeyOf(s, CachedParams(s, p)) == KeyOf(s, Normalized(s, p))
  {
    var q := CachedParams(s, p);
    KeyOfCount(s, q);
    LruCache.FindKey(c.order, KeyOf(s, q));
    BackedMember(s, c.order, stored, LruCache.Node(KeyOf(s, q), LruCache.Find(c.order, KeyOf(s, q)).value));
    assert q == Normalized(s, p);
  }

  // ---------- The code ----------

  // Every collection of the request is cached in c.
  ghost predicate AllCached(s: Settings, cfg: LruCache.Config, c: LruCache.Lru, req: Request, plan: Plan,
                            collections: seq<string>, now: int) {
    forall i :: 0 <= i < |collections| ==> WouldHit(cfg, c, now, CoreKey(s, req, plan, collections[i]))
  }

  ghost function CoreKey(s: Settings, req: Request, plan: Plan, collection: string): string {
    KeyOf(s, CachedParams(s, CoreParams(s, req, plan, collection)))
  }

  // c and d hit on the same keys.
  ghost predicate SameHits(cfg: LruCache.Config, c: LruCache.Lru, d: LruCache.Lru, now: int) {
    forall k :: WouldHit(cfg, c, now, k) <==> WouldHit(cfg, d, now, k)
  }

  lemma HitSameHits(cfg: LruCache.Config, c: LruCache.Lru, now: int, key: string)
    requires LruCache.Distinct(c.order) && WouldHit(cfg, c, now, key)
    ensures SameHits(cfg, c, LruCache.SpecGet(cfg, c, now, key).0, now)
  {
    forall k
      ensures WouldHit(cfg, c, now, k) <==> WouldHit(cfg, LruCache.SpecGet(cfg, c, now, key).0, now, k)
    {
      HitKeepsHits(cfg, c, now, key, k);
    }
  }

  // One lookup of the shedding check.
  method IsCached(o: Orchestrator, p: Params, ghost now: int) returns (cached: bool)
    requires o.Valid()
    modifies o.world`step, o.cache
    ensures o.Valid() && o.world.step == old(o.world.step) + 1
    ensures o.world.clock(old(o.world.step)) == now ==>
              && cached == WouldHit(o.cache.cfg, old(o.cache.Abs()), now, KeyOf(o.s, CachedParams(o.s, p)))
              && (cached ==> SameHits(o.cache.cfg, old(o.cache.Abs()), o.cache.Abs(), now))
  {
    ghost var c, key := o.cache.Abs(), KeyOf(o.s, CachedParams(o.s, p));
    cached := o.HasCachedResult(p);
    if cached && o.world.clock(old(o.world.step)) == now {
      HitSameHits(o.cache.cfg, c, now, key);
    }
  }

  lemma SameHitsChain(cfg: LruCache.Config, a: LruCache.Lru, b: LruCache.Lru, c: LruCache.Lru, now: int)
    requires SameHits(cfg, a, b, now) && SameHits(cfg, b, c, now)
    ensures SameHits(cfg, a, c, now)
  {
  }

  lemma OneMoreChecked(s: Settings, cfg: LruCache.Config, was: LruCache.Lru, c: LruCache.Lru, req: Request, plan: Plan,
                       collections: seq<string>, now: int, i: nat, cached: bool)
    requires i < |collections| && SameHits(cfg, was, c, now) && AllCached(s, cfg, was, req, plan, collections[..i], now)
    requires cached == WouldHit(cfg, c, now, CoreKey(s, req, plan, collections[i]))
    ensures if cached then AllCached(s, cfg, was, req, plan, collections[..i + 1], now)
            else !AllCached(s, cfg, was, req, plan, collections, now)
  {
    assert WouldHit(cfg, was, now, CoreKey(s, req, plan, collections[i])) == cached;
    TakeOneMore(collections, i);
  }

  // The shedding check: whether every collection's result is cached.
  method AllowByCache(o: Orchestrator, req: Request, plan: Plan, collections: seq<string>) returns (allow: bool)
    requires o.Valid()
    modifies o.world`step, o.cache
    ensures o.Valid() && o.world.step >= old(o.world.step)
    ensures old(World.SteadyCritical(o.world)) ==>
              var now := o.world.clock(old(o.world.step));
              && allow == AllCached(o.s, o.cache.cfg, old(o.cache.Abs()), req, plan, collections, now)
              && (allow ==> SameHits(o.cache.cfg, old(o.cache.Abs()), o.cache.Abs(), now))
  {
    ghost var now, steady := o.world.clock(o.world.step), World.SteadyCritical(o.world);
    ghost var cfg, was := o.cache.cfg, o.cache.Abs();
    for i := 0 to |collections|
      invariant o.Valid() && o.world.step >= old(o.world.step)
      invariant steady ==> SameHits(cfg, was, o.cache.Abs(), now)
      invariant steady ==> AllCached(o.s, cfg, was, req, plan, collections[..i], now)
    {
      ghost var c := o.cache.Abs();
      assert steady ==> o.world.clock(o.world.step) == now;
      var cached := IsCached(o, CoreParams(o.s, req, plan, collections[i]), now);
      if steady {
        OneMoreChecked(o.s, cfg, was, c, req, plan, collections, now, i, cached);
      }
      if !cached {
        return false;
      }
      if steady {
        SameHitsChain(cfg, was, c, o.cache.Abs(), now);
      }
    }
    assert collections[..|collections|] == collections;
    return true;
  }

  // The events of searches that were not answered from the cache.
  ghost function Trace(parts: seq<Part>): seq<Event> {
    if parts == [] then [] else Trace(parts[..|parts| - 1]) + parts[|parts| - 1].x.Events()
  }

  // What is stored after one search, and after several that began with before.
  ghost function StoredBy(s: Settings, part: Part): map<string, SearchResult> {
    if part.x.ph.Some? then Remember(part.before, KeyOf(s, part.x.p), part.x.out) else part.before
  }

  ghost function StoredAfter(s: Settings, before: map<string, SearchResult>, parts: seq<Part>)
    : map<string, SearchResult>
  {
    if parts == [] then before else StoredBy(s, parts[|parts| - 1])
  }

  // A search for p, fresh or from the cache.
  ghost predicate PartSpec(s: Settings, p: Params, part: Part) {
    part.x.p == Normalized(s, p) && Exchanged(s, part.before, part.x, StoredBy(s, part))
  }

  // Part i answers collection i, each from what the parts before it stored.
  ghost predicate PartsSpec(s: Settings, req: Request, plan: Plan, collections: seq<string>,
                            before: map<string, SearchResult>, parts: seq<Part>)
    decreases |parts|
  {
    && |parts| == |collections|
    && (parts != [] ==>
          var n := |parts| - 1;
          && PartSpec(s, CoreParams(s, req, plan, collections[n]), parts[n])
          && parts[n].before == StoredAfter(s, before, parts[..n])
          && PartsSpec(s, req, plan, collections[..n], before, parts[..n]))
  }

  // What a request reads and changes of an orchestrator, apart from the cache.
  datatype Snap = Snap(log: seq<Event>, stored: map<string, SearchResult>, neg: State)

  ghost function Snapshot(o: Orchestrator): Snap
    reads o, o.world, o.neg
  {
    Snap(o.world.log, o.stored, o.neg.Abs())
  }

  // What one search, and what all of them, made of it.
  ghost predicate OneEffect(s: Settings, cfg: Config, a: Snap, part: Part, b: Snap) {
    && part.before == a.stored && b.stored == StoredBy(s, part)
    && b.log == a.log + part.x.Events()
    && Led(cfg, a.neg, part.x.Events(), b.neg)
  }

  ghost predicate Effect(s: Settings, cfg: Config, a: Snap, parts: seq<Part>, b: Snap) {
    && b.stored == StoredAfter(s, a.stored, parts)
    && b.log == a.log + Trace(parts)
    && Led(cfg, a.neg, Trace(parts), b.neg)
  }

  lemma NoEffect(s: Settings, cfg: Config, a: Snap)
    ensures Effect(s, cfg, a, [], a)
  {
    EmptyRight(a.log);
    NothingLeads(cfg, a.neg);
  }

  lemma EffectNext(s: Settings, cfg: Config, a: Snap, parts: seq<Part>, b: Snap, part: Part, c: Snap)
    requires Effect(s, cfg, a, parts, b) && OneEffect(s, cfg, b, part, c)
    ensures Effect(s, cfg, a, parts + [part], c)
  {
    assert (parts + [part])[..|parts|] == parts;
    Associative(a.log, Trace(parts), part.x.Events());
    LedConcat(cfg, a.neg, Trace(parts), b.neg, part.x.Events(), c.neg);
  }

  // One search of the loop over the collections.
  method SearchPart(o: Orchestrator, p: Params, ghost now: int) returns (out: Outcome, ghost part: Part)
    requires o.Valid()
    modifies o.world, o.cache, o.neg, o`stored
    ensures o.Valid() && PartSpec(o.s, p, part) && part.x.out == out
    ensures OneEffect(o.s, o.neg.cfg, old(Snapshot(o)), part, Snapshot(o))
    ensures o.world.clock(old(o.world.step)) == now
            && WouldHit(o.cache.cfg, old(o.cache.Abs()), now, KeyOf(o.s, CachedParams(o.s, p))) ==>
              && part.x.Events() == [] && out.Found? && o.world.step == old(o.world.step) + 1
              && SameHits(o.cache.cfg, old(o.cache.Abs()), o.cache.Abs(), now)
  {
    ghost var c, before := o.cache.Abs(), o.stored;
    if o.world.clock(o.world.step) == now && WouldHit(o.cache.cfg, c, now, KeyOf(o.s, CachedParams(o.s, p))) {
      CachedMeansSearchHits(o.s, o.cache.cfg, c, o.stored, now, p);
      HitSameHits(o.cache.cfg, c, now, KeyOf(o.s, Normalized(o.s, p)));
    }
    ghost var ph;
    out, ph := o.Search(p);
    if ph.None? {
      EmptyRight(o.world.log);
    }
    part := Part(before, Exchange(Normalized(o.s, p), ph, out));
  }

  // The body of the loop over the collections.
  method SearchNext(o: Orchestrator, req: Request, plan: Plan, collections: seq<string>, i: nat, m: Merge,
                    ghost parts: seq<Part>, ghost start: Snap, ghost now: int)
    returns (next: Merge, ghost ps: seq<Part>)
    requires o.Valid() && i < |collections| && PartsSpec(o.s, req, plan, collections[..i], start.stored, parts)
    requires m == Merged(parts) && Effect(o.s, o.neg.cfg, start, parts, Snapshot(o))
    modifies o.world, o.cache, o.neg, o`stored
    ensures o.Valid() && PartsSpec(o.s, req, plan, collections[..i + 1], start.stored, ps)
    ensures next == Merged(ps) && Effect(o.s, o.neg.cfg, start, ps, Snapshot(o))
    ensures o.world.clock(old(o.world.step)) == now
            && WouldHit(o.cache.cfg, old(o.cache.Abs()), now, CoreKey(o.s, req, plan, collections[i])) ==>
              && Trace(ps) == Trace(parts) && next.successes == m.successes + 1
              && o.world.step == old(o.world.step) + 1
              && SameHits(o.cache.cfg, old(o.cache.Abs()), o.cache.Abs(), now)
  {
    ghost var before := Snapshot(o);
    ghost var part;
    var out;
    out, part := SearchPart(o, CoreParams(o.s, req, plan, collections[i]), now);
    next := AddResult(m, collections[i], out);
    EmptyRight(Trace(parts));
    NextPart(o.s, req, plan, collections, i, start.stored, parts, part);
    EffectNext(o.s, o.neg.cfg, start, parts, before, part, Snapshot(o));
    ps := parts + [part];
  }

  lemma StillCached(s: Settings, cfg: LruCache.Config, was: LruCache.Lru, c: LruCache.Lru, req: Request, plan: Plan,
                    collections: seq<string>, now: int, i: nat)
    requires i < |collections| && AllCached(s, cfg, was, req, plan, collections, now) && SameHits(cfg, was, c, now)
    ensures WouldHit(cfg, c, now, CoreKey(s, req, plan, collections[i]))
  {
    assert WouldHit(cfg, was, now, CoreKey(s, req, plan, collections[i]));
  }

  // The loop over the collections.
  method SearchAll(o: Orchestrator, req: Request, plan: Plan, collections: seq<string>)
    returns (m: Merge, ghost parts: seq<Part>)
    requires o.Valid()
    modifies o.world, o.cache, o.neg, o`stored
    ensures o.Valid() && PartsSpec(o.s, req, plan, collections, old(o.stored), parts) && m == Merged(parts)
    ensures Effect(o.s, o.neg.cfg, old(Snapshot(o)), parts, Snapshot(o))
    ensures old(World.SteadyCritical(o.world)) &&
            AllCached(o.s, o.cache.cfg, old(o.cache.Abs()), req, plan, collections,
                      o.world.clock(old(o.world.step))) ==>
              Trace(parts) == [] && m.successes == |collections|
  {
    ghost var now, cfg, was := o.world.clock(o.world.step), o.cache.cfg, o.cache.Abs();
    ghost var cached := World.SteadyCritical(o.world) && AllCached(o.s, cfg, was, req, plan, collections, now);
    ghost var start := Snapshot(o);
    m, parts := NOTHING, [];
    NoEffect(o.s, o.neg.cfg, start);
    for i := 0 to |collections|
      invariant o.Valid() && PartsSpec(o.s, req, plan, collections[..i], start.stored, parts) && m == Merged(parts)
      invariant Effect(o.s, o.neg.cfg, start, parts, Snapshot(o))
      invariant cached ==> o.world.step >= old(o.world.step) && Trace(parts) == [] && m.successes == i
      invariant cached ==> SameHits(cfg, was, o.cache.Abs(), now)
    {
      ghost var c := o.cache.Abs();
      if cached {
        StillCached(o.s, cfg, was, c, req, plan, collections, now, i);
      }
      m, parts := SearchNext(o, req, plan, collections, i, m, parts, start, now);
      if cached {
        SameHitsChain(cfg, was, c, o.cache.Abs(), now);
      }
    }
    assert collections[..|collections|] == collections;
  }

  lemma NextPart(s: Settings, req: Request, plan: Plan, collections: seq<string>, i: nat,
                 stored: map<string, SearchResult>, parts: seq<Part>, part: Part)
    requires i < |collections| && PartsSpec(s, req, plan, collections[..i], stored, parts)
    requires PartSpec(s, CoreParams(s, req, plan, collections[i]), part) && part.before == StoredAfter(s, stored, parts)
    ensures PartsSpec(s, req, plan, collections[..i + 1], stored, parts + [part])
    ensures Merged(parts + [part]) == Add(Merged(parts), collections[i], part.x.out)
    ensures Trace(parts + [part]) == Trace(parts) + part.x.Events()
    ensures StoredAfter(s, stored, parts + [part]) == StoredBy(s, part)
  {
    var ps := parts + [part];
    assert ps[..i] == parts && ps[i] == part;
    assert collections[..i + 1][..i] == collections[..i] && collections[..i + 1][i] == collections[i];
  }

  // The body of the loop after a search has returned.
  method AddResult(m: Merge, collection: string, out: Outcome) returns (next: Merge)
    ensures next == Add(m, collection, out)
  {
    next := m;
    if !out.Found? {
      if m.firstError.None? {
        next := m.(firstError := Some(out));
      }
      return;
    }
    var r := out.result;
    var modeUsed := if r.mode == MODE_QUERY || m.modeUsed == "" then r.mode else m.modeUsed;
    var reason := if m.reason == "" && r.degradeReason != "" then r.degradeReason else m.reason;
    var names := AddSearched(m.names, collection, r.collections);
    next := Merge(m.hits + r.results, modeUsed, names, m.fallback || r.fallbackTriggered, m.cacheHit || r.cacheHit,
                  m.degraded || r.degraded, reason, m.successes + 1, m.firstError);
  }

  // Adds the collections a search reports, or else the one it was for.
  method AddSearched(names: set<string>, collection: string, searched: seq<string>) returns (r: set<string>)
    ensures r == names + if searched == [] then NonEmpty([collection]) else NonEmpty(searched)
  {
    if |searched| == 0 {
      r := AddNames(names, [collection]);
    } else {
      r := AddNames(names, searched);
    }
  }

  method AddNames(names: set<string>, more: seq<string>) returns (r: set<string>)
    ensures r == names + NonEmpty(more)
  {
    r := names;
    for i := 0 to |more|
      invariant r == names + NonEmpty(more[..i])
    {
      TakeOneMore(more, i);
      NonEmptyAppend(more[..i], more[i]);
      if more[i] != "" {
        r := r + {more[i]};
      }
    }
    assert more[..|more|] == more;
  }

  lemma NonEmptyAppend(names: seq<string>, n: string)
    ensures NonEmpty(names + [n]) == NonEmpty(names) + if n != "" then {n} else {}
  {
  }

  // Sets degraded, and the reason if there is none yet.
  method Degrade(now: bool, degraded: bool, reason: string, why: string) returns (d: bool, r: string)
    ensures d == (degraded || now) && r == FirstReason(reason, now, why)
  {
    d, r := degraded, reason;
    if now {
      d := true;
      if r == "" {
        r := why;
      }
    }
  }

  // What follows the loop.
  method BuildResponse(s: Settings, req: Request, requested: string, plan: Plan, topK: int, m: Merge)
    returns (r: Response)
    ensures ResponseSpec(s, req, requested, plan, topK, m, r)
  {
    var modeUsed := if m.modeUsed == "" then MODE_SEARCH else m.modeUsed;
    var sel := DedupSortLimit(HIT_NAMES, m.hits, topK);
    var results := sel;
    var filesAllCapped := false;
    if req.filesOnly && req.filesAll && s.filesAllMaxHits > 0 && |sel| > s.filesAllMaxHits {
      results := sel[..s.filesAllMaxHits];
      filesAllCapped := true;
    }
    var served := ServedMode(requested, modeUsed, m.fallback, m.degraded);
    var degraded, reason := Degrade(requested == "deep" && served != "deep", m.degraded, m.reason, DEEP_REJECTED);
    degraded, reason := Degrade(plan.reason != "", degraded, reason, plan.reason);
    degraded, reason := Degrade(filesAllCapped, degraded, reason, FILES_CAPPED);
    r := Response(results, modeUsed, served, m.names, m.fallback, m.cacheHit, degraded, reason);
    assert r == ResponseFor(s, req, requested, plan, m, sel);
  }

  // How an admitted request is answered from its parts.
  ghost predicate AnswerSpec(s: Settings, req: Request, requested: string, plan: Plan, collections: seq<string>,
                             stored: map<string, SearchResult>, parts: seq<Part>, out: CoreOutcome) {
    && PartsSpec(s, req, plan, collections, stored, parts)
    && var m := Merged(parts);
       if m.successes == 0 then out.Unserved? && m.firstError == Some(out.first)
       else out.Served? && ResponseSpec(s, req, requested, plan, CoreParams(s, req, plan, "").n, m, out.response)
  }

  lemma {:induction false} SomeErrorOrSuccess(parts: seq<Part>)
    requires parts != []
    ensures Merged(parts).successes > 0 || Merged(parts).firstError.Some?
  {
    if |parts| > 1 {
      SomeErrorOrSuccess(parts[..|parts| - 1]);
    }
  }

  // Searching and answering, once a request is admitted.
  method Serve(o: Orchestrator, req: Request, requested: string, plan: Plan, collections: seq<string>)
    returns (out: CoreOutcome, ghost parts: seq<Part>)
    requires o.Valid() && collections != []
    modifies o.world, o.cache, o.neg, o`stored
    ensures o.Valid() && AnswerSpec(o.s, req, requested, plan, collections, old(o.stored), parts, out)
    ensures out.Served? || out.Unserved?
    ensures Effect(o.s, o.neg.cfg, old(Snapshot(o)), parts, Snapshot(o))
    ensures old(World.SteadyCritical(o.world)) &&
            AllCached(o.s, o.cache.cfg, old(o.cache.Abs()), req, plan, collections,
                      o.world.clock(old(o.world.step))) ==>
              Trace(parts) == [] && out.Served?
  {
    var m;
    m, parts := SearchAll(o, req, plan, collections);
    SomeErrorOrSuccess(parts);
    if m.successes == 0 {
      out := Unserved(m.firstError.value);
      return;
    }
    var response := BuildResponse(o.s, req, requested, plan, CoreParams(o.s, req, plan, "").n, m);
    out := Served(response);
  }

  // The plan only enters the keys through its mode.
  lemma CachedUnderBoth(s: Settings, cfg: LruCache.Config, c: LruCache.Lru, req: Request, a: Plan, b: Plan,
                        collections: seq<string>, now: int)
    requires a.mode == b.mode
    ensures AllCached(s, cfg, c, req, a, collections, now) <==> AllCached(s, cfg, c, req, b, collections, now)
  {
    forall i | 0 <= i < |collections|
      ensures CoreKey(s, req, a, collections[i]) == CoreKey(s, req, b, collections[i])
    {
      SameKeyText(s, CachedParams(s, CoreParams(s, req, a, collections[i])),
                  CachedParams(s, CoreParams(s, req, b, collections[i])));
    }
  }

  lemma SameKeyText(s: Settings, p: Params, q: Params)
    requires p == q.(disableDeepEscalation := p.disableDeepEscalation, confirm := p.confirm)
    ensures KeyOf(s, p) == KeyOf(s, q)
  {
  }

  // The shedding check of a request, when critical load is on.
  method Shedding(o: Orchestrator, req: Request, plan: Plan, collections: seq<string>) returns (shed: bool)
    requires o.Valid()
    modifies o.world`step, o.cache
    ensures o.Valid() && o.world.step > old(o.world.step)
    ensures shed ==> o.world.critical(old(o.world.step))
    ensures old(World.SteadyCritical(o.world)) ==>
              var now := o.world.clock(old(o.world.step));
              && World.SteadyCritical(o.world) && o.world.clock(o.world.step) == now
              && shed == !AllCached(o.s, o.cache.cfg, old(o.cache.Abs()), req, plan, collections, now)
              && (!shed ==> AllCached(o.s, o.cache.cfg, o.cache.Abs(), req, plan, collections, now))
  {
    var critical := o.world.IsCriticalOverloaded();
    shed := false;
    if critical {
      var allow := AllowByCache(o, req, plan, collections);
      shed := !allow;
    }
  }
}
