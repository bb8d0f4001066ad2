// orchestrator: Search with its cache and its five paths.

module Orchestrator {
  import opened Model
  import opened NegativeCache
  import opened SearchSpec
  import opened Pipeline
  import opened CacheKey
  import opened NegativeTrace
  import LruCache
  import LruTheory
  import Replay
  import SearchTheory
  import World

  // ---------- What backs the cache ----------

  function KeyOf(s: Settings, p: Params): string {
    MakeCacheKey(s.lib.printable, p.query, p.mode, p.collection, p.minScore, p.n, p.fallback, p.filesOnly, p.filesAll)
  }

  // n holds what the last fresh search for its key answered, and its key does
  // not ask for zero results (unless that is the configured default).
  ghost predicate BackedNode(s: Settings, n: LruCache.Node, stored: map<string, SearchResult>) {
    && n.key in stored
    && n.entry == Replay.EntryOf(n.key, stored[n.key]).(indexVersion := n.entry.indexVersion,
                                                        createdAt := n.entry.createdAt)
    && (KeyCount(n.key) == 0 ==> s.topK == 0)
  }

  ghost predicate Backed(s: Settings, order: seq<LruCache.Node>, stored: map<string, SearchResult>) {
    order != [] ==> BackedNode(s, order[0], stored) && Backed(s, order[1..], stored)
  }

  lemma {:induction false} BackedMember(s: Settings, order: seq<LruCache.Node>, stored: map<string, SearchResult>,
                                        n: LruCache.Node)
    requires Backed(s, order, stored) && n in order
    ensures BackedNode(s, n, stored)
  {
    if n != order[0] {
      assert order == [order[0]] + order[1..];
      BackedMember(s, order[1..], stored, n);
    }
  }

  lemma {:induction false} BackedDrop(s: Settings, order: seq<LruCache.Node>, stored: map<string, SearchResult>,
                                      ks: set<string>)
    requires Backed(s, order, stored)
    ensures Backed(s, LruCache.Drop(order, ks), stored)
  {
    if order != [] {
      BackedDrop(s, order[1..], stored, ks);
      if order[0].key in ks {
        assert LruCache.Drop(order, ks) == LruCache.Drop(order[1..], ks);
      } else {
        assert LruCache.Drop(order, ks)[1..] == LruCache.Drop(order[1..], ks);
      }
    }
  }

  // Storing under a key that no node has leaves the others backed.
  lemma {:induction false} BackedStore(s: Settings, order: seq<LruCache.Node>, stored: map<string, SearchResult>,
                                       key: string, r: SearchResult)
    requires Backed(s, order, stored) && key !in LruCache.KeysOf(order)
    ensures Backed(s, order, stored[key := r])
  {
    if order != [] {
      BackedStore(s, order[1..], stored, key, r);
    }
  }

  lemma BackedFront(s: Settings, n: LruCache.Node, order: seq<LruCache.Node>, stored: map<string, SearchResult>)
    requires BackedNode(s, n, stored) && Backed(s, order, stored)
    ensures Backed(s, [n] + order, stored)
  {
    assert ([n] + order)[1..] == order;
  }

  lemma BackedGet(s: Settings, cfg: LruCache.Config, c: LruCache.Lru, stored: map<string, SearchResult>, now: int,
                  key: string)
    requires LruCache.Distinct(c.order) && Backed(s, c.order, stored)
    ensures Backed(s, LruCache.SpecGet(cfg, c, now, key).0.order, stored)
    ensures var r := LruCache.SpecGet(cfg, c, now, key).1;
            r.Some? ==> BackedNode(s, LruCache.Node(key, r.value), stored)
  {
    BackedDrop(s, c.order, stored, {key});
    LruCache.FindKey(c.order, key);
    if LruCache.Find(c.order, key).Some? {
      var n := LruCache.Node(key, LruCache.Find(c.order, key).value);
      BackedMember(s, c.order, stored, n);
      BackedFront(s, n, LruCache.Drop(c.order, {key}), stored);
    }
  }

  lemma BackedPut(s: Settings, cfg: LruCache.Config, c: LruCache.Lru, stored: map<string, SearchResult>,
                  now: int, key: string, r: SearchResult)
    requires LruCache.Distinct(c.order) && Backed(s, c.order, stored)
    requires (KeyCount(key) == 0 ==> s.topK == 0) && (!cfg.enabled ==> c.order == [])
    ensures Backed(s, LruCache.SpecPut(cfg, c, now, key, Replay.EntryOf(key, r)).order, stored[key := r])
  {
    var op := LruTheory.Put(now, key, Replay.EntryOf(key, r));
    LruTheory.PutShaped(cfg, c, now, key, Replay.EntryOf(key, r));
    var front, gone := LruTheory.Front(cfg, c, op), LruTheory.Gone(cfg, c, op);
    BackedDrop(s, c.order, stored, gone);
    if cfg.enabled {
      BackedStore(s, LruCache.Drop(c.order, gone), stored, key, r);
      BackedFront(s, front[0], LruCache.Drop(c.order, gone), stored[key := r]);
      assert front == [front[0]];
    }
  }

  // One call of Search: its normalized parameters, the phases of the fresh search
  // if the cache missed, and the answer.
  datatype Exchange = Exchange(p: Params, ph: Option<Phases>, out: Outcome)
  {
    // What it added to the trace.
    function Events(): seq<Event> {
      if ph.Some? then ph.value.All() else []
    }
  }

  // What a call of Search makes of the stored results.
  ghost predicate Exchanged(s: Settings, before: map<string, SearchResult>, x: Exchange,
                            after: map<string, SearchResult>) {
    var key := KeyOf(s, x.p);
    if x.ph.Some? then MissSpec(s, x.p, x.ph.value, x.out) && after == Remember(before, key, x.out)
    else after == before && key in before && x.out == Found(Again(before[key]))
  }

  // ---------- The code ----------

  class Orchestrator {
    const s: Settings
    const world: World.World
    const cache: LruCache.Cache
    const neg: DeepNegativeCache
    // The last fresh result stored under each key.
    ghost var stored: map<string, SearchResult>

    ghost predicate Valid()
      reads this, cache, world
    {
      && world.Valid() && cache.Valid()
      && Backed(s, cache.order, stored)
      && (!cache.cfg.enabled ==> cache.order == [])
    }

    constructor (settings: Settings, world: World.World, cacheConfig: LruCache.Config, negConfig: Config)
      requires world.Valid()
      ensures Valid() && s == settings && this.world == world && stored == map[]
      ensures cache.cfg == cacheConfig && cache.Abs() == LruCache.EMPTY && fresh(cache)
      ensures neg.cfg == negConfig && neg.Abs() == State(map[], map[]) && fresh(neg)
    {
      s := settings;
      this.world := world;
      cache := new LruCache.Cache(cacheConfig);
      neg := new DeepNegativeCache(negConfig);
      stored := map[];
    }

    // shouldSkipDeepByNegativeCache, recorded in the trace.
    method AskNegative(query: string, scope: string) returns (answer: Answer, ghost evs: seq<Event>)
      requires world.Valid()
      modifies world, neg
      ensures world.Valid()
      ensures evs == [Asked(s.lib.normalize(query), scope, world.clock(old(world.step)), answer)]
      ensures world.log == old(world.log) + evs
      ensures Led(neg.cfg, old(neg.Abs()), evs, neg.Abs())
    {
      var now := world.Now();
      answer := neg.ShouldSkip(s.lib.normalize(query), scope, now);
      evs := [Asked(s.lib.normalize(query), scope, now, answer)];
      world.Record(Asked(s.lib.normalize(query), scope, now, answer));
      assert evs[..0] == [];
    }

    // markDeepNegative, recorded in the trace.
    method MarkNegative(query: string, scope: string) returns (ghost evs: seq<Event>)
      requires world.Valid()
      modifies world, neg
      ensures world.Valid()
      ensures evs == [Marked(s.lib.normalize(query), scope, world.clock(old(world.step)))]
      ensures world.log == old(world.log) + evs
      ensures Led(neg.cfg, old(neg.Abs()), evs, neg.Abs())
    {
      var now := world.Now();
      neg.MarkFailed(s.lib.normalize(query), scope, now);
      evs := [Marked(s.lib.normalize(query), scope, now)];
      world.Record(Marked(s.lib.normalize(query), scope, now));
      assert evs[..0] == [];
    }

    // searchTierParallel: the collections answer in any order.
    method SearchTier(cols: seq<Collection>, mode: string, p: Params)
      returns (hits: seq<Hit>, searched: seq<string>, failed: bool, ghost evs: seq<Event>)
      requires world.Valid()
      modifies world
      ensures world.Valid()
      ensures TierSpec(s, p, mode, cols, evs) && world.log == old(world.log) + evs
      ensures hits == Gathered(s, evs) && searched == Searched(evs) && failed == AnyFailed(evs)
    {
      hits, searched, failed, evs := [], [], false, [];
      var left := cols;
      while left != []
        invariant world.Valid() && world.log == old(world.log) + evs
        invariant TierPart(s, p, mode, cols, left, evs)
        invariant hits == Gathered(s, evs) && searched == Searched(evs) && failed == AnyFailed(evs)
        decreases |left|
      {
        var i :| 0 <= i < |left|;
        var col := left[i];
        var reply := world.ExecSearch(s, p, mode, col);
        ghost var e := Attempt(col, CallOf(s, p, mode, col.name), reply);
        TierStep(s, p, mode, cols, left, i, evs, e);
        EventAppend(s, evs, e);
        Associative(old(world.log), evs, [e]);
        left := left[..i] + left[i + 1..];
        evs := evs + [e];
        if reply.Hits? {
          var kept := FilterExclude(s.lib, reply.hits, col);
          hits := hits + kept;
          searched := searched + [col.name];
        } else {
          failed := true;
        }
      }
    }

    // execSearch on one collection, and its exclusions.
    method SearchOne(col: Collection, mode: string, p: Params)
      returns (hits: seq<Hit>, failed: bool, ghost evs: seq<Event>)
      requires world.Valid()
      modifies world
      ensures world.Valid()
      ensures TierSpec(s, p, mode, [col], evs) && world.log == old(world.log) + evs
      ensures hits == Gathered(s, evs) && failed == AnyFailed(evs)
    {
      var reply := world.ExecSearch(s, p, mode, col);
      evs := [Attempt(col, CallOf(s, p, mode, col.name), reply)];
      OneEvent(s, evs[0]);
      failed := !reply.Hits?;
      hits := [];
      if reply.Hits? {
        hits := FilterExclude(s.lib, reply.hits, col);
      }
    }

    // One attempt, filtered and finalized.
    method SearchAndFinalize(col: Collection, mode: string, p: Params)
      returns (results: seq<Hit>, failed: bool, ghost evs: seq<Event>)
      requires world.Valid()
      modifies world
      ensures world.Valid()
      ensures TierSpec(s, p, mode, [col], evs) && world.log == old(world.log) + evs
      ensures Finalized(s, p, Surviving(s, p, evs), results) && failed == AnyFailed(evs)
    {
      var hits;
      hits, failed, evs := SearchOne(col, mode, p);
      hits := FilterMinScore(hits, p.minScore);
      results := Finalize(s, p, hits);
    }

    // The lookup and the gate that both single-collection paths start with.
    method Admit(p: Params) returns (col: Option<Collection>, refusal: Outcome)
      ensures match FindCollection(s.collections, p.collection)
              case None => col == None && refusal == UnknownCollection
              case Some(c) => if Guarded(c, p) then col == None && refusal == NeedsConfirm else col == Some(c)
    {
      col := FindByName(s.collections, p.collection);
      refusal := UnknownCollection;
      if col.Some? && col.value.requireExplicit && col.value.safetyPrompt && !p.confirm {
        col, refusal := None, NeedsConfirm;
      }
    }

    // The five paths return what Search then stores: in the code each of them
    // stores its result as its last act.

    // searchSingleCollection
    method SearchSingle(p: Params, mode: string) returns (out: Outcome, ghost evs: seq<Event>)
      requires world.Valid()
      modifies world
      ensures world.Valid()
      ensures world.log == old(world.log) + evs
      ensures SingleSpec(s, p, mode, evs, out)
    {
      evs := [];
      var col;
      col, out := Admit(p);
      if col.None? {
        return;
      }
      var results, failed;
      results, failed, evs := SearchAndFinalize(col.value, mode, p);
      if failed {
        return SearchFailed, evs;
      }
      out := Fresh(results, mode, [p.collection], false, "");
    }

    // How a search that tried deep query ends: with the deep results, or with
    // the broad ones and, after a failure, its mark.
    method FinishDeep(p: Params, scope: string, failed: bool,
                      deepResults: seq<Hit>, deepSearched: seq<string>,
                      broadResults: seq<Hit>, broadSearched: seq<string>, fallback: bool,
                      ghost deep: seq<Hit>, ghost broad: seq<Hit>)
      returns (out: Outcome, ghost mark: seq<Event>)
      requires !failed ==> Finalized(s, p, deep, deepResults)
      requires Finalized(s, p, broad, broadResults)
      requires world.Valid()
      modifies world, neg
      ensures world.Valid()
      ensures world.log == old(world.log) + mark && Led(neg.cfg, old(neg.Abs()), mark, neg.Abs())
      ensures DeepOutcome(s, p, scope, failed, deep, deepSearched, broad, broadSearched, fallback, mark, out)
    {
      mark := [];
      NothingLeads(neg.cfg, neg.Abs());
      if failed {
        mark := MarkNegative(p.query, scope);
        out := Fresh(broadResults, MODE_SEARCH, broadSearched, fallback, DEEP_FAILED);
        return;
      }
      SearchTheory.FinalizedShape(s, p, deep, deepResults);
      if |deepResults| == 0 {
        out := Fresh(broadResults, MODE_SEARCH, broadSearched, fallback, DEEP_EMPTY);
        return;
      }
      out := Fresh(deepResults, MODE_QUERY, deepSearched, false, "");
    }

    // searchSingleCollectionWithDeepFallback. The broad and the deep branch run
    // concurrently in the code; neither reads what the other writes, and World
    // admits every pair of replies, so they are taken one after the other.
    method SearchSingleDeep(p: Params)
      returns (out: Outcome, ghost ask: seq<Event>, ghost broad: seq<Event>, ghost deep: seq<Event>,
               ghost mark: seq<Event>)
      requires world.Valid()
      modifies world, neg
      ensures world.Valid()
      ensures world.log == old(world.log) + ask + broad + deep + mark
      ensures Led(neg.cfg, old(neg.Abs()), ask + mark, neg.Abs())
      ensures SingleDeepSpec(s, p, ask, broad, deep, mark, out)
    {
      ask, broad, deep, mark := [], [], [], [];
      NothingLeads(neg.cfg, neg.Abs());
      var col;
      col, out := Admit(p);
      if col.None? {
        return;
      }
      var answer;
      answer, ask := AskNegative(p.query, p.collection);
      var broadResults, failed;
      broadResults, failed, broad := SearchAndFinalize(col.value, MODE_SEARCH, p);
      if answer != Go {
        out := Fresh(broadResults, MODE_SEARCH, [p.collection], false, SkipReason(answer));
        EmptyRight(world.log);
        AloneLeads(neg.cfg, old(neg.Abs()), ask, neg.Abs());
        return;
      }
      ghost var asked := neg.Abs();
      out, deep, mark := TryDeep(p, col.value, broadResults, broad);
      LedConcat(neg.cfg, old(neg.Abs()), ask, asked, mark, neg.Abs());
    }

    // The deep branch on one collection, and what follows both branches.
    method TryDeep(p: Params, col: Collection, broadResults: seq<Hit>, ghost broad: seq<Event>)
      returns (out: Outcome, ghost deep: seq<Event>, ghost mark: seq<Event>)
      requires Finalized(s, p, Surviving(s, p, broad), broadResults)
      requires world.Valid()
      modifies world, neg
      ensures world.Valid()
      ensures world.log == old(world.log) + deep + mark && Led(neg.cfg, old(neg.Abs()), mark, neg.Abs())
      ensures TierSpec(s, p, MODE_QUERY, [col], deep)
      ensures DeepOutcome(s, p, p.collection, AnyFailed(deep), Surviving(s, p, deep), [p.collection],
                          Surviving(s, p, broad), [p.collection], false, mark, out)
    {
      var results, failed;
      results, failed, deep := SearchAndFinalize(col, MODE_QUERY, p);
      out, mark := FinishDeep(p, p.collection, failed, results, [p.collection], broadResults, [p.collection], false,
                              Surviving(s, p, deep), Surviving(s, p, broad));
    }

    // searchPrimaryWithTierFallback
    method SearchPrimary(p: Params, mode: string)
      returns (filtered: seq<Hit>, searched: seq<string>, fallback: bool, ghost first: seq<Event>,
               ghost second: seq<Event>)
      requires world.Valid()
      modifies world
      ensures world.Valid()
      ensures PrimarySpec(s, p, mode, first, second) && world.log == old(world.log) + first + second
      ensures filtered == Surviving(s, p, first + second) && searched == Searched(first + second)
      ensures fallback == (second != [])
    {
      var tier1 := CollectionsByTier(s.collections, 1);
      var hits, failed;
      hits, searched, failed, first := SearchTier(tier1, mode, p);
      second := [];
      filtered := FilterMinScore(hits, p.minScore);
      fallback := false;
      SecondTier(s, p, mode, first, second);
      if |filtered| == 0 && p.fallback && s.fallbackEnabled {
        var tier2 := CollectionsByTier(s.collections, 2);
        if |tier2| > 0 {
          fallback := true;
          var names;
          hits, names, failed, second := SearchTier(tier2, mode, p);
          filtered := FilterMinScore(hits, p.minScore);
          searched := searched + names;
          SecondTier(s, p, mode, first, second);
        }
      }
    }

    // searchDeepTier1
    method SearchDeepTier(p: Params)
      returns (hits: seq<Hit>, searched: seq<string>, failed: bool, ghost deep: seq<Event>)
      requires world.Valid()
      modifies world
      ensures world.Valid()
      ensures DeepTierSpec(s, p, deep) && world.log == old(world.log) + deep
      ensures failed == DeepTierFailed(s, deep)
      ensures !failed ==> hits == Gathered(s, deep) && searched == Searched(deep)
    {
      var tier1 := CollectionsByTier(s.collections, 1);
      if |tier1| == 0 {
        EmptyTier(s, p, MODE_QUERY);
        return [], [], true, [];
      }
      hits, searched, failed, deep := SearchTier(tier1, MODE_QUERY, p);
      failed := |hits| == 0 && failed;
    }

    // searchWithDeepFallback
    method SearchDeep(p: Params)
      returns (out: Outcome, ghost ask: seq<Event>, ghost first: seq<Event>, ghost second: seq<Event>,
               ghost deep: seq<Event>, ghost mark: seq<Event>)
      requires world.Valid()
      modifies world, neg
      ensures world.Valid()
      ensures world.log == old(world.log) + ask + first + second + deep + mark
      ensures Led(neg.cfg, old(neg.Abs()), ask + mark, neg.Abs())
      ensures DeepSpec(s, p, ask, first, second, deep, mark, out)
    {
      deep, mark := [], [];
      var answer, broad, searched, fallback;
      answer, ask := AskNegative(p.query, ALL_SCOPE);
      broad, searched, fallback, first, second := SearchPrimary(p, MODE_SEARCH);
      var broadResults := Finalize(s, p, broad);
      if answer != Go {
        out := Fresh(broadResults, MODE_SEARCH, searched, fallback, SkipReason(answer));
        EmptyRight(world.log);
        AloneLeads(neg.cfg, old(neg.Abs()), ask, neg.Abs());
        return;
      }
      ghost var asked := neg.Abs();
      var hits, deepSearched, failed;
      hits, deepSearched, failed, deep := SearchDeepTier(p);
      var deepHits := FilterMinScore(hits, p.minScore);
      var deepResults := Finalize(s, p, deepHits);
      out, mark := FinishDeep(p, ALL_SCOPE, failed, deepResults, deepSearched, broadResults, searched, fallback,
                              Surviving(s, p, deep), broad);
      LedConcat(neg.cfg, old(neg.Abs()), ask, asked, mark, neg.Abs());
    }

    // searchWithFallback
    method SearchFallback(p: Params, mode: string)
      returns (out: Outcome, ghost first: seq<Event>, ghost second: seq<Event>, ghost look: seq<Event>,
               ghost deep: seq<Event>, ghost mark: seq<Event>)
      requires world.Valid()
      modifies world, neg
      ensures world.Valid()
      ensures world.log == old(world.log) + first + second + look + deep + mark
      ensures Led(neg.cfg, old(neg.Abs()), look + mark, neg.Abs())
      ensures FallbackSpec(s, p, mode, first, second, look, deep, mark, out)
    {
      look, deep, mark := [], [], [];
      NothingLeads(neg.cfg, neg.Abs());
      var found, searched, fallback;
      found, searched, fallback, first, second := SearchPrimary(p, mode);
      EmptyRight(world.log);
      var used, reason, hits, names := false, "", [], [];
      if !p.disableDeepEscalation && mode == MODE_SEARCH && |found| == 0 && s.deepQuery {
        used, reason, hits, names, look, deep, mark := Escalate(p);
      }
      var results;
      if used {
        results := Finalize(s, p, hits);
        out := Fresh(results, MODE_QUERY, names, fallback, "");
      } else {
        results := Finalize(s, p, found);
        out := Fresh(results, mode, searched, fallback, reason);
      }
    }

    // The escalation of an empty plain search to deep query.
    method Escalate(p: Params)
      returns (used: bool, reason: string, hits: seq<Hit>, names: seq<string>,
               ghost look: seq<Event>, ghost deep: seq<Event>, ghost mark: seq<Event>)
      requires world.Valid()
      modifies world, neg
      ensures world.Valid()
      ensures world.log == old(world.log) + look + deep + mark
      ensures Led(neg.cfg, old(neg.Abs()), look + mark, neg.Abs())
      ensures EscalationSpec(s, p, look, deep, mark, used, reason)
      ensures used ==> hits == Surviving(s, p, deep) && names == Searched(deep)
    {
      used, reason, hits, names, deep, mark := false, "", [], [], [], [];
      var on := world.IsOverloaded();
      look := [Looked(on)];
      EmptyRight(world.log);
      SilentLeads(neg.cfg, neg.Abs(), look);
      AloneLeads(neg.cfg, neg.Abs(), look, neg.Abs());
      if on || !s.lib.allowDeep(p.query) {
        return;
      }
      ghost var ask;
      var answer;
      answer, ask := AskNegative(p.query, ALL_SCOPE);
      Associative(old(world.log), look, ask);
      LedConcat(neg.cfg, old(neg.Abs()), look, old(neg.Abs()), ask, neg.Abs());
      look := look + ask;
      ghost var asked := neg.Abs();
      AloneLeads(neg.cfg, old(neg.Abs()), look, asked);
      EmptyRight(world.log);
      if answer != Go {
        reason := SkipReason(answer);
        return;
      }
      var failed;
      hits, names, failed, deep := SearchDeepTier(p);
      EmptyRight(world.log);
      if failed {
        mark := MarkNegative(p.query, ALL_SCOPE);
        LedConcat(neg.cfg, old(neg.Abs()), look, asked, mark, neg.Abs());
        reason := DEEP_FAILED;
        return;
      }
      hits := FilterMinScore(hits, p.minScore);
      if |hits| > 0 {
        used := true;
      } else {
        reason := DEEP_EMPTY;
      }
    }

    // The cache lookup of Search and HasCachedResult.
    method CacheGet(key: string) returns (r: Option<LruCache.Entry>)
      requires Valid()
      modifies world`step, cache
      ensures Valid() && world.step == old(world.step) + 1
      ensures cache.Abs() == LruCache.SpecGet(cache.cfg, old(cache.Abs()), world.clock(old(world.step)), key).0
      ensures r == LruCache.SpecGet(cache.cfg, old(cache.Abs()), world.clock(old(world.step)), key).1
      ensures r.Some? ==> BackedNode(s, LruCache.Node(key, r.value), stored)
    {
      var now := world.Now();
      BackedGet(s, cache.cfg, cache.Abs(), stored, now, key);
      r := cache.Get(key, now);
    }

    // cacheResults
    method CacheStore(key: string, out: Outcome)
      requires Valid() && (KeyCount(key) == 0 ==> s.topK == 0)
      modifies world`step, cache, this`stored
      ensures Valid() && stored == Remember(old(stored), key, out)
    {
      if out.Found? {
        var now := world.Now();
        BackedPut(s, cache.cfg, cache.Abs(), stored, now, key, out.result);
        cache.Put(key, Replay.EntryOf(key, out.result), now);
        stored := stored[key := out.result];
      }
    }

    // Search once the cache has missed: the mode, then one of the five paths.
    method SearchMiss(p: Params) returns (out: Outcome, ghost ph: Phases)
      requires world.Valid()
      modifies world, neg
      ensures world.Valid()
      ensures world.log == old(world.log) + ph.All()
      ensures MissSpec(s, p, ph, out) && Led(neg.cfg, old(neg.Abs()), ph.All(), neg.Abs())
    {
      var on := world.IsOverloaded();
      var mode := Resolve(s, p.mode, p.query, on);
      ghost var look := [Looked(on)];
      if p.collection != "" && mode == MODE_QUERY {
        ghost var ask, broad, deep, mark;
        out, ask, broad, deep, mark := SearchSingleDeep(p);
        ph := Phases(look, ask, broad, [], [], deep, mark);
        SingleDeepTrace(old(world.log), ph);
        EmptyRight(ask);
      } else if p.collection != "" {
        ghost var evs;
        out, evs := SearchSingle(p, mode);
        ph := Phases(look, [], evs, [], [], [], []);
        SingleTrace(old(world.log), ph);
        NothingLeads(neg.cfg, neg.Abs());
      } else if mode == MODE_QUERY {
        ghost var ask, first, second, deep, mark;
        out, ask, first, second, deep, mark := SearchDeep(p);
        ph := Phases(look, ask, first, second, [], deep, mark);
        DeepTrace(old(world.log), ph);
        EmptyRight(ask);
      } else {
        ghost var first, second, relook, deep, mark;
        out, first, second, relook, deep, mark := SearchFallback(p, mode);
        ph := Phases(look, [], first, second, relook, deep, mark);
        FallbackTrace(old(world.log), ph);
        EmptyLeft(relook);
      }
      SearchAsks(s, p, ph, out);
      LedAll(neg.cfg, s, p, ph, old(neg.Abs()), neg.Abs());
    }

    // Search, its parameters defaulted and its key built.
    method SearchKeyed(p: Params, key: string) returns (out: Outcome, ghost ph: Option<Phases>)
      requires Valid() && (KeyCount(key) == 0 ==> s.topK == 0)
      modifies world, cache, neg, this`stored
      ensures Valid()
      ensures var (after, hit) := LruCache.SpecGet(cache.cfg, old(cache.Abs()), world.clock(old(world.step)), key);
              if hit.Some?
              then ph == None && world.log == old(world.log) && world.step == old(world.step) + 1
                   && cache.Abs() == after && stored == old(stored)
                   && key in stored && out == Found(Again(stored[key]))
              else ph.Some? && world.log == old(world.log) + ph.value.All()
                   && MissSpec(s, p, ph.value, out) && stored == Remember(old(stored), key, out)
      ensures Led(neg.cfg, old(neg.Abs()), Exchange(p, ph, out).Events(), neg.Abs())
    {
      ph := None;
      NothingLeads(neg.cfg, neg.Abs());
      var entry := CacheGet(key);
      if entry.Some? {
        out := Found(Replay.Replayed(entry.value));
        return;
      }
      ghost var phases;
      out, phases := SearchMiss(p);
      CacheStore(key, out);
      ph := Some(phases);
    }

    // Search
    method Search(params: Params) returns (out: Outcome, ghost ph: Option<Phases>)
      requires Valid()
      modifies world, cache, neg, this`stored
      ensures Valid()
      ensures var p, key := Normalized(s, params), KeyOf(s, Normalized(s, params));
              var (after, hit) := LruCache.SpecGet(cache.cfg, old(cache.Abs()), world.clock(old(world.step)), key);
              if hit.Some?
              then ph == None && world.log == old(world.log) && world.step == old(world.step) + 1
                   && cache.Abs() == after && stored == old(stored)
                   && key in stored && out == Found(Again(stored[key]))
              else ph.Some? && world.log == old(world.log) + ph.value.All()
                   && MissSpec(s, p, ph.value, out) && stored == Remember(old(stored), key, out)
      ensures Led(neg.cfg, old(neg.Abs()), Exchange(Normalized(s, params), ph, out).Events(), neg.Abs())
      ensures Exchanged(s, old(stored), Exchange(Normalized(s, params), ph, out), stored)
    {
      var p := Normalized(s, params);
      KeyOfCount(s, p);
      out, ph := SearchKeyed(p, KeyOf(s, p));
    }

    method HasEntry(key: string) returns (ok: bool)
      requires Valid()
      modifies world`step, cache
      ensures Valid() && world.step == old(world.step) + 1
      ensures var (after, hit) := LruCache.SpecGet(cache.cfg, old(cache.Abs()), world.clock(old(world.step)), key);
              ok == hit.Some? && cache.Abs() == after
    {
      var entry := CacheGet(key);
      ok := entry.Some?;
    }

    // HasCachedResult
    method HasCachedResult(params: Params) returns (ok: bool)
      requires Valid()
      modifies world`step, cache
      ensures Valid() && world.step == old(world.step) + 1
      ensures var (after, hit) := LruCache.SpecGet(cache.cfg, old(cache.Abs()), world.clock(old(world.step)),
                                                   KeyOf(s, CachedParams(s, params)));
              ok == hit.Some? && cache.Abs() == after
    {
      var asked := Defaulted(params);
      ok := HasEntry(KeyOf(s, asked));
    }

    // The defaults at the head of HasCachedResult.
    method Defaulted(params: Params) returns (asked: Params)
      ensures asked == CachedParams(s, params)
    {
      var n := params.n;
      if n <= 0 {
        if params.filesOnly && params.filesAll {
          n := 0;
        } else {
          n := s.topK;
        }
      }
      var minScore := params.minScore;
      if minScore <= 0.0 {
        minScore := s.minScore;
      }
      asked := params.(n := n, minScore := minScore);
    }
  }

  lemma KeyOfCount(s: Settings, p: Params)
    ensures KeyCount(KeyOf(s, p)) == p.n
  {
    KeyCountRoundTrip(s.lib.printable, p.query, p.mode, p.collection, p.minScore, p.n, p.fallback, p.filesOnly,
                      p.filesAll);
  }

  lemma SingleTrace(log: seq<Event>, ph: Phases)
    requires ph.ask == ph.second == ph.relook == ph.deep == ph.mark == []
    ensures log + ph.look + ph.first == log + ph.All()
  {
  }

  lemma SingleDeepTrace(log: seq<Event>, ph: Phases)
    requires ph.second == ph.relook == []
    ensures log + ph.look + ph.ask + ph.first + ph.deep + ph.mark == log + ph.All()
  {
  }

  lemma DeepTrace(log: seq<Event>, ph: Phases)
    requires ph.relook == []
    ensures log + ph.look + ph.ask + ph.first + ph.second + ph.deep + ph.mark == log + ph.All()
  {
  }

  lemma FallbackTrace(log: seq<Event>, ph: Phases)
    requires ph.ask == []
    ensures log + ph.look + ph.first + ph.second + ph.relook + ph.deep + ph.mark == log + ph.All()
  {
  }

  // A stored result as a later hit reports it.
  function Again(r: SearchResult): SearchResult {
    r.(collections := Replay.SplitCollections(Replay.Join(r.collections)), cacheHit := true)
  }

  // The request whose key HasCachedResult looks up. It asks for no results when Search, for the
  // same files_all request, asks for the default number.
  function CachedParams(s: Settings, p: Params): Params {
    Normalized(s, p).(n := if p.n > 0 then p.n else if p.filesOnly && p.filesAll then 0 else s.topK)
  }

  // That is the only difference.
  lemma SameLookupIff(s: Settings, p: Params)
    ensures KeyOf(s, CachedParams(s, p)) == KeyOf(s, Normalized(s, p))
       <==> p.n > 0 || !p.filesOnly || !p.filesAll || s.topK == 0
  {
    KeyOfCount(s, CachedParams(s, p));
    KeyOfCount(s, Normalized(s, p));
    if p.n > 0 || !p.filesOnly || !p.filesAll || s.topK == 0 {
      assert CachedParams(s, p) == Normalized(s, p);
    }
  }

  ghost function Remember(m: map<string, SearchResult>, key: string, out: Outcome): map<string, SearchResult> {
    if out.Found? then m[key := out.result] else m
  }

  lemma OneEvent(s: Settings, e: Event)
    ensures Gathered(s, [e]) == Brought(s, e)
    ensures AnyFailed([e]) <==> e.Attempt? && !e.reply.Hits?
    ensures e.Attempt? ==> multiset(Attempted([e])) == multiset([e.col])
  {
    EventAppend(s, [], e);
    assert [] + [e] == [e];
  }

  lemma EmptyTier(s: Settings, p: Params, mode: string)
    ensures TierSpec(s, p, mode, [], [])
  {
  }

  // After an empty first tier, what survives and what was searched come from
  // both tiers together.
  lemma SecondTier(s: Settings, p: Params, mode: string, first: seq<Event>, second: seq<Event>)
    ensures Searched(first + second) == Searched(first) + Searched(second)
    ensures Surviving(s, p, first + second) == Surviving(s, p, first) + Surviving(s, p, second)
    ensures TierSpec(s, p, mode, [], [])
  {
    GatheredConcat(s, first, second);
    ScoredConcat(Gathered(s, first), Gathered(s, second), p.minScore);
  }

  lemma {:induction false} GatheredConcat(s: Settings, a: seq<Event>, b: seq<Event>)
    ensures Gathered(s, a + b) == Gathered(s, a) + Gathered(s, b)
    ensures Searched(a + b) == Searched(a) + Searched(b)
  {
    if b == [] {
      EmptyRight(a);
    } else {
      var init := b[..|b| - 1];
      GatheredConcat(s, a, init);
      InitOfConcat(a, b);
      Associative(Gathered(s, a), Gathered(s, init), Brought(s, b[|b| - 1]));
      Associative(Searched(a), Searched(init), Searched(b)[|Searched(init)|..]);
    }
  }

  lemma {:induction false} ScoredConcat(a: seq<Hit>, b: seq<Hit>, minScore: real)
    ensures Scored(a + b, minScore) == Scored(a, minScore) + Scored(b, minScore)
  {
    if b == [] {
      EmptyRight(a);
    } else {
      ScoredConcat(a, b[..|b| - 1], minScore);
      InitOfConcat(a, b);
    }
  }

  lemma EventAppend(s: Settings, evs: seq<Event>, e: Event)
    ensures Gathered(s, evs + [e]) == Gathered(s, evs) + Brought(s, e)
    ensures Searched(evs + [e]) == Searched(evs) + if e.Attempt? && e.reply.Hits? then [e.col.name] else []
    ensures Attempted(evs + [e]) == Attempted(evs) + if e.Attempt? then [e.col] else []
    ensures AnyFailed(evs + [e]) <==> AnyFailed(evs) || (e.Attempt? && !e.reply.Hits?)
  {
    assert (evs + [e])[..|evs|] == evs;
    assert e in evs + [e];
    forall x | x in evs ensures x in evs + [e] {
    }
  }

  // The collections of cols but left have been attempted.
  ghost predicate TierPart(s: Settings, p: Params, mode: string, cols: seq<Collection>, left: seq<Collection>,
                           evs: seq<Event>) {
    && |evs| + |left| == |cols|
    && multiset(Attempted(evs)) + multiset(left) == multiset(cols)
    && forall e :: e in evs ==> IsAttempt(s, p, mode, e)
  }

  lemma TierStep(s: Settings, p: Params, mode: string, cols: seq<Collection>, left: seq<Collection>, i: nat,
                 evs: seq<Event>, e: Event)
    requires TierPart(s, p, mode, cols, left, evs) && i < |left|
    requires IsAttempt(s, p, mode, e) && e.col == left[i]
    ensures TierPart(s, p, mode, cols, left[..i] + left[i + 1..], evs + [e])
  {
    EventAppend(s, evs, e);
    RemoveAt(left, i);
  }

  lemma RemoveAt<T>(s: seq<T>, i: nat)
    requires i < |s|
    ensures multiset(s) == multiset(s[..i] + s[i + 1..]) + multiset{s[i]}
  {
    assert s == s[..i] + [s[i]] + s[i + 1..];
  }
}
