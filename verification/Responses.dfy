// What a request's own words make of it: the mode it asks for, the calls made for
// it, and what its response says of them.

module Responses {
  import opened Model
  import opened Text
  import opened Selection
  import opened SearchSpec
  import opened Orchestrator
  import opened Core
  import SearchCalls
  import SearchReach
  import SearchTheory

  // ---------- The mode a request asks for ----------

  // The trimmed text is the word, whatever the case of its letters.
  ghost predicate Spells(text: string, word: string) {
    var t := TrimSpace(text);
    && |t| == |word|
    && forall i | 0 <= i < |t| :: t[i] == word[i] || ('A' <= t[i] <= 'Z' && word[i] as int == t[i] as int + 32)
  }

  ghost predicate NoCapitals(word: string) {
    forall c | c in word :: !('A' <= c <= 'Z')
  }

  lemma {:induction false} LowerAt(s: string)
    ensures |Lower(s)| == |s|
    ensures forall i | 0 <= i < |s| ::
              if 'A' <= s[i] <= 'Z' then Lower(s)[i] as int == s[i] as int + 32 else Lower(s)[i] == s[i]
  {
    if s != [] {
      LowerAt(s[1..]);
      forall i | 1 <= i < |s|
        ensures Lower(s)[i] == Lower(s[1..])[i - 1] && s[i] == s[1..][i - 1]
      {
      }
    }
  }

  lemma SpellsIff(text: string, word: string)
    requires NoCapitals(word)
    ensures Lower(TrimSpace(text)) == word <==> Spells(text, word)
  {
    var t := TrimSpace(text);
    LowerAt(t);
    if Lower(t) == word {
      forall i | 0 <= i < |t|
        ensures t[i] == word[i] || ('A' <= t[i] <= 'Z' && word[i] as int == t[i] as int + 32)
      {
        assert Lower(t)[i] == word[i];
      }
    }
    if Spells(text, word) {
      forall i | 0 <= i < |t|
        ensures Lower(t)[i] == word[i]
      {
        assert word[i] in word;
      }
    }
  }

  // A request may ask for plain searches in four words, and for deep ones in two.
  ghost predicate SaysCore(req: Request) {
    Spells(req.requestedMode, "core") || Spells(req.requestedMode, "search")
  }

  ghost predicate SaysBroad(req: Request) {
    Spells(req.requestedMode, "broad") || Spells(req.requestedMode, "vsearch")
  }

  ghost predicate SaysDeep(req: Request) {
    Spells(req.requestedMode, "deep") || Spells(req.requestedMode, "query")
  }

  lemma SixWords(text: string)
    ensures Lower(TrimSpace(text)) == "core" <==> Spells(text, "core")
    ensures Lower(TrimSpace(text)) == "search" <==> Spells(text, "search")
    ensures Lower(TrimSpace(text)) == "broad" <==> Spells(text, "broad")
    ensures Lower(TrimSpace(text)) == "vsearch" <==> Spells(text, "vsearch")
    ensures Lower(TrimSpace(text)) == "deep" <==> Spells(text, "deep")
    ensures Lower(TrimSpace(text)) == "query" <==> Spells(text, "query")
  {
    SpellsIff(text, "core");
    SpellsIff(text, "search");
    SpellsIff(text, "broad");
    SpellsIff(text, "vsearch");
    SpellsIff(text, "deep");
    SpellsIff(text, "query");
  }

  lemma DifferentWords()
    ensures "core" != "broad" && "core" != "deep" && "core" != "auto" && "broad" != "deep" && "broad" != "auto"
    ensures "deep" != "auto" && "search" != "query" && "search" != "auto" && "query" != "auto"
    ensures "search" != "deep" && "search" != "broad" && "query" != "deep" && "query" != "broad"
    ensures "vsearch" != "deep" && "vsearch" != "query" && "vsearch" != "core" && "vsearch" != "search"
    ensures "core" != "query" && "core" != "search" && "vsearch" != "broad"
  {
    assert "core"[0] == 'c' && "broad"[0] == 'b' && "deep"[0] == 'd' && "auto"[0] == 'a' && "search"[0] == 's'
        && "query"[0] == 'q' && "vsearch"[0] == 'v';
  }

  lemma ModeSays(req: Request)
    ensures var mode := RequestedMode(req);
            && (mode == "core" <==> SaysCore(req)) && (mode == "broad" <==> SaysBroad(req))
            && (mode == "deep" <==> SaysDeep(req))
            && (mode == "auto" <==> !SaysCore(req) && !SaysBroad(req) && !SaysDeep(req))
  {
    SixWords(req.requestedMode);
    DifferentWords();
  }

  // The gate of low-resource mode turns down a deep request that may fall back.
  ghost predicate TurnedDown(s: Settings, req: Request) {
    SaysDeep(req) && req.allowFallback && !s.lib.allowDeep(TrimSpace(req.query))
  }

  function RequestedMode(req: Request): string {
    NormalizeMode(req.requestedMode)
  }

  // The plan that the shedding check goes by, and the one after the deep gate.
  function FirstPlan(req: Request, overloaded: bool): Plan {
    PlanFor(RequestedMode(req), overloaded, false)
  }

  function FinalPlan(s: Settings, req: Request, overloaded: bool): Plan {
    PlanFor(RequestedMode(req), overloaded, Rejected(s, req, RequestedMode(req), TrimSpace(req.query)))
  }

  // What is planned for a request: deep query only if it asks for it, in calm, and is
  // not turned down; the router's choice only in calm and if it asks for nothing else;
  // otherwise plain search, without escalation.
  lemma PlanSays(s: Settings, req: Request, overloaded: bool)
    ensures var plan := FinalPlan(s, req, overloaded);
            && (plan.mode == "query" <==> !overloaded && SaysDeep(req) && !TurnedDown(s, req))
            && (plan.mode == "auto" <==> !overloaded && !SaysCore(req) && !SaysBroad(req) && !SaysDeep(req))
            && (plan.mode == "search" <==> overloaded || SaysCore(req) || SaysBroad(req) || TurnedDown(s, req))
            && (plan.disableDeepEscalation <==> plan.mode == "search")
            && plan.reason == if TurnedDown(s, req) then "DEEP_GATE_REJECTED"
                              else if overloaded then "CPU_OVERLOAD_PROTECT" else ""
  {
    ModeSays(req);
    DifferentWords();
  }

  // ---------- The calls made for a request ----------

  // The call asks for what the request does, of a configured collection that the
  // request names if it names any, and that it confirms if need be.
  ghost predicate ForRequest(s: Settings, req: Request, collections: seq<string>, e: Event) {
    e.Attempt? ==>
      && e.call.query == TrimSpace(req.query)
      && e.call.minScore == (if req.minScore > 0.0 then req.minScore else s.minScore)
      && e.call.filesOnly == req.filesOnly && (e.call.all <==> req.filesOnly && req.filesAll)
      && e.col in s.collections && e.call.collection == e.col.name
      && (e.col.requireExplicit && e.col.safetyPrompt ==> req.confirm)
      && (e.col.name in collections || ("" in collections && !e.col.requireExplicit))
  }

  ghost predicate AllForRequest(s: Settings, req: Request, collections: seq<string>, evs: seq<Event>) {
    forall e | e in evs :: ForRequest(s, req, collections, e)
  }

  // Who is attempted by an unnamed search need not be named, and by a named one has
  // that name.
  ghost predicate Reached(p: Params, e: Event) {
    e.Attempt? ==> if p.collection == "" then !e.col.requireExplicit else e.col.name == p.collection
  }

  ghost predicate AllReached(p: Params, evs: seq<Event>) {
    forall e | e in evs :: Reached(p, e)
  }

  lemma TierReached(s: Settings, p: Params, mode: string, tier: int, evs: seq<Event>)
    requires TierSpec(s, p, mode, Tier(s.collections, tier), evs) && p.collection == ""
    ensures AllReached(p, evs)
  {
    SearchTheory.TierIsOpen(s.collections, tier);
    forall e | e in evs
      ensures Reached(p, e)
    {
      SearchTheory.TierMember(s, p, mode, Tier(s.collections, tier), evs, e);
    }
  }

  lemma NamedReached(s: Settings, p: Params, mode: string, evs: seq<Event>)
    requires FindCollection(s.collections, p.collection).Some? && p.collection != ""
    requires TierSpec(s, p, mode, [FindCollection(s.collections, p.collection).value], evs)
    ensures AllReached(p, evs)
  {
    SearchTheory.FoundByName(s.collections, p.collection);
    forall e | e in evs
      ensures Reached(p, e)
    {
      SearchTheory.TierMember(s, p, mode, [FindCollection(s.collections, p.collection).value], evs, e);
    }
  }

  lemma PrimaryReached(s: Settings, p: Params, mode: string, first: seq<Event>, second: seq<Event>)
    requires PrimarySpec(s, p, mode, first, second) && p.collection == ""
    ensures AllReached(p, first) && AllReached(p, second)
  {
    TierReached(s, p, mode, 1, first);
    if second != [] {
      TierReached(s, p, mode, 2, second);
    }
  }

  lemma QuestionsReachNobody(p: Params, evs: seq<Event>)
    requires SearchTheory.Quiet(evs)
    ensures AllReached(p, evs)
  {
  }

  lemma MarkReachesNobody(s: Settings, p: Params, mark: seq<Event>)
    requires SearchTheory.OneMark(s, p, mark)
    ensures AllReached(p, mark)
  {
  }

  ghost predicate PhasesReached(p: Params, ph: Phases) {
    && AllReached(p, ph.look) && AllReached(p, ph.ask) && AllReached(p, ph.first) && AllReached(p, ph.second)
    && AllReached(p, ph.relook) && AllReached(p, ph.deep) && AllReached(p, ph.mark)
  }

  lemma NamedPhases(s: Settings, p: Params, ph: Phases, out: Outcome)
    requires MissSpec(s, p, ph, out) && p.collection != ""
    ensures PhasesReached(p, ph)
  {
    SearchTheory.LookIsQuiet(ph.look);
    QuestionsReachNobody(p, ph.look);
    var mode := Resolve(s, p.mode, p.query, ph.look[0].overloaded);
    if mode == MODE_QUERY {
      SearchTheory.SingleDeepSkeleton(s, p, ph.ask, ph.first, ph.deep, ph.mark, out);
      if ph.ask != [] {
        QuestionsReachNobody(p, ph.ask);
        MarkReachesNobody(s, p, ph.mark);
        NamedReached(s, p, MODE_SEARCH, ph.first);
        if ph.deep != [] {
          NamedReached(s, p, MODE_QUERY, ph.deep);
        }
      }
    } else if ph.first != [] {
      NamedReached(s, p, mode, ph.first);
    }
  }

  lemma UnnamedPhases(s: Settings, p: Params, ph: Phases, out: Outcome)
    requires MissSpec(s, p, ph, out) && p.collection == ""
    ensures PhasesReached(p, ph)
  {
    SearchTheory.LookIsQuiet(ph.look);
    QuestionsReachNobody(p, ph.look);
    var mode := Resolve(s, p.mode, p.query, ph.look[0].overloaded);
    if mode == MODE_QUERY {
      SearchTheory.DeepSkeleton(s, p, ph.ask, ph.first, ph.second, ph.deep, ph.mark, out);
      QuestionsReachNobody(p, ph.ask);
      PrimaryReached(s, p, MODE_SEARCH, ph.first, ph.second);
    } else {
      SearchTheory.FallbackSkeleton(s, p, mode, ph.first, ph.second, ph.relook, ph.deep, ph.mark, out);
      QuestionsReachNobody(p, ph.relook);
      PrimaryReached(s, p, mode, ph.first, ph.second);
    }
    MarkReachesNobody(s, p, ph.mark);
    if ph.deep != [] {
      TierReached(s, p, MODE_QUERY, 1, ph.deep);
    }
  }

  lemma AllPhases(p: Params, ph: Phases)
    requires PhasesReached(p, ph)
    ensures AllReached(p, ph.All())
  {
  }

  lemma SearchReaches(s: Settings, p: Params, ph: Phases, out: Outcome)
    requires MissSpec(s, p, ph, out)
    ensures AllReached(p, ph.All())
  {
    if p.collection == "" {
      UnnamedPhases(s, p, ph, out);
    } else {
      NamedPhases(s, p, ph, out);
    }
    AllPhases(p, ph);
  }

  lemma OneSearchForRequest(s: Settings, req: Request, plan: Plan, collections: seq<string>, i: nat, ph: Phases,
                            out: Outcome)
    requires i < |collections| && MissSpec(s, Normalized(s, CoreParams(s, req, plan, collections[i])), ph, out)
    ensures AllForRequest(s, req, collections, ph.All())
  {
    var p := Normalized(s, CoreParams(s, req, plan, collections[i]));
    SearchTheory.ExecutorCallSafety(s, p, ph, out);
    SearchReaches(s, p, ph, out);
    forall e | e in ph.All()
      ensures ForRequest(s, req, collections, e)
    {
      var k :| 0 <= k < |ph.All()| && ph.All()[k] == e;
      assert SearchTheory.CallSafe(s, p, ph.All(), k);
      assert Reached(p, e);
    }
  }

  lemma ForMore(s: Settings, req: Request, a: seq<string>, b: seq<string>, evs: seq<Event>)
    requires AllForRequest(s, req, a, evs) && a <= b
    ensures AllForRequest(s, req, b, evs)
  {
  }

  lemma ForBoth(s: Settings, req: Request, collections: seq<string>, a: seq<Event>, b: seq<Event>)
    requires AllForRequest(s, req, collections, a) && AllForRequest(s, req, collections, b)
    ensures AllForRequest(s, req, collections, a + b)
  {
  }

  // Whatever is called for a request is called as the request says. In particular
  // one that confirms nothing leaves alone every collection that asks for it.
  lemma {:induction false} CallsAreForRequest(s: Settings, req: Request, plan: Plan, collections: seq<string>,
                                              stored: map<string, SearchResult>, parts: seq<Part>)
    requires PartsSpec(s, req, plan, collections, stored, parts)
    ensures AllForRequest(s, req, collections, Trace(parts))
    decreases |parts|
  {
    if parts != [] {
      var n := |parts| - 1;
      CallsAreForRequest(s, req, plan, collections[..n], stored, parts[..n]);
      ForMore(s, req, collections[..n], collections, Trace(parts[..n]));
      if parts[n].x.ph.Some? {
        OneSearchForRequest(s, req, plan, collections, n, parts[n].x.ph.value, parts[n].x.out);
      }
      ForBoth(s, req, collections, Trace(parts[..n]), parts[n].x.Events());
    }
  }

  // A fresh search for a named collection reaches that. One for none reaches the first
  // tier, and the second exactly if nothing is left of that and the request and the
  // configuration allow it.
  ghost predicate ReachesAsAsked(s: Settings, req: Request, collection: string, part: Part) {
    part.x.ph.Some? ==>
      var ph := part.x.ph.value;
      if collection != ""
      then part.x.out.Found? || part.x.out.SearchFailed? ==> SearchReach.CoversNamed(s, collection, ph.first)
      else
        && SearchReach.CoversTier(s, 1, ph.first)
        && if Surviving(s, part.x.p, ph.first) == [] && req.allowFallback && s.fallbackEnabled
           then SearchReach.CoversTier(s, 2, ph.second) else ph.second == []
  }

  ghost predicate AllReachAsAsked(s: Settings, req: Request, collections: seq<string>, parts: seq<Part>) {
    |parts| == |collections| && forall i | 0 <= i < |parts| :: ReachesAsAsked(s, req, collections[i], parts[i])
  }

  lemma OneMoreReaches(s: Settings, req: Request, collections: seq<string>, parts: seq<Part>, n: nat)
    requires n + 1 == |parts| == |collections| && AllReachAsAsked(s, req, collections[..n], parts[..n])
    requires ReachesAsAsked(s, req, collections[n], parts[n])
    ensures AllReachAsAsked(s, req, collections, parts)
  {
    forall i | 0 <= i < |parts|
      ensures ReachesAsAsked(s, req, collections[i], parts[i])
    {
      if i < n {
        assert collections[..n][i] == collections[i] && parts[..n][i] == parts[i];
      }
    }
  }

  // Every part of a request reaches whom the request asks for.
  lemma {:induction false} PartsReachAsAsked(s: Settings, req: Request, plan: Plan, collections: seq<string>,
                                             stored: map<string, SearchResult>, parts: seq<Part>)
    requires PartsSpec(s, req, plan, collections, stored, parts)
    ensures AllReachAsAsked(s, req, collections, parts)
    decreases |parts|
  {
    if parts != [] {
      var n := |parts| - 1;
      PartsReachAsAsked(s, req, plan, collections[..n], stored, parts[..n]);
      OneReachesAsAsked(s, req, plan, collections[n], parts[n]);
      OneMoreReaches(s, req, collections, parts, n);
    }
  }

  lemma OneReachesAsAsked(s: Settings, req: Request, plan: Plan, collection: string, part: Part)
    requires PartSpec(s, CoreParams(s, req, plan, collection), part)
    ensures ReachesAsAsked(s, req, collection, part)
  {
    if part.x.ph.Some? {
      SearchReach.SearchReachesRight(s, part.x.p, part.x.ph.value, part.x.out);
    }
  }

  // The kinds of calls that the words of a request allow: deep ones only if it asks
  // for them or for nothing in particular, vector ones only in the latter case.
  ghost predicate KindsAllowed(s: Settings, req: Request, overloaded: bool, evs: seq<Event>) {
    var query := TrimSpace(req.query);
    forall e | e in evs && e.Attempt? && e.call.kind != Bm25 ::
      && !overloaded && !SaysCore(req) && !SaysBroad(req) && !TurnedDown(s, req)
      && (e.call.kind == Vector ==> !SaysDeep(req) && s.vector)
      && (e.call.kind == Deep ==> s.deepQuery && (SaysDeep(req) || s.lib.allowDeep(query)))
  }

  lemma KindsOfSearch(s: Settings, p: Params, ph: Phases, out: Outcome)
    requires MissSpec(s, p, ph, out)
    ensures forall e | e in ph.All() && e.Attempt? ::
              && (e.call.kind == Vector ==> SearchCalls.WantsVector(s, p, ph.look[0].overloaded))
              && (e.call.kind == Deep ==> s.deepQuery && (p.mode != "query" ==> s.lib.allowDeep(p.query)))
  {
    SearchCalls.SearchMakesRightCalls(s, p, ph, out);
    SearchCalls.SearchAsksRightQuestions(s, p, ph, out);
    if ph.deep != [] {
      SearchCalls.DeepQueryIsGated(s, p, ph, out);
    }
    SearchTheory.ExecutorCallSafety(s, p, ph, out);
    forall e | e in ph.All() && e.Attempt?
      ensures e in ph.first + ph.second || e in ph.deep
    {
      QuietPhases(s, p, ph, out, e);
    }
  }

  lemma QuietPhases(s: Settings, p: Params, ph: Phases, out: Outcome, e: Event)
    requires SearchCalls.RightCalls(s, p, ph) && SearchCalls.RightQuestions(s, p, ph, out)
    requires MissSpec(s, p, ph, out) && e in ph.All() && e.Attempt?
    ensures e in ph.first + ph.second || e in ph.deep
  {
    SearchTheory.QuietGate(ph.look);
    SearchTheory.QuietGate(ph.ask);
    SearchTheory.QuietGate(ph.relook);
    MarksAreMarks(s, p, ph, out);
    OnlyAttempts(ph, e);
  }

  lemma OnlyAttempts(ph: Phases, e: Event)
    requires SearchTheory.Quiet(ph.look) && SearchTheory.Quiet(ph.ask) && SearchTheory.Quiet(ph.relook)
    requires (forall x | x in ph.mark :: x.Marked?) && e in ph.All() && e.Attempt?
    ensures e in ph.first + ph.second || e in ph.deep
  {
  }

  lemma MarksAreMarks(s: Settings, p: Params, ph: Phases, out: Outcome)
    requires MissSpec(s, p, ph, out)
    ensures forall e | e in ph.mark :: e.Marked?
  {
    var mode := Resolve(s, p.mode, p.query, ph.look[0].overloaded);
    if p.collection == "" && mode != MODE_QUERY && Escalates(s, p, mode, Surviving(s, p, ph.first + ph.second)) {
      var used, reason :| EscalationSpec(s, p, ph.relook, ph.deep, ph.mark, used, reason);
    }
  }

  lemma OneSearchKinds(s: Settings, req: Request, overloaded: bool, collection: string, ph: Phases, out: Outcome)
    requires MissSpec(s, Normalized(s, CoreParams(s, req, FinalPlan(s, req, overloaded), collection)), ph, out)
    ensures KindsAllowed(s, req, overloaded, ph.All())
  {
    var p := Normalized(s, CoreParams(s, req, FinalPlan(s, req, overloaded), collection));
    PlanSays(s, req, overloaded);
    DifferentWords();
    if p.mode == "search" {
      SearchTheory.PlainSearchStaysPlain(s, p, ph, out);
    } else {
      KindsOfSearch(s, p, ph, out);
    }
  }

  lemma KindsOfBoth(s: Settings, req: Request, overloaded: bool, a: seq<Event>, b: seq<Event>)
    requires KindsAllowed(s, req, overloaded, a) && KindsAllowed(s, req, overloaded, b)
    ensures KindsAllowed(s, req, overloaded, a + b)
  {
  }

  // Every call for a request is of a kind that its words allow.
  lemma {:induction false} KindsAreAllowed(s: Settings, req: Request, overloaded: bool, collections: seq<string>,
                                           stored: map<string, SearchResult>, parts: seq<Part>)
    requires PartsSpec(s, req, FinalPlan(s, req, overloaded), collections, stored, parts)
    ensures KindsAllowed(s, req, overloaded, Trace(parts))
    decreases |parts|
  {
    if parts != [] {
      var n := |parts| - 1;
      KindsAreAllowed(s, req, overloaded, collections[..n], stored, parts[..n]);
      if parts[n].x.ph.Some? {
        OneSearchKinds(s, req, overloaded, collections[n], parts[n].x.ph.value, parts[n].x.out);
      }
      KindsOfBoth(s, req, overloaded, Trace(parts[..n]), parts[n].x.Events());
    }
  }

  // ---------- The response ----------

  // Part i found something and reports it as said.
  ghost predicate Reports(parts: seq<Part>, i: int, holds: SearchResult -> bool) {
    0 <= i < |parts| && parts[i].x.out.Found? && holds(parts[i].x.out.result)
  }

  ghost predicate SomePart(parts: seq<Part>, holds: SearchResult -> bool) {
    exists i :: Reports(parts, i, holds)
  }

  // No part before i does.
  ghost predicate NoneBefore(parts: seq<Part>, i: int, holds: SearchResult -> bool) {
    forall j | j < i :: !Reports(parts, j, holds)
  }

  lemma SomeNext(parts: seq<Part>, part: Part, holds: SearchResult -> bool)
    ensures SomePart(parts + [part], holds)
       <==> SomePart(parts, holds) || (part.x.out.Found? && holds(part.x.out.result))
  {
    if SomePart(parts, holds) {
      var i :| Reports(parts, i, holds);
      assert Reports(parts + [part], i, holds);
    }
    if part.x.out.Found? && holds(part.x.out.result) {
      assert Reports(parts + [part], |parts|, holds);
    }
    if SomePart(parts + [part], holds) {
      var i :| Reports(parts + [part], i, holds);
      assert i < |parts| ==> Reports(parts, i, holds);
    }
  }

  // The flags of the merge are those of the parts.
  lemma {:induction false} MergedFlags(parts: seq<Part>)
    ensures var m := Merged(parts);
            && (m.cacheHit <==> SomePart(parts, (r: SearchResult) => r.cacheHit))
            && (m.fallback <==> SomePart(parts, (r: SearchResult) => r.fallbackTriggered))
            && (m.degraded <==> SomePart(parts, (r: SearchResult) => r.degraded))
            && (m.modeUsed == "query" <==> SomePart(parts, (r: SearchResult) => r.mode == "query"))
            && (m.reason == "" <==> !SomePart(parts, (r: SearchResult) => r.degradeReason != ""))
            && (m.successes > 0 <==> SomePart(parts, (r: SearchResult) => true))
  {
    if parts != [] {
      var init, part := parts[..|parts| - 1], parts[|parts| - 1];
      MergedFlags(init);
      InitAndLast(parts);
      SomeNext(init, part, (r: SearchResult) => r.cacheHit);
      SomeNext(init, part, (r: SearchResult) => r.fallbackTriggered);
      SomeNext(init, part, (r: SearchResult) => r.degraded);
      SomeNext(init, part, (r: SearchResult) => r.mode == "query");
      SomeNext(init, part, (r: SearchResult) => r.degradeReason != "");
      SomeNext(init, part, (r: SearchResult) => true);
    }
  }

  // Part i found something that holds, and no part before it did.
  ghost predicate FirstToReport(parts: seq<Part>, i: int, holds: SearchResult -> bool) {
    Reports(parts, i, holds) && NoneBefore(parts, i, holds)
  }

  lemma FirstNext(parts: seq<Part>, part: Part, i: int, holds: SearchResult -> bool)
    ensures i < |parts| ==> (FirstToReport(parts + [part], i, holds) <==> FirstToReport(parts, i, holds))
    ensures FirstToReport(parts + [part], |parts|, holds)
       <==> !SomePart(parts, holds) && part.x.out.Found? && holds(part.x.out.result)
  {
    var more := parts + [part];
    forall j | j < |parts|
      ensures Reports(more, j, holds) <==> Reports(parts, j, holds)
    {
    }
    if SomePart(parts, holds) {
      var k :| Reports(parts, k, holds);
      assert Reports(more, k, holds);
    }
  }

  ghost predicate Firsts(parts: seq<Part>, m: Merge, i: int) {
    && (FirstToReport(parts, i, (r: SearchResult) => r.degradeReason != "") ==>
          m.reason == parts[i].x.out.result.degradeReason)
    && (FirstToReport(parts, i, (r: SearchResult) => r.mode != "") && m.modeUsed != "query" ==>
          m.modeUsed == parts[i].x.out.result.mode)
  }

  // The merge has the first reason that a part gives, and, unless a part is in mode
  // "query", the mode of the first.
  lemma {:induction false} MergedFirsts(parts: seq<Part>, i: int)
    ensures Firsts(parts, Merged(parts), i)
  {
    if parts != [] {
      var n := |parts| - 1;
      var init, part := parts[..n], parts[n];
      InitAndLast(parts);
      MergedFirsts(init, i);
      MergedFlags(init);
      MergedMode(init);
      FirstNext(init, part, i, (r: SearchResult) => r.degradeReason != "");
      FirstNext(init, part, i, (r: SearchResult) => r.mode != "");
      FirstsNext(init, part, Merged(init), Merged(parts), i);
    }
  }

  lemma {:induction false} MergedMode(parts: seq<Part>)
    ensures Merged(parts).modeUsed == "" <==> !SomePart(parts, (r: SearchResult) => r.mode != "")
  {
    if parts != [] {
      MergedMode(parts[..|parts| - 1]);
      InitAndLast(parts);
      SomeNext(parts[..|parts| - 1], parts[|parts| - 1], (r: SearchResult) => r.mode != "");
    }
  }

  lemma FirstsNext(init: seq<Part>, part: Part, m: Merge, next: Merge, i: int)
    requires Firsts(init, m, i) && next == Add(m, part.x.p.collection, part.x.out)
    requires m.reason == "" <==> !SomePart(init, (r: SearchResult) => r.degradeReason != "")
    requires m.modeUsed == "" <==> !SomePart(init, (r: SearchResult) => r.mode != "")
    ensures Firsts(init + [part], next, i)
  {
    var hasReason, hasMode := (r: SearchResult) => r.degradeReason != "", (r: SearchResult) => r.mode != "";
    FirstNext(init, part, i, hasReason);
    FirstNext(init, part, i, hasMode);
    if i < |init| {
      FirstIsSome(init, i, hasReason);
      FirstIsSome(init, i, hasMode);
    }
  }

  lemma FirstIsSome(parts: seq<Part>, i: int, holds: SearchResult -> bool)
    ensures FirstToReport(parts, i, holds) ==> SomePart(parts, holds)
  {
  }

  // The collections a part reports, or else the one it was for.
  ghost predicate NamedBy(part: Part, name: string) {
    && part.x.out.Found? && name != ""
    && (name in part.x.out.result.collections || (part.x.out.result.collections == [] && name == part.x.p.collection))
  }

  lemma {:induction false} MergedNames(parts: seq<Part>, name: string)
    ensures name in Merged(parts).names <==> exists i :: 0 <= i < |parts| && NamedBy(parts[i], name)
  {
    if parts != [] {
      var init := parts[..|parts| - 1];
      MergedNames(init, name);
      if i :| 0 <= i < |init| && NamedBy(init[i], name) {
        assert NamedBy(parts[i], name);
      }
      if i :| 0 <= i < |parts| && NamedBy(parts[i], name) {
        assert i < |init| ==> NamedBy(init[i], name);
      }
    }
  }

  // The first part that found nothing tells the error.
  lemma {:induction false} MergedError(parts: seq<Part>, i: nat)
    requires i < |parts| && !parts[i].x.out.Found? && forall j | 0 <= j < i :: parts[j].x.out.Found?
    ensures Merged(parts).firstError == Some(parts[i].x.out)
  {
    var n := |parts| - 1;
    if i < n {
      MergedError(parts[..n], i);
    } else {
      NoErrorYet(parts[..n]);
    }
  }

  lemma {:induction false} NoErrorYet(parts: seq<Part>)
    requires forall part | part in parts :: part.x.out.Found?
    ensures Merged(parts).firstError == None
  {
    if parts != [] {
      InitAndLast(parts);
      NoErrorYet(parts[..|parts| - 1]);
    }
  }

  // How many hits a request asks for.
  ghost function Limit(s: Settings, req: Request): int {
    if req.topK > 0 then req.topK else if req.filesOnly && req.filesAll then 0 else s.topK
  }

  // The response holds a selection of the merged hits, cut for files_all. It is served
  // deep if a part was, else broad if the request asks for broad or deep or, unless
  // it asks for core, anything is degraded, or a second tier was needed, else core. It
  // is degraded if a part is, if deep was asked for and not served, if it was planned
  // so, or if it was cut; and the first of these that applies gives the reason.
  ghost predicate RightResponse(s: Settings, req: Request, planned: string, m: Merge, sel: seq<Hit>, r: Response) {
    var capped := req.filesOnly && req.filesAll && s.filesAllMaxHits > 0 && |sel| > s.filesAllMaxHits;
    var undelivered := SaysDeep(req) && m.modeUsed != "query";
    && r.results == (if capped then sel[..s.filesAllMaxHits] else sel)
    && r.modeUsed == (if m.modeUsed == "" then "search" else m.modeUsed)
    && (r.servedMode == "deep" <==> m.modeUsed == "query")
    && (r.servedMode == "broad" <==>
          m.modeUsed != "query" && (SaysBroad(req) || SaysDeep(req) || m.fallback || (m.degraded && !SaysCore(req))))
    && (r.servedMode == "core" <==>
          m.modeUsed != "query" && !SaysBroad(req) && !SaysDeep(req) && !m.fallback && (m.degraded ==> SaysCore(req)))
    && r.collections == m.names && r.fallbackTriggered == m.fallback && r.cacheHit == m.cacheHit
    && (r.degraded <==> m.degraded || undelivered || planned != "" || capped)
    && r.degradeReason == (if m.reason != "" then m.reason else if undelivered then "DEEP_GATE_REJECTED"
                           else if planned != "" then planned else if capped then "FILES_ALL_CAPPED" else "")
  }

  lemma ServedAs(req: Request, modeUsed: string, fallback: bool, degraded: bool)
    ensures var served := ServedMode(RequestedMode(req), modeUsed, fallback, degraded);
            && (served == "deep" <==> modeUsed == "query")
            && (served == "broad" <==>
                  modeUsed != "query" && (SaysBroad(req) || SaysDeep(req) || fallback || (degraded && !SaysCore(req))))
            && (served == "core" <==>
                  modeUsed != "query" && !SaysBroad(req) && !SaysDeep(req) && !fallback
                  && (degraded ==> SaysCore(req)))
  {
    ModeSays(req);
    DifferentWords();
  }

  lemma ResponseIsRight(s: Settings, req: Request, plan: Plan, m: Merge, sel: seq<Hit>, r: Response)
    requires r == ResponseFor(s, req, RequestedMode(req), plan, m, sel)
    ensures RightResponse(s, req, plan.reason, m, sel, r)
  {
    ModeSays(req);
    DifferentWords();
    ServedAs(req, if m.modeUsed == "" then MODE_SEARCH else m.modeUsed, m.fallback, m.degraded);
    assert "query" != "" && "DEEP_GATE_REJECTED" != "" by {
      assert |"query"| == 5 && |"DEEP_GATE_REJECTED"| == 18;
    }
  }

  // A request whose parts have found something is served from a selection of that,
  // and any other fails for the reason of the first part. Overload and the deep gate
  // are reasons to degrade it.
  ghost predicate RightAnswer(s: Settings, req: Request, overloaded: bool, parts: seq<Part>, out: CoreOutcome) {
    var planned := if TurnedDown(s, req) then "DEEP_GATE_REJECTED"
                   else if overloaded then "CPU_OVERLOAD_PROTECT" else "";
    if SomePart(parts, (r: SearchResult) => true)
    then out.Served? && exists sel :: Selected(HIT_NAMES, Merged(parts).hits, Limit(s, req), sel)
                                      && RightResponse(s, req, planned, Merged(parts), sel, out.response)
    else out.Unserved? && Merged(parts).firstError == Some(out.first)
  }

  lemma AnswerIsRight(s: Settings, req: Request, overloaded: bool, collections: seq<string>,
                      stored: map<string, SearchResult>, parts: seq<Part>, out: CoreOutcome)
    requires AnswerSpec(s, req, RequestedMode(req), FinalPlan(s, req, overloaded), collections, stored, parts, out)
    ensures RightAnswer(s, req, overloaded, parts, out)
  {
    MergedFlags(parts);
    if Merged(parts).successes > 0 {
      PlanSays(s, req, overloaded);
      LimitIsCount(s, req, FinalPlan(s, req, overloaded));
      ServedIsRight(s, req, FinalPlan(s, req, overloaded), Merged(parts), out.response);
    }
  }

  lemma LimitIsCount(s: Settings, req: Request, plan: Plan)
    ensures CoreParams(s, req, plan, "").n == Limit(s, req)
  {
  }

  lemma ServedIsRight(s: Settings, req: Request, plan: Plan, m: Merge, r: Response)
    requires ResponseSpec(s, req, RequestedMode(req), plan, Limit(s, req), m, r)
    ensures exists sel :: Selected(HIT_NAMES, m.hits, Limit(s, req), sel)
                          && RightResponse(s, req, plan.reason, m, sel, r)
  {
    var sel :| Selected(HIT_NAMES, m.hits, Limit(s, req), sel)
      && r == ResponseFor(s, req, RequestedMode(req), plan, m, sel);
    ResponseIsRight(s, req, plan, m, sel, r);
  }
}
