// Which calls a search makes, what it asks the negative cache, and how it reports
// what came of them, said of the request, the configuration and the load alone.

module SearchCalls {
  import opened Model
  import opened NegativeCache
  import opened SearchSpec
  import opened SearchTheory

  // ---------- The mode of a search ----------

  // The request leaves the mode to the router, which chooses m.
  ghost predicate Routed(s: Settings, p: Params, m: string) {
    (p.mode == "" || p.mode == "auto") && s.lib.detect(p.query, s.vector, s.deepQuery) == m
  }

  // A calm, capable search that was asked for deep query, or for which the router
  // chose it and the smart-routing gate does not object.
  ghost predicate WantsDeep(s: Settings, p: Params, overloaded: bool) {
    && !overloaded && s.deepQuery
    && (p.mode == "query" || (Routed(s, p, "query") && s.lib.allowDeep(p.query)))
  }

  ghost predicate WantsVector(s: Settings, p: Params, overloaded: bool) {
    !overloaded && s.vector && (p.mode == "vsearch" || Routed(s, p, "vsearch"))
  }

  ghost predicate WantsPlain(s: Settings, p: Params, overloaded: bool) {
    || overloaded || p.mode == "search" || Routed(s, p, "search")
    || (p.mode == "query" && !s.deepQuery) || (p.mode == "vsearch" && !s.vector)
    || (Routed(s, p, "query") && !(s.deepQuery && s.lib.allowDeep(p.query))) || (Routed(s, p, "vsearch") && !s.vector)
  }

  lemma Words()
    ensures "query" != "vsearch" && "query" != "search" && "vsearch" != "search" && "query" != "" && "query" != "auto"
    ensures "vsearch" != "" && "vsearch" != "auto" && "search" != "" && "search" != "auto"
  {
    assert |"query"| == 5 && |"vsearch"| == 7 && |"search"| == 6 && |"auto"| == 4;
  }

  lemma ResolvesTo(s: Settings, p: Params, overloaded: bool)
    ensures var mode := Resolve(s, p.mode, p.query, overloaded);
            && (mode == "query" <==> WantsDeep(s, p, overloaded))
            && (mode == "vsearch" <==> WantsVector(s, p, overloaded))
            && (mode == "search" <==> WantsPlain(s, p, overloaded))
  {
    Words();
  }

  // ---------- The calls of a search ----------

  // The searches before the deep ones are vector searches if that is what is wanted,
  // and plain ones otherwise; the deep ones are deep.
  ghost predicate RightCalls(s: Settings, p: Params, ph: Phases) {
    && |ph.look| == 1 && ph.look[0].Looked?
    && (forall e | e in ph.first + ph.second ::
          && e.Attempt? && e.call.kind != Deep
          && (e.call.kind == Vector <==> WantsVector(s, p, ph.look[0].overloaded)))
    && (forall e | e in ph.deep :: e.Attempt? && e.call.kind == Deep)
  }

  ghost predicate Kinds(mode: string, evs: seq<Event>) {
    forall e | e in evs :: e.Attempt? && OfKind(mode, e.call.kind)
  }

  lemma SingleDeepKinds(s: Settings, p: Params, ask: seq<Event>, broad: seq<Event>, deep: seq<Event>, mark: seq<Event>,
                        out: Outcome)
    requires SingleDeepSpec(s, p, ask, broad, deep, mark, out)
    ensures Kinds("search", broad) && Kinds("query", deep)
  {
  }

  lemma SingleKinds(s: Settings, p: Params, mode: string, evs: seq<Event>, out: Outcome)
    requires SingleSpec(s, p, mode, evs, out)
    ensures Kinds(mode, evs)
  {
  }

  lemma PrimaryKinds(s: Settings, p: Params, mode: string, first: seq<Event>, second: seq<Event>)
    requires PrimarySpec(s, p, mode, first, second)
    ensures Kinds(mode, first + second)
  {
  }

  lemma DeepKinds(s: Settings, p: Params, ask: seq<Event>, first: seq<Event>, second: seq<Event>, deep: seq<Event>,
                  mark: seq<Event>, out: Outcome)
    requires DeepSpec(s, p, ask, first, second, deep, mark, out)
    ensures Kinds("search", first + second) && Kinds("query", deep)
  {
    PrimaryKinds(s, p, MODE_SEARCH, first, second);
  }

  lemma FallbackKinds(s: Settings, p: Params, mode: string, first: seq<Event>, second: seq<Event>, look: seq<Event>,
                      deep: seq<Event>, mark: seq<Event>, out: Outcome)
    requires FallbackSpec(s, p, mode, first, second, look, deep, mark, out)
    ensures Kinds(mode, first + second) && Kinds("query", deep)
  {
    PrimaryKinds(s, p, mode, first, second);
    if Escalates(s, p, mode, Surviving(s, p, first + second)) {
      var used, reason :| EscalationSpec(s, p, look, deep, mark, used, reason);
    }
  }

  lemma KindsAre(s: Settings, p: Params, ph: Phases, mode: string)
    requires |ph.look| == 1 && ph.look[0].Looked? && mode == Resolve(s, p.mode, p.query, ph.look[0].overloaded)
    requires Kinds(if mode == "query" then "search" else mode, ph.first + ph.second) && Kinds("query", ph.deep)
    ensures RightCalls(s, p, ph)
  {
    Words();
    ResolvesTo(s, p, ph.look[0].overloaded);
  }

  // Every search makes the calls that it should.
  lemma SearchMakesRightCalls(s: Settings, p: Params, ph: Phases, out: Outcome)
    requires MissSpec(s, p, ph, out)
    ensures RightCalls(s, p, ph)
  {
    var mode := Resolve(s, p.mode, p.query, ph.look[0].overloaded);
    if p.collection != "" && mode == MODE_QUERY {
      SingleDeepKinds(s, p, ph.ask, ph.first, ph.deep, ph.mark, out);
      EmptyRight(ph.first);
    } else if p.collection != "" {
      SingleKinds(s, p, mode, ph.first, out);
      EmptyRight(ph.first);
    } else if mode == MODE_QUERY {
      DeepKinds(s, p, ph.ask, ph.first, ph.second, ph.deep, ph.mark, out);
    } else {
      FallbackKinds(s, p, mode, ph.first, ph.second, ph.relook, ph.deep, ph.mark, out);
    }
    KindsAre(s, p, ph, mode);
  }

  // ---------- Refusals ----------

  // The first configured collection of a name.
  ghost predicate Names(s: Settings, name: string, col: Collection) {
    exists i :: 0 <= i < |s.collections| && s.collections[i] == col && col.name == name
      && forall j | 0 <= j < i :: s.collections[j].name != name
  }

  lemma {:induction false} FindsFirst(s: Settings, name: string)
    ensures match FindCollection(s.collections, name)
            case None => forall c | c in s.collections :: c.name != name
            case Some(col) => Names(s, name, col)
    decreases |s.collections|
  {
    if s.collections != [] && s.collections[0].name != name {
      var t := s.(collections := s.collections[1..]);
      FindsFirst(t, name);
      assert s.collections == [s.collections[0]] + t.collections;
      if FindCollection(t.collections, name).Some? {
        var col := FindCollection(t.collections, name).value;
        var i :| 0 <= i < |t.collections| && t.collections[i] == col && col.name == name
          && forall j | 0 <= j < i :: t.collections[j].name != name;
        assert s.collections[i + 1] == col;
        assert forall j | 0 <= j < i + 1 :: s.collections[j].name != name;
      }
    }
  }

  // An unknown collection, and one that asks for a confirmation it did not get.
  ghost predicate RightRefusal(s: Settings, p: Params, out: Outcome) {
    && (out == UnknownCollection <==> p.collection != "" && forall c | c in s.collections :: c.name != p.collection)
    && (out == NeedsConfirm <==>
          p.collection != "" && !p.confirm
          && exists c :: Names(s, p.collection, c) && c.requireExplicit && c.safetyPrompt)
  }

  lemma OneFirst(s: Settings, name: string, a: Collection, b: Collection)
    requires Names(s, name, a) && Names(s, name, b)
    ensures a == b
  {
  }

  lemma NamedRefusal(s: Settings, p: Params, out: Outcome)
    requires p.collection != ""
    requires match FindCollection(s.collections, p.collection)
             case None => out == UnknownCollection
             case Some(col) => if Guarded(col, p) then out == NeedsConfirm else out.Found? || out.SearchFailed?
    ensures RightRefusal(s, p, out)
  {
    FindsFirst(s, p.collection);
    if FindCollection(s.collections, p.collection).Some? {
      var col := FindCollection(s.collections, p.collection).value;
      forall c | Names(s, p.collection, c)
        ensures c == col
      {
        OneFirst(s, p.collection, c, col);
      }
      assert col in s.collections;
    }
  }

  // A search is refused exactly for its collection's sake.
  lemma RefusedIff(s: Settings, p: Params, ph: Phases, out: Outcome)
    requires MissSpec(s, p, ph, out)
    ensures RightRefusal(s, p, out)
  {
    if p.collection != "" {
      NamedRefusal(s, p, out);
    }
  }

  // ---------- The questions of a search ----------

  // Nothing that a search without deep query brought in is left.
  ghost predicate NothingBroad(s: Settings, p: Params, ph: Phases) {
    Surviving(s, p, ph.first + ph.second) == []
  }

  // A search asks the negative cache first exactly if deep query is wanted. An
  // unnamed plain search looks at the load once more exactly if it may escalate,
  // could, and found nothing; and then it asks exactly if the load is low and the
  // gate does not object. Deep searches are made exactly after a go-ahead.
  ghost predicate RightQuestions(s: Settings, p: Params, ph: Phases, out: Outcome) {
    && |ph.look| == 1 && ph.look[0].Looked?
    && var on := ph.look[0].overloaded;
       && (ph.ask != [] <==> WantsDeep(s, p, on) && (p.collection == "" || out.Found?))
       && (ph.ask != [] ==> |ph.ask| == 1 && ph.ask[0].Asked?)
       && (ph.relook != [] <==>
             && p.collection == "" && WantsPlain(s, p, on) && !p.disableDeepEscalation && s.deepQuery
             && NothingBroad(s, p, ph))
       && (ph.relook != [] ==> ph.relook[0].Looked?)
       && (|ph.relook| >= 2 <==> ph.relook != [] && !ph.relook[0].overloaded && s.lib.allowDeep(p.query))
       && (|ph.relook| >= 2 ==> |ph.relook| == 2 && ph.relook[1].Asked?)
       && (Question(ph).Some? ==> AboutSearch(s, p, Question(ph).value))
       && (ph.deep != [] || ph.mark != [] ==> WentAhead(ph))
       && (p.collection != "" && WentAhead(ph) ==> |ph.deep| == 1)
  }

  // A question is about the normalized query, and the collection or all of them.
  ghost predicate AboutSearch(s: Settings, p: Params, e: Event) {
    && e.Asked? && e.query == s.lib.normalize(p.query)
    && e.scope == if p.collection == "" then "all" else p.collection
  }

  // The question of a search.
  ghost function Question(ph: Phases): Option<Event> {
    if ph.ask != [] then Some(ph.ask[0]) else if |ph.relook| >= 2 then Some(ph.relook[1]) else None
  }

  ghost predicate WentAhead(ph: Phases) {
    Question(ph).Some? && Question(ph).value.Asked? && Question(ph).value.answer == Go
  }

  lemma SingleDeepQuestions(s: Settings, p: Params, ph: Phases, out: Outcome)
    requires SingleDeepSpec(s, p, ph.ask, ph.first, ph.deep, ph.mark, out) && ph.second == ph.relook == []
    requires |ph.look| == 1 && ph.look[0].Looked? && p.collection != "" && WantsDeep(s, p, ph.look[0].overloaded)
    ensures RightQuestions(s, p, ph, out)
  {
  }

  lemma SingleQuestions(s: Settings, p: Params, ph: Phases, out: Outcome)
    requires ph.ask == ph.second == ph.relook == ph.deep == ph.mark == []
    requires |ph.look| == 1 && ph.look[0].Looked? && p.collection != "" && !WantsDeep(s, p, ph.look[0].overloaded)
    ensures RightQuestions(s, p, ph, out)
  {
  }

  lemma DeepQuestions(s: Settings, p: Params, ph: Phases, out: Outcome)
    requires DeepSpec(s, p, ph.ask, ph.first, ph.second, ph.deep, ph.mark, out) && ph.relook == []
    requires |ph.look| == 1 && ph.look[0].Looked? && p.collection == "" && WantsDeep(s, p, ph.look[0].overloaded)
    requires !WantsPlain(s, p, ph.look[0].overloaded)
    ensures RightQuestions(s, p, ph, out)
  {
  }

  lemma FallbackQuestions(s: Settings, p: Params, ph: Phases, mode: string, out: Outcome)
    requires FallbackSpec(s, p, mode, ph.first, ph.second, ph.relook, ph.deep, ph.mark, out) && ph.ask == []
    requires |ph.look| == 1 && ph.look[0].Looked? && p.collection == "" && !WantsDeep(s, p, ph.look[0].overloaded)
    requires mode == "search" <==> WantsPlain(s, p, ph.look[0].overloaded)
    ensures RightQuestions(s, p, ph, out)
  {
    if Escalates(s, p, mode, Surviving(s, p, ph.first + ph.second)) {
      var used, reason :| EscalationSpec(s, p, ph.relook, ph.deep, ph.mark, used, reason);
    }
  }

  lemma SearchAsksRightQuestions(s: Settings, p: Params, ph: Phases, out: Outcome)
    requires MissSpec(s, p, ph, out)
    ensures RightQuestions(s, p, ph, out)
  {
    Words();
    ResolvesTo(s, p, ph.look[0].overloaded);
    var mode := Resolve(s, p.mode, p.query, ph.look[0].overloaded);
    if p.collection != "" && mode == MODE_QUERY {
      SingleDeepQuestions(s, p, ph, out);
    } else if p.collection != "" {
      SingleQuestions(s, p, ph, out);
    } else if mode == MODE_QUERY {
      DeepQuestions(s, p, ph, out);
    } else {
      FallbackQuestions(s, p, ph, mode, out);
    }
  }

  // Under overload a search makes plain calls until the load is looked at again, asks
  // nothing before, and answers for a named collection in a mode other than "query".
  lemma OverloadForcesPlainSearch(s: Settings, p: Params, ph: Phases, out: Outcome)
    requires MissSpec(s, p, ph, out) && ph.look[0].overloaded
    ensures ph.ask == [] && forall e | e in ph.first + ph.second :: e.Attempt? && e.call.kind == Bm25
    ensures p.collection != "" ==> ph.deep == [] && (out.Found? ==> out.result.mode == "search")
    ensures ph.deep != [] ==> ph.relook != [] && ph.relook[0].Looked? && !ph.relook[0].overloaded
  {
    SearchMakesRightCalls(s, p, ph, out);
    SearchAsksRightQuestions(s, p, ph, out);
    ResolvesTo(s, p, true);
  }

  // Deep query happens only in calm: the last look at the load before it was calm.
  // Unless it was asked for by name, the gate does not object either.
  lemma DeepQueryIsGated(s: Settings, p: Params, ph: Phases, out: Outcome)
    requires MissSpec(s, p, ph, out) && ph.deep != []
    ensures s.deepQuery && (p.mode != "query" ==> s.lib.allowDeep(p.query))
    ensures if ph.relook == [] then !ph.look[0].overloaded else ph.relook[0].Looked? && !ph.relook[0].overloaded
  {
    SearchAsksRightQuestions(s, p, ph, out);
  }

  // ---------- The answer of a search ----------

  // The reason for degrading follows from the question, the deep hits and the mark.
  ghost predicate RightReason(s: Settings, p: Params, ph: Phases, reason: string) {
    if Question(ph).None? then reason == ""
    else match Question(ph).value
      case Asked(_, _, _, answer) =>
        reason == (match answer
                   case SkipExact => "deep_negative_cached_fallback_broad"
                   case SkipCooldown => "deep_negative_scope_cooldown"
                   case Go => if Surviving(s, p, ph.deep) != [] then ""
                              else if ph.mark != [] then "deep_failed_fallback_broad"
                              else "deep_empty_fallback_broad")
      case _ => false
  }

  // An answer is in mode "query" exactly if deep hits are left, which it then holds;
  // else it holds what the other searches left. It is empty only if nothing is left
  // at all. It names the collections that answered the searches it holds, says whether
  // the second tier was searched for them, and is degraded exactly for a reason.
  ghost predicate RightAnswer(s: Settings, p: Params, ph: Phases, r: SearchResult) {
    var deep := Surviving(s, p, ph.deep) != [];
    var used := if deep then ph.deep else ph.first + ph.second;
    && (r.mode == "query" <==> deep)
    && Finalized(s, p, Surviving(s, p, used), r.results)
    && r.collections == (if p.collection != "" then [p.collection] else Searched(used))
    && (r.fallbackTriggered <==> ph.second != [] && (deep ==> ph.ask == []))
    && RightReason(s, p, ph, r.degradeReason) && (r.degraded <==> r.degradeReason != "") && !r.cacheHit
  }

  lemma DeepOutcomeIsRight(s: Settings, p: Params, ph: Phases, scope: string, failed: bool, searched: seq<string>,
                           broadSearched: seq<string>, out: Outcome)
    requires DeepOutcome(s, p, scope, failed, Surviving(s, p, ph.deep), searched,
                         Surviving(s, p, ph.first + ph.second), broadSearched, ph.second != [], ph.mark, out)
    requires failed ==> Surviving(s, p, ph.deep) == []
    requires |ph.ask| == 1 && ph.ask[0].Asked? && ph.ask[0].answer == Go
    requires searched == if p.collection != "" then [p.collection] else Searched(ph.deep)
    requires broadSearched == if p.collection != "" then [p.collection] else Searched(ph.first + ph.second)
    ensures RightAnswer(s, p, ph, out.result)
  {
    Words();
  }

  lemma FailedBringsNothing(s: Settings, p: Params, mode: string, col: Collection, evs: seq<Event>)
    requires TierSpec(s, p, mode, [col], evs) && AnyFailed(evs)
    ensures Surviving(s, p, evs) == []
  {
    assert evs == [evs[0]] && evs[0] in evs;
    assert evs[..0] == [];
    assert Gathered(s, evs) == [];
  }

  lemma SkippedIsRight(s: Settings, p: Params, ph: Phases, searched: seq<string>, out: Outcome)
    requires |ph.ask| == 1 && ph.ask[0].Asked? && ph.ask[0].answer != Go && ph.deep == []
    requires out.Found? && Finalized(s, p, Surviving(s, p, ph.first + ph.second), out.result.results)
    requires searched == if p.collection != "" then [p.collection] else Searched(ph.first + ph.second)
    requires out == Fresh(out.result.results, MODE_SEARCH, searched, ph.second != [], SkipReason(ph.ask[0].answer))
    ensures RightAnswer(s, p, ph, out.result)
  {
    Words();
  }

  lemma SingleDeepIsRight(s: Settings, p: Params, ph: Phases, out: Outcome)
    requires SingleDeepSpec(s, p, ph.ask, ph.first, ph.deep, ph.mark, out) && ph.second == ph.relook == []
    requires p.collection != "" && out.Found?
    ensures RightAnswer(s, p, ph, out.result)
  {
    var names := [p.collection];
    EmptyRight(ph.first);
    if ph.ask[0].answer == Go {
      var col := FindCollection(s.collections, p.collection).value;
      if AnyFailed(ph.deep) {
        FailedBringsNothing(s, p, MODE_QUERY, col, ph.deep);
      }
      DeepOutcomeIsRight(s, p, ph, p.collection, AnyFailed(ph.deep), names, names, out);
    } else {
      SkippedIsRight(s, p, ph, names, out);
    }
  }

  lemma SingleIsRight(s: Settings, p: Params, ph: Phases, mode: string, out: Outcome)
    requires SingleSpec(s, p, mode, ph.first, out) && mode != "query" && p.collection != "" && out.Found?
    requires ph.ask == ph.second == ph.relook == ph.deep == ph.mark == []
    ensures RightAnswer(s, p, ph, out.result)
  {
    EmptyRight(ph.first);
  }

  lemma NoTierNoHits(s: Settings, p: Params, deep: seq<Event>)
    requires DeepTierSpec(s, p, deep) && DeepTierFailed(s, deep)
    ensures Surviving(s, p, deep) == []
  {
    if Tier(s.collections, 1) == [] {
      assert deep == [];
    }
  }

  lemma DeepIsRight(s: Settings, p: Params, ph: Phases, out: Outcome)
    requires DeepSpec(s, p, ph.ask, ph.first, ph.second, ph.deep, ph.mark, out) && ph.relook == []
    requires p.collection == ""
    ensures RightAnswer(s, p, ph, out.result)
  {
    if ph.ask[0].answer == Go {
      if DeepTierFailed(s, ph.deep) {
        NoTierNoHits(s, p, ph.deep);
      }
      DeepOutcomeIsRight(s, p, ph, ALL_SCOPE, DeepTierFailed(s, ph.deep), Searched(ph.deep),
                         Searched(ph.first + ph.second), out);
    } else {
      SkippedIsRight(s, p, ph, Searched(ph.first + ph.second), out);
    }
  }

  lemma NotEscalated(s: Settings, p: Params, ph: Phases, mode: string, out: Outcome)
    requires ph.ask == ph.relook == ph.deep == [] && p.collection == "" && mode != "query" && out.Found?
    requires Plain(s, p, Surviving(s, p, ph.first + ph.second), mode, Searched(ph.first + ph.second),
                   ph.second != [], "", out)
    ensures RightAnswer(s, p, ph, out.result)
  {
  }

  lemma EscalatedIsRight(s: Settings, p: Params, ph: Phases, mode: string, used: bool, reason: string, out: Outcome)
    requires EscalationSpec(s, p, ph.relook, ph.deep, ph.mark, used, reason) && out.Found?
    requires ph.ask == [] && p.collection == "" && mode != "query"
    requires if used then Plain(s, p, Surviving(s, p, ph.deep), MODE_QUERY, Searched(ph.deep), ph.second != [], "", out)
             else Plain(s, p, Surviving(s, p, ph.first + ph.second), mode, Searched(ph.first + ph.second),
                        ph.second != [], reason, out)
    ensures RightAnswer(s, p, ph, out.result)
  {
    if |ph.relook| == 2 && ph.relook[1].answer == Go && DeepTierFailed(s, ph.deep) {
      NoTierNoHits(s, p, ph.deep);
    }
  }

  lemma FallbackIsRight(s: Settings, p: Params, ph: Phases, mode: string, out: Outcome)
    requires FallbackSpec(s, p, mode, ph.first, ph.second, ph.relook, ph.deep, ph.mark, out) && ph.ask == []
    requires p.collection == "" && mode != "query"
    ensures RightAnswer(s, p, ph, out.result)
  {
    var found, searched := Surviving(s, p, ph.first + ph.second), Searched(ph.first + ph.second);
    if Escalates(s, p, mode, found) {
      var used, reason :| EscalationSpec(s, p, ph.relook, ph.deep, ph.mark, used, reason)
        && if used then Plain(s, p, Surviving(s, p, ph.deep), MODE_QUERY, Searched(ph.deep), ph.second != [], "", out)
           else Plain(s, p, found, mode, searched, ph.second != [], reason, out);
      EscalatedIsRight(s, p, ph, mode, used, reason, out);
    } else {
      NotEscalated(s, p, ph, mode, out);
    }
  }

  // Every search answers right.
  lemma SearchAnswersRight(s: Settings, p: Params, ph: Phases, out: Outcome)
    requires MissSpec(s, p, ph, out) && out.Found?
    ensures RightAnswer(s, p, ph, out.result)
  {
    var mode := Resolve(s, p.mode, p.query, ph.look[0].overloaded);
    if p.collection != "" && mode == MODE_QUERY {
      SingleDeepIsRight(s, p, ph, out);
    } else if p.collection != "" {
      SingleIsRight(s, p, ph, mode, out);
    } else if mode == MODE_QUERY {
      DeepIsRight(s, p, ph, out);
    } else {
      FallbackIsRight(s, p, ph, mode, out);
    }
  }
}
