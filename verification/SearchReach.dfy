// Which collections a search reaches, what it keeps of their replies, and when it
// fails.

module SearchReach {
  import opened Model
  import opened NegativeCache
  import opened SearchSpec
  import opened SearchTheory
  import opened SearchCalls

  // ---------- The filters ----------

  // The places at of hits, in order, are those where keep holds, and out holds what
  // is there.
  ghost predicate Picks(hits: seq<Hit>, keep: Hit -> bool, at: seq<nat>, out: seq<Hit>) {
    && |at| == |out|
    && (forall i | 0 <= i < |at| :: at[i] < |hits| && out[i] == hits[at[i]])
    && (forall i, j | 0 <= i < j < |at| :: at[i] < at[j])
    && (forall k: nat | k < |hits| :: keep(hits[k]) <==> k in at)
  }

  lemma PicksNext(hits: seq<Hit>, keep: Hit -> bool, at: seq<nat>, out: seq<Hit>, h: Hit)
    requires Picks(hits, keep, at, out)
    ensures if keep(h) then Picks(hits + [h], keep, at + [|hits|], out + [h]) else Picks(hits + [h], keep, at, out)
  {
  }

  // filterExclude keeps, in order, exactly the hits that no pattern matches.
  lemma {:induction false} ExcludeKeeps(s: Settings, col: Collection, hits: seq<Hit>) returns (at: seq<nat>)
    ensures Picks(hits, (h: Hit) => !Excluded(s.lib, col, h), at, Unexcluded(s.lib, col, hits))
    ensures forall k | 0 <= k < |hits| :: k in at <==> !Matched(s, col, hits[k])
  {
    at := [];
    if hits != [] {
      var init, h := hits[..|hits| - 1], hits[|hits| - 1];
      at := ExcludeKeeps(s, col, init);
      PicksNext(init, (h: Hit) => !Excluded(s.lib, col, h), at, Unexcluded(s.lib, col, init), h);
      InitAndLast(hits);
      if !Excluded(s.lib, col, h) {
        at := at + [|init|];
      } else {
        EmptyRight(Unexcluded(s.lib, col, init));
      }
    }
    forall k | 0 <= k < |hits|
      ensures k in at <==> !Matched(s, col, hits[k])
    {
      ExcludedIff(s, col, hits[k]);
    }
  }

  // filterMinScore keeps, in order, exactly the hits that reach a positive minimum.
  lemma {:induction false} MinScoreKeeps(hits: seq<Hit>, minScore: real) returns (at: seq<nat>)
    ensures Picks(hits, (h: Hit) => minScore > 0.0 ==> h.score >= minScore, at, Scored(hits, minScore))
  {
    at := [];
    if hits != [] {
      var init, h := hits[..|hits| - 1], hits[|hits| - 1];
      at := MinScoreKeeps(init, minScore);
      PicksNext(init, (h: Hit) => minScore > 0.0 ==> h.score >= minScore, at, Scored(init, minScore), h);
      InitAndLast(hits);
      if ScoreOk(h, minScore) {
        at := at + [|init|];
      } else {
        EmptyRight(Scored(init, minScore));
      }
    }
  }

  lemma {:induction false} UnexcludedHolds(s: Settings, col: Collection, hits: seq<Hit>, h: Hit)
    ensures h in Unexcluded(s.lib, col, hits) <==> h in hits && !Matched(s, col, h)
  {
    ExcludedIff(s, col, h);
    if hits != [] {
      InitAndLast(hits);
      UnexcludedHolds(s, col, hits[..|hits| - 1], h);
    }
  }

  lemma {:induction false} ScoredHolds(hits: seq<Hit>, minScore: real, h: Hit)
    ensures h in Scored(hits, minScore) <==> h in hits && (minScore > 0.0 ==> h.score >= minScore)
  {
    if hits != [] {
      InitAndLast(hits);
      ScoredHolds(hits[..|hits| - 1], minScore, h);
    }
  }

  // e replied with h, and neither the patterns of its collection nor the score of h
  // speak against it.
  ghost predicate Left(s: Settings, p: Params, e: Event, h: Hit) {
    && e.Attempt? && e.reply.Hits? && h in e.reply.hits
    && !Matched(s, e.col, h) && (p.minScore > 0.0 ==> h.score >= p.minScore)
  }

  lemma {:induction false} GatheredHolds(s: Settings, evs: seq<Event>, h: Hit)
    ensures h in Gathered(s, evs)
       <==> exists e :: e in evs && e.Attempt? && e.reply.Hits? && h in e.reply.hits && !Matched(s, e.col, h)
  {
    if evs != [] {
      var init, e := evs[..|evs| - 1], evs[|evs| - 1];
      InitAndLast(evs);
      GatheredHolds(s, init, h);
      if e.Attempt? && e.reply.Hits? {
        UnexcludedHolds(s, e.col, e.reply.hits, h);
      }
    }
  }

  // What survives a search is exactly what is left of its replies.
  lemma SurvivesIff(s: Settings, p: Params, evs: seq<Event>, h: Hit)
    ensures h in Surviving(s, p, evs) <==> exists e :: e in evs && Left(s, p, e, h)
  {
    GatheredHolds(s, evs, h);
    ScoredHolds(Gathered(s, evs), p.minScore, h);
    if e :| e in evs && e.Attempt? && e.reply.Hits? && h in e.reply.hits && !Matched(s, e.col, h) {
      assert h in Surviving(s, p, evs) ==> Left(s, p, e, h);
    }
    if e :| e in evs && Left(s, p, e, h) {
      assert e in evs && e.Attempt?;
    }
  }

  lemma NothingSurvivesIff(s: Settings, p: Params, evs: seq<Event>)
    ensures Surviving(s, p, evs) == [] <==> forall e, h | e in evs :: !Left(s, p, e, h)
  {
    if Surviving(s, p, evs) == [] {
      forall e, h | e in evs
        ensures !Left(s, p, e, h)
      {
        SurvivesIff(s, p, evs, h);
      }
    } else {
      var h := Surviving(s, p, evs)[0];
      SurvivesIff(s, p, evs, h);
    }
  }

  // A search that finds nothing has reached no hit worth finding: an answer is empty
  // exactly if nothing is left of any reply to it, plain or deep.
  lemma NothingIsLost(s: Settings, p: Params, ph: Phases, out: Outcome)
    requires MissSpec(s, p, ph, out) && out.Found?
    ensures out.result.results == [] <==> forall e, h | e in ph.first + ph.second + ph.deep :: !Left(s, p, e, h)
  {
    SearchAnswersRight(s, p, ph, out);
    var deep := Surviving(s, p, ph.deep) != [];
    var used := if deep then ph.deep else ph.first + ph.second;
    FinalizedShape(s, p, Surviving(s, p, used), out.result.results);
    NothingSurvivesIff(s, p, ph.deep);
    NothingSurvivesIff(s, p, ph.first + ph.second);
    assert forall e | e in ph.first + ph.second + ph.deep :: e in ph.first + ph.second || e in ph.deep;
    assert forall e | e in ph.deep :: e in ph.first + ph.second + ph.deep;
  }

  // How many replies came from a collection of that name.
  ghost function Replies(evs: seq<Event>, name: string): nat {
    if evs == [] then 0 else
    var e := evs[|evs| - 1];
    Replies(evs[..|evs| - 1], name) + if e.Attempt? && e.reply.Hits? && e.col.name == name then 1 else 0
  }

  // A search reports the collections that replied, as often as they did.
  lemma {:induction false} SearchedReplied(evs: seq<Event>, name: string)
    ensures multiset(Searched(evs))[name] == Replies(evs, name)
  {
    if evs != [] {
      SearchedReplied(evs[..|evs| - 1], name);
    }
  }

  // ---------- The collections ----------

  // How often a collection was attempted.
  ghost function Times(evs: seq<Event>, c: Collection): nat {
    if evs == [] then 0 else
    var e := evs[|evs| - 1];
    Times(evs[..|evs| - 1], c) + if e.Attempt? && e.col == c then 1 else 0
  }

  lemma {:induction false} TimesAttempted(evs: seq<Event>, c: Collection)
    ensures multiset(Attempted(evs))[c] == Times(evs, c)
  {
    if evs != [] {
      TimesAttempted(evs[..|evs| - 1], c);
    }
  }

  lemma {:induction false} TierHolds(cols: seq<Collection>, tier: int, c: Collection)
    ensures multiset(Tier(cols, tier))[c] == if c.tier == tier && !c.requireExplicit then multiset(cols)[c] else 0
  {
    if cols != [] {
      TierHolds(cols[..|cols| - 1], tier, c);
      InitAndLast(cols);
    }
  }

  // Each configured collection of the tier that need not be named was attempted as
  // often as it is configured, and nothing else was.
  ghost predicate CoversTier(s: Settings, tier: int, evs: seq<Event>) {
    && (forall e | e in evs :: e.Attempt?)
    && forall c :: Times(evs, c) == if c.tier == tier && !c.requireExplicit then multiset(s.collections)[c] else 0
  }

  lemma TierIsCovered(s: Settings, p: Params, mode: string, tier: int, evs: seq<Event>)
    requires TierSpec(s, p, mode, Tier(s.collections, tier), evs)
    ensures CoversTier(s, tier, evs)
  {
    forall c
      ensures Times(evs, c) == if c.tier == tier && !c.requireExplicit then multiset(s.collections)[c] else 0
    {
      TimesAttempted(evs, c);
      TierHolds(s.collections, tier, c);
    }
  }

  // Only the first collection of that name was attempted, once.
  ghost predicate CoversNamed(s: Settings, name: string, evs: seq<Event>) {
    |evs| == 1 && evs[0].Attempt? && Names(s, name, evs[0].col)
  }

  lemma NamedIsCovered(s: Settings, p: Params, mode: string, evs: seq<Event>)
    requires FindCollection(s.collections, p.collection).Some?
    requires TierSpec(s, p, mode, [FindCollection(s.collections, p.collection).value], evs)
    ensures CoversNamed(s, p.collection, evs)
  {
    FindsFirst(s, p.collection);
    TierMember(s, p, mode, [FindCollection(s.collections, p.collection).value], evs, evs[0]);
  }

  // A named search reaches its collection, before any deep query and in it. An unnamed
  // one reaches the first tier; the second exactly if nothing is left of the first and
  // both the request and the configuration allow it; and the first again in deep query.
  ghost predicate RightReach(s: Settings, p: Params, ph: Phases, out: Outcome) {
    if p.collection != ""
    then
      && (out.Found? || out.SearchFailed? ==> CoversNamed(s, p.collection, ph.first))
      && ph.second == [] && (WentAhead(ph) ==> CoversNamed(s, p.collection, ph.deep))
    else
      && CoversTier(s, 1, ph.first)
      && (if Surviving(s, p, ph.first) == [] && p.fallback && s.fallbackEnabled then CoversTier(s, 2, ph.second)
          else ph.second == [])
      && (WentAhead(ph) ==> CoversTier(s, 1, ph.deep))
  }

  lemma PrimaryReaches(s: Settings, p: Params, mode: string, first: seq<Event>, second: seq<Event>)
    requires PrimarySpec(s, p, mode, first, second)
    ensures CoversTier(s, 1, first)
    ensures if Surviving(s, p, first) == [] && p.fallback && s.fallbackEnabled then CoversTier(s, 2, second)
            else second == []
  {
    TierIsCovered(s, p, mode, 1, first);
    if Surviving(s, p, first) == [] && p.fallback && s.fallbackEnabled {
      TierIsCovered(s, p, mode, 2, second);
    }
  }

  lemma SingleDeepReaches(s: Settings, p: Params, ph: Phases, out: Outcome)
    requires SingleDeepSpec(s, p, ph.ask, ph.first, ph.deep, ph.mark, out) && ph.second == ph.relook == []
    requires p.collection != ""
    ensures RightReach(s, p, ph, out)
  {
    if ph.ask != [] {
      NamedIsCovered(s, p, MODE_SEARCH, ph.first);
      if ph.ask[0].answer == Go {
        NamedIsCovered(s, p, MODE_QUERY, ph.deep);
      }
    }
  }

  lemma SingleReaches(s: Settings, p: Params, ph: Phases, mode: string, out: Outcome)
    requires SingleSpec(s, p, mode, ph.first, out) && p.collection != ""
    requires ph.ask == ph.second == ph.relook == ph.deep == ph.mark == []
    ensures RightReach(s, p, ph, out)
  {
    if out.Found? || out.SearchFailed? {
      NamedIsCovered(s, p, mode, ph.first);
    }
  }

  lemma DeepReaches(s: Settings, p: Params, ph: Phases, out: Outcome)
    requires DeepSpec(s, p, ph.ask, ph.first, ph.second, ph.deep, ph.mark, out) && ph.relook == [] && p.collection == ""
    ensures RightReach(s, p, ph, out)
  {
    PrimaryReaches(s, p, MODE_SEARCH, ph.first, ph.second);
    if ph.ask[0].answer == Go {
      TierIsCovered(s, p, MODE_QUERY, 1, ph.deep);
    }
  }

  lemma FallbackReaches(s: Settings, p: Params, ph: Phases, mode: string, out: Outcome)
    requires FallbackSpec(s, p, mode, ph.first, ph.second, ph.relook, ph.deep, ph.mark, out)
    requires ph.ask == [] && p.collection == ""
    ensures RightReach(s, p, ph, out)
  {
    PrimaryReaches(s, p, mode, ph.first, ph.second);
    if Escalates(s, p, mode, Surviving(s, p, ph.first + ph.second)) {
      var used, reason :| EscalationSpec(s, p, ph.relook, ph.deep, ph.mark, used, reason);
      if WentAhead(ph) {
        TierIsCovered(s, p, MODE_QUERY, 1, ph.deep);
      }
    }
  }

  // Every search reaches whom it should.
  lemma SearchReachesRight(s: Settings, p: Params, ph: Phases, out: Outcome)
    requires MissSpec(s, p, ph, out)
    ensures RightReach(s, p, ph, out)
  {
    var mode := Resolve(s, p.mode, p.query, ph.look[0].overloaded);
    if p.collection != "" && mode == MODE_QUERY {
      SingleDeepReaches(s, p, ph, out);
    } else if p.collection != "" {
      SingleReaches(s, p, ph, mode, out);
    } else if mode == MODE_QUERY {
      DeepReaches(s, p, ph, out);
    } else {
      FallbackReaches(s, p, ph, mode, out);
    }
  }

  // ---------- Failures ----------

  ghost predicate Fails(e: Event) {
    e.Attempt? && (e.reply.Failed? || e.reply.Refused?)
  }

  // Deep query on the tiers fails without a first tier, or if some attempt fails and
  // the patterns leave nothing of the other replies.
  ghost predicate DeepFails(s: Settings, p: Params, deep: seq<Event>) {
    if p.collection != "" then exists e :: e in deep && Fails(e)
    else
      || (forall c | c in s.collections :: c.tier != 1 || c.requireExplicit)
      || ((exists e :: e in deep && Fails(e))
          && forall e, h | e in deep && e.Attempt? && e.reply.Hits? && h in e.reply.hits :: Matched(s, e.col, h))
  }

  // A search fails exactly if it is for a named collection, does not want deep query,
  // and its only attempt fails. A failure of deep query is recorded, exactly then, and
  // for its own scope.
  ghost predicate RightFailures(s: Settings, p: Params, ph: Phases, out: Outcome) {
    && |ph.look| == 1 && ph.look[0].Looked?
    && (out == SearchFailed <==>
          p.collection != "" && !WantsDeep(s, p, ph.look[0].overloaded) && exists e :: e in ph.first && Fails(e))
    && (ph.mark != [] <==> WentAhead(ph) && DeepFails(s, p, ph.deep))
    && (ph.mark != [] ==> |ph.mark| == 1 && ph.mark[0].Marked?
                          && ph.mark[0].query == s.lib.normalize(p.query)
                          && ph.mark[0].scope == if p.collection == "" then "all" else p.collection)
  }

  lemma FailsIff(evs: seq<Event>)
    ensures AnyFailed(evs) <==> exists e :: e in evs && Fails(e)
  {
    if e :| e in evs && e.Attempt? && !e.reply.Hits? {
      assert Fails(e);
    }
  }

  lemma NoTierIff(s: Settings)
    ensures Tier(s.collections, 1) == [] <==> forall c | c in s.collections :: c.tier != 1 || c.requireExplicit
  {
    if Tier(s.collections, 1) == [] {
      forall c | c in s.collections
        ensures c.tier != 1 || c.requireExplicit
      {
        TierHolds(s.collections, 1, c);
        assert c in multiset(s.collections);
      }
    } else {
      var c := Tier(s.collections, 1)[0];
      assert c in multiset(Tier(s.collections, 1));
      TierHolds(s.collections, 1, c);
      assert c in s.collections;
    }
  }

  lemma DeepFailsIff(s: Settings, p: Params, deep: seq<Event>)
    requires p.collection == ""
    ensures DeepTierFailed(s, deep) <==> DeepFails(s, p, deep)
  {
    NoTierIff(s);
    FailsIff(deep);
    if Gathered(s, deep) == [] {
      forall e, h | e in deep && e.Attempt? && e.reply.Hits? && h in e.reply.hits
        ensures Matched(s, e.col, h)
      {
        GatheredHolds(s, deep, h);
      }
    } else {
      GatheredHolds(s, deep, Gathered(s, deep)[0]);
    }
  }

  lemma SingleDeepFailures(s: Settings, p: Params, ph: Phases, out: Outcome)
    requires SingleDeepSpec(s, p, ph.ask, ph.first, ph.deep, ph.mark, out) && ph.relook == []
    requires |ph.look| == 1 && ph.look[0].Looked? && p.collection != "" && WantsDeep(s, p, ph.look[0].overloaded)
    ensures RightFailures(s, p, ph, out)
  {
    FailsIff(ph.deep);
  }

  lemma SingleFailures(s: Settings, p: Params, ph: Phases, mode: string, out: Outcome)
    requires SingleSpec(s, p, mode, ph.first, out) && ph.ask == ph.second == ph.relook == ph.deep == ph.mark == []
    requires |ph.look| == 1 && ph.look[0].Looked? && p.collection != "" && !WantsDeep(s, p, ph.look[0].overloaded)
    ensures RightFailures(s, p, ph, out)
  {
    FailsIff(ph.first);
  }

  lemma DeepFailures(s: Settings, p: Params, ph: Phases, out: Outcome)
    requires DeepSpec(s, p, ph.ask, ph.first, ph.second, ph.deep, ph.mark, out) && ph.relook == []
    requires |ph.look| == 1 && ph.look[0].Looked? && p.collection == ""
    ensures RightFailures(s, p, ph, out)
  {
    DeepFailsIff(s, p, ph.deep);
  }

  lemma FallbackFailures(s: Settings, p: Params, ph: Phases, mode: string, out: Outcome)
    requires FallbackSpec(s, p, mode, ph.first, ph.second, ph.relook, ph.deep, ph.mark, out) && ph.ask == []
    requires |ph.look| == 1 && ph.look[0].Looked? && p.collection == ""
    ensures RightFailures(s, p, ph, out)
  {
    DeepFailsIff(s, p, ph.deep);
    if Escalates(s, p, mode, Surviving(s, p, ph.first + ph.second)) {
      var used, reason :| EscalationSpec(s, p, ph.relook, ph.deep, ph.mark, used, reason);
    }
  }

  // Every search fails, and records failures, when it should.
  lemma SearchFailsRight(s: Settings, p: Params, ph: Phases, out: Outcome)
    requires MissSpec(s, p, ph, out)
    ensures RightFailures(s, p, ph, out)
  {
    var mode := Resolve(s, p.mode, p.query, ph.look[0].overloaded);
    ResolvesTo(s, p, ph.look[0].overloaded);
    if p.collection != "" && mode == MODE_QUERY {
      SingleDeepFailures(s, p, ph, out);
    } else if p.collection != "" {
      SingleFailures(s, p, ph, mode, out);
    } else if mode == MODE_QUERY {
      DeepFailures(s, p, ph, out);
    } else {
      FallbackFailures(s, p, ph, mode, out);
    }
  }

  // ---------- The defaults ----------

  // A request without a count or a minimum gets the configured ones: its calls carry
  // that minimum, and its answer holds that many hits at most.
  lemma DefaultsApply(s: Settings, p: Params, ph: Phases, out: Outcome, i: nat)
    requires MissSpec(s, Normalized(s, p), ph, out)
    ensures i < |ph.All()| && ph.All()[i].Attempt? ==>
              && ph.All()[i].call.query == p.query
              && ph.All()[i].call.minScore == if p.minScore > 0.0 then p.minScore else s.minScore
    ensures var n := if p.n > 0 then p.n else s.topK;
            out.Found? && n > 0 ==> |out.result.results| <= n
    ensures var least := if p.minScore > 0.0 then p.minScore else s.minScore;
            out.Found? && least > 0.0 ==> forall h | h in out.result.results :: h.score >= least
  {
    var q := Normalized(s, p);
    ExecutorCallSafety(s, q, ph, out);
    if i < |ph.All()| {
      assert CallSafe(s, q, ph.All(), i);
    }
    if out.Found? {
      PipelineGuarantee(s, q, ph, out);
      forall h | h in out.result.results
        ensures q.minScore > 0.0 ==> h.score >= q.minScore
      {
        assert Traced(s, q, ph.All(), out.result, h);
      }
    }
  }
}
