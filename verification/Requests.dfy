// Runs of requests: what the orchestrator of a server has searched, stored and
// asked its negative cache since it was new.

module Requests {
  import opened Model
  import opened Text
  import opened NegativeCache
  import opened SearchSpec
  import opened Orchestrator
  import opened Answers
  import opened Core
  import opened NegativeTrace
  import CoreTheory
  import LruCache
  import NH = NegativeHistory
  import NR = NegativeRate
  import SearchTheory
  import World

  // ---------- The searches of a run ----------

  // x was a search for some request.
  ghost predicate Requested(s: Settings, x: Exchange) {
    exists p :: FromCore(s, p) && x.p == Normalized(s, p)
  }

  // xs are all searches since the orchestrator was new, each for some request.
  ghost predicate Record(s: Settings, xs: seq<Exchange>, stored: map<string, SearchResult>) {
    History(s, xs) && stored == Stored(s, xs) && forall x | x in xs :: Requested(s, x)
  }

  ghost function ExchangesOf(parts: seq<Part>): seq<Exchange> {
    if parts == [] then [] else ExchangesOf(parts[..|parts| - 1]) + [parts[|parts| - 1].x]
  }

  // A request extends the record of its orchestrator by its searches.
  lemma {:induction false} RecordGrows(s: Settings, req: Request, requested: string, overloaded: bool,
                                       collections: seq<string>, xs: seq<Exchange>, stored: map<string, SearchResult>,
                                       parts: seq<Part>)
    requires Record(s, xs, stored)
    requires var plan := PlanFor(requested, overloaded, Rejected(s, req, requested, TrimSpace(req.query)));
             PartsSpec(s, req, plan, collections, stored, parts)
    ensures Record(s, xs + ExchangesOf(parts), StoredAfter(s, stored, parts))
    decreases |parts|
  {
    if parts == [] {
      EmptyRight(xs);
    } else {
      var n, plan := |parts| - 1, PlanFor(requested, overloaded, Rejected(s, req, requested, TrimSpace(req.query)));
      RecordGrows(s, req, requested, overloaded, collections[..n], xs, stored, parts[..n]);
      assert FromCore(s, CoreParams(s, req, plan, collections[n]));
      OneMoreSearch(s, xs + ExchangesOf(parts[..n]), parts[n], CoreParams(s, req, plan, collections[n]));
      Associative(xs, ExchangesOf(parts[..n]), [parts[n].x]);
    }
  }

  lemma OneMoreSearch(s: Settings, xs: seq<Exchange>, part: Part, p: Params)
    requires Record(s, xs, part.before) && PartSpec(s, p, part) && FromCore(s, p)
    ensures Record(s, xs + [part.x], StoredBy(s, part))
  {
    HistoryGrows(s, xs, part.x, StoredBy(s, part));
    assert Requested(s, part.x);
  }

  // Whatever is stored was searched under by a request that had passed the deep
  // gate if it needed to.
  lemma StoredIsPermitted(s: Settings, xs: seq<Exchange>, stored: map<string, SearchResult>, key: string)
    returns (p: Params)
    requires Record(s, xs, stored) && key in stored
    ensures Permitted(s, p) && KeyOf(s, p) == key
  {
    assert xs[..|xs|] == xs;
    var j := StoredWasFresh(s, xs, |xs|, key);
    assert xs[j] in xs;
    var q :| FromCore(s, q) && xs[j].p == Normalized(s, q);
    CoreSwitch(s, q);
    p := xs[j].p;
  }

  lemma HitIsStored(s: Settings, cfg: LruCache.Config, c: LruCache.Lru, stored: map<string, SearchResult>,
                    now: int, key: string)
    requires LruCache.Distinct(c.order) && Backed(s, c.order, stored) && WouldHit(cfg, c, now, key)
    ensures key in stored
  {
    LruCache.FindKey(c.order, key);
    BackedMember(s, c.order, stored, LruCache.Node(key, LruCache.Find(c.order, key).value));
  }

  // No permitted search shares a key with what a rejected request would check.
  lemma RejectedKeyIsOther(s: Settings, p: Params, req: Request, requested: string, collection: string)
    requires Permitted(s, p) && Rejected(s, req, requested, TrimSpace(req.query))
    ensures KeyOf(s, p) != CoreKey(s, req, PlanFor(requested, false, false), collection)
  {
    var q := CachedParams(s, CoreParams(s, req, PlanFor(requested, false, false), collection));
    if KeyOf(s, p) == KeyOf(s, q) {
      SameKeyAlike(s, p, q);
    }
  }

  // A deep request that the gate rejects is never cached under the key that the
  // shedding check looks up, so under critical load it is shed.
  lemma RejectedIsNeverCached(s: Settings, cfg: LruCache.Config, c: LruCache.Lru, xs: seq<Exchange>,
                              stored: map<string, SearchResult>, req: Request, requested: string,
                              collections: seq<string>, now: int)
    requires LruCache.Distinct(c.order) && Backed(s, c.order, stored) && Record(s, xs, stored)
    requires Rejected(s, req, requested, TrimSpace(req.query)) && collections != []
    ensures !AllCached(s, cfg, c, req, PlanFor(requested, false, false), collections, now)
  {
    var key := CoreKey(s, req, PlanFor(requested, false, false), collections[0]);
    if WouldHit(cfg, c, now, key) {
      HitIsStored(s, cfg, c, stored, now, key);
      var p := StoredIsPermitted(s, xs, stored, key);
      RejectedKeyIsOther(s, p, req, requested, collections[0]);
    }
  }

  // The cache never serves a downgraded request the deep answer of another.
  lemma DowngradedAnswersStayPlain(s: Settings, xs: seq<Exchange>, stored: map<string, SearchResult>, i: nat)
    requires Record(s, xs, stored) && i < |xs| && xs[i].out.Found? && xs[i].p.mode == MODE_SEARCH
    ensures xs[i].out.result.mode == MODE_SEARCH
  {
    forall x | x in xs
      ensures PlainMode(x.p.mode) && (x.p.disableDeepEscalation <==> x.p.mode == MODE_SEARCH)
    {
      var p :| FromCore(s, p) && x.p == Normalized(s, p);
      CoreSwitch(s, p);
    }
    PlainAnswersStayPlain(s, xs, i);
  }

  lemma {:induction false} ExchangesAt(parts: seq<Part>, i: nat)
    requires i < |parts|
    ensures |ExchangesOf(parts)| == |parts| && ExchangesOf(parts)[i] == parts[i].x
  {
    var n := |parts| - 1;
    if n > 0 {
      ExchangesAt(parts[..n], if i < n then i else 0);
    }
  }

  lemma PlannedMode(xs: seq<Exchange>, parts: seq<Part>, i: nat, mode: string)
    requires i < |parts| && CoreTheory.InMode(parts, mode)
    ensures var all := xs + ExchangesOf(parts);
            |xs| + i < |all| && all[|xs| + i] == parts[i].x && parts[i].x.p.mode == mode
  {
    ExchangesAt(parts, i);
    assert parts[i] in parts;
  }

  // While overloaded, no collection is served in query mode, cached or not.
  lemma {:induction false} OverloadedPartIsPlain(s: Settings, req: Request, requested: string, collections: seq<string>,
                                                 xs: seq<Exchange>, stored: map<string, SearchResult>,
                                                 parts: seq<Part>, i: nat)
    requires Record(s, xs, stored) && i < |parts| && parts[i].x.out.Found?
    requires var plan := PlanFor(requested, true, Rejected(s, req, requested, TrimSpace(req.query)));
             PartsSpec(s, req, plan, collections, stored, parts)
    ensures parts[i].x.out.result.mode == MODE_SEARCH
  {
    var plan := PlanFor(requested, true, Rejected(s, req, requested, TrimSpace(req.query)));
    RecordGrows(s, req, requested, true, collections, xs, stored, parts);
    CoreTheory.PartModes(s, req, plan, collections, stored, parts);
    PlannedMode(xs, parts, i, plan.mode);
    DowngradedAnswersStayPlain(s, xs + ExchangesOf(parts), StoredAfter(s, stored, parts), |xs| + i);
  }

  // ---------- What answers are made of ----------

  // list survived the filters of attempts that were made for a request like p.
  ghost predicate Survived(s: Settings, xs: seq<Exchange>, p: Params, list: seq<Hit>) {
    exists x, evs :: x in xs && Alike(x.p, p) && (forall e | e in evs :: e in x.Events())
      && list == Surviving(s, x.p, evs)
  }

  // Requests that the cache does not tell apart finalize alike.
  lemma FinalizedAlike(s: Settings, p: Params, q: Params, hits: seq<Hit>, out: seq<Hit>)
    requires Finalized(s, p, hits, out) && Alike(p, q)
    ensures Finalized(s, q, hits, out)
  {
  }

  lemma AnswerIsMade(s: Settings, xs: seq<Exchange>, i: nat) returns (list: seq<Hit>)
    requires History(s, xs) && i < |xs| && xs[i].out.Found?
    requires forall x | x in xs :: PlainMode(x.p.mode)
    ensures Survived(s, xs, xs[i].p, list) && Finalized(s, xs[i].p, list, xs[i].out.result.results)
  {
    var j := AnswerWasFresh(s, xs, i);
    var x := xs[j];
    SameKeyAlike(s, x.p, xs[i].p);
    var evs := SearchTheory.MadeOfAttempts(s, x.p, x.ph.value, x.out);
    list := Surviving(s, x.p, evs);
    FinalizedAlike(s, x.p, xs[i].p, list, x.out.result.results);
    assert x in xs;
  }

  lemma RecordIsPlain(s: Settings, xs: seq<Exchange>, stored: map<string, SearchResult>)
    requires Record(s, xs, stored)
    ensures forall x | x in xs :: PlainMode(x.p.mode)
  {
    forall x | x in xs
      ensures PlainMode(x.p.mode)
    {
      var p :| FromCore(s, p) && x.p == Normalized(s, p);
      CoreSwitch(s, p);
    }
  }

  lemma PartIsMade(s: Settings, xs: seq<Exchange>, part: Part, p: Params) returns (list: seq<Hit>)
    requires Record(s, xs, part.before) && PartSpec(s, p, part) && FromCore(s, p) && part.x.out.Found?
    ensures CoreTheory.MadeAt(s, p, part, list) && Survived(s, xs + [part.x], part.x.p, list)
  {
    var more := xs + [part.x];
    OneMoreSearch(s, xs, part, p);
    RecordIsPlain(s, more, StoredBy(s, part));
    list := AnswerIsMade(s, more, |xs|);
  }

  lemma SurvivedLater(s: Settings, xs: seq<Exchange>, more: seq<Exchange>, p: Params, list: seq<Hit>)
    requires Survived(s, xs, p, list) && forall x | x in xs :: x in more
    ensures Survived(s, more, p, list)
  {
    var x, evs :| x in xs && Alike(x.p, p) && (forall e | e in evs :: e in x.Events())
      && list == Surviving(s, x.p, evs);
    assert x in more;
  }

  // list i survived the filters of the search whose answer part i repeats.
  ghost predicate AllSurvived(s: Settings, xs: seq<Exchange>, parts: seq<Part>, lists: seq<seq<Hit>>) {
    |lists| == |parts| && forall i | 0 <= i < |parts| :: Survived(s, xs, parts[i].x.p, lists[i])
  }

  lemma OneMoreSurvived(s: Settings, xs: seq<Exchange>, more: seq<Exchange>, parts: seq<Part>, lists: seq<seq<Hit>>,
                        list: seq<Hit>, n: nat)
    requires |parts| == n + 1 && AllSurvived(s, xs, parts[..n], lists) && forall x | x in xs :: x in more
    requires Survived(s, more, parts[n].x.p, list)
    ensures AllSurvived(s, more, parts, lists + [list])
  {
    forall i | 0 <= i < n
      ensures Survived(s, more, parts[i].x.p, (lists + [list])[i])
    {
      assert parts[..n][i] == parts[i];
      SurvivedLater(s, xs, more, parts[i].x.p, lists[i]);
    }
  }

  // Every part of a request, fresh or cached, is made of what survived the filters
  // of some search of the run for a request like it.
  lemma {:induction false} PartsAreMade(s: Settings, req: Request, requested: string, overloaded: bool,
                                        collections: seq<string>, xs: seq<Exchange>, stored: map<string, SearchResult>,
                                        parts: seq<Part>) returns (lists: seq<seq<Hit>>)
    requires Record(s, xs, stored) && forall part | part in parts :: part.x.out.Found?
    requires var plan := PlanFor(requested, overloaded, Rejected(s, req, requested, TrimSpace(req.query)));
             PartsSpec(s, req, plan, collections, stored, parts)
    ensures var plan := PlanFor(requested, overloaded, Rejected(s, req, requested, TrimSpace(req.query)));
            CoreTheory.MadeOf(s, req, plan, collections, parts, lists)
    ensures AllSurvived(s, xs + ExchangesOf(parts), parts, lists)
    decreases |parts|
  {
    lists := [];
    if parts != [] {
      var n, plan := |parts| - 1, PlanFor(requested, overloaded, Rejected(s, req, requested, TrimSpace(req.query)));
      var before := xs + ExchangesOf(parts[..n]);
      lists := PartsAreMade(s, req, requested, overloaded, collections[..n], xs, stored, parts[..n]);
      RecordGrows(s, req, requested, overloaded, collections[..n], xs, stored, parts[..n]);
      assert FromCore(s, CoreParams(s, req, plan, collections[n]));
      var list := PartIsMade(s, before, parts[n], CoreParams(s, req, plan, collections[n]));
      Associative(xs, ExchangesOf(parts[..n]), [parts[n].x]);
      OneMoreSurvived(s, before, before + [parts[n].x], parts, lists, list, n);
      CoreTheory.OneMoreMade(s, req, plan, collections, parts, lists, list, n);
      lists := lists + [list];
    }
  }

  // ---------- The negative cache of a run ----------

  // The cache is as its history made it, attempts on a scope did not overlap, and
  // failures were recorded for known scopes.
  ghost predicate Tracked(s: Settings, cfg: Config, log: seq<Event>, neg: State) {
    neg == NH.Run(cfg, Seen(log)) && NR.Sequential(cfg, Seen(log)) && MarksKnown(s, log)
  }

  lemma NothingTracked(s: Settings, cfg: Config)
    ensures Tracked(s, cfg, [], State(map[], map[]))
  {
    assert NR.Assigned(cfg, [], []) && NR.Bounded([], [], 1);
  }

  ghost predicate MarksKnown(s: Settings, log: seq<Event>) {
    forall e | e in log && e.Marked? :: SearchTheory.Known(s, e.scope)
  }

  lemma KnownConcat(s: Settings, a: seq<Event>, b: seq<Event>)
    requires MarksKnown(s, a) && MarksKnown(s, b)
    ensures MarksKnown(s, a + b)
  {
  }

  lemma SearchMarksKnown(s: Settings, p: Params, ph: Phases, out: Outcome)
    requires MissSpec(s, p, ph, out)
    ensures MarksKnown(s, ph.All())
  {
    SearchTheory.ExecutorCallSafety(s, p, ph, out);
    forall e | e in ph.All() && e.Marked?
      ensures SearchTheory.Known(s, e.scope)
    {
      var i :| 0 <= i < |ph.All()| && ph.All()[i] == e;
      assert SearchTheory.CallSafe(s, p, ph.All(), i);
    }
  }

  lemma TrackedSearch(s: Settings, cfg: Config, log: seq<Event>, neg: State, part: Part, p: Params, after: State)
    requires Tracked(s, cfg, log, neg) && PartSpec(s, p, part) && Led(cfg, neg, part.x.Events(), after)
    ensures Tracked(s, cfg, log + part.x.Events(), after)
  {
    if part.x.ph.None? {
      EmptyRight(log);
    } else {
      SearchKeepsSequential(cfg, Seen(log), s, part.x.p, part.x.ph.value, part.x.out, after);
      LedIsRun(cfg, Seen(log), part.x.Events());
      SeenConcat(log, part.x.Events());
      SearchMarksKnown(s, part.x.p, part.x.ph.value, part.x.out);
      KnownConcat(s, log, part.x.Events());
    }
  }

  // A request keeps the negative cache tracked: its searches come one by one.
  lemma {:induction false} TrackedGrows(s: Settings, cfg: Config, req: Request, plan: Plan, collections: seq<string>,
                                        stored: map<string, SearchResult>, log: seq<Event>, neg: State,
                                        parts: seq<Part>, after: State)
    requires Tracked(s, cfg, log, neg) && PartsSpec(s, req, plan, collections, stored, parts)
    requires Led(cfg, neg, Trace(parts), after)
    ensures Tracked(s, cfg, log + Trace(parts), after)
    decreases |parts|
  {
    if parts == [] {
      EmptyRight(log);
    } else {
      var n := |parts| - 1;
      var before, evs := Trace(parts[..n]), parts[n].x.Events();
      LedSplit(cfg, neg, before, evs, after);
      var b := NegativeTrace.After(cfg, neg, before);
      TrackedGrows(s, cfg, req, plan, collections[..n], stored, log, neg, parts[..n], b);
      TrackedSearch(s, cfg, log + before, b, parts[n], CoreParams(s, req, plan, collections[n]), after);
      Associative(log, before, evs);
    }
  }

  lemma TrackedLook(s: Settings, cfg: Config, log: seq<Event>, neg: State, on: bool)
    requires Tracked(s, cfg, log, neg)
    ensures Tracked(s, cfg, log + [Looked(on)], neg)
  {
    KnownConcat(s, log, [Looked(on)]);
    SilentUnseen([Looked(on)]);
    SeenConcat(log, [Looked(on)]);
    EmptyRight(Seen(log));
  }

  lemma SweepSeen(log: seq<Event>, now: int)
    ensures Seen(log + [Swept(now)]) == Seen(log) + [NH.Cleanup(now)]
  {
    assert (log + [Swept(now)])[..|log|] == log;
  }

  lemma {:induction false} TrackedSweep(s: Settings, cfg: Config, log: seq<Event>, neg: State, now: int)
    requires Tracked(s, cfg, log, neg)
    ensures Tracked(s, cfg, log + [Swept(now)], CleanupStep(neg, now))
  {
    KnownConcat(s, log, [Swept(now)]);
    SweepSeen(log, now);
    NR.OneMoreEvent(cfg, Seen(log), NH.Cleanup(now), 1);
    RunAppend(cfg, Seen(log), NH.Cleanup(now));
  }

  // ---------- The rate limit of a run ----------

  // No collection has a name that the negative cache mixes up with its own.
  ghost predicate PlainNames(s: Settings) {
    forall col | col in s.collections :: NH.PlainScope(col.name)
  }

  lemma {:induction false} SeenMarks(log: seq<Event>, e: NH.Event)
    requires e in Seen(log) && e.Mark?
    ensures exists x :: x in log && x.Marked? && x.scope == e.scope
  {
    var n := |log| - 1;
    if e in Seen(log[..n]) {
      SeenMarks(log[..n], e);
    } else {
      assert log[n] in log;
    }
  }

  lemma KnownIsPlain(s: Settings, log: seq<Event>)
    requires PlainNames(s) && MarksKnown(s, log)
    ensures NH.PlainScopes(Seen(log))
  {
    forall e | e in Seen(log) && e.Mark?
      ensures NH.PlainScope(e.scope)
    {
      SeenMarks(log, e);
      assert |ALL_SCOPE| < |COOLDOWN_TAG|;
    }
  }

  lemma {:induction false} DatedIsTimed(log: seq<Event>, t: int)
    requires World.Dated(log, t)
    ensures NH.Timed(Seen(log), t)
  {
    if log != [] {
      var n := |log| - 1;
      var e := log[n];
      if World.TimeOf(e).Some? {
        DatedIsTimed(log[..n], World.TimeOf(e).value);
        TimedNext(Seen(log[..n]), SeenOf(e)[0], t);
      } else {
        DatedIsTimed(log[..n], t);
        EmptyRight(Seen(log[..n]));
      }
    }
  }

  lemma TimedNext(es: seq<NH.Event>, e: NH.Event, t: int)
    requires NH.Timed(es, e.now) && e.now <= t
    ensures NH.Timed(es + [e], t)
  {
  }

  lemma TimedToLast(es: seq<NH.Event>, t: int)
    requires NH.Timed(es, t) && es != []
    ensures NH.Timed(es, es[|es| - 1].now)
  {
  }

  // Rate limit of every run of requests that come one after the other, by a clock
  // that never goes back.
  lemma {:induction false} DeepFailuresOfRunsAreLimited(s: Settings, cfg: Config, w: World.World, neg: State,
                                                        scope: string, lo: int, hi: int)
    requires Tracked(s, cfg, w.log, neg) && w.Valid() && World.Monotone(w.clock)
    requires NH.Cooling(cfg) && PlainNames(s) && hi - lo <= cfg.cooldown && hi - lo <= 300_000_000_000
    ensures NR.FailuresBetween(Seen(w.log), scope, lo, hi) <= 3
  {
    var es := Seen(w.log);
    KnownIsPlain(s, w.log);
    DatedIsTimed(w.log, w.clock(w.step));
    if es != [] {
      TimedToLast(es, w.clock(w.step));
    }
    NR.DeepFailuresAreRateLimited(cfg, es, scope, 1, lo, hi);
  }
}
