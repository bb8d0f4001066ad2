// api: executeSearchCore as a method of the server, over runs of requests.

module Server {
  import opened Model
  import opened Text
  import opened SearchSpec
  import opened Orchestrator
  import opened NegativeCache
  import opened NegativeTrace
  import opened Core
  import opened Requests
  import opened Responses
  import CoreTheory
  import LruCache
  import Names
  import SearchTheory
  import World

  // A request is shed only under critical load; otherwise it is planned by the load
  // it saw, answered from its searches, and changes what they change.
  ghost predicate AdmittedSpec(s: Settings, cfg: Config, req: Request, overloaded: bool, critical: bool,
                               before: Snap, parts: seq<Part>, after: Snap, out: CoreOutcome) {
    && !out.QueryRequired?
    && Effect(s, cfg, before.(log := before.log + [Looked(overloaded)]), parts, after)
    && if out.Shed? then critical && parts == []
       else AnswerSpec(s, req, RequestedMode(req), FinalPlan(s, req, overloaded), Names.Requested(req.collections),
                       before.stored, parts, out)
  }

  // Under critical load, with nothing changing outside, a request is shed unless all
  // its collections are cached in c, and otherwise answered from the cache alone.
  ghost predicate ShedSpec(s: Settings, cfg: LruCache.Config, c: LruCache.Lru, now: int, req: Request,
                           overloaded: bool, parts: seq<Part>, out: CoreOutcome) {
    && (out.Shed? <==> !AllCached(s, cfg, c, req, FirstPlan(req, overloaded), Names.Requested(req.collections), now))
    && (out.Shed? || out.Served?)
    && Trace(parts) == []
  }

  // If all collections are cached by the first plan, they are by the final one: the
  // deep gate changes the mode only of requests that are never cached.
  lemma CheckedIsCached(s: Settings, cfg: LruCache.Config, was: LruCache.Lru, c: LruCache.Lru, xs: seq<Exchange>,
                        stored: map<string, SearchResult>, req: Request, overloaded: bool, collections: seq<string>,
                        now: int)
    requires LruCache.Distinct(was.order) && Backed(s, was.order, stored) && Record(s, xs, stored) && collections != []
    requires AllCached(s, cfg, was, req, FirstPlan(req, overloaded), collections, now)
    requires AllCached(s, cfg, c, req, FirstPlan(req, overloaded), collections, now)
    ensures AllCached(s, cfg, c, req, FinalPlan(s, req, overloaded), collections, now)
  {
    var query := TrimSpace(req.query);
    if !overloaded && Rejected(s, req, RequestedMode(req), query) {
      RejectedIsNeverCached(s, cfg, was, xs, stored, req, RequestedMode(req), collections, now);
    } else {
      GateKeepsModeIff(s, req, RequestedMode(req), query, overloaded);
      CachedUnderBoth(s, cfg, c, req, FirstPlan(req, overloaded), FinalPlan(s, req, overloaded), collections, now);
    }
  }

  // The load check and the shedding check of a request.
  method Check(o: Orchestrator, req: Request, ghost xs: seq<Exchange>) returns (overloaded: bool, shed: bool)
    requires o.Valid() && Record(o.s, xs, o.stored)
    modifies o.world, o.cache
    ensures o.Valid() && overloaded == o.world.overloaded(old(o.world.step))
    ensures shed ==> o.world.critical(old(o.world.step) + 1)
    ensures o.world.log == old(o.world.log) + [Looked(overloaded)]
    ensures old(World.SteadyCritical(o.world)) ==>
              var now, collections := o.world.clock(old(o.world.step)), Names.Requested(req.collections);
              && World.SteadyCritical(o.world) && o.world.clock(o.world.step) == now
              && shed == !AllCached(o.s, o.cache.cfg, old(o.cache.Abs()), req, FirstPlan(req, overloaded), collections,
                                    now)
              && (!shed ==> AllCached(o.s, o.cache.cfg, o.cache.Abs(), req, FinalPlan(o.s, req, overloaded),
                                      collections, now))
  {
    // As NormalizeCollections makes them.
    var collections := Names.Requested(req.collections);
    ghost var steady, now, was := World.SteadyCritical(o.world), o.world.clock(o.world.step), o.cache.Abs();
    overloaded := o.world.IsOverloaded();
    assert steady ==> World.SteadyCritical(o.world) && o.world.clock(o.world.step) == now;
    shed := Shedding(o, req, FirstPlan(req, overloaded), collections);
    if steady && !shed {
      CheckedIsCached(o.s, o.cache.cfg, was, o.cache.Abs(), xs, o.stored, req, overloaded, collections, now);
    }
  }

  // What becomes of a request with a query: shed, or searched and answered.
  method Admit(o: Orchestrator, req: Request, ghost xs: seq<Exchange>)
    returns (out: CoreOutcome, ghost parts: seq<Part>)
    requires o.Valid() && Record(o.s, xs, o.stored)
    modifies o.world, o.cache, o.neg, o`stored
    ensures o.Valid()
    ensures AdmittedSpec(o.s, o.neg.cfg, req, o.world.overloaded(old(o.world.step)),
                         o.world.critical(old(o.world.step) + 1),
                         old(Snapshot(o)), parts, Snapshot(o), out)
    ensures old(World.SteadyCritical(o.world)) ==>
              ShedSpec(o.s, o.cache.cfg, old(o.cache.Abs()), o.world.clock(old(o.world.step)), req,
                       o.world.overloaded(old(o.world.step)), parts, out)
  {
    parts := [];
    var overloaded, shed := Check(o, req, xs);
    if shed {
      NoEffect(o.s, o.neg.cfg, Snapshot(o));
      return Shed, [];
    }
    out, parts := Serve(o, req, RequestedMode(req), FinalPlan(o.s, req, overloaded), Names.Requested(req.collections));
  }

  // A request keeps the record and the negative cache's history.
  lemma {:induction false} RequestIsRecorded(s: Settings, cfg: Config, req: Request, overloaded: bool, critical: bool,
                                             xs: seq<Exchange>, before: Snap, parts: seq<Part>, after: Snap,
                                             out: CoreOutcome)
    requires Record(s, xs, before.stored) && Tracked(s, cfg, before.log, before.neg)
    requires AdmittedSpec(s, cfg, req, overloaded, critical, before, parts, after, out)
    ensures Record(s, xs + ExchangesOf(parts), after.stored) && Tracked(s, cfg, after.log, after.neg)
  {
    var looked := before.log + [Looked(overloaded)];
    TrackedLook(s, cfg, before.log, before.neg, overloaded);
    if out.Shed? {
      NothingLeads(cfg, before.neg);
      EmptyRight(xs);
      EmptyRight(looked);
    } else {
      var collections := Names.Requested(req.collections);
      RecordGrows(s, req, RequestedMode(req), overloaded, collections, xs, before.stored, parts);
      TrackedGrows(s, cfg, req, FinalPlan(s, req, overloaded), collections, before.stored, looked, before.neg, parts,
                   after.neg);
    }
  }

  // A request with a query, kept on record.
  method AdmitRecorded(o: Orchestrator, req: Request, ghost xs: seq<Exchange>)
    returns (out: CoreOutcome, ghost parts: seq<Part>)
    requires o.Valid() && Record(o.s, xs, o.stored) && Tracked(o.s, o.neg.cfg, o.world.log, o.neg.Abs())
    modifies o.world, o.cache, o.neg, o`stored
    ensures o.Valid() && Record(o.s, xs + ExchangesOf(parts), o.stored)
    ensures Tracked(o.s, o.neg.cfg, o.world.log, o.neg.Abs())
    ensures AdmittedSpec(o.s, o.neg.cfg, req, o.world.overloaded(old(o.world.step)),
                         o.world.critical(old(o.world.step) + 1), old(Snapshot(o)), parts, Snapshot(o), out)
    ensures old(World.SteadyCritical(o.world)) ==>
              ShedSpec(o.s, o.cache.cfg, old(o.cache.Abs()), o.world.clock(old(o.world.step)), req,
                       o.world.overloaded(old(o.world.step)), parts, out)
  {
    ghost var before, overloaded := Snapshot(o), o.world.overloaded(o.world.step);
    ghost var critical := o.world.critical(o.world.step + 1);
    out, parts := Admit(o, req, xs);
    RequestIsRecorded(o.s, o.neg.cfg, req, overloaded, critical, xs, before, parts, Snapshot(o), out);
  }

  // Under overload a request costs plain searches only and is never served deep, not
  // even from the cache.
  lemma OverloadNeverServesDeep(s: Settings, cfg: Config, req: Request, critical: bool, xs: seq<Exchange>,
                                before: Snap, parts: seq<Part>, after: Snap, out: CoreOutcome)
    requires Record(s, xs, before.stored) && AdmittedSpec(s, cfg, req, true, critical, before, parts, after, out)
    ensures SearchTheory.PlainCalls(Trace(parts))
    ensures out.Served? ==> out.response.servedMode != "deep"
  {
    if !out.Shed? {
      var plan, collections := FinalPlan(s, req, true), Names.Requested(req.collections);
      var rejected := Rejected(s, req, RequestedMode(req), TrimSpace(req.query));
      CoreTheory.OverloadCostsPlainSearches(s, req, RequestedMode(req), rejected, collections, before.stored, parts);
      if out.Served? {
        CoreTheory.ServedHonestly(s, req, RequestedMode(req), plan, CoreParams(s, req, plan, "").n, parts,
                                  out.response);
        forall i | 0 <= i < |parts| && parts[i].x.out.Found?
          ensures parts[i].x.out.result.mode != MODE_QUERY
        {
          OverloadedPartIsPlain(s, req, RequestedMode(req), collections, xs, before.stored, parts, i);
          assert |MODE_SEARCH| != |MODE_QUERY|;
        }
      }
    }
  }

  // A request is served as its words say, with calls that they allow.
  lemma ServedAsAsked(s: Settings, cfg: Config, req: Request, overloaded: bool, critical: bool, before: Snap,
                      parts: seq<Part>, after: Snap, out: CoreOutcome)
    requires AdmittedSpec(s, cfg, req, overloaded, critical, before, parts, after, out) && !out.Shed?
    ensures RightAnswer(s, req, overloaded, parts, out) && KindsAllowed(s, req, overloaded, Trace(parts))
  {
    AnswerIsRight(s, req, overloaded, Names.Requested(req.collections), before.stored, parts, out);
    KindsAreAllowed(s, req, overloaded, Names.Requested(req.collections), before.stored, parts);
  }

  // Whatever a request adds to the log is for that request.
  lemma OnlyForRequest(s: Settings, cfg: Config, req: Request, overloaded: bool, critical: bool, before: Snap,
                       parts: seq<Part>, after: Snap, out: CoreOutcome)
    requires AdmittedSpec(s, cfg, req, overloaded, critical, before, parts, after, out)
    ensures before.log <= after.log
    ensures AllForRequest(s, req, Names.Requested(req.collections), after.log[|before.log|..])
  {
    if !out.Shed? {
      CallsAreForRequest(s, req, FinalPlan(s, req, overloaded), Names.Requested(req.collections), before.stored, parts);
    }
    AddedForRequest(s, req, Names.Requested(req.collections), before.log, overloaded, Trace(parts), after.log);
  }

  lemma AddedForRequest(s: Settings, req: Request, collections: seq<string>, before: seq<Event>, overloaded: bool,
                        trace: seq<Event>, after: seq<Event>)
    requires after == before + [Looked(overloaded)] + trace && AllForRequest(s, req, collections, trace)
    ensures before <= after && AllForRequest(s, req, collections, after[|before|..])
  {
    ForBoth(s, req, collections, [Looked(overloaded)], trace);
    assert after[|before|..] == [Looked(overloaded)] + trace;
  }

  // Its orchestrator, and all searches since that was new.
  class Server {
    const orch: Orchestrator
    ghost var xs: seq<Exchange>

    ghost predicate Valid()
      reads this, orch, orch.cache, orch.world, orch.neg
    {
      && orch.Valid()
      && Record(orch.s, xs, orch.stored)
      && Tracked(orch.s, orch.neg.cfg, orch.world.log, orch.neg.Abs())
    }

    // NewServer, on a new orchestrator.
    constructor (o: Orchestrator)
      requires o.Valid() && o.stored == map[] && o.neg.Abs() == State(map[], map[]) && o.world.log == []
      ensures Valid() && orch == o && xs == []
    {
      orch := o;
      xs := [];
      new;
      NothingTracked(o.s, o.neg.cfg);
    }

    // executeSearchCore, once the query is known not to be empty.
    method Handle(req: Request) returns (out: CoreOutcome, ghost parts: seq<Part>)
      requires Valid()
      modifies this, orch.world, orch.cache, orch.neg, orch`stored
      ensures Valid() && xs == old(xs) + ExchangesOf(parts)
      ensures AdmittedSpec(orch.s, orch.neg.cfg, req, orch.world.overloaded(old(orch.world.step)),
                           orch.world.critical(old(orch.world.step) + 1), old(Snapshot(orch)), parts, Snapshot(orch),
                           out)
      ensures old(World.SteadyCritical(orch.world)) ==>
                ShedSpec(orch.s, orch.cache.cfg, old(orch.cache.Abs()), orch.world.clock(old(orch.world.step)), req,
                         orch.world.overloaded(old(orch.world.step)), parts, out)
    {
      out, parts := AdmitRecorded(orch, req, xs);
      xs := xs + ExchangesOf(parts);
    }

    // executeSearchCore
    method ExecuteSearchCore(req: Request) returns (out: CoreOutcome, ghost parts: seq<Part>)
      requires Valid()
      modifies this, orch.world, orch.cache, orch.neg, orch`stored
      ensures Valid() && xs == old(xs) + ExchangesOf(parts)
      ensures TrimSpace(req.query) == "" ==>
                out == QueryRequired && parts == [] && Snapshot(orch) == old(Snapshot(orch))
      ensures TrimSpace(req.query) != "" ==>
                AdmittedSpec(orch.s, orch.neg.cfg, req, orch.world.overloaded(old(orch.world.step)),
                             orch.world.critical(old(orch.world.step) + 1), old(Snapshot(orch)), parts, Snapshot(orch),
                             out)
      ensures old(World.SteadyCritical(orch.world)) && TrimSpace(req.query) != "" ==>
                ShedSpec(orch.s, orch.cache.cfg, old(orch.cache.Abs()), orch.world.clock(old(orch.world.step)), req,
                         orch.world.overloaded(old(orch.world.step)), parts, out)
      ensures |old(orch.world.log)| <= |orch.world.log|
      ensures AllForRequest(orch.s, req, Names.Requested(req.collections), orch.world.log[|old(orch.world.log)|..])
    {
      var query := TrimSpace(req.query);
      if query == "" {
        EmptyRight(xs);
        return QueryRequired, [];
      }
      ghost var before, overloaded := Snapshot(orch), orch.world.overloaded(orch.world.step);
      ghost var critical := orch.world.critical(orch.world.step + 1);
      out, parts := Handle(req);
      OnlyForRequest(orch.s, orch.neg.cfg, req, overloaded, critical, before, parts, Snapshot(orch), out);
    }

    // The clear command.
    method ClearCache()
      requires Valid()
      modifies orch.cache
      ensures Valid() && orch.cache.Abs() == old(orch.cache.Abs()).(order := [])
    {
      orch.cache.Clear();
    }

    // A reindex installs a version.
    method SetVersion(version: int)
      requires Valid()
      modifies orch.cache
      ensures Valid() && orch.cache.Abs() == old(orch.cache.Abs()).(version := version)
    {
      orch.cache.SetVersion(version);
    }

    // The cleanup task of the scheduler, for both caches.
    method Cleanup()
      requires Valid()
      modifies orch.cache, orch.neg, orch.world
      ensures Valid() && orch.world.step == old(orch.world.step) + 2
      ensures orch.cache.Abs()
           == LruCache.SpecCleanup(orch.cache.cfg, old(orch.cache.Abs()), orch.world.clock(old(orch.world.step)))
      ensures orch.neg.Abs() == CleanupStep(old(orch.neg.Abs()), orch.world.clock(old(orch.world.step) + 1))
    {
      CleanupCache();
      CleanupDeepNegative();
    }

    method CleanupCache()
      requires Valid()
      modifies orch.cache, orch.world`step
      ensures Valid() && orch.world.step == old(orch.world.step) + 1
      ensures orch.cache.Abs()
           == LruCache.SpecCleanup(orch.cache.cfg, old(orch.cache.Abs()), orch.world.clock(old(orch.world.step)))
    {
      var now := orch.world.Now();
      BackedDrop(orch.s, orch.cache.order, orch.stored,
                 LruCache.StaleKeys(orch.cache.cfg, orch.cache.version, orch.cache.order, now));
      var removed := orch.cache.Cleanup(now);
    }

    method CleanupDeepNegative()
      requires Valid()
      modifies orch.neg, orch.world
      ensures Valid() && orch.world.step == old(orch.world.step) + 1
      ensures orch.neg.Abs() == CleanupStep(old(orch.neg.Abs()), orch.world.clock(old(orch.world.step)))
    {
      TrackedSweep(orch.s, orch.neg.cfg, orch.world.log, orch.neg.Abs(), orch.world.clock(orch.world.step));
      var now := orch.world.Now();
      var removed := orch.neg.Cleanup(now);
      orch.world.Record(Swept(now));
    }
  }
}
