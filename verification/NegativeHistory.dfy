// Whole runs of the deep-query negative cache: the pruned maps answer as the
// full mark history would, and failures are rate limited.

module NegativeHistory {
  import opened Model
  import opened Text
  import opened NegativeCache

  datatype Event =
    | Ask(now: int, q: string, scope: string)
    | Mark(now: int, q: string, scope: string)
    | Cleanup(now: int)

  ghost function Apply(cfg: Config, s: State, e: Event): State {
    match e
    case Ask(now, q, scope) => AskStep(cfg, s, now, q, scope).0
    case Mark(now, q, scope) => MarkStep(cfg, s, now, q, scope)
    case Cleanup(now) => CleanupStep(s, now)
  }

  ghost function Run(cfg: Config, es: seq<Event>): State {
    if es == [] then State(map[], map[]) else Apply(cfg, Run(cfg, es[..|es| - 1]), es[|es| - 1])
  }

  // What an Ask answers after es.
  ghost function Answered(cfg: Config, es: seq<Event>, now: int, q: string, scope: string): Answer {
    AskStep(cfg, Run(cfg, es), now, q, scope).1
  }

  // Clock readings never decrease, and now is no earlier than the last one.
  ghost predicate Timed(es: seq<Event>, now: int) {
    && (forall i, j | 0 <= i < j < |es| :: es[i].now <= es[j].now)
    && (forall i | 0 <= i < |es| :: es[i].now <= now)
  }

  // Exact keys and cooldown keys share one map; scopes that keep them apart.
  ghost predicate PlainScope(scope: string) {
    scope != COOLDOWN_TAG && !(COOLDOWN_TAG + "|" <= scope)
  }

  ghost predicate PlainScopes(es: seq<Event>) {
    forall e | e in es && e.Mark? :: PlainScope(e.scope)
  }

  // ---------- The history specification ----------

  // When key was last marked.
  ghost function LastMark(es: seq<Event>, key: string): Option<int> {
    if es == [] then None else
    var e := es[|es| - 1];
    if e.Mark? && ExactKey(e.q, e.scope) == key then Some(e.now) else LastMark(es[..|es| - 1], key)
  }

  // Cooldowns are in force.
  predicate Cooling(cfg: Config) {
    cfg.ttl > 0 && cfg.allowCPU && cfg.cooldown > 0
  }

  // All marks of a scope since its cooldown was last activated, none forgotten.
  ghost function Pending(es: seq<Event>, scope: string): seq<int> {
    if es == [] then [] else
    var e, p := es[|es| - 1], Pending(es[..|es| - 1], scope);
    if !(e.Mark? && Canon(e.scope) == scope) then p
    else if Activates(p, e.now) then []
    else p + [e.now]
  }

  // A mark at now is at least the third within the window since the last activation.
  ghost predicate Activates(pending: seq<int>, now: int) {
    |Live(pending, now)| + 1 >= FAIL_THRESHOLD
  }

  // When the scope's cooldown was last activated.
  ghost function Activation(es: seq<Event>, scope: string): Option<int> {
    if es == [] then None else
    var e := es[|es| - 1];
    if e.Mark? && Canon(e.scope) == scope && Activates(Pending(es[..|es| - 1], scope), e.now)
    then Some(e.now) else Activation(es[..|es| - 1], scope)
  }

  ghost function HistoryAnswer(cfg: Config, es: seq<Event>, now: int, q: string, scope: string): Answer {
    var mark, cooldown := LastMark(es, ExactKey(q, scope)), Activation(es, Canon(scope));
    if cfg.ttl <= 0 then Go
    else if mark.Some? && now <= mark.value + cfg.ttl then SkipExact
    else if Cooling(cfg) && cooldown.Some? && now <= cooldown.value + cfg.cooldown then SkipCooldown
    else Go
  }

  // ---------- Refinement ----------

  lemma {:induction false} LiveLive(ts: seq<int>, t: int, now: int)
    requires t <= now
    ensures Live(Live(ts, t), now) == Live(ts, now)
  {
    if ts != [] {
      var init, x := ts[..|ts| - 1], ts[|ts| - 1];
      LiveLive(init, t, now);
      LiveAppend(Live(init, t), x, now);
      assert Live(ts, t) == if t - x <= FAIL_WINDOW then Live(init, t) + [x] else Live(init, t);
    }
  }

  lemma KeysApart(q: string, scope: string, other: string)
    requires PlainScope(scope)
    ensures ExactKey(q, scope) != CooldownKey(other)
  {
    var a, b, n := ExactKey(q, scope), CooldownKey(other), |COOLDOWN_TAG|;
    if |scope| < n {
      assert a[|scope|] == '|' && b[|scope|] == COOLDOWN_TAG[|scope|];
    } else if |scope| == n {
      assert a[..n] == scope && b[..n] == COOLDOWN_TAG;
    } else {
      assert a[..n + 1] == scope[..n + 1] && b[..n + 1] == COOLDOWN_TAG + "|";
    }
  }

  // A scope is plain exactly when no query on it can hit a cooldown entry.
  lemma PlainScopeIff(scope: string)
    ensures PlainScope(scope) <==> forall q, other :: ExactKey(q, scope) != CooldownKey(other)
  {
    if PlainScope(scope) {
      forall q, other
        ensures ExactKey(q, scope) != CooldownKey(other)
      {
        KeysApart(q, scope, other);
      }
    } else if scope == COOLDOWN_TAG {
      assert ExactKey("", scope) == CooldownKey("");
    } else {
      var other := scope[|COOLDOWN_TAG| + 1..] + "|";
      assert ExactKey("", scope) == CooldownKey(other);
    }
  }

  lemma CooldownKeyInjective(a: string, b: string)
    ensures CooldownKey(a) == CooldownKey(b) <==> a == b
  {
    IndexOfFirst(COOLDOWN_TAG, '|', a);
    IndexOfFirst(COOLDOWN_TAG, '|', b);
  }

  // m remembers the expiry of key, unless it has expired.
  ghost predicate Tracks(m: map<string, int>, key: string, expiry: Option<int>, now: int) {
    match expiry
    case None => key !in m
    case Some(x) => if key in m then m[key] == x else x < now
  }

  ghost function After(t: Option<int>, d: int): Option<int> {
    if t.Some? then Some(t.value + d) else None
  }

  lemma TimedPrefix(es: seq<Event>, now: int)
    requires es != [] && Timed(es, now)
    ensures Timed(es[..|es| - 1], es[|es| - 1].now)
    ensures PlainScopes(es) ==> PlainScopes(es[..|es| - 1])
    ensures es[|es| - 1] in es
  {
  }

  // One step keeps track of an exact key.
  lemma StepTracksExact(cfg: Config, s: State, mark: Option<int>, e: Event, q: string, scope: string, now: int)
    requires cfg.ttl > 0 && PlainScope(scope) && e.now <= now
    requires Tracks(s.deepNeg, ExactKey(q, scope), After(mark, cfg.ttl), e.now)
    ensures var later := if e.Mark? && ExactKey(e.q, e.scope) == ExactKey(q, scope) then Some(e.now) else mark;
            Tracks(Apply(cfg, s, e).deepNeg, ExactKey(q, scope), After(later, cfg.ttl), now)
  {
    if !e.Cleanup? {
      KeysApart(q, scope, Canon(e.scope));
    }
  }

  lemma {:induction false} ExactTracked(cfg: Config, es: seq<Event>, now: int, q: string, scope: string)
    requires cfg.ttl > 0 && Timed(es, now) && PlainScopes(es) && PlainScope(scope)
    ensures Tracks(Run(cfg, es).deepNeg, ExactKey(q, scope), After(LastMark(es, ExactKey(q, scope)), cfg.ttl), now)
  {
    if es != [] {
      var init, e := es[..|es| - 1], es[|es| - 1];
      TimedPrefix(es, now);
      ExactTracked(cfg, init, e.now, q, scope);
      StepTracksExact(cfg, Run(cfg, init), LastMark(init, ExactKey(q, scope)), e, q, scope, now);
    }
  }

  // The cooldown entry of scope and its live failures, against the history.
  ghost predicate ScopeTracked(cfg: Config, s: State, activation: Option<int>, pending: seq<int>, scope: string,
                               now: int) {
    && Tracks(s.deepNeg, CooldownKey(scope), After(activation, cfg.cooldown), now)
    && Live(FailsOf(s.fails, scope), now) == Live(pending, now)
  }

  lemma TrackedLater(cfg: Config, s: State, activation: Option<int>, pending: seq<int>, scope: string, t: int, now: int)
    requires ScopeTracked(cfg, s, activation, pending, scope, t) && t <= now
    ensures ScopeTracked(cfg, s, activation, pending, scope, now)
  {
    LiveLive(FailsOf(s.fails, scope), t, now);
    LiveLive(pending, t, now);
  }

  lemma MarkTracked(cfg: Config, s: State, activation: Option<int>, pending: seq<int>, scope: string, e: Event)
    requires Cooling(cfg) && e.Mark? && PlainScope(e.scope) && Canon(e.scope) == scope
    requires ScopeTracked(cfg, s, activation, pending, scope, e.now)
    ensures var t := MarkStep(cfg, s, e.now, e.q, e.scope);
            if Activates(pending, e.now) then ScopeTracked(cfg, t, Some(e.now), [], scope, e.now)
            else ScopeTracked(cfg, t, activation, pending + [e.now], scope, e.now)
  {
    KeysApart(e.q, e.scope, scope);
    var dst := Live(FailsOf(s.fails, scope), e.now);
    LiveLive(FailsOf(s.fails, scope), e.now, e.now);
    LiveAppend(pending, e.now, e.now);
    LiveAppend(dst, e.now, e.now);
    var t := MarkStep(cfg, s, e.now, e.q, e.scope);
    if Activates(pending, e.now) {
      assert FailsOf(t.fails, scope) == [];
    } else {
      assert FailsOf(t.fails, scope) == dst + [e.now];
    }
  }

  // A step that is no mark of the scope leaves its tracking alone.
  lemma OtherTracked(cfg: Config, s: State, activation: Option<int>, pending: seq<int>, scope: string, e: Event)
    requires Cooling(cfg)
    requires e.Mark? ==> PlainScope(e.scope) && Canon(e.scope) != scope
    requires ScopeTracked(cfg, s, activation, pending, scope, e.now)
    ensures ScopeTracked(cfg, Apply(cfg, s, e), activation, pending, scope, e.now)
  {
    match e
    case Mark(now, q, other) =>
      KeysApart(q, other, scope);
      CooldownKeyInjective(Canon(other), scope);
    case Ask(now, q, other) =>
      CooldownKeyInjective(Canon(other), scope);
    case Cleanup(now) =>
      LiveLive(FailsOf(s.fails, scope), now, now);
  }

  lemma {:induction false} CooldownTracked(cfg: Config, es: seq<Event>, now: int, scope: string)
    requires Cooling(cfg) && Timed(es, now) && PlainScopes(es)
    ensures ScopeTracked(cfg, Run(cfg, es), Activation(es, scope), Pending(es, scope), scope, now)
  {
    if es != [] {
      var init, e := es[..|es| - 1], es[|es| - 1];
      TimedPrefix(es, now);
      CooldownTracked(cfg, init, e.now, scope);
      if e.Mark? && Canon(e.scope) == scope {
        MarkTracked(cfg, Run(cfg, init), Activation(init, scope), Pending(init, scope), scope, e);
      } else {
        OtherTracked(cfg, Run(cfg, init), Activation(init, scope), Pending(init, scope), scope, e);
      }
      TrackedLater(cfg, Run(cfg, es), Activation(es, scope), Pending(es, scope), scope, e.now, now);
    }
  }

  lemma {:induction false} NoCooldown(cfg: Config, es: seq<Event>, scope: string)
    requires !Cooling(cfg) && PlainScopes(es)
    ensures CooldownKey(scope) !in Run(cfg, es).deepNeg
  {
    if es != [] {
      var init, e := es[..|es| - 1], es[|es| - 1];
      NoCooldown(cfg, init, scope);
      if e.Mark? {
        assert e in es;
        KeysApart(e.q, e.scope, scope);
      }
    }
  }

  // Every answer of the pruned cache is the one its full mark history gives.
  lemma SkipRefinesHistory(cfg: Config, es: seq<Event>, now: int, q: string, scope: string)
    requires Timed(es, now) && PlainScopes(es) && PlainScope(scope)
    ensures Answered(cfg, es, now, q, scope) == HistoryAnswer(cfg, es, now, q, scope)
  {
    if cfg.ttl > 0 {
      ExactTracked(cfg, es, now, q, scope);
      KeysApart(q, scope, Canon(scope));
      if Cooling(cfg) {
        CooldownTracked(cfg, es, now, Canon(scope));
      } else if cfg.allowCPU {
        NoCooldown(cfg, es, Canon(scope));
      }
    }
  }

  // ---------- What pruning keeps ----------

  lemma {:induction false} LiveHolds(ts: seq<int>, now: int, t: int)
    ensures multiset(Live(ts, now))[t] == if now - t <= 300_000_000_000 then multiset(ts)[t] else 0
  {
    if ts != [] {
      LiveHolds(ts[..|ts| - 1], now, t);
      InitAndLast(ts);
    }
  }

  lemma SomeLive(ts: seq<int>, now: int)
    ensures Live(ts, now) != [] <==> exists t :: t in ts && now - t <= 300_000_000_000
  {
    if t :| t in ts && now - t <= 300_000_000_000 {
      LiveHolds(ts, now, t);
      assert t in multiset(ts);
    }
    if Live(ts, now) != [] {
      var t := Live(ts, now)[0];
      LiveHolds(ts, now, t);
      assert multiset(Live(ts, now))[t] > 0;
      assert t in ts;
    }
  }

  // A cleanup keeps exactly what has not expired, and of each scope's failures exactly
  // those of the last five minutes.
  lemma CleanupKeeps(s: State, now: int, key: string, scope: string, t: int)
    ensures var after := CleanupStep(s, now);
            && (key in after.deepNeg <==> key in s.deepNeg && now <= s.deepNeg[key])
            && (key in after.deepNeg ==> after.deepNeg[key] == s.deepNeg[key])
            && (scope in after.fails <==>
                  scope in s.fails && exists u :: u in s.fails[scope] && now - u <= 300_000_000_000)
            && (scope in after.fails ==>
                  multiset(after.fails[scope])[t]
                  == if now - t <= 300_000_000_000 then multiset(s.fails[scope])[t] else 0)
  {
    if scope in s.fails {
      SomeLive(s.fails[scope], now);
      LiveHolds(s.fails[scope], now, t);
    }
  }

  // ---------- Pruning is invisible ----------

  ghost function Marks(es: seq<Event>): seq<Event> {
    if es == [] then [] else
    Marks(es[..|es| - 1]) + if es[|es| - 1].Mark? then [es[|es| - 1]] else []
  }

  lemma {:induction false} HistoryIsMarks(es: seq<Event>, key: string, scope: string)
    ensures LastMark(es, key) == LastMark(Marks(es), key)
    ensures Pending(es, scope) == Pending(Marks(es), scope)
    ensures Activation(es, scope) == Activation(Marks(es), scope)
  {
    if es != [] {
      var init, e := es[..|es| - 1], es[|es| - 1];
      HistoryIsMarks(init, key, scope);
      if e.Mark? {
        assert Marks(es)[..|Marks(init)|] == Marks(init);
      } else {
        assert Marks(es) == Marks(init);
      }
    }
  }

  // Cleanups and lazy deletes change no later answer: runs with the same marks
  // answer alike.
  lemma PruningIsInvisible(cfg: Config, es: seq<Event>, fs: seq<Event>, now: int, q: string, scope: string)
    requires Timed(es, now) && PlainScopes(es) && Timed(fs, now) && PlainScopes(fs) && PlainScope(scope)
    requires Marks(es) == Marks(fs)
    ensures Answered(cfg, es, now, q, scope) == Answered(cfg, fs, now, q, scope)
  {
    SkipRefinesHistory(cfg, es, now, q, scope);
    SkipRefinesHistory(cfg, fs, now, q, scope);
    HistoryIsMarks(es, ExactKey(q, scope), Canon(scope));
    HistoryIsMarks(fs, ExactKey(q, scope), Canon(scope));
  }
}
