// orchestrator: the deep-query negative cache with its scope cooldown.

module NegativeCache {
  import opened Model
  import opened Text

  const SECOND := 1_000_000_000
  const FAIL_THRESHOLD := 3
  const FAIL_WINDOW := 300 * SECOND
  const COOLDOWN_TAG := "scope_cooldown"

  // The runtime settings the cache reads; durations in nanoseconds.
  datatype Config = Config(ttl: int, allowCPU: bool, cooldown: int)

  // What shouldSkipDeepByNegativeCache answers, with its reason.
  datatype Answer = Go | SkipExact | SkipCooldown

  // SHA-1 is taken as injective, so keys are the texts that are hashed. The
  // query q is already lower-cased, blank-collapsed and cut to 64 characters.
  function ExactKey(q: string, scope: string): string {
    scope + "|" + q
  }

  function Canon(scope: string): string {
    var s := TrimSpace(scope);
    if s == "" then "all" else s
  }

  // For a scope already in canonical form.
  function CooldownKey(scope: string): string {
    COOLDOWN_TAG + "|" + scope
  }

  // ---------- Specification ----------

  datatype State = State(deepNeg: map<string, int>, fails: map<string, seq<int>>)

  // The failures still inside the window at now.
  ghost function Live(ts: seq<int>, now: int): seq<int> {
    if ts == [] then [] else
    Live(ts[..|ts| - 1], now) + if now - ts[|ts| - 1] <= FAIL_WINDOW then [ts[|ts| - 1]] else []
  }

  ghost function FailsOf(fails: map<string, seq<int>>, scope: string): seq<int> {
    if scope in fails then fails[scope] else []
  }

  ghost function CooldownStep(cfg: Config, s: State, now: int, scope: string): State {
    if cfg.cooldown <= 0 then s else
    var dst := Live(FailsOf(s.fails, scope), now) + [now];
    if |dst| < FAIL_THRESHOLD then s.(fails := s.fails[scope := dst])
    else State(s.deepNeg[CooldownKey(scope) := now + cfg.cooldown], s.fails - {scope})
  }

  ghost function MarkStep(cfg: Config, s: State, now: int, q: string, scope: string): State {
    if cfg.ttl <= 0 then s else
    var marked := s.(deepNeg := s.deepNeg[ExactKey(q, scope) := now + cfg.ttl]);
    if cfg.allowCPU then CooldownStep(cfg, marked, now, Canon(scope)) else marked
  }

  // An unexpired entry for key; an expired one is removed on the way.
  ghost function Active(m: map<string, int>, key: string, now: int): bool {
    key in m && now <= m[key]
  }

  ghost function Purge(m: map<string, int>, key: string, now: int): map<string, int> {
    if key in m && now > m[key] then m - {key} else m
  }

  ghost function AskStep(cfg: Config, s: State, now: int, q: string, scope: string): (State, Answer) {
    var exact, cooldown := ExactKey(q, scope), CooldownKey(Canon(scope));
    if cfg.ttl <= 0 then (s, Go)
    else if Active(s.deepNeg, exact, now) then (s, SkipExact)
    else
      var m := Purge(s.deepNeg, exact, now);
      if !cfg.allowCPU then (s.(deepNeg := m), Go)
      else if Active(m, cooldown, now) then (s.(deepNeg := m), SkipCooldown)
      else (s.(deepNeg := Purge(m, cooldown, now)), Go)
  }

  ghost function CleanupStep(s: State, now: int): State {
    State(map k | k in s.deepNeg && now <= s.deepNeg[k] :: s.deepNeg[k],
          map c | c in s.fails && Live(s.fails[c], now) != [] :: Live(s.fails[c], now))
  }

  // ---------- The code ----------

  class DeepNegativeCache {
    const cfg: Config
    var deepNeg: map<string, int>
    var deepNegScopeFails: map<string, seq<int>>

    ghost function Abs(): State
      reads this
    {
      State(deepNeg, deepNegScopeFails)
    }

    constructor (config: Config)
      ensures Abs() == State(map[], map[]) && cfg == config
    {
      cfg := config;
      deepNeg, deepNegScopeFails := map[], map[];
    }

    // shouldSkipDeepByNegativeCache
    method ShouldSkip(q: string, scope: string, now: int) returns (answer: Answer)
      modifies this
      ensures Abs() == AskStep(cfg, old(Abs()), now, q, scope).0
      ensures answer == AskStep(cfg, old(Abs()), now, q, scope).1
    {
      if cfg.ttl <= 0 {
        return Go;
      }
      var exactKey := ExactKey(q, scope);
      var scopeCooldownKey := CooldownKey(Canon(scope));
      if exactKey in deepNeg {
        if now > deepNeg[exactKey] {
          deepNeg := deepNeg - {exactKey};
        } else {
          return SkipExact;
        }
      }
      if !cfg.allowCPU {
        return Go;
      }
      if scopeCooldownKey in deepNeg {
        if now > deepNeg[scopeCooldownKey] {
          deepNeg := deepNeg - {scopeCooldownKey};
        } else {
          return SkipCooldown;
        }
      }
      return Go;
    }

    // markDeepNegative
    method MarkFailed(q: string, scope: string, now: int)
      modifies this
      ensures Abs() == MarkStep(cfg, old(Abs()), now, q, scope)
    {
      if cfg.ttl <= 0 {
        return;
      }
      deepNeg := deepNeg[ExactKey(q, scope) := now + cfg.ttl];
      if cfg.allowCPU {
        MarkScopeCooldown(scope, now);
      }
    }

    // markScopeCooldownLocked
    method MarkScopeCooldown(rawScope: string, now: int)
      modifies this
      ensures Abs() == CooldownStep(cfg, old(Abs()), now, Canon(rawScope))
    {
      var scope := Canon(rawScope);
      if cfg.cooldown <= 0 {
        return;
      }
      var fails := if scope in deepNegScopeFails then deepNegScopeFails[scope] else [];
      var dst := Compact(fails, now);
      dst := dst + [now];
      deepNegScopeFails := deepNegScopeFails[scope := dst];
      if |dst| < FAIL_THRESHOLD {
        return;
      }
      deepNeg := deepNeg[CooldownKey(scope) := now + cfg.cooldown];
      assert deepNegScopeFails - {scope} == old(deepNegScopeFails) - {scope};
      deepNegScopeFails := deepNegScopeFails - {scope};
    }

    // The compaction loop shared by marking and cleanup.
    static method Compact(fails: seq<int>, now: int) returns (dst: seq<int>)
      ensures dst == Live(fails, now)
    {
      dst := [];
      for i := 0 to |fails|
        invariant dst == Live(fails[..i], now)
      {
        TakeOneMore(fails, i);
        LiveAppend(fails[..i], fails[i], now);
        if now - fails[i] <= FAIL_WINDOW {
          dst := dst + [fails[i]];
        }
      }
      assert fails[..|fails|] == fails;
    }

    // CleanupDeepNegativeCache
    method Cleanup(now: int) returns (removed: nat)
      modifies this
      ensures Abs() == CleanupStep(old(Abs()), now)
      ensures removed == |old(deepNeg)| - |deepNeg|
    {
      removed := 0;
      var todo := deepNeg.Keys;
      while todo != {}
        invariant todo <= deepNeg.Keys <= old(deepNeg).Keys
        invariant forall k | k in deepNeg :: deepNeg[k] == old(deepNeg)[k]
        invariant forall k | k in old(deepNeg) && k !in todo :: k in deepNeg <==> now <= old(deepNeg)[k]
        invariant removed == |old(deepNeg)| - |deepNeg|
        invariant deepNegScopeFails == old(deepNegScopeFails)
        decreases todo
      {
        var k :| k in todo;
        todo := todo - {k};
        if now > deepNeg[k] {
          RemoveKeySize(deepNeg, k);
          deepNeg := deepNeg - {k};
          removed := removed + 1;
        }
      }
      assert deepNeg == CleanupStep(old(Abs()), now).deepNeg;
      CleanupFails(now);
    }

    method CleanupFails(now: int)
      modifies `deepNegScopeFails
      ensures deepNegScopeFails == CleanupStep(old(Abs()), now).fails
    {
      var todo := deepNegScopeFails.Keys;
      var was := deepNegScopeFails;
      while todo != {}
        invariant todo <= deepNegScopeFails.Keys <= was.Keys
        invariant forall c | c in todo :: deepNegScopeFails[c] == was[c]
        invariant forall c | c in was && c !in todo ::
                    c in deepNegScopeFails <==> Live(was[c], now) != []
        invariant forall c | c in deepNegScopeFails && c !in todo :: deepNegScopeFails[c] == Live(was[c], now)
        decreases todo
      {
        var c :| c in todo;
        todo := todo - {c};
        var dst := Compact(deepNegScopeFails[c], now);
        if |dst| == 0 {
          deepNegScopeFails := deepNegScopeFails - {c};
        } else {
          deepNegScopeFails := deepNegScopeFails[c := dst];
        }
      }
    }
  }

  lemma LiveAppend(ts: seq<int>, t: int, now: int)
    ensures Live(ts + [t], now) == Live(ts, now) + if now - t <= FAIL_WINDOW then [t] else []
  {
    assert (ts + [t])[..|ts|] == ts;
  }

  lemma RemoveKeySize(m: map<string, int>, k: string)
    requires k in m
    ensures |m - {k}| == |m| - 1
  {
    assert (m - {k}).Keys == m.Keys - {k};
  }
}
