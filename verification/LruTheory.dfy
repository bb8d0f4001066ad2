// Whole runs of the LRU cache: what a hit returns, what eviction removes, and
// why a larger cache never misses where a smaller one hits.

module LruTheory {
  import opened Model
  import opened LruCache

  datatype Op =
    | Get(now: int, key: string)
    | Put(now: int, key: string, entry: Entry)
    | SetVersion(version: int)
    | Clear
    | Cleanup(now: int)

  ghost function Apply(cfg: Config, c: Lru, op: Op): Lru {
    match op
    case Get(now, key) => SpecGet(cfg, c, now, key).0
    case Put(now, key, e) => SpecPut(cfg, c, now, key, e)
    case SetVersion(v) => c.(version := v)
    case Clear => c.(order := [])
    case Cleanup(now) => SpecCleanup(cfg, c, now)
  }

  ghost function Run(cfg: Config, ops: seq<Op>): Lru {
    if ops == [] then EMPTY else Apply(cfg, Run(cfg, ops[..|ops| - 1]), ops[|ops| - 1])
  }

  lemma RunAppend(cfg: Config, ops: seq<Op>, op: Op)
    ensures Run(cfg, ops + [op]) == Apply(cfg, Run(cfg, ops), op)
  {
    assert (ops + [op])[..|ops|] == ops;
  }

  // What Get answers after ops.
  ghost function Answer(cfg: Config, ops: seq<Op>, now: int, key: string): Option<Entry> {
    SpecGet(cfg, Run(cfg, ops), now, key).1
  }

  // ---------- Reachable states ----------

  function Capacity(cfg: Config): int {
    Max(1, cfg.maxEntries)
  }

  ghost predicate WellFormed(cfg: Config, c: Lru) {
    Distinct(c.order) && |c.order| <= Capacity(cfg)
  }

  lemma {:induction false} DropSize(s: seq<Node>, ks: set<string>)
    ensures |Drop(s, ks)| <= |s|
  {
    if s != [] {
      DropSize(s[1..], ks);
    }
  }

  lemma FrontDistinct(n: Node, s: seq<Node>)
    requires Distinct(s) && n.key !in KeysOf(s)
    ensures Distinct([n] + s)
  {
    KeysOfMembers(s);
  }

  // Every operation drops some keys and puts at most one node in front.
  ghost function Front(cfg: Config, c: Lru, op: Op): seq<Node> {
    match op
    case Get(now, key) =>
      var r := SpecGet(cfg, c, now, key).1;
      if r.Some? then [Node(key, r.value)] else []
    case Put(now, key, e) => if cfg.enabled then [Node(key, Stamped(e, c.version, now))] else []
    case _ => []
  }

  ghost function Gone(cfg: Config, c: Lru, op: Op): set<string> {
    match op
    case Get(_, key) => if cfg.enabled then {key} else {}
    case Put(_, key, _) =>
      if !cfg.enabled then {}
      else if key in KeysOf(c.order) then {key}
      else if c.order != [] && |c.order| >= cfg.maxEntries then {c.order[|c.order| - 1].key}
      else {}
    case SetVersion(_) => {}
    case Clear => KeysOf(c.order)
    case Cleanup(now) => StaleKeys(cfg, c.version, c.order, now)
  }

  ghost predicate Shaped(cfg: Config, c: Lru, op: Op) {
    var front, rest := Front(cfg, c, op), Drop(c.order, Gone(cfg, c, op));
    && Apply(cfg, c, op).order == front + rest
    && |front| <= 1
    && (front != [] ==> front[0].key !in KeysOf(rest))
  }

  lemma GetShaped(cfg: Config, c: Lru, now: int, key: string)
    requires Distinct(c.order)
    ensures Shaped(cfg, c, Get(now, key))
  {
    DropNothing(c.order, {});
    if Find(c.order, key) == None {
      FindKey(c.order, key);
      DropNothing(c.order, {key});
    } else {
      KeysAfterDrop(c.order, {key});
    }
  }

  // Dropping the last key leaves all but the last node, without key.
  lemma DropLast(s: seq<Node>, key: string)
    requires Distinct(s) && s != [] && key !in KeysOf(s)
    ensures Drop(s, {s[|s| - 1].key}) == AllButLast(s) && key !in KeysOf(AllButLast(s))
  {
    LastIsLast(s);
    KeysAfterDrop(s, {s[|s| - 1].key});
  }

  lemma EvictShaped(cfg: Config, c: Lru, now: int, key: string, e: Entry)
    requires Distinct(c.order) && cfg.enabled && key !in KeysOf(c.order)
    requires c.order != [] && |c.order| >= cfg.maxEntries
    ensures Shaped(cfg, c, Put(now, key, e))
  {
    DropLast(c.order, key);
  }

  lemma PutShaped(cfg: Config, c: Lru, now: int, key: string, e: Entry)
    requires Distinct(c.order)
    ensures Shaped(cfg, c, Put(now, key, e))
  {
    if !cfg.enabled {
      DropNothing(c.order, {});
    } else if key in KeysOf(c.order) {
      KeysAfterDrop(c.order, {key});
    } else if c.order != [] && |c.order| >= cfg.maxEntries {
      EvictShaped(cfg, c, now, key, e);
    } else {
      DropNothing(c.order, {});
    }
  }

  lemma StepShape(cfg: Config, c: Lru, op: Op)
    requires Distinct(c.order)
    ensures Shaped(cfg, c, op)
  {
    match op
    case Get(now, key) => GetShaped(cfg, c, now, key);
    case Put(now, key, e) => PutShaped(cfg, c, now, key, e);
    case SetVersion(_) => DropNothing(c.order, {});
    case Clear => DropAll(c.order, KeysOf(c.order));
    case Cleanup(_) =>
  }

  lemma {:induction false} DropAll(s: seq<Node>, ks: set<string>)
    requires KeysOf(s) <= ks
    ensures Drop(s, ks) == []
  {
    if s != [] {
      DropAll(s[1..], ks);
    }
  }

  lemma StepSize(cfg: Config, c: Lru, op: Op)
    requires WellFormed(cfg, c)
    ensures |Front(cfg, c, op)| + |Drop(c.order, Gone(cfg, c, op))| <= Capacity(cfg)
  {
    DropSize(c.order, Gone(cfg, c, op));
    match op
    case Get(now, key) =>
      FindKey(c.order, key);
      DropOneSize(c.order, key);
    case Put(now, key, e) =>
      DropOneSize(c.order, key);
      if c.order != [] {
        DropOneSize(c.order, c.order[|c.order| - 1].key);
        KeysOfMembers(c.order);
      }
    case _ =>
  }

  lemma ApplyKeepsWellFormed(cfg: Config, c: Lru, op: Op)
    requires WellFormed(cfg, c)
    ensures WellFormed(cfg, Apply(cfg, c, op))
  {
    StepShape(cfg, c, op);
    StepSize(cfg, c, op);
    DropKeepsDistinct(c.order, Gone(cfg, c, op));
    if Front(cfg, c, op) != [] {
      FrontDistinct(Front(cfg, c, op)[0], Drop(c.order, Gone(cfg, c, op)));
    }
  }

  // In every reachable state the keys are distinct and at most max(1, maxEntries).
  lemma {:induction false} RunWellFormed(cfg: Config, ops: seq<Op>)
    ensures WellFormed(cfg, Run(cfg, ops))
    ensures |Run(cfg, ops).order| <= if cfg.maxEntries > 1 then cfg.maxEntries else 1
  {
    if ops != [] {
      RunWellFormed(cfg, ops[..|ops| - 1]);
      ApplyKeepsWellFormed(cfg, Run(cfg, ops[..|ops| - 1]), ops[|ops| - 1]);
    }
  }

  // ---------- What a hit returns ----------

  // The index version after ops.
  ghost function Version(ops: seq<Op>): int {
    if ops == [] then NO_VERSION else
    match ops[|ops| - 1]
    case SetVersion(v) => v
    case _ => Version(ops[..|ops| - 1])
  }

  // The last entry put under key since the last Clear, with its stamps.
  ghost function LastPut(ops: seq<Op>, key: string): Option<Entry> {
    if ops == [] then None else
    var before := ops[..|ops| - 1];
    match ops[|ops| - 1]
    case Put(now, k, e) => if k == key then Some(Stamped(e, Version(before), now)) else LastPut(before, key)
    case Clear => None
    case _ => LastPut(before, key)
  }

  lemma {:induction false} RunVersion(cfg: Config, ops: seq<Op>)
    ensures Run(cfg, ops).version == Version(ops)
  {
    if ops != [] {
      RunVersion(cfg, ops[..|ops| - 1]);
    }
  }

  lemma {:induction false} CachedIsLastPut(cfg: Config, ops: seq<Op>, n: Node)
    requires n in Run(cfg, ops).order
    ensures LastPut(ops, n.key) == Some(n.entry)
  {
    var before, op := ops[..|ops| - 1], ops[|ops| - 1];
    var c := Run(cfg, before);
    RunWellFormed(cfg, before);
    RunVersion(cfg, before);
    StepShape(cfg, c, op);
    KeysAfterDrop(c.order, Gone(cfg, c, op));
    if n in c.order {
      CachedIsLastPut(cfg, before, n);
      if op.Put? && op.key == n.key {
        assert cfg.enabled by {
          DisabledIsEmpty(cfg, before);
        }
        KeysOfMembers(c.order);
      }
    } else if op.Get? {
      FindKey(c.order, op.key);
    }
  }

  lemma {:induction false} DisabledIsEmpty(cfg: Config, ops: seq<Op>)
    ensures !cfg.enabled ==> Run(cfg, ops).order == []
  {
    if ops != [] {
      DisabledIsEmpty(cfg, ops[..|ops| - 1]);
    }
  }

  // A hit returns exactly the last entry put under that key, within its TTL
  // and, when version aware, at the version it was put under.
  lemma HitIsLastPut(cfg: Config, ops: seq<Op>, now: int, key: string)
    ensures Answer(cfg, ops, now, key).Some? ==>
              var e := Answer(cfg, ops, now, key).value;
              && LastPut(ops, key) == Some(e)
              && now - e.createdAt <= cfg.ttl
              && (cfg.versionAware ==> e.indexVersion == Version(ops))
  {
    RunWellFormed(cfg, ops);
    RunVersion(cfg, ops);
    FindKey(Run(cfg, ops).order, key);
    if Answer(cfg, ops, now, key).Some? {
      CachedIsLastPut(cfg, ops, Node(key, Answer(cfg, ops, now, key).value));
    }
  }

  ghost predicate VersionsAscend(ops: seq<Op>) {
    forall i, j | 0 <= i < j <= |ops| :: Version(ops[..i]) <= Version(ops[..j])
  }

  // Once a version has been superseded no hit carries it again.
  lemma SupersededVersionsStayDead(cfg: Config, ops: seq<Op>, i: nat, now: int, key: string)
    requires cfg.versionAware && VersionsAscend(ops) && i <= |ops|
    ensures var a := Answer(cfg, ops, now, key);
            a.Some? ==> a.value.indexVersion >= Version(ops[..i])
  {
    HitIsLastPut(cfg, ops, now, key);
    assert ops[..|ops|] == ops;
  }

  // ---------- What eviction removes ----------

  ghost predicate Touches(cfg: Config, c: Lru, op: Op, key: string) {
    || (op.Put? && op.key == key)
    || (op.Get? && op.key == key && SpecGet(cfg, c, op.now, key).1.Some?)
  }

  // When key was last put or hit: the length of the run up to then.
  ghost function LastTouch(cfg: Config, ops: seq<Op>, key: string): (t: nat)
    ensures t <= |ops|
  {
    if ops == [] then 0 else
    var before := ops[..|ops| - 1];
    if Touches(cfg, Run(cfg, before), ops[|ops| - 1], key) then |ops| else LastTouch(cfg, before, key)
  }

  // s is in order of last use, latest first.
  ghost predicate Recency(cfg: Config, ops: seq<Op>, s: seq<Node>) {
    s != [] ==>
      && (forall n | n in s[1..] :: LastTouch(cfg, ops, s[0].key) > LastTouch(cfg, ops, n.key))
      && Recency(cfg, ops, s[1..])
  }

  lemma {:induction false} DropKeepsRecency(cfg: Config, ops: seq<Op>, s: seq<Node>, ks: set<string>)
    requires Recency(cfg, ops, s)
    ensures Recency(cfg, ops, Drop(s, ks))
  {
    if s != [] {
      DropKeepsRecency(cfg, ops, s[1..], ks);
      KeysAfterDrop(s[1..], ks);
      if s[0].key in ks {
        assert Drop(s, ks) == Drop(s[1..], ks);
      } else {
        assert Drop(s, ks)[1..] == Drop(s[1..], ks);
      }
    }
  }

  // A step that touches no key of s keeps its order.
  lemma {:induction false} StepKeepsRecency(cfg: Config, ops: seq<Op>, s: seq<Node>)
    requires ops != [] && Recency(cfg, ops[..|ops| - 1], s)
    requires forall n | n in s :: !Touches(cfg, Run(cfg, ops[..|ops| - 1]), ops[|ops| - 1], n.key)
    ensures Recency(cfg, ops, s)
    ensures forall n | n in s :: LastTouch(cfg, ops, n.key) < |ops|
  {
    if s != [] {
      assert s == [s[0]] + s[1..];
      StepKeepsRecency(cfg, ops, s[1..]);
    }
  }

  lemma FrontIsNewest(cfg: Config, ops: seq<Op>, n: Node, s: seq<Node>)
    requires ops != [] && Recency(cfg, ops, s)
    requires Touches(cfg, Run(cfg, ops[..|ops| - 1]), ops[|ops| - 1], n.key)
    requires forall x | x in s :: LastTouch(cfg, ops, x.key) < |ops|
    ensures Recency(cfg, ops, [n] + s)
  {
    assert ([n] + s)[1..] == s;
  }

  lemma TouchedGoesInFront(cfg: Config, c: Lru, op: Op, key: string)
    requires Distinct(c.order) && cfg.enabled && Touches(cfg, c, op, key)
    ensures |Front(cfg, c, op)| == 1 && Front(cfg, c, op)[0].key == key
  {
  }

  lemma RestIsUntouched(cfg: Config, c: Lru, op: Op, n: Node)
    requires Distinct(c.order) && cfg.enabled && n in Drop(c.order, Gone(cfg, c, op))
    ensures !Touches(cfg, c, op, n.key)
  {
    StepShape(cfg, c, op);
    KeysOfMembers(Drop(c.order, Gone(cfg, c, op)));
    if Touches(cfg, c, op, n.key) {
      TouchedGoesInFront(cfg, c, op, n.key);
    }
  }

  lemma RecencyStep(cfg: Config, before: seq<Op>, op: Op)
    requires cfg.enabled && Recency(cfg, before, Run(cfg, before).order)
    ensures Recency(cfg, before + [op], Run(cfg, before + [op]).order)
  {
    var c, ops := Run(cfg, before), before + [op];
    var front, rest := Front(cfg, c, op), Drop(c.order, Gone(cfg, c, op));
    assert ops[..|ops| - 1] == before;
    RunWellFormed(cfg, before);
    StepShape(cfg, c, op);
    DropKeepsRecency(cfg, before, c.order, Gone(cfg, c, op));
    forall n | n in rest
      ensures !Touches(cfg, c, op, n.key)
    {
      RestIsUntouched(cfg, c, op, n);
    }
    StepKeepsRecency(cfg, ops, rest);
    if front == [] {
      assert front + rest == rest;
    } else {
      FrontIsNewest(cfg, ops, front[0], rest);
      assert front == [front[0]];
    }
  }

  // The list is in order of last use.
  lemma {:induction false} OrderIsRecency(cfg: Config, ops: seq<Op>)
    ensures Recency(cfg, ops, Run(cfg, ops).order)
  {
    DisabledIsEmpty(cfg, ops);
    if ops != [] && cfg.enabled {
      OrderIsRecency(cfg, ops[..|ops| - 1]);
      RecencyStep(cfg, ops[..|ops| - 1], ops[|ops| - 1]);
      InitAndLast(ops);
    }
  }

  // n is the least recently used node of s.
  ghost predicate Oldest(cfg: Config, ops: seq<Op>, s: seq<Node>, n: Node) {
    n in s && forall m | m in s && m != n :: LastTouch(cfg, ops, n.key) < LastTouch(cfg, ops, m.key)
  }

  lemma {:induction false} LastIsOldest(cfg: Config, ops: seq<Op>, s: seq<Node>)
    requires s != [] && Recency(cfg, ops, s)
    ensures Oldest(cfg, ops, s, s[|s| - 1])
  {
    assert s == [s[0]] + s[1..];
    if |s| > 1 {
      LastIsOldest(cfg, ops, s[1..]);
    }
  }

  lemma KeysAfterPut(cfg: Config, c: Lru, now: int, key: string, e: Entry)
    requires cfg.enabled && Distinct(c.order)
    ensures KeysOf(SpecPut(cfg, c, now, key, e).order) == {key} + (KeysOf(c.order) - Gone(cfg, c, Put(now, key, e)))
  {
    var op := Put(now, key, e);
    PutShaped(cfg, c, now, key, e);
    KeysAfterDrop(c.order, Gone(cfg, c, op));
    KeysOfFront(Front(cfg, c, op)[0], Drop(c.order, Gone(cfg, c, op)));
  }

  // A Put of a new key into a full cache removes exactly the key whose last use
  // is oldest; any other Put removes nothing.
  lemma EvictsLeastRecentlyUsed(cfg: Config, ops: seq<Op>, now: int, key: string, e: Entry)
    requires cfg.enabled
    ensures var s, t := Run(cfg, ops).order, Run(cfg, ops + [Put(now, key, e)]).order;
            if key in KeysOf(s) || |s| < Capacity(cfg)
            then KeysOf(t) == KeysOf(s) + {key}
            else Oldest(cfg, ops, s, s[|s| - 1]) && KeysOf(t) == KeysOf(s) - {s[|s| - 1].key} + {key}
  {
    var c := Run(cfg, ops);
    RunAppend(cfg, ops, Put(now, key, e));
    RunWellFormed(cfg, ops);
    KeysAfterPut(cfg, c, now, key, e);
    OrderIsRecency(cfg, ops);
    if c.order != [] {
      LastIsOldest(cfg, ops, c.order);
    }
  }

  // ---------- What stays cached ----------

  // The last entry put under key is within its time to live and, if that matters, at
  // the version in force.
  ghost predicate FreshAt(cfg: Config, ops: seq<Op>, key: string, now: int) {
    && LastPut(ops, key).Some?
    && now <= LastPut(ops, key).value.createdAt + cfg.ttl
    && (cfg.versionAware ==> LastPut(ops, key).value.indexVersion == Version(ops))
  }

  ghost predicate Cached(cfg: Config, ops: seq<Op>, key: string) {
    key in KeysOf(Run(cfg, ops).order)
  }

  lemma CachedEntry(cfg: Config, ops: seq<Op>, key: string, now: int)
    requires Cached(cfg, ops, key)
    ensures var c := Run(cfg, ops);
            && cfg.enabled && Distinct(c.order) && Find(c.order, key).Some?
            && (Stale(cfg, c.version, Find(c.order, key).value, now) <==> !FreshAt(cfg, ops, key, now))
  {
    var c := Run(cfg, ops);
    DisabledIsEmpty(cfg, ops);
    RunWellFormed(cfg, ops);
    RunVersion(cfg, ops);
    FindKey(c.order, key);
    CachedIsLastPut(cfg, ops, Node(key, Find(c.order, key).value));
  }

  // A cached key is hit exactly if it is fresh, and no other key ever is.
  lemma HitIff(cfg: Config, ops: seq<Op>, now: int, key: string)
    ensures Answer(cfg, ops, now, key).Some? <==> Cached(cfg, ops, key) && FreshAt(cfg, ops, key, now)
  {
    RunWellFormed(cfg, ops);
    FindKey(Run(cfg, ops).order, key);
    if Cached(cfg, ops, key) {
      CachedEntry(cfg, ops, key, now);
    }
  }

  // What was just put is found, with the stamps of its put, as long as it lives.
  lemma PutThenGet(cfg: Config, ops: seq<Op>, t: int, key: string, e: Entry, now: int)
    ensures Answer(cfg, ops + [Put(t, key, e)], now, key)
         == if cfg.enabled && now <= t + cfg.ttl then Some(e.(indexVersion := Version(ops), createdAt := t)) else None
  {
    RunAppend(cfg, ops, Put(t, key, e));
    RunVersion(cfg, ops);
    DisabledIsEmpty(cfg, ops);
  }

  // The key that a put of a new key into a full cache removes.
  ghost predicate IsLast(cfg: Config, ops: seq<Op>, key: string) {
    var s := Run(cfg, ops).order;
    s != [] && s[|s| - 1].key == key
  }

  // What a cached key survives: a put under it, and one of another key unless that is
  // new, the cache is full and key was used least recently; a lookup of another key,
  // and one of it while it is fresh; a cleanup while it is fresh; a new version; but
  // not the clear command.
  ghost predicate Survives(cfg: Config, ops: seq<Op>, op: Op, key: string) {
    match op
    case Get(now, k) => k != key || FreshAt(cfg, ops, key, now)
    case Put(_, k, _) =>
      k == key || Cached(cfg, ops, k) || |Run(cfg, ops).order| < Capacity(cfg) || !IsLast(cfg, ops, key)
    case SetVersion(_) => true
    case Clear => false
    case Cleanup(now) => FreshAt(cfg, ops, key, now)
  }

  lemma {:induction false} StaleKeysAre(cfg: Config, version: int, s: seq<Node>, now: int, key: string)
    requires Distinct(s) && key in KeysOf(s) && Find(s, key).Some?
    ensures key in StaleKeys(cfg, version, s, now) <==> Stale(cfg, version, Find(s, key).value, now)
  {
    TailKeys(cfg, version, s, now);
    if s[0].key != key {
      StaleKeysAre(cfg, version, s[1..], now, key);
    }
  }

  lemma TailKeys(cfg: Config, version: int, s: seq<Node>, now: int)
    requires Distinct(s) && s != []
    ensures Distinct(s[1..]) && s[0].key !in StaleKeys(cfg, version, s[1..], now)
  {
    StaleKeysAreKeys(cfg, version, s[1..], now);
    KeysOfMembers(s[1..]);
  }

  lemma {:induction false} StaleKeysAreKeys(cfg: Config, version: int, s: seq<Node>, now: int)
    ensures StaleKeys(cfg, version, s, now) <= KeysOf(s)
  {
    if s != [] {
      StaleKeysAreKeys(cfg, version, s[1..], now);
    }
  }

  lemma {:induction false} KeysOfBoth(front: seq<Node>, rest: seq<Node>)
    ensures KeysOf(front + rest) == KeysOf(front) + KeysOf(rest)
  {
    if front == [] {
      assert front + rest == rest;
    } else {
      KeysOfBoth(front[1..], rest);
      assert (front + rest)[1..] == front[1..] + rest;
    }
  }

  lemma KeysAfterStep(cfg: Config, ops: seq<Op>, op: Op)
    ensures var c := Run(cfg, ops);
            KeysOf(Run(cfg, ops + [op]).order) == KeysOf(Front(cfg, c, op)) + (KeysOf(c.order) - Gone(cfg, c, op))
  {
    var c := Run(cfg, ops);
    RunAppend(cfg, ops, op);
    RunWellFormed(cfg, ops);
    StepShape(cfg, c, op);
    KeysAfterDrop(c.order, Gone(cfg, c, op));
    KeysOfBoth(Front(cfg, c, op), Drop(c.order, Gone(cfg, c, op)));
  }

  // It survives exactly those.
  lemma StaysCachedIff(cfg: Config, ops: seq<Op>, op: Op, key: string)
    requires Cached(cfg, ops, key)
    ensures Cached(cfg, ops + [op], key) <==> Survives(cfg, ops, op, key)
  {
    var c := Run(cfg, ops);
    KeysAfterStep(cfg, ops, op);
    CachedEntry(cfg, ops, key, 0);
    match op
    case Get(now, k) =>
      CachedEntry(cfg, ops, key, now);
      KeysOfNode(cfg, c, op);
    case Put(now, k, e) =>
      KeysOfNode(cfg, c, op);
    case SetVersion(_) =>
    case Clear =>
    case Cleanup(now) =>
      CachedEntry(cfg, ops, key, now);
      StaleKeysAre(cfg, c.version, c.order, now, key);
  }

  lemma KeysOfNode(cfg: Config, c: Lru, op: Op)
    requires op.Get? || op.Put?
    ensures KeysOf(Front(cfg, c, op)) == if Front(cfg, c, op) == [] then {} else {op.key}
  {
  }

  // ---------- The counters ----------

  ghost function Lookups(cfg: Config, ops: seq<Op>, found: bool): nat {
    if ops == [] then 0 else
    var before, op := ops[..|ops| - 1], ops[|ops| - 1];
    Lookups(cfg, before, found)
    + if op.Get? && Answer(cfg, before, op.now, op.key).Some? == found then 1 else 0
  }

  // Hits and misses count the lookups of either kind, unless the cache is disabled.
  lemma {:induction false} CountersCount(cfg: Config, ops: seq<Op>)
    ensures Run(cfg, ops).hits == Lookups(cfg, ops, true)
    ensures Run(cfg, ops).misses == if cfg.enabled then Lookups(cfg, ops, false) else 0
  {
    if ops != [] {
      CountersCount(cfg, ops[..|ops| - 1]);
    }
  }

  // ---------- Inclusion ----------

  // The same cache, except that large has room for at least as many entries.
  ghost predicate SameButLarger(small: Config, large: Config) {
    large == small.(maxEntries := large.maxEntries) && small.maxEntries <= large.maxEntries
  }

  // a is b without the keys x, and has no more room to spare.
  ghost predicate Smaller(small: Config, large: Config, a: Lru, b: Lru, x: set<string>) {
    && WellFormed(small, a) && WellFormed(large, b)
    && a.version == b.version
    && a.order == Drop(b.order, x)
    && |b.order| - |a.order| <= Capacity(large) - Capacity(small)
  }

  // A hit of the smaller cache is the same hit of the larger one.
  lemma SmallerHits(small: Config, large: Config, a: Lru, b: Lru, x: set<string>, now: int, key: string)
    requires SameButLarger(small, large) && Smaller(small, large, a, b, x)
    ensures key in KeysOf(a.order) ==> Find(a.order, key) == Find(b.order, key)
    ensures var r := SpecGet(small, a, now, key).1;
            r.Some? ==> SpecGet(large, b, now, key).1 == r
  {
    FindKey(a.order, key);
    FindKey(b.order, key);
    KeysAfterDrop(b.order, x);
  }

  lemma {:induction false} LastSurvives(s: seq<Node>, x: set<string>)
    requires s != [] && s[|s| - 1].key !in x
    ensures Drop(s, x) != [] && Drop(s, x)[|Drop(s, x)| - 1] == s[|s| - 1]
  {
    if |s| > 1 {
      LastSurvives(s[1..], x);
    }
  }

  // When the larger cache is full, so is the smaller one, and if it also holds the
  // node to be evicted that is its own last one too.
  lemma EvictIsCovered(small: Config, large: Config, a: Lru, b: Lru, x: set<string>)
    requires SameButLarger(small, large) && Smaller(small, large, a, b, x)
    requires b.order != [] && |b.order| >= large.maxEntries && b.order[|b.order| - 1].key !in x
    ensures |a.order| >= small.maxEntries && a.order != [] && a.order[|a.order| - 1] == b.order[|b.order| - 1]
  {
    LastSurvives(b.order, x);
  }

  // A put of a key that the larger cache holds.
  lemma {:induction false} ReplaceIsCovered(small: Config, large: Config, a: Lru, b: Lru, x: set<string>,
                                            now: int, key: string, e: Entry)
    requires SameButLarger(small, large) && Smaller(small, large, a, b, x) && key in KeysOf(b.order)
    ensures Gone(large, b, Put(now, key, e)) <= x + Gone(small, a, Put(now, key, e))
  {
    KeysAfterDrop(b.order, x);
  }

  // A put of a new key into a full larger cache.
  lemma {:induction false} FullIsCovered(small: Config, large: Config, a: Lru, b: Lru, x: set<string>,
                                         now: int, key: string, e: Entry)
    requires SameButLarger(small, large) && Smaller(small, large, a, b, x) && key !in KeysOf(b.order)
    requires b.order != [] && |b.order| >= large.maxEntries
    ensures Gone(large, b, Put(now, key, e)) <= x + Gone(small, a, Put(now, key, e))
  {
    KeysAfterDrop(b.order, x);
    if b.order[|b.order| - 1].key !in x {
      EvictIsCovered(small, large, a, b, x);
    }
  }

  lemma {:induction false} PutIsCovered(small: Config, large: Config, a: Lru, b: Lru, x: set<string>,
                                        now: int, key: string, e: Entry)
    requires SameButLarger(small, large) && Smaller(small, large, a, b, x)
    ensures Gone(large, b, Put(now, key, e)) <= x + Gone(small, a, Put(now, key, e))
  {
    if key in KeysOf(b.order) {
      ReplaceIsCovered(small, large, a, b, x, now, key, e);
    } else if b.order != [] && |b.order| >= large.maxEntries {
      FullIsCovered(small, large, a, b, x, now, key, e);
    }
  }

  lemma StaleIsCovered(small: Config, large: Config, a: Lru, b: Lru, x: set<string>, now: int)
    requires SameButLarger(small, large) && Smaller(small, large, a, b, x)
    ensures StaleKeys(large, b.version, b.order, now) <= x + StaleKeys(small, a.version, a.order, now)
  {
    KeysAfterDrop(b.order, x);
    StaleKeysMembers(small, a.version, a.order, now);
    StaleKeysMembers(large, b.version, b.order, now);
    forall k | k in StaleKeys(large, b.version, b.order, now) && k !in x
      ensures k in StaleKeys(small, a.version, a.order, now)
    {
      KeysOfMembers(b.order);
      var n :| n in b.order && n.key == k;
      assert n in a.order;
    }
  }

  // What the larger cache drops, the smaller one drops or never had.
  lemma GoneIsCovered(small: Config, large: Config, a: Lru, b: Lru, x: set<string>, op: Op)
    requires SameButLarger(small, large) && Smaller(small, large, a, b, x)
    ensures Gone(large, b, op) * KeysOf(b.order) <= x + Gone(small, a, op)
  {
    match op
    case Get(_, _) =>
    case Put(now, key, e) => PutIsCovered(small, large, a, b, x, now, key, e);
    case SetVersion(_) =>
    case Clear => KeysAfterDrop(b.order, x);
    case Cleanup(now) => StaleIsCovered(small, large, a, b, x, now);
  }

  lemma {:induction false} SameDrop(s: seq<Node>, x: set<string>, y: set<string>)
    requires forall k | k in KeysOf(s) :: k in x <==> k in y
    ensures Drop(s, x) == Drop(s, y)
  {
    if s != [] {
      SameDrop(s[1..], x, y);
    }
  }

  // Dropping keeps inclusion when the drops are covered.
  lemma RestIncluded(a: seq<Node>, b: seq<Node>, x: set<string>, ga: set<string>, gb: set<string>)
    requires a == Drop(b, x) && gb * KeysOf(b) <= x + ga
    ensures Drop(a, ga) == Drop(Drop(b, gb), x + ga)
  {
    DropDrop(b, x, ga);
    DropDrop(b, gb, x + ga);
    SameDrop(b, x + ga, gb + (x + ga));
  }

  // The order part of one step.
  lemma StepIncluded(small: Config, large: Config, a: Lru, b: Lru, x: set<string>, op: Op) returns (y: set<string>)
    requires SameButLarger(small, large) && Smaller(small, large, a, b, x)
    ensures Apply(small, a, op).order == Drop(Apply(large, b, op).order, y)
  {
    var fa, fb := Front(small, a, op), Front(large, b, op);
    var ga, gb := Gone(small, a, op), Gone(large, b, op);
    StepShape(small, a, op);
    StepShape(large, b, op);
    GoneIsCovered(small, large, a, b, x, op);
    RestIncluded(a.order, b.order, x, ga, gb);
    var rest := Drop(b.order, gb);
    if op.Get? {
      SmallerHits(small, large, a, b, x, op.now, op.key);
    }
    if fb == [] {
      y := x + ga;
      assert fb + rest == rest && fa + Drop(a.order, ga) == Drop(a.order, ga);
    } else {
      assert fb == [fb[0]];
      y := if fa == [] then x + ga + {fb[0].key} else x + ga - {fb[0].key};
      SameDrop(rest, x + ga, y);
      DropFront(fb[0], rest, y);
      assert fa == [] ==> fa + Drop(a.order, ga) == Drop(a.order, ga) == [] + Drop(rest, y);
    }
  }

  lemma CardinalityGap<T>(ka: set<T>, kb: set<T>, pa: set<T>, pb: set<T>)
    requires ka <= kb && pa <= pb && pb - pa <= kb - ka
    ensures |pb| - |pa| <= |kb| - |ka|
  {
    assert pb == pa + (pb - pa) && kb == ka + (kb - ka);
    Subset(pb - pa, kb - ka);
  }

  lemma Subset<T>(a: set<T>, b: set<T>)
    requires a <= b
    ensures |a| <= |b|
  {
    assert b == a + (b - a);
  }

  lemma CleanupSlack(a: seq<Node>, b: seq<Node>, x: set<string>, ga: set<string>, gb: set<string>)
    requires Distinct(a) && Distinct(b) && a == Drop(b, x)
    requires gb * KeysOf(b) <= x + ga && ga * KeysOf(a) <= gb
    ensures |Drop(b, gb)| - |Drop(a, ga)| <= |b| - |a|
  {
    KeysAfterDrop(b, x);
    KeysAfterDrop(a, ga);
    KeysAfterDrop(b, gb);
    DropKeepsDistinct(a, ga);
    DropKeepsDistinct(b, gb);
    SizeOfKeys(a);
    SizeOfKeys(b);
    SizeOfKeys(Drop(a, ga));
    SizeOfKeys(Drop(b, gb));
    KeyGap(KeysOf(b), x, ga, gb);
  }

  lemma KeyGap(kb: set<string>, x: set<string>, ga: set<string>, gb: set<string>)
    requires gb * kb <= x + ga && ga * (kb - x) <= gb
    ensures |kb - gb| - |(kb - x) - ga| <= |kb| - |kb - x|
  {
    var ka := kb - x;
    forall k | k in ka - ga
      ensures k in kb - gb
    {
      assert k in gb ==> k in gb * kb;
    }
    forall k | k in (kb - gb) - (ka - ga)
      ensures k in kb - ka
    {
      assert k in ka ==> k in ga * ka;
    }
    CardinalityGap(ka, kb, ka - ga, kb - gb);
  }

  lemma GetSize(cfg: Config, c: Lru, now: int, key: string)
    requires Distinct(c.order)
    ensures var e := Find(c.order, key);
            |SpecGet(cfg, c, now, key).0.order|
            == |c.order| - if cfg.enabled && e.Some? && Stale(cfg, c.version, e.value, now) then 1 else 0
  {
    DropOneSize(c.order, key);
    FindKey(c.order, key);
  }

  lemma PutSize(cfg: Config, c: Lru, now: int, key: string, e: Entry)
    requires WellFormed(cfg, c)
    ensures |SpecPut(cfg, c, now, key, e).order|
            == |c.order| + if cfg.enabled && key !in KeysOf(c.order) && |c.order| < Capacity(cfg) then 1 else 0
  {
    DropOneSize(c.order, key);
    KeysOfMembers(c.order);
  }

  // The size part of one step.
  lemma StepSlack(small: Config, large: Config, a: Lru, b: Lru, x: set<string>, op: Op)
    requires SameButLarger(small, large) && Smaller(small, large, a, b, x)
    ensures |Apply(large, b, op).order| - |Apply(small, a, op).order| <= Capacity(large) - Capacity(small)
  {
    KeysAfterDrop(b.order, x);
    match op
    case Get(now, key) =>
      GetSize(small, a, now, key);
      GetSize(large, b, now, key);
      FindKey(a.order, key);
      SmallerHits(small, large, a, b, x, now, key);
    case Put(now, key, e) =>
      PutSize(small, a, now, key, e);
      PutSize(large, b, now, key, e);
    case SetVersion(_) =>
    case Clear =>
    case Cleanup(now) =>
      GoneIsCovered(small, large, a, b, x, op);
      StaleKeysMembers(small, a.version, a.order, now);
      StaleKeysMembers(large, b.version, b.order, now);
      KeysOfMembers(a.order);
      CleanupSlack(a.order, b.order, x, Gone(small, a, op), Gone(large, b, op));
  }

  lemma StepSmaller(small: Config, large: Config, a: Lru, b: Lru, x: set<string>, op: Op) returns (y: set<string>)
    requires SameButLarger(small, large) && Smaller(small, large, a, b, x)
    ensures Smaller(small, large, Apply(small, a, op), Apply(large, b, op), y)
  {
    y := StepIncluded(small, large, a, b, x, op);
    StepSlack(small, large, a, b, x, op);
    ApplyKeepsWellFormed(small, a, op);
    ApplyKeepsWellFormed(large, b, op);
  }

  // Inclusion: on every run the smaller cache is the larger one without some
  // keys, with equal entries in the same order.
  lemma {:induction false} LargerIncludesSmaller(small: Config, large: Config, ops: seq<Op>) returns (x: set<string>)
    requires SameButLarger(small, large)
    ensures Smaller(small, large, Run(small, ops), Run(large, ops), x)
  {
    if ops == [] {
      x := {};
    } else {
      var before, op := ops[..|ops| - 1], ops[|ops| - 1];
      x := LargerIncludesSmaller(small, large, before);
      x := StepSmaller(small, large, Run(small, before), Run(large, before), x, op);
    }
  }

  // So the larger cache hits, with the same entry, whenever the smaller one does.
  lemma LargerHitsToo(small: Config, large: Config, ops: seq<Op>, now: int, key: string)
    requires SameButLarger(small, large)
    ensures var r := Answer(small, ops, now, key);
            r.Some? ==> Answer(large, ops, now, key) == r
  {
    var x := LargerIncludesSmaller(small, large, ops);
    SmallerHits(small, large, Run(small, ops), Run(large, ops), x, now, key);
  }
}
