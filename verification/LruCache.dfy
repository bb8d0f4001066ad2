// cache: the versioned, expiring LRU cache, and the recency sequence it refines.

module LruCache {
  import opened Model

  // An index version is the second its reindex ran; the code compares versions
  // for equality only.
  const NO_VERSION := -1

  // cache.Entry. Put overwrites the last two fields.
  datatype Entry = Entry(results: seq<Hit>, query: string, mode: string, collection: string,
                         fallbackTriggered: bool, degraded: bool, degradeReason: string,
                         indexVersion: int, createdAt: int)

  datatype Config = Config(enabled: bool, maxEntries: int, ttl: int, versionAware: bool)

  // cacheItem
  datatype Node = Node(key: string, entry: Entry)

  // ---------- Specification: one sequence, most recent first ----------

  datatype Lru = Lru(order: seq<Node>, version: int, hits: nat, misses: nat)

  const EMPTY := Lru([], NO_VERSION, 0, 0)

  ghost function KeysOf(s: seq<Node>): set<string> {
    if s == [] then {} else {s[0].key} + KeysOf(s[1..])
  }

  ghost predicate Distinct(s: seq<Node>) {
    forall i, j :: 0 <= i < j < |s| ==> s[i].key != s[j].key
  }

  function Drop(s: seq<Node>, ks: set<string>): seq<Node> {
    if s == [] then [] else (if s[0].key in ks then [] else [s[0]]) + Drop(s[1..], ks)
  }

  ghost function Find(s: seq<Node>, key: string): Option<Entry> {
    if s == [] then None else if s[0].key == key then Some(s[0].entry) else Find(s[1..], key)
  }

  predicate Stale(cfg: Config, version: int, e: Entry, now: int) {
    now - e.createdAt > cfg.ttl || (cfg.versionAware && e.indexVersion != version)
  }

  ghost function StaleKeys(cfg: Config, version: int, s: seq<Node>, now: int): set<string> {
    if s == [] then {} else
    (if Stale(cfg, version, s[0].entry, now) then {s[0].key} else {}) + StaleKeys(cfg, version, s[1..], now)
  }

  ghost function Stamped(e: Entry, version: int, now: int): Entry {
    e.(indexVersion := version, createdAt := now)
  }

  function AllButLast<T>(s: seq<T>): seq<T> {
    if s == [] then [] else s[..|s| - 1]
  }

  ghost function SpecGet(cfg: Config, c: Lru, now: int, key: string): (Lru, Option<Entry>) {
    if !cfg.enabled then (c, None) else
    match Find(c.order, key)
    case None => (c.(misses := c.misses + 1), None)
    case Some(e) =>
      if Stale(cfg, c.version, e, now)
      then (c.(order := Drop(c.order, {key}), misses := c.misses + 1), None)
      else (c.(order := [Node(key, e)] + Drop(c.order, {key}), hits := c.hits + 1), Some(e))
  }

  ghost function SpecPut(cfg: Config, c: Lru, now: int, key: string, e: Entry): Lru {
    if !cfg.enabled then c else
    var rest := if key in KeysOf(c.order) then Drop(c.order, {key})
                else if |c.order| >= cfg.maxEntries then AllButLast(c.order)
                else c.order;
    c.(order := [Node(key, Stamped(e, c.version, now))] + rest)
  }

  ghost function SpecCleanup(cfg: Config, c: Lru, now: int): Lru {
    c.(order := Drop(c.order, StaleKeys(cfg, c.version, c.order, now)))
  }

  // The map and the list hold the same items.
  ghost predicate Agree(s: seq<Node>, items: map<string, Node>) {
    && Distinct(s)
    && items.Keys == KeysOf(s)
    && forall n :: n in s ==> n.key in items && items[n.key] == n
  }

  // ---------- The code ----------

  class Cache {
    const cfg: Config
    var items: map<string, Node>
    var order: seq<Node>
    var version: int
    var hits: nat
    var misses: nat

    ghost predicate Valid()
      reads this
    {
      Agree(order, items)
    }

    ghost function Abs(): Lru
      reads this
    {
      Lru(order, version, hits, misses)
    }

    constructor (config: Config)
      ensures Valid() && Abs() == EMPTY && cfg == config
    {
      cfg := config;
      items, order, version, hits, misses := map[], [], NO_VERSION, 0, 0;
    }

    method Get(key: string, now: int) returns (r: Option<Entry>)
      requires Valid()
      modifies this
      ensures Valid()
      ensures Abs() == SpecGet(cfg, old(Abs()), now, key).0
      ensures r == SpecGet(cfg, old(Abs()), now, key).1
    {
      if !cfg.enabled {
        return None;
      }
      Lookup(order, items, key);
      ghost var spec := SpecGet(cfg, Abs(), now, key);
      if key !in items {
        misses := misses + 1;
        return None;
      }
      var item := items[key];
      if now - item.entry.createdAt > cfg.ttl {
        DropStale(key);
        return None;
      }
      if cfg.versionAware && item.entry.indexVersion != version {
        DropStale(key);
        return None;
      }
      MoveToFront(item);
      hits := hits + 1;
      return Some(item.entry);
    }

    method DropStale(key: string)
      requires Valid()
      modifies this
      ensures Valid()
      ensures Abs() == old(Abs()).(order := Drop(old(order), {key}), misses := old(misses) + 1)
    {
      Remove(key);
      misses := misses + 1;
    }

    method Put(key: string, entry: Entry, now: int)
      requires Valid()
      modifies this
      ensures Valid()
      ensures Abs() == SpecPut(cfg, old(Abs()), now, key, entry)
    {
      if !cfg.enabled {
        return;
      }
      var stamped := entry.(indexVersion := version, createdAt := now);
      Lookup(order, items, key);
      if key in items {
        MoveToFront(items[key]);
        var item := Node(key, stamped);
        ReplaceFront(item);
        return;
      }
      if |order| >= cfg.maxEntries {
        Evict();
      }
      PushFront(Node(key, stamped));
    }

    method SetVersion(v: int)
      requires Valid()
      modifies this`version
      ensures Valid() && Abs() == old(Abs()).(version := v)
    {
      version := v;
    }

    method Clear()
      requires Valid()
      modifies this
      ensures Valid() && Abs() == old(Abs()).(order := [])
    {
      items := map[];
      order := [];
    }

    method Cleanup(now: int) returns (removed: nat)
      requires Valid()
      modifies this
      ensures Valid()
      ensures Abs() == SpecCleanup(cfg, old(Abs()), now)
      ensures removed == |old(order)| - |order|
    {
      removed := 0;
      ghost var was := order;
      ghost var dropped: set<string> := {};
      var todo := items.Keys;
      DropNothing(order, {});
      StaleKeysMembers(cfg, version, order, now);
      while todo != {}
        invariant Valid() && Lru(order, version, hits, misses) == old(Abs()).(order := Drop(was, dropped))
        invariant todo <= items.Keys
        invariant Swept(cfg, version, was, now, dropped, todo)
        invariant removed == |was| - |order|
        decreases todo
      {
        var key :| key in todo;
        Lookup(order, items, key);
        SweepOne(cfg, version, was, now, dropped, todo, items[key]);
        DropDrop(was, dropped, {key});
        todo := todo - {key};
        var gone := RemoveIfStale(key, now);
        if gone {
          dropped := dropped + {key};
          removed := removed + 1;
        }
      }
      assert dropped == StaleKeys(cfg, version, was, now);
    }

    // The body of Cleanup's loop.
    method RemoveIfStale(key: string, now: int) returns (gone: bool)
      requires Valid() && key in items
      modifies `items, `order
      ensures Valid()
      ensures gone <==> Stale(cfg, version, old(items)[key].entry, now)
      ensures order == if gone then Drop(old(order), {key}) else old(order)
      ensures items == if gone then old(items) - {key} else old(items)
      ensures gone ==> |order| == |old(order)| - 1
    {
      var item := items[key];
      var expired := now - item.entry.createdAt > cfg.ttl;
      var versionMismatch := cfg.versionAware && item.entry.indexVersion != version;
      gone := expired || versionMismatch;
      if gone {
        Remove(key);
      }
    }

    // Stats
    method Stats() returns (size: nat, h: nat, m: nat)
      requires Valid()
      ensures size == |items| && h == hits && m == misses
    {
      SizeOfKeys(order);
      return |order|, hits, misses;
    }

    method Remove(key: string)
      requires Valid()
      modifies `items, `order
      ensures Valid()
      ensures order == Drop(old(order), {key}) && items == old(items) - {key}
      ensures key in old(items) ==> |order| == |old(order)| - 1
    {
      AgreeDrop(order, items, key);
      if key in items {
        order := Drop(order, {key});
        items := items - {key};
      }
    }

    method Evict()
      requires Valid()
      modifies `items, `order
      ensures Valid()
      ensures order == AllButLast(old(order)) && items.Keys <= old(items).Keys
    {
      if order == [] {
        return;
      }
      var back := order[|order| - 1];
      LastIsLast(order);
      Remove(back.key);
    }

    method MoveToFront(item: Node)
      requires Valid() && item.key in items && items[item.key] == item
      modifies `order
      ensures Valid()
      ensures order == [item] + Drop(old(order), {item.key})
    {
      AgreeMove(order, items, item);
      order := [item] + Drop(order, {item.key});
    }

    // elem.Value.(*cacheItem).entry = entry, for the element at the front.
    method ReplaceFront(item: Node)
      requires Valid() && order != [] && order[0].key == item.key
      modifies `items, `order
      ensures Valid()
      ensures order == [item] + old(order)[1..]
    {
      AgreeReplace(order, items, item);
      order := [item] + order[1..];
      items := items[item.key := item];
    }

    method PushFront(item: Node)
      requires Valid() && item.key !in items
      modifies `items, `order
      ensures Valid()
      ensures order == [item] + old(order)
    {
      AgreePush(order, items, item);
      order := [item] + order;
      items := items[item.key := item];
    }
  }

  lemma AgreeDrop(s: seq<Node>, items: map<string, Node>, key: string)
    requires Agree(s, items)
    ensures Agree(Drop(s, {key}), items - {key})
    ensures |Drop(s, {key})| == |s| - if key in items then 1 else 0
    ensures key !in items ==> Drop(s, {key}) == s && items - {key} == items
  {
    KeysAfterDrop(s, {key});
    DropKeepsDistinct(s, {key});
    DropOneSize(s, key);
    if key !in items {
      DropNothing(s, {key});
    }
  }

  lemma AgreePush(s: seq<Node>, items: map<string, Node>, n: Node)
    requires Agree(s, items) && n.key !in items
    ensures Agree([n] + s, items[n.key := n])
  {
    KeysOfFront(n, s);
    KeysOfMembers(s);
  }

  lemma KeysOfFront(n: Node, s: seq<Node>)
    ensures KeysOf([n] + s) == {n.key} + KeysOf(s)
  {
    assert ([n] + s)[1..] == s;
  }

  lemma AgreeMove(s: seq<Node>, items: map<string, Node>, n: Node)
    requires Agree(s, items) && n.key in items && items[n.key] == n
    ensures Agree([n] + Drop(s, {n.key}), items)
  {
    AgreeDrop(s, items, n.key);
    AgreePush(Drop(s, {n.key}), items - {n.key}, n);
    assert (items - {n.key})[n.key := n] == items;
  }

  lemma AgreeReplace(s: seq<Node>, items: map<string, Node>, n: Node)
    requires Agree(s, items) && s != [] && s[0].key == n.key
    ensures Agree([n] + s[1..], items[n.key := n])
  {
    AgreeTail(s, items);
    AgreePush(s[1..], items - {n.key}, n);
    assert (items - {n.key})[n.key := n] == items[n.key := n];
  }

  lemma AgreeTail(s: seq<Node>, items: map<string, Node>)
    requires Agree(s, items) && s != []
    ensures Agree(s[1..], items - {s[0].key})
  {
    var t := s[1..];
    assert s == [s[0]] + t;
    KeysOfFront(s[0], t);
    forall x | x in t
      ensures x in s && x.key != s[0].key
    {
    }
    KeysOfMembers(t);
  }

  // Cleanup has looked at every key but todo and removed dropped.
  ghost predicate Swept(cfg: Config, version: int, s: seq<Node>, now: int, dropped: set<string>, todo: set<string>) {
    dropped <= StaleKeys(cfg, version, s, now) <= dropped + todo
  }

  lemma SweepOne(cfg: Config, version: int, s: seq<Node>, now: int,
                 dropped: set<string>, todo: set<string>, n: Node)
    requires Distinct(s) && n in Drop(s, dropped)
    requires Swept(cfg, version, s, now, dropped, todo)
    ensures if Stale(cfg, version, n.entry, now)
            then Swept(cfg, version, s, now, dropped + {n.key}, todo - {n.key})
            else Swept(cfg, version, s, now, dropped, todo - {n.key})
  {
    KeysAfterDrop(s, dropped);
    StaleInDrop(cfg, version, s, dropped, n, now);
  }

  // ---------- Facts about Drop and Find ----------

  lemma {:induction false} KeysOfMembers(s: seq<Node>)
    ensures forall n | n in s :: n.key in KeysOf(s)
    ensures forall k | k in KeysOf(s) :: exists n :: n in s && n.key == k
  {
    if s != [] {
      KeysOfMembers(s[1..]);
      assert s == [s[0]] + s[1..];
      forall k | k in KeysOf(s)
        ensures exists n :: n in s && n.key == k
      {
        if k != s[0].key {
          var n :| n in s[1..] && n.key == k;
          assert n in s;
        }
      }
    }
  }

  lemma {:induction false} StaleKeysMembers(cfg: Config, version: int, s: seq<Node>, now: int)
    requires Distinct(s)
    ensures forall n | n in s :: n.key in StaleKeys(cfg, version, s, now) <==> Stale(cfg, version, n.entry, now)
    ensures StaleKeys(cfg, version, s, now) <= KeysOf(s)
  {
    if s != [] {
      StaleKeysMembers(cfg, version, s[1..], now);
      KeysOfMembers(s[1..]);
      assert s == [s[0]] + s[1..];
    }
  }

  lemma {:induction false} KeysAfterDrop(s: seq<Node>, ks: set<string>)
    ensures forall n :: n in Drop(s, ks) <==> n in s && n.key !in ks
    ensures KeysOf(Drop(s, ks)) == KeysOf(s) - ks
  {
    if s != [] {
      KeysAfterDrop(s[1..], ks);
      assert s == [s[0]] + s[1..];
      if s[0].key in ks {
        assert Drop(s, ks) == Drop(s[1..], ks);
      } else {
        KeysOfFront(s[0], Drop(s[1..], ks));
      }
    }
  }

  lemma {:induction false} DropKeepsDistinct(s: seq<Node>, ks: set<string>)
    requires Distinct(s)
    ensures Distinct(Drop(s, ks))
  {
    if s != [] {
      DropKeepsDistinct(s[1..], ks);
      KeysAfterDrop(s[1..], ks);
      forall n | n in Drop(s[1..], ks)
        ensures n.key != s[0].key
      {
        assert n in s[1..];
      }
    }
  }

  lemma {:induction false} DropNothing(s: seq<Node>, ks: set<string>)
    requires KeysOf(s) !! ks
    ensures Drop(s, ks) == s
  {
    if s != [] {
      DropNothing(s[1..], ks);
    }
  }

  lemma {:induction false} DropDrop(s: seq<Node>, x: set<string>, y: set<string>)
    ensures Drop(Drop(s, x), y) == Drop(s, x + y)
  {
    if s != [] {
      DropDrop(s[1..], x, y);
      if s[0].key in x {
        assert [] + Drop(s[1..], x) == Drop(s[1..], x);
      } else {
        DropFront(s[0], Drop(s[1..], x), y);
      }
    }
  }

  lemma DropFront(n: Node, s: seq<Node>, ks: set<string>)
    ensures Drop([n] + s, ks) == (if n.key in ks then [] else [n]) + Drop(s, ks)
  {
    assert ([n] + s)[1..] == s;
  }

  lemma {:induction false} DropOneSize(s: seq<Node>, key: string)
    requires Distinct(s)
    ensures |Drop(s, {key})| == |s| - if key in KeysOf(s) then 1 else 0
  {
    if s != [] {
      assert s == [s[0]] + s[1..];
      DropOneSize(s[1..], key);
      KeysOfMembers(s[1..]);
    }
  }

  lemma {:induction false} FindKey(s: seq<Node>, key: string)
    requires Distinct(s)
    ensures Find(s, key).Some? <==> key in KeysOf(s)
    ensures forall n :: n in s && n.key == key ==> Find(s, key) == Some(n.entry)
    ensures Find(s, key).Some? ==> Node(key, Find(s, key).value) in s
  {
    if s != [] {
      assert s == [s[0]] + s[1..];
      FindKey(s[1..], key);
      KeysOfMembers(s[1..]);
    }
  }

  lemma Lookup(s: seq<Node>, items: map<string, Node>, key: string)
    requires Agree(s, items)
    ensures key !in items ==> Find(s, key) == None
    ensures key in items ==> items[key] in s && items[key].key == key && Find(s, key) == Some(items[key].entry)
  {
    FindKey(s, key);
  }

  lemma {:induction false} LastIsLast(s: seq<Node>)
    requires Distinct(s) && s != []
    ensures Drop(s, {s[|s| - 1].key}) == AllButLast(s)
  {
    if |s| > 1 {
      LastIsLast(s[1..]);
      assert s[0].key != s[|s| - 1].key;
      assert AllButLast(s) == [s[0]] + AllButLast(s[1..]);
    }
  }

  lemma StaleInDrop(cfg: Config, version: int, s: seq<Node>, ks: set<string>, n: Node, now: int)
    requires Distinct(s) && n in Drop(s, ks)
    ensures n.key in StaleKeys(cfg, version, s, now) <==> Stale(cfg, version, n.entry, now)
  {
    KeysAfterDrop(s, ks);
    StaleKeysMembers(cfg, version, s, now);
  }

  lemma {:induction false} SizeOfKeys(s: seq<Node>)
    requires Distinct(s)
    ensures |KeysOf(s)| == |s|
  {
    if s != [] {
      SizeOfKeys(s[1..]);
      KeysOfMembers(s[1..]);
    }
  }
}
