// What the result cache stores of a search, and what a hit makes of it.

module Replay {
  import opened Text
  import opened LruCache
  import opened SearchSpec

  // strings.Join(names, ",")
  function Join(names: seq<string>): string {
    if names == [] then "" else if |names| == 1 then names[0] else names[0] + [','] + Join(names[1..])
  }

  // strings.Split(s, ",")
  function Split(s: string): (parts: seq<string>)
    ensures parts != []
    ensures forall p | p in parts :: ',' !in p
  {
    if s == [] then [""]
    else
      var rest := Split(s[1..]);
      if s[0] == ',' then [""] + rest else [[s[0]] + rest[0]] + rest[1..]
  }

  // The trimmed, non-empty parts.
  function Tidy(parts: seq<string>): (names: seq<string>) {
    if parts == [] then [] else
    var p := TrimSpace(parts[0]);
    (if p == "" then [] else [p]) + Tidy(parts[1..])
  }

  // The collections a hit reports for a stored collection text.
  function SplitCollections(stored: string): seq<string> {
    if ',' in stored then Tidy(Split(stored)) else [stored]
  }

  // What Search stores, before Put stamps it.
  function EntryOf(key: string, r: SearchResult): Entry {
    Entry(r.results, key, r.mode, Join(r.collections), r.fallbackTriggered, r.degraded, r.degradeReason, NO_VERSION, 0)
  }

  // What Search answers from a hit.
  function Replayed(e: Entry): SearchResult {
    SearchResult(e.results, e.mode, SplitCollections(e.collection), e.fallbackTriggered, true, e.degraded,
                 e.degradeReason)
  }

  // ---------- Split undoes Join ----------

  lemma {:induction false} SplitPlain(s: string)
    requires ',' !in s
    ensures Split(s) == [s]
  {
    if s != [] {
      SplitPlain(s[1..]);
      assert [s[0]] + s[1..] == s;
    }
  }

  lemma {:induction false} SplitFirst(a: string, rest: string)
    requires ',' !in a
    ensures Split(a + [','] + rest) == [a] + Split(rest)
  {
    var s := a + [','] + rest;
    if a == [] {
      assert s[1..] == rest;
    } else {
      SplitFirst(a[1..], rest);
      assert s[1..] == a[1..] + [','] + rest;
      assert [a[0]] + a[1..] == a;
    }
  }

  lemma {:induction false} SplitJoin(names: seq<string>)
    requires names != [] && forall n | n in names :: ',' !in n
    ensures Split(Join(names)) == names
  {
    if |names| == 1 {
      SplitPlain(names[0]);
    } else {
      SplitJoin(names[1..]);
      SplitFirst(names[0], Join(names[1..]));
      assert [names[0]] + names[1..] == names;
    }
  }

  predicate TidyName(n: string) {
    n != "" && TrimSpace(n) == n
  }

  lemma {:induction false} TidyKeeps(parts: seq<string>)
    requires forall n | n in parts :: TidyName(n)
    ensures Tidy(parts) == parts
  {
    if parts != [] {
      TidyKeeps(parts[1..]);
      assert parts[0] in parts && TidyName(parts[0]);
      assert [parts[0]] + parts[1..] == parts;
    }
  }

  lemma TrimKeepsOut(s: string, c: char)
    ensures c !in s ==> c !in TrimSpace(s)
  {
  }

  lemma {:induction false} TidyMakes(parts: seq<string>)
    requires forall n | n in parts :: ',' !in n
    ensures forall n | n in Tidy(parts) :: TidyName(n) && ',' !in n
  {
    if parts != [] {
      TidyMakes(parts[1..]);
      TrimSpaceIdempotent(parts[0]);
      TrimKeepsOut(parts[0], ',');
      var p := TrimSpace(parts[0]);
      assert Tidy(parts) == if p == "" then Tidy(parts[1..]) else [p] + Tidy(parts[1..]);
    }
  }

  lemma {:induction false} JoinHasComma(names: seq<string>)
    ensures |names| >= 2 ==> ',' in Join(names)
  {
  }

  // The reported collections are the searched ones exactly when there was one
  // comma-free name, or several tidy comma-free names. (None is reported as a
  // single empty name.)
  lemma CollectionsRoundTripIff(names: seq<string>)
    ensures SplitCollections(Join(names)) == names <==>
              && names != []
              && (forall n | n in names :: ',' !in n)
              && (|names| >= 2 ==> forall n | n in names :: TidyName(n))
    ensures names == [] ==> SplitCollections(Join(names)) == [""]
  {
    JoinHasComma(names);
    var joined := Join(names);
    if ',' in joined {
      TidyMakes(Split(joined));
    }
    if names != [] && forall n | n in names :: ',' !in n {
      SplitJoin(names);
      if |names| >= 2 && forall n | n in names :: TidyName(n) {
        TidyKeeps(names);
      }
    }
  }

  // A hit replays everything but the list of collections, which goes through
  // Join and Split, and says that it is a hit.
  lemma ReplayIsFaithful(key: string, r: SearchResult, version: int, now: int)
    ensures var replay := Replayed(EntryOf(key, r).(indexVersion := version, createdAt := now));
            replay == r.(collections := SplitCollections(Join(r.collections)), cacheHit := true)
  {
  }
}
