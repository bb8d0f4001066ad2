// orchestrator: EnsureCollections and syncCollectionContexts, which bring the
// collections and contexts registered with the executor to the configured ones.

module Reconcile {
  import opened Model
  import opened Text

  datatype Col = Col(name: string, path: string, mask: string, context: string)

  datatype Mutation =
    | AddCollection(path: string, name: string, mask: string)
    | AddContext(path: string, description: string)
    | RemoveContext(path: string)

  // ---------- The executor's side ----------

  // Call number k fails if fails(k), and then changes nothing. Adding a context to
  // a path replaces the one it had.
  class Registry {
    const fails: nat -> bool
    var calls: nat
    var collections: set<string>
    var contexts: map<string, string>
    var log: seq<Mutation>

    constructor (fails: nat -> bool, collections: set<string>, contexts: map<string, string>)
      ensures this.fails == fails && this.collections == collections && this.contexts == contexts
      ensures calls == 0 && log == []
    {
      this.fails, this.collections, this.contexts := fails, collections, contexts;
      calls, log := 0, [];
    }

    method CollectionList() returns (r: Option<set<string>>)
      modifies `calls
      ensures calls == old(calls) + 1
      ensures r == if fails(old(calls)) then None else Some(collections)
    {
      r := if fails(calls) then None else Some(collections);
      calls := calls + 1;
    }

    method CollectionAdd(path: string, name: string, mask: string) returns (ok: bool)
      modifies `calls, `log, `collections
      ensures calls == old(calls) + 1 && log == old(log) + [AddCollection(path, name, mask)]
      ensures ok == !fails(old(calls))
      ensures collections == if ok then old(collections) + {name} else old(collections)
    {
      ok := !fails(calls);
      calls, log := calls + 1, log + [AddCollection(path, name, mask)];
      if ok {
        collections := collections + {name};
      }
    }

    method ContextList() returns (r: Option<map<string, string>>)
      modifies `calls
      ensures calls == old(calls) + 1
      ensures r == if fails(old(calls)) then None else Some(contexts)
    {
      r := if fails(calls) then None else Some(contexts);
      calls := calls + 1;
    }

    method ContextAdd(path: string, description: string) returns (ok: bool)
      modifies `calls, `log, `contexts
      ensures calls == old(calls) + 1 && log == old(log) + [AddContext(path, description)]
      ensures ok == !fails(old(calls))
      ensures contexts == if ok then old(contexts)[path := description] else old(contexts)
    {
      ok := !fails(calls);
      calls, log := calls + 1, log + [AddContext(path, description)];
      if ok {
        contexts := contexts[path := description];
      }
    }

    method ContextRemove(path: string) returns (ok: bool)
      modifies `calls, `log, `contexts
      ensures calls == old(calls) + 1 && log == old(log) + [RemoveContext(path)]
      ensures ok == !fails(old(calls))
      ensures contexts == if ok then old(contexts) - {path} else old(contexts)
    {
      ok := !fails(calls);
      calls, log := calls + 1, log + [RemoveContext(path)];
      if ok {
        contexts := contexts - {path};
      }
    }
  }

  // From here on no call fails.
  ghost predicate Reliable(r: Registry)
    reads r
  {
    forall k: nat | k >= r.calls :: !r.fails(k)
  }

  // ---------- What a run without failures does ----------

  // What is registered, and the mutating calls made so far.
  datatype State = State(collections: set<string>, contexts: map<string, string>, calls: seq<Mutation>)

  function Now(r: Registry): State
    reads r
  {
    State(r.collections, r.contexts, r.log)
  }

  predicate Blank(col: Col) {
    TrimSpace(col.context) == ""
  }

  predicate InPlace(contexts: map<string, string>, col: Col) {
    col.path in contexts && contexts[col.path] == col.context
  }

  function MaskOf(col: Col): string {
    if col.mask == "" then "**/*.md" else col.mask
  }

  // One collection that was not registered when the run began.
  function Register(e: State, col: Col): State {
    var added := e.(collections := e.collections + {col.name},
                    calls := e.calls + [AddCollection(col.path, col.name, MaskOf(col))]);
    if col.context == "" then added
    else added.(contexts := added.contexts[col.path := col.context],
                calls := added.calls + [AddContext(col.path, col.context)])
  }

  // One collection of the context sync.
  function SyncOne(e: State, col: Col): State {
    if Blank(col) || InPlace(e.contexts, col) then e else
    e.(contexts := e.contexts[col.path := col.context],
       calls := e.calls + (if col.path in e.contexts then [RemoveContext(col.path)] else [])
                + [AddContext(col.path, col.context)])
  }

  function Registering(cols: seq<Col>, known: set<string>, e: State): State {
    if cols == [] then e else
    var before, col := Registering(cols[..|cols| - 1], known, e), cols[|cols| - 1];
    if col.name in known then before else Register(before, col)
  }

  function Syncing(cols: seq<Col>, e: State): State {
    if cols == [] then e else SyncOne(Syncing(cols[..|cols| - 1], e), cols[|cols| - 1])
  }

  function Ensured(cols: seq<Col>, e: State): State {
    Syncing(cols, Registering(cols, e.collections, e))
  }

  // ---------- Convergence ----------

  // Every configured collection is registered and every non-blank context is the
  // configured one.
  ghost predicate Converged(cols: seq<Col>, e: State) {
    forall col | col in cols ::
      && col.name in e.collections
      && (TrimSpace(col.context) == "" || (col.path in e.contexts && e.contexts[col.path] == col.context))
  }

  // No path is configured with two different non-blank contexts.
  ghost predicate Consistent(cols: seq<Col>) {
    forall a, b |
      && a in cols && b in cols && a.path == b.path
      && TrimSpace(a.context) != "" && TrimSpace(b.context) != "" ::
      a.context == b.context
  }

  lemma {:induction false} RegisteringFacts(cols: seq<Col>, known: set<string>, e: State)
    ensures var r := Registering(cols, known, e);
            && e.collections <= r.collections
            && (forall col | col in cols :: col.name in r.collections || col.name in known)
            && e.calls <= r.calls
            && (r.calls == e.calls <==> forall col | col in cols :: col.name in known)
            && (r.calls == e.calls ==> r == e)
  {
    if cols != [] {
      RegisteringFacts(cols[..|cols| - 1], known, e);
      InitAndLast(cols);
    }
  }

  // What is in place stays in place unless another context is configured there.
  lemma {:induction false} SyncingFacts(cols: seq<Col>, e: State)
    ensures var r := Syncing(cols, e);
            && r.collections == e.collections
            && e.calls <= r.calls
            && (r.calls == e.calls ==> r == e && forall col | col in cols :: Blank(col) || InPlace(e.contexts, col))
            && ((forall col | col in cols :: Blank(col) || InPlace(e.contexts, col)) ==> r == e)
  {
    if cols != [] {
      SyncingFacts(cols[..|cols| - 1], e);
      InitAndLast(cols);
    }
  }

  lemma {:induction false} SyncingConverges(cols: seq<Col>, e: State)
    requires Consistent(cols)
    ensures forall col | col in cols :: Blank(col) || InPlace(Syncing(cols, e).contexts, col)
  {
    if cols != [] {
      InitAndLast(cols);
      SyncingConverges(cols[..|cols| - 1], e);
    }
  }

  // Between from and k, no call adds a context at path.
  ghost predicate NotAdded(calls: seq<Mutation>, from: nat, k: int, path: string) {
    forall j | from <= j < k && j < |calls| :: !(calls[j].AddContext? && calls[j].path == path)
  }

  // The context added by call k comes right behind the removal of the one its path
  // had, or is the first since from that its path has.
  ghost predicate InItsPlace(had: map<string, string>, calls: seq<Mutation>, from: nat, k: nat) {
    from <= k < |calls| && calls[k].AddContext? ==>
      || (k > from && calls[k - 1] == RemoveContext(calls[k].path))
      || (calls[k].path !in had && NotAdded(calls, from, k, calls[k].path))
  }

  ghost predicate ReplacesInOrder(had: map<string, string>, calls: seq<Mutation>, from: nat) {
    forall k: nat :: InItsPlace(had, calls, from, k)
  }

  lemma StaysInPlace(had: map<string, string>, calls: seq<Mutation>, more: seq<Mutation>, from: nat, k: nat)
    requires InItsPlace(had, calls, from, k) && calls <= more && k < |calls|
    ensures InItsPlace(had, more, from, k)
  {
    forall j | 0 <= j <= k
      ensures more[j] == calls[j]
    {
    }
  }

  lemma ReplacesNext(had: map<string, string>, calls: seq<Mutation>, from: nat, col: Col, removes: bool,
                     more: seq<Mutation>)
    requires from <= |calls| && ReplacesInOrder(had, calls, from)
    requires more == calls + (if removes then [RemoveContext(col.path)] else []) + [AddContext(col.path, col.context)]
    requires removes || (col.path !in had && NotAdded(calls, from, |calls|, col.path))
    ensures ReplacesInOrder(had, more, from)
  {
    forall k: nat
      ensures InItsPlace(had, more, from, k)
    {
      if k < |calls| {
        StaysInPlace(had, calls, more, from, k);
      } else if removes {
        assert more == calls + [RemoveContext(col.path), AddContext(col.path, col.context)];
      } else {
        assert more == calls + [AddContext(col.path, col.context)];
      }
    }
  }

  // A stale context is removed before another takes its place.
  lemma {:induction false} StaleContextsGoFirst(cols: seq<Col>, e: State)
    ensures var r := Syncing(cols, e);
            && e.calls <= r.calls && ReplacesInOrder(e.contexts, r.calls, |e.calls|)
            && forall p :: p in r.contexts <==> p in e.contexts || !NotAdded(r.calls, |e.calls|, |r.calls|, p)
  {
    if cols != [] {
      var before, col := Syncing(cols[..|cols| - 1], e), cols[|cols| - 1];
      StaleContextsGoFirst(cols[..|cols| - 1], e);
      if !Blank(col) && !InPlace(before.contexts, col) {
        var removes, after := col.path in before.contexts, Syncing(cols, e).calls;
        ReplacesNext(e.contexts, before.calls, |e.calls|, col, removes, after);
        AddedBy(before.calls, |e.calls|, col, removes, after);
      }
    }
  }

  lemma AddedBy(calls: seq<Mutation>, from: nat, col: Col, removes: bool, more: seq<Mutation>)
    requires from <= |calls|
    requires more == calls + (if removes then [RemoveContext(col.path)] else []) + [AddContext(col.path, col.context)]
    ensures forall p :: NotAdded(more, from, |more|, p) <==> p != col.path && NotAdded(calls, from, |calls|, p)
  {
    assert more[|more| - 1] == AddContext(col.path, col.context);
    forall p
      ensures NotAdded(more, from, |more|, p) <==> p != col.path && NotAdded(calls, from, |calls|, p)
    {
      if NotAdded(more, from, |more|, p) {
        forall j | from <= j < |calls|
          ensures !(calls[j].AddContext? && calls[j].path == p)
        {
          assert more[j] == calls[j];
        }
      }
    }
  }

  // A run converges, from any state, exactly when the configuration is
  // consistent; otherwise no state is right.
  lemma ConvergesIffConsistent(cols: seq<Col>, e: State)
    ensures Converged(cols, Ensured(cols, e)) <==> Consistent(cols)
  {
    RegisteringFacts(cols, e.collections, e);
    SyncingFacts(cols, Registering(cols, e.collections, e));
    if Consistent(cols) {
      SyncingConverges(cols, Registering(cols, e.collections, e));
    }
  }

  // A run makes no mutating call exactly when there is nothing to do, and then
  // changes nothing.
  lemma QuietIffConverged(cols: seq<Col>, e: State)
    ensures Ensured(cols, e).calls == e.calls <==> Converged(cols, e)
    ensures Converged(cols, e) ==> Ensured(cols, e) == e
  {
    RegisteringFacts(cols, e.collections, e);
    SyncingFacts(cols, Registering(cols, e.collections, e));
  }

  // The second of two runs makes no mutating call exactly when the configuration
  // is consistent.
  lemma SecondRunIsQuietIff(cols: seq<Col>, e: State)
    ensures var once := Ensured(cols, e);
            Ensured(cols, once).calls == once.calls <==> Consistent(cols)
  {
    ConvergesIffConsistent(cols, e);
    QuietIffConverged(cols, Ensured(cols, e));
  }

  // The state after n runs.
  function Repeated(cols: seq<Col>, e: State, n: nat): State {
    if n == 0 then e else Ensured(cols, Repeated(cols, e, n - 1))
  }

  // Every run but the first is quiet if the configuration is consistent, and none
  // is if it is not: some path is then rewritten for ever.
  lemma SettlesIffConsistent(cols: seq<Col>, e: State, n: nat)
    requires n > 0
    ensures Repeated(cols, e, n + 1).calls == Repeated(cols, e, n).calls <==> Consistent(cols)
    ensures !Consistent(cols) ==> Repeated(cols, e, 1).calls != e.calls
  {
    SecondRunIsQuietIff(cols, Repeated(cols, e, n - 1));
    QuietIffConverged(cols, e);
  }

  // ---------- The code ----------

  ghost predicate SameAt(a: map<string, string>, b: map<string, string>, p: string) {
    if p in a then p in b && a[p] == b[p] else p !in b
  }

  // b differs from a at most where col is registered or has its context.
  ghost predicate OnlyAt(a: State, b: State, col: Col) {
    && a.calls <= b.calls
    && a.collections <= b.collections <= a.collections + {col.name}
    && (forall p :: SameAt(a.contexts, b.contexts, p) || Placed(b.contexts, col, p))
    && AllFor(b.calls[|a.calls|..], col)
  }

  // A call says of a collection what is configured, and the default mask if none is.
  ghost predicate CallFor(m: Mutation, col: Col) {
    match m
    case AddCollection(path, name, mask) =>
      path == col.path && name == col.name && (if col.mask == "" then mask == "**/*.md" else mask == col.mask)
    case AddContext(path, description) => path == col.path && description == col.context != ""
    case RemoveContext(path) => path == col.path && TrimSpace(col.context) != ""
  }

  ghost predicate AllFor(calls: seq<Mutation>, col: Col) {
    forall m | m in calls :: CallFor(m, col)
  }

  lemma OneMoreCall(a: seq<Mutation>, b: seq<Mutation>, m: Mutation, col: Col)
    requires a <= b && AllFor(b[|a|..], col) && CallFor(m, col)
    ensures a <= b + [m] && AllFor((b + [m])[|a|..], col)
  {
    assert (b + [m])[|a|..] == b[|a|..] + [m];
  }

  ghost predicate CallsFor(cols: seq<Col>, calls: seq<Mutation>) {
    forall m | m in calls :: exists col :: col in cols && CallFor(m, col)
  }

  // The context at p is col's, or is missing and col should have one there.
  ghost predicate Placed(m: map<string, string>, col: Col, p: string) {
    p == col.path && col.context != "" && (p in m ==> m[p] == col.context)
  }

  // Whatever fails: nothing is unregistered, only configured collections are
  // added, every call says what is configured, and a context changes only to one
  // that is configured at its path, or is lost there.
  ghost predicate Contained(cols: seq<Col>, a: State, b: State) {
    && a.calls <= b.calls
    && a.collections <= b.collections
    && (forall n | n in b.collections - a.collections :: exists col :: col in cols && col.name == n)
    && (forall p :: SameAt(a.contexts, b.contexts, p) || exists col :: col in cols && Placed(b.contexts, col, p))
    && CallsFor(cols, b.calls[|a.calls|..])
  }

  lemma CallsOfBoth(cols: seq<Col>, a: seq<Mutation>, b: seq<Mutation>, c: seq<Mutation>)
    requires a <= b <= c && CallsFor(cols, b[|a|..]) && CallsFor(cols, c[|b|..])
    ensures CallsFor(cols, c[|a|..])
  {
    assert c[|a|..] == b[|a|..] + c[|b|..];
  }

  lemma CallsOfOne(cols: seq<Col>, col: Col, calls: seq<Mutation>)
    requires col in cols && AllFor(calls, col)
    ensures CallsFor(cols, calls)
  {
  }

  lemma OneMore(cols: seq<Col>, col: Col, a: State, b: State, c: State)
    requires Contained(cols, a, b) && OnlyAt(b, c, col) && col in cols
    ensures Contained(cols, a, c)
  {
    CallsOfOne(cols, col, c.calls[|b.calls|..]);
    CallsOfBoth(cols, a.calls, b.calls, c.calls);
    forall n | n in c.collections - a.collections
      ensures exists x :: x in cols && x.name == n
    {
      if n !in b.collections {
        assert col.name == n;
      } else {
        assert n in b.collections - a.collections;
      }
    }
    forall p
      ensures SameAt(a.contexts, c.contexts, p) || exists x :: x in cols && Placed(c.contexts, x, p)
    {
      if !SameAt(b.contexts, c.contexts, p) {
        assert Placed(c.contexts, col, p);
      } else if !SameAt(a.contexts, b.contexts, p) {
        var x :| x in cols && Placed(b.contexts, x, p);
        assert Placed(c.contexts, x, p);
      }
    }
  }

  lemma InTurn(cols: seq<Col>, a: State, b: State, c: State)
    requires Contained(cols, a, b) && Contained(cols, b, c)
    ensures Contained(cols, a, c)
  {
    CallsOfBoth(cols, a.calls, b.calls, c.calls);
    forall n | n in c.collections - a.collections
      ensures exists x :: x in cols && x.name == n
    {
      assert n in b.collections - a.collections || n in c.collections - b.collections;
    }
    forall p
      ensures SameAt(a.contexts, c.contexts, p) || exists x :: x in cols && Placed(c.contexts, x, p)
    {
      if SameAt(b.contexts, c.contexts, p) && !SameAt(a.contexts, b.contexts, p) {
        var x :| x in cols && Placed(b.contexts, x, p);
        assert Placed(c.contexts, x, p);
      }
    }
  }

  // The body of the loop of EnsureCollections, for a collection not yet known.
  method RegisterCollection(r: Registry, col: Col)
    modifies r`calls, r`log, r`collections, r`contexts
    ensures r.calls >= old(r.calls) && OnlyAt(old(Now(r)), Now(r), col)
    ensures old(Reliable(r)) ==> Now(r) == Register(old(Now(r)), col)
  {
    var mask := col.mask;
    if mask == "" {
      mask := "**/*.md";
    }
    OneMoreCall(r.log, r.log, AddCollection(col.path, col.name, mask), col);
    ghost var log := r.log;
    var added := r.CollectionAdd(col.path, col.name, mask);
    if !added {
      return;
    }
    if col.context != "" {
      OneMoreCall(log, r.log, AddContext(col.path, col.context), col);
      var ok := r.ContextAdd(col.path, col.context);
    }
  }

  // The body of the loop of syncCollectionContexts.
  method SyncContext(r: Registry, col: Col, contextMap: map<string, string>) returns (next: map<string, string>)
    modifies r`calls, r`log, r`contexts
    ensures r.calls >= old(r.calls) && OnlyAt(old(Now(r)), Now(r), col)
    ensures old(Reliable(r)) && contextMap == old(r.contexts) ==>
              next == r.contexts && Now(r) == SyncOne(old(Now(r)), col)
  {
    next := contextMap;
    if TrimSpace(col.context) == "" {
      return;
    }
    var ok := col.path in contextMap;
    if ok && contextMap[col.path] == col.context {
      return;
    }
    ghost var log := r.log;
    if ok {
      OneMoreCall(log, log, RemoveContext(col.path), col);
      var removed := r.ContextRemove(col.path);
      if !removed {
        return;
      }
    }
    OneMoreCall(log, r.log, AddContext(col.path, col.context), col);
    var added := r.ContextAdd(col.path, col.context);
    if !added {
      return;
    }
    next := contextMap[col.path := col.context];
  }

  // syncCollectionContexts
  method SyncCollectionContexts(r: Registry, cols: seq<Col>)
    modifies r`calls, r`log, r`contexts
    ensures r.calls >= old(r.calls) && Contained(cols, old(Now(r)), Now(r))
    ensures old(Reliable(r)) ==> Now(r) == Syncing(cols, old(Now(r)))
  {
    var existing := r.ContextList();
    if existing.None? {
      return;
    }
    var contextMap := existing.value;
    for i := 0 to |cols|
      invariant r.calls >= old(r.calls) && Contained(cols, old(Now(r)), Now(r))
      invariant old(Reliable(r)) ==> contextMap == r.contexts && Now(r) == Syncing(cols[..i], old(Now(r)))
    {
      ghost var before := Now(r);
      contextMap := SyncContext(r, cols[i], contextMap);
      OneMore(cols, cols[i], old(Now(r)), before, Now(r));
      TakeOneMore(cols, i);
      InitOfPrefix(cols, i);
    }
    assert cols[..|cols|] == cols;
  }

  // The loop of EnsureCollections.
  method RegisterCollections(r: Registry, cols: seq<Col>, known: set<string>)
    modifies r`calls, r`log, r`collections, r`contexts
    ensures r.calls >= old(r.calls) && Contained(cols, old(Now(r)), Now(r))
    ensures old(Reliable(r)) ==> Now(r) == Registering(cols, known, old(Now(r)))
  {
    for i := 0 to |cols|
      invariant r.calls >= old(r.calls) && Contained(cols, old(Now(r)), Now(r))
      invariant old(Reliable(r)) ==> Now(r) == Registering(cols[..i], known, old(Now(r)))
    {
      TakeOneMore(cols, i);
      InitOfPrefix(cols, i);
      if cols[i].name in known {
        continue;
      }
      ghost var before := Now(r);
      RegisterCollection(r, cols[i]);
      OneMore(cols, cols[i], old(Now(r)), before, Now(r));
    }
    assert cols[..|cols|] == cols;
  }

  // EnsureCollections. A list of collections that cannot be had counts as empty.
  method EnsureCollections(r: Registry, cols: seq<Col>)
    modifies r
    ensures Contained(cols, old(Now(r)), Now(r))
    ensures old(Reliable(r)) ==> Now(r) == Ensured(cols, old(Now(r))) && Reliable(r)
    ensures old(Reliable(r)) && Consistent(cols) ==> Converged(cols, Now(r))
  {
    var existing := r.CollectionList();
    var known := if existing.Some? then existing.value else {};
    RegisterCollections(r, cols, known);
    ghost var between := Now(r);
    SyncCollectionContexts(r, cols);
    InTurn(cols, old(Now(r)), between, Now(r));
    ConvergesIffConsistent(cols, old(Now(r)));
  }

  lemma InitOfPrefix<T>(s: seq<T>, i: nat)
    requires i < |s|
    ensures s[..i + 1][..i] == s[..i]
  {
  }
}
