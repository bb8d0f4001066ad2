// The deep-failure rate limit over whole runs.

module NegativeRate {
  import opened Model
  import opened NegativeCache
  import opened NegativeHistory

  ghost predicate FailsScope(e: Event, scope: string) {
    e.Mark? && Canon(e.scope) == scope
  }

  // The failed attempt recorded at i was let through by an Ask at j.
  ghost predicate Granted(cfg: Config, es: seq<Event>, j: int, i: int) {
    && 0 <= j < i < |es| && es[i].Mark?
    && es[j].Ask? && es[j].q == es[i].q && es[j].scope == es[i].scope
    && Answered(cfg, es[..j], es[j].now, es[j].q, es[j].scope) == Go
  }

  // Every recorded failure i was let through by the Ask at g[i].
  ghost predicate Assigned(cfg: Config, es: seq<Event>, g: seq<int>) {
    |g| == |es| && forall i | 0 <= i < |es| && es[i].Mark? :: Granted(cfg, es, g[i], i)
  }

  // How many attempts on scope are in flight at p: asked for before, and failing
  // there or later.
  ghost function InFlight(es: seq<Event>, g: seq<int>, scope: string, p: nat): nat
    requires |g| == |es|
  {
    if |es| <= p then 0 else
    var n := |es| - 1;
    InFlight(es[..n], g[..n], scope, p) + if FailsScope(es[n], scope) && g[n] < p then 1 else 0
  }

  ghost predicate Bounded(es: seq<Event>, g: seq<int>, c: nat)
    requires |g| == |es|
  {
    forall scope, p: nat :: InFlight(es, g, scope, p) <= c
  }

  // At no point are more than c attempts on one scope in flight.
  ghost predicate AtMostInFlight(cfg: Config, es: seq<Event>, c: nat) {
    exists g :: Assigned(cfg, es, g) && Bounded(es, g, c)
  }

  // Attempts on a scope do not overlap.
  ghost predicate Sequential(cfg: Config, es: seq<Event>) {
    AtMostInFlight(cfg, es, 1)
  }

  // The failures of scope from index start on.
  ghost function FailuresFrom(es: seq<Event>, scope: string, start: nat): nat {
    if |es| <= start then 0 else
    FailuresFrom(es[..|es| - 1], scope, start) + if FailsScope(es[|es| - 1], scope) then 1 else 0
  }

  // The state of the argument: the cooldown was activated at or after first, or
  // the failures since then are few and all pending.
  ghost predicate Counted(activation: Option<int>, failures: nat, pending: seq<int>, first: int, now: int) {
    || (activation.Some? && activation.value >= first)
    || (failures < FAIL_THRESHOLD && failures <= |Live(pending, now)|)
  }

  // A mark at t either activates the cooldown or is one more pending failure.
  lemma MarkCounted(activation: Option<int>, failures: nat, pending: seq<int>, first: int, t: int, now: int)
    requires Counted(activation, failures, pending, first, t) && Counted(activation, failures, pending, first, now)
    requires first <= t <= now && now - first <= FAIL_WINDOW
    ensures !Activates(pending, t) ==> Counted(activation, failures + 1, pending + [t], first, now)
  {
    LiveAppend(pending, t, now);
  }

  // Once three failures fall into one window, a cooldown has been activated.
  lemma {:induction false} ThreeFailuresActivate(es: seq<Event>, scope: string, start: nat, now: int)
    requires Timed(es, now) && start < |es| && now - es[start].now <= FAIL_WINDOW
    ensures Counted(Activation(es, scope), FailuresFrom(es, scope, start), Pending(es, scope), es[start].now, now)
  {
    var init, e, first := es[..|es| - 1], es[|es| - 1], es[start].now;
    TimedPrefix(es, now);
    if start < |init| {
      assert init[start] == es[start];
      ThreeFailuresActivate(init, scope, start, e.now);
      ThreeFailuresActivate(init, scope, start, now);
    }
    MarkCounted(Activation(init, scope), FailuresFrom(init, scope, start), Pending(init, scope), first, e.now, now);
  }

  // A scope in cooldown lets nothing through.
  lemma CooldownBlocks(cfg: Config, es: seq<Event>, now: int, q: string, scope: string)
    requires Cooling(cfg) && Timed(es, now) && PlainScopes(es) && PlainScope(scope)
    requires Activation(es, Canon(scope)).Some? && now <= Activation(es, Canon(scope)).value + cfg.cooldown
    ensures Answered(cfg, es, now, q, scope) != Go
  {
    SkipRefinesHistory(cfg, es, now, q, scope);
  }

  lemma {:induction false} FailuresIn(es: seq<Event>, scope: string, start: nat, i: nat)
    requires start <= i < |es| && FailsScope(es[i], scope)
    ensures FailuresFrom(es, scope, start) >= 1 + FailuresFrom(es[..i], scope, start)
  {
    var init := es[..|es| - 1];
    if i < |init| {
      FailuresIn(init, scope, start, i);
      assert init[..i] == es[..i];
    } else {
      assert es[..i] == init;
    }
  }

  // The length of a window that the limit speaks about.
  function Window(cfg: Config): int {
    Min(FAIL_WINDOW, cfg.cooldown)
  }

  lemma ThreeFailures(es: seq<Event>, scope: string, a: nat, b: nat, c: nat)
    requires a < b < c < |es|
    requires FailsScope(es[a], scope) && FailsScope(es[b], scope) && FailsScope(es[c], scope)
    ensures FailuresFrom(es, scope, a) >= 3
  {
    FailuresIn(es, scope, a, c);
    FailuresIn(es[..c], scope, a, b);
    FailuresIn(es[..c][..b], scope, a, a);
  }

  // After three failures within a window, nothing of that scope gets through
  // until the window is over.
  lemma BlockedAfterThree(cfg: Config, es: seq<Event>, a: nat, b: nat, c: nat, now: int, q: string, scope: string)
    requires Cooling(cfg) && PlainScopes(es) && PlainScope(scope) && Timed(es, now)
    requires a < b < c < |es|
    requires FailsScope(es[a], Canon(scope)) && FailsScope(es[b], Canon(scope)) && FailsScope(es[c], Canon(scope))
    requires now - es[a].now <= cfg.cooldown && now - es[a].now <= 300_000_000_000
    ensures Answered(cfg, es, now, q, scope) != Go
  {
    ThreeFailures(es, Canon(scope), a, b, c);
    ThreeFailuresActivate(es, Canon(scope), a, now);
    CooldownBlocks(cfg, es, now, q, scope);
  }

  lemma PrefixIsTimed(es: seq<Event>, j: nat)
    requires j < |es| && Timed(es, es[|es| - 1].now) && PlainScopes(es)
    ensures Timed(es[..j], es[j].now) && PlainScopes(es[..j])
  {
    forall e | e in es[..j]
      ensures e in es
    {
    }
  }

  // Ascending places in es where scope failed.
  ghost predicate Places(es: seq<Event>, scope: string, at: seq<nat>) {
    && (forall i | 0 <= i < |at| :: at[i] < |es| && FailsScope(es[at[i]], scope))
    && (forall i, k | 0 <= i < k < |at| :: at[i] < at[k])
  }

  lemma {:induction false} InFlightIn(es: seq<Event>, g: seq<int>, scope: string, p: nat, i: nat)
    requires |g| == |es| && p <= i < |es| && FailsScope(es[i], scope) && g[i] < p
    ensures InFlight(es, g, scope, p) >= 1 + InFlight(es[..i], g[..i], scope, p)
  {
    var n := |es| - 1;
    if i < n {
      InFlightIn(es[..n], g[..n], scope, p, i);
      assert es[..n][..i] == es[..i] && g[..n][..i] == g[..i];
    }
  }

  // Failures at the places at, all asked for before p, are in flight there.
  lemma {:induction false} CountPicked(es: seq<Event>, g: seq<int>, scope: string, p: nat, at: seq<nat>)
    requires |g| == |es| && Places(es, scope, at)
    requires forall i | 0 <= i < |at| :: g[at[i]] < p <= at[i]
    ensures InFlight(es, g, scope, p) >= |at|
  {
    if at != [] {
      var last := at[|at| - 1];
      InFlightIn(es, g, scope, p, last);
      CountPicked(es[..last], g[..last], scope, p, at[..|at| - 1]);
    }
  }

  // A question after three failures that is let through comes a window later.
  lemma {:induction false} AskedAfterThird(cfg: Config, es: seq<Event>, scope: string, a: nat, b: nat, c: nat,
                                           j: nat, d: nat)
    requires Cooling(cfg) && PlainScopes(es) && es != [] && Timed(es, es[|es| - 1].now)
    requires a < b < c < j && Granted(cfg, es, j, d)
    requires FailsScope(es[a], scope) && FailsScope(es[b], scope)
    requires FailsScope(es[c], scope) && FailsScope(es[d], scope)
    ensures es[d].now - es[a].now > Window(cfg)
  {
    AskBefore(cfg, es, scope, j, d);
    AttemptSpread(cfg, es, es[..j], scope, a, b, c, es[j]);
  }

  // So of failures within a window, those from the third on were asked for before it.
  lemma {:induction false} AskedBeforeThird(cfg: Config, es: seq<Event>, scope: string, a: nat, b: nat, c: nat,
                                            j: nat, d: nat)
    requires Cooling(cfg) && PlainScopes(es) && es != [] && Timed(es, es[|es| - 1].now)
    requires a < b < c < |es| && Granted(cfg, es, j, d)
    requires FailsScope(es[a], scope) && FailsScope(es[b], scope)
    requires FailsScope(es[c], scope) && FailsScope(es[d], scope)
    ensures es[d].now - es[a].now <= Window(cfg) ==> j < c
  {
    if c < j {
      AskedAfterThird(cfg, es, scope, a, b, c, j, d);
    }
  }

  lemma PlaceAt(cfg: Config, es: seq<Event>, g: seq<int>, scope: string, at: seq<nat>, k: nat)
    requires Assigned(cfg, es, g) && Places(es, scope, at) && 2 <= k < |at|
    ensures at[0] < at[1] < at[2] <= at[k] < |es| && Granted(cfg, es, g[at[k]], at[k])
    ensures FailsScope(es[at[0]], scope) && FailsScope(es[at[1]], scope)
    ensures FailsScope(es[at[2]], scope) && FailsScope(es[at[k]], scope)
  {
  }

  // So of n failures within a window, n - 2 are in flight at the third.
  lemma InFlightAtThird(cfg: Config, es: seq<Event>, g: seq<int>, scope: string, at: seq<nat>)
    requires Cooling(cfg) && Assigned(cfg, es, g) && PlainScopes(es)
    requires es != [] && Timed(es, es[|es| - 1].now) && Places(es, scope, at) && |at| > 2
    requires forall k | 2 <= k < |at| :: es[at[k]].now - es[at[0]].now <= Window(cfg)
    ensures InFlight(es, g, scope, at[2]) >= |at| - 2
  {
    forall k | 2 <= k < |at|
      ensures g[at[k]] < at[2] <= at[k]
    {
      PlaceAt(cfg, es, g, scope, at, k);
      AskedBeforeThird(cfg, es, scope, at[0], at[1], at[2], g[at[k]], at[k]);
    }
    CountPicked(es, g, scope, at[2], at[2..]);
  }

  lemma AskBefore(cfg: Config, es: seq<Event>, scope: string, j: int, d: nat)
    requires Granted(cfg, es, j, d) && FailsScope(es[d], scope)
    requires Timed(es, es[|es| - 1].now) && PlainScopes(es)
    ensures es[j].now <= es[d].now
    ensures Timed(es[..j], es[j].now) && PlainScopes(es[..j]) && PlainScope(es[j].scope)
  {
    assert es[d] in es;
    PrefixIsTimed(es, j);
  }

  lemma AttemptSpread(cfg: Config, es: seq<Event>, before: seq<Event>, scope: string, a: nat, b: nat, c: nat,
                      ask: Event)
    requires Cooling(cfg) && PlainScopes(before) && ask.Ask? && PlainScope(ask.scope) && Timed(before, ask.now)
    requires a < b < c < |before| <= |es| && before == es[..|before|] && Canon(ask.scope) == scope
    requires FailsScope(es[a], scope) && FailsScope(es[b], scope) && FailsScope(es[c], scope)
    requires Answered(cfg, before, ask.now, ask.q, ask.scope) == Go
    ensures ask.now - es[a].now > Window(cfg)
  {
    if ask.now - before[a].now <= Window(cfg) {
      BlockedAfterThree(cfg, before, a, b, c, ask.now, ask.q, ask.scope);
    }
  }

  // How many failures of scope fall into [lo, hi].
  ghost function FailuresBetween(es: seq<Event>, scope: string, lo: int, hi: int): nat {
    if es == [] then 0 else
    var e := es[|es| - 1];
    FailuresBetween(es[..|es| - 1], scope, lo, hi) + if FailsScope(e, scope) && lo <= e.now <= hi then 1 else 0
  }

  lemma {:induction false} PickFailures(es: seq<Event>, scope: string, lo: int, hi: int, n: nat) returns (at: seq<nat>)
    requires FailuresBetween(es, scope, lo, hi) >= n
    ensures |at| == n && Places(es, scope, at)
    ensures forall i | 0 <= i < n :: lo <= es[at[i]].now <= hi
  {
    if n == 0 {
      at := [];
    } else {
      var init, e := es[..|es| - 1], es[|es| - 1];
      if FailsScope(e, scope) && lo <= e.now <= hi {
        at := PickFailures(init, scope, lo, hi, n - 1);
        at := at + [|init|];
      } else {
        at := PickFailures(init, scope, lo, hi, n);
      }
    }
  }

  // A run with at most c attempts on a scope in flight, by the clock.
  ghost predicate Admissible(cfg: Config, es: seq<Event>, c: nat) {
    AtMostInFlight(cfg, es, c) && PlainScopes(es) && (es != [] ==> Timed(es, es[|es| - 1].now))
  }

  // Rate limit: no window of min(5 minutes, cooldown) holds more than c + 2 failed
  // deep attempts on one scope, so no more than three if attempts do not overlap.
  lemma DeepFailuresAreRateLimited(cfg: Config, es: seq<Event>, scope: string, c: nat, lo: int, hi: int)
    requires Cooling(cfg) && Admissible(cfg, es, c)
    requires hi - lo <= cfg.cooldown && hi - lo <= 300_000_000_000
    ensures FailuresBetween(es, scope, lo, hi) <= c + 2
  {
    if FailuresBetween(es, scope, lo, hi) > c + 2 {
      var at := PickFailures(es, scope, lo, hi, c + 3);
      var g :| Assigned(cfg, es, g) && Bounded(es, g, c);
      InFlightAtThird(cfg, es, g, scope, at);
    }
  }

  // ---------- The bound is met ----------

  lemma {:induction false} LiveSize(ts: seq<int>, now: int)
    ensures |Live(ts, now)| <= |ts|
  {
    if ts != [] {
      LiveSize(ts[..|ts| - 1], now);
    }
  }

  // Up to two failures, and none of this query, leave the scope open.
  lemma {:induction false} StillOpen(es: seq<Event>, q: string, scope: string)
    requires forall e | e in es && e.Mark? :: ExactKey(e.q, e.scope) != ExactKey(q, scope)
    requires FailuresFrom(es, Canon(scope), 0) <= 2
    ensures LastMark(es, ExactKey(q, scope)) == None && Activation(es, Canon(scope)) == None
    ensures |Pending(es, Canon(scope))| == FailuresFrom(es, Canon(scope), 0)
  {
    if es != [] {
      var init, e := es[..|es| - 1], es[|es| - 1];
      assert e in es && forall x | x in init :: x in es;
      StillOpen(init, q, scope);
      LiveSize(Pending(init, Canon(scope)), e.now);
    }
  }

  lemma OpenLetsThrough(cfg: Config, es: seq<Event>, q: string, scope: string, now: int)
    requires Timed(es, now) && PlainScopes(es) && PlainScope(scope)
    requires forall e | e in es && e.Mark? :: ExactKey(e.q, e.scope) != ExactKey(q, scope)
    requires FailuresFrom(es, Canon(scope), 0) <= 2
    ensures Answered(cfg, es, now, q, scope) == Go
  {
    StillOpen(es, q, scope);
    SkipRefinesHistory(cfg, es, now, q, scope);
  }

  lemma GrantedLater(cfg: Config, es: seq<Event>, more: seq<Event>, j: int, i: int)
    requires Granted(cfg, es, j, i) && es <= more
    ensures Granted(cfg, more, j, i)
  {
    assert more[..j] == es[..j] && more[i] == es[i] && more[j] == es[j];
  }

  // One more event, and the question of its attempt if it is a mark.
  lemma AssignedNext(cfg: Config, es: seq<Event>, g: seq<int>, e: Event, j: int)
    requires Assigned(cfg, es, g) && (e.Mark? ==> Granted(cfg, es + [e], j, |es|))
    ensures Assigned(cfg, es + [e], g + [j])
  {
    var more := es + [e];
    forall i | 0 <= i < |more| && more[i].Mark?
      ensures Granted(cfg, more, (g + [j])[i], i)
    {
      if i < |es| {
        GrantedLater(cfg, es, more, g[i], i);
      }
    }
  }

  lemma InFlightNext(es: seq<Event>, g: seq<int>, e: Event, j: int, scope: string, p: nat)
    requires |g| == |es|
    ensures InFlight(es + [e], g + [j], scope, p)
         == InFlight(es, g, scope, p) + if p <= |es| && FailsScope(e, scope) && j < p then 1 else 0
  {
    assert (es + [e])[..|es|] == es && (g + [j])[..|es|] == g;
  }

  // An event that is no mark keeps the number of attempts in flight.
  lemma OneMoreEvent(cfg: Config, es: seq<Event>, e: Event, c: nat)
    requires AtMostInFlight(cfg, es, c) && !e.Mark?
    ensures AtMostInFlight(cfg, es + [e], c)
  {
    var g :| Assigned(cfg, es, g) && Bounded(es, g, c);
    AssignedNext(cfg, es, g, e, 0);
    BoundedNext(es, g, e, c);
  }

  lemma BoundedNext(es: seq<Event>, g: seq<int>, e: Event, c: nat)
    requires |g| == |es| && Bounded(es, g, c) && !e.Mark?
    ensures Bounded(es + [e], g + [0], c)
  {
    forall scope, p: nat
      ensures InFlight(es + [e], g + [0], scope, p) <= c
    {
      InFlightNext(es, g, e, 0, scope, p);
    }
  }

  // An attempt of which nothing is recorded between question and failure is alone
  // in flight.
  lemma AttemptBounded(es: seq<Event>, g: seq<int>, ask: Event, mark: Event)
    requires |g| == |es| && Bounded(es, g, 1) && ask.Ask?
    ensures Bounded(es + [ask] + [mark], g + [0] + [|es|], 1)
  {
    forall scope, p: nat
      ensures InFlight(es + [ask] + [mark], g + [0] + [|es|], scope, p) <= 1
    {
      InFlightNext(es, g, ask, 0, scope, p);
      InFlightNext(es + [ask], g + [0], mark, |es|, scope, p);
      if |es| < p {
        NoneInFlight(es, g, scope, p);
      }
    }
  }

  lemma NoneInFlight(es: seq<Event>, g: seq<int>, scope: string, p: nat)
    requires |g| == |es| <= p
    ensures InFlight(es, g, scope, p) == 0
  {
  }

  // One more attempt that is let through and fails, after all the others.
  lemma AttemptAfter(cfg: Config, es: seq<Event>, g: seq<int>, q: string, scope: string, asked: int, failed: int)
    requires Assigned(cfg, es, g) && Bounded(es, g, 1) && Answered(cfg, es, asked, q, scope) == Go
    ensures var more := es + [Ask(asked, q, scope)] + [Mark(failed, q, scope)];
            Assigned(cfg, more, g + [0] + [|es|]) && Bounded(more, g + [0] + [|es|], 1)
  {
    var ask, mark := Ask(asked, q, scope), Mark(failed, q, scope);
    AssignedNext(cfg, es, g, ask, 0);
    GoLater(cfg, es, es + [ask], asked, q, scope);
    GoFails(cfg, es + [ask], |es|, asked, failed, q, scope);
    AssignedNext(cfg, es + [ask], g + [0], mark, |es|);
    AttemptBounded(es, g, ask, mark);
  }

  lemma OneMoreAttempt(cfg: Config, es: seq<Event>, q: string, scope: string, asked: int, failed: int)
    requires Sequential(cfg, es) && Answered(cfg, es, asked, q, scope) == Go
    ensures Sequential(cfg, es + [Ask(asked, q, scope)] + [Mark(failed, q, scope)])
  {
    var g :| Assigned(cfg, es, g) && Bounded(es, g, 1);
    AttemptAfter(cfg, es, g, q, scope, asked, failed);
  }

  function Name(n: nat): string {
    seq(n, _ => 'x')
  }

  lemma CountAppend(es: seq<Event>, e: Event, scope: string, start: nat)
    ensures FailuresFrom(es + [e], scope, start)
         == FailuresFrom(es, scope, start) + if start <= |es| && FailsScope(e, scope) then 1 else 0
    ensures FailuresBetween(es + [e], scope, 0, 0)
         == FailuresBetween(es, scope, 0, 0) + if FailsScope(e, scope) && e.now == 0 then 1 else 0
  {
    assert (es + [e])[..|es|] == es;
  }

  // All at time 0, on scope, with query names shorter than n.
  ghost predicate Plainly(es: seq<Event>, scope: string, n: nat) {
    forall e | e in es :: e.now == 0 && !e.Cleanup? && e.scope == scope && |e.q| < n
  }

  lemma PlainlyTimed(es: seq<Event>, scope: string, n: nat)
    requires PlainScope(scope) && Plainly(es, scope, n)
    ensures Timed(es, 0) && PlainScopes(es)
  {
    forall i | 0 <= i < |es|
      ensures es[i].now == 0
    {
      assert es[i] in es;
    }
  }

  // A new name is let through as long as no more than two have failed.
  lemma NewNameOpens(cfg: Config, es: seq<Event>, scope: string, n: nat)
    requires PlainScope(scope) && Plainly(es, scope, n) && FailuresFrom(es, Canon(scope), 0) <= 2
    ensures Answered(cfg, es, 0, Name(n), scope) == Go
  {
    forall e | e in es && e.Mark?
      ensures ExactKey(e.q, e.scope) != ExactKey(Name(n), scope)
    {
      assert |ExactKey(e.q, scope)| < |ExactKey(Name(n), scope)|;
    }
    PlainlyTimed(es, scope, n);
    OpenLetsThrough(cfg, es, Name(n), scope, 0);
  }

  lemma PlainlyAppend(es: seq<Event>, e: Event, scope: string, n: nat)
    requires Plainly(es, scope, n) && e.now == 0 && !e.Cleanup? && e.scope == scope && |e.q| <= n
    ensures Plainly(es + [e], scope, n + 1)
  {
  }

  // How many of es failed, in all and at time 0.
  ghost predicate Failed(es: seq<Event>, scope: string, n: nat) {
    FailuresFrom(es, Canon(scope), 0) == n && FailuresBetween(es, Canon(scope), 0, 0) == n
  }

  lemma FailedAppend(es: seq<Event>, e: Event, scope: string, n: nat)
    requires Failed(es, scope, n) && !e.Cleanup? && e.now == 0 && e.scope == scope
    ensures Failed(es + [e], scope, n + if e.Mark? then 1 else 0)
  {
    CountAppend(es, e, Canon(scope), 0);
  }

  // At j stands an Ask that is answered Go.
  ghost predicate IsGo(cfg: Config, es: seq<Event>, j: nat, now: int, q: string, scope: string) {
    j < |es| && es[j] == Ask(now, q, scope) && Answered(cfg, es[..j], now, q, scope) == Go
  }

  lemma GoLater(cfg: Config, es: seq<Event>, more: seq<Event>, now: int, q: string, scope: string)
    requires Answered(cfg, es, now, q, scope) == Go && es + [Ask(now, q, scope)] <= more
    ensures IsGo(cfg, more, |es|, now, q, scope)
  {
    assert more[|es|] == (es + [Ask(now, q, scope)])[|es|];
    assert more[..|es|] == es;
  }

  lemma GoStays(cfg: Config, es: seq<Event>, more: seq<Event>, j: nat, now: int, q: string, scope: string)
    requires IsGo(cfg, es, j, now, q, scope) && es <= more
    ensures IsGo(cfg, more, j, now, q, scope)
  {
    assert more[..j] == es[..j] && more[j] == es[j];
  }

  // What was let through may fail.
  lemma GoFails(cfg: Config, es: seq<Event>, j: nat, asked: int, failed: int, q: string, scope: string)
    requires IsGo(cfg, es, j, asked, q, scope)
    ensures Granted(cfg, es + [Mark(failed, q, scope)], j, |es|)
  {
    var more := es + [Mark(failed, q, scope)];
    assert more[..j] == es[..j] && more[j] == es[j];
  }

  // The first four events are two attempts one after the other; of those that
  // follow at most n are ever in flight.
  ghost predicate Load(es: seq<Event>, g: seq<int>, n: nat)
    requires |g| == |es|
  {
    forall scope, p: nat :: InFlight(es, g, scope, p) <= if p <= 4 then 1 else n
  }

  // A run at time 0 on scope, f of whose events are failures.
  ghost predicate Stage(cfg: Config, es: seq<Event>, g: seq<int>, scope: string, f: nat) {
    Plainly(es, scope, |es|) && Failed(es, scope, f) && Assigned(cfg, es, g)
  }

  // The next query, named by its place, is let through.
  lemma AskNext(cfg: Config, es: seq<Event>, g: seq<int>, scope: string, f: nat)
    requires PlainScope(scope) && Stage(cfg, es, g, scope, f) && f <= 2
    ensures Stage(cfg, es + [Ask(0, Name(|es|), scope)], g + [0], scope, f)
    ensures Answered(cfg, es, 0, Name(|es|), scope) == Go
  {
    var ask := Ask(0, Name(|es|), scope);
    NewNameOpens(cfg, es, scope, |es|);
    PlainlyAppend(es, ask, scope, |es|);
    FailedAppend(es, ask, scope, f);
    AssignedNext(cfg, es, g, ask, 0);
  }

  lemma FailNext(cfg: Config, es: seq<Event>, g: seq<int>, j: nat, q: string, scope: string, f: nat)
    requires Stage(cfg, es, g, scope, f) && IsGo(cfg, es, j, 0, q, scope) && |q| <= |es|
    ensures Stage(cfg, es + [Mark(0, q, scope)], g + [j], scope, f + 1)
  {
    var mark := Mark(0, q, scope);
    PlainlyAppend(es, mark, scope, |es|);
    FailedAppend(es, mark, scope, f);
    GoFails(cfg, es, j, 0, 0, q, scope);
    AssignedNext(cfg, es, g, mark, j);
  }

  // One attempt on its own.
  lemma Attempt(cfg: Config, es: seq<Event>, g: seq<int>, scope: string, f: nat)
    returns (more: seq<Event>, h: seq<int>)
    requires PlainScope(scope) && Stage(cfg, es, g, scope, f) && f <= 1 && Bounded(es, g, 1)
    ensures Stage(cfg, more, h, scope, f + 1) && Bounded(more, h, 1) && |more| == |es| + 2
  {
    var q := Name(|es|);
    var ask, mark := Ask(0, q, scope), Mark(0, q, scope);
    more, h := es + [ask] + [mark], g + [0] + [|es|];
    AskNext(cfg, es, g, scope, f);
    GoLater(cfg, es, es + [ask], 0, q, scope);
    FailNext(cfg, es + [ask], g + [0], |es|, q, scope, f);
    AttemptBounded(es, g, ask, mark);
  }

  lemma TwoAttempts(cfg: Config, scope: string) returns (es: seq<Event>, g: seq<int>)
    requires PlainScope(scope)
    ensures Stage(cfg, es, g, scope, 2) && Load(es, g, 0) && |es| == 4
  {
    assert Stage(cfg, [], [], scope, 0) && Bounded([], [], 1);
    var one, h := Attempt(cfg, [], [], scope, 0);
    es, g := Attempt(cfg, one, h, scope, 1);
    forall scope, p: nat
      ensures InFlight(es, g, scope, p) <= if p <= 4 then 1 else 0
    {
      if p > 4 {
        NoneInFlight(es, g, scope, p);
      }
    }
  }

  lemma LoadNext(es: seq<Event>, g: seq<int>, e: Event, j: int, n: nat)
    requires |g| == |es| && Load(es, g, n) && (e.Mark? ==> j >= 4)
    ensures Load(es + [e], g + [j], if e.Mark? then n + 1 else n)
  {
    forall scope, p: nat
      ensures InFlight(es + [e], g + [j], scope, p) <= if p <= 4 then 1 else if e.Mark? then n + 1 else n
    {
      InFlightNext(es, g, e, j, scope, p);
    }
  }

  // The k-th of those that start together was let through.
  ghost predicate Opened(cfg: Config, es: seq<Event>, scope: string, k: nat) {
    IsGo(cfg, es, k + 4, 0, Name(k + 4), scope)
  }

  ghost predicate AllOpened(cfg: Config, es: seq<Event>, scope: string, n: nat) {
    forall k: nat | k < n :: Opened(cfg, es, scope, k)
  }

  lemma OpenedLater(cfg: Config, es: seq<Event>, more: seq<Event>, scope: string, n: nat)
    requires AllOpened(cfg, es, scope, n) && es <= more
    ensures AllOpened(cfg, more, scope, n)
  {
    forall k: nat | k < n
      ensures Opened(cfg, more, scope, k)
    {
      assert Opened(cfg, es, scope, k);
      GoStays(cfg, es, more, k + 4, 0, Name(k + 4), scope);
    }
  }

  lemma OneMoreOpened(cfg: Config, es: seq<Event>, scope: string, n: nat)
    requires AllOpened(cfg, es, scope, n) && Opened(cfg, es, scope, n)
    ensures AllOpened(cfg, es, scope, n + 1)
  {
  }

  // The run so far: two attempts, c questions let through together, n of them failed.
  ghost predicate Bursting(cfg: Config, es: seq<Event>, g: seq<int>, scope: string, c: nat, n: nat) {
    && |g| == |es| == c + n + 4
    && Stage(cfg, es, g, scope, n + 2) && Load(es, g, n) && AllOpened(cfg, es, scope, c)
  }

  lemma OneMoreStarts(cfg: Config, es: seq<Event>, g: seq<int>, scope: string, n: nat)
    requires PlainScope(scope) && Bursting(cfg, es, g, scope, n, 0)
    ensures Bursting(cfg, es + [Ask(0, Name(n + 4), scope)], g + [0], scope, n + 1, 0)
  {
    var ask := Ask(0, Name(n + 4), scope);
    AskNext(cfg, es, g, scope, 2);
    LoadNext(es, g, ask, 0, 0);
    OpenedLater(cfg, es, es + [ask], scope, n);
    GoLater(cfg, es, es + [ask], 0, Name(n + 4), scope);
    OneMoreOpened(cfg, es + [ask], scope, n);
  }

  lemma OneMoreFails(cfg: Config, es: seq<Event>, g: seq<int>, scope: string, c: nat, n: nat)
    requires n < c && Bursting(cfg, es, g, scope, c, n)
    ensures Bursting(cfg, es + [Mark(0, Name(n + 4), scope)], g + [n + 4], scope, c, n + 1)
  {
    var mark := Mark(0, Name(n + 4), scope);
    assert Opened(cfg, es, scope, n);
    FailNext(cfg, es, g, n + 4, Name(n + 4), scope, n + 2);
    LoadNext(es, g, mark, n + 4, n);
    OpenedLater(cfg, es, es + [mark], scope, c);
  }

  lemma {:induction false} Burst(cfg: Config, scope: string, c: nat, n: nat) returns (es: seq<Event>, g: seq<int>)
    requires PlainScope(scope) && n <= c
    ensures Bursting(cfg, es, g, scope, c, n)
    decreases c + n
  {
    if n > 0 {
      es, g := Burst(cfg, scope, c, n - 1);
      OneMoreFails(cfg, es, g, scope, c, n - 1);
      es, g := es + [Mark(0, Name(n + 3), scope)], g + [n + 3];
    } else if c > 0 {
      es, g := Burst(cfg, scope, c - 1, 0);
      OneMoreStarts(cfg, es, g, scope, c - 1);
      es, g := es + [Ask(0, Name(c + 3), scope)], g + [0];
    } else {
      es, g := TwoAttempts(cfg, scope);
    }
  }

  // On any plain scope c + 2 attempts can fail at once, with at most c in flight.
  lemma BurstFails(cfg: Config, scope: string, c: nat) returns (es: seq<Event>)
    requires PlainScope(scope) && c >= 1
    ensures Admissible(cfg, es, c) && FailuresBetween(es, Canon(scope), 0, 0) == c + 2
  {
    var g;
    es, g := Burst(cfg, scope, c, c);
    PlainlyTimed(es, scope, |es|);
    LoadIsBound(es, g, c);
  }

  lemma LoadIsBound(es: seq<Event>, g: seq<int>, c: nat)
    requires |g| == |es| && Load(es, g, c) && c >= 1
    ensures Bounded(es, g, c)
  {
    forall scope, p: nat
      ensures InFlight(es, g, scope, p) <= c
    {
    }
  }

  // No window ever holds more than k failures of scope.
  ghost predicate Limited(cfg: Config, scope: string, c: nat, k: nat) {
    forall es, lo, hi | Admissible(cfg, es, c) && hi - lo <= cfg.cooldown && hi - lo <= 300_000_000_000 ::
      FailuresBetween(es, Canon(scope), lo, hi) <= k
  }

  // With at most c attempts on a scope in flight, no window holds more than k
  // failures exactly if c <= k - 2.
  lemma RateLimitIff(cfg: Config, scope: string, c: nat, k: nat)
    requires Cooling(cfg) && PlainScope(scope) && c >= 1
    ensures Limited(cfg, scope, c, k) <==> c + 2 <= k
  {
    var burst := BurstFails(cfg, scope, c);
    forall es, lo, hi | Admissible(cfg, es, c) && hi - lo <= cfg.cooldown && hi - lo <= 300_000_000_000
      ensures FailuresBetween(es, Canon(scope), lo, hi) <= c + 2
    {
      DeepFailuresAreRateLimited(cfg, es, Canon(scope), c, lo, hi);
    }
  }
}
