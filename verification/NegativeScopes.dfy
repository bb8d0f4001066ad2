// Which failures a question to the deep-query negative cache depends on: those of
// its own scope, up to the blanks around the scope's name.

module NegativeScopes {
  import opened Model
  import opened Text
  import opened NegativeCache
  import opened NegativeHistory
  import NR = NegativeRate

  // Two spellings of one scope. The blank one is "all".
  ghost predicate SameName(a: string, b: string) {
    var x, y := TrimSpace(a), TrimSpace(b);
    x == y || (x == "" && y == "all") || (x == "all" && y == "")
  }

  // Neither scope is the beginning of the other up to a bar.
  ghost predicate Apart(a: string, b: string) {
    a != b && !(a + "|" <= b) && !(b + "|" <= a)
  }

  lemma SameNameIsCanon(a: string, b: string)
    ensures SameName(a, b) <==> Canon(a) == Canon(b)
  {
  }

  // ---------- Exact keys ----------

  lemma BarBehindShorter(a: string, q: string, b: string, r: string)
    requires a + "|" + q == b + "|" + r && |a| < |b|
    ensures a + "|" <= b
  {
    assert (a + "|" + q)[..|a| + 1] == a + "|";
    assert (b + "|" + r)[..|a| + 1] == b[..|a| + 1];
  }

  lemma KeyBeyondBar(a: string, b: string)
    requires a + "|" <= b
    ensures exists q, r :: ExactKey(q, a) == ExactKey(r, b)
  {
    assert b == a + "|" + b[|a| + 1..];
    assert ExactKey(b[|a| + 1..] + "|", a) == ExactKey("", b);
  }

  // No failure of one scope is ever mistaken for one of the other exactly if they
  // are apart.
  lemma ScopesApartIff(a: string, b: string)
    ensures Apart(a, b) <==> forall q, r :: ExactKey(q, a) != ExactKey(r, b)
  {
    if a + "|" <= b {
      KeyBeyondBar(a, b);
    } else if b + "|" <= a {
      KeyBeyondBar(b, a);
    } else if a == b {
      assert ExactKey("", a) == ExactKey("", b);
    } else {
      forall q, r
        ensures ExactKey(q, a) != ExactKey(r, b)
      {
        DifferentKeys(a, q, b, r);
      }
    }
  }

  lemma DifferentKeys(a: string, q: string, b: string, r: string)
    requires Apart(a, b)
    ensures ExactKey(q, a) != ExactKey(r, b)
  {
    if a + "|" + q == b + "|" + r {
      if |a| < |b| {
        BarBehindShorter(a, q, b, r);
      } else if |b| < |a| {
        BarBehindShorter(b, r, a, q);
      } else {
        SameLengthHeads(a, q, b, r);
      }
    }
  }

  lemma SameLengthHeads(a: string, q: string, b: string, r: string)
    requires a + "|" + q == b + "|" + r && |a| == |b|
    ensures a == b && q == r
  {
    assert (a + "|" + q)[..|a|] == a && (b + "|" + r)[..|b|] == b;
    assert (a + "|" + q)[|a| + 1..] == q && (b + "|" + r)[|b| + 1..] == r;
  }

  // A bar in a scope lets the failure of one query block another.
  lemma BarInScopeCollides(cfg: Config)
    requires cfg.ttl > 0
    ensures Answered(cfg, [Mark(0, "c", "a|b")], 0, "b|c", "a") == SkipExact
  {
    var es := [Mark(0, "c", "a|b")];
    assert es[..0] == [];
    assert ExactKey("c", "a|b") == ExactKey("b|c", "a");
    assert PlainScope("a") && PlainScope("a|b") by {
      assert "a"[0] != COOLDOWN_TAG[0] && "a|b"[0] != COOLDOWN_TAG[0];
    }
    SkipRefinesHistory(cfg, es, 0, "b|c", "a");
  }

  // The failures of other scopes cannot be mistaken for those of scope.
  ghost predicate NoneMistaken(es: seq<Event>, scope: string) {
    forall e | e in es && e.Mark? :: e.scope == scope || Apart(e.scope, scope)
  }

  // A failure of this query on this scope blocks it at now.
  ghost predicate StillBlocks(cfg: Config, e: Event, now: int, q: string, scope: string) {
    e.Mark? && e.q == q && e.scope == scope && now <= e.now + cfg.ttl
  }

  // Some failure in es blocks it.
  ghost predicate Blocked(cfg: Config, es: seq<Event>, now: int, q: string, scope: string) {
    exists e :: e in es && StillBlocks(cfg, e, now, q, scope)
  }

  lemma BlockedNext(cfg: Config, es: seq<Event>, e: Event, now: int, q: string, scope: string)
    ensures Blocked(cfg, es + [e], now, q, scope)
       <==> Blocked(cfg, es, now, q, scope) || StillBlocks(cfg, e, now, q, scope)
  {
    assert e in es + [e];
    if Blocked(cfg, es, now, q, scope) {
      var x :| x in es && StillBlocks(cfg, x, now, q, scope);
      assert x in es + [e];
    }
  }

  lemma {:induction false} LastMarkBlocks(cfg: Config, es: seq<Event>, now: int, q: string, scope: string)
    requires Timed(es, now) && NoneMistaken(es, scope)
    ensures var mark := LastMark(es, ExactKey(q, scope));
            mark.Some? && now <= mark.value + cfg.ttl <==> Blocked(cfg, es, now, q, scope)
  {
    if es != [] {
      var n := |es| - 1;
      InitAndLast(es);
      LastMarkBlocks(cfg, es[..n], now, q, scope);
      SameKeyIsSameMark(es[n], q, scope);
      LatestCounts(cfg, es, now, q, scope);
      BlockedNext(cfg, es[..n], es[n], now, q, scope);
    }
  }

  lemma SameKeyIsSameMark(e: Event, q: string, scope: string)
    requires e.Mark? ==> e.scope == scope || Apart(e.scope, scope)
    ensures e.Mark? ==> (ExactKey(e.q, e.scope) == ExactKey(q, scope) <==> e.q == q && e.scope == scope)
  {
    if e.Mark? && e.scope != scope {
      DifferentKeys(e.scope, e.q, scope, q);
    }
    if e.Mark? && e.scope == scope && ExactKey(e.q, e.scope) == ExactKey(q, scope) {
      SameLengthHeads(e.scope, e.q, scope, q);
    }
  }

  lemma LatestCounts(cfg: Config, es: seq<Event>, now: int, q: string, scope: string)
    requires Timed(es, now) && es != []
    ensures forall e | e in es && StillBlocks(cfg, e, now, q, scope) :: now <= es[|es| - 1].now + cfg.ttl
  {
  }

  // A query is turned away for itself exactly if it failed on this scope no longer
  // ago than the time to live.
  lemma SkippedForItselfIff(cfg: Config, es: seq<Event>, now: int, q: string, scope: string)
    requires Timed(es, now) && PlainScopes(es) && PlainScope(scope) && NoneMistaken(es, scope) && cfg.ttl > 0
    ensures Answered(cfg, es, now, q, scope) == SkipExact <==> Blocked(cfg, es, now, q, scope)
  {
    SkipRefinesHistory(cfg, es, now, q, scope);
    LastMarkBlocks(cfg, es, now, q, scope);
  }

  // ---------- Other scopes do not matter ----------

  // The failures of scope, in whatever spelling.
  ghost function Own(es: seq<Event>, scope: string): seq<Event> {
    if es == [] then [] else
    var e := es[|es| - 1];
    Own(es[..|es| - 1], scope) + if e.Mark? && SameName(e.scope, scope) then [e] else []
  }

  lemma {:induction false} OwnFacts(es: seq<Event>, now: int, scope: string)
    requires Timed(es, now) && PlainScopes(es)
    ensures Timed(Own(es, scope), now) && PlainScopes(Own(es, scope))
    ensures forall e | e in Own(es, scope) :: e.Mark? && SameName(e.scope, scope)
  {
    if es != [] {
      TimedPrefix(es, now);
      OwnFacts(es[..|es| - 1], es[|es| - 1].now, scope);
    }
  }

  // The failures of other scopes cannot be mistaken for one of scope, spelled as
  // the question does.
  ghost predicate OthersApart(es: seq<Event>, scope: string) {
    forall e | e in es && e.Mark? && !SameName(e.scope, scope) :: Apart(e.scope, scope)
  }

  lemma {:induction false} HistoryIsOwn(es: seq<Event>, q: string, scope: string)
    requires OthersApart(es, scope)
    ensures LastMark(es, ExactKey(q, scope)) == LastMark(Own(es, scope), ExactKey(q, scope))
    ensures Pending(es, Canon(scope)) == Pending(Own(es, scope), Canon(scope))
    ensures Activation(es, Canon(scope)) == Activation(Own(es, scope), Canon(scope))
  {
    if es != [] {
      var init, e := es[..|es| - 1], es[|es| - 1];
      InitAndLast(es);
      HistoryIsOwn(init, q, scope);
      if e.Mark? {
        SameNameIsCanon(e.scope, scope);
        if SameName(e.scope, scope) {
          assert Own(es, scope)[..|Own(init, scope)|] == Own(init, scope);
        } else {
          DifferentKeys(e.scope, e.q, scope, q);
          EmptyRight(Own(init, scope));
        }
      } else {
        EmptyRight(Own(init, scope));
      }
    }
  }

  // What else happened, failures of other scopes included, changes no answer: runs
  // with the same failures of a scope answer alike on it.
  lemma {:induction false} OtherScopesDoNotMatter(cfg: Config, es: seq<Event>, fs: seq<Event>, now: int, q: string,
                                                  scope: string)
    requires Timed(es, now) && PlainScopes(es) && OthersApart(es, scope)
    requires Timed(fs, now) && PlainScopes(fs) && OthersApart(fs, scope)
    requires PlainScope(scope) && Own(es, scope) == Own(fs, scope)
    ensures Answered(cfg, es, now, q, scope) == Answered(cfg, fs, now, q, scope)
  {
    SkipRefinesHistory(cfg, es, now, q, scope);
    SkipRefinesHistory(cfg, fs, now, q, scope);
    HistoryIsOwn(es, q, scope);
    HistoryIsOwn(fs, q, scope);
  }

  lemma {:induction false} OwnConcat(es: seq<Event>, fs: seq<Event>, scope: string)
    ensures Own(es + fs, scope) == Own(es, scope) + Own(fs, scope)
  {
    if fs == [] {
      EmptyRight(es);
      EmptyRight(Own(es, scope));
    } else {
      var init := fs[..|fs| - 1];
      OwnConcat(es, init, scope);
      InitOfConcat(es, fs);
      Associative(Own(es, scope), Own(init, scope), Own(fs, scope)[|Own(init, scope)|..]);
    }
  }

  // In particular a failure of another scope, anywhere in a run, blocks nothing.
  lemma FailureElsewhereBlocksNothing(cfg: Config, es: seq<Event>, other: Event, fs: seq<Event>, now: int, q: string,
                                      scope: string)
    requires var all := es + [other] + fs;
             Timed(all, now) && PlainScopes(all) && OthersApart(all, scope)
    requires PlainScope(scope) && other.Mark? && !SameName(other.scope, scope)
    ensures Answered(cfg, es + [other] + fs, now, q, scope) == Answered(cfg, es + fs, now, q, scope)
  {
    var all, rest := es + [other] + fs, es + fs;
    WithoutOne(es, other, fs, now);
    OwnConcat(es + [other], fs, scope);
    OwnConcat(es, [other], scope);
    OwnConcat(es, fs, scope);
    assert [other][..0] == [];
    EmptyRight(Own(es, scope));
    OtherScopesDoNotMatter(cfg, all, rest, now, q, scope);
  }

  lemma WithoutOne(es: seq<Event>, e: Event, fs: seq<Event>, now: int)
    requires Timed(es + [e] + fs, now)
    ensures Timed(es + fs, now) && forall x | x in es + fs :: x in es + [e] + fs
  {
    var all, rest := es + [e] + fs, es + fs;
    forall i | 0 <= i < |rest|
      ensures rest[i] == all[if i < |es| then i else i + 1]
    {
    }
  }

  // ---------- Three failures ----------

  // Three failures of one scope within five minutes and a cooldown, however it was
  // spelled, block it until that time has passed since the first.
  lemma ThreeSpellingsBlock(cfg: Config, es: seq<Event>, a: nat, b: nat, c: nat, now: int, q: string, scope: string)
    requires cfg.ttl > 0 && cfg.allowCPU && Timed(es, now) && PlainScopes(es) && PlainScope(scope)
    requires a < b < c < |es| && es[a].Mark? && es[b].Mark? && es[c].Mark?
    requires SameName(es[a].scope, scope) && SameName(es[b].scope, scope) && SameName(es[c].scope, scope)
    requires cfg.cooldown > 0 && now - es[a].now <= cfg.cooldown && now - es[a].now <= 300_000_000_000
    ensures Answered(cfg, es, now, q, scope) != Go
  {
    SameNameIsCanon(es[a].scope, scope);
    SameNameIsCanon(es[b].scope, scope);
    SameNameIsCanon(es[c].scope, scope);
    NR.BlockedAfterThree(cfg, es, a, b, c, now, q, scope);
  }

  lemma {:induction false} FewActivateNothing(es: seq<Event>, scope: string)
    requires |es| <= 2
    ensures Activation(es, scope) == None && |Pending(es, scope)| <= |es|
  {
    if es != [] {
      var init := es[..|es| - 1];
      FewActivateNothing(init, scope);
      NR.LiveSize(Pending(init, scope), es[|es| - 1].now);
    }
  }

  // Two failures do not.
  lemma TwoFailuresDoNot(cfg: Config, es: seq<Event>, now: int, q: string, scope: string)
    requires Timed(es, now) && PlainScopes(es) && PlainScope(scope) && OthersApart(es, scope)
    requires |Own(es, scope)| <= 2
    ensures Answered(cfg, es, now, q, scope) != SkipCooldown
  {
    SkipRefinesHistory(cfg, es, now, q, scope);
    HistoryIsOwn(es, q, scope);
    FewActivateNothing(Own(es, scope), Canon(scope));
  }

  lemma OfThree(es: seq<Event>, scope: string)
    requires |es| == 3 && forall e | e in es :: e.Mark? && Canon(e.scope) == scope
    requires es[0].now <= es[1].now <= es[2].now
    ensures Activation(es, scope) == if es[2].now - es[0].now <= 300_000_000_000 then Some(es[2].now) else None
  {
    var one, two := es[..1], es[..2];
    assert two[..1] == one && one[..0] == [] && es[..2] == two;
    assert es[0] in es && es[1] in es && es[2] in es;
    assert Pending(one, scope) == [es[0].now] by {
      assert Pending([], scope) == [];
    }
    LiveOne(es[0].now, es[1].now);
    LiveTwo(es[0].now, es[1].now, es[2].now);
    FewActivateNothing(two, scope);
    assert Pending(two, scope) == [es[0].now, es[1].now];
  }

  lemma LiveOne(t: int, now: int)
    ensures |Live([t], now)| <= 1
  {
    NR.LiveSize([t], now);
  }

  lemma LiveTwo(t: int, u: int, now: int)
    requires t <= u <= now
    ensures |Live([t, u], now)| == 2 <==> now - t <= 300_000_000_000
    ensures |Live([t, u], now)| <= 2
  {
    LiveAppend([t], u, now);
    LiveAppend([], t, now);
    assert [] + [t] == [t] && [t] + [u] == [t, u];
  }

  // Of exactly three failures, the third starts the cooldown if and only if it
  // comes within five minutes of the first; then nothing else is turned away for
  // the scope, and nothing of it let through, until the cooldown is over.
  lemma ThreeFailuresCoolIff(cfg: Config, es: seq<Event>, now: int, q: string, scope: string)
    requires Timed(es, now) && PlainScopes(es) && PlainScope(scope) && OthersApart(es, scope)
    requires cfg.ttl > 0 && |Own(es, scope)| == 3 && Answered(cfg, es, now, q, scope) != SkipExact
    ensures var own := Own(es, scope);
            Answered(cfg, es, now, q, scope) == SkipCooldown <==>
              && cfg.allowCPU && cfg.cooldown > 0
              && own[2].now - own[0].now <= 300_000_000_000 && now <= own[2].now + cfg.cooldown
  {
    var own := Own(es, scope);
    SkipRefinesHistory(cfg, es, now, q, scope);
    HistoryIsOwn(es, q, scope);
    OwnFacts(es, now, scope);
    forall e | e in own
      ensures e.Mark? && Canon(e.scope) == Canon(scope)
    {
      SameNameIsCanon(e.scope, scope);
    }
    OfThree(own, Canon(scope));
  }
}
