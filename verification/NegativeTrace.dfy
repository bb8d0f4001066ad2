// The negative cache in the trace of a search: what its questions and recorded
// failures do to it, and why attempts of successive searches do not overlap.

module NegativeTrace {
  import opened Model
  import opened SearchSpec
  import opened NegativeCache
  import NH = NegativeHistory
  import NR = NegativeRate
  import SearchTheory

  // ---------- What a trace does to the cache ----------

  ghost function Step(cfg: Config, a: State, e: Event): State {
    match e
    case Asked(q, scope, now, _) => AskStep(cfg, a, now, q, scope).0
    case Marked(q, scope, now) => MarkStep(cfg, a, now, q, scope)
    case Swept(now) => CleanupStep(a, now)
    case _ => a
  }

  ghost function After(cfg: Config, a: State, evs: seq<Event>): State {
    if evs == [] then a else Step(cfg, After(cfg, a, evs[..|evs| - 1]), evs[|evs| - 1])
  }

  // Every question was answered as the cache stood.
  ghost predicate Truthful(cfg: Config, a: State, evs: seq<Event>) {
    evs != [] ==>
      var init, e := evs[..|evs| - 1], evs[|evs| - 1];
      && Truthful(cfg, a, init)
      && (e.Asked? ==> e.answer == AskStep(cfg, After(cfg, a, init), e.now, e.query, e.scope).1)
  }

  // evs led the cache from a to b.
  ghost predicate Led(cfg: Config, a: State, evs: seq<Event>, b: State) {
    Truthful(cfg, a, evs) && b == After(cfg, a, evs)
  }

  lemma {:induction false} LedConcat(cfg: Config, a: State, x: seq<Event>, b: State, y: seq<Event>, c: State)
    requires Led(cfg, a, x, b) && Led(cfg, b, y, c)
    ensures Led(cfg, a, x + y, c)
  {
    if y == [] {
      EmptyRight(x);
    } else {
      LedConcat(cfg, a, x, b, y[..|y| - 1], After(cfg, b, y[..|y| - 1]));
      InitOfConcat(x, y);
    }
  }

  lemma NothingLeads(cfg: Config, a: State)
    ensures Led(cfg, a, [], a) && Led(cfg, a, [] + [], a)
  {
    EmptyRight<Event>([]);
  }

  lemma AloneLeads(cfg: Config, a: State, evs: seq<Event>, b: State)
    requires Led(cfg, a, evs, b)
    ensures Led(cfg, a, evs + [], b)
  {
    EmptyRight(evs);
  }

  // Events that do not concern the cache.
  ghost predicate Silent(evs: seq<Event>) {
    forall e | e in evs :: e.Looked? || e.Attempt?
  }

  lemma {:induction false} SilentLeads(cfg: Config, a: State, evs: seq<Event>)
    requires Silent(evs)
    ensures Led(cfg, a, evs, a)
  {
    if evs != [] {
      assert evs[|evs| - 1] in evs;
      SilentLeads(cfg, a, evs[..|evs| - 1]);
    }
  }

  // ---------- The history of the cache ----------

  ghost function SeenOf(e: Event): seq<NH.Event> {
    match e
    case Asked(q, scope, now, _) => [NH.Ask(now, q, scope)]
    case Marked(q, scope, now) => [NH.Mark(now, q, scope)]
    case Swept(now) => [NH.Cleanup(now)]
    case _ => []
  }

  // The events of the trace as the negative cache sees them.
  ghost function Seen(evs: seq<Event>): seq<NH.Event> {
    if evs == [] then [] else Seen(evs[..|evs| - 1]) + SeenOf(evs[|evs| - 1])
  }

  lemma {:induction false} SeenConcat(x: seq<Event>, y: seq<Event>)
    ensures Seen(x + y) == Seen(x) + Seen(y)
  {
    if y == [] {
      EmptyRight(x);
      EmptyRight(Seen(x));
    } else {
      var init := y[..|y| - 1];
      SeenConcat(x, init);
      InitOfConcat(x, y);
      Associative(Seen(x), Seen(init), SeenOf(y[|y| - 1]));
    }
  }

  lemma {:induction false} SilentUnseen(evs: seq<Event>)
    requires Silent(evs)
    ensures Seen(evs) == []
  {
    if evs != [] {
      assert evs[|evs| - 1] in evs;
      SilentUnseen(evs[..|evs| - 1]);
    }
  }

  // The state of the cache is the one its history leads to.
  lemma {:induction false} LedIsRun(cfg: Config, es: seq<NH.Event>, evs: seq<Event>)
    ensures After(cfg, NH.Run(cfg, es), evs) == NH.Run(cfg, es + Seen(evs))
  {
    if evs == [] {
      EmptyRight(es);
    } else {
      var init, e := evs[..|evs| - 1], evs[|evs| - 1];
      LedIsRun(cfg, es, init);
      Associative(es, Seen(init), SeenOf(e));
      StepIsApply(cfg, es + Seen(init), e);
    }
  }

  lemma StepIsApply(cfg: Config, es: seq<NH.Event>, e: Event)
    ensures Step(cfg, NH.Run(cfg, es), e) == NH.Run(cfg, es + SeenOf(e))
  {
    if SeenOf(e) == [] {
      EmptyRight(es);
    } else {
      RunAppend(cfg, es, SeenOf(e)[0]);
    }
  }

  lemma RunAppend(cfg: Config, es: seq<NH.Event>, e: NH.Event)
    ensures NH.Run(cfg, es + [e]) == NH.Apply(cfg, NH.Run(cfg, es), e)
  {
    assert (es + [e])[..|es|] == es;
  }

  lemma {:induction false} LedSplit(cfg: Config, a: State, x: seq<Event>, y: seq<Event>, c: State)
    requires Led(cfg, a, x + y, c)
    ensures Led(cfg, a, x, After(cfg, a, x)) && Led(cfg, After(cfg, a, x), y, c)
  {
    if y == [] {
      EmptyRight(x);
    } else {
      InitOfConcat(x, y);
      LedSplit(cfg, a, x, y[..|y| - 1], After(cfg, a, x + y[..|y| - 1]));
    }
  }

  // ---------- One search ----------

  // A failure is recorded at most once, and only if the gate let it through.
  ghost predicate Gated(s: Settings, p: Params, gate: seq<Event>, mark: seq<Event>) {
    && |gate| <= 1 && |mark| <= 1
    && (gate != [] ==> IsAsk(s, p, SearchTheory.Scope(p), gate[0]))
    && (mark != [] ==> gate != [] && gate[0].answer == Go && IsMark(s, p, SearchTheory.Scope(p), mark[0]))
  }

  // A search is silent but for at most one question, and at most one failure that
  // the question let through.
  ghost predicate Anatomy(s: Settings, p: Params, evs: seq<Event>, pre: seq<Event>, gate: seq<Event>, mid: seq<Event>,
                          mark: seq<Event>) {
    evs == pre + gate + mid + mark && Silent(pre) && Silent(mid) && Gated(s, p, gate, mark)
  }

  lemma TierIsSilent(s: Settings, p: Params, mode: string, cols: seq<Collection>, evs: seq<Event>)
    requires TierSpec(s, p, mode, cols, evs)
    ensures Silent(evs)
  {
  }

  lemma AskAnatomy(s: Settings, p: Params, ph: Phases)
    requires AskedFirst(s, p, ph)
    ensures Anatomy(s, p, ph.All(), ph.look, ph.ask, ph.first + ph.second + ph.deep, ph.mark)
  {
    assert ph.All() == ph.look + ph.ask + (ph.first + ph.second + ph.deep) + ph.mark;
  }

  lemma RelookAnatomy(s: Settings, p: Params, ph: Phases)
    requires AskedLater(s, p, ph)
    ensures var k := Min(1, |ph.relook|);
            Anatomy(s, p, ph.All(), ph.look + ph.first + ph.second + ph.relook[..k], ph.relook[k..], ph.deep, ph.mark)
  {
    var k := Min(1, |ph.relook|);
    assert ph.relook == ph.relook[..k] + ph.relook[k..];
    assert ph.All() == ph.look + ph.first + ph.second + ph.relook[..k] + ph.relook[k..] + ph.deep + ph.mark;
  }

  lemma SingleDeepGated(s: Settings, p: Params, ask: seq<Event>, broad: seq<Event>, deep: seq<Event>,
                        mark: seq<Event>, out: Outcome)
    requires SingleDeepSpec(s, p, ask, broad, deep, mark, out) && p.collection != ""
    ensures Gated(s, p, ask, mark) && Silent(broad) && Silent(deep)
  {
    if ask != [] {
      var cols := [FindCollection(s.collections, p.collection).value];
      TierIsSilent(s, p, MODE_SEARCH, cols, broad);
      if ask[0].answer == Go {
        TierIsSilent(s, p, MODE_QUERY, cols, deep);
      }
    }
  }

  lemma PrimaryIsSilent(s: Settings, p: Params, mode: string, first: seq<Event>, second: seq<Event>)
    requires PrimarySpec(s, p, mode, first, second)
    ensures Silent(first) && Silent(second)
  {
    TierIsSilent(s, p, mode, Tier(s.collections, 1), first);
    if second != [] {
      TierIsSilent(s, p, mode, Tier(s.collections, 2), second);
    }
  }

  lemma DeepGated(s: Settings, p: Params, ask: seq<Event>, first: seq<Event>, second: seq<Event>,
                  deep: seq<Event>, mark: seq<Event>, out: Outcome)
    requires DeepSpec(s, p, ask, first, second, deep, mark, out) && p.collection == ""
    ensures Gated(s, p, ask, mark) && Silent(first) && Silent(second) && Silent(deep)
  {
    PrimaryIsSilent(s, p, MODE_SEARCH, first, second);
    if ask[0].answer == Go {
      TierIsSilent(s, p, MODE_QUERY, Tier(s.collections, 1), deep);
    }
  }

  lemma EscalationGated(s: Settings, p: Params, look: seq<Event>, deep: seq<Event>, mark: seq<Event>,
                        used: bool, reason: string)
    requires EscalationSpec(s, p, look, deep, mark, used, reason) && p.collection == ""
    ensures Gated(s, p, look[1..], mark) && Silent(deep)
  {
    if |look| == 2 && look[1].answer == Go {
      TierIsSilent(s, p, MODE_QUERY, Tier(s.collections, 1), deep);
    }
  }

  lemma FallbackGated(s: Settings, p: Params, mode: string, first: seq<Event>, second: seq<Event>,
                      look: seq<Event>, deep: seq<Event>, mark: seq<Event>, out: Outcome)
    requires FallbackSpec(s, p, mode, first, second, look, deep, mark, out) && p.collection == ""
    ensures look != [] ==> look[0].Looked?
    ensures Gated(s, p, look[Min(1, |look|)..], mark) && Silent(first) && Silent(second) && Silent(deep)
  {
    PrimaryIsSilent(s, p, mode, first, second);
    if Escalates(s, p, mode, Surviving(s, p, first + second)) {
      var used, reason :| EscalationSpec(s, p, look, deep, mark, used, reason);
      EscalationGated(s, p, look, deep, mark, used, reason);
    }
  }

  lemma SingleIsSilent(s: Settings, p: Params, mode: string, evs: seq<Event>, out: Outcome)
    requires SingleSpec(s, p, mode, evs, out)
    ensures Silent(evs)
  {
    if evs != [] {
      TierIsSilent(s, p, mode, [FindCollection(s.collections, p.collection).value], evs);
    }
  }

  // The question comes before the attempts, or after the first of them.
  ghost predicate AskedFirst(s: Settings, p: Params, ph: Phases) {
    && Silent(ph.look) && Silent(ph.first) && Silent(ph.second) && ph.relook == [] && Silent(ph.deep)
    && Gated(s, p, ph.ask, ph.mark)
  }

  ghost predicate AskedLater(s: Settings, p: Params, ph: Phases) {
    && Silent(ph.look) && ph.ask == [] && Silent(ph.first) && Silent(ph.second) && Silent(ph.deep)
    && (ph.relook != [] ==> ph.relook[0].Looked?)
    && Gated(s, p, ph.relook[Min(1, |ph.relook|)..], ph.mark)
  }

  lemma DeepAsksFirst(s: Settings, p: Params, ph: Phases, out: Outcome)
    requires SingleDeepSpec(s, p, ph.ask, ph.first, ph.deep, ph.mark, out) && p.collection != ""
    requires Silent(ph.look) && ph.second == ph.relook == []
    ensures AskedFirst(s, p, ph)
  {
    SingleDeepGated(s, p, ph.ask, ph.first, ph.deep, ph.mark, out);
  }

  lemma PlainAsksNothing(s: Settings, p: Params, mode: string, ph: Phases, out: Outcome)
    requires SingleSpec(s, p, mode, ph.first, out)
    requires Silent(ph.look) && ph.ask == ph.second == ph.relook == ph.deep == ph.mark == []
    ensures AskedFirst(s, p, ph)
  {
    SingleIsSilent(s, p, mode, ph.first, out);
  }

  lemma NamedAsksFirst(s: Settings, p: Params, ph: Phases, out: Outcome)
    requires MissSpec(s, p, ph, out) && p.collection != "" && Silent(ph.look)
    ensures AskedFirst(s, p, ph)
  {
    var mode := Resolve(s, p.mode, p.query, ph.look[0].overloaded);
    if mode == MODE_QUERY {
      DeepAsksFirst(s, p, ph, out);
    } else {
      PlainAsksNothing(s, p, mode, ph, out);
    }
  }

  lemma {:induction false} UnnamedAsks(s: Settings, p: Params, ph: Phases, out: Outcome)
    requires MissSpec(s, p, ph, out) && p.collection == "" && Silent(ph.look)
    ensures AskedFirst(s, p, ph) || AskedLater(s, p, ph)
  {
    var mode := Resolve(s, p.mode, p.query, ph.look[0].overloaded);
    if mode == MODE_QUERY {
      DeepGated(s, p, ph.ask, ph.first, ph.second, ph.deep, ph.mark, out);
      assert AskedFirst(s, p, ph);
    } else {
      FallbackGated(s, p, mode, ph.first, ph.second, ph.relook, ph.deep, ph.mark, out);
      assert AskedLater(s, p, ph);
    }
  }

  lemma LookIsSilent(look: seq<Event>)
    requires |look| == 1 && look[0].Looked?
    ensures Silent(look)
  {
  }

  lemma SearchAsks(s: Settings, p: Params, ph: Phases, out: Outcome)
    requires MissSpec(s, p, ph, out)
    ensures AskedFirst(s, p, ph) || AskedLater(s, p, ph)
  {
    LookIsSilent(ph.look);
    if p.collection == "" {
      UnnamedAsks(s, p, ph, out);
    } else {
      NamedAsksFirst(s, p, ph, out);
    }
  }

  lemma PhasesAnatomy(s: Settings, p: Params, ph: Phases) returns (pre: seq<Event>, gate: seq<Event>, mid: seq<Event>)
    requires AskedFirst(s, p, ph) || AskedLater(s, p, ph)
    ensures Anatomy(s, p, ph.All(), pre, gate, mid, ph.mark)
  {
    if AskedFirst(s, p, ph) {
      AskAnatomy(s, p, ph);
      pre, gate, mid := ph.look, ph.ask, ph.first + ph.second + ph.deep;
    } else {
      RelookAnatomy(s, p, ph);
      var k := Min(1, |ph.relook|);
      pre, gate, mid := ph.look + ph.first + ph.second + ph.relook[..k], ph.relook[k..], ph.deep;
    }
  }

  lemma LedAround(cfg: Config, a: State, pre: seq<Event>, gate: seq<Event>, mid: seq<Event>, mark: seq<Event>, b: State)
    requires Silent(pre) && Silent(mid) && Led(cfg, a, gate + mark, b)
    ensures Led(cfg, a, pre + gate + mid + mark, b)
  {
    var c := After(cfg, a, gate);
    LedSplit(cfg, a, gate, mark, b);
    SilentLeads(cfg, a, pre);
    SilentLeads(cfg, c, mid);
    LedConcat(cfg, a, pre, a, gate, c);
    LedConcat(cfg, a, pre + gate, c, mid, c);
    LedConcat(cfg, a, pre + gate + mid, c, mark, b);
  }

  // What the questions and the failure of a search do, the whole search does.
  lemma LedAll(cfg: Config, s: Settings, p: Params, ph: Phases, a: State, b: State)
    requires AskedFirst(s, p, ph) || AskedLater(s, p, ph)
    requires Led(cfg, a, ph.ask + ph.relook + ph.mark, b)
    ensures Led(cfg, a, ph.All(), b)
  {
    if AskedFirst(s, p, ph) {
      assert ph.ask + ph.relook == ph.ask;
      LedAround(cfg, a, ph.look, ph.ask, ph.first + ph.second + ph.deep, ph.mark, b);
      AskAnatomy(s, p, ph);
    } else {
      var k := Min(1, |ph.relook|);
      assert ph.ask + ph.relook + ph.mark == ph.relook[..k] + (ph.relook[k..] + ph.mark);
      SilentLeads(cfg, a, ph.relook[..k]);
      LedSplit(cfg, a, ph.relook[..k], ph.relook[k..] + ph.mark, b);
      LedAround(cfg, a, ph.look + ph.first + ph.second + ph.relook[..k], ph.relook[k..], ph.deep, ph.mark, b);
      RelookAnatomy(s, p, ph);
    }
  }

  // ---------- Successive searches ----------

  lemma SeenAround(pre: seq<Event>, gate: seq<Event>, mid: seq<Event>, mark: seq<Event>)
    requires Silent(pre) && Silent(mid)
    ensures Seen(pre + gate + mid + mark) == Seen(gate) + Seen(mark)
  {
    SilentUnseen(pre);
    SilentUnseen(mid);
    SeenConcat(pre, gate);
    SeenConcat(pre + gate, mid);
    SeenConcat(pre + gate + mid, mark);
    EmptyRight(Seen(gate));
    assert [] + Seen(gate) == Seen(gate);
  }

  lemma AskSeen(e: Event)
    requires e.Asked?
    ensures Seen([e]) == [NH.Ask(e.now, e.query, e.scope)]
  {
    assert [e][..0] == [];
  }

  lemma MarkSeen(e: Event)
    requires e.Marked?
    ensures Seen([e]) == [NH.Mark(e.now, e.query, e.scope)]
  {
    assert [e][..0] == [];
  }

  // A question, and perhaps the failure it let through, after sequential attempts.
  lemma GateKeepsSequential(cfg: Config, es: seq<NH.Event>, s: Settings, p: Params, gate: seq<Event>, mark: seq<Event>)
    requires NR.Sequential(cfg, es) && Gated(s, p, gate, mark)
    requires gate != [] ==> gate[0].answer == NH.Answered(cfg, es, gate[0].now, gate[0].query, gate[0].scope)
    ensures NR.Sequential(cfg, es + Seen(gate) + Seen(mark))
  {
    if gate == [] {
      EmptyRight(es);
    } else {
      var e := gate[0];
      assert gate == [e];
      AskSeen(e);
      if mark == [] {
        NR.OneMoreEvent(cfg, es, NH.Ask(e.now, e.query, e.scope), 1);
        EmptyRight(es + Seen(gate));
      } else {
        assert mark == [mark[0]];
        MarkSeen(mark[0]);
        NR.OneMoreAttempt(cfg, es, e.query, e.scope, e.now, mark[0].now);
      }
    }
  }

  // A search between others keeps attempts on a scope from overlapping: a question
  // is answered from the whole history before it, and nothing comes between it and
  // the failure it let through.
  lemma SearchKeepsSequential(cfg: Config, es: seq<NH.Event>, s: Settings, p: Params, ph: Phases, out: Outcome,
                              b: State)
    requires NR.Sequential(cfg, es) && Led(cfg, NH.Run(cfg, es), ph.All(), b)
    requires MissSpec(s, p, ph, out)
    ensures NR.Sequential(cfg, es + Seen(ph.All()))
  {
    SearchAsks(s, p, ph, out);
    var pre, gate, mid := PhasesAnatomy(s, p, ph);
    SeenAround(pre, gate, mid, ph.mark);
    Associative(pre + gate, mid, ph.mark);
    if gate != [] {
      GateTells(cfg, es, ph.All(), pre, gate, mid + ph.mark, b);
    }
    GateKeepsSequential(cfg, es, s, p, gate, ph.mark);
    Associative(es, Seen(gate), Seen(ph.mark));
  }

  // The question of a search was answered from the history before the search.
  lemma GateTells(cfg: Config, es: seq<NH.Event>, evs: seq<Event>, pre: seq<Event>, gate: seq<Event>, rest: seq<Event>,
                  b: State)
    requires Led(cfg, NH.Run(cfg, es), evs, b) && evs == pre + gate + rest
    requires Silent(pre) && |gate| == 1 && gate[0].Asked?
    ensures gate[0].answer == NH.Answered(cfg, es, gate[0].now, gate[0].query, gate[0].scope)
  {
    var a := NH.Run(cfg, es);
    LedSplit(cfg, a, pre + gate, rest, b);
    LedSplit(cfg, a, pre, gate, After(cfg, a, pre + gate));
    SilentLeads(cfg, a, pre);
    assert gate[..0] == [];
  }
}
