// orchestrator and executor/cli: the overload token around every executor call
// and the query slot around every deep query, under any interleaving of
// searches and overload flips.

module Tokens {
  import opened Model

  // Both queues are buffered channels. A capacity of zero stands for the nil
  // query channel, through which everyone passes.
  datatype Config = Config(maxConcurrentSearch: int, queryMaxConcurrency: int)

  function TokenCap(cfg: Config): nat {
    if cfg.maxConcurrentSearch <= 0 then 2 else cfg.maxConcurrentSearch
  }

  function SlotCap(cfg: Config): nat {
    if cfg.queryMaxConcurrency > 0 then cfg.queryMaxConcurrency else 0
  }

  // ---------- The protocol ----------

  // Where one search is. Token: it must give a token back; query: it must give a
  // query slot back.
  datatype Stage =
    | Queued                               // saw overload, waits for a token
    | Admitted(token: bool)                // about to call the executor
    | AwaitSlot(token: bool)               // a deep query waiting for its slot
    | Working(token: bool, query: bool)    // the external process runs
    | Returned(token: bool)                // the call is over

  // Defaults counts the releases that found their channel empty.
  datatype State = State(overloaded: bool, tokens: nat, slots: nat, stages: map<nat, Stage>, defaults: nat)

  const IDLE := State(false, 0, 0, map[], 0)

  datatype Step =
    | Flip(on: bool)
    | Begin(id: nat)
    | Token(id: nat) | TokenTimeout(id: nat)
    | Work(id: nat) | Query(id: nat) | Unavailable(id: nat)
    | Slot(id: nat) | SlotTimeout(id: nat)
    | WorkDone(id: nat)
    | End(id: nat)

  function At(s: State, id: nat): Option<Stage> {
    if id in s.stages then Some(s.stages[id]) else None
  }

  // Whether a step can be taken. A search waits at a full channel.
  predicate Enabled(cfg: Config, s: State, step: Step) {
    match step
    case Flip(_) => true
    case Begin(id) => At(s, id) == None
    case Token(id) => At(s, id) == Some(Queued) && s.tokens < TokenCap(cfg)
    case TokenTimeout(id) => At(s, id) == Some(Queued)
    case Work(id) => At(s, id).Some? && s.stages[id].Admitted?
    case Query(id) => At(s, id).Some? && s.stages[id].Admitted?
    case Unavailable(id) => At(s, id).Some? && s.stages[id].Admitted?
    case Slot(id) => At(s, id).Some? && s.stages[id].AwaitSlot? && (SlotCap(cfg) == 0 || s.slots < SlotCap(cfg))
    case SlotTimeout(id) => At(s, id).Some? && s.stages[id].AwaitSlot?
    case WorkDone(id) => At(s, id).Some? && s.stages[id].Working?
    case End(id) => At(s, id).Some? && s.stages[id].Returned?
  }

  // A receive that does not wait: what is left, and whether it found a token.
  function Receive(len: nat): (nat, bool) {
    if len > 0 then (len - 1, true) else (0, false)
  }

  function Moved(s: State, id: nat, to: Stage): State {
    s.(stages := s.stages[id := to])
  }

  function Without(m: map<nat, Stage>, id: nat): map<nat, Stage> {
    map k | k in m && k != id :: m[k]
  }

  function Gone(s: State, id: nat): State {
    s.(stages := Without(s.stages, id))
  }

  function ReleaseToken(s: State, token: bool): State {
    if !token then s else
    var (left, found) := Receive(s.tokens);
    s.(tokens := left, defaults := s.defaults + if found then 0 else 1)
  }

  function ReleaseSlot(cfg: Config, s: State): State {
    if SlotCap(cfg) == 0 then s else
    var (left, found) := Receive(s.slots);
    s.(slots := left, defaults := s.defaults + if found then 0 else 1)
  }

  function Next(cfg: Config, s: State, step: Step): State
    requires Enabled(cfg, s, step)
  {
    match step
    case Flip(on) => s.(overloaded := on)
    case Begin(id) => Moved(s, id, if s.overloaded then Queued else Admitted(false))
    case Token(id) => Moved(s, id, Admitted(true)).(tokens := s.tokens + 1)
    case TokenTimeout(id) => Gone(s, id)
    case Work(id) => Moved(s, id, Working(s.stages[id].token, false))
    case Query(id) => Moved(s, id, AwaitSlot(s.stages[id].token))
    case Unavailable(id) => Moved(s, id, Returned(s.stages[id].token))
    case Slot(id) =>
      Moved(s, id, Working(s.stages[id].token, true)).(slots := s.slots + if SlotCap(cfg) == 0 then 0 else 1)
    case SlotTimeout(id) => Moved(s, id, Returned(s.stages[id].token))
    case WorkDone(id) =>
      var done := Moved(s, id, Returned(s.stages[id].token));
      if s.stages[id].query then ReleaseSlot(cfg, done) else done
    case End(id) => ReleaseToken(Gone(s, id), s.stages[id].token)
  }

  // Steps that are not enabled do not happen.
  function Taken(cfg: Config, s: State, step: Step): State {
    if Enabled(cfg, s, step) then Next(cfg, s, step) else s
  }

  // The state after a run.
  function Run(cfg: Config, steps: seq<Step>): State {
    if steps == [] then IDLE else Taken(cfg, Run(cfg, steps[..|steps| - 1]), steps[|steps| - 1])
  }

  // ---------- Conservation ----------

  predicate HasToken(st: Stage) {
    !st.Queued? && st.token
  }

  predicate HasSlot(st: Stage) {
    st.Working? && st.query
  }

  ghost function TokenHolders(m: map<nat, Stage>): set<nat> {
    set id | id in m && HasToken(m[id])
  }

  ghost function SlotHolders(m: map<nat, Stage>): set<nat> {
    set id | id in m && HasSlot(m[id])
  }

  lemma MovedHolders(m: map<nat, Stage>, id: nat, to: Stage)
    ensures TokenHolders(m[id := to]) == if HasToken(to) then TokenHolders(m) + {id} else TokenHolders(m) - {id}
    ensures SlotHolders(m[id := to]) == if HasSlot(to) then SlotHolders(m) + {id} else SlotHolders(m) - {id}
  {
  }

  lemma GoneHolders(m: map<nat, Stage>, id: nat)
    ensures TokenHolders(Without(m, id)) == TokenHolders(m) - {id}
    ensures SlotHolders(Without(m, id)) == SlotHolders(m) - {id}
  {
  }

  ghost predicate Conserved(cfg: Config, s: State) {
    && s.tokens == |TokenHolders(s.stages)| <= TokenCap(cfg)
    && (SlotCap(cfg) > 0 ==> s.slots == |SlotHolders(s.stages)| <= SlotCap(cfg))
    && (SlotCap(cfg) == 0 ==> s.slots == 0)
    && s.defaults == 0
  }

  lemma Put(a: set<nat>, id: nat)
    ensures |a + {id}| == |a| + if id in a then 0 else 1
  {
    if id in a {
      assert a + {id} == a;
    }
  }

  lemma Take(a: set<nat>, id: nat)
    ensures |a - {id}| == |a| - if id in a then 1 else 0
  {
    if id in a {
      Put(a - {id}, id);
      assert a - {id} + {id} == a;
    } else {
      assert a - {id} == a;
    }
  }

  // How the numbers of holders change when id moves on.
  lemma MovedCounts(m: map<nat, Stage>, id: nat, to: Stage)
    ensures |TokenHolders(m[id := to])|
         == |TokenHolders(m)| + (if HasToken(to) then 1 else 0) - (if id in m && HasToken(m[id]) then 1 else 0)
    ensures |SlotHolders(m[id := to])|
         == |SlotHolders(m)| + (if HasSlot(to) then 1 else 0) - (if id in m && HasSlot(m[id]) then 1 else 0)
  {
    MovedHolders(m, id, to);
    Put(TokenHolders(m), id);
    Take(TokenHolders(m), id);
    Put(SlotHolders(m), id);
    Take(SlotHolders(m), id);
  }

  lemma GoneCounts(m: map<nat, Stage>, id: nat)
    ensures |TokenHolders(Without(m, id))| == |TokenHolders(m)| - (if id in m && HasToken(m[id]) then 1 else 0)
    ensures |SlotHolders(Without(m, id))| == |SlotHolders(m)| - (if id in m && HasSlot(m[id]) then 1 else 0)
  {
    GoneHolders(m, id);
    Take(TokenHolders(m), id);
    Take(SlotHolders(m), id);
  }

  lemma StepConserves(cfg: Config, s: State, step: Step)
    requires Conserved(cfg, s)
    ensures Conserved(cfg, Taken(cfg, s, step))
  {
    if Enabled(cfg, s, step) && !step.Flip? {
      GoneCounts(s.stages, step.id);
      if !step.End? && !step.TokenTimeout? {
        MovedCounts(s.stages, step.id, Next(cfg, s, step).stages[step.id]);
      }
    }
  }

  // Under any interleaving each channel holds one token for each search that must
  // give one back, never more than its capacity, and no release finds it empty.
  lemma {:induction false} TokensAreConserved(cfg: Config, steps: seq<Step>)
    ensures Conserved(cfg, Run(cfg, steps))
  {
    if steps != [] {
      var init, step := steps[..|steps| - 1], steps[|steps| - 1];
      TokensAreConserved(cfg, init);
      StepConserves(cfg, Run(cfg, init), step);
    }
  }

  // What the flag said when id last began.
  function SawOverload(cfg: Config, steps: seq<Step>, id: nat): Option<bool> {
    if steps == [] then None else
    var init, step := steps[..|steps| - 1], steps[|steps| - 1];
    if step == Begin(id) && Enabled(cfg, Run(cfg, init), step) then Some(Run(cfg, init).overloaded)
    else SawOverload(cfg, init, id)
  }

  // A search in flight waits for or holds a token exactly if it began under
  // overload; whatever the flag does later makes no difference.
  lemma {:induction false} TokenlessBeganCalm(cfg: Config, steps: seq<Step>, id: nat)
    ensures var s := Run(cfg, steps);
            id in s.stages ==>
              && SawOverload(cfg, steps, id).Some?
              && (SawOverload(cfg, steps, id).value <==> s.stages[id].Queued? || HasToken(s.stages[id]))
  {
    if steps != [] {
      TokenlessBeganCalm(cfg, steps[..|steps| - 1], id);
    }
  }

  // The searches past the token gate that began under overload.
  ghost function CallingUnderOverload(cfg: Config, steps: seq<Step>): set<nat> {
    set id | id in Run(cfg, steps).stages && !Run(cfg, steps).stages[id].Queued?
      && SawOverload(cfg, steps, id) == Some(true)
  }

  // The deep queries the external process is working on.
  ghost function QueriesAtWork(cfg: Config, steps: seq<Step>): set<nat> {
    SlotHolders(Run(cfg, steps).stages)
  }

  // What the queues are for: at most so many searches begun under overload, and
  // at most so many deep queries, are at the executor at once.
  lemma ConcurrencyIsBounded(cfg: Config, steps: seq<Step>)
    ensures |CallingUnderOverload(cfg, steps)| <= if cfg.maxConcurrentSearch > 0 then cfg.maxConcurrentSearch else 2
    ensures cfg.queryMaxConcurrency > 0 ==> |QueriesAtWork(cfg, steps)| <= cfg.queryMaxConcurrency
  {
    TokensAreConserved(cfg, steps);
    CallersHoldTokens(cfg, steps);
  }

  lemma CallersHoldTokens(cfg: Config, steps: seq<Step>)
    ensures CallingUnderOverload(cfg, steps) == TokenHolders(Run(cfg, steps).stages)
  {
    forall id
      ensures id in CallingUnderOverload(cfg, steps) <==> id in TokenHolders(Run(cfg, steps).stages)
    {
      TokenlessBeganCalm(cfg, steps, id);
    }
  }

  // And the queues hold nobody back before that: a search waiting for a token enters
  // exactly if fewer searches begun under overload than configured, or than two, are
  // past the gate, and a deep query exactly if fewer than configured are at work.
  lemma EntersIff(cfg: Config, steps: seq<Step>, id: nat)
    requires id in Run(cfg, steps).stages
    ensures Run(cfg, steps).stages[id].Queued? ==>
              (Enabled(cfg, Run(cfg, steps), Token(id)) <==>
                 |CallingUnderOverload(cfg, steps)|
                 < if cfg.maxConcurrentSearch > 0 then cfg.maxConcurrentSearch else 2)
    ensures Run(cfg, steps).stages[id].AwaitSlot? ==>
              (Enabled(cfg, Run(cfg, steps), Slot(id)) <==>
                 cfg.queryMaxConcurrency <= 0 || |QueriesAtWork(cfg, steps)| < cfg.queryMaxConcurrency)
  {
    TokensAreConserved(cfg, steps);
    CallersHoldTokens(cfg, steps);
  }

  // When nothing is in flight both channels are empty.
  lemma NothingLeaks(cfg: Config, steps: seq<Step>)
    requires Run(cfg, steps).stages == map[]
    ensures Run(cfg, steps).tokens == 0 && Run(cfg, steps).slots == 0
  {
    TokensAreConserved(cfg, steps);
    assert TokenHolders(map[]) == {} && SlotHolders(map[]) == {};
  }

  // ---------- No deadlock ----------

  predicate Waiting(st: Stage) {
    st.Queued? || st.AwaitSlot?
  }

  // A step of a search in flight that does not give up.
  predicate Advances(step: Step) {
    !step.Flip? && !step.Begin? && !step.TokenTimeout? && !step.SlotTimeout?
  }

  // Although a deep query may wait for a slot while it holds a token, some
  // search in flight can always go on, even if no context ever expires.
  lemma NoDeadlock(cfg: Config, steps: seq<Step>) returns (step: Step)
    requires Run(cfg, steps).stages != map[]
    ensures Advances(step) && Enabled(cfg, Run(cfg, steps), step)
  {
    var s := Run(cfg, steps);
    TokensAreConserved(cfg, steps);
    if id :| id in s.stages && !Waiting(s.stages[id]) {
      var st := s.stages[id];
      step := if st.Admitted? then Work(id) else if st.Working? then WorkDone(id) else End(id);
    } else if id :| id in s.stages && s.stages[id].AwaitSlot? {
      assert SlotHolders(s.stages) == {};
      step := Slot(id);
    } else {
      assert TokenHolders(s.stages) == {};
      var id :| id in s.stages;
      step := Token(id);
    }
  }

  // ---------- The code ----------

  // How a try at a queue ends. A search that is blocked tries again.
  datatype Admission = Entered | Passed | GaveUp | Blocked

  // The orchestrator's and the executor's queues, and where each search is.
  class Gates {
    const cfg: Config
    var overloaded: bool
    var tokens: nat
    var slots: nat
    var stages: map<nat, Stage>
    var defaults: nat

    ghost function Abs(): State
      reads this
    {
      State(overloaded, tokens, slots, stages, defaults)
    }

    ghost predicate Valid()
      reads this
    {
      Conserved(cfg, Abs())
    }

    constructor (config: Config)
      ensures Valid() && cfg == config && Abs() == IDLE
    {
      cfg := config;
      overloaded, tokens, slots, stages, defaults := false, 0, 0, map[], 0;
      new;
      TokensAreConserved(config, []);
    }

    // The CPU guard changes its mind.
    method SetOverloaded(on: bool)
      requires Valid()
      modifies `overloaded
      ensures Valid() && Abs() == Next(cfg, old(Abs()), Flip(on))
    {
      overloaded := on;
    }

    // acquireOverloadSearchToken; expired says that the context ends before a
    // token can be had.
    method AcquireOverloadSearchToken(id: nat, expired: bool) returns (a: Admission)
      requires Valid() && id !in stages
      modifies this
      ensures Valid()
      ensures Abs() == Taken(cfg, Next(cfg, old(Abs()), Begin(id)), if expired then TokenTimeout(id) else Token(id))
      ensures a.Passed? <==> !old(overloaded)
      ensures a.Entered? <==> At(Abs(), id) == Some(Admitted(true))
      ensures a.Blocked? <==> At(Abs(), id) == Some(Queued)
    {
      StepConserves(cfg, Abs(), Begin(id));
      if !overloaded {
        stages := stages[id := Admitted(false)];
        return Passed;
      }
      stages := stages[id := Queued];
      a := AwaitToken(id, expired);
    }

    // The select of acquireOverloadSearchToken.
    method AwaitToken(id: nat, expired: bool) returns (a: Admission)
      requires Valid() && At(Abs(), id) == Some(Queued)
      modifies `tokens, `stages
      ensures Valid() && Abs() == Taken(cfg, old(Abs()), if expired then TokenTimeout(id) else Token(id))
      ensures a == if expired then GaveUp else if old(tokens) < TokenCap(cfg) then Entered else Blocked
    {
      StepConserves(cfg, Abs(), if expired then TokenTimeout(id) else Token(id));
      if expired {
        stages := Without(stages, id);
        return GaveUp;
      }
      if tokens >= TokenCap(cfg) {
        return Blocked;
      }
      tokens := tokens + 1;
      stages := stages[id := Admitted(true)];
      return Entered;
    }

    // releaseOverloadSearchToken, which never finds the channel empty.
    method ReleaseOverloadSearchToken(id: nat)
      requires Valid() && Enabled(cfg, Abs(), End(id))
      modifies this
      ensures Valid() && Abs() == Next(cfg, old(Abs()), End(id)) && defaults == old(defaults)
    {
      StepConserves(cfg, Abs(), End(id));
      var token := stages[id].token;
      stages := Without(stages, id);
      if !token {
        return;
      }
      var (left, found) := Receive(tokens);
      tokens, defaults := left, defaults + if found then 0 else 1;
    }

    // acquireQuerySlot
    method AcquireQuerySlot(id: nat, expired: bool) returns (a: Admission)
      requires Valid() && Enabled(cfg, Abs(), Query(id))
      modifies this
      ensures Valid()
      ensures Abs() == Taken(cfg, Next(cfg, old(Abs()), Query(id)),
                             if expired && SlotCap(cfg) > 0 then SlotTimeout(id) else Slot(id))
      ensures a.Passed? <==> SlotCap(cfg) == 0
      ensures a.Blocked? <==> At(Abs(), id) == Some(AwaitSlot(old(stages)[id].token))
    {
      StepConserves(cfg, Abs(), Query(id));
      stages := stages[id := AwaitSlot(stages[id].token)];
      a := AwaitQuerySlot(id, expired);
    }

    // The select of acquireQuerySlot, or the nil channel.
    method AwaitQuerySlot(id: nat, expired: bool) returns (a: Admission)
      requires Valid() && Enabled(cfg, Abs(), SlotTimeout(id))
      modifies `slots, `stages
      ensures Valid()
      ensures Abs() == Taken(cfg, old(Abs()), if expired && SlotCap(cfg) > 0 then SlotTimeout(id) else Slot(id))
      ensures a == if SlotCap(cfg) == 0 then Passed
                   else if expired then GaveUp
                   else if old(slots) < SlotCap(cfg) then Entered else Blocked
    {
      StepConserves(cfg, Abs(), if expired && SlotCap(cfg) > 0 then SlotTimeout(id) else Slot(id));
      var token := stages[id].token;
      if SlotCap(cfg) == 0 {
        stages := stages[id := Working(token, true)];
        return Passed;
      }
      if expired {
        stages := stages[id := Returned(token)];
        return GaveUp;
      }
      if slots >= SlotCap(cfg) {
        return Blocked;
      }
      slots := slots + 1;
      stages := stages[id := Working(token, true)];
      return Entered;
    }

    // releaseQuerySlot, which never finds the channel empty.
    method ReleaseQuerySlot(id: nat)
      requires Valid() && Enabled(cfg, Abs(), WorkDone(id)) && stages[id].query
      modifies this
      ensures Valid() && Abs() == Next(cfg, old(Abs()), WorkDone(id)) && defaults == old(defaults)
    {
      StepConserves(cfg, Abs(), WorkDone(id));
      stages := stages[id := Returned(stages[id].token)];
      if SlotCap(cfg) == 0 {
        return;
      }
      var (left, found) := Receive(slots);
      slots, defaults := left, defaults + if found then 0 else 1;
    }
  }
}
