// What the orchestrator does not control: the clock, the CPU guard's flags, the
// overload queue and the external executor. Each reading may depend on how many
// readings came before it, so every schedule of outside events is some World.

module World {
  import opened Model
  import opened SearchSpec

  // ---------- The time of events ----------

  // The clock never goes back.
  ghost predicate Monotone(clock: nat -> int) {
    forall i: nat, j: nat | i <= j :: clock(i) <= clock(j)
  }

  function TimeOf(e: Event): Option<int> {
    match e
    case Asked(_, _, now, _) => Some(now)
    case Marked(_, _, now) => Some(now)
    case Swept(now) => Some(now)
    case _ => None
  }

  // Times never go back, and end no later than t.
  ghost predicate Dated(evs: seq<Event>, t: int) {
    evs != [] ==>
      var init, time := evs[..|evs| - 1], TimeOf(evs[|evs| - 1]);
      if time.Some? then Dated(init, time.value) && time.value <= t else Dated(init, t)
  }

  lemma {:induction false} DatedLater(evs: seq<Event>, t: int, later: int)
    requires Dated(evs, t) && t <= later
    ensures Dated(evs, later)
  {
    if evs != [] && TimeOf(evs[|evs| - 1]).None? {
      DatedLater(evs[..|evs| - 1], t, later);
    }
  }

  lemma DatedNext(evs: seq<Event>, e: Event, t: int)
    requires if TimeOf(e).Some? then Dated(evs, TimeOf(e).value) && TimeOf(e).value <= t else Dated(evs, t)
    ensures Dated(evs + [e], t)
  {
    assert (evs + [e])[..|evs|] == evs;
  }

  // ---------- The world ----------

  class World {
    const clock: nat -> int
    const overloaded: nat -> bool
    const critical: nat -> bool
    const busy: nat -> bool
    const executor: (nat, Call) -> Option<seq<Hit>>
    var step: nat
    var log: seq<Event>

    // The log is dated by the clock, if that never goes back.
    ghost predicate Valid()
      reads this
    {
      Monotone(clock) ==> Dated(log, clock(step))
    }

    // A reading is taken.
    lemma NextStep()
      requires Valid()
      ensures Monotone(clock) ==> Dated(log, clock(step + 1))
    {
      if Monotone(clock) {
        DatedLater(log, clock(step), clock(step + 1));
      }
    }

    constructor (clock: nat -> int, overloaded: nat -> bool, critical: nat -> bool, busy: nat -> bool,
                 executor: (nat, Call) -> Option<seq<Hit>>)
      ensures Valid() && step == 0 && log == []
    {
      this.clock, this.overloaded, this.critical, this.busy := clock, overloaded, critical, busy;
      this.executor := executor;
      step, log := 0, [];
    }

    method Now() returns (t: int)
      requires Valid()
      modifies `step
      ensures Valid() && t == clock(old(step)) && step == old(step) + 1
    {
      NextStep();
      t := clock(step);
      step := step + 1;
    }

    method IsOverloaded() returns (on: bool)
      requires Valid()
      modifies this
      ensures Valid() && on == overloaded(old(step)) && step == old(step) + 1
      ensures log == old(log) + [Looked(on)]
    {
      NextStep();
      on := overloaded(step);
      if Monotone(clock) {
        DatedNext(log, Looked(on), clock(step + 1));
      }
      step := step + 1;
      log := log + [Looked(on)];
    }

    method IsCriticalOverloaded() returns (on: bool)
      requires Valid()
      modifies `step
      ensures Valid() && on == critical(old(step)) && step == old(step) + 1
    {
      NextStep();
      on := critical(step);
      step := step + 1;
    }

    // execSearch: the overload token, then one executor call.
    method ExecSearch(s: Settings, p: Params, mode: string, col: Collection) returns (r: Reply)
      requires Valid()
      modifies this
      ensures Valid() && step == old(step) + 1
      ensures log == old(log) + [Attempt(col, CallOf(s, p, mode, col.name), r)]
      ensures if overloaded(old(step)) && busy(old(step)) then r == Refused
              else match executor(old(step), CallOf(s, p, mode, col.name))
                   case None => r == Failed
                   case Some(hits) => r == Hits(hits)
    {
      NextStep();
      var call := CallOf(s, p, mode, col.name);
      var queued := overloaded(step);
      var turnedAway := busy(step);
      var hits := executor(step, call);
      step := step + 1;
      if queued && turnedAway {
        r := Refused;
      } else {
        r := if hits.Some? then Hits(hits.value) else Failed;
      }
      if Monotone(clock) {
        DatedNext(log, Attempt(col, call, r), clock(step));
      }
      log := log + [Attempt(col, call, r)];
    }

    // An event that happened at the last reading.
    method Record(e: Event)
      requires TimeOf(e).Some? && (Monotone(clock) ==> Dated(log, TimeOf(e).value) && TimeOf(e).value <= clock(step))
      modifies `log
      ensures Valid() && log == old(log) + [e]
    {
      if Monotone(clock) {
        DatedNext(log, e, clock(step));
      }
      log := log + [e];
    }
  }

  // From here on nothing outside changes: one time, critical load, and the
  // overload flag as it is.
  ghost predicate SteadyCritical(w: World)
    reads w
  {
    forall k: nat | k >= w.step :: w.clock(k) == w.clock(w.step) && w.overloaded(k) == w.overloaded(w.step)
      && w.critical(k)
  }
}
