// scheduler: one run per task name at a time, retries, and the index versions
// that reindexing installs in the result cache.

module Scheduler {
  import opened Model
  import LruCache
  import LruTheory

  const REINDEX := "index_refresh"
  const CLEANUP := "cache_cleanup"
  const MAX_RETRIES := 3

  // ---------- The protocol ----------

  // Where one call of runTask is. Reindexing reads the clock and installs the
  // version in two steps.
  datatype Phase = Busy | Stamped(version: int) | Sleeping | Finished

  // Calls counts the calls of the task's body that have begun.
  datatype Job = Job(name: string, calls: nat, phase: Phase)

  // Ops is every operation on the result cache so far, in lock order.
  datatype State = State(clock: int, running: set<string>, jobs: map<nat, Job>, ops: seq<LruTheory.Op>)

  datatype Step =
    | Tick(now: int)
    | Invoke(id: nat, name: string)       // a timer or a manual trigger calls runTask
    | Updated(id: nat)                    // the update succeeded and the clock was read
    | Install(id: nat)                    // SetVersion
    | Cleaned(id: nat)                    // the cache cleanup
    | Done(id: nat)                       // any other body succeeded
    | Failed(id: nat)
    | Wake(id: nat)                       // the back-off is over
    | Finish(id: nat)                     // the deferred delete
    | Use(op: LruTheory.Op)               // searches and the clear command

  function Start(clock: int): State {
    State(clock, {}, map[], [])
  }

  predicate In(s: State, id: nat, phase: Phase) {
    id in s.jobs && s.jobs[id].phase == phase
  }

  predicate Enabled(s: State, step: Step) {
    match step
    case Tick(now) => now >= s.clock
    case Invoke(id, _) => id !in s.jobs
    case Updated(id) => In(s, id, Busy) && s.jobs[id].name == REINDEX
    case Install(id) => id in s.jobs && s.jobs[id].phase.Stamped?
    case Cleaned(id) => In(s, id, Busy) && s.jobs[id].name == CLEANUP
    case Done(id) => In(s, id, Busy) && s.jobs[id].name != REINDEX && s.jobs[id].name != CLEANUP
    case Failed(id) => In(s, id, Busy) && s.jobs[id].name != CLEANUP
    case Wake(id) => In(s, id, Sleeping)
    case Finish(id) => In(s, id, Finished)
    case Use(op) => !op.SetVersion?
  }

  function Moved(s: State, id: nat, phase: Phase): State
    requires id in s.jobs
  {
    s.(jobs := s.jobs[id := s.jobs[id].(phase := phase)])
  }

  function Did(s: State, op: LruTheory.Op): State {
    s.(ops := s.ops + [op])
  }

  function Without(m: map<nat, Job>, id: nat): map<nat, Job> {
    map k | k in m && k != id :: m[k]
  }

  // Exclusive says whether a running task is skipped, as it is in the code.
  function Next(s: State, step: Step, exclusive: bool): State
    requires Enabled(s, step)
  {
    match step
    case Tick(now) => s.(clock := now)
    case Invoke(id, name) =>
      if exclusive && name in s.running then s
      else s.(running := s.running + {name}, jobs := s.jobs[id := Job(name, 1, Busy)])
    case Updated(id) => Moved(s, id, Stamped(s.clock))
    case Install(id) => Did(Moved(s, id, Finished), LruTheory.SetVersion(s.jobs[id].phase.version))
    case Cleaned(id) => Did(Moved(s, id, Finished), LruTheory.Cleanup(s.clock))
    case Done(id) => Moved(s, id, Finished)
    case Failed(id) => Moved(s, id, if s.jobs[id].calls <= MAX_RETRIES then Sleeping else Finished)
    case Wake(id) => s.(jobs := s.jobs[id := s.jobs[id].(calls := s.jobs[id].calls + 1, phase := Busy)])
    case Finish(id) => s.(running := s.running - {s.jobs[id].name}, jobs := Without(s.jobs, id))
    case Use(op) => Did(s, op)
  }

  // The state after a run; steps that are not enabled do not happen.
  function Run(clock: int, steps: seq<Step>, exclusive: bool): State {
    if steps == [] then Start(clock) else
    var s, step := Run(clock, steps[..|steps| - 1], exclusive), steps[|steps| - 1];
    if Enabled(s, step) then Next(s, step, exclusive) else s
  }

  // ---------- Exclusion ----------

  // The names marked as running are those of the jobs in flight, each once.
  ghost predicate Exclusive(s: State) {
    && (forall n :: n in s.running <==> exists i :: i in s.jobs && s.jobs[i].name == n)
    && (forall i, j | i in s.jobs && j in s.jobs && s.jobs[i].name == s.jobs[j].name :: i == j)
  }

  // Steps inside a job change no name.
  lemma SameNames(s: State, t: State)
    requires Exclusive(s) && t.running == s.running && t.jobs.Keys == s.jobs.Keys
    requires forall i | i in s.jobs :: t.jobs[i].name == s.jobs[i].name
    ensures Exclusive(t)
  {
    forall n
      ensures n in t.running <==> exists i :: i in t.jobs && t.jobs[i].name == n
    {
      if i :| i in s.jobs && s.jobs[i].name == n {
        assert t.jobs[i].name == n;
      }
    }
  }

  lemma InvokeExclusive(s: State, id: nat, name: string)
    requires Exclusive(s) && id !in s.jobs
    ensures Exclusive(Next(s, Invoke(id, name), true))
  {
    var t := Next(s, Invoke(id, name), true);
    if name !in s.running {
      assert t.jobs[id].name == name;
      forall n
        ensures n in t.running <==> exists i :: i in t.jobs && t.jobs[i].name == n
      {
        if i :| i in s.jobs && s.jobs[i].name == n {
          assert t.jobs[i].name == n;
        }
      }
    }
  }

  lemma FinishExclusive(s: State, id: nat)
    requires Exclusive(s) && In(s, id, Finished)
    ensures Exclusive(Next(s, Finish(id), true))
  {
    var t := Next(s, Finish(id), true);
    forall n
      ensures n in t.running <==> exists i :: i in t.jobs && t.jobs[i].name == n
    {
      if i :| i in s.jobs && s.jobs[i].name == n && i != id {
        assert t.jobs[i].name == n;
      }
    }
  }

  lemma StepExclusive(s: State, step: Step)
    requires Exclusive(s) && Enabled(s, step)
    ensures Exclusive(Next(s, step, true))
  {
    match step
    case Invoke(id, name) => InvokeExclusive(s, id, name);
    case Finish(id) => FinishExclusive(s, id);
    case _ => SameNames(s, Next(s, step, true));
  }

  // In every interleaving of timers and triggers, at most one body of each task
  // name is in flight.
  lemma {:induction false} OneBodyPerName(clock: int, steps: seq<Step>)
    ensures Exclusive(Run(clock, steps, true))
  {
    if steps != [] {
      var s := Run(clock, steps[..|steps| - 1], true);
      OneBodyPerName(clock, steps[..|steps| - 1]);
      if Enabled(s, steps[|steps| - 1]) {
        StepExclusive(s, steps[|steps| - 1]);
      }
    }
  }

  // How often the body was begun for the job id since it was last admitted.
  function Begun(clock: int, steps: seq<Step>, id: nat): nat {
    if steps == [] then 0 else
    var init, step := steps[..|steps| - 1], steps[|steps| - 1];
    var s := Run(clock, init, true);
    if !Enabled(s, step) then Begun(clock, init, id)
    else if step.Invoke? && step.id == id && step.name !in s.running then 1
    else if step == Wake(id) then Begun(clock, init, id) + 1
    else Begun(clock, init, id)
  }

  // A run calls its body at most four times, and never while it rests.
  lemma {:induction false} BodyCallsAreBounded(clock: int, steps: seq<Step>, id: nat)
    ensures var s := Run(clock, steps, true);
            id in s.jobs ==>
              && s.jobs[id].calls == Begun(clock, steps, id)
              && 1 <= s.jobs[id].calls <= 4
              && (s.jobs[id].phase.Sleeping? ==> s.jobs[id].calls <= 3)
  {
    if steps != [] {
      BodyCallsAreBounded(clock, steps[..|steps| - 1], id);
    }
  }

  // ---------- Versions ----------

  // The version in force is not ahead of any version about to be installed, and
  // none is ahead of the clock.
  ghost predicate InOrder(s: State) {
    && LruTheory.Version(s.ops) <= s.clock
    && LruTheory.VersionsAscend(s.ops)
    && (forall i | i in s.jobs && s.jobs[i].phase.Stamped? ::
          s.jobs[i].name == REINDEX && LruTheory.Version(s.ops) <= s.jobs[i].phase.version <= s.clock)
  }

  lemma VersionAppend(ops: seq<LruTheory.Op>, op: LruTheory.Op)
    requires LruTheory.VersionsAscend(ops) && (op.SetVersion? ==> op.version >= LruTheory.Version(ops))
    ensures LruTheory.VersionsAscend(ops + [op])
    ensures LruTheory.Version(ops + [op]) == if op.SetVersion? then op.version else LruTheory.Version(ops)
  {
    var more := ops + [op];
    assert more[..|ops|] == ops && more[..|more|] == more && ops[..|ops|] == ops;
    forall i, j | 0 <= i < j <= |more|
      ensures LruTheory.Version(more[..i]) <= LruTheory.Version(more[..j])
    {
      assert more[..i] == ops[..i];
      if j <= |ops| {
        assert more[..j] == ops[..j];
      } else if i < |ops| {
        assert LruTheory.Version(ops[..i]) <= LruTheory.Version(ops[..|ops|]);
      }
    }
  }

  lemma StepInOrder(s: State, step: Step)
    requires Exclusive(s) && InOrder(s) && Enabled(s, step)
    ensures InOrder(Next(s, step, true))
  {
    if step.Install? {
      VersionAppend(s.ops, LruTheory.SetVersion(s.jobs[step.id].phase.version));
    } else if step.Cleaned? {
      VersionAppend(s.ops, LruTheory.Cleanup(s.clock));
    } else if step.Use? {
      VersionAppend(s.ops, step.op);
    }
  }

  // Installed versions never go back, although reading the clock and installing
  // are separate steps. (The clock starts no earlier than the initial version.)
  lemma {:induction false} InstalledVersionsAscend(clock: int, steps: seq<Step>)
    requires clock >= LruCache.NO_VERSION
    ensures InOrder(Run(clock, steps, true))
  {
    if steps != [] {
      var init, step := steps[..|steps| - 1], steps[|steps| - 1];
      InstalledVersionsAscend(clock, init);
      OneBodyPerName(clock, init);
      if Enabled(Run(clock, init, true), step) {
        StepInOrder(Run(clock, init, true), step);
      }
    }
  }

  // A version-aware cache never again answers with an entry whose version has
  // been superseded, in any interleaving.
  lemma SupersededEntriesStayDead(cfg: LruCache.Config, clock: int, steps: seq<Step>, i: nat, now: int, key: string)
    requires cfg.versionAware && clock >= LruCache.NO_VERSION
    requires i <= |Run(clock, steps, true).ops|
    ensures var ops := Run(clock, steps, true).ops;
            var a := LruTheory.Answer(cfg, ops, now, key);
            a.Some? ==> a.value.indexVersion >= LruTheory.Version(ops[..i])
  {
    InstalledVersionsAscend(clock, steps);
    LruTheory.SupersededVersionsStayDead(cfg, Run(clock, steps, true).ops, i, now, key);
  }

  // Installed versions never go back in any run.
  ghost predicate NeverBack(clock: int, exclusive: bool) {
    forall steps :: LruTheory.VersionsAscend(Run(clock, steps, exclusive).ops)
  }

  lemma RunOne(clock: int, steps: seq<Step>, step: Step, exclusive: bool)
    ensures var s := Run(clock, steps, exclusive);
            Run(clock, steps + [step], exclusive) == if Enabled(s, step) then Next(s, step, exclusive) else s
  {
    assert (steps + [step])[..|steps|] == steps;
  }

  // Two reindexes that overlap: the one that read the clock first installs last.
  lemma OverlapGoesBack(clock: int) returns (steps: seq<Step>)
    ensures Run(clock, steps, false).ops == [LruTheory.SetVersion(clock + 1), LruTheory.SetVersion(clock)]
  {
    var some := [Invoke(0, REINDEX)];
    RunOne(clock, [], Invoke(0, REINDEX), false);
    assert [] + [Invoke(0, REINDEX)] == some;
    RunOne(clock, some, Updated(0), false);
    some := some + [Updated(0)];
    RunOne(clock, some, Tick(clock + 1), false);
    some := some + [Tick(clock + 1)];
    RunOne(clock, some, Invoke(1, REINDEX), false);
    some := some + [Invoke(1, REINDEX)];
    RunOne(clock, some, Updated(1), false);
    some := some + [Updated(1)];
    RunOne(clock, some, Install(1), false);
    some := some + [Install(1)];
    RunOne(clock, some, Install(0), false);
    steps := some + [Install(0)];
  }

  // It is the exclusion that keeps versions from going back.
  lemma NeverBackIffExclusive(clock: int, exclusive: bool)
    requires clock >= LruCache.NO_VERSION
    ensures NeverBack(clock, exclusive) <==> exclusive
  {
    if exclusive {
      forall steps
        ensures LruTheory.VersionsAscend(Run(clock, steps, true).ops)
      {
        InstalledVersionsAscend(clock, steps);
      }
    } else {
      var steps := OverlapGoesBack(clock);
      var ops := Run(clock, steps, false).ops;
      assert ops[..1] == [LruTheory.SetVersion(clock + 1)] && ops[..2] == ops;
    }
  }

  lemma {:induction false} StampedWithAPastVersion(ops: seq<LruTheory.Op>, key: string)
    requires LruTheory.VersionsAscend(ops)
    ensures var e := LruTheory.LastPut(ops, key); e.Some? ==> e.value.indexVersion <= LruTheory.Version(ops)
  {
    if ops != [] {
      var init := ops[..|ops| - 1];
      forall i, j | 0 <= i < j <= |init|
        ensures LruTheory.Version(init[..i]) <= LruTheory.Version(init[..j])
      {
        assert init[..i] == ops[..i] && init[..j] == ops[..j];
      }
      StampedWithAPastVersion(init, key);
      assert ops[..|ops|] == ops;
    }
  }

  // Installing a version empties the cache, as far as anyone can see, exactly if
  // it differs from the one in force: a second reindex within the clock's
  // resolution changes no answer.
  lemma InstallInvalidatesIff(cfg: LruCache.Config, ops: seq<LruTheory.Op>, v: int, now: int, key: string)
    requires cfg.versionAware && LruTheory.VersionsAscend(ops) && v >= LruTheory.Version(ops)
    ensures LruTheory.Answer(cfg, ops + [LruTheory.SetVersion(v)], now, key)
         == if v == LruTheory.Version(ops) then LruTheory.Answer(cfg, ops, now, key) else None
  {
    var more := ops + [LruTheory.SetVersion(v)];
    assert more[..|ops|] == ops;
    LruTheory.RunVersion(cfg, ops);
    StampedWithAPastVersion(ops, key);
    LruTheory.HitIsLastPut(cfg, more, now, key);
  }

  // ---------- The code ----------

  // The seconds slept before the last of n calls: 1, 4 and 9 after each failure.
  function Slept(n: nat): nat {
    if n <= 1 then 0 else Slept(n - 1) + (n - 1) * (n - 1)
  }

  lemma BackOffs()
    ensures Slept(1) == 0 && Slept(2) == 1 && Slept(3) == 1 + 4 && Slept(4) == 1 + 4 + 9
  {
  }

  // The set of running tasks; succeeds(k) tells how the k-th call of a body ends.
  class Tasks {
    const succeeds: nat -> bool
    var running: set<string>
    var calls: nat
    var slept: nat

    constructor (succeeds: nat -> bool)
      ensures this.succeeds == succeeds && running == {} && calls == slept == 0
    {
      this.succeeds := succeeds;
      running, calls, slept := {}, 0, 0;
    }

    // The call of fn, for a task marked as running.
    method Call(name: string) returns (ok: bool)
      requires name in running
      modifies `calls
      ensures calls == old(calls) + 1 && ok == succeeds(old(calls))
    {
      ok := succeeds(calls);
      calls := calls + 1;
    }

    // runTask. A task already running is skipped, which is no error. Otherwise
    // the body is called until it succeeds, four times at most.
    method RunTask(name: string) returns (ok: bool)
      modifies this
      ensures running == old(running)
      ensures name in old(running) ==> ok && calls == old(calls) && slept == old(slept)
      ensures name !in old(running) ==>
                var n := calls - old(calls);
                && 1 <= n <= 4
                && (forall k: nat | old(calls) <= k < calls - 1 :: !succeeds(k))
                && ok == succeeds(calls - 1)
                && (!ok ==> n == 4)
                && slept == old(slept) + (match n case 1 => 0 case 2 => 1 case 3 => 1 + 4 case _ => 1 + 4 + 9)
    {
      if name in running {
        return true;
      }
      BackOffs();
      running := running + {name};
      ok := Call(name);
      if !ok {
        ok := Retry(name);
      }
      running := running - {name};
    }

    // retry
    method Retry(name: string) returns (ok: bool)
      requires name in running
      modifies `calls, `slept
      ensures var n := calls - old(calls);
              && 1 <= n <= 3
              && (forall k: nat | old(calls) <= k < calls - 1 :: !succeeds(k))
              && ok == succeeds(calls - 1)
              && (!ok ==> n == 3)
              && slept == old(slept) + Slept(n + 1)
    {
      for i := 1 to MAX_RETRIES + 1
        invariant calls == old(calls) + i - 1 && slept == old(slept) + Slept(i)
        invariant forall k: nat | old(calls) <= k < calls :: !succeeds(k)
      {
        slept := slept + i * i;
        ok := Call(name);
        if ok {
          return true;
        }
      }
      return false;
    }
  }
}
