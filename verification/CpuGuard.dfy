// internal/resourceguard: the two hysteresis machines of the CPU guard.

module CpuGuard {
  import opened Model

  // Durations in nanoseconds, thresholds in percent.
  datatype Config = Config(sampleInterval: int,
                           overloadPercent: int, overloadSustain: int,
                           recoverPercent: int, recoverSustain: int,
                           criticalPercent: int, criticalSustain: int)

  const SECOND := 1_000_000_000

  // NewCPUMonitor's defaults and the clamp of the critical threshold.
  function Normalize(c: Config): Config {
    var d := Config(
      if c.sampleInterval <= 0 then SECOND else c.sampleInterval,
      if c.overloadPercent <= 0 then 90 else c.overloadPercent,
      if c.overloadSustain <= 0 then 10 * SECOND else c.overloadSustain,
      if c.recoverPercent <= 0 then 75 else c.recoverPercent,
      if c.recoverSustain <= 0 then 12 * SECOND else c.recoverSustain,
      if c.criticalPercent <= 0 then 95 else c.criticalPercent,
      if c.criticalSustain <= 0 then 5 * SECOND else c.criticalSustain);
    d.(criticalPercent := Max(d.criticalPercent, d.overloadPercent))
  }

  // What is configured counts, except that critical load is at least overload; what
  // is not has these defaults: a sample a second, overload at 90 percent over ten
  // seconds until 75 percent over twelve, critical load at 95 percent over five.
  lemma DefaultsAndClamp(c: Config)
    ensures var d := Normalize(c);
            && d.criticalPercent >= d.overloadPercent && Normalize(d) == d
            && (c.overloadPercent > 0 ==> d.overloadPercent == c.overloadPercent)
            && (c.recoverPercent > 0 ==> d.recoverPercent == c.recoverPercent)
            && (c.criticalPercent > 0 && c.criticalPercent >= c.overloadPercent > 0 ==>
                  d.criticalPercent == c.criticalPercent)
            && (c.overloadSustain > 0 ==> d.overloadSustain == c.overloadSustain)
            && (c.recoverSustain > 0 ==> d.recoverSustain == c.recoverSustain)
            && (c.criticalSustain > 0 ==> d.criticalSustain == c.criticalSustain)
            && (c.sampleInterval > 0 ==> d.sampleInterval == c.sampleInterval)
            && (c == Config(0, 0, 0, 0, 0, 0, 0) ==>
                  d == Config(1_000_000_000, 90, 10_000_000_000, 75, 12_000_000_000, 95, 5_000_000_000))
  {
  }

  // ---------- One hysteresis machine ----------

  datatype Band = High | Low | Middle

  datatype Machine = Machine(above: nat, below: nat, on: bool)

  const START := Machine(0, 0, false)

  function Step(m: Machine, b: Band, needOn: nat, needOff: nat): Machine {
    match b
    case High => Machine(m.above + 1, 0, m.on || m.above + 1 >= needOn)
    case Low => Machine(0, m.below + 1, m.on && m.below + 1 < needOff)
    case Middle => Machine(0, 0, m.on)
  }

  ghost function Run(bs: seq<Band>, needOn: nat, needOff: nat): Machine {
    if bs == [] then START else Step(Run(bs[..|bs| - 1], needOn, needOff), bs[|bs| - 1], needOn, needOff)
  }

  // The last n of the first i samples were all in band b.
  ghost predicate RunEnds(bs: seq<Band>, b: Band, n: int, i: int) {
    0 <= n <= i <= |bs| && forall j :: i - n <= j < i ==> bs[j] == b
  }

  // Some run of needOn high samples has completed and no completed run of
  // needOff low samples followed it.
  ghost predicate OnByHistory(bs: seq<Band>, needOn: nat, needOff: nat) {
    exists i :: RunEnds(bs, High, needOn, i) && forall j :: i < j <= |bs| ==> !RunEnds(bs, Low, needOff, j)
  }

  // The counters are the lengths of the current runs.
  lemma {:induction false} CountersAreRuns(bs: seq<Band>, needOn: nat, needOff: nat, n: nat)
    requires needOn >= 1 && needOff >= 1
    ensures var m := Run(bs, needOn, needOff);
            && (RunEnds(bs, High, n, |bs|) <==> n <= m.above)
            && (RunEnds(bs, Low, n, |bs|) <==> n <= m.below)
  {
    if bs != [] && n > 0 {
      var init := bs[..|bs| - 1];
      CountersAreRuns(init, needOn, needOff, n - 1);
      forall b
        ensures RunEnds(bs, b, n, |bs|) <==> RunEnds(init, b, n - 1, |init|) && bs[|bs| - 1] == b
      {
        if RunEnds(bs, b, n, |bs|) {
          forall j | |init| - (n - 1) <= j < |init|
            ensures init[j] == b
          {
            assert bs[j] == b;
          }
        }
        if RunEnds(init, b, n - 1, |init|) && bs[|bs| - 1] == b {
          forall j | |bs| - n <= j < |bs|
            ensures bs[j] == b
          {
            assert j < |init| ==> init[j] == b;
          }
        }
      }
    }
  }

  lemma RunEndsInPrefix(bs: seq<Band>, b: Band, n: nat, i: nat)
    requires bs != [] && i < |bs|
    ensures RunEnds(bs, b, n, i) <==> RunEnds(bs[..|bs| - 1], b, n, i)
  {
    var init := bs[..|bs| - 1];
    assert forall j :: 0 <= j < i ==> init[j] == bs[j];
  }

  // The history criterion, one sample at a time.
  lemma HistoryStep(bs: seq<Band>, needOn: nat, needOff: nat)
    requires bs != []
    ensures OnByHistory(bs, needOn, needOff) <==>
            || RunEnds(bs, High, needOn, |bs|)
            || (OnByHistory(bs[..|bs| - 1], needOn, needOff) && !RunEnds(bs, Low, needOff, |bs|))
  {
    var init := bs[..|bs| - 1];
    forall i | 0 <= i < |bs|
      ensures RunEnds(bs, High, needOn, i) <==> RunEnds(init, High, needOn, i)
      ensures RunEnds(bs, Low, needOff, i) <==> RunEnds(init, Low, needOff, i)
    {
      RunEndsInPrefix(bs, High, needOn, i);
      RunEndsInPrefix(bs, Low, needOff, i);
    }
    if OnByHistory(bs, needOn, needOff) {
      var i :| RunEnds(bs, High, needOn, i) && forall j :: i < j <= |bs| ==> !RunEnds(bs, Low, needOff, j);
      assert i < |bs| ==> RunEnds(init, High, needOn, i);
    }
    if OnByHistory(init, needOn, needOff) {
      var i :| RunEnds(init, High, needOn, i) && forall j :: i < j <= |init| ==> !RunEnds(init, Low, needOff, j);
      assert RunEnds(bs, High, needOn, i);
    }
  }

  // Closed form of the flag after any samples.
  lemma {:induction false} FlagClosedForm(bs: seq<Band>, needOn: nat, needOff: nat)
    requires needOn >= 1 && needOff >= 1
    ensures Run(bs, needOn, needOff).on <==> OnByHistory(bs, needOn, needOff)
  {
    if bs != [] {
      FlagClosedForm(bs[..|bs| - 1], needOn, needOff);
      CountersAreRuns(bs, needOn, needOff, needOn);
      CountersAreRuns(bs, needOn, needOff, needOff);
      CountersAreRuns(bs, needOn, needOff, 1);
      HistoryStep(bs, needOn, needOff);
    }
  }

  // How often the flag went from off to on.
  ghost function Activations(bs: seq<Band>, needOn: nat, needOff: nat): nat {
    if bs == [] then 0 else
    var init := bs[..|bs| - 1];
    Activations(init, needOn, needOff)
    + if !Run(init, needOn, needOff).on && Run(bs, needOn, needOff).on then 1 else 0
  }

  // Flips are paid for in samples.
  lemma {:induction false} SamplesPayForFlips(bs: seq<Band>, needOn: nat, needOff: nat)
    requires needOn >= 1 && needOff >= 1
    ensures var m, a := Run(bs, needOn, needOff), Activations(bs, needOn, needOff);
            && (m.on ==> a >= 1 && a * needOn + (a - 1) * needOff + m.below <= |bs|)
            && (!m.on ==> m.above < needOn && a * needOn + a * needOff + m.above <= |bs|)
  {
    if bs != [] {
      var init := bs[..|bs| - 1];
      SamplesPayForFlips(init, needOn, needOff);
      OneMoreFlip(Activations(init, needOn, needOff), needOn, needOff);
    }
  }

  lemma OneMoreFlip(a: nat, needOn: nat, needOff: nat)
    ensures (a + 1) * needOn == a * needOn + needOn
    ensures a >= 1 ==> (a - 1) * needOff + needOff == a * needOff
  {
  }

  lemma FlipBound(bs: seq<Band>, needOn: nat, needOff: nat)
    requires needOn >= 1 && needOff >= 1
    ensures var a := Activations(bs, needOn, needOff);
            a >= 1 ==> a * needOn + (a - 1) * needOff <= |bs|
  {
    SamplesPayForFlips(bs, needOn, needOff);
    OneMoreFlip(Activations(bs, needOn, needOff), needOn, needOff);
  }

  // ---------- requiredSamples ----------

  // The least positive number of samples that spans the duration.
  ghost predicate LeastSpan(n: int, duration: int, interval: int) {
    && n >= 1
    && (interval > 0 ==> n * interval >= duration)
    && (n > 1 ==> interval > 0 && (n - 1) * interval < duration)
  }

  // requiredSamples as a function; Go's / and % agree with these on the positive
  // operands they are reached with.
  function Samples(duration: int, interval: int): (n: nat)
    ensures LeastSpan(n, duration, interval)
  {
    if duration <= 0 || interval <= 0 then 1
    else duration / interval + if duration % interval != 0 then 1 else 0
  }

  method RequiredSamples(duration: int, interval: int) returns (n: nat)
    ensures n == Samples(duration, interval)
  {
    if duration <= 0 || interval <= 0 {
      return 1;
    }
    n := duration / interval;
    if duration % interval != 0 {
      n := n + 1;
    }
    if n < 1 {
      return 1;
    }
  }

  lemma LeastSpanIsUnique(n: int, m: int, duration: int, interval: int)
    requires LeastSpan(n, duration, interval) && LeastSpan(m, duration, interval)
    ensures n == m
  {
    Multiply(n, m - 1, interval);
    Multiply(m, n - 1, interval);
  }

  lemma Multiply(a: int, b: int, c: int)
    ensures a <= b && c > 0 ==> a * c <= b * c
  {
  }

  // ---------- The two machines over one stream of samples ----------

  function OverBand(c: Config, usage: real): Band {
    if usage >= c.overloadPercent as real then High
    else if usage <= c.recoverPercent as real then Low
    else Middle
  }

  // Critical recovery reuses the overload threshold.
  function CriticalBand(c: Config, usage: real): Band {
    if usage >= c.criticalPercent as real then High
    else if usage <= c.overloadPercent as real then Low
    else Middle
  }

  function NeedAbove(c: Config): (n: nat)
    ensures n >= 1
  {
    Samples(c.overloadSustain, c.sampleInterval)
  }

  // Both machines recover over the same window.
  function NeedBelow(c: Config): (n: nat)
    ensures n >= 1
  {
    Samples(c.recoverSustain, c.sampleInterval)
  }

  function NeedCritical(c: Config): (n: nat)
    ensures n >= 1
  {
    Samples(c.criticalSustain, c.sampleInterval)
  }

  ghost function OverBands(c: Config, us: seq<real>): seq<Band> {
    seq(|us|, i requires 0 <= i < |us| => OverBand(c, us[i]))
  }

  ghost function CriticalBands(c: Config, us: seq<real>): seq<Band> {
    seq(|us|, i requires 0 <= i < |us| => CriticalBand(c, us[i]))
  }

  ghost function Over(c: Config, us: seq<real>): Machine {
    Run(OverBands(c, us), NeedAbove(c), NeedBelow(c))
  }

  ghost function Critical(c: Config, us: seq<real>): Machine {
    Run(CriticalBands(c, us), NeedCritical(c), NeedBelow(c))
  }

  lemma OneMoreSample(c: Config, us: seq<real>, u: real)
    ensures Over(c, us + [u]) == Step(Over(c, us), OverBand(c, u), NeedAbove(c), NeedBelow(c))
    ensures Critical(c, us + [u]) == Step(Critical(c, us), CriticalBand(c, u), NeedCritical(c), NeedBelow(c))
  {
    assert OverBands(c, us + [u])[..|us|] == OverBands(c, us);
    assert CriticalBands(c, us + [u])[..|us|] == CriticalBands(c, us);
  }

  // ---------- Coupling ----------

  lemma {:induction false} CountersCoupled(c: Config, us: seq<real>)
    requires c.criticalPercent >= c.overloadPercent
    ensures Critical(c, us).above <= Over(c, us).above
    ensures Over(c, us).below <= Critical(c, us).below
  {
    if us != [] {
      CountersCoupled(c, us[..|us| - 1]);
      OneMoreSample(c, us[..|us| - 1], us[|us| - 1]);
      InitAndLast(us);
    }
  }

  // When the overload flag clears, the critical flag is clear by the end of the
  // same tick.
  lemma OverloadClearsCritical(config: Config, us: seq<real>, u: real)
    ensures var c := Normalize(config);
            Over(c, us).on && !Over(c, us + [u]).on ==> !Critical(c, us + [u]).on
  {
    var c := Normalize(config);
    CountersCoupled(c, us);
    OneMoreSample(c, us, u);
  }

  lemma {:induction false} CriticalNeedsOverload(c: Config, us: seq<real>)
    requires c.criticalPercent >= c.overloadPercent && NeedCritical(c) >= NeedAbove(c)
    ensures Critical(c, us).on ==> Over(c, us).on
  {
    if us != [] {
      CriticalNeedsOverload(c, us[..|us| - 1]);
      CountersCoupled(c, us[..|us| - 1]);
      OneMoreSample(c, us[..|us| - 1], us[|us| - 1]);
      InitAndLast(us);
    }
  }

  lemma {:induction false} SteadyLoad(c: Config, u: real, n: nat)
    requires c.criticalPercent >= c.overloadPercent && u >= c.criticalPercent as real
    requires n <= NeedCritical(c) && n < NeedAbove(c)
    ensures var us := seq(n, _ => u);
            && Over(c, us) == Machine(n, 0, false)
            && Critical(c, us) == Machine(n, 0, n >= NeedCritical(c))
  {
    if n > 0 {
      SteadyLoad(c, u, n - 1);
      OneMoreSample(c, seq(n - 1, _ => u), u);
      assert seq(n, _ => u) == seq(n - 1, _ => u) + [u];
    }
  }

  // "Critical implies overloaded" at every tick boundary holds exactly when the
  // critical window needs at least as many samples as the overload window. The
  // default windows (5s and 10s) do not meet it.
  lemma CriticalImpliesOverloadedIff(config: Config)
    ensures var c := Normalize(config);
            (forall us :: Critical(c, us).on ==> Over(c, us).on) <==> NeedCritical(c) >= NeedAbove(c)
  {
    var c := Normalize(config);
    if NeedCritical(c) >= NeedAbove(c) {
      forall us
        ensures Critical(c, us).on ==> Over(c, us).on
      {
        CriticalNeedsOverload(c, us);
      }
    } else {
      var us := seq(NeedCritical(c), _ => c.criticalPercent as real);
      SteadyLoad(c, c.criticalPercent as real, NeedCritical(c));
      assert Critical(c, us).on && !Over(c, us).on;
    }
  }

  // So with the default windows critical can be set while overloaded is not.
  lemma DefaultsLetCriticalComeFirst()
    ensures var c := Normalize(Config(0, 0, 0, 0, 0, 0, 0));
            exists us :: Critical(c, us).on && !Over(c, us).on
  {
    var c := Normalize(Config(0, 0, 0, 0, 0, 0, 0));
    assert NeedCritical(c) == 5 && NeedAbove(c) == 10;
    CriticalImpliesOverloadedIff(Config(0, 0, 0, 0, 0, 0, 0));
  }

  // ---------- The monitor ----------

  const TWO_64 := 0x1_0000_0000_0000_0000

  type uint64 = n: nat | n < TWO_64

  // Subtraction of uint64 counters.
  function Minus64(a: uint64, b: uint64): (d: uint64) {
    (a - b) % TWO_64
  }

  // Two counters of /proc/stat.
  datatype Reading = Reading(idle: uint64, total: uint64)

  // The load between two readings; none when no time was counted.
  function Usage(before: Reading, now: Reading): Option<real> {
    var idle, total := Minus64(now.idle, before.idle), Minus64(now.total, before.total);
    if total == 0 then None else Some(Minus64(total, idle) as real / total as real * 100.0)
  }

  // What a counter that wraps around behind 2^64 - 1 has counted.
  ghost function Counted(before: nat, now: nat): int {
    if before <= now then now - before else now - before + 0x1_0000_0000_0000_0000
  }

  lemma MinusIsCounted(before: uint64, now: uint64)
    ensures Minus64(now, before) == Counted(before, now)
  {
  }

  // The time counted between two readings, and how much of it was not idle.
  ghost function TotalTime(before: Reading, now: Reading): nat {
    Counted(before.total, now.total)
  }

  ghost function BusyTime(before: Reading, now: Reading): nat {
    Counted(Counted(before.idle, now.idle), Counted(before.total, now.total))
  }

  // As long as neither counter wrapped and no more idle time than time was counted,
  // that is the plain difference.
  lemma PlainTimes(before: Reading, now: Reading)
    requires before.idle <= now.idle && before.total <= now.total
    requires now.idle - before.idle <= now.total - before.total
    ensures TotalTime(before, now) == now.total - before.total
    ensures BusyTime(before, now) == (now.total - before.total) - (now.idle - before.idle)
  {
  }

  lemma AsPercentage(busy: nat, total: nat, percent: int)
    requires total > 0
    ensures var usage := busy as real / total as real * 100.0;
            && (usage >= percent as real <==> 100 * busy >= percent * total)
            && (usage <= percent as real <==> 100 * busy <= percent * total)
  {
    var b, t, p := busy as real, total as real, percent as real;
    assert b / t * t == b;
    assert b / t * 100.0 * t == 100.0 * b;
    Scaled(b / t * 100.0, p, t);
    assert (100 * busy) as real == 100.0 * b && (percent * total) as real == p * t;
  }

  lemma Scaled(a: real, b: real, t: real)
    requires t > 0.0
    ensures (a >= b <==> a * t >= b * t) && (a <= b <==> a * t <= b * t)
  {
  }

  lemma UsageOfTimes(before: Reading, now: Reading)
    ensures Usage(before, now).Some? <==> TotalTime(before, now) > 0
    ensures Usage(before, now).Some? ==>
              Usage(before, now).value == BusyTime(before, now) as real / TotalTime(before, now) as real * 100.0
  {
    MinusIsCounted(before.idle, now.idle);
    MinusIsCounted(before.total, now.total);
    MinusIsCounted(Minus64(now.idle, before.idle), Minus64(now.total, before.total));
  }

  // The machine m moves to n when busy of total time is at least high percent, at
  // most low percent, or neither.
  ghost predicate Moves(m: Machine, n: Machine, high: int, low: int, needOn: nat, needOff: nat, busy: nat, total: nat) {
    if 100 * busy >= high * total
    then n.above == m.above + 1 && n.below == 0 && (n.on <==> m.on || n.above >= needOn)
    else if 100 * busy <= low * total
    then n.above == 0 && n.below == m.below + 1 && (n.on <==> m.on && n.below < needOff)
    else n == Machine(0, 0, m.on)
  }

  lemma StepMoves(c: Config, usage: real, m: Machine, k: Machine, needAbove: nat, needBelow: nat, needCritical: nat,
                  busy: nat, total: nat)
    requires total > 0 && usage == busy as real / total as real * 100.0
    ensures Moves(m, Step(m, OverBand(c, usage), needAbove, needBelow), c.overloadPercent, c.recoverPercent, needAbove,
                  needBelow, busy, total)
    ensures Moves(k, Step(k, CriticalBand(c, usage), needCritical, needBelow), c.criticalPercent, c.overloadPercent,
                  needCritical, needBelow, busy, total)
  {
    AsPercentage(busy, total, c.overloadPercent);
    AsPercentage(busy, total, c.recoverPercent);
    AsPercentage(busy, total, c.criticalPercent);
  }

  class CPUMonitor {
    const cfg: Config
    const needAbove: nat
    const needBelow: nat
    const needCritical: nat
    var prev: Reading
    var aboveCount: nat
    var belowCount: nat
    var criticalAboveCount: nat
    var criticalBelowCount: nat
    var overloaded: bool
    var critical: bool
    ghost var seen: seq<real>  // the valid samples so far

    // The two machines as they stand.
    function OverloadMachine(): Machine
      reads this
    {
      Machine(aboveCount, belowCount, overloaded)
    }

    function CriticalMachine(): Machine
      reads this
    {
      Machine(criticalAboveCount, criticalBelowCount, critical)
    }

    ghost predicate Valid()
      reads this
    {
      && cfg == Normalize(cfg)
      && needAbove == NeedAbove(cfg) && needBelow == NeedBelow(cfg) && needCritical == NeedCritical(cfg)
      && OverloadMachine() == Over(cfg, seen)
      && CriticalMachine() == Critical(cfg, seen)
    }

    constructor (config: Config, first: Reading)
      ensures Valid() && cfg == Normalize(config) && prev == first && seen == []
      ensures LeastSpan(needAbove, cfg.overloadSustain, cfg.sampleInterval)
      ensures LeastSpan(needBelow, cfg.recoverSustain, cfg.sampleInterval)
      ensures LeastSpan(needCritical, cfg.criticalSustain, cfg.sampleInterval)
    {
      var c := Normalize(config);
      cfg := c;
      var a := RequiredSamples(c.overloadSustain, c.sampleInterval);
      var b := RequiredSamples(c.recoverSustain, c.sampleInterval);
      var k := RequiredSamples(c.criticalSustain, c.sampleInterval);
      needAbove, needBelow, needCritical := a, b, k;
      prev := first;
      aboveCount, belowCount, criticalAboveCount, criticalBelowCount := 0, 0, 0, 0;
      overloaded, critical := false, false;
      seen := [];
    }

    // One tick of the sampling loop; no reading means /proc/stat failed.
    method Tick(reading: Option<Reading>)
      requires Valid()
      modifies this
      ensures Valid()
      ensures prev == if reading.Some? then reading.value else old(prev)
      ensures seen == if reading.Some? && Usage(old(prev), reading.value).Some?
                      then old(seen) + [Usage(old(prev), reading.value).value] else old(seen)
      ensures reading.None? || TotalTime(old(prev), reading.value) == 0 ==>
                OverloadMachine() == old(OverloadMachine()) && CriticalMachine() == old(CriticalMachine())
      ensures reading.Some? && TotalTime(old(prev), reading.value) > 0 ==>
                var busy, total := BusyTime(old(prev), reading.value), TotalTime(old(prev), reading.value);
                && Moves(old(OverloadMachine()), OverloadMachine(), cfg.overloadPercent, cfg.recoverPercent,
                         needAbove, needBelow, busy, total)
                && Moves(old(CriticalMachine()), CriticalMachine(), cfg.criticalPercent, cfg.overloadPercent,
                         needCritical, needBelow, busy, total)
    {
      if reading.None? {
        return;
      }
      UsageOfTimes(prev, reading.value);
      var usage := Usage(prev, reading.value);
      prev := reading.value;
      if usage.None? {
        return;
      }
      StepMoves(cfg, usage.value, OverloadMachine(), CriticalMachine(), needAbove, needBelow, needCritical,
                BusyTime(old(prev), prev), TotalTime(old(prev), prev));
      Sample(usage.value);
    }

    method Sample(usage: real)
      requires Valid()
      modifies this
      ensures Valid() && seen == old(seen) + [usage] && prev == old(prev)
      ensures OverloadMachine() == Step(old(OverloadMachine()), OverBand(cfg, usage), needAbove, needBelow)
      ensures CriticalMachine() == Step(old(CriticalMachine()), CriticalBand(cfg, usage), needCritical, needBelow)
    {
      OneMoreSample(cfg, seen, usage);
      seen := seen + [usage];
      SwitchOverload(usage);
      SwitchCritical(usage);
    }

    // The first switch of the loop body.
    method SwitchOverload(usage: real)
      modifies `aboveCount, `belowCount, `overloaded
      ensures OverloadMachine() == Step(old(OverloadMachine()), OverBand(cfg, usage), needAbove, needBelow)
    {
      if usage >= cfg.overloadPercent as real {
        aboveCount := aboveCount + 1;
        belowCount := 0;
        if aboveCount >= needAbove {
          overloaded := true;
        }
      } else if usage <= cfg.recoverPercent as real {
        belowCount := belowCount + 1;
        aboveCount := 0;
        if belowCount >= needBelow {
          overloaded := false;
        }
      } else {
        aboveCount := 0;
        belowCount := 0;
      }
    }

    // The second switch of the loop body.
    method SwitchCritical(usage: real)
      modifies `criticalAboveCount, `criticalBelowCount, `critical
      ensures CriticalMachine() == Step(old(CriticalMachine()), CriticalBand(cfg, usage), needCritical, needBelow)
    {
      if usage >= cfg.criticalPercent as real {
        criticalAboveCount := criticalAboveCount + 1;
        criticalBelowCount := 0;
        if criticalAboveCount >= needCritical {
          critical := true;
        }
      } else if usage <= cfg.overloadPercent as real {
        criticalBelowCount := criticalBelowCount + 1;
        criticalAboveCount := 0;
        if criticalBelowCount >= needBelow {
          critical := false;
        }
      } else {
        criticalAboveCount := 0;
        criticalBelowCount := 0;
      }
    }

    method IsOverloaded() returns (on: bool)
      requires Valid()
      ensures on <==> OnByHistory(OverBands(cfg, seen), needAbove, needBelow)
    {
      FlagClosedForm(OverBands(cfg, seen), needAbove, needBelow);
      on := overloaded;
    }

    method IsCriticalOverloaded() returns (on: bool)
      requires Valid()
      ensures on <==> OnByHistory(CriticalBands(cfg, seen), needCritical, needBelow)
    {
      FlagClosedForm(CriticalBands(cfg, seen), needCritical, needBelow);
      on := critical;
    }
  }
}
