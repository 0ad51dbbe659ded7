/** The built-in wait strategies, raw and filtered.

    A waiting thread's log holds what it did: Acquire loads and the values they
    returned, clock readings, arming, hardware waits and yields. Loads return
    any value at all, since other threads may store at any time. The monotonic
    clock advances between two readings.
*/
module WaitStrategies {
  import opened Machine
  import MonitorWait
  import Timer

  datatype Event =
    | Loaded(value: int)
    | ClockRead(elapsed: nat)          // since the deadline's start
    | Armed
    | HardwareWaited(cycles: nat)
    | Yielded

  datatype Deadline = Deadline(started: nat, timeout: nat)

  datatype WaitResult = Changed(value: int) | Unclassified | TimedOut

  datatype Config = Amd(hz: U64) | Intel(hz: U64)

  datatype Strategy =
    | BusySpin
    | SpinThenYield(spins: nat)
    | HardwareWait(config: Config)
    | SpinThenHardwareWait(spins: nat, config: Config)

  /** Width of the register that takes the budget: MWAITX has 32 bits, UMWAIT 64. */
  function BudgetLimit(config: Config): nat
  {
    if config.Amd? then U32_MAX else U64_MAX
  }

  // ------------------------------------------------------------ specification

  /** An event that gives the waiter no reason to return. */
  predicate Quiet(e: Event, expected: int, deadline: Option<Deadline>)
  {
    (e.Loaded? ==> e.value == expected)
    && (e.ClockRead? ==> deadline.Some? && e.elapsed < deadline.value.timeout)
  }

  predicate AllQuiet(trace: seq<Event>, expected: int, deadline: Option<Deadline>)
  {
    forall i :: 0 <= i < |trace| ==> Quiet(trace[i], expected, deadline)
  }

  /** The trace's last event is a load of a different value, the first such event. */
  predicate EndsChanged(trace: seq<Event>, expected: int, deadline: Option<Deadline>, value: int)
  {
    trace != [] && trace[|trace| - 1] == Loaded(value) && value != expected
    && AllQuiet(trace[..|trace| - 1], expected, deadline)
  }

  /** The trace's last event is the first clock reading at or past the timeout,
      taken right after a load that saw `expected`. */
  predicate EndsTimedOut(trace: seq<Event>, expected: int, deadline: Option<Deadline>)
  {
    deadline.Some? && |trace| >= 2
    && trace[|trace| - 1].ClockRead? && trace[|trace| - 1].elapsed >= deadline.value.timeout
    && trace[|trace| - 2] == Loaded(expected)
    && AllQuiet(trace[..|trace| - 1], expected, deadline)
  }

  /** The trace ends with a classifying load, and a clock reading if there is a deadline. */
  predicate EndsUnclassified(trace: seq<Event>, expected: int, deadline: Option<Deadline>)
  {
    AllQuiet(trace, expected, deadline)
    && var n := if deadline.Some? then |trace| - 1 else |trace|;
       n >= 1 && trace[n - 1] == Loaded(expected) && (deadline.Some? ==> trace[n].ClockRead?)
  }

  predicate Justified(trace: seq<Event>, expected: int, deadline: Option<Deadline>, r: WaitResult)
  {
    match r
    case Changed(value) => EndsChanged(trace, expected, deadline, value)
    case TimedOut => EndsTimedOut(trace, expected, deadline)
    case Unclassified => EndsUnclassified(trace, expected, deadline)
  }

  predicate IsBlocking(e: Event) { e.HardwareWaited? || e.Yielded? }

  function BlockingCount(trace: seq<Event>): nat
  {
    if trace == [] then 0
    else BlockingCount(trace[..|trace| - 1]) + if IsBlocking(trace[|trace| - 1]) then 1 else 0
  }

  lemma {:induction false} BlockingConcat(a: seq<Event>, b: seq<Event>)
    ensures BlockingCount(a + b) == BlockingCount(a) + BlockingCount(b)
    decreases |b|
  {
    if b == [] {
      assert a + b == a;
    } else {
      BlockingConcat(a, b[..|b| - 1]);
      assert (a + b)[..|a + b| - 1] == a + b[..|b| - 1];
    }
  }

  lemma {:induction false} NoBlocking(trace: seq<Event>)
    requires forall e :: e in trace ==> !IsBlocking(e)
    ensures BlockingCount(trace) == 0
  {
    if trace == [] {
    } else {
      NoBlocking(trace[..|trace| - 1]);
    }
  }

  function OpOf(e: Event): MonitorWait.Op
    requires !e.Yielded?
  {
    match e
    case Loaded(_) => MonitorWait.Load
    case ClockRead(_) => MonitorWait.CheckDeadline
    case Armed => MonitorWait.Arm
    case HardwareWaited(_) => MonitorWait.Wait
  }

  /** The trace runs an initial part of `protocol`. */
  predicate Follows(trace: seq<Event>, protocol: seq<MonitorWait.Op>)
  {
    |trace| <= |protocol| && forall i :: 0 <= i < |trace| ==> !trace[i].Yielded? && OpOf(trace[i]) == protocol[i]
  }

  function Protocol(deadline: Option<Deadline>): seq<MonitorWait.Op>
  {
    if deadline.Some? then MonitorWait.TIMED_PROTOCOL else MonitorWait.UNTIMED_PROTOCOL
  }

  /** The hardware wait gets the budget of the clock reading just before it. */
  predicate WithinBudget(trace: seq<Event>, config: Config, deadline: Option<Deadline>)
  {
    forall i :: 0 < i < |trace| && trace[i].HardwareWaited? ==>
      trace[i].cycles == Timer.TimeoutCycles(
        if deadline.Some? && trace[i - 1].ClockRead? && trace[i - 1].elapsed <= deadline.value.timeout
        then deadline.value.timeout - trace[i - 1].elapsed else Timer.SAFETY_TIMEOUT, config.hz, BudgetLimit(config))
  }

  /** A load, and its deadline check if there is one, `n` times. */
  predicate SpinsOnly(trace: seq<Event>)
  {
    forall i :: 0 <= i < |trace| ==> trace[i].Loaded? || trace[i].ClockRead?
  }

  /** The trace decides the result: no trace justifies two of them. */
  lemma VerdictIsForced(trace: seq<Event>, expected: int, deadline: Option<Deadline>, r: WaitResult, r': WaitResult)
    requires Justified(trace, expected, deadline, r) && Justified(trace, expected, deadline, r')
    ensures r == r'
  {
    if r.Unclassified? || r'.Unclassified? {
      assert Quiet(trace[|trace| - 1], expected, deadline);
    }
  }

  /** A quiet attempt followed by a justified one is justified. */
  lemma QuietThenJustified(a: seq<Event>, b: seq<Event>, expected: int, deadline: Option<Deadline>, r: WaitResult)
    requires AllQuiet(a, expected, deadline) && Justified(b, expected, deadline, r)
    ensures Justified(a + b, expected, deadline, r)
  {
    assert b != [];
    assert (a + b)[..|a + b| - 1] == a + b[..|b| - 1];
    assert forall i :: 0 <= i < |b| ==> (a + b)[|a| + i] == b[i];
  }

  lemma SpinsNeverBlock(trace: seq<Event>)
    requires SpinsOnly(trace)
    ensures BlockingCount(trace) == 0 && NeverSleepsUnchecked(trace)
  {
    NoBlocking(trace);
  }

  /** Between every arming and a later hardware wait the watched word was loaded. */
  predicate NeverSleepsUnchecked(trace: seq<Event>)
  {
    forall i, k :: 0 <= i < k < |trace| && trace[i].Armed? && trace[k].HardwareWaited? ==>
      exists j :: i < j < k && trace[j].Loaded?
  }

  lemma CheckedAfterSpins(spinning: seq<Event>, trace: seq<Event>)
    requires SpinsOnly(spinning) && NeverSleepsUnchecked(trace)
    ensures NeverSleepsUnchecked(spinning + trace)
  {
    var n, all := |spinning|, spinning + trace;
    forall i, k | 0 <= i < k < |all| && all[i].Armed? && all[k].HardwareWaited?
      ensures exists j :: i < j < k && all[j].Loaded? {
      assert i >= n;
      var j :| i - n < j < k - n && trace[j].Loaded?;
      assert all[n + j].Loaded?;
    }
  }

  /** A trace of a hardware protocol blocks at most once, and once when it runs
      to the end. */
  lemma FollowingBlocksOnce(trace: seq<Event>, deadline: Option<Deadline>)
    requires Follows(trace, Protocol(deadline))
    ensures BlockingCount(trace) == if |trace| > WaitIndex(deadline) then 1 else 0
  {
    var n := WaitIndex(deadline);
    if |trace| > n {
      assert OpOf(trace[n]) == MonitorWait.Wait;
      NoBlocking(trace[..n]);
      NoBlocking(trace[n + 1..]);
      BlockingConcat(trace[..n], [trace[n]]);
      BlockingConcat(trace[..n] + [trace[n]], trace[n + 1..]);
      assert trace == trace[..n] + [trace[n]] + trace[n + 1..];
    } else {
      NoBlocking(trace);
    }
  }

  lemma FollowingIsChecked(trace: seq<Event>, deadline: Option<Deadline>)
    requires Follows(trace, Protocol(deadline))
    ensures NeverSleepsUnchecked(trace)
  {
    if |trace| > WaitIndex(deadline) {
      var load := if deadline.Some? then 3 else 2;
      assert OpOf(trace[load]) == MonitorWait.Load;
      assert trace[load].Loaded?;
    }
  }

  /** A timed protocol's events up to and including the hardware wait. */
  function Slept(expected: int, e1: nat, e2: nat, cycles: nat): seq<Event>
  {
    [Loaded(expected), ClockRead(e1), Armed, Loaded(expected), ClockRead(e2), HardwareWaited(cycles)]
  }

  lemma SleptFollows(slept: seq<Event>, expected: int, e1: nat, e2: nat, cycles: nat, last: seq<Event>)
    requires slept == Slept(expected, e1, e2, cycles)
    requires 1 <= |last| <= 2 && last[0].Loaded? && (|last| == 2 ==> last[1].ClockRead?)
    ensures Follows(slept + last, MonitorWait.TIMED_PROTOCOL)
  {
    var trace := slept + last;
    assert trace[6] == last[0] && (|last| == 2 ==> trace[7] == last[1]);
  }

  lemma SleptWithinBudget(slept: seq<Event>, config: Config, expected: int, d: Deadline, e1: nat, e2: nat, cycles: nat,
      last: seq<Event>)
    requires slept == Slept(expected, e1, e2, cycles) && e2 <= d.timeout
    requires cycles == Timer.TimeoutCycles(d.timeout - e2, config.hz, BudgetLimit(config))
    requires forall i :: 0 <= i < |last| ==> !last[i].HardwareWaited?
    ensures WithinBudget(slept + last, config, Some(d))
  {
    var trace := slept + last;
    assert forall i :: 0 < i < |trace| && trace[i].HardwareWaited? ==> i == 5;
  }

  function WaitIndex(deadline: Option<Deadline>): nat { if deadline.Some? then 5 else 3 }

  // ------------------------------------------------------------ the strategies

  class Waiter {
    var now: nat
    var log: seq<Event>

    method Load() returns (value: int)
      modifies this
      ensures log == old(log) + [Loaded(value)] && now == old(now)
    {
      value := *;
      log := log + [Loaded(value)];
    }

    /** `Deadline::remaining` */
    method Remaining(d: Deadline) returns (r: Option<nat>, ghost elapsed: nat)
      requires d.started <= now
      modifies this
      ensures now > old(now) && log == old(log) + [ClockRead(elapsed)] && elapsed == now - d.started
      ensures r.None? <==> elapsed >= d.timeout
      ensures r.Some? ==> r.value == d.timeout - elapsed
    {
      var ticks := *;
      now := now + 1 + Abs(ticks);
      var e := now - d.started;
      elapsed := e;
      log := log + [ClockRead(e)];
      r := if e >= d.timeout then None else Some(d.timeout - e);
    }

    method Do(e: Event)
      modifies this
      ensures log == old(log) + [e] && now == old(now)
    {
      log := log + [e];
    }

    /** The deadline check of the loops; without a deadline it reads no clock. */
    method Expired(deadline: Option<Deadline>) returns (expired: bool, ghost trace: seq<Event>)
      requires deadline.Some? ==> deadline.value.started <= now
      modifies this
      ensures log == old(log) + trace && SpinsOnly(trace)
      ensures deadline.None? ==> trace == [] && now == old(now) && !expired
      ensures deadline.Some? ==> now > old(now) && trace == [ClockRead(now - deadline.value.started)]
      ensures deadline.Some? ==> (expired <==> now - deadline.value.started >= deadline.value.timeout)
    {
      expired, trace := false, [];
      if deadline.Some? {
        var remaining, elapsed := Remaining(deadline.value);
        expired := remaining.None?;
        trace := [ClockRead(elapsed)];
      }
    }

    /** One load and deadline check. `None` means go on waiting. */
    method Check(expected: int, deadline: Option<Deadline>) returns (r: Option<WaitResult>, ghost trace: seq<Event>)
      requires deadline.Some? ==> deadline.value.started <= now
      modifies this
      ensures log == old(log) + trace && now >= old(now) && SpinsOnly(trace)
      ensures r.Some? ==> !r.value.Unclassified? && Justified(trace, expected, deadline, r.value)
      ensures r.None? ==> EndsUnclassified(trace, expected, deadline)
      ensures 1 <= |trace| <= (if deadline.Some? then 2 else 1) && trace[0].Loaded?
        && (|trace| == 2 ==> trace[1].ClockRead?)
      ensures r.None? ==> |trace| == if deadline.Some? then 2 else 1
      ensures r.None? && deadline.Some? ==> old(now) < now < deadline.value.started + deadline.value.timeout
    {
      var observed := Load();
      trace := [Loaded(observed)];
      if observed != expected {
        return Some(Changed(observed)), trace;
      }
      var expired, read := Expired(deadline);
      trace := trace + read;
      if expired {
        return Some(TimedOut), trace;
      }
      r := None;
    }

    /** `BusySpin`; `None` when an untimed wait has seen nothing in `patience` loads. */
    method BusySpinWait(expected: int, deadline: Option<Deadline>, patience: nat)
        returns (r: Option<WaitResult>, ghost trace: seq<Event>)
      requires deadline.Some? ==> deadline.value.started <= now
      modifies this
      ensures log == old(log) + trace && now >= old(now) && SpinsOnly(trace)
      ensures r.Some? ==> !r.value.Unclassified? && Justified(trace, expected, deadline, r.value)
      ensures r.None? ==> deadline.None? && AllQuiet(trace, expected, deadline) && |trace| == patience
    {
      trace := [];
      var loads := 0;
      while deadline.Some? || loads < patience
        invariant log == old(log) + trace && now >= old(now) && SpinsOnly(trace)
        invariant AllQuiet(trace, expected, deadline)
        invariant deadline.Some? ==> deadline.value.started <= now
        invariant deadline.None? ==> |trace| == loads <= patience
        decreases if deadline.Some? then Max(deadline.value.started + deadline.value.timeout, now) - now
          else patience - loads
      {
        ghost var attempt;
        r, attempt := Check(expected, deadline);
        if r.Some? {
          QuietThenJustified(trace, attempt, expected, deadline, r.value);
          trace := trace + attempt;
          return;
        }
        trace := trace + attempt;
        loads := loads + 1;
      }
      r := None;
    }

    /** `spin_prefix`: a load and a deadline check, then `spins` more. */
    method SpinPrefix(expected: int, spins: nat, deadline: Option<Deadline>)
        returns (r: Option<WaitResult>, ghost trace: seq<Event>)
      requires deadline.Some? ==> deadline.value.started <= now
      modifies this
      ensures log == old(log) + trace && now >= old(now) && SpinsOnly(trace)
      ensures r.Some? ==> !r.value.Unclassified? && Justified(trace, expected, deadline, r.value)
      ensures r.None? ==>
        AllQuiet(trace, expected, deadline) && |trace| == (spins + 1) * (if deadline.Some? then 2 else 1)
    {
      r, trace := Check(expected, deadline);
      if r.Some? {
        return;
      }
      for i := 0 to spins
        invariant log == old(log) + trace && now >= old(now) && SpinsOnly(trace)
        invariant AllQuiet(trace, expected, deadline) && |trace| == (i + 1) * (if deadline.Some? then 2 else 1)
        invariant deadline.Some? ==> deadline.value.started <= now
      {
        ghost var attempt;
        r, attempt := Check(expected, deadline);
        if r.Some? {
          QuietThenJustified(trace, attempt, expected, deadline, r.value);
          trace := trace + attempt;
          return;
        }
        trace := trace + attempt;
      }
      r := None;
    }

    /** `classify_after_wait` */
    method ClassifyAfterWait(expected: int, deadline: Option<Deadline>) returns (r: WaitResult, ghost trace: seq<Event>)
      requires deadline.Some? ==> deadline.value.started <= now
      modifies this
      ensures log == old(log) + trace && now >= old(now) && SpinsOnly(trace)
      ensures Justified(trace, expected, deadline, r)
      ensures 1 <= |trace| <= (if deadline.Some? then 2 else 1)
      ensures trace[0].Loaded? && (|trace| == 2 ==> trace[1].ClockRead?)
      ensures r.Unclassified? && deadline.Some? ==> old(now) < now < deadline.value.started + deadline.value.timeout
    {
      var checked;
      checked, trace := Check(expected, deadline);
      r := if checked.Some? then checked.value else Unclassified;
    }

    /** `mwaitx_untimed_protocol` and `umwait_untimed_protocol` */
    method UntimedProtocol(config: Config, expected: int) returns (r: WaitResult, ghost trace: seq<Event>)
      modifies this
      ensures log == old(log) + trace && now >= old(now)
      ensures Justified(trace, expected, None, r)
      ensures Follows(trace, MonitorWait.UNTIMED_PROTOCOL) && WithinBudget(trace, config, None)
      ensures r.Unclassified? ==> |trace| == |MonitorWait.UNTIMED_PROTOCOL|
    {
      var observed := Load();
      trace := [Loaded(observed)];
      if observed != expected {
        return Changed(observed), trace;
      }
      Do(Armed);
      observed := Load();
      trace := trace + [Armed, Loaded(observed)];
      if observed != expected {
        return Changed(observed), trace;
      }
      var cycles := Timer.DurationToCycles(Timer.SAFETY_TIMEOUT, config.hz, BudgetLimit(config));
      Do(HardwareWaited(cycles));
      ghost var last;
      r, last := ClassifyAfterWait(expected, None);
      trace := trace + [HardwareWaited(cycles)] + last;
    }

    /** `mwaitx_timed_protocol` and `umwait_timed_protocol` */
    method TimedProtocol(config: Config, expected: int, d: Deadline) returns (r: WaitResult, ghost trace: seq<Event>)
      requires d.started <= now
      modifies this
      ensures log == old(log) + trace && now >= old(now)
      ensures Justified(trace, expected, Some(d), r)
      ensures Follows(trace, MonitorWait.TIMED_PROTOCOL) && WithinBudget(trace, config, Some(d))
      ensures r.Unclassified? ==> |trace| == |MonitorWait.TIMED_PROTOCOL| && old(now) < now < d.started + d.timeout
    {
      var first;
      first, trace := Check(expected, Some(d));
      if first.Some? {
        return first.value, trace;
      }
      ghost var e1 := trace[1].elapsed;
      assert trace == [Loaded(expected), ClockRead(e1)];
      Do(Armed);
      var observed := Load();
      trace := [Loaded(expected), ClockRead(e1), Armed, Loaded(observed)];
      if observed != expected {
        return Changed(observed), trace;
      }
      var remaining, e2 := Remaining(d);
      trace := [Loaded(expected), ClockRead(e1), Armed, Loaded(expected), ClockRead(e2)];
      if remaining.None? {
        return TimedOut, trace;
      }
      var cycles := Timer.TimeoutCycles(remaining.value, config.hz, BudgetLimit(config));
      Do(HardwareWaited(cycles));
      ghost var last;
      r, last := ClassifyAfterWait(expected, Some(d));
      ghost var slept := Slept(expected, e1, e2, cycles);
      QuietThenJustified(slept, last, expected, Some(d), r);
      SleptFollows(slept, expected, e1, e2, cycles, last);
      SleptWithinBudget(slept, config, expected, d, e1, e2, cycles, last);
      trace := slept + last;
    }

    /** `hardware_wait` */
    method HardwareWaitRaw(config: Config, expected: int, deadline: Option<Deadline>)
        returns (r: WaitResult, ghost trace: seq<Event>)
      requires deadline.Some? ==> deadline.value.started <= now
      modifies this
      ensures log == old(log) + trace && now >= old(now)
      ensures Justified(trace, expected, deadline, r)
      ensures Follows(trace, Protocol(deadline)) && WithinBudget(trace, config, deadline)
      ensures BlockingCount(trace) <= 1 && NeverSleepsUnchecked(trace)
      ensures r.Unclassified? ==> BlockingCount(trace) == 1
      ensures r.Unclassified? && deadline.Some? ==> old(now) < now < deadline.value.started + deadline.value.timeout
    {
      match deadline {
        case Some(d) => r, trace := TimedProtocol(config, expected, d);
        case None => r, trace := UntimedProtocol(config, expected);
      }
      FollowingBlocksOnce(trace, deadline);
      FollowingIsChecked(trace, deadline);
    }

    method SpinThenYieldRaw(spins: nat, expected: int, deadline: Option<Deadline>)
        returns (r: WaitResult, ghost trace: seq<Event>)
      requires deadline.Some? ==> deadline.value.started <= now
      modifies this
      ensures log == old(log) + trace && now >= old(now)
      ensures Justified(trace, expected, deadline, r)
      ensures BlockingCount(trace) <= 1 && forall i :: 0 <= i < |trace| ==> !trace[i].HardwareWaited?
      ensures r.Unclassified? ==> BlockingCount(trace) == 1
      ensures r.Unclassified? && deadline.Some? ==> old(now) < now < deadline.value.started + deadline.value.timeout
    {
      var spun;
      spun, trace := SpinPrefix(expected, spins, deadline);
      SpinsNeverBlock(trace);
      if spun.Some? {
        return spun.value, trace;
      }
      Do(Yielded);
      ghost var last;
      r, last := ClassifyAfterWait(expected, deadline);
      SpinsNeverBlock(last);
      BlockingConcat(trace, [Yielded]);
      trace := trace + [Yielded];
      QuietThenJustified(trace, last, expected, deadline, r);
      BlockingConcat(trace, last);
      trace := trace + last;
    }

    method SpinThenHardwareRaw(spins: nat, config: Config, expected: int, deadline: Option<Deadline>)
        returns (r: WaitResult, ghost trace: seq<Event>)
      requires deadline.Some? ==> deadline.value.started <= now
      modifies this
      ensures log == old(log) + trace && now >= old(now)
      ensures Justified(trace, expected, deadline, r)
      ensures BlockingCount(trace) <= 1 && NeverSleepsUnchecked(trace)
      ensures r.Unclassified? ==> BlockingCount(trace) == 1
      ensures r.Unclassified? && deadline.Some? ==> old(now) < now < deadline.value.started + deadline.value.timeout
    {
      var spun;
      spun, trace := SpinPrefix(expected, spins, deadline);
      SpinsNeverBlock(trace);
      if spun.Some? {
        return spun.value, trace;
      }
      ghost var last;
      r, last := HardwareWaitRaw(config, expected, deadline);
      QuietThenJustified(trace, last, expected, deadline, r);
      BlockingConcat(trace, last);
      CheckedAfterSpins(trace, last);
      trace := trace + last;
    }

    /** `wait_raw` of the four strategies; `None` as in `BusySpinWait`. */
    method WaitRaw(strategy: Strategy, expected: int, deadline: Option<Deadline>, patience: nat)
        returns (r: Option<WaitResult>, ghost trace: seq<Event>)
      requires deadline.Some? ==> deadline.value.started <= now
      modifies this
      ensures log == old(log) + trace && now >= old(now)
      ensures r.Some? ==> Justified(trace, expected, deadline, r.value)
      ensures r.None? ==>
        strategy.BusySpin? && deadline.None? && AllQuiet(trace, expected, deadline) && |trace| == patience
      ensures BlockingCount(trace) <= 1 && NeverSleepsUnchecked(trace)
      ensures r == Some(Unclassified) ==> BlockingCount(trace) == 1
      ensures r == Some(Unclassified) && deadline.Some? ==>
        old(now) < now < deadline.value.started + deadline.value.timeout
    {
      var result;
      match strategy {
        case BusySpin =>
          r, trace := BusySpinWait(expected, deadline, patience);
          SpinsNeverBlock(trace);
          return;
        case HardwareWait(config) => result, trace := HardwareWaitRaw(config, expected, deadline);
        case SpinThenYield(spins) => result, trace := SpinThenYieldRaw(spins, expected, deadline);
        case SpinThenHardwareWait(spins, config) =>
          result, trace := SpinThenHardwareRaw(spins, config, expected, deadline);
      }
      r := Some(result);
    }

    /** `wait_if_equal`. Its match relabels a timeout, and no trace shows that
        the relabelling ever happens. */
    method WaitIfEqual(strategy: Strategy, expected: int, patience: nat)
        returns (r: Option<WaitResult>, ghost trace: seq<Event>)
      modifies this
      ensures log == old(log) + trace
      ensures r.Some? ==> !r.value.TimedOut? && Justified(trace, expected, None, r.value)
      ensures r.None? ==> strategy.BusySpin? && AllQuiet(trace, expected, None) && |trace| == patience
      ensures BlockingCount(trace) <= 1 && NeverSleepsUnchecked(trace)
    {
      var raw;
      raw, trace := WaitRaw(strategy, expected, None, patience);
      r := if raw == Some(TimedOut) then Some(Unclassified) else raw;
    }

    /** `wait_if_equal_timeout` */
    method WaitIfEqualTimeout(strategy: Strategy, expected: int, timeout: nat)
        returns (r: WaitResult, ghost deadline: Deadline, ghost trace: seq<Event>)
      modifies this
      ensures deadline == Deadline(old(now), timeout) && log == old(log) + trace
      ensures Justified(trace, expected, Some(deadline), r)
      ensures BlockingCount(trace) <= 1 && NeverSleepsUnchecked(trace)
    {
      var d := Deadline(now, timeout);
      var result;
      result, trace := WaitRaw(strategy, expected, Some(d), 0);
      r, deadline := result.value, d;
    }

    /** `wait_until_different`; `None` when `patience` attempts saw nothing. */
    method WaitUntilDifferent(strategy: Strategy, expected: int, patience: nat)
        returns (value: Option<int>, ghost trace: seq<Event>)
      modifies this
      ensures log == old(log) + trace
      ensures value.Some? ==> EndsChanged(trace, expected, None, value.value)
      ensures value.None? ==> AllQuiet(trace, expected, None) && |trace| >= patience
    {
      trace := [];
      for attempts := 0 to patience
        invariant log == old(log) + trace && AllQuiet(trace, expected, None) && |trace| >= attempts
      {
        var r;
        ghost var attempt;
        r, attempt := WaitRaw(strategy, expected, None, 1);
        if r.Some? {
          QuietThenJustified(trace, attempt, expected, None, r.value);
        }
        trace := trace + attempt;
        if r.Some? && r.value.Changed? {
          return Some(r.value.value), trace;
        }
      }
      value := None;
    }

    /** `wait_until_different_timeout`. It always returns, for every strategy and
        every behaviour of the other threads. */
    method WaitUntilDifferentTimeout(strategy: Strategy, expected: int, timeout: nat)
        returns (r: WaitResult, ghost deadline: Deadline, ghost trace: seq<Event>)
      modifies this
      ensures deadline == Deadline(old(now), timeout) && log == old(log) + trace
      ensures !r.Unclassified? && Justified(trace, expected, Some(deadline), r)
    {
      var d := Deadline(now, timeout);
      trace, deadline := [], d;
      while true
        invariant log == old(log) + trace && now >= d.started && AllQuiet(trace, expected, Some(d))
        decreases Max(d.started + d.timeout, now) - now
      {
        var attempted;
        ghost var attempt;
        attempted, attempt := WaitRaw(strategy, expected, Some(d), 0);
        QuietThenJustified(trace, attempt, expected, Some(d), attempted.value);
        trace := trace + attempt;
        if !attempted.value.Unclassified? {
          return attempted.value, d, trace;
        }
      }
    }
  }
}
