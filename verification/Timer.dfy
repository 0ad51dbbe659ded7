/** Timer calibration and the cycle budgets derived from it.

    Machine integers are modelled as unbounded naturals with the source's
    saturation and clamping written out. Durations are nanosecond counts.
*/
module Timer {

  import opened Machine
  import opened Sorting

  const NANOS_PER_SECOND: nat := 1_000_000_000
  const SAFETY_TIMEOUT: nat := 1_000_000
  const CALIBRATION_INTERVAL: nat := 2_000_000
  const CALIBRATION_SAMPLES: nat := 3
  const CALIBRATION_ATTEMPTS: nat := 9
  const MAX_SPREAD_PERCENT: nat := 20
  const CONSERVATIVE_PERCENT: nat := 80

  // ------------------------------------------------------------- calibration

  /** The arguments of `tsc_frequency_from_observation`. */
  datatype Observation = Observation(first: U64, firstAux: nat, last: U64, lastAux: nat, elapsed: nat)

  function FrequencyHz(ticks: U64, elapsed: nat): U64
  {
    var frequency := SaturatingMul(ticks, NANOS_PER_SECOND, U128_MAX) / Max(elapsed, 1);
    Max(if frequency <= U64_MAX then frequency else U64_MAX, 1)
  }

  function TscFrequency(o: Observation): Option<U64>
  {
    if o.firstAux != o.lastAux || o.last <= o.first || o.elapsed == 0 then None
    else Some(FrequencyHz(o.last - o.first, o.elapsed))
  }

  /** The usable samples among the observations, in order. */
  function Usable(observations: seq<Observation>): seq<U64>
  {
    if observations == [] then []
    else
      var last := TscFrequency(observations[|observations| - 1]);
      Usable(observations[..|observations| - 1]) + if last.Some? then [last.value] else []
  }

  lemma {:induction false} UsableGrows(observations: seq<Observation>, n: nat)
    requires n <= |observations|
    ensures Usable(observations[..n]) <= Usable(observations)
    decreases |observations|
  {
    if n < |observations| {
      var front := observations[..|observations| - 1];
      UsableGrows(front, n);
      assert front[..n] == observations[..n];
    } else {
      assert observations[..n] == observations;
    }
  }

  lemma {:induction false} UsableComesFrom(observations: seq<Observation>, k: nat)
    requires k < |Usable(observations)|
    ensures exists i :: 0 <= i < |observations| && TscFrequency(observations[i]) == Some(Usable(observations)[k])
    decreases |observations|
  {
    var n := |observations| - 1;
    if k < |Usable(observations[..n])| {
      UsableComesFrom(observations[..n], k);
      var i :| 0 <= i < n && TscFrequency(observations[..n][i]) == Some(Usable(observations[..n])[k]);
      assert TscFrequency(observations[i]) == Some(Usable(observations)[k]);
    } else {
      assert TscFrequency(observations[n]) == Some(Usable(observations)[k]);
    }
  }

  /** `collect_tsc_frequencies`: `observations` are the results of the sampling
      calls, of which it makes at most as many as it needs. */
  method CollectTscFrequencies(observations: seq<Observation>) returns (samples: Option<seq<U64>>)
    requires |observations| == CALIBRATION_ATTEMPTS
    ensures samples.Some? <==> |Usable(observations)| >= CALIBRATION_SAMPLES
    ensures samples.Some? ==> samples.value == Usable(observations)[..CALIBRATION_SAMPLES]
  {
    var buffer := new U64[CALIBRATION_SAMPLES](_ => 0);
    var collected := 0;
    for attempt := 0 to CALIBRATION_ATTEMPTS
      invariant collected < buffer.Length == CALIBRATION_SAMPLES
      invariant buffer[..collected] == Usable(observations[..attempt])
    {
      assert observations[..attempt + 1][..attempt] == observations[..attempt];
      var sample := TscFrequency(observations[attempt]);
      if sample.Some? {
        buffer[collected] := sample.value;
        collected := collected + 1;
        if collected == CALIBRATION_SAMPLES {
          UsableGrows(observations, attempt + 1);
          return Some(buffer[..]);
        }
      }
    }
    assert observations[..CALIBRATION_ATTEMPTS] == observations;
    samples := None;
  }

  function Smallest(s: seq<nat>): (r: nat)
    requires s != []
    ensures r in s && forall i :: 0 <= i < |s| ==> r <= s[i]
  {
    if |s| == 1 then s[0] else Min(s[0], Smallest(s[1..]))
  }

  function Largest(s: seq<nat>): (r: nat)
    requires s != []
    ensures r in s && forall i :: 0 <= i < |s| ==> s[i] <= r
  {
    if |s| == 1 then s[0] else Max(s[0], Largest(s[1..]))
  }

  lemma SortedEnds(s: seq<nat>, sorted: seq<nat>)
    requires |s| == |sorted| == CALIBRATION_SAMPLES && multiset(s) == multiset(sorted)
    requires Sorted(sorted)
    ensures sorted[0] == Smallest(s) && sorted[2] == Largest(s)
  {
    assert Smallest(s) in multiset(sorted) && Largest(s) in multiset(sorted);
    assert sorted[0] in multiset(s) && sorted[2] in multiset(s);
  }

  /** The samples agree to within 20 percent of the largest. */
  predicate SmallSpread(samples: seq<nat>)
    requires samples != []
  {
    5 * (Largest(samples) - Smallest(samples)) <= Largest(samples)
  }

  /** Small spreads are accepted, and any spread at all once twenty times the
      largest sample saturates. */
  predicate Accepted(samples: seq<nat>)
    requires samples != []
  {
    Smallest(samples) >= 2 && (SmallSpread(samples) || 20 * Largest(samples) > U64_MAX)
  }

  /** What the two saturating comparisons amount to. */
  lemma SaturatedSpread(minimum: U64, maximum: U64)
    requires minimum <= maximum
    ensures SaturatingMul(maximum - minimum, 100, U64_MAX) > SaturatingMul(maximum, MAX_SPREAD_PERCENT, U64_MAX)
            <==> 5 * (maximum - minimum) > maximum && 20 * maximum <= U64_MAX
  {
  }

  lemma SaturatedBound(minimum: U64)
    ensures var bound := SaturatingMul(minimum, CONSERVATIVE_PERCENT, U64_MAX) / 100;
      bound == Min(4 * minimum / 5, U64_MAX / 100) && 5 * bound <= 4 * minimum && (bound > 0 <==> minimum >= 2)
  {
  }

  /** `conservative_timer_hz` */
  method ConservativeTimerHz(samples: seq<U64>) returns (hz: Option<nat>)
    requires |samples| == CALIBRATION_SAMPLES
    ensures hz.Some? <==> Accepted(samples)
    ensures hz.Some? ==> 1 <= hz.value && 5 * hz.value <= 4 * Smallest(samples)
    ensures hz.Some? ==> hz.value == Min(4 * Smallest(samples) / 5, U64_MAX / 100)
  {
    var sorted := new nat[CALIBRATION_SAMPLES](i requires 0 <= i < CALIBRATION_SAMPLES => samples[i]);
    assert sorted[..] == samples;
    SortInPlace(sorted);
    SortedEnds(samples, sorted[..]);
    var minimum, maximum := sorted[0], sorted[CALIBRATION_SAMPLES - 1];
    SaturatedSpread(minimum, maximum);
    if SaturatingMul(maximum - minimum, 100, U64_MAX) > SaturatingMul(maximum, MAX_SPREAD_PERCENT, U64_MAX) {
      return None;
    }
    SaturatedBound(minimum);
    var lowerBound := SaturatingMul(minimum, CONSERVATIVE_PERCENT, U64_MAX) / 100;
    hz := if lowerBound > 0 then Some(lowerBound) else None;
  }

  /** The documented 20 percent limit holds exactly below the saturation point:
      for every larger maximum some accepted triple has a larger spread. */
  lemma SpreadLimitHoldsIffUnsaturated(maximum: U64)
    ensures (forall samples: seq<U64> |
               |samples| == CALIBRATION_SAMPLES && Largest(samples) == maximum
                 && Accepted(samples) :: SmallSpread(samples))
            <==> 20 * maximum <= U64_MAX
  {
    if 20 * maximum > U64_MAX {
      var samples: seq<U64> := [2, 2, maximum];
      assert samples[2] == maximum && samples[0] == 2;
      assert Largest(samples) == maximum && Smallest(samples) == 2;
      assert !SmallSpread(samples);
    }
  }

  // ---------------------------------------------------------------- the truth

  /** What one calibration sample saw: the wall clock was read at `started` and
      `finished`, the TSC in between at `firstRead` and `lastRead`, all in
      nanoseconds of true time, and the TSC runs at `rate` ticks per second. */
  datatype Window = Window(rate: real, phase: real, started: real, firstRead: real, lastRead: real, finished: real)

  predicate Nested(w: Window)
  {
    w.rate > 0.0 && w.started <= w.firstRead <= w.lastRead <= w.finished
  }

  function TicksAt(w: Window, t: real): real
  {
    w.phase + w.rate * t / NANOS_PER_SECOND as real
  }

  /** Exact clocks: no rounding in either counter. */
  predicate ExactlySeen(o: Observation, w: Window)
  {
    Nested(w)
    && o.elapsed as real == w.finished - w.started
    && o.first as real == TicksAt(w, w.firstRead)
    && o.last as real == TicksAt(w, w.lastRead)
  }

  /** Counters that truncate, over a window of at least the calibration interval. */
  predicate TruncatedSeen(o: Observation, w: Window)
  {
    Nested(w) && o.elapsed >= CALIBRATION_INTERVAL
    && o.elapsed == (w.finished - w.started).Floor
    && TicksAt(w, w.firstRead) >= 0.0
    && o.first == TicksAt(w, w.firstRead).Floor
    && o.last == TicksAt(w, w.lastRead).Floor
  }

  lemma FrequencyIsExact(ticks: U64, elapsed: nat)
    requires elapsed > 0
    ensures FrequencyHz(ticks, elapsed) == Max(1, Min(U64_MAX, ticks * NANOS_PER_SECOND / elapsed))
  {
  }

  lemma DivBound(n: nat, d: nat)
    requires d > 0
    ensures (n / d) * d <= n < (n / d + 1) * d
  {
  }

  /** A sample above the floor times its window is at most the ticks counted. */
  lemma SampleTimesWindow(o: Observation)
    requires TscFrequency(o).Some? && TscFrequency(o).value > 1
    ensures TscFrequency(o).value as real * o.elapsed as real <= (o.last - o.first) as real * 1e9
  {
    var ticks, f := o.last - o.first, TscFrequency(o).value;
    FrequencyIsExact(ticks, o.elapsed);
    var q := ticks * NANOS_PER_SECOND / o.elapsed;
    DivBound(ticks * NANOS_PER_SECOND, o.elapsed);
    assert f <= q;
    assert f * o.elapsed <= q * o.elapsed <= ticks * NANOS_PER_SECOND;
    assert f as real * o.elapsed as real == (f * o.elapsed) as real;
  }

  lemma MulMono(x: real, y: real, z: real)
    requires x >= 0.0 && y <= z
    ensures x * y <= x * z
  {
  }

  lemma CancelLe(x: real, y: real, z: real)
    requires z > 0.0 && x * z <= y * z
    ensures x <= y
  {
  }

  lemma CancelChain(x: real, y: real, z: real, middle: real)
    requires z > 0.0 && x * z <= middle <= y * z
    ensures x <= y
  {
    CancelLe(x, y, z);
  }

  /** The TSC window, in ticks, is at most the rate times the wall window. */
  lemma TicksInWindow(w: Window)
    requires Nested(w)
    ensures (TicksAt(w, w.lastRead) - TicksAt(w, w.firstRead)) * 1e9 <= w.rate * (w.finished - w.started)
  {
    assert TicksAt(w, w.lastRead) - TicksAt(w, w.firstRead) == (w.rate * w.lastRead - w.rate * w.firstRead) / 1e9;
    assert w.rate * w.lastRead - w.rate * w.firstRead == w.rate * (w.lastRead - w.firstRead);
    MulMono(w.rate, w.lastRead - w.firstRead, w.finished - w.started);
  }

  lemma ExactTicks(o: Observation, w: Window)
    requires ExactlySeen(o, w)
    ensures (o.last - o.first) as real * 1e9 <= w.rate * o.elapsed as real
  {
    TicksInWindow(w);
    assert (o.last - o.first) as real == TicksAt(w, w.lastRead) - TicksAt(w, w.firstRead);
  }

  /** With exact clocks no sample above the floor of 1 exceeds the true rate,
      because the elapsed window contains the TSC window. */
  lemma SampleNeverExceedsTrueRate(o: Observation, w: Window)
    requires ExactlySeen(o, w) && TscFrequency(o).Some? && TscFrequency(o).value > 1
    ensures TscFrequency(o).value as real <= w.rate
  {
    SampleTimesWindow(o);
    ExactTicks(o, w);
    CancelChain(TscFrequency(o).value as real, w.rate, o.elapsed as real, (o.last - o.first) as real * 1e9);
  }

  lemma OneMoreTick(counted: real, ticks: real, bound: real)
    requires counted <= ticks + 1.0 && ticks * 1e9 <= bound
    ensures counted * 1e9 <= bound + 1e9
  {
    assert counted * 1e9 <= (ticks + 1.0) * 1e9 == ticks * 1e9 + 1e9;
  }

  lemma TruncatedTicks(o: Observation, w: Window)
    requires TruncatedSeen(o, w) && o.first <= o.last
    ensures (o.last - o.first) as real * 1e9 <= w.rate * (o.elapsed as real + 1.0) + 1e9
  {
    TicksInWindow(w);
    MulMono(w.rate, w.finished - w.started, o.elapsed as real + 1.0);
    var ticks := TicksAt(w, w.lastRead) - TicksAt(w, w.firstRead);
    assert (o.last - o.first) as real <= ticks + 1.0;
    OneMoreTick((o.last - o.first) as real, ticks, w.rate * (o.elapsed as real + 1.0));
  }

  lemma MarginArithmetic(f: real, e: real, rate: real)
    requires e >= 2e6 && rate >= 2001.0 && f * e <= rate * (e + 1.0) + 1e9
    ensures 4.0 * f <= 5.0 * rate
  {
    MulMono(rate, 2e6, e);
    var re := rate * e;
    assert rate * (e + 1.0) == re + rate;
    assert 4.0 * (re + rate + 1e9) <= 5.0 * re;
    assert (4.0 * f) * e == 4.0 * (f * e) && (5.0 * rate) * e == 5.0 * re;
    CancelLe(4.0 * f, 5.0 * rate, e);
  }

  /** With truncating counters four fifths of a sample is still at most the true
      rate, for every timer of at least 2001 Hz. */
  lemma TruncationIsInsideTheMargin(o: Observation, w: Window)
    requires TruncatedSeen(o, w) && TscFrequency(o).Some? && TscFrequency(o).value > 1 && w.rate >= 2001.0
    ensures 4.0 * TscFrequency(o).value as real <= 5.0 * w.rate
  {
    SampleTimesWindow(o);
    TruncatedTicks(o, w);
    MarginArithmetic(TscFrequency(o).value as real, o.elapsed as real, w.rate);
  }

  /** `calibrate_timer_hz`, and what it guarantees about the true rate. */
  method CalibrateTimerHz(observations: seq<Observation>) returns (hz: Option<nat>)
    requires |observations| == CALIBRATION_ATTEMPTS
    ensures |Usable(observations)| < CALIBRATION_SAMPLES ==> hz == None
    ensures hz.Some? ==> 1 <= hz.value && 5 * hz.value <= 4 * Smallest(Usable(observations)[..CALIBRATION_SAMPLES])
    ensures forall windows: seq<Window>, rate: real | hz.Some? && SeenAll(observations, windows, rate, ExactlySeen) ::
              5.0 * hz.value as real <= 4.0 * rate
    ensures forall windows: seq<Window>, rate: real |
              hz.Some? && rate >= 2001.0 && SeenAll(observations, windows, rate, TruncatedSeen) ::
              hz.value as real <= rate
  {
    var samples := CollectTscFrequencies(observations);
    if samples == None {
      return None;
    }
    hz := ConservativeTimerHz(samples.value);
    if hz.Some? {
      var k :| 0 <= k < CALIBRATION_SAMPLES && samples.value[k] == Smallest(samples.value);
      UsableComesFrom(observations, k);
      var i :| 0 <= i < |observations| && TscFrequency(observations[i]) == Some(samples.value[k]);
      forall windows: seq<Window>, rate: real | SeenAll(observations, windows, rate, ExactlySeen)
        ensures 5.0 * hz.value as real <= 4.0 * rate {
        SampleNeverExceedsTrueRate(observations[i], windows[i]);
      }
      forall windows: seq<Window>, rate: real | rate >= 2001.0 && SeenAll(observations, windows, rate, TruncatedSeen)
        ensures hz.value as real <= rate {
        TruncationIsInsideTheMargin(observations[i], windows[i]);
      }
    }
  }

  /** Every observation was made in its window, all at one true rate. */
  ghost predicate SeenAll(observations: seq<Observation>, windows: seq<Window>, rate: real,
      seen: (Observation, Window) -> bool)
  {
    |windows| == |observations|
    && forall i :: 0 <= i < |windows| ==> windows[i].rate == rate && seen(observations[i], windows[i])
  }

  // ------------------------------------------------------------------ budgets

  /** `duration_to_cycles` (limit U32_MAX) and `duration_to_cycles_u64` (U64_MAX). */
  function DurationToCycles(nanos: nat, hz: U64, limit: nat): nat
    requires limit >= 1
  {
    var cycles := SaturatingMul(nanos, hz, U128_MAX) / NANOS_PER_SECOND;
    Min(Max(cycles, 1), limit)
  }

  /** `mwaitx_timeout_cycles` and `umwait_timeout_cycles` on a configuration
      whose safety budget was computed at construction. */
  function TimeoutCycles(remaining: nat, hz: U64, limit: nat): nat
    requires limit >= 1
  {
    if remaining < SAFETY_TIMEOUT then DurationToCycles(remaining, hz, limit)
    else DurationToCycles(SAFETY_TIMEOUT, hz, limit)
  }

  /** Saturation of the 128-bit product is invisible after the clamp. */
  lemma CyclesAreExact(nanos: nat, hz: U64, limit: nat)
    requires 1 <= limit <= U64_MAX
    ensures DurationToCycles(nanos, hz, limit) == Min(Max(nanos * hz / NANOS_PER_SECOND, 1), limit)
  {
    if nanos * hz > U128_MAX {
      assert nanos * hz / NANOS_PER_SECOND >= U128_MAX / NANOS_PER_SECOND;
    }
  }

  /** Every budget is nonzero, fits its register, never outlasts the remaining
      time or the safety timeout at the configured rate unless it is the minimal
      budget of one cycle, and is the largest such budget. */
  lemma BudgetIsTight(remaining: nat, hz: U64, limit: nat)
    requires 1 <= limit <= U64_MAX
    ensures var b, t := TimeoutCycles(remaining, hz, limit), Min(remaining, SAFETY_TIMEOUT);
      1 <= b <= limit
      && (b == 1 || b * NANOS_PER_SECOND <= t * hz)
      && (b == limit || t * hz < (b + 1) * NANOS_PER_SECOND)
  {
    var t := Min(remaining, SAFETY_TIMEOUT);
    CyclesAreExact(t, hz, limit);
    DivBound(t * hz, NANOS_PER_SECOND);
  }

  /** At `rate` ticks per second, `cycles` ticks pass within `nanos`. */
  predicate PassWithin(cycles: nat, rate: real, nanos: nat)
  {
    cycles as real * 1e9 <= nanos as real * rate
  }

  lemma ScaleBudget(b: nat, t: nat, hz: nat, rate: real)
    requires b * NANOS_PER_SECOND <= t * hz && hz as real <= rate
    ensures PassWithin(b, rate, t)
  {
    assert (b * NANOS_PER_SECOND) as real <= (t * hz) as real == t as real * hz as real;
    MulMono(t as real, hz as real, rate);
  }

  /** On a timer that runs at least as fast as configured, a budget above one
      cycle lasts no longer than the remaining time and the safety timeout. */
  lemma BudgetNeverOutlastsDeadline(remaining: nat, hz: U64, limit: nat, rate: real)
    requires 1 <= limit <= U64_MAX && hz as real <= rate
    ensures var b := TimeoutCycles(remaining, hz, limit);
      b == 1 || PassWithin(b, rate, Min(remaining, SAFETY_TIMEOUT))
  {
    BudgetIsTight(remaining, hz, limit);
    var b, t := TimeoutCycles(remaining, hz, limit), Min(remaining, SAFETY_TIMEOUT);
    if b != 1 {
      ScaleBudget(b, t, hz, rate);
    }
  }

  /** Observation to budget: a calibrated timer never makes a wait overrun. */
  method CalibratedBudget(observations: seq<Observation>, remaining: nat, limit: nat) returns (budget: Option<nat>)
    requires |observations| == CALIBRATION_ATTEMPTS && 1 <= limit <= U64_MAX
    ensures budget.Some? ==> 1 <= budget.value <= limit
    ensures forall windows: seq<Window>, rate: real | budget.Some?
      && SeenAll(observations, windows, rate, ExactlySeen) ::
              budget.value == 1 || PassWithin(budget.value, rate, Min(remaining, SAFETY_TIMEOUT))
    ensures forall windows: seq<Window>, rate: real |
              budget.Some? && rate >= 2001.0 && SeenAll(observations, windows, rate, TruncatedSeen) ::
              budget.value == 1 || PassWithin(budget.value, rate, Min(remaining, SAFETY_TIMEOUT))
  {
    var hz := CalibrateTimerHz(observations);
    if hz == None {
      return None;
    }
    assert hz.value <= U64_MAX by {
      UsableComesFrom(observations, 0);
      assert Usable(observations)[..CALIBRATION_SAMPLES][0] <= U64_MAX;
    }
    budget := Some(TimeoutCycles(remaining, hz.value, limit));
    BudgetIsTight(remaining, hz.value, limit);
    forall windows: seq<Window>, rate: real | SeenAll(observations, windows, rate, ExactlySeen)
      ensures budget.value == 1 || PassWithin(budget.value, rate, Min(remaining, SAFETY_TIMEOUT)) {
      BudgetNeverOutlastsDeadline(remaining, hz.value, limit, rate);
    }
    forall windows: seq<Window>, rate: real | rate >= 2001.0 && SeenAll(observations, windows, rate, TruncatedSeen)
      ensures budget.value == 1 || PassWithin(budget.value, rate, Min(remaining, SAFETY_TIMEOUT)) {
      BudgetNeverOutlastsDeadline(remaining, hz.value, limit, rate);
    }
  }

  // -------------------------------------------------------- absolute deadlines

  /** `umwait_deadline` at TSC value `now`. */
  function UmwaitDeadline(now: U64, cycles: nat): U64
  {
    SaturatingAdd(now, Max(cycles, 1), U64_MAX)
  }

  function SplitTscDeadline(deadline: U64): (r: (nat, nat))
  {
    (deadline % 0x1_0000_0000, deadline / 0x1_0000_0000)
  }

  function TscFromHalves(high: nat, low: nat): nat
  {
    high * 0x1_0000_0000 + low
  }

  /** The register pair that UMWAIT receives denotes a deadline that is in the
      future, at most the budget away, and exactly the budget away unless the
      counter itself would overflow. */
  lemma UmwaitReceivesDeadline(now: U64, cycles: nat)
    requires 1 <= cycles
    ensures var (low, high) := SplitTscDeadline(UmwaitDeadline(now, cycles));
      low <= U32_MAX && high <= U32_MAX
      && var received := TscFromHalves(high, low);
         received <= now + cycles
         && (now < U64_MAX ==> received > now)
         && (now + cycles <= U64_MAX <==> received == now + cycles)
  {
  }
}
