/** The cross-core TSC offset estimate and the latency correction built on it.

    The handshake is a step system over Release/Acquire atomics in which true
    time never runs backwards. The controller's counter shows true time and the
    remote one shows true time plus a fixed offset, so both run at one rate.
*/
module TscOffset {
  import opened Machine
  import opened Runs

  /** One round trip: the controller's stamps around the remote stamp it read. */
  datatype Exchange = Exchange(before: int, remote: int, after: int)

  /** The remote stamp was taken at a moment inside the round trip. */
  predicate Enclosed(x: Exchange, offset: int)
  {
    x.before <= x.remote - offset <= x.after
  }

  // ---------------------------------------------------------------- handshake

  datatype ControllerPc = CStamp | CRequest | CAwait | CLoad(floor: nat) | CAfter(cycles: int)

  datatype WorkerPc = WAwait | WStamp | WStore(cycles: int) | WRespond

  datatype State = State(
    now: int,
    requests: nat,        // `request` has messages 0, 1, ..., requests
    responses: seq<nat>,  // how many messages of `remote_cycles` response i + 1 releases
    remotes: seq<int>,    // stores of `remote_cycles`, the initial one first
    sequence: nat,        // the controller's loop variable
    before: int,
    controller: ControllerPc,
    served: nat,          // the worker's loop variable
    worker: WorkerPc,
    exchanges: seq<Exchange>)

  datatype Event =
    | TimePasses(cycles: nat)
    | ControllerStamps | ControllerRequests | ControllerSeesResponse | ControllerLoadsRemote(at: nat)
    | ControllerFinishes
    | WorkerSeesRequest | WorkerStamps | WorkerStores | WorkerResponds

  function Start(now: int): State
  {
    State(now, 0, [], [0], 1, now, CStamp, 1, WAwait, [])
  }

  function Step(offset: int, s: State, e: Event): State
  {
    match e
    case TimePasses(cycles) => s.(now := s.now + cycles)
    case ControllerStamps => if s.controller.CStamp? then s.(before := s.now, controller := CRequest) else s
    case ControllerRequests =>
      if s.controller.CRequest? then s.(requests := s.requests + 1, controller := CAwait) else s
    case ControllerSeesResponse =>
      if s.controller.CAwait? && 0 < s.sequence <= |s.responses| then
        s.(controller := CLoad(s.responses[s.sequence - 1]))
      else s
    case ControllerLoadsRemote(at) =>
      if s.controller.CLoad? && s.controller.floor <= at + 1 <= |s.remotes| then
        s.(controller := CAfter(s.remotes[at]))
      else s
    case ControllerFinishes =>
      if s.controller.CAfter? then
        s.(exchanges := s.exchanges + [Exchange(s.before, s.controller.cycles, s.now)], sequence := s.sequence + 1,
          controller := CStamp)
      else s
    case WorkerSeesRequest => if s.worker.WAwait? && s.served <= s.requests then s.(worker := WStamp) else s
    case WorkerStamps => if s.worker.WStamp? then s.(worker := WStore(s.now + offset)) else s
    case WorkerStores =>
      if s.worker.WStore? then s.(remotes := s.remotes + [s.worker.cycles], worker := WRespond) else s
    case WorkerResponds =>
      if s.worker.WRespond? then
        s.(responses := s.responses + [|s.remotes|], served := s.served + 1, worker := WAwait)
      else s
  }

  ghost function After(offset: int, now: int, es: seq<Event>): State
  {
    Exec((s: State, e: Event) => Step(offset, s, e), Start(now), es)
  }

  /** The worker has stamped for the controller's current request. */
  predicate Stamped(s: State)
  {
    s.served == s.sequence + 1 || (s.served == s.sequence && s.worker.WRespond?)
  }

  predicate HandshakeInv(offset: int, s: State)
  {
    s.requests == (if s.controller.CStamp? || s.controller.CRequest? then s.sequence - 1 else s.sequence)
    && s.sequence <= s.served <= s.requests + 1
    && (!s.worker.WAwait? ==> s.served <= s.requests)
    && |s.responses| == s.served - 1
    && |s.remotes| == (if s.worker.WRespond? then s.served + 1 else s.served)
    && (forall i :: 0 <= i < |s.responses| ==> s.responses[i] == i + 2)
    && (s.controller.CLoad? ==> s.served == s.sequence + 1 && s.controller.floor == s.sequence + 1)
    && (s.controller.CAfter? ==> s.served == s.sequence + 1 && s.before <= s.controller.cycles - offset <= s.now)
    && s.before <= s.now
    && (s.worker.WStore? && s.served == s.sequence ==> s.before <= s.worker.cycles - offset <= s.now)
    && (Stamped(s) ==> s.before <= s.remotes[s.sequence] - offset <= s.now)
    && (forall i :: 0 <= i < |s.exchanges| ==> Enclosed(s.exchanges[i], offset))
  }

  lemma HandshakeStep(offset: int, s: State, e: Event)
    requires HandshakeInv(offset, s)
    ensures HandshakeInv(offset, Step(offset, s, e))
  {
  }

  /** Every round trip the handshake completes encloses its remote stamp. */
  lemma HandshakeEncloses(offset: int, now: int, es: seq<Event>)
    ensures forall x :: x in After(offset, now, es).exchanges ==> Enclosed(x, offset)
  {
    var step := (s: State, e: Event) => Step(offset, s, e);
    var inv := (s: State) => HandshakeInv(offset, s);
    forall s, e | inv(s) ensures inv(step(s, e)) { HandshakeStep(offset, s, e); }
    InvariantHolds(step, inv, Start(now), es);
  }

  // ----------------------------------------------------------------- estimate

  /** What one pass of the controller's loop reads. */
  datatype Reading = Reading(before: U64, beforeAux: nat, remote: U64, after: U64, afterAux: nat)

  datatype Estimate =
    | Migrated
    | RemoteFailed
    | OutOfRange
    | Estimated(offset: I64, uncertainty: nat)

  predicate Steady(r: Reading, aux: nat)
  {
    r.beforeAux == aux && r.afterAux == aux && r.before <= r.after
  }

  function RoundTrip(r: Reading): int
  {
    r.after - r.before
  }

  function ExchangeOf(r: Reading): Exchange
  {
    Exchange(r.before, r.remote, r.after)
  }

  /** Ceiling of half the round trip. */
  function Bound(roundTrip: int): int
  {
    roundTrip - roundTrip / 2
  }

  function MidpointOffset(r: Reading): int
  {
    r.remote - (r.before + RoundTrip(r) / 2)
  }

  /** Index of the first reading with the smallest round trip below u64::MAX, if any. */
  ghost predicate Best(readings: seq<Reading>, k: nat)
  {
    k < |readings| && RoundTrip(readings[k]) < U64_MAX
    && (forall i :: 0 <= i < |readings| ==> RoundTrip(readings[k]) <= RoundTrip(readings[i]))
    && (forall i :: 0 <= i < k ==> RoundTrip(readings[k]) < RoundTrip(readings[i]))
  }

  /** `estimate_remote_tsc_offset`, on the readings of its loop. */
  method EstimateRemoteTscOffset(readings: seq<Reading>, aux: nat, remoteFailed: bool) returns (e: Estimate)
    ensures e.Migrated? <==> exists i :: 0 <= i < |readings| && !Steady(readings[i], aux)
    ensures e.RemoteFailed? ==> remoteFailed
    ensures remoteFailed ==> e.Migrated? || e.RemoteFailed?
    ensures forall k: nat :: !e.Migrated? && Best(readings, k) ==>
              (e.OutOfRange? ==> !(I64_MIN <= MidpointOffset(readings[k]) <= I64_MAX))
              && (e.Estimated? ==>
                e.offset == MidpointOffset(readings[k]) && e.uncertainty == RoundTrip(readings[k]) / 2)
    ensures (forall k: nat :: !Best(readings, k)) ==> !e.OutOfRange?
    ensures e.Estimated? && (forall k: nat :: !Best(readings, k)) ==> e.offset == 0 && e.uncertainty == U64_MAX / 2
  {
    var bestRoundTrip: nat := U64_MAX;
    var bestOffset := 0;
    ghost var best := 0;
    for i := 0 to |readings|
      invariant forall j :: 0 <= j < i ==> Steady(readings[j], aux)
      invariant forall j :: 0 <= j < i ==> bestRoundTrip <= RoundTrip(readings[j])
      invariant bestRoundTrip <= U64_MAX
      invariant bestRoundTrip == U64_MAX ==> bestOffset == 0
      invariant bestRoundTrip < U64_MAX ==>
        best < i && bestRoundTrip == RoundTrip(readings[best]) && bestOffset == MidpointOffset(readings[best])
        && forall j :: 0 <= j < best ==> bestRoundTrip < RoundTrip(readings[j])
    {
      var r := readings[i];
      if r.beforeAux != aux || r.afterAux != aux || r.after < r.before {
        return Migrated;
      }
      if RoundTrip(r) < bestRoundTrip {
        bestRoundTrip := RoundTrip(r);
        bestOffset := r.remote - (r.before + bestRoundTrip / 2);
        best := i;
      }
    }
    if bestRoundTrip < U64_MAX {
      assert Best(readings, best);
      assert forall k: nat :: Best(readings, k) ==> k == best;
    }
    if remoteFailed {
      return RemoteFailed;
    }
    if !(I64_MIN <= bestOffset <= I64_MAX) {
      return OutOfRange;
    }
    e := Estimated(bestOffset, bestRoundTrip / 2);
  }

  lemma MidpointIsClose(r: Reading, offset: int)
    requires r.before <= r.after && Enclosed(ExchangeOf(r), offset)
    ensures Abs(MidpointOffset(r) - offset) <= Bound(RoundTrip(r)) <= RoundTrip(r) / 2 + 1
  {
  }

  /** The estimate of a handshake of any length whose best round trip is below
      u64::MAX is within the reported uncertainty, plus at most one cycle, of
      the true offset. */
  method EstimateIsClose(readings: seq<Reading>, aux: nat, remoteFailed: bool, ghost offset: int, ghost now: int,
      ghost es: seq<Event>)
      returns (e: Estimate)
    requires forall i :: 0 <= i < |readings| ==> ExchangeOf(readings[i]) in After(offset, now, es).exchanges
    requires exists i :: 0 <= i < |readings| && RoundTrip(readings[i]) < U64_MAX
    ensures e.Estimated? ==> Abs(e.offset - offset) <= e.uncertainty + 1
    ensures e.Estimated? ==> exists k: nat ::
      Best(readings, k) && Abs(e.offset - offset) <= Bound(RoundTrip(readings[k]))
  {
    HandshakeEncloses(offset, now, es);
    e := EstimateRemoteTscOffset(readings, aux, remoteFailed);
    if e.Estimated? {
      ghost var k := BestExists(readings);
      MidpointIsClose(readings[k], offset);
    }
  }

  lemma {:induction false} BestExists(readings: seq<Reading>) returns (k: nat)
    requires exists i :: 0 <= i < |readings| && RoundTrip(readings[i]) < U64_MAX
    ensures Best(readings, k)
  {
    var n := |readings| - 1;
    var front := readings[..n];
    if exists i :: 0 <= i < |front| && RoundTrip(front[i]) < U64_MAX {
      k := BestExists(front);
      if RoundTrip(readings[n]) < RoundTrip(readings[k]) {
        k := n;
      }
    } else {
      k := n;
      forall i | 0 <= i < n ensures RoundTrip(readings[n]) < RoundTrip(readings[i]) {
        assert front[i] == readings[i];
      }
    }
  }

  // --------------------------------------------------------------- correction

  datatype Corrected = Rejected | Accepted(cycles: nat)

  /** `correct_latency`: the 128-bit difference, kept when it fits a u64. */
  function CorrectLatency(raw: I64, correction: I64): Corrected
  {
    var corrected := raw - correction;
    if 0 <= corrected <= U64_MAX then Accepted(corrected) else Rejected
  }

  /** A latency is rejected exactly when its corrected value is negative, and an
      accepted one is as far from the true latency as the estimate from the
      true offset. */
  lemma CorrectionIsFaithful(raw: I64, correction: I64, offset: int)
    ensures CorrectLatency(raw, correction).Rejected? <==> raw < correction
    ensures var trueLatency := raw - offset;
      CorrectLatency(raw, correction).Accepted? ==>
        Abs(CorrectLatency(raw, correction).cycles - trueLatency) == Abs(correction - offset)
  {
  }

  /** The accepted latencies, in order. */
  function Kept(raw: seq<I64>, correction: I64): seq<nat>
  {
    if raw == [] then []
    else
      var last := CorrectLatency(raw[|raw| - 1], correction);
      Kept(raw[..|raw| - 1], correction) + if last.Accepted? then [last.cycles] else []
  }

  /** The correction loop of `RepetitionResult::new`; it fails when nothing is left. */
  method CorrectAll(raw: seq<I64>, correction: I64, invalidBefore: U64)
      returns (latencies: seq<nat>, invalid: U64, failed: bool)
    ensures latencies == Kept(raw, correction)
    ensures |latencies| <= |raw| && invalid == SaturatingAdd(invalidBefore, |raw| - |latencies|, U64_MAX)
    ensures failed <==> forall i :: 0 <= i < |raw| ==> raw[i] < correction
  {
    latencies, invalid := [], invalidBefore;
    for i := 0 to |raw|
      invariant latencies == Kept(raw[..i], correction) && |latencies| <= i
      invariant invalid == SaturatingAdd(invalidBefore, i - |latencies|, U64_MAX)
      invariant latencies == [] <==> forall j :: 0 <= j < i ==> raw[j] < correction
    {
      assert raw[..i + 1][..i] == raw[..i];
      var corrected := CorrectLatency(raw[i], correction);
      if corrected.Accepted? {
        latencies := latencies + [corrected.cycles];
      } else if invalid < U64_MAX {
        invalid := invalid + 1;
      }
    }
    assert raw[..|raw|] == raw;
    failed := latencies == [];
  }

  /** Which samples are kept. */
  function KeptIndices(raw: seq<I64>, correction: I64): seq<nat>
  {
    if raw == [] then []
    else
      var n := |raw| - 1;
      KeptIndices(raw[..n], correction) + if CorrectLatency(raw[n], correction).Accepted? then [n] else []
  }

  /** Latency `k` is the corrected value of sample `indices[k]`, in order. */
  predicate Corresponds(raw: seq<I64>, correction: I64, kept: seq<nat>, indices: seq<nat>)
  {
    |kept| == |indices|
    && (forall k :: 0 <= k < |kept| ==> indices[k] < |raw| && kept[k] == raw[indices[k]] - correction)
    && (forall j, k :: 0 <= j < k < |indices| ==> indices[j] < indices[k])
  }

  lemma CorrespondsAppend(raw: seq<I64>, correction: I64, kept: seq<nat>, indices: seq<nat>)
    requires raw != [] && Corresponds(raw[..|raw| - 1], correction, kept, indices)
    ensures Corresponds(raw, correction, kept, indices)
    ensures raw[|raw| - 1] >= correction ==>
      Corresponds(raw, correction, kept + [raw[|raw| - 1] - correction], indices + [|raw| - 1])
  {
  }

  lemma {:induction false} KeptCorresponds(raw: seq<I64>, correction: I64)
    ensures Corresponds(raw, correction, Kept(raw, correction), KeptIndices(raw, correction))
  {
    if raw == [] {
    } else {
      var n := |raw| - 1;
      KeptCorresponds(raw[..n], correction);
      CorrespondsAppend(raw, correction, Kept(raw[..n], correction), KeptIndices(raw[..n], correction));
    }
  }

  /** A sample is kept exactly when its corrected value is not negative. */
  lemma {:induction false} KeptIffNonNegative(raw: seq<I64>, correction: I64, i: nat)
    requires i < |raw|
    ensures i in KeptIndices(raw, correction) <==> raw[i] >= correction
  {
    var n := |raw| - 1;
    KeptCorresponds(raw[..n], correction);
    if i == n {
    } else {
      KeptIffNonNegative(raw[..n], correction, i);
    }
  }

  /** Each latency is within `error` of the true latency of its own sample, and
      a sample is reported exactly when its corrected value is not negative. */
  ghost predicate Reported(raw: seq<I64>, correction: I64, latencies: seq<nat>, offset: int, error: nat)
  {
    var indices := KeptIndices(raw, correction);
    |latencies| == |indices|
    && (forall k :: 0 <= k < |latencies| ==>
      indices[k] < |raw| && Abs(latencies[k] - (raw[indices[k]] - offset)) <= error)
    && (forall i :: 0 <= i < |raw| ==> (i in indices <==> raw[i] >= correction))
  }

  lemma KeptAreClose(raw: seq<I64>, correction: I64, offset: int, error: nat)
    requires Abs(correction - offset) <= error
    ensures Reported(raw, correction, Kept(raw, correction), offset, error)
  {
    KeptCorresponds(raw, correction);
    forall i | 0 <= i < |raw| ensures i in KeptIndices(raw, correction) <==> raw[i] >= correction {
      KeptIffNonNegative(raw, correction, i);
    }
  }

  /** From handshake to report: each reported latency, at its own sample, is
      within the reported uncertainty plus one cycle of the true latency, and
      a sample is reported exactly when its corrected value is not negative. */
  method ReportLatencies(readings: seq<Reading>, aux: nat, remoteFailed: bool, raw: seq<I64>, invalidBefore: U64,
                         ghost offset: int, ghost now: int, ghost es: seq<Event>)
      returns (e: Estimate, latencies: seq<nat>)
    requires forall i :: 0 <= i < |readings| ==> ExchangeOf(readings[i]) in After(offset, now, es).exchanges
    requires exists i :: 0 <= i < |readings| && RoundTrip(readings[i]) < U64_MAX
    ensures e.Estimated? ==> Reported(raw, e.offset, latencies, offset, e.uncertainty + 1)
  {
    e := EstimateIsClose(readings, aux, remoteFailed, offset, now, es);
    latencies := [];
    if e.Estimated? {
      var invalid, failed;
      latencies, invalid, failed := CorrectAll(raw, e.offset, invalidBefore);
      KeptAreClose(raw, e.offset, offset, e.uncertainty + 1);
    }
  }
}
