/** The generation and acknowledge handoff of a wake-latency trial.

    Producer, waiter, victim and controller share Release/Acquire atomics. A
    load may read any message at or after its thread's coherence position; an
    Acquire load also learns what the message's writer had published: the stop
    flag and the `sent_cycles` store. A load of `stop` may return the stale
    `false` unless the reader has learnt that it was set. The Parker's token is
    the flag of `Parker.TokenIsAFlag`: an unpark sets it and carries everything
    published so far; a take either clears it and learns all that is carried, or
    takes an older unpark, learns what that one carried and leaves it set. The
    stale pre-load lets a take at entry fail although a token is there.
*/
module Handoff {
  import opened Runs

  /** A message of `generation`: a publication, or a terminal or abort bump. */
  datatype Generation = Generation(value: nat, published: bool, sentIndex: nat, stop: bool)

  datatype Ack = Ack(value: nat, stop: bool)

  /** One call of `record_sample`. */
  datatype Sample = Sample(generation: nat, sent: nat)

  datatype WaiterPc =
    | WPin
    | WAborting(stage: nat)
    | WFailed
    | WCapture
    | WReady
    | WAwaitGo
    | WCheckStart
    | WTest        // load `generation`, compare with `observed`
    | WParkEntry   // inside park: `take_notification` at entry
    | WParkBlocked // inside park: the strategy waits on the token
    | WReload      // Parker surface: second load of `generation`
    | WCheckStop
    | WLoadSent
    | WRecord(sent: nat)
    | WEnded

  datatype Waiter = Waiter(pc: WaiterPc, position: nat, sentFloor: nat, knowsStop: bool, observed: nat)

  datatype ProducerPc =
    | PPin
    | PReady
    | PAwaitGo
    | PLoop
    | PAwaitAck
    | PCheck(acked: bool)
    | PGap
    | PStamp
    | PGeneration
    | PWake
    | PAborting(stage: nat, started: bool)
    | PAbortWake(started: bool)
    | PFailed(started: bool)
    | PStop
    | PBump
    | PFinalWake
    | PDone

  /** `sequence` is the last generation the producer stored. */
  datatype Producer = Producer(pc: ProducerPc, sequence: nat, ackPosition: nat, knowsStop: bool)

  datatype VictimPc = VPin | VAborting(stage: nat) | VFailed | VReady | VRunning

  datatype ControllerPc = CWait | CAborting(stage: nat) | CSawStop | CFailed | CDelay | CDone

  datatype State = State(
    parker: bool,              // Parker surface, otherwise the direct one
    raw: bool,                 // raw waits may return unclassified
    releases: bool,            // writes of `generation` are Release, as shipped
    generations: seq<Generation>,
    sent: seq<nat>,
    acks: seq<Ack>,
    goes: seq<bool>,           // stores of `go`, each with whether it carries stop
    ready: nat,
    stop: bool,
    token: bool,
    tokenView: nat,
    samples: seq<Sample>,
    started: bool,             // the controller has stored `go` after ready == 3
    waiter: Waiter,
    producer: Producer,
    victim: VictimPc,
    controller: ControllerPc)

  datatype Event =
    | WaiterPins(ok: bool) | WaiterAborts | WaiterCaptures(at: nat) | WaiterReady | WaiterSeesGo(index: nat)
    | WaiterChecksStart(stop: bool) | WaiterTests(at: nat) | WaiterTakes(success: bool) | WaiterTakesOlder(view: nat)
    | WaiterWakes | WaiterReturnsUnclassified
    | WaiterReloads(at: nat) | WaiterChecksStop(stop: bool) | WaiterLoadsSent(at: nat) | WaiterRecords(capReached: bool)
    | ProducerPins(ok: bool) | ProducerAborts | ProducerReady | ProducerSeesGo(index: nat) | ProducerLoops(stop: bool)
    | ProducerLoadsAck(at: nat) | ProducerAckStopped | ProducerChecks(stop: bool, bursty: bool)
    | ProducerGaps(stop: bool)
    | ProducerStamps(cycles: nat, migrated: bool) | ProducerStores | ProducerWakes | ProducerStops | ProducerBumps
    | VictimPins(ok: bool) | VictimAborts | VictimReady
    | ControllerSeesStop | ControllerTimesOut | ControllerAborts | ControllerStartsOrFails | ControllerStops

  function Start(parker: bool, raw: bool, releases: bool): State
  {
    State(parker, raw, releases, [Generation(0, true, 0, false)], [0], [Ack(0, false)], [], 0, false, false, 0,
      [], false,
      Waiter(WPin, 0, 0, false, 0), Producer(PPin, 0, 0, false), VPin, CWait)
  }

  /** `generation.fetch_add(1, Release)` after `stop` was stored: an RMW, so it
      also carries what the message it replaces carried. */
  function Bump(s: State): State
    requires s.generations != []
  {
    var last := s.generations[|s.generations| - 1];
    s.(generations := s.generations + [Generation(last.value + 1, false, last.sentIndex, s.releases || last.stop)])
  }

  /** The three stores of `abort_startup`, one by one. */
  function AbortStage(s: State, stage: nat): State
    requires s.generations != []
  {
    if stage == 0 then s.(stop := true)
    else if stage == 1 then s.(goes := s.goes + [true])
    else Bump(s)
  }

  function LoadGeneration(s: State, at: nat): State
    requires at < |s.generations|
  {
    var m := s.generations[at];
    s.(waiter := s.waiter.(position := at, knowsStop := s.waiter.knowsStop || m.stop,
                           sentFloor := if m.sentIndex > s.waiter.sentFloor then m.sentIndex else s.waiter.sentFloor))
  }

  predicate CanLoadGeneration(s: State, at: nat)
  {
    s.waiter.position <= at < |s.generations|
  }

  function WaiterTo(s: State, pc: WaiterPc): State
  {
    s.(waiter := s.waiter.(pc := pc))
  }

  /** May a thread that knows `knows` read `value` from `stop`? */
  predicate CanReadStop(s: State, knows: bool, value: bool)
  {
    if value then s.stop else !knows
  }

  function TakeToken(s: State): State
  {
    var w := s.waiter;
    s.(token := false,
      waiter := w.(pc := WTest, position := if s.tokenView > w.position then s.tokenView else w.position))
  }

  /** A take of an unpark older than the latest leaves the token notified. */
  function TakeOlder(s: State, view: nat): State
  {
    var w := s.waiter;
    s.(waiter := w.(pc := WTest, position := if view > w.position then view else w.position))
  }

  predicate InPark(pc: WaiterPc)
  {
    pc.WParkEntry? || pc.WParkBlocked?
  }

  function WaiterStartup(s: State, e: Event): State
    requires s.generations != []
  {
    var w := s.waiter;
    match e
    case WaiterPins(ok) => if w.pc.WPin? then WaiterTo(s, if ok then WCapture else WAborting(0)) else s
    case WaiterAborts =>
      if w.pc.WAborting? then
        WaiterTo(AbortStage(s, w.pc.stage), if w.pc.stage < 2 then WAborting(w.pc.stage + 1) else WFailed)
      else s
    case WaiterCaptures(at) =>
      if w.pc.WCapture? && CanLoadGeneration(s, at) then
        var s' := LoadGeneration(s, at);
        s'.(waiter := s'.waiter.(pc := WReady, observed := s.generations[at].value))
      else s
    case WaiterReady => if w.pc.WReady? then WaiterTo(s.(ready := s.ready + 1), WAwaitGo) else s
    case WaiterSeesGo(index) =>
      if w.pc.WAwaitGo? && index < |s.goes| then
        s.(waiter := w.(pc := WCheckStart, knowsStop := w.knowsStop || s.goes[index]))
      else s
    case WaiterChecksStart(stop) =>
      if w.pc.WCheckStart? && CanReadStop(s, w.knowsStop, stop) then
        s.(waiter := w.(pc := if stop then WEnded else WTest, knowsStop := w.knowsStop || stop))
      else s
    case _ => s
  }

  function WaiterLoop(s: State, e: Event): State
  {
    var w := s.waiter;
    match e
    case WaiterTests(at) =>
      if w.pc.WTest? && CanLoadGeneration(s, at) then
        var s' := LoadGeneration(s, at);
        var value := s.generations[at].value;
        if value == w.observed then (if s.parker then WaiterTo(s', WParkEntry) else s')
        else if s.parker then WaiterTo(s', WReload)
        else s'.(waiter := s'.waiter.(pc := WCheckStop, observed := value))
      else s
    case WaiterTakes(success) =>
      if w.pc.WParkEntry? then
        if success then (if s.token then TakeToken(s) else s) else WaiterTo(s, WParkBlocked)
      else s
    case WaiterTakesOlder(view) => if InPark(w.pc) && s.token && view <= s.tokenView then TakeOlder(s, view) else s
    case WaiterWakes => if w.pc.WParkBlocked? && s.token then TakeToken(s) else s
    case WaiterReturnsUnclassified => if w.pc.WParkBlocked? && s.raw then WaiterTo(s, WTest) else s
    case WaiterReloads(at) =>
      if w.pc.WReload? && CanLoadGeneration(s, at) then
        var s' := LoadGeneration(s, at);
        s'.(waiter := s'.waiter.(pc := WCheckStop, observed := s.generations[at].value))
      else s
    case WaiterChecksStop(stop) =>
      if w.pc.WCheckStop? && CanReadStop(s, w.knowsStop, stop) then
        s.(waiter := w.(pc := if stop then WEnded else WLoadSent, knowsStop := w.knowsStop || stop))
      else s
    case WaiterLoadsSent(at) =>
      if w.pc.WLoadSent? && w.sentFloor <= at < |s.sent| then
        s.(waiter := w.(pc := WRecord(s.sent[at]), sentFloor := at))
      else s
    case WaiterRecords(capReached) =>
      if w.pc.WRecord? then
        var knows := w.knowsStop || capReached;
        s.(samples := s.samples + [Sample(w.observed, w.pc.sent)], acks := s.acks + [Ack(w.observed, knows)],
           stop := s.stop || capReached, waiter := w.(pc := WTest, knowsStop := knows))
      else s
    case _ => s
  }

  function ProducerTo(s: State, pc: ProducerPc): State
  {
    s.(producer := s.producer.(pc := pc))
  }

  function ReadsStop(s: State, stop: bool, ifStop: ProducerPc, ifGo: ProducerPc): State
  {
    if CanReadStop(s, s.producer.knowsStop, stop) then
      s.(producer := s.producer.(pc := if stop then ifStop else ifGo, knowsStop := s.producer.knowsStop || stop))
    else s
  }

  /** `wake`: `unpark` on the Parker surface, nothing on the direct one. */
  function Wake(s: State): State
    requires s.generations != []
  {
    if s.parker then s.(token := true, tokenView := |s.generations| - 1) else s
  }

  function ProducerStartup(s: State, e: Event): State
    requires s.generations != []
  {
    var p := s.producer;
    match e
    case ProducerPins(ok) => if p.pc.PPin? then ProducerTo(s, if ok then PReady else PAborting(0, false)) else s
    case ProducerAborts =>
      if p.pc.PAborting? then
        var s' := AbortStage(s, p.pc.stage);
        var next := if p.pc.stage < 2 then PAborting(p.pc.stage + 1, p.pc.started) else PAbortWake(p.pc.started);
        s'.(producer := p.(pc := next, knowsStop := true))
      else if p.pc.PAbortWake? then ProducerTo(Wake(s), PFailed(p.pc.started))
      else s
    case ProducerReady => if p.pc.PReady? then ProducerTo(s.(ready := s.ready + 1), PAwaitGo) else s
    case ProducerSeesGo(index) =>
      if p.pc.PAwaitGo? && index < |s.goes| then
        s.(producer := p.(pc := PLoop, knowsStop := p.knowsStop || s.goes[index]))
      else s
    case _ => s
  }

  function ProducerLoop(s: State, e: Event): State
    requires s.generations != []
  {
    var p := s.producer;
    match e
    case ProducerLoops(stop) => if p.pc.PLoop? then ReadsStop(s, stop, PStop, PAwaitAck) else s
    case ProducerLoadsAck(at) =>
      if p.pc.PAwaitAck? && p.ackPosition <= at < |s.acks| then
        s.(producer := p.(ackPosition := at, knowsStop := p.knowsStop || s.acks[at].stop,
                          pc := if s.acks[at].value == p.sequence then PCheck(true) else PAwaitAck))
      else s
    case ProducerAckStopped => if p.pc.PAwaitAck? then ReadsStop(s, true, PCheck(false), PAwaitAck) else s
    case ProducerChecks(stop, bursty) =>
      if p.pc.PCheck? then ReadsStop(s, stop, PStop, if bursty then PGap else PStamp) else s
    case ProducerGaps(stop) => if p.pc.PGap? then ReadsStop(s, stop, PStop, PStamp) else s
    case ProducerStamps(cycles, migrated) =>
      if p.pc.PStamp? then
        if migrated then ProducerTo(s, PAborting(0, true)) else ProducerTo(s.(sent := s.sent + [cycles]), PGeneration)
      else s
    case ProducerStores =>
      if p.pc.PGeneration? && s.sent != [] then
        var n := p.sequence + 1;
        var message :=
          if s.releases then Generation(n, true, |s.sent| - 1, p.knowsStop) else Generation(n, true, 0, false);
        s.(generations := s.generations + [message],
           producer := p.(pc := PWake, sequence := p.sequence + 1))
      else s
    case ProducerWakes =>
      if p.pc.PWake? then ProducerTo(Wake(s), PLoop) else if p.pc.PFinalWake? then ProducerTo(Wake(s), PDone) else s
    case ProducerStops => if p.pc.PStop? then s.(stop := true, producer := p.(pc := PBump, knowsStop := true)) else s
    case ProducerBumps => if p.pc.PBump? then ProducerTo(Bump(s), PFinalWake) else s
    case _ => s
  }

  function VictimStep(s: State, e: Event): State
    requires s.generations != []
  {
    match e
    case VictimPins(ok) => if s.victim.VPin? then s.(victim := if ok then VReady else VAborting(0)) else s
    case VictimAborts =>
      if s.victim.VAborting? then
        AbortStage(s, s.victim.stage).(victim := if s.victim.stage < 2 then VAborting(s.victim.stage + 1) else VFailed)
      else s
    case VictimReady => if s.victim.VReady? then s.(ready := s.ready + 1, victim := VRunning) else s
    case _ => s
  }

  /** `drive_trial` */
  function ControllerStep(s: State, e: Event): State
    requires s.generations != []
  {
    match e
    case ControllerSeesStop => if s.controller.CWait? && s.stop then s.(controller := CSawStop) else s
    case ControllerTimesOut => if s.controller.CWait? then s.(controller := CAborting(0)) else s
    case ControllerAborts =>
      if s.controller.CAborting? then
        var stage := s.controller.stage;
        AbortStage(s, stage).(controller := if stage < 2 then CAborting(stage + 1) else CFailed)
      else s
    case ControllerStartsOrFails =>
      if s.controller.CSawStop? then s.(goes := s.goes + [true], controller := CFailed)
      else if s.controller.CWait? && s.ready == 3 then
        s.(goes := s.goes + [false], started := true, controller := CDelay)
      else s
    case ControllerStops => if s.controller.CDelay? then s.(stop := true, controller := CDone) else s
    case _ => s
  }

  datatype Actor = OfWaiterStartup | OfWaiter | OfProducerStartup | OfProducer | OfVictim | OfController

  function ActorOf(e: Event): Actor
  {
    match e
    case WaiterPins(_) | WaiterAborts | WaiterCaptures(_) | WaiterReady | WaiterSeesGo(_) | WaiterChecksStart(_) =>
      OfWaiterStartup
    case WaiterTests(_) | WaiterTakes(_) | WaiterTakesOlder(_) | WaiterWakes | WaiterReturnsUnclassified
       | WaiterReloads(_)
       | WaiterChecksStop(_) | WaiterLoadsSent(_) | WaiterRecords(_) => OfWaiter
    case ProducerPins(_) | ProducerAborts | ProducerReady | ProducerSeesGo(_) => OfProducerStartup
    case VictimPins(_) | VictimAborts | VictimReady => OfVictim
    case ControllerSeesStop | ControllerTimesOut | ControllerAborts | ControllerStartsOrFails | ControllerStops =>
      OfController
    case _ => OfProducer
  }

  function Step(s: State, e: Event): State
  {
    if s.generations == [] then s
    else match ActorOf(e)
      case OfWaiterStartup => WaiterStartup(s, e)
      case OfWaiter => WaiterLoop(s, e)
      case OfProducerStartup => ProducerStartup(s, e)
      case OfProducer => ProducerLoop(s, e)
      case OfVictim => VictimStep(s, e)
      case OfController => ControllerStep(s, e)
  }

  ghost function After(parker: bool, raw: bool, releases: bool, es: seq<Event>): State
  {
    Exec(Step, Start(parker, raw, releases), es)
  }

  predicate Bumped(s: State)
  {
    s.producer.pc.PFinalWake? || s.producer.pc.PDone? || s.producer.pc == PAbortWake(true)
      || s.producer.pc == PFailed(true)
  }

  /** The producer has stored to `generation` and not yet called `wake`. */
  predicate WakePending(s: State)
  {
    s.producer.pc.PWake? || s.producer.pc.PFinalWake? || s.producer.pc == PAbortWake(true)
  }

  // ---------------------------------------------------------------- startup

  predicate WaiterArrived(pc: WaiterPc) { pc.WAwaitGo? || pc.WCheckStart? || pc.WEnded? }

  predicate ProducerGone(pc: ProducerPc) { pc.PLoop? || pc.PStop? || pc.PBump? || pc.PFinalWake? || pc.PDone? }

  predicate ProducerArrived(pc: ProducerPc) { pc.PAwaitGo? || ProducerGone(pc) }

  function Count(b: bool): nat { if b then 1 else 0 }

  /** Some thread, or the controller, is on a startup failure path. */
  predicate Failing(s: State)
  {
    s.waiter.pc.WAborting? || s.waiter.pc.WFailed?
    || s.producer.pc.PAborting? || s.producer.pc.PAbortWake? || s.producer.pc.PFailed?
    || s.victim.VAborting? || s.victim.VFailed?
    || s.controller.CAborting? || s.controller.CFailed?
  }

  predicate BumpsOnly(generations: seq<Generation>)
  {
    generations != [] && generations[0] == Generation(0, true, 0, false)
    && forall i :: 0 < i < |generations| ==>
         !generations[i].published && generations[i].stop && generations[i].sentIndex == 0
  }

  predicate GoesCarryStop(goes: seq<bool>)
  {
    forall i :: 0 <= i < |goes| ==> goes[i]
  }

  predicate StartupMemory(s: State)
  {
    BumpsOnly(s.generations) && GoesCarryStop(s.goes)
    && s.sent == [0] && s.acks == [Ack(0, false)] && s.samples == []
    && (s.goes != [] || |s.generations| > 1 || s.stop || s.token || s.tokenView > 0 ==> Failing(s))
    && (|s.generations| > 1 ==> s.stop)
    && (s.goes != [] ==> s.stop)
  }

  predicate StartupThreads(s: State)
  {
    var w, p := s.waiter, s.producer;
    s.ready == Count(WaiterArrived(w.pc)) + Count(ProducerArrived(p.pc)) + Count(s.victim.VRunning?)
    && (WaiterArrived(w.pc) || w.pc.WPin? || w.pc.WAborting? || w.pc.WFailed? || w.pc.WCapture? || w.pc.WReady?)
    && (w.pc.WCheckStart? ==> w.knowsStop)
    && (w.pc.WCheckStart? || w.pc.WEnded? ==> s.goes != [])
    && w.position < |s.generations| && w.sentFloor == 0 && (w.knowsStop ==> s.stop)
    && (w.pc.WReady? || w.pc.WAwaitGo? ==> |s.generations| == 1 ==> w.observed == 0)
    && (ProducerArrived(p.pc) || p.pc.PPin? || p.pc.PReady? || (p.pc.PAborting? && !p.pc.started)
      || p.pc == PAbortWake(false) || p.pc == PFailed(false))
    && (ProducerGone(p.pc) ==> p.knowsStop && s.goes != [])
    && p.sequence == 0 && p.ackPosition == 0 && (p.knowsStop ==> s.stop || p.pc.PAborting?)
    && (s.waiter.pc.WAborting? && s.waiter.pc.stage > 0 ==> s.stop)
    && (s.producer.pc.PAborting? && s.producer.pc.stage > 0 ==> s.stop)
    && (s.victim.VAborting? && s.victim.stage > 0 ==> s.stop)
    && (s.controller.CAborting? && s.controller.stage > 0 ==> s.stop)
    && (s.controller.CWait? || s.controller.CAborting? || (s.controller.CSawStop? && s.stop) || s.controller.CFailed?)
  }

  // ---------------------------------------------------------------- running

  /** Generation `i` is message `i`; those up to `q` are publications. */
  predicate Ordered(generations: seq<Generation>, q: nat)
  {
    q < |generations|
    && (forall i :: 0 <= i < |generations| ==> generations[i].value == i)
    && (forall i :: 0 <= i <= q ==> generations[i].published && generations[i].sentIndex == i)
    && (forall i :: q < i < |generations| ==> !generations[i].published && generations[i].stop)
  }

  predicate AcksInOrder(acks: seq<Ack>)
  {
    forall i :: 0 <= i < |acks| ==> acks[i].value == i
  }

  predicate Paired(samples: seq<Sample>, sent: seq<nat>)
  {
    |samples| < |sent| && forall i :: 0 <= i < |samples| ==> samples[i] == Sample(i + 1, sent[i + 1])
  }

  predicate Memory(s: State)
  {
    var q, k := s.producer.sequence, |s.samples|;
    |s.generations| == q + 1 + Count(Bumped(s))
    && Ordered(s.generations, q)
    && |s.sent| == q + 1 + Count(s.producer.pc.PGeneration?)
    && |s.acks| == k + 1 && AcksInOrder(s.acks)
    && k <= q <= k + 1 && Paired(s.samples, s.sent)
    && s.goes != []
  }

  predicate ProducerPlace(s: State)
  {
    var p := s.producer;
    !p.pc.PPin? && !p.pc.PReady?
    && (p.pc.PAborting? || p.pc.PAbortWake? || p.pc.PFailed? ==> p.pc.started)
    && (p.pc.PAwaitGo? ==> p.sequence == 0)
    && (p.pc == PCheck(false) ==> p.knowsStop)
    && (p.pc == PCheck(true) || p.pc.PGap? || p.pc.PStamp? || p.pc.PGeneration? ==> p.sequence == |s.samples|)
    && s.victim.VRunning? && (s.controller.CDelay? || s.controller.CDone?)
  }

  predicate WaiterPlace(s: State)
  {
    var w, q, k := s.waiter, s.producer.sequence, |s.samples|;
    w.position < |s.generations|
    && match w.pc
       case WAwaitGo | WCheckStart => k == 0 && w.observed == 0 && w.position == 0
       case WTest => w.observed == k && w.position >= k
       case WParkEntry | WParkBlocked => s.parker && w.observed == k && w.position == k
       case WReload => w.observed == k && w.position >= k + 1
       case WCheckStop => w.observed == w.position >= k + 1
         && (w.knowsStop || (w.position <= q && w.sentFloor >= k + 1))
       case WLoadSent => w.observed == w.position == k + 1 == q && w.sentFloor >= k + 1
       case WRecord(sent) => w.observed == w.position == k + 1 == q < |s.sent| && sent == s.sent[k + 1]
       case WEnded => true
       case _ => false
  }

  predicate TokenPlace(s: State)
  {
    s.tokenView < |s.generations|
    && (!WakePending(s) ==> s.tokenView == |s.generations| - 1)
    && (!s.token ==> s.waiter.position >= s.tokenView)
  }

  predicate Starting(s: State)
  {
    s.releases && !s.started && StartupMemory(s) && StartupThreads(s)
  }

  predicate Running(s: State)
  {
    s.releases && s.started && Memory(s) && ProducerPlace(s) && WaiterPlace(s) && (s.parker ==> TokenPlace(s))
  }

  predicate Inv(s: State)
  {
    Starting(s) || Running(s)
  }

  lemma WaiterStaysRunning(s: State, at: nat)
    requires Running(s) && s.waiter.pc.WTest? && CanLoadGeneration(s, at)
      && s.generations[at].value == s.waiter.observed
    ensures Running(LoadGeneration(s, at))
    ensures s.parker ==> Running(WaiterTo(LoadGeneration(s, at), WParkEntry))
  {
    assert at == s.waiter.position;
  }

  lemma WaiterSeesNewRunning(s: State, at: nat)
    requires Running(s) && s.waiter.pc.WTest? && CanLoadGeneration(s, at)
      && s.generations[at].value != s.waiter.observed
    ensures Running(WaiterLoop(s, WaiterTests(at)))
  {
    assert at >= |s.samples| + 1;
  }

  lemma WaiterTestsRunning(s: State, e: Event)
    requires Running(s) && e.WaiterTests?
    ensures Running(WaiterLoop(s, e))
  {
    if s.waiter.pc.WTest? && CanLoadGeneration(s, e.at) {
      if s.generations[e.at].value == s.waiter.observed {
        WaiterStaysRunning(s, e.at);
      } else {
        WaiterSeesNewRunning(s, e.at);
      }
    }
  }

  lemma TakeTokenRunning(s: State)
    requires Running(s) && s.token && (s.waiter.pc.WParkEntry? || s.waiter.pc.WParkBlocked?)
    ensures Running(TakeToken(s))
  {
  }

  lemma TakeOlderRunning(s: State, view: nat)
    requires Running(s) && InPark(s.waiter.pc) && s.token && view <= s.tokenView
    ensures Running(TakeOlder(s, view))
  {
  }

  lemma WaiterParksRunning(s: State, e: Event)
    requires Running(s) && (e.WaiterTakes? || e.WaiterTakesOlder? || e.WaiterWakes? || e.WaiterReturnsUnclassified?)
    ensures Running(WaiterLoop(s, e))
  {
    if s.token && (s.waiter.pc.WParkEntry? || s.waiter.pc.WParkBlocked?) {
      TakeTokenRunning(s);
      if e.WaiterTakesOlder? && e.view <= s.tokenView {
        TakeOlderRunning(s, e.view);
      }
    }
  }

  lemma ReloadRunning(s: State, at: nat)
    requires Running(s) && s.waiter.pc.WReload? && CanLoadGeneration(s, at)
    ensures var s' := LoadGeneration(s, at);
      Running(s'.(waiter := s'.waiter.(pc := WCheckStop, observed := s.generations[at].value)))
  {
    assert at >= |s.samples| + 1;
  }

  lemma WaiterReloadsRunning(s: State, e: Event)
    requires Running(s) && e.WaiterReloads?
    ensures Running(WaiterLoop(s, e))
  {
    if s.waiter.pc.WReload? && CanLoadGeneration(s, e.at) {
      ReloadRunning(s, e.at);
    }
  }

  lemma WaiterChecksRunning(s: State, e: Event)
    requires Running(s) && e.WaiterChecksStop?
    ensures Running(WaiterLoop(s, e))
  {
  }

  lemma WaiterLoadsSentRunning(s: State, e: Event)
    requires Running(s) && e.WaiterLoadsSent?
    ensures Running(WaiterLoop(s, e))
  {
  }

  lemma WaiterRecordsRunning(s: State, e: Event)
    requires Running(s) && (e.WaiterRecords?)
    ensures Running(WaiterLoop(s, e))
  {
  }

  lemma WaiterStartupRunning(s: State, e: Event)
    requires Running(s) && (ActorOf(e).OfWaiterStartup?)
    ensures Running(WaiterStartup(s, e))
  {
  }

  lemma ProducerLoopsRunning(s: State, e: Event)
    requires Running(s) && (e.ProducerLoops? || e.ProducerStops?)
    ensures Running(ProducerLoop(s, e))
  {
  }

  lemma ProducerAcksRunning(s: State, e: Event)
    requires Running(s) && (e.ProducerLoadsAck? || e.ProducerAckStopped?)
    ensures Running(ProducerLoop(s, e))
  {
  }

  lemma ProducerChecksRunning(s: State, e: Event)
    requires Running(s) && (e.ProducerChecks? || e.ProducerGaps?)
    ensures Running(ProducerLoop(s, e))
  {
  }

  lemma StampRunning(s: State, cycles: nat)
    requires Running(s) && s.producer.pc.PStamp?
    ensures Running(ProducerTo(s.(sent := s.sent + [cycles]), PGeneration))
  {
  }

  lemma ProducerStampsRunning(s: State, e: Event)
    requires Running(s) && e.ProducerStamps?
    ensures Running(ProducerLoop(s, e))
  {
    if s.producer.pc.PStamp? {
      StampRunning(s, e.cycles);
    }
  }

  lemma StoreRunning(s: State)
    requires Running(s) && s.producer.pc.PGeneration?
    ensures var n := s.producer.sequence + 1;
      Running(s.(generations := s.generations + [Generation(n, true, n, s.producer.knowsStop)],
                 producer := s.producer.(pc := PWake, sequence := n)))
  {
  }

  lemma ProducerStoresRunning(s: State, e: Event)
    requires Running(s) && e.ProducerStores?
    ensures Running(ProducerLoop(s, e))
  {
    if s.producer.pc.PGeneration? {
      StoreRunning(s);
    }
  }

  lemma FinalWakeRunning(s: State)
    requires Running(s) && s.producer.pc.PFinalWake?
    ensures Running(ProducerTo(Wake(s), PDone))
  {
  }

  lemma WakeRunning(s: State)
    requires Running(s) && s.producer.pc.PWake?
    ensures Running(ProducerTo(Wake(s), PLoop))
  {
  }

  lemma ProducerWakesRunning(s: State, e: Event)
    requires Running(s) && e.ProducerWakes?
    ensures Running(ProducerLoop(s, e))
  {
    if s.producer.pc.PWake? {
      WakeRunning(s);
    } else if s.producer.pc.PFinalWake? {
      FinalWakeRunning(s);
    }
  }

  lemma FinalBumpRunning(s: State)
    requires Running(s) && s.producer.pc.PBump?
    ensures Running(ProducerTo(Bump(s), PFinalWake))
  {
    BumpOrdered(s);
  }

  lemma ProducerBumpsRunning(s: State, e: Event)
    requires Running(s) && e.ProducerBumps?
    ensures Running(ProducerLoop(s, e))
  {
    if s.producer.pc.PBump? {
      FinalBumpRunning(s);
    }
  }

  lemma AbortWakeRunning(s: State)
    requires Running(s) && s.producer.pc.PAbortWake?
    ensures Running(ProducerTo(Wake(s), PFailed(true)))
  {
  }

  lemma BumpOrdered(s: State)
    requires Ordered(s.generations, s.producer.sequence) && s.releases
    ensures Ordered(Bump(s).generations, s.producer.sequence)
  {
  }

  lemma AbortBumpRunning(s: State)
    requires Running(s) && s.producer.pc.PAborting?
    ensures Running(Bump(s).(producer := s.producer.(pc := PAbortWake(true), knowsStop := true)))
  {
    BumpOrdered(s);
  }

  lemma AbortStopRunning(s: State)
    requires Running(s) && s.producer.pc.PAborting? && s.producer.pc.stage == 0
    ensures Running(ProducerStartup(s, ProducerAborts))
  {
  }

  lemma AbortGoRunning(s: State)
    requires Running(s) && s.producer.pc.PAborting? && s.producer.pc.stage == 1
    ensures Running(ProducerStartup(s, ProducerAborts))
  {
  }

  lemma ProducerAbortsRunning(s: State, e: Event)
    requires Running(s) && e.ProducerAborts?
    ensures Running(ProducerStartup(s, e))
  {
    if s.producer.pc.PAbortWake? {
      AbortWakeRunning(s);
    } else if s.producer.pc.PAborting? {
      if s.producer.pc.stage == 0 {
        AbortStopRunning(s);
      } else if s.producer.pc.stage == 1 {
        AbortGoRunning(s);
      } else {
        AbortBumpRunning(s);
      }
    }
  }

  lemma ProducerStartupRunning(s: State, e: Event)
    requires Running(s) && (ActorOf(e).OfProducerStartup? && !e.ProducerAborts?)
    ensures Running(ProducerStartup(s, e))
  {
  }

  lemma VictimRunning(s: State, e: Event)
    requires Running(s) && (ActorOf(e).OfVictim?)
    ensures Running(VictimStep(s, e))
  {
  }

  lemma ControllerRunning(s: State, e: Event)
    requires Running(s) && (ActorOf(e).OfController?)
    ensures Running(ControllerStep(s, e))
  {
  }

  lemma StopStarting(s: State)
    requires Starting(s) && Failing(s)
    ensures Starting(s.(stop := true))
  {
  }

  lemma GoStarting(s: State)
    requires Starting(s) && Failing(s) && s.stop
    ensures Starting(s.(goes := s.goes + [true]))
  {
  }

  lemma BumpStarting(s: State)
    requires Starting(s) && Failing(s) && s.stop
    ensures Starting(Bump(s))
  {
  }

  lemma AbortStageStarting(s: State, stage: nat)
    requires Starting(s) && Failing(s) && (stage > 0 ==> s.stop)
    ensures Starting(AbortStage(s, stage)) && AbortStage(s, stage).stop
  {
    if stage == 0 {
      StopStarting(s);
    } else if stage == 1 {
      GoStarting(s);
    } else {
      BumpStarting(s);
    }
  }

  lemma WaiterAbortsStarting(s: State, e: Event)
    requires Starting(s) && (e.WaiterAborts?)
    ensures Starting(WaiterStartup(s, e))
  {
    if s.waiter.pc.WAborting? {
      AbortStageStarting(s, s.waiter.pc.stage);
    }
  }

  lemma WaiterArrivesStarting(s: State, e: Event)
    requires Starting(s) && (e.WaiterPins? || e.WaiterCaptures? || e.WaiterReady?)
    ensures Starting(WaiterStartup(s, e))
  {
  }

  lemma WaiterGoesStarting(s: State, e: Event)
    requires Starting(s) && (e.WaiterSeesGo? || e.WaiterChecksStart?)
    ensures Starting(WaiterStartup(s, e))
  {
  }

  lemma WaiterStarting(s: State, e: Event)
    requires Starting(s) && (ActorOf(e).OfWaiterStartup? && !e.WaiterAborts?)
    ensures Starting(WaiterStartup(s, e))
  {
    if e.WaiterSeesGo? || e.WaiterChecksStart? {
      WaiterGoesStarting(s, e);
    } else {
      WaiterArrivesStarting(s, e);
    }
  }

  lemma WaiterLoopStarting(s: State, e: Event)
    requires Starting(s) && ActorOf(e).OfWaiter?
    ensures WaiterLoop(s, e) == s
  {
  }

  lemma ProducerAbortWakeStarting(s: State)
    requires Starting(s) && s.producer.pc.PAbortWake?
    ensures Starting(ProducerTo(Wake(s), PFailed(s.producer.pc.started)))
  {
    WakeStarting(s);
  }

  lemma ProducerAbortsStarting(s: State, e: Event)
    requires Starting(s) && (e.ProducerAborts?)
    ensures Starting(ProducerStartup(s, e))
  {
    if s.producer.pc.PAborting? {
      AbortStageStarting(s, s.producer.pc.stage);
    } else if s.producer.pc.PAbortWake? {
      ProducerAbortWakeStarting(s);
    }
  }

  lemma ProducerStarting(s: State, e: Event)
    requires Starting(s) && (ActorOf(e).OfProducerStartup? && !e.ProducerAborts?)
    ensures Starting(ProducerStartup(s, e))
  {
  }

  lemma WakeStarting(s: State)
    requires Starting(s) && Failing(s)
    ensures Starting(Wake(s))
  {
  }

  lemma ProducerWakesStarting(s: State)
    requires Starting(s)
    ensures Starting(ProducerLoop(s, ProducerWakes))
  {
    if s.producer.pc.PFinalWake? {
      WakeStarting(s);
    }
  }

  lemma ProducerEndsStarting(s: State, e: Event)
    requires Starting(s) && (e.ProducerLoops? || e.ProducerStops?)
    ensures Starting(ProducerLoop(s, e))
  {
  }

  lemma ProducerBumpsStarting(s: State)
    requires Starting(s)
    ensures Starting(ProducerLoop(s, ProducerBumps))
  {
    if s.producer.pc.PBump? {
      BumpStarting(s);
    }
  }

  lemma ProducerIdleStarting(s: State, e: Event)
    requires Starting(s) && ActorOf(e).OfProducer?
    requires !e.ProducerLoops? && !e.ProducerStops? && !e.ProducerWakes? && !e.ProducerBumps?
    ensures ProducerLoop(s, e) == s
  {
  }

  lemma ProducerLoopStarting(s: State, e: Event)
    requires Starting(s) && ActorOf(e).OfProducer?
    ensures Starting(ProducerLoop(s, e))
  {
    match e
    case ProducerLoops(_) | ProducerStops => ProducerEndsStarting(s, e);
    case ProducerWakes => ProducerWakesStarting(s);
    case ProducerBumps => ProducerBumpsStarting(s);
    case _ => ProducerIdleStarting(s, e);
  }

  lemma VictimAbortsStarting(s: State, e: Event)
    requires Starting(s) && (e.VictimAborts?)
    ensures Starting(VictimStep(s, e))
  {
    if s.victim.VAborting? {
      AbortStageStarting(s, s.victim.stage);
    }
  }

  lemma VictimStarting(s: State, e: Event)
    requires Starting(s) && (ActorOf(e).OfVictim? && !e.VictimAborts?)
    ensures Starting(VictimStep(s, e))
  {
  }

  lemma ControllerAbortsStarting(s: State, e: Event)
    requires Starting(s) && (e.ControllerAborts?)
    ensures Starting(ControllerStep(s, e))
  {
    if s.controller.CAborting? {
      AbortStageStarting(s, s.controller.stage);
    }
  }

  /** With all three threads ready, no thread has touched anything. */
  lemma ControllerStartsRun(s: State)
    requires Starting(s) && s.controller.CWait? && s.ready == 3
    ensures Running(s.(goes := s.goes + [false], started := true, controller := CDelay))
  {
    assert !Failing(s);
  }

  lemma ControllerWaitsStarting(s: State, e: Event)
    requires Starting(s) && (e.ControllerSeesStop? || e.ControllerTimesOut? || e.ControllerStops?)
    ensures Starting(ControllerStep(s, e))
  {
  }

  lemma ControllerFailsStarting(s: State)
    requires Starting(s) && !(s.controller.CWait? && s.ready == 3)
    ensures Starting(ControllerStep(s, ControllerStartsOrFails))
  {
    if s.controller.CSawStop? {
      GoStarting(s);
    }
  }

  lemma ControllerStarting(s: State, e: Event)
    requires Starting(s) && ActorOf(e).OfController? && !e.ControllerAborts?
    ensures Inv(ControllerStep(s, e))
  {
    if !e.ControllerStartsOrFails? {
      ControllerWaitsStarting(s, e);
    } else if s.controller.CWait? && s.ready == 3 {
      ControllerStartsRun(s);
    } else {
      ControllerFailsStarting(s);
    }
  }

  lemma StartingStep(s: State, e: Event)
    requires Starting(s)
    ensures Inv(Step(s, e))
  {
    match ActorOf(e)
    case OfWaiterStartup => if e.WaiterAborts? { WaiterAbortsStarting(s, e); } else { WaiterStarting(s, e); }
    case OfWaiter => WaiterLoopStarting(s, e);
    case OfProducerStartup => if e.ProducerAborts? { ProducerAbortsStarting(s, e); } else { ProducerStarting(s, e); }
    case OfProducer => ProducerLoopStarting(s, e);
    case OfVictim => if e.VictimAborts? { VictimAbortsStarting(s, e); } else { VictimStarting(s, e); }
    case OfController => if e.ControllerAborts? { ControllerAbortsStarting(s, e); } else { ControllerStarting(s, e); }
  }

  lemma WaiterLoopRunning(s: State, e: Event)
    requires Running(s) && ActorOf(e).OfWaiter?
    ensures Running(WaiterLoop(s, e))
  {
    if e.WaiterTests? {
      WaiterTestsRunning(s, e);
    } else if e.WaiterReloads? {
      WaiterReloadsRunning(s, e);
    } else if e.WaiterChecksStop? {
      WaiterChecksRunning(s, e);
    } else if e.WaiterLoadsSent? {
      WaiterLoadsSentRunning(s, e);
    } else if e.WaiterRecords? {
      WaiterRecordsRunning(s, e);
    } else {
      WaiterParksRunning(s, e);
    }
  }

  lemma ProducerLoopRunning(s: State, e: Event)
    requires Running(s) && ActorOf(e).OfProducer?
    ensures Running(ProducerLoop(s, e))
  {
    if e.ProducerLoops? || e.ProducerStops? {
      ProducerLoopsRunning(s, e);
    } else if e.ProducerLoadsAck? || e.ProducerAckStopped? {
      ProducerAcksRunning(s, e);
    } else if e.ProducerStamps? {
      ProducerStampsRunning(s, e);
    } else if e.ProducerStores? {
      ProducerStoresRunning(s, e);
    } else if e.ProducerWakes? {
      ProducerWakesRunning(s, e);
    } else if e.ProducerBumps? {
      ProducerBumpsRunning(s, e);
    } else {
      ProducerChecksRunning(s, e);
    }
  }

  lemma RunningStep(s: State, e: Event)
    requires Running(s)
    ensures Running(Step(s, e))
  {
    match ActorOf(e)
    case OfWaiterStartup => WaiterStartupRunning(s, e);
    case OfWaiter => WaiterLoopRunning(s, e);
    case OfProducerStartup =>
      if e.ProducerAborts? { ProducerAbortsRunning(s, e); } else { ProducerStartupRunning(s, e); }
    case OfProducer => ProducerLoopRunning(s, e);
    case OfVictim => VictimRunning(s, e);
    case OfController => ControllerRunning(s, e);
  }

  lemma InvHolds(parker: bool, raw: bool, es: seq<Event>)
    ensures Inv(After(parker, raw, true, es))
  {
    forall s, e | Inv(s) ensures Inv(Step(s, e)) {
      if s.started { RunningStep(s, e); } else { StartingStep(s, e); }
    }
    InvariantHolds(Step, Inv, Start(parker, raw, true), es);
  }

  // ------------------------------------------------------------ main results

  /** The acknowledged generations are 1, 2, 3, ... with none skipped or merged,
      each sample carries the `sent_cycles` value stored for its own generation,
      and no terminal or abort bump is recorded. */
  predicate LockStep(s: State)
  {
    |s.acks| == |s.samples| + 1 <= |s.generations|
    && |s.samples| < |s.sent|
    && (forall i :: 0 <= i < |s.acks| ==> s.acks[i].value == i)
    && (forall i :: 0 <= i < |s.samples| ==>
          s.samples[i] == Sample(i + 1, s.sent[i + 1])
          && s.generations[i + 1].value == i + 1
          && s.generations[i + 1].published)
  }

  lemma SamplesAreLockStep(parker: bool, raw: bool, es: seq<Event>)
    ensures LockStep(After(parker, raw, true, es))
  {
    InvHolds(parker, raw, es);
  }

  /** Events `es` lead from `s` to `s'`. */
  ghost predicate Leads(s: State, es: seq<Event>, s': State)
  {
    Exec(Step, s, es) == s'
  }

  lemma LeadsThree(s: State, a: Event, b: Event, c: Event)
    ensures Leads(s, [a, b, c], Step(Step(Step(s, a), b), c))
  {
    ExecSnoc(Step, s, [], a);
    ExecSnoc(Step, s, [a], b);
    ExecSnoc(Step, s, [a, b], c);
    assert [] + [a] == [a] && [a] + [b] == [a, b] && [a, b] + [c] == [a, b, c];
  }

  lemma LeadsOn(s: State, es: seq<Event>, s': State, es': seq<Event>, s'': State)
    requires Leads(s, es, s') && Leads(s', es', s'')
    ensures Leads(s, es + es', s'')
  {
    ExecConcat(Step, s, es, es');
  }

  lemma WaiterArrives(s: State)
    requires s.waiter == Waiter(WPin, 0, 0, false, 0) && s.generations == [Generation(0, true, 0, false)]
    ensures Leads(s, [WaiterPins(true), WaiterCaptures(0), WaiterReady],
                  s.(ready := s.ready + 1, waiter := Waiter(WAwaitGo, 0, 0, false, 0)))
  {
    LeadsThree(s, WaiterPins(true), WaiterCaptures(0), WaiterReady);
  }

  lemma ProducerArrives(s: State)
    requires s.producer.pc.PPin? && s.generations != []
    ensures Step(Step(s, ProducerPins(true)), ProducerReady) ==
      s.(ready := s.ready + 1, producer := s.producer.(pc := PAwaitGo))
  {
    assert Step(s, ProducerPins(true)) == s.(producer := s.producer.(pc := PReady));
  }

  lemma OthersArrive(s: State)
    requires s.producer.pc.PPin? && s.victim.VPin? && s.generations != []
    ensures Leads(s, [ProducerPins(true), ProducerReady, VictimPins(true)] ,
                  s.(ready := s.ready + 1, producer := s.producer.(pc := PAwaitGo), victim := VReady))
  {
    ProducerArrives(s);
    LeadsThree(s, ProducerPins(true), ProducerReady, VictimPins(true));
  }

  lemma ControllerBegins(s: State)
    requires s.victim.VReady? && s.ready == 2 && s.goes == [] && s.controller.CWait? && s.generations != []
    ensures Step(Step(s, VictimReady), ControllerStartsOrFails) ==
      s.(ready := 3, goes := [false], started := true, victim := VRunning, controller := CDelay)
  {
    assert Step(s, VictimReady) == s.(ready := 3, victim := VRunning);
  }

  lemma ControllerGoes(s: State)
    requires s.victim.VReady? && s.ready == 2 && s.goes == [] && s.controller.CWait? && s.generations != []
             && s.producer == Producer(PAwaitGo, 0, 0, false)
    ensures Leads(s, [VictimReady, ControllerStartsOrFails, ProducerSeesGo(0)],
                  s.(ready := 3, goes := [false], started := true, victim := VRunning, controller := CDelay,
                     producer := Producer(PLoop, 0, 0, false)))
  {
    ControllerBegins(s);
    LeadsThree(s, VictimReady, ControllerStartsOrFails, ProducerSeesGo(0));
  }

  lemma WaiterBegins(s: State)
    requires s.waiter == Waiter(WAwaitGo, 0, 0, false, 0) && s.goes == [false] && s.generations != []
    ensures Step(Step(s, WaiterSeesGo(0)), WaiterChecksStart(false)) == s.(waiter := Waiter(WTest, 0, 0, false, 0))
  {
  }

  lemma WaiterGoes(s: State, last: Event)
    requires s.waiter == Waiter(WAwaitGo, 0, 0, false, 0) && s.goes == [false] && s.controller.CDelay?
      && s.generations != []
    requires last == WaiterReady || last == ControllerStops
    ensures Leads(s, [WaiterSeesGo(0), WaiterChecksStart(false), last],
                  s.(stop := s.stop || last.ControllerStops?,
                     controller := if last.ControllerStops? then CDone else CDelay,
                     waiter := Waiter(WTest, 0, 0, false, 0)))
  {
    WaiterBegins(s);
    LeadsThree(s, WaiterSeesGo(0), WaiterChecksStart(false), last);
  }

  function Started(parker: bool, raw: bool, releases: bool): State
  {
    State(parker, raw, releases, [Generation(0, true, 0, false)], [0], [Ack(0, false)], [false], 3, false, false, 0,
      [], true,
      Waiter(WAwaitGo, 0, 0, false, 0), Producer(PLoop, 0, 0, false), VRunning, CDelay)
  }

  /** All threads arrive, and the controller starts the trial. */
  lemma StartsUp(parker: bool, raw: bool, releases: bool) returns (es: seq<Event>)
    ensures Leads(Start(parker, raw, releases), es, Started(parker, raw, releases))
  {
    var s0 := Start(parker, raw, releases);
    var s1 := s0.(ready := 1, waiter := Waiter(WAwaitGo, 0, 0, false, 0));
    var s2 := s1.(ready := 2, producer := Producer(PAwaitGo, 0, 0, false), victim := VReady);
    WaiterArrives(s0);
    es := [WaiterPins(true), WaiterCaptures(0), WaiterReady];
    OthersArrive(s1);
    LeadsOn(s0, es, s1, [ProducerPins(true), ProducerReady, VictimPins(true)], s2);
    es := es + [ProducerPins(true), ProducerReady, VictimPins(true)];
    ControllerGoes(s2);
    LeadsOn(s0, es, s2, [VictimReady, ControllerStartsOrFails, ProducerSeesGo(0)], Started(parker, raw, releases));
    es := es + [VictimReady, ControllerStartsOrFails, ProducerSeesGo(0)];
  }

  lemma ProducerStopsAfter(s: State)
    requires s.producer == Producer(PLoop, 0, 0, false) && s.stop && s.generations != []
    ensures Step(Step(s, ProducerLoops(true)), ProducerStops) == s.(producer := Producer(PBump, 0, 0, true))
  {
  }

  lemma RelaxedBump(s: State)
    requires s.producer == Producer(PBump, 0, 0, true) && s.generations == [Generation(0, true, 0, false)]
      && !s.releases
    ensures Step(s, ProducerBumps) ==
      s.(producer := Producer(PFinalWake, 0, 0, true),
         generations := [Generation(0, true, 0, false), Generation(1, false, 0, false)])
  {
  }

  lemma ProducerEnds(s: State)
    requires s.producer == Producer(PLoop, 0, 0, false) && s.stop && !s.releases
    requires s.generations == [Generation(0, true, 0, false)]
    ensures Leads(s, [ProducerLoops(true), ProducerStops, ProducerBumps],
                  s.(producer := Producer(PFinalWake, 0, 0, true),
                     generations := [Generation(0, true, 0, false), Generation(1, false, 0, false)]))
  {
    ProducerStopsAfter(s);
    RelaxedBump(s.(producer := Producer(PBump, 0, 0, true)));
    LeadsThree(s, ProducerLoops(true), ProducerStops, ProducerBumps);
  }

  lemma WaiterSeesBump(s: State)
    requires s.waiter == Waiter(WTest, 0, 0, false, 0)
    requires s.generations == [Generation(0, true, 0, false), Generation(1, false, 0, false)]
    ensures Step(s, WaiterTests(1)) ==
      s.(waiter := if s.parker then Waiter(WReload, 1, 0, false, 0) else Waiter(WCheckStop, 1, 0, false, 1))
  {
  }

  lemma WaiterReloadsBump(s: State)
    requires s.waiter == (if s.parker then Waiter(WReload, 1, 0, false, 0) else Waiter(WCheckStop, 1, 0, false, 1))
    requires s.generations == [Generation(0, true, 0, false), Generation(1, false, 0, false)]
    ensures Step(s, if s.parker then WaiterReloads(1) else WaiterReady)
            == s.(waiter := Waiter(WCheckStop, 1, 0, false, 1))
  {
  }

  lemma WaiterMissesStop(s: State)
    requires s.waiter == Waiter(WCheckStop, 1, 0, false, 1) && s.generations != []
    ensures Step(s, WaiterChecksStop(false)) == s.(waiter := Waiter(WLoadSent, 1, 0, false, 1))
  {
  }

  lemma WaiterBelievesBump(s: State)
    requires s.waiter == Waiter(WTest, 0, 0, false, 0)
    requires s.generations == [Generation(0, true, 0, false), Generation(1, false, 0, false)]
    ensures Leads(s, [WaiterTests(1), if s.parker then WaiterReloads(1) else WaiterReady, WaiterChecksStop(false)],
                  s.(waiter := Waiter(WLoadSent, 1, 0, false, 1)))
  {
    WaiterSeesBump(s);
    WaiterReloadsBump(Step(s, WaiterTests(1)));
    WaiterMissesStop(s.(waiter := Waiter(WCheckStop, 1, 0, false, 1)));
    LeadsThree(s, WaiterTests(1), if s.parker then WaiterReloads(1) else WaiterReady, WaiterChecksStop(false));
  }

  lemma WaiterRecordsBump(s: State)
    requires s.waiter == Waiter(WLoadSent, 1, 0, false, 1) && s.sent == [0] && s.samples == [] && s.generations != []
    ensures Leads(s, [WaiterLoadsSent(0), WaiterRecords(false), WaiterReady],
                  s.(waiter := Waiter(WTest, 1, 0, false, 1), samples := [Sample(1, 0)],
                    acks := s.acks + [Ack(1, false)]))
  {
    LeadsThree(s, WaiterLoadsSent(0), WaiterRecords(false), WaiterReady);
  }

  /** With relaxed writes of `generation` the waiter can miss the stop behind a
      terminal bump and record the bump. */
  lemma RelaxedBumpIsRecorded(parker: bool, raw: bool) returns (es: seq<Event>)
    ensures !LockStep(After(parker, raw, false, es))
  {
    var g0 := Generation(0, true, 0, false);
    var s0 := Start(parker, raw, false);
    es := StartsUp(parker, raw, false);
    var s3 := Started(parker, raw, false);
    var s4 := s3.(stop := true, controller := CDone, waiter := Waiter(WTest, 0, 0, false, 0));
    var s5 := s4.(producer := Producer(PFinalWake, 0, 0, true), generations := [g0, Generation(1, false, 0, false)]);
    var s6 := s5.(waiter := Waiter(WLoadSent, 1, 0, false, 1));
    var s7 := s6.(waiter := Waiter(WTest, 1, 0, false, 1), samples := [Sample(1, 0)],
      acks := s6.acks + [Ack(1, false)]);
    WaiterGoes(s3, ControllerStops);
    LeadsOn(s0, es, s3, [WaiterSeesGo(0), WaiterChecksStart(false), ControllerStops], s4);
    es := es + [WaiterSeesGo(0), WaiterChecksStart(false), ControllerStops];
    ProducerEnds(s4);
    LeadsOn(s0, es, s4, [ProducerLoops(true), ProducerStops, ProducerBumps], s5);
    es := es + [ProducerLoops(true), ProducerStops, ProducerBumps];
    WaiterBelievesBump(s5);
    var reload := if parker then WaiterReloads(1) else WaiterReady;
    LeadsOn(s0, es, s5, [WaiterTests(1), reload, WaiterChecksStop(false)], s6);
    es := es + [WaiterTests(1), reload, WaiterChecksStop(false)];
    WaiterRecordsBump(s6);
    LeadsOn(s0, es, s6, [WaiterLoadsSent(0), WaiterRecords(false), WaiterReady], s7);
    es := es + [WaiterLoadsSent(0), WaiterRecords(false), WaiterReady];
    assert After(parker, raw, false, es) == s7;
  }

  /** The Release ordering of the writes to `generation` is necessary and sufficient. */
  lemma LockStepIffGenerationReleases(parker: bool, raw: bool, releases: bool)
    ensures (forall es :: LockStep(After(parker, raw, releases, es))) <==> releases
  {
    if releases {
      forall es ensures LockStep(After(parker, raw, releases, es)) {
        SamplesAreLockStep(parker, raw, es);
      }
    } else {
      var es := RelaxedBumpIsRecorded(parker, raw);
    }
  }

  // ------------------------------------------------- every trial can happen

  /** Between two handoffs, with nothing stopped. */
  predicate Resting(s: State)
  {
    var k := |s.samples|;
    s.releases && s.producer.pc.PLoop? && !s.producer.knowsStop && s.producer.sequence == k
      && s.producer.ackPosition <= k
    && s.waiter == Waiter(WTest, k, k, false, k)
    && |s.generations| == |s.sent| == |s.acks| == k + 1 && s.acks[k] == Ack(k, false)
  }

  lemma RoundBegins(s: State)
    requires Resting(s)
    ensures var k := |s.samples|;
      Leads(s, [ProducerLoops(false), ProducerLoadsAck(k), ProducerChecks(false, false)],
        s.(producer := Producer(PStamp, k, k, false)))
  {
    var k := |s.samples|;
    LeadsThree(s, ProducerLoops(false), ProducerLoadsAck(k), ProducerChecks(false, false));
  }

  function Published(s: State, k: nat, cycles: nat): State
  {
    s.(sent := s.sent + [cycles], generations := s.generations + [Generation(k + 1, true, k + 1, false)],
       token := s.token || s.parker, tokenView := if s.parker then k + 1 else s.tokenView,
       producer := Producer(PLoop, k + 1, k, false))
  }

  lemma StampAndStore(s: State, k: nat, cycles: nat)
    requires s.producer == Producer(PStamp, k, k, false) && s.releases && |s.generations| == |s.sent| == k + 1
    ensures Step(Step(s, ProducerStamps(cycles, false)), ProducerStores) ==
      s.(sent := s.sent + [cycles], generations := s.generations + [Generation(k + 1, true, k + 1, false)],
         producer := Producer(PWake, k + 1, k, false))
  {
  }

  lemma RoundPublishes(s: State, k: nat, cycles: nat)
    requires s.producer == Producer(PStamp, k, k, false) && s.releases && |s.generations| == |s.sent| == k + 1
    ensures Leads(s, [ProducerStamps(cycles, false), ProducerStores, ProducerWakes], Published(s, k, cycles))
  {
    StampAndStore(s, k, cycles);
    LeadsThree(s, ProducerStamps(cycles, false), ProducerStores, ProducerWakes);
  }

  lemma WaiterSees(s: State, k: nat)
    requires s.waiter == Waiter(WTest, k, k, false, k)
    requires |s.generations| == k + 2 && s.generations[k + 1] == Generation(k + 1, true, k + 1, false)
    ensures Step(s, WaiterTests(k + 1)) ==
      s.(waiter := if s.parker then Waiter(WReload, k + 1, k + 1, false, k)
        else Waiter(WCheckStop, k + 1, k + 1, false, k + 1))
  {
  }

  lemma WaiterReloadsIt(s: State, k: nat)
    requires s.waiter == (if s.parker then Waiter(WReload, k + 1, k + 1, false, k)
      else Waiter(WCheckStop, k + 1, k + 1, false, k + 1))
    requires |s.generations| == k + 2 && s.generations[k + 1] == Generation(k + 1, true, k + 1, false)
    ensures Step(s, if s.parker then WaiterReloads(k + 1) else WaiterReady)
            == s.(waiter := Waiter(WCheckStop, k + 1, k + 1, false, k + 1))
  {
  }

  lemma WaiterSeesNoStop(s: State, k: nat)
    requires s.waiter == Waiter(WCheckStop, k + 1, k + 1, false, k + 1) && s.generations != []
    ensures Step(s, WaiterChecksStop(false)) == s.(waiter := Waiter(WLoadSent, k + 1, k + 1, false, k + 1))
  {
  }

  lemma RoundObserves(s: State, k: nat)
    requires s.waiter == Waiter(WTest, k, k, false, k)
    requires |s.generations| == k + 2 && s.generations[k + 1] == Generation(k + 1, true, k + 1, false)
    ensures Leads(s, [WaiterTests(k + 1), if s.parker then WaiterReloads(k + 1) else WaiterReady,
      WaiterChecksStop(false)],
                  s.(waiter := Waiter(WLoadSent, k + 1, k + 1, false, k + 1)))
  {
    WaiterSees(s, k);
    WaiterReloadsIt(Step(s, WaiterTests(k + 1)), k);
    WaiterSeesNoStop(s.(waiter := Waiter(WCheckStop, k + 1, k + 1, false, k + 1)), k);
    LeadsThree(s, WaiterTests(k + 1), if s.parker then WaiterReloads(k + 1) else WaiterReady, WaiterChecksStop(false));
  }

  lemma RoundRecords(s: State, k: nat)
    requires s.waiter == Waiter(WLoadSent, k + 1, k + 1, false, k + 1) && |s.sent| == k + 2 && s.generations != []
    ensures Leads(s, [WaiterLoadsSent(k + 1), WaiterRecords(false), WaiterReady],
                  s.(waiter := Waiter(WTest, k + 1, k + 1, false, k + 1),
                    samples := s.samples + [Sample(k + 1, s.sent[k + 1])],
                     acks := s.acks + [Ack(k + 1, false)]))
  {
    LeadsThree(s, WaiterLoadsSent(k + 1), WaiterRecords(false), WaiterReady);
  }

  /** One full handoff of a stamp. */
  lemma Round(s: State, cycles: nat) returns (es: seq<Event>, s': State)
    requires Resting(s)
    ensures Leads(s, es, s') && Resting(s') && s'.samples == s.samples + [Sample(|s.samples| + 1, cycles)]
  {
    var k := |s.samples|;
    var s1 := s.(producer := Producer(PStamp, k, k, false));
    var s2 := Published(s1, k, cycles);
    var s3 := s2.(waiter := Waiter(WLoadSent, k + 1, k + 1, false, k + 1));
    s' := s3.(waiter := Waiter(WTest, k + 1, k + 1, false, k + 1), samples := s.samples + [Sample(k + 1, cycles)],
              acks := s.acks + [Ack(k + 1, false)]);
    RoundBegins(s);
    es := [ProducerLoops(false), ProducerLoadsAck(k), ProducerChecks(false, false)];
    RoundPublishes(s1, k, cycles);
    LeadsOn(s, es, s1, [ProducerStamps(cycles, false), ProducerStores, ProducerWakes], s2);
    es := es + [ProducerStamps(cycles, false), ProducerStores, ProducerWakes];
    RoundObserves(s2, k);
    var reload := if s.parker then WaiterReloads(k + 1) else WaiterReady;
    LeadsOn(s, es, s2, [WaiterTests(k + 1), reload, WaiterChecksStop(false)], s3);
    es := es + [WaiterTests(k + 1), reload, WaiterChecksStop(false)];
    RoundRecords(s3, k);
    LeadsOn(s, es, s3, [WaiterLoadsSent(k + 1), WaiterRecords(false), WaiterReady], s');
    es := es + [WaiterLoadsSent(k + 1), WaiterRecords(false), WaiterReady];
  }

  lemma {:induction false} Rounds(parker: bool, raw: bool, stamps: seq<nat>) returns (es: seq<Event>, s: State)
    ensures Leads(Start(parker, raw, true), es, s) && Resting(s)
    ensures |s.samples| == |stamps| && forall i :: 0 <= i < |stamps| ==> s.samples[i] == Sample(i + 1, stamps[i])
    decreases |stamps|
  {
    var s0 := Start(parker, raw, true);
    if stamps == [] {
      var s1 := Started(parker, raw, true);
      es := StartsUp(parker, raw, true);
      WaiterGoes(s1, WaiterReady);
      s := s1.(waiter := Waiter(WTest, 0, 0, false, 0));
      LeadsOn(s0, es, s1, [WaiterSeesGo(0), WaiterChecksStart(false), WaiterReady], s);
      es := es + [WaiterSeesGo(0), WaiterChecksStart(false), WaiterReady];
    } else {
      var n := |stamps| - 1;
      var before, last;
      es, before := Rounds(parker, raw, stamps[..n]);
      last, s := Round(before, stamps[n]);
      LeadsOn(s0, es, before, last, s);
      es := es + last;
    }
  }

  /** The converse of lock step: every sequence of stamps is recorded, in order
      and completely, by some trial. */
  lemma EveryStampSequenceIsRecorded(parker: bool, raw: bool, stamps: seq<nat>) returns (es: seq<Event>)
    ensures var s := After(parker, raw, true, es);
      |s.samples| == |stamps| && forall i :: 0 <= i < |stamps| ==> s.samples[i] == Sample(i + 1, stamps[i])
  {
    var s;
    es, s := Rounds(parker, raw, stamps);
  }

  /** When the controller finds three threads ready, no failure has touched the
      trial: one generation, no `go`, no stop, no token, and the waiter captured 0. */
  lemma AllReadyMeansUntouched(parker: bool, raw: bool, es: seq<Event>)
    ensures var s := After(parker, raw, true, es);
      !s.started && s.controller.CWait? && s.ready == 3 ==>
        s.generations == [Generation(0, true, 0, false)] && s.goes == [] && !s.stop && !s.token
        && s.waiter.pc.WAwaitGo? && s.waiter.observed == 0 && s.producer.pc.PAwaitGo? && s.producer.sequence == 0
  {
    InvHolds(parker, raw, es);
  }

  /** The producer stores generation n + 1 only after generation n is acknowledged. */
  lemma AtMostOneGenerationInFlight(parker: bool, raw: bool, es: seq<Event>)
    ensures var s := After(parker, raw, true, es);
      |s.samples| <= s.producer.sequence <= |s.samples| + 1
  {
    InvHolds(parker, raw, es);
  }

  /** A trial whose startup failed records nothing and never parks. */
  lemma FailedStartupRecordsNothing(parker: bool, raw: bool, es: seq<Event>)
    ensures var s := After(parker, raw, true, es);
      !s.started ==> s.samples == [] && s.acks == [Ack(0, false)] && s.producer.sequence == 0
                     && !s.waiter.pc.WParkEntry? && !s.waiter.pc.WParkBlocked? && !s.waiter.pc.WTest?
  {
    InvHolds(parker, raw, es);
  }

  /** Whenever the producer has finished the wake for its latest store and the
      waiter is inside park on an older generation, the token is notified. */
  lemma WaiterIsNeverStranded(parker: bool, raw: bool, es: seq<Event>)
    ensures var s := After(parker, raw, true, es);
      (s.waiter.pc.WParkEntry? || s.waiter.pc.WParkBlocked?) && !WakePending(s)
        && s.waiter.observed + 1 < |s.generations|
      ==> s.token
  {
    InvHolds(parker, raw, es);
  }
}
