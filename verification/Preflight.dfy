/** The one-time hardware preflight.

    Three layers: one store trial as a step system of waiter and helper thread,
    the loop that runs up to sixteen trials and concludes, and the process-wide
    cell that any number of callers share.
*/
module Preflight {
  import opened Machine
  import opened Runs
  import opened Sorting

  const BASELINE_ATTEMPTS: nat := 5
  const STORE_ATTEMPTS: nat := 16
  const REQUIRED_OBSERVATIONS: nat := 2
  const MIN_BLOCK: nat := 1_000
  const MIN_DELAY: nat := 1_000
  const MAX_DELAY: nat := 20_000

  // ---------------------------------------------------------------- one trial

  /** `preflight_wait_once`, operation by operation. */
  datatype WaiterPc =
    | LoadFirst | ArmMonitor | LoadArmed | StoreHandoff | LoadHandedOff
    | EnterWait | InWait | LoadLast | Returned | Finished

  datatype HelperPc = AwaitHandoff | Delay | Stamp | Gone

  /** When something happened: its place in the run, and the clock in nanoseconds. */
  datatype Moment = Moment(step: nat, time: nat)

  /** The waiter's own moments. */
  datatype Marks = Marks(
    armed: Option<Moment>,
    handedOff: Option<Moment>,
    rechecked: Option<Moment>,  // the load between the handoff and the wait
    slept: Option<Moment>,      // the hardware wait was entered
    woke: Option<Moment>,       // the hardware wait returned
    returned: Option<Moment>,   // the load whose value the probe returns
    finished: Option<Moment>)   // `wait_finished`

  datatype Trial = Trial(
    clock: Moment,
    startedAt: nat,
    delay: nat,                 // `producer_delay`
    waiter: WaiterPc,
    marks: Marks,
    observed: nat,
    helper: HelperPc,
    seenAt: nat,                // the helper's `delay_started`
    stored: Option<Moment>,
    published: Option<Moment>)

  datatype TrialEvent = WaiterSteps(sees: bool) | HelperSteps | HelperGivesUp | TimePasses(nanos: nat)

  function StartTrial(start: nat, delay: nat): Trial
  {
    Trial(Moment(0, start), start, delay, LoadFirst, Marks(None, None, None, None, None, None, None), 0, AwaitHandoff,
      0, None, None)
  }

  function WaiterTo(t: Trial, pc: WaiterPc, marks: Marks): Trial
  {
    t.(waiter := pc, marks := marks)
  }

  /** A load returns the stored 1 only if the helper has stored it; it may be stale. */
  function LoadTarget(t: Trial, sees: bool, next: WaiterPc): Trial
  {
    if sees && t.stored.Some? then WaiterTo(t, Returned, t.marks.(returned := Some(t.clock))).(observed := 1)
    else if next.Returned? then WaiterTo(t, Returned, t.marks.(returned := Some(t.clock)))
    else WaiterTo(t, next, t.marks)
  }

  function WaiterStep(t: Trial, sees: bool): Trial
  {
    var m, here := t.marks, Some(t.clock);
    match t.waiter
    case LoadFirst => LoadTarget(t, sees, ArmMonitor)
    case ArmMonitor => WaiterTo(t, LoadArmed, m.(armed := here))
    case LoadArmed => LoadTarget(t, sees, StoreHandoff)
    case StoreHandoff => WaiterTo(t, LoadHandedOff, m.(handedOff := here))
    case LoadHandedOff => LoadTarget(t.(marks := m.(rechecked := here)), sees, EnterWait)
    case EnterWait => WaiterTo(t, InWait, m.(slept := here))
    case InWait => WaiterTo(t, LoadLast, m.(woke := here))
    case LoadLast => LoadTarget(t, sees, Returned)
    case Returned => WaiterTo(t, Finished, m.(finished := here))
    case Finished => t
  }

  /** The helper stores once its delay since seeing the handoff has passed. */
  function HelperStep(t: Trial): Trial
  {
    match t.helper
    case AwaitHandoff => if t.marks.handedOff.Some? then t.(seenAt := t.clock.time, helper := Delay) else t
    case Delay => if t.clock.time >= t.seenAt + t.delay then t.(stored := Some(t.clock), helper := Stamp) else t
    case Stamp => t.(published := Some(t.clock), helper := Gone)
    case Gone => t
  }

  function Tick(t: Trial, nanos: nat): Trial
  {
    t.(clock := Moment(t.clock.step + 1, t.clock.time + nanos))
  }

  function TrialStep(t: Trial, e: TrialEvent): Trial
  {
    match e
    case WaiterSteps(sees) => Tick(WaiterStep(t, sees), 0)
    case HelperSteps => Tick(HelperStep(t), 0)
    case HelperGivesUp => Tick(if t.helper.AwaitHandoff? then t.(helper := Gone) else t, 0)
    case TimePasses(nanos) => Tick(t, nanos)
  }

  ghost function AfterTrial(start: nat, delay: nat, es: seq<TrialEvent>): Trial
  {
    Exec(TrialStep, StartTrial(start, delay), es)
  }

  /** What `functional_preflight` learns from one trial. */
  datatype Evidence = Evidence(publishedAt: Option<nat>, waitFinished: nat, observed: nat, elapsed: nat)

  predicate Overlapped(e: Evidence)
  {
    e.publishedAt.Some? && e.publishedAt.value <= e.waitFinished
  }

  /** `classify_preflight_trial` */
  predicate Verified(e: Evidence, threshold: nat)
  {
    Overlapped(e) && e.observed != 0 && e.elapsed < threshold
  }

  /** The evidence of a finished trial; the helper's message may not arrive. */
  function EvidenceOf(t: Trial, received: bool): Evidence
    requires t.marks.finished.Some? && t.startedAt <= t.marks.finished.value.time
  {
    Evidence(if received && t.published.Some? then Some(t.published.value.time) else None,
             t.marks.finished.value.time, t.observed, t.marks.finished.value.time - t.startedAt)
  }

  predicate Completed(t: Trial)
  {
    t.marks.finished.Some? && t.startedAt <= t.marks.finished.value.time
  }

  /** A completed trial counted as overlapping, or as verified. */
  predicate TrialOverlaps(t: Trial)
  {
    Completed(t) && Overlapped(EvidenceOf(t, true))
  }

  predicate TrialVerifies(t: Trial, threshold: nat)
  {
    Completed(t) && Verified(EvidenceOf(t, true), threshold)
  }

  // ------------------------------------------------------- order inside a trial

  predicate Precedes(a: Option<Moment>, b: Option<Moment>)
  {
    a.Some? && b.Some? && a.value.step < b.value.step && a.value.time <= b.value.time
  }

  predicate Comparable(a: Option<Moment>, b: Option<Moment>)
  {
    a.Some? && b.Some? ==> Precedes(a, b) || Precedes(b, a)
  }

  predicate Past(clock: Moment, startedAt: nat, m: Option<Moment>)
  {
    m.Some? ==> m.value.step < clock.step && startedAt <= m.value.time <= clock.time
  }

  predicate MarksPast(clock: Moment, startedAt: nat, m: Marks)
  {
    startedAt <= clock.time
    && Past(clock, startedAt, m.armed) && Past(clock, startedAt, m.handedOff) && Past(clock, startedAt, m.rechecked)
    && Past(clock, startedAt, m.slept) && Past(clock, startedAt, m.woke) && Past(clock, startedAt, m.returned)
    && Past(clock, startedAt, m.finished)
  }

  lemma MarksStayPast(clock: Moment, startedAt: nat, m: Marks, nanos: nat)
    requires MarksPast(clock, startedAt, m)
    ensures MarksPast(Moment(clock.step + 1, clock.time + nanos), startedAt, m)
  {
  }

  /** Which of the waiter's moments lie behind it. */
  predicate WaiterPlace(pc: WaiterPc, m: Marks)
  {
    match pc
    case LoadFirst | ArmMonitor => m.armed.None? && m.handedOff.None? && m.returned.None?
    case LoadArmed | StoreHandoff => m.armed.Some? && m.handedOff.None? && m.returned.None?
    case LoadHandedOff => m.handedOff.Some? && m.rechecked.None? && m.slept.None? && m.woke.None? && m.returned.None?
    case EnterWait => m.rechecked.Some? && m.slept.None? && m.woke.None? && m.returned.None?
    case InWait => m.slept.Some? && m.woke.None? && m.returned.None?
    case LoadLast => m.woke.Some? && m.returned.None?
    case Returned | Finished => m.returned.Some?
  }

  predicate WaiterOrder(pc: WaiterPc, m: Marks)
  {
    WaiterPlace(pc, m)
    && (m.handedOff.Some? ==> Precedes(m.armed, m.handedOff))
    && (m.rechecked.Some? ==> Precedes(m.handedOff, m.rechecked))
    && (m.slept.Some? ==> Precedes(m.rechecked, m.slept))
    && (m.woke.Some? ==> Precedes(m.slept, m.woke))
    && (m.woke.Some? && m.returned.Some? ==> Precedes(m.woke, m.returned))
    && (m.slept.Some? && m.returned.Some? ==> m.woke.Some?)
    && (m.finished.Some? <==> pc.Finished?)
    && (m.finished.Some? ==> Precedes(m.returned, m.finished))
  }

  predicate HelperOrder(t: Trial)
  {
    Past(t.clock, t.startedAt, t.stored) && Past(t.clock, t.startedAt, t.published)
    && (t.helper.Delay? || t.stored.Some? ==>
          t.marks.handedOff.Some? && t.marks.handedOff.value.time <= t.seenAt <= t.clock.time)
    && (t.stored.Some? ==> Precedes(t.marks.handedOff, t.stored) && t.seenAt + t.delay <= t.stored.value.time)
    && (t.helper.AwaitHandoff? || t.helper.Delay? ==> t.stored.None?)
    && (t.helper.Stamp? ==> t.stored.Some?)
    && (t.published.Some? <==> t.helper.Gone? && t.stored.Some?)
    && (t.published.Some? ==> Precedes(t.stored, t.published))
  }

  predicate ObservedOrder(t: Trial)
  {
    t.observed <= 1
    && (t.observed != 0 ==>
          Precedes(t.stored, t.marks.returned) && (t.marks.slept.None? ==> t.marks.rechecked == t.marks.returned))
  }

  predicate TrialInv(t: Trial)
  {
    MarksPast(t.clock, t.startedAt, t.marks) && WaiterOrder(t.waiter, t.marks) && HelperOrder(t) && ObservedOrder(t)
      && Comparable(t.stored, t.marks.woke)
  }

  lemma LoadKeepsInv(t: Trial, sees: bool)
    requires TrialInv(t)
      && (t.waiter.LoadFirst? || t.waiter.LoadArmed? || t.waiter.LoadHandedOff? || t.waiter.LoadLast?)
    ensures TrialInv(TrialStep(t, WaiterSteps(sees)))
  {
  }

  lemma ArmKeepsInv(t: Trial, sees: bool)
    requires TrialInv(t) && (t.waiter.ArmMonitor? || t.waiter.StoreHandoff?)
    ensures TrialInv(TrialStep(t, WaiterSteps(sees)))
  {
  }

  lemma FinishKeepsInv(t: Trial, sees: bool)
    requires TrialInv(t) && (t.waiter.Returned? || t.waiter.Finished?)
    ensures TrialInv(TrialStep(t, WaiterSteps(sees)))
  {
  }

  lemma WaitKeepsInv(t: Trial, sees: bool)
    requires TrialInv(t) && (t.waiter.EnterWait? || t.waiter.InWait?)
    ensures TrialInv(TrialStep(t, WaiterSteps(sees)))
  {
  }

  lemma TickKeepsInv(t: Trial, nanos: nat)
    requires TrialInv(t)
    ensures TrialInv(Tick(t, nanos))
  {
    MarksStayPast(t.clock, t.startedAt, t.marks, nanos);
  }

  lemma StoreKeepsInv(t: Trial)
    requires TrialInv(t) && t.helper.Delay? && t.clock.time >= t.seenAt + t.delay
    ensures TrialInv(TrialStep(t, HelperSteps))
  {
    MarksStayPast(t.clock, t.startedAt, t.marks, 0);
  }

  lemma StampKeepsInv(t: Trial)
    requires TrialInv(t) && t.helper.Stamp?
    ensures TrialInv(TrialStep(t, HelperSteps))
  {
    MarksStayPast(t.clock, t.startedAt, t.marks, 0);
  }

  /** Seeing the handoff, spinning and giving up leave no moment behind. */
  lemma QuietHelperKeepsInv(t: Trial, e: TrialEvent)
    requires TrialInv(t) && (e.HelperGivesUp? || e.HelperSteps?)
    requires e.HelperSteps? ==> !t.helper.Stamp? && (t.helper.Delay? ==> t.clock.time < t.seenAt + t.delay)
    ensures TrialInv(TrialStep(t, e))
  {
    var quiet := if e.HelperSteps? then HelperStep(t) else if t.helper.AwaitHandoff? then t.(helper := Gone) else t;
    assert TrialInv(quiet);
    TickKeepsInv(quiet, 0);
  }

  lemma TrialInvStep(t: Trial, e: TrialEvent)
    requires TrialInv(t)
    ensures TrialInv(TrialStep(t, e))
  {
    match e
    case WaiterSteps(sees) =>
      match t.waiter {
        case LoadFirst | LoadArmed | LoadHandedOff | LoadLast => LoadKeepsInv(t, sees);
        case EnterWait | InWait => WaitKeepsInv(t, sees);
        case ArmMonitor | StoreHandoff => ArmKeepsInv(t, sees);
        case _ => FinishKeepsInv(t, sees);
      }
    case TimePasses(nanos) => TickKeepsInv(t, nanos);
    case _ =>
      if e.HelperSteps? && t.helper.Delay? && t.clock.time >= t.seenAt + t.delay {
        StoreKeepsInv(t);
      } else if e.HelperSteps? && t.helper.Stamp? {
        StampKeepsInv(t);
      } else {
        QuietHelperKeepsInv(t, e);
      }
  }

  lemma DelayFrame(t: Trial, e: TrialEvent)
    ensures TrialStep(t, e).delay == t.delay && TrialStep(t, e).startedAt == t.startedAt
  {
  }

  lemma TrialInvHolds(start: nat, delay: nat, es: seq<TrialEvent>)
    ensures var t := AfterTrial(start, delay, es); TrialInv(t) && t.delay == delay && t.startedAt == start
  {
    var inv := (t: Trial) => TrialInv(t) && t.delay == delay && t.startedAt == start;
    forall t, e | inv(t) ensures inv(TrialStep(t, e)) {
      TrialInvStep(t, e);
      DelayFrame(t, e);
    }
    InvariantHolds(TrialStep, inv, StartTrial(start, delay), es);
  }

  // --------------------------------------------------- what a trial establishes

  /** Armed, then stored, then the load that ends the probe. */
  predicate StoredWhileProbing(t: Trial)
  {
    Precedes(t.marks.armed, t.stored) && Precedes(t.stored, t.marks.returned)
  }

  /** In every verified trial the helper's store came after the monitor was
      armed and before the probe returned. */
  lemma VerifiedStoreIsWhileProbing(start: nat, delay: nat, es: seq<TrialEvent>, threshold: nat)
    requires TrialVerifies(AfterTrial(start, delay, es), threshold)
    ensures StoredWhileProbing(AfterTrial(start, delay, es))
  {
    TrialInvHolds(start, delay, es);
  }

  /** Overlap alone puts the store after the arm, and on the clock no later
      than the finish stamp. */
  lemma OverlappingStoreIsBeforeFinish(start: nat, delay: nat, es: seq<TrialEvent>)
    requires TrialOverlaps(AfterTrial(start, delay, es))
    ensures var t := AfterTrial(start, delay, es);
      Precedes(t.marks.armed, t.stored) && t.stored.value.time <= t.marks.finished.value.time
  {
    TrialInvHolds(start, delay, es);
  }

  lemma StoreTakesDelay(start: nat, delay: nat, es: seq<TrialEvent>, threshold: nat)
    requires TrialVerifies(AfterTrial(start, delay, es), threshold)
    ensures var t := AfterTrial(start, delay, es);
      t.marks.handedOff.Some? && t.stored.Some? && t.marks.handedOff.value.time + delay <= t.stored.value.time
    ensures delay < threshold
  {
    TrialInvHolds(start, delay, es);
  }

  /** Evidence that a verified trial with this delay can leave: the publication
      stamp is at least the delay after the start. */
  predicate Feasible(e: Evidence, delay: nat, threshold: nat)
  {
    Verified(e, threshold) && e.observed == 1 && e.elapsed <= e.waitFinished
    && e.waitFinished - e.elapsed + delay <= e.publishedAt.value
  }

  lemma VerifiedEvidenceIsFeasible(start: nat, delay: nat, es: seq<TrialEvent>, threshold: nat)
    requires TrialVerifies(AfterTrial(start, delay, es), threshold)
    ensures var e := EvidenceOf(AfterTrial(start, delay, es), true);
      Feasible(e, delay, threshold) && e.waitFinished - e.elapsed == start
  {
    TrialInvHolds(start, delay, es);
    StoreTakesDelay(start, delay, es, threshold);
  }

  /** The load after the handoff came at most `gap` nanoseconds after it. */
  predicate RecheckedWithin(t: Trial, gap: nat)
  {
    t.marks.handedOff.Some? && t.marks.rechecked.Some?
    && t.marks.rechecked.value.time <= t.marks.handedOff.value.time + gap
  }

  /** The helper's publication stamp is at least `margin` before `wait_finished`. */
  predicate PublishedBeforeFinish(t: Trial, margin: nat)
  {
    t.published.Some? && t.marks.finished.Some?
    && t.published.value.time + margin <= t.marks.finished.value.time
  }

  /** The store came before the hardware wait returned. */
  predicate HitTheWait(t: Trial)
  {
    Precedes(t.stored, t.marks.woke)
  }

  ghost predicate PromptTrialsSleep(delay: nat, threshold: nat, gap: nat)
  {
    forall start, es ::
      var t := AfterTrial(start, delay, es);
      TrialVerifies(t, threshold) && RecheckedWithin(t, gap) ==> t.marks.slept.Some?
  }

  ghost predicate PublishedTrialsHitTheWait(delay: nat, threshold: nat, margin: nat)
  {
    forall start, es ::
      var t := AfterTrial(start, delay, es);
      TrialVerifies(t, threshold) && PublishedBeforeFinish(t, margin) && t.marks.woke.Some? ==> HitTheWait(t)
  }

  lemma Snoc(start: nat, delay: nat, es: seq<TrialEvent>, e: TrialEvent, t: Trial) returns (es': seq<TrialEvent>)
    requires TrialStep(AfterTrial(start, delay, es), e) == t
    ensures AfterTrial(start, delay, es') == t
  {
    ExecSnoc(TrialStep, StartTrial(start, delay), es, e);
    es' := es + [e];
  }

  /** The helper has seen the handoff; nothing took any time. */
  function HandedOver(start: nat, delay: nat): Trial
  {
    var marks := Marks(Some(Moment(1, start)), Some(Moment(3, start)), None, None, None, None, None);
    Trial(Moment(5, start), start, delay, LoadHandedOff, marks, 0, Delay, start, None, None)
  }

  lemma ReachesHandedOver(start: nat, delay: nat) returns (es: seq<TrialEvent>)
    ensures AfterTrial(start, delay, es) == HandedOver(start, delay)
  {
    var m0 := Marks(None, None, None, None, None, None, None);
    var m1 := m0.(armed := Some(Moment(1, start)));
    var m2 := m1.(handedOff := Some(Moment(3, start)));
    var t0 := StartTrial(start, delay);
    es := Snoc(start, delay, [], WaiterSteps(false), t0.(clock := Moment(1, start), waiter := ArmMonitor));
    es := Snoc(start, delay, es, WaiterSteps(false), t0.(clock := Moment(2, start), waiter := LoadArmed, marks := m1));
    es := Snoc(start, delay, es, WaiterSteps(false),
      t0.(clock := Moment(3, start), waiter := StoreHandoff, marks := m1));
    es := Snoc(start, delay, es, WaiterSteps(false),
      t0.(clock := Moment(4, start), waiter := LoadHandedOff, marks := m2));
    es := Snoc(start, delay, es, HelperSteps, HandedOver(start, delay));
  }

  /** The store lands between the handoff and the load after it: for every
      feasible evidence a trial that leaves it without executing the wait. */
  lemma VerifiedWithoutSleeping(delay: nat, threshold: nat, e: Evidence) returns (es: seq<TrialEvent>)
    requires Feasible(e, delay, threshold)
    ensures var t := AfterTrial(e.waitFinished - e.elapsed, delay, es);
      Completed(t) && EvidenceOf(t, true) == e && RecheckedWithin(t, e.elapsed) && t.marks.slept.None?
  {
    var start, p, f := e.waitFinished - e.elapsed, e.publishedAt.value, e.waitFinished;
    es := ReachesHandedOver(start, delay);
    var t1 := HandedOver(start, delay).(clock := Moment(6, p));
    var t2 := t1.(clock := Moment(7, p), helper := Stamp, stored := Some(Moment(6, p)));
    var t3 := t2.(clock := Moment(8, p), helper := Gone, published := Some(Moment(7, p)));
    var t4 := t3.(clock := Moment(9, f));
    var m5 := t4.marks.(rechecked := Some(Moment(9, f)), returned := Some(Moment(9, f)));
    var t5 := t4.(clock := Moment(10, f), waiter := Returned, observed := 1, marks := m5);
    var t6 := t5.(clock := Moment(11, f), waiter := Finished, marks := m5.(finished := Some(Moment(10, f))));
    es := Snoc(start, delay, es, TimePasses(p - start), t1);
    es := Snoc(start, delay, es, HelperSteps, t2);
    es := Snoc(start, delay, es, HelperSteps, t3);
    es := Snoc(start, delay, es, TimePasses(f - p), t4);
    es := Snoc(start, delay, es, WaiterSteps(true), t5);
    es := Snoc(start, delay, es, WaiterSteps(true), t6);
  }

  /** The hardware wait has returned at `p`, for some other reason. */
  function WokenEarly(start: nat, delay: nat, p: nat): Trial
  {
    var t := HandedOver(start, delay);
    var m := t.marks.(rechecked := Some(Moment(5, start)), slept := Some(Moment(6, start)));
    t.(clock := Moment(9, p), waiter := LoadLast, marks := m.(woke := Some(Moment(8, p))))
  }

  lemma ReachesWokenEarly(start: nat, delay: nat, p: nat) returns (es: seq<TrialEvent>)
    requires start <= p
    ensures AfterTrial(start, delay, es) == WokenEarly(start, delay, p)
  {
    es := ReachesHandedOver(start, delay);
    var t := HandedOver(start, delay);
    var m1 := t.marks.(rechecked := Some(Moment(5, start)));
    var m2 := m1.(slept := Some(Moment(6, start)));
    es := Snoc(start, delay, es, WaiterSteps(false), t.(clock := Moment(6, start), waiter := EnterWait, marks := m1));
    es := Snoc(start, delay, es, WaiterSteps(false), t.(clock := Moment(7, start), waiter := InWait, marks := m2));
    es := Snoc(start, delay, es, TimePasses(p - start), t.(clock := Moment(8, p), waiter := InWait, marks := m2));
    es := Snoc(start, delay, es, WaiterSteps(false), WokenEarly(start, delay, p));
  }

  /** The store lands after the hardware wait returned and before the last load:
      for every feasible evidence a trial that leaves it with a missed wait. */
  lemma VerifiedAfterWake(delay: nat, threshold: nat, e: Evidence) returns (es: seq<TrialEvent>)
    requires Feasible(e, delay, threshold)
    ensures var t := AfterTrial(e.waitFinished - e.elapsed, delay, es);
      Completed(t) && EvidenceOf(t, true) == e && Precedes(t.marks.woke, t.stored)
  {
    var start, p, f := e.waitFinished - e.elapsed, e.publishedAt.value, e.waitFinished;
    es := ReachesWokenEarly(start, delay, p);
    var t1 := WokenEarly(start, delay, p).(clock := Moment(10, p), helper := Stamp, stored := Some(Moment(9, p)));
    var t2 := t1.(clock := Moment(11, p), helper := Gone, published := Some(Moment(10, p)));
    var t3 := t2.(clock := Moment(12, f));
    var m4 := t3.marks.(returned := Some(Moment(12, f)));
    var t4 := t3.(clock := Moment(13, f), waiter := Returned, observed := 1, marks := m4);
    var t5 := t4.(clock := Moment(14, f), waiter := Finished, marks := m4.(finished := Some(Moment(13, f))));
    es := Snoc(start, delay, es, HelperSteps, t1);
    es := Snoc(start, delay, es, HelperSteps, t2);
    es := Snoc(start, delay, es, TimePasses(f - p), t3);
    es := Snoc(start, delay, es, WaiterSteps(true), t4);
    es := Snoc(start, delay, es, WaiterSteps(true), t5);
  }

  /** Overlap does not put the store before the end of the probe. */
  lemma OverlapAfterReturn(delay: nat) returns (es: seq<TrialEvent>)
    ensures var t := AfterTrial(0, delay, es);
      TrialOverlaps(t) && t.observed == 0 && Precedes(t.marks.returned, t.stored)
  {
    es := ReachesWokenEarly(0, delay, delay);
    var t0 := WokenEarly(0, delay, delay);
    var m1 := t0.marks.(returned := Some(Moment(9, delay)));
    var t1 := t0.(clock := Moment(10, delay), waiter := Returned, marks := m1);
    var t2 := t1.(clock := Moment(11, delay), helper := Stamp, stored := Some(Moment(10, delay)));
    var t3 := t2.(clock := Moment(12, delay), helper := Gone, published := Some(Moment(11, delay)));
    var t4 := t3.(clock := Moment(13, delay), waiter := Finished, marks := m1.(finished := Some(Moment(12, delay))));
    es := Snoc(0, delay, es, WaiterSteps(false), t1);
    es := Snoc(0, delay, es, HelperSteps, t2);
    es := Snoc(0, delay, es, HelperSteps, t3);
    es := Snoc(0, delay, es, WaiterSteps(false), t4);
  }

  /** Every verified trial that rechecks within `gap` of its handoff executed
      the hardware wait, exactly when `gap` is below the helper's delay or the
      delay leaves no time for a verified trial at all. */
  lemma VerifiedTrialsSleepIff(delay: nat, threshold: nat, gap: nat)
    ensures PromptTrialsSleep(delay, threshold, gap) <==> gap < delay || threshold <= delay
  {
    if gap < delay || threshold <= delay {
      forall start, es |
        var t := AfterTrial(start, delay, es); TrialVerifies(t, threshold) && RecheckedWithin(t, gap)
        ensures AfterTrial(start, delay, es).marks.slept.Some? {
        TrialInvHolds(start, delay, es);
        StoreTakesDelay(start, delay, es, threshold);
      }
    } else {
      var es := VerifiedWithoutSleeping(delay, threshold, Evidence(Some(delay), delay, 1, delay));
      assert RecheckedWithin(AfterTrial(0, delay, es), gap);
    }
  }

  /** The two stamps that the code has never show that the store hit the wait:
      a distance of `margin` between them does so exactly when it is so large
      that no trial with it can be verified. */
  lemma VerifiedStoresHitTheWaitIff(delay: nat, threshold: nat, margin: nat)
    ensures PublishedTrialsHitTheWait(delay, threshold, margin) <==> threshold <= delay + margin
  {
    if threshold <= delay + margin {
      forall start, es
        ensures var t := AfterTrial(start, delay, es); TrialVerifies(t, threshold) ==>
          !PublishedBeforeFinish(t, margin) {
        if TrialVerifies(AfterTrial(start, delay, es), threshold) {
          VerifiedEvidenceIsFeasible(start, delay, es, threshold);
        }
      }
    } else {
      var f := delay + margin;
      var es := VerifiedAfterWake(delay, threshold, Evidence(Some(delay), f, 1, f));
      assert PublishedBeforeFinish(AfterTrial(0, delay, es), margin);
    }
  }

  /** Every verified trial whose evidence passes `test` has `property`. */
  ghost predicate Shows(delay: nat, threshold: nat, test: Evidence -> bool, property: Trial -> bool)
  {
    forall start, es ::
      var t := AfterTrial(start, delay, es);
      TrialVerifies(t, threshold) && test(EvidenceOf(t, true)) ==> property(t)
  }

  ghost predicate PassesNone(delay: nat, threshold: nat, test: Evidence -> bool)
  {
    forall start, es ::
      var t := AfterTrial(start, delay, es);
      TrialVerifies(t, threshold) ==> !test(EvidenceOf(t, true))
  }

  /** Whatever a caller computes from the evidence: it shows that the hardware
      wait was executed, or that the store hit it, exactly when it passes no
      verified trial at all. */
  lemma NoTestShowsTheWait(delay: nat, threshold: nat, test: Evidence -> bool)
    ensures Shows(delay, threshold, test, (t: Trial) => t.marks.slept.Some?) <==> PassesNone(delay, threshold, test)
    ensures Shows(delay, threshold, test, HitTheWait) <==> PassesNone(delay, threshold, test)
  {
    if !PassesNone(delay, threshold, test) {
      var start, es :|
        var t := AfterTrial(start, delay, es); TrialVerifies(t, threshold) && test(EvidenceOf(t, true));
      VerifiedEvidenceIsFeasible(start, delay, es, threshold);
      var e := EvidenceOf(AfterTrial(start, delay, es), true);
      var awake := VerifiedWithoutSleeping(delay, threshold, e);
      assert TrialVerifies(AfterTrial(start, delay, awake), threshold);
      var late := VerifiedAfterWake(delay, threshold, e);
      assert TrialVerifies(AfterTrial(start, delay, late), threshold);
    }
  }

  /** A hardware wait that returns within the delay returned before the store. */
  lemma EarlyWakeIsNotTheStore(start: nat, delay: nat, es: seq<TrialEvent>)
    requires var t := AfterTrial(start, delay, es);
      t.stored.Some? && t.marks.woke.Some? && t.marks.handedOff.Some?
        && t.marks.woke.value.time < t.marks.handedOff.value.time + delay
    ensures Precedes(AfterTrial(start, delay, es).marks.woke, AfterTrial(start, delay, es).stored)
  {
    TrialInvHolds(start, delay, es);
  }

  /** A trial can be verified at all exactly when the delay is below the threshold. */
  lemma VerifiedTrialExistsIff(delay: nat, threshold: nat)
    ensures (exists start, es :: TrialVerifies(AfterTrial(start, delay, es), threshold)) <==> delay < threshold
  {
    if delay < threshold {
      var es := VerifiedWithoutSleeping(delay, threshold, Evidence(Some(delay), delay, 1, delay));
      assert TrialVerifies(AfterTrial(0, delay, es), threshold);
    } else {
      forall start, es ensures !TrialVerifies(AfterTrial(start, delay, es), threshold) {
        if TrialVerifies(AfterTrial(start, delay, es), threshold) {
          StoreTakesDelay(start, delay, es, threshold);
        }
      }
    }
  }

  // ------------------------------------------------------------------ the loop

  datatype PreflightFailure = WaitDidNotBlock | Inconclusive | StoreWakeNotObserved

  datatype Report = Report(attempts: nat, verified: nat, baseline: nat)

  datatype Conclusion = Success(report: Report) | Failure(reason: PreflightFailure)

  datatype Counters = Counters(attempts: nat, overlaps: nat, verified: nat)

  /** The middle of the sorted baselines. */
  function Median(baselines: seq<nat>): nat
    requires baselines != []
  {
    SortedOfSorts(baselines);
    assert |multiset(SortedOf(baselines))| == |SortedOf(baselines)| && |multiset(baselines)| == |baselines|;
    SortedOf(baselines)[|baselines| / 2]
  }

  function WakeThreshold(baseline: nat): nat { baseline * 3 / 4 }

  function ProducerDelay(baseline: nat): nat { Min(Max(baseline / 16, MIN_DELAY), MAX_DELAY) }

  /** The loop's counters after one more trial. */
  function CountTrial(c: Counters, e: Evidence, threshold: nat): Counters
  {
    Counters(c.attempts + 1, c.overlaps + (if Overlapped(e) then 1 else 0),
      c.verified + (if Verified(e, threshold) then 1 else 0))
  }

  /** The counters with which the loop ends, from counters `c`. */
  function CountTrials(trials: seq<Evidence>, threshold: nat, c: Counters): Counters
    requires c.attempts <= |trials|
    decreases |trials| - c.attempts
  {
    if c.attempts == |trials| || c.verified >= REQUIRED_OBSERVATIONS then c
    else CountTrials(trials, threshold, CountTrial(c, trials[c.attempts], threshold))
  }

  /** `conclude_preflight` */
  function Conclude(c: Counters, baseline: nat): Conclusion
  {
    if c.overlaps == 0 then Failure(Inconclusive)
    else if c.verified < REQUIRED_OBSERVATIONS then Failure(StoreWakeNotObserved)
    else Success(Report(c.attempts, c.verified, baseline))
  }

  /** What the preflight concludes from its measurements. */
  function PreflightResult(baselines: seq<nat>, trials: seq<Evidence>): Conclusion
    requires baselines != []
  {
    var baseline := Median(baselines);
    if baseline < MIN_BLOCK then Failure(WaitDidNotBlock)
    else Conclude(CountTrials(trials, WakeThreshold(baseline), Counters(0, 0, 0)), baseline)
  }

  /** `functional_preflight` on the measured baselines and the evidence its
      trials give. */
  method FunctionalPreflight(baselines: seq<nat>, trials: seq<Evidence>) returns (c: Conclusion)
    requires |baselines| == BASELINE_ATTEMPTS && |trials| == STORE_ATTEMPTS
    ensures c == PreflightResult(baselines, trials)
  {
    var buffer := new nat[BASELINE_ATTEMPTS](i requires 0 <= i < BASELINE_ATTEMPTS => baselines[i]);
    assert buffer[..] == baselines;
    SortInPlace(buffer);
    AnySortIsSortedOf(baselines, buffer[..]);
    var baseline := buffer[BASELINE_ATTEMPTS / 2];
    if baseline < MIN_BLOCK {
      return Failure(WaitDidNotBlock);
    }
    var threshold := WakeThreshold(baseline);
    var attempts, overlaps, verified := 0, 0, 0;
    while attempts < STORE_ATTEMPTS
      invariant attempts <= STORE_ATTEMPTS && verified < REQUIRED_OBSERVATIONS
      invariant CountTrials(trials, threshold, Counters(attempts, overlaps, verified))
             == CountTrials(trials, threshold, Counters(0, 0, 0))
    {
      var evidence := trials[attempts];
      attempts := attempts + 1;
      if Overlapped(evidence) {
        overlaps := overlaps + 1;
      }
      if Verified(evidence, threshold) {
        verified := verified + 1;
        if verified >= REQUIRED_OBSERVATIONS {
          break;
        }
      }
    }
    c := Conclude(Counters(attempts, overlaps, verified), baseline);
  }

  /** How many of the trials overlapped, and how many verified. */
  function OverlapCount(trials: seq<Evidence>): nat
  {
    if trials == [] then 0
    else OverlapCount(trials[..|trials| - 1]) + if Overlapped(trials[|trials| - 1]) then 1 else 0
  }

  function VerifiedCount(trials: seq<Evidence>, threshold: nat): nat
  {
    if trials == [] then 0
    else VerifiedCount(trials[..|trials| - 1], threshold) + if Verified(trials[|trials| - 1], threshold) then 1 else 0
  }

  lemma {:induction false} CountsAreOrdered(trials: seq<Evidence>, threshold: nat)
    ensures VerifiedCount(trials, threshold) <= OverlapCount(trials) <= |trials|
  {
    if trials == [] {
    } else {
      CountsAreOrdered(trials[..|trials| - 1], threshold);
    }
  }

  lemma {:induction false} CountsGrow(trials: seq<Evidence>, threshold: nat, n: nat)
    requires n <= |trials|
    ensures VerifiedCount(trials[..n], threshold) <= VerifiedCount(trials, threshold)
    ensures OverlapCount(trials[..n]) <= OverlapCount(trials)
    decreases |trials|
  {
    if n < |trials| {
      var front := trials[..|trials| - 1];
      CountsGrow(front, threshold, n);
      assert front[..n] == trials[..n];
    } else {
      assert trials[..n] == trials;
    }
  }

  lemma {:induction false} VerifiedWitness(trials: seq<Evidence>, threshold: nat)
    requires VerifiedCount(trials, threshold) >= 1
    ensures exists i :: 0 <= i < |trials| && Verified(trials[i], threshold)
  {
    var n := |trials| - 1;
    if Verified(trials[n], threshold) {
    } else {
      VerifiedWitness(trials[..n], threshold);
      var i :| 0 <= i < n && Verified(trials[..n][i], threshold);
      assert Verified(trials[i], threshold);
    }
  }

  lemma {:induction false} TwoVerifiedWitnesses(trials: seq<Evidence>, threshold: nat)
    requires VerifiedCount(trials, threshold) >= 2
    ensures exists i, j :: 0 <= i < j < |trials| && Verified(trials[i], threshold) && Verified(trials[j], threshold)
  {
    var n := |trials| - 1;
    if Verified(trials[n], threshold) {
      VerifiedWitness(trials[..n], threshold);
      var i :| 0 <= i < n && Verified(trials[..n][i], threshold);
      assert Verified(trials[i], threshold);
    } else {
      TwoVerifiedWitnesses(trials[..n], threshold);
      var i, j :| 0 <= i < j < n && Verified(trials[..n][i], threshold) && Verified(trials[..n][j], threshold);
      assert Verified(trials[i], threshold) && Verified(trials[j], threshold);
    }
  }

  /** The report counts the trials up to and including the second verified one. */
  ghost predicate Earned(report: Report, trials: seq<Evidence>)
  {
    var threshold := WakeThreshold(report.baseline);
    0 < report.attempts <= |trials| && report.verified == REQUIRED_OBSERVATIONS
    && VerifiedCount(trials[..report.attempts], threshold) == REQUIRED_OBSERVATIONS
    && VerifiedCount(trials[..report.attempts - 1], threshold) < REQUIRED_OBSERVATIONS
    && REQUIRED_OBSERVATIONS <= OverlapCount(trials[..report.attempts]) <= report.attempts
    && report.baseline >= MIN_BLOCK
  }

  /** The counters count the trials so far, and the loop has not passed the second verified one. */
  ghost predicate Counted(trials: seq<Evidence>, threshold: nat, c: Counters)
  {
    var n := c.attempts;
    n <= |trials| && c.overlaps == OverlapCount(trials[..n]) && c.verified == VerifiedCount(trials[..n], threshold)
    && c.verified <= REQUIRED_OBSERVATIONS
    && (c.verified == REQUIRED_OBSERVATIONS ==>
      n > 0 && VerifiedCount(trials[..n - 1], threshold) < REQUIRED_OBSERVATIONS)
  }

  lemma {:induction false} LoopCounts(trials: seq<Evidence>, threshold: nat, c: Counters)
    requires Counted(trials, threshold, c)
    ensures var r := CountTrials(trials, threshold, c);
      Counted(trials, threshold, r) && (r.attempts == |trials| || r.verified == REQUIRED_OBSERVATIONS)
    decreases |trials| - c.attempts
  {
    var n := c.attempts;
    if n == |trials| || c.verified >= REQUIRED_OBSERVATIONS {
    } else {
      assert trials[..n + 1][..n] == trials[..n];
      LoopCounts(trials, threshold, CountTrial(c, trials[n], threshold));
    }
  }

  /** Success exactly when the baseline blocks and two trials verify, and the
      report is then earned; Inconclusive exactly when no trial overlaps. */
  lemma PreflightResultIsEarned(baselines: seq<nat>, trials: seq<Evidence>)
    requires baselines != []
    ensures var c, baseline := PreflightResult(baselines, trials), Median(baselines);
      (c.Success? <==> baseline >= MIN_BLOCK && VerifiedCount(trials, WakeThreshold(baseline)) >= REQUIRED_OBSERVATIONS)
      && (c.Success? ==> Earned(c.report, trials) && c.report.baseline == baseline)
      && (c == Failure(WaitDidNotBlock) <==> baseline < MIN_BLOCK)
      && (c == Failure(Inconclusive) <==> baseline >= MIN_BLOCK && OverlapCount(trials) == 0)
  {
    var threshold := WakeThreshold(Median(baselines));
    LoopCounts(trials, threshold, Counters(0, 0, 0));
    var r := CountTrials(trials, threshold, Counters(0, 0, 0));
    CountsAreOrdered(trials, threshold);
    CountsAreOrdered(trials[..r.attempts], threshold);
    CountsGrow(trials, threshold, r.attempts);
    assert trials[..|trials|] == trials;
  }

  // ------------------------------------------------------- trials and the report

  datatype TrialRun = TrialRun(start: nat, events: seq<TrialEvent>, received: bool)

  /** One run of the probe: five baselines and the runs of its trials. */
  datatype Work = Work(baselines: seq<nat>, runs: seq<TrialRun>)

  ghost function TrialOf(w: Work, i: nat): Trial
    requires w.baselines != [] && i < |w.runs|
  {
    AfterTrial(w.runs[i].start, ProducerDelay(Median(w.baselines)), w.runs[i].events)
  }

  ghost predicate Performed(w: Work)
  {
    |w.baselines| == BASELINE_ATTEMPTS && |w.runs| == STORE_ATTEMPTS
    && forall i :: 0 <= i < |w.runs| ==> Completed(TrialOf(w, i))
  }

  ghost function EvidenceFrom(w: Work): seq<Evidence>
    requires Performed(w)
  {
    seq(|w.runs|, i requires 0 <= i < |w.runs| => EvidenceOf(TrialOf(w, i), w.runs[i].received))
  }

  ghost function ConclusionOf(w: Work): Conclusion
    requires Performed(w)
  {
    PreflightResult(w.baselines, EvidenceFrom(w))
  }

  /** Two different trials of the work stored while probing. */
  ghost predicate TwoStores(w: Work, attempts: nat)
    requires w.baselines != []
  {
    exists i, j ::
      0 <= i < j < attempts <= |w.runs| && StoredWhileProbing(TrialOf(w, i)) && StoredWhileProbing(TrialOf(w, j))
  }

  lemma VerifiedRun(w: Work, i: nat)
    requires Performed(w) && i < |w.runs| && Verified(EvidenceFrom(w)[i], WakeThreshold(Median(w.baselines)))
    ensures StoredWhileProbing(TrialOf(w, i)) && ProducerDelay(Median(w.baselines)) < WakeThreshold(Median(w.baselines))
  {
    var run, delay, threshold := w.runs[i], ProducerDelay(Median(w.baselines)), WakeThreshold(Median(w.baselines));
    VerifiedStoreIsWhileProbing(run.start, delay, run.events, threshold);
    StoreTakesDelay(run.start, delay, run.events, threshold);
  }

  /** Behind every success stand an earned report, two trials that stored while
      probing, and a baseline of at least 1335 ns. */
  lemma SuccessIsEarned(w: Work)
    requires Performed(w) && ConclusionOf(w).Success?
    ensures var report := ConclusionOf(w).report;
      Earned(report, EvidenceFrom(w)) && report.attempts <= STORE_ATTEMPTS && TwoStores(w, report.attempts)
        && report.baseline >= 1335
  {
    var trials, report := EvidenceFrom(w), ConclusionOf(w).report;
    PreflightResultIsEarned(w.baselines, trials);
    var seen, threshold := trials[..report.attempts], WakeThreshold(report.baseline);
    TwoVerifiedWitnesses(seen, threshold);
    var i, j :| 0 <= i < j < |seen| && Verified(seen[i], threshold) && Verified(seen[j], threshold);
    VerifiedRun(w, i);
    VerifiedRun(w, j);
  }

  lemma {:induction false} AllVerified(trials: seq<Evidence>, threshold: nat)
    requires forall i :: 0 <= i < |trials| ==> Verified(trials[i], threshold)
    ensures VerifiedCount(trials, threshold) == |trials|
  {
    if trials == [] {
    } else {
      AllVerified(trials[..|trials| - 1], threshold);
    }
  }

  lemma MedianOfEqual(baselines: seq<nat>, baseline: nat)
    requires baselines != [] && forall i :: 0 <= i < |baselines| ==> baselines[i] == baseline
    ensures Median(baselines) == baseline
  {
    assert Sorted(baselines);
    AnySortIsSortedOf(baselines, baselines);
  }

  /** For every baseline from 1335 ns on, a successful preflight none of whose
      trials executed the hardware wait, each rechecking one delay after its handoff. */
  lemma SuccessWithoutSleeping(baseline: nat) returns (w: Work)
    requires baseline >= 1335
    ensures Performed(w) && Median(w.baselines) == baseline && ConclusionOf(w).Success?
    ensures forall i :: 0 <= i < |w.runs| ==>
      TrialOf(w, i).marks.slept.None? && RecheckedWithin(TrialOf(w, i), ProducerDelay(baseline))
  {
    var delay, threshold := ProducerDelay(baseline), WakeThreshold(baseline);
    var es := VerifiedWithoutSleeping(delay, threshold, Evidence(Some(delay), delay, 1, delay));
    var run := TrialRun(0, es, true);
    w := Work(seq(BASELINE_ATTEMPTS, _ => baseline), seq(STORE_ATTEMPTS, _ => run));
    MedianOfEqual(w.baselines, baseline);
    assert forall i :: 0 <= i < |w.runs| ==> TrialOf(w, i) == AfterTrial(0, delay, es);
    AllVerified(EvidenceFrom(w), threshold);
    PreflightResultIsEarned(w.baselines, EvidenceFrom(w));
  }

  /** Baselines from 1000 to 1334 ns pass the blocking test, but no preflight
      with such a baseline can succeed: the helper's delay of at least 1 us uses
      up the wake threshold. From 1335 ns on, success is possible. */
  lemma PreflightCanSucceedIff(baseline: nat)
    ensures (exists w :: Performed(w) && Median(w.baselines) == baseline && ConclusionOf(w).Success?) <==>
      baseline >= 1335
  {
    if baseline >= 1335 {
      var w := SuccessWithoutSleeping(baseline);
    } else {
      forall w | Performed(w) && Median(w.baselines) == baseline ensures !ConclusionOf(w).Success? {
        if ConclusionOf(w).Success? {
          SuccessIsEarned(w);
          PreflightResultIsEarned(w.baselines, EvidenceFrom(w));
        }
      }
    }
  }

  /** Every trial that rechecked did so within `gap` of its handoff. */
  ghost predicate Prompt(w: Work, gap: nat)
    requires w.baselines != []
  {
    forall i :: 0 <= i < |w.runs| && TrialOf(w, i).marks.rechecked.Some? ==> RecheckedWithin(TrialOf(w, i), gap)
  }

  ghost predicate VerifiedIn(w: Work, i: nat)
  {
    Performed(w) && i < |w.runs| && Verified(EvidenceFrom(w)[i], WakeThreshold(Median(w.baselines)))
  }

  /** Some verified trial of the report executed the hardware wait. */
  ghost predicate Slept(w: Work, attempts: nat)
  {
    exists i :: 0 <= i < attempts && VerifiedIn(w, i) && TrialOf(w, i).marks.slept.Some?
  }

  /** Some verified trial of the report stored before its hardware wait returned. */
  ghost predicate HitSomeWait(w: Work, attempts: nat)
  {
    exists i :: 0 <= i < attempts && VerifiedIn(w, i) && HitTheWait(TrialOf(w, i))
  }

  ghost predicate PromptSuccessSleeps(baseline: nat, gap: nat)
  {
    forall w ::
      Performed(w) && Median(w.baselines) == baseline && Prompt(w, gap) && ConclusionOf(w).Success? ==>
        Slept(w, ConclusionOf(w).report.attempts)
  }

  lemma PromptVerifiedRunSlept(w: Work, gap: nat, i: nat)
    requires Performed(w) && Prompt(w, gap) && gap < ProducerDelay(Median(w.baselines)) && i < |w.runs|
    requires Verified(EvidenceFrom(w)[i], WakeThreshold(Median(w.baselines)))
    ensures StoredWhileProbing(TrialOf(w, i)) && TrialOf(w, i).marks.slept.Some?
  {
    var run, delay, threshold := w.runs[i], ProducerDelay(Median(w.baselines)), WakeThreshold(Median(w.baselines));
    VerifiedRun(w, i);
    TrialInvHolds(run.start, delay, run.events);
    VerifiedTrialsSleepIff(delay, threshold, gap);
  }

  /** A successful preflight whose trials recheck within `gap` shows that the
      hardware wait was executed, exactly when `gap` is below the helper's delay
      (or the baseline admits no success). */
  lemma SuccessShowsTheWaitIff(baseline: nat, gap: nat)
    ensures PromptSuccessSleeps(baseline, gap) <==> gap < ProducerDelay(baseline) || baseline < 1335
  {
    if baseline < 1335 {
      PreflightCanSucceedIff(baseline);
    } else if gap < ProducerDelay(baseline) {
      forall w | Performed(w) && Median(w.baselines) == baseline && Prompt(w, gap) && ConclusionOf(w).Success?
        ensures Slept(w, ConclusionOf(w).report.attempts) {
        var trials, report := EvidenceFrom(w), ConclusionOf(w).report;
        PreflightResultIsEarned(w.baselines, trials);
        VerifiedWitness(trials[..report.attempts], WakeThreshold(baseline));
        var i :| 0 <= i < report.attempts && Verified(trials[..report.attempts][i], WakeThreshold(baseline));
        PromptVerifiedRunSlept(w, gap, i);
        assert VerifiedIn(w, i);
      }
    } else {
      var w := SuccessWithoutSleeping(baseline);
      assert Prompt(w, gap);
    }
  }

  // --------------------------------------------- what the evidence cannot show

  /** The same trial evidence from a run that missed the hardware wait: not
      executed if `awake`, otherwise returned before the store. */
  lemma MissedRun(w: Work, i: nat, awake: bool) returns (run: TrialRun)
    requires VerifiedIn(w, i)
    ensures var t := AfterTrial(run.start, ProducerDelay(Median(w.baselines)), run.events);
      Completed(t) && EvidenceOf(t, run.received) == EvidenceFrom(w)[i]
      && (if awake then t.marks.slept.None? && t.marks.woke.None? else Precedes(t.marks.woke, t.stored))
  {
    var seen, delay, threshold := w.runs[i], ProducerDelay(Median(w.baselines)), WakeThreshold(Median(w.baselines));
    VerifiedEvidenceIsFeasible(seen.start, delay, seen.events, threshold);
    var e := EvidenceFrom(w)[i];
    var es;
    if awake {
      es := VerifiedWithoutSleeping(delay, threshold, e);
    } else {
      es := VerifiedAfterWake(delay, threshold, e);
    }
    run := TrialRun(seen.start, es, true);
    TrialInvHolds(seen.start, delay, es);
  }

  /** For every probe a probe with the same baselines and evidence, so with the
      same conclusion, whose verified trials all missed the hardware wait. */
  lemma {:induction false} MissedProbe(w: Work, awake: bool, n: nat) returns (w': Work)
    requires Performed(w) && n <= |w.runs|
    ensures Performed(w') && w'.baselines == w.baselines && EvidenceFrom(w') == EvidenceFrom(w)
    ensures forall i :: 0 <= i < n && VerifiedIn(w', i) ==>
      var t := TrialOf(w', i);
      if awake then t.marks.slept.None? && t.marks.woke.None? else Precedes(t.marks.woke, t.stored)
  {
    if n == 0 {
      w' := w;
    } else {
      w' := MissedProbe(w, awake, n - 1);
      if VerifiedIn(w', n - 1) {
        var before := w';
        var run := MissedRun(before, n - 1, awake);
        w' := Work(w.baselines, before.runs[n - 1 := run]);
        assert forall i :: 0 <= i < |w'.runs| && i != n - 1 ==> TrialOf(w', i) == TrialOf(before, i);
        assert EvidenceFrom(w') == EvidenceFrom(before);
      }
    }
  }

  /** Every successful probe that passes `test` has `property`. */
  ghost predicate ProbeShows(test: (seq<nat>, seq<Evidence>) -> bool, property: (Work, nat) -> bool)
  {
    forall w ::
      Performed(w) && ConclusionOf(w).Success? && test(w.baselines, EvidenceFrom(w)) ==>
        property(w, ConclusionOf(w).report.attempts)
  }

  ghost predicate PassesNoSuccess(test: (seq<nat>, seq<Evidence>) -> bool)
  {
    forall w :: Performed(w) && ConclusionOf(w).Success? ==> !test(w.baselines, EvidenceFrom(w))
  }

  /** No test of the baselines and the evidence of a whole preflight shows that
      the hardware wait was executed, or that a store hit it, unless it passes
      no successful preflight at all. */
  lemma NoPreflightShowsTheWait(test: (seq<nat>, seq<Evidence>) -> bool)
    ensures ProbeShows(test, Slept) <==> PassesNoSuccess(test)
    ensures ProbeShows(test, HitSomeWait) <==> PassesNoSuccess(test)
  {
    if !PassesNoSuccess(test) {
      var w :| Performed(w) && ConclusionOf(w).Success? && test(w.baselines, EvidenceFrom(w));
      var awake := MissedProbe(w, true, |w.runs|);
      assert !Slept(awake, ConclusionOf(awake).report.attempts);
      var late := MissedProbe(w, false, |w.runs|);
      assert !HitSomeWait(late, ConclusionOf(late).report.attempts);
    }
  }

  // ------------------------------------------------------------------ the cell

  datatype Verdict =
    | Prepared(report: Report)
    | PreflightFailed(reason: PreflightFailure)
    | Unsupported
    | PreflightPanicked

  /** What one run of the initializer does. */
  datatype Attempt = Completes(work: Work) | Rejects | Panics

  ghost function VerdictOf(a: Attempt): Verdict
    requires a.Completes? ==> Performed(a.work)
  {
    match a
    case Completes(work) =>
      var c := ConclusionOf(work);
      if c.Success? then Prepared(c.report) else PreflightFailed(c.reason)
    case Rejects => Unsupported
    case Panics => PreflightPanicked
  }

  datatype Slot = Empty | Initializing(caller: nat) | Set(verdict: Verdict)

  /** What `HardwareWait::new` and `preflight` have returned so far, latest last. */
  datatype Answer =
    | Required
    | Given(verdict: Verdict)

  /** `catches`: the initializer runs inside `catch_unwind`, as shipped. */
  datatype Process = Process(catches: bool, slot: Slot, initializations: nat, preflights: seq<Verdict>,
    news: seq<Answer>)

  datatype CallEvent =
    | EntersPreflight(caller: nat)               // `get_or_init` finds the cell empty, or blocks
    | FinishesInit(caller: nat, attempt: Attempt)
    | ReturnsFromPreflight(caller: nat)
    | CallsNew

  ghost function CallStep(p: Process, e: CallEvent): Process
  {
    match e
    case EntersPreflight(caller) =>
      if p.slot.Empty? then p.(slot := Initializing(caller), initializations := p.initializations + 1) else p
    case FinishesInit(caller, attempt) =>
      if p.slot != Initializing(caller) || (attempt.Completes? && !Performed(attempt.work)) then p
      else if attempt.Panics? && !p.catches then p.(slot := Empty)
      else p.(slot := Set(VerdictOf(attempt)))
    case ReturnsFromPreflight(_) => if p.slot.Set? then p.(preflights := p.preflights + [p.slot.verdict]) else p
    case CallsNew => p.(news := p.news + [if p.slot.Set? then Given(p.slot.verdict) else Required])
  }

  ghost function AfterCalls(catches: bool, es: seq<CallEvent>): Process
  {
    Exec(CallStep, Process(catches, Empty, 0, [], []), es)
  }

  predicate OneVerdict(p: Process)
  {
    p.initializations <= 1
    && (forall i :: 0 <= i < |p.preflights| ==> p.slot == Set(p.preflights[i]))
    && (forall i :: 0 <= i < |p.news| && p.news[i].Given? ==> p.slot == Set(p.news[i].verdict))
    && (forall i, j :: 0 <= i <= j < |p.news| && p.news[i].Given? ==> p.news[j] == p.news[i])
  }

  predicate CellInv(p: Process)
  {
    p.catches && OneVerdict(p) && (p.slot.Empty? <==> p.initializations == 0)
  }

  lemma OneVerdictAlways(es: seq<CallEvent>)
    ensures CellInv(AfterCalls(true, es))
  {
    InvariantHolds(CallStep, CellInv, Process(true, Empty, 0, [], []), es);
  }

  /** Once set, the verdict is the same after every further step. */
  lemma VerdictNeverChanges(es: seq<CallEvent>, later: seq<CallEvent>)
    requires AfterCalls(true, es).slot.Set?
    ensures AfterCalls(true, es + later).slot == AfterCalls(true, es).slot
    ensures AfterCalls(true, es + later).initializations == 1
  {
    var p := AfterCalls(true, es);
    OneVerdictAlways(es);
    var inv := (q: Process) => q.slot == p.slot && q.initializations == 1;
    ExecConcat(CallStep, Process(true, Empty, 0, [], []), es, later);
    InvariantHolds(CallStep, inv, p, later);
  }

  /** Without the panic guard the initializer can run twice. */
  lemma UncaughtPanicRunsTwice() returns (es: seq<CallEvent>)
    ensures !OneVerdict(AfterCalls(false, es))
  {
    var p0 := Process(false, Empty, 0, [], []);
    var a, b := EntersPreflight(0), FinishesInit(0, Panics);
    ExecSnoc(CallStep, p0, [], a);
    ExecSnoc(CallStep, p0, [a], b);
    ExecSnoc(CallStep, p0, [a, b], a);
    assert [] + [a] == [a] && [a] + [b] == [a, b];
    es := [a, b] + [a];
  }

  /** For any number of callers the initializer runs at most once with a single
      verdict, exactly because a panic is caught inside it. */
  lemma RunsOnceIffPanicsAreCaught(catches: bool)
    ensures (forall es :: OneVerdict(AfterCalls(catches, es))) <==> catches
  {
    if catches {
      forall es ensures OneVerdict(AfterCalls(catches, es)) {
        OneVerdictAlways(es);
      }
    } else {
      var es := UncaughtPanicRunsTwice();
    }
  }

  /** The event ended an initializer whose own trials earned the report, with
      2 = verified <= overlaps <= attempts <= 16 and two stores while probing. */
  ghost predicate Earns(e: CallEvent, report: Report)
  {
    e.FinishesInit? && e.attempt.Completes? && Performed(e.attempt.work)
    && ConclusionOf(e.attempt.work) == Success(report)
    && Earned(report, EvidenceFrom(e.attempt.work)) && report.attempts <= STORE_ATTEMPTS
    && TwoStores(e.attempt.work, report.attempts) && report.baseline >= 1335
  }

  ghost predicate EarnedIn(es: seq<CallEvent>, report: Report)
  {
    exists i :: 0 <= i < |es| && Earns(es[i], report)
  }

  /** A slot that becomes prepared does so by an initializer that earned the report. */
  lemma SlotSetByInit(p: Process, e: CallEvent)
    requires var p' := CallStep(p, e); p'.slot != p.slot && p'.slot.Set? && p'.slot.verdict.Prepared?
    ensures Earns(e, CallStep(p, e).slot.verdict.report)
  {
    SuccessIsEarned(e.attempt.work);
  }

  lemma EarnedInGrows(es: seq<CallEvent>, n: nat, report: Report)
    requires n <= |es| && EarnedIn(es[..n], report)
    ensures EarnedIn(es, report)
  {
    var i :| 0 <= i < n && Earns(es[..n][i], report);
    assert Earns(es[i], report);
  }

  lemma {:induction false} PreparedIsEarned(es: seq<CallEvent>)
    ensures var p := AfterCalls(true, es);
      p.slot.Set? && p.slot.verdict.Prepared? ==> EarnedIn(es, p.slot.verdict.report)
    decreases |es|
  {
    if es == [] {
    } else {
      var n := |es| - 1;
      PreparedIsEarned(es[..n]);
      var p, p' := AfterCalls(true, es[..n]), AfterCalls(true, es);
      if p'.slot.Set? && p'.slot.verdict.Prepared? {
        if p.slot == p'.slot {
          EarnedInGrows(es, n, p.slot.verdict.report);
        } else {
          SlotSetByInit(p, es[n]);
        }
      }
    }
  }

  /** A strategy can be constructed, and `preflight` reports success, only after
      an initializer of this very process whose own trials earned the report. */
  lemma StrategyNeedsEarnedReport(es: seq<CallEvent>, report: Report)
    requires var p := AfterCalls(true, es); Given(Prepared(report)) in p.news || Prepared(report) in p.preflights
    ensures EarnedIn(es, report)
  {
    OneVerdictAlways(es);
    PreparedIsEarned(es);
  }
}
