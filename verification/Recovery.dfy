/** Benchctl as a crash-recovery protocol over its durable state.

    One process at a time works under the cpuidle lock: a `run` or a `recover`.
    It may crash between any two of its steps, and any number of runs, retries,
    crashes, recoveries and reboots may follow one another. Journals, outcome
    and status records are durable and replaced atomically; cpuidle bits survive
    a crash but not a reboot. A session starts only while no workload group may
    be running, which is the guarantee of module Supervision.
*/
module Recovery {
  import opened Machine
  import opened Runs

  datatype Entry = Entry(path: nat, original: bool, desired: bool)

  datatype Stage =
    | Prepared | Applied | WorkloadStarted | WorkloadFinished | Draining
    | Restoring | Restored | Recoverable | RestoreConflict

  datatype Outcome = Success | Failed(status: nat) | TimedOut | Cancelled

  datatype Journal = Journal(
    request: nat, boot: nat, entries: seq<Entry>, outcome: Option<Outcome>, transitions: seq<Stage>)

  /** The runtime directory: the supervisor's `status.json` and the coordinator's `outcome.json`. */
  datatype Runtime = Runtime(status: Option<Outcome>, outcome: Option<Outcome>)

  datatype Process =
    | NoProcess
    | Applying(op: nat, next: nat)
    | MarkingStarted(op: nat)
    | CreatingRuntime(op: nat)
    | Supervising(op: nat)                        // GO not yet published
    | Running(op: nat)                            // GO published, no outcome decided
    | OutcomeStored(op: nat, outcome: Outcome)    // `outcome.json` written, group draining
    | Erring(op: nat)                             // `coordinate` failed, reconcile next
    | Erred(op: nat)                              // store Recoverable next
    | Reconciling(op: nat)                        // `recover`: reconcile next
    | Checking(op: nat, next: nat)                // `restore`: first pass
    | Writing(op: nat, next: nat)                 // `restore`: conditional writes
    | Verifying(op: nat, next: nat)               // `restore`: final pass
    | Cleaning(op: nat)                           // remove the runtime directory

  datatype State = State(
    outsideWriter: bool,
    boot: nat,
    pristine: map<nat, bool>,   // the bits at the last boot, a specification variable
    bits: map<nat, bool>,
    journals: map<nat, Journal>,
    runtimes: map<nat, Runtime>,
    released: set<nat>,         // operations whose workload group may be running
    starts: multiset<nat>,      // one occurrence per published GO
    process: Process)

  datatype Event =
    | StartRun(op: nat, request: nat, entries: seq<Entry>)
    | StartRecover(op: nat)
    | Proceed                                // the process takes its next step
    | Decide(outcome: Outcome)               // the coordinator stores `outcome.json`
    | Fail                                   // an error return instead of the next step
    | Crash
    | WorkloadExits(op: nat, status: Outcome) // the supervisor stores `status.json`
    | GroupEnds(op: nat)
    | Reboot(bits: map<nat, bool>)
    | OutsideWrite(path: nat, bit: bool)

  function StageOf(j: Journal): Stage
  {
    if j.transitions == [] then Prepared else j.transitions[|j.transitions| - 1]
  }

  predicate Unfinished(s: State, op: nat)
  {
    op in s.journals && StageOf(s.journals[op]) != Restored
  }

  function Start(outsideWriter: bool, bits: map<nat, bool>): State
  {
    State(outsideWriter, 0, bits, bits, map[], map[], {}, multiset{}, NoProcess)
  }

  function SetJournal(s: State, op: nat, j: Journal, p: Process): (r: State)
    ensures r.pristine == s.pristine && r.boot == s.boot && r.outsideWriter == s.outsideWriter
  {
    s.(journals := s.journals[op := j], process := p)
  }

  function Transition(j: Journal, stages: seq<Stage>): Journal
  {
    j.(transitions := j.transitions + stages)
  }

  /** `recover_outcome`: the outcome record wins over the status record. */
  function RecoveredOutcome(s: State, op: nat): Option<Outcome>
  {
    if op !in s.runtimes then None
    else if s.runtimes[op].outcome.Some? then s.runtimes[op].outcome
    else s.runtimes[op].status
  }

  /** `reconcile_runtime_outcome` */
  function Reconcile(s: State, op: nat): Journal
    requires op in s.journals
  {
    var j := s.journals[op];
    if j.outcome == None then j.(outcome := RecoveredOutcome(s, op)) else j
  }

  /** What `inventory` records: distinct known paths with their present bits. */
  predicate Snapshot(s: State, entries: seq<Entry>)
  {
    && (forall i :: 0 <= i < |entries| ==> entries[i].path in s.bits && entries[i].original == s.bits[entries[i].path])
    && Distinct(entries)
  }

  predicate Distinct(entries: seq<Entry>)
  {
    forall i, k :: 0 <= i < k < |entries| ==> entries[i].path != entries[k].path
  }

  datatype Reply = Conflict | RecoveryRequired | Replayed(outcome: Option<Outcome>) | Accepted

  /** How a `run` request for `op` is answered. */
  function ReplyTo(s: State, op: nat, request: nat): Reply
  {
    if op in s.journals then
      if s.journals[op].request != request then Conflict
      else if StageOf(s.journals[op]) == Restored then Replayed(s.journals[op].outcome)
      else RecoveryRequired
    else if exists other :: other in s.journals && Unfinished(s, other) then RecoveryRequired
    else Accepted
  }

  function Conflicts(s: State): (r: State)
    requires s.process != NoProcess && s.process.op in s.journals
    ensures r.pristine == s.pristine && r.boot == s.boot && r.outsideWriter == s.outsideWriter
  {
    SetJournal(s, s.process.op, Transition(s.journals[s.process.op], [RestoreConflict]), NoProcess)
  }

  predicate Restores(p: Process)
  {
    p.Checking? || p.Writing? || p.Verifying?
  }

  /** `restore` at one entry: the check, the conditional write, or the final comparison. */
  function RestoreEntry(s: State, e: Entry): (r: State)
    requires Restores(s.process) && s.process.op in s.journals
    ensures r.pristine == s.pristine && r.boot == s.boot && r.outsideWriter == s.outsideWriter
  {
    if e.path !in s.bits then s.(process := NoProcess)
    else
      var current := s.bits[e.path];
      match s.process
      case Checking(op, i) =>
        if current != e.original && current != e.desired then Conflicts(s) else s.(process := Checking(op, i + 1))
      case Writing(op, i) =>
        if current != e.original && current != e.desired then Conflicts(s)
        else if current == e.desired && current != e.original then
          s.(bits := s.bits[e.path := e.original], process := Writing(op, i + 1))
        else s.(process := Writing(op, i + 1))
      case Verifying(op, i) =>
        if current != e.original then Conflicts(s) else s.(process := Verifying(op, i + 1))
  }

  /** The end of each pass of `restore`. */
  function RestorePassEnds(s: State): (r: State)
    requires Restores(s.process) && s.process.op in s.journals
    ensures r.pristine == s.pristine && r.boot == s.boot && r.outsideWriter == s.outsideWriter
  {
    var j := s.journals[s.process.op];
    match s.process
    case Checking(op, _) => SetJournal(s, op, Transition(j, [Restoring]), Writing(op, 0))
    case Writing(op, _) => s.(process := Verifying(op, 0))
    case Verifying(op, _) => SetJournal(s, op, Transition(j, [Restored]), Cleaning(op))
  }

  function RestoreStep(s: State): (r: State)
    requires Restores(s.process) && s.process.op in s.journals
    ensures r.pristine == s.pristine && r.boot == s.boot && r.outsideWriter == s.outsideWriter
  {
    var j := s.journals[s.process.op];
    if s.process.next < |j.entries| then RestoreEntry(s, j.entries[s.process.next]) else RestorePassEnds(s)
  }

  /** One step of `apply`. */
  function ApplyStep(s: State): (r: State)
    requires s.process.Applying? && s.process.op in s.journals
    ensures r.pristine == s.pristine && r.boot == s.boot && r.outsideWriter == s.outsideWriter
  {
    var Applying(op, i) := s.process;
    var j := s.journals[op];
    if i < |j.entries| then
      var e := j.entries[i];
      if e.path !in s.bits || s.bits[e.path] != e.original then s.(process := Checking(op, 0))
      else s.(bits := s.bits[e.path := e.desired], process := Applying(op, i + 1))
    else SetJournal(s, op, Transition(j, [Applied]), MarkingStarted(op))
  }

  function ProceedStep(s: State): (r: State)
    ensures r.pristine == s.pristine && r.boot == s.boot && r.outsideWriter == s.outsideWriter
  {
    if s.process == NoProcess || s.process.op !in s.journals then s
    else
      var op := s.process.op;
      var j := s.journals[op];
      match s.process
      case Applying(_, _) => ApplyStep(s)
      case MarkingStarted(_) => SetJournal(s, op, Transition(j, [WorkloadStarted]), CreatingRuntime(op))
      case CreatingRuntime(_) =>
        if op in s.runtimes then s.(process := Erring(op))
        else s.(runtimes := s.runtimes[op := Runtime(None, None)], process := Supervising(op))
      case Supervising(_) =>
        s.(released := s.released + {op}, starts := s.starts + multiset{op}, process := Running(op))
      case Running(_) => s
      case OutcomeStored(_, outcome) =>
        if op in s.released then s
        else SetJournal(s, op, Transition(j.(outcome := Some(outcome)), [WorkloadFinished, Draining]), Checking(op, 0))
      case Erring(_) => SetJournal(s, op, Reconcile(s, op), Erred(op))
      case Erred(_) => SetJournal(s, op, Transition(j, [Recoverable]), NoProcess)
      case Reconciling(_) => SetJournal(s, op, Reconcile(s, op), Checking(op, 0))
      case Checking(_, _) => RestoreStep(s)
      case Writing(_, _) => RestoreStep(s)
      case Verifying(_, _) => RestoreStep(s)
      case Cleaning(_) => s.(runtimes := s.runtimes - {op}, process := NoProcess)
  }

  function FailStep(s: State): (r: State)
    ensures r.pristine == s.pristine && r.boot == s.boot && r.outsideWriter == s.outsideWriter
  {
    match s.process
    case Applying(op, _) => s.(process := Checking(op, 0))
    case CreatingRuntime(op) => s.(process := Erring(op))
    case Supervising(op) => s.(process := Erring(op))
    case Running(op) => s.(process := Erring(op))
    case OutcomeStored(op, _) => s.(process := Erring(op))
    case _ => s.(process := NoProcess)
  }

  /** Outcomes the coordinator can decide: the status record's, or a timeout or cancellation. */
  predicate Decidable(s: State, op: nat, outcome: Outcome)
  {
    op in s.runtimes && (outcome.TimedOut? || outcome.Cancelled? || s.runtimes[op].status == Some(outcome))
  }

  function Step(s: State, e: Event): State
  {
    match e
    case StartRun(op, request, entries) =>
      if s.process == NoProcess && s.released == {} && ReplyTo(s, op, request) == Accepted && Snapshot(s, entries) then
        SetJournal(s, op, Journal(request, s.boot, entries, None, [Prepared]), Applying(op, 0))
      else s
    case StartRecover(op) =>
      if s.process == NoProcess && s.released == {} && op in s.journals then
        if StageOf(s.journals[op]) == Restored then s.(process := Cleaning(op))
        else if s.journals[op].boot != s.boot then s
        else s.(process := Reconciling(op))
      else s
    case Proceed => ProceedStep(s)
    case Decide(outcome) =>
      if s.process.Running? && Decidable(s, s.process.op, outcome) then
        var op := s.process.op;
        s.(runtimes := s.runtimes[op := s.runtimes[op].(outcome := Some(outcome))],
          process := OutcomeStored(op, outcome))
      else s
    case Fail => FailStep(s)
    case Crash => s.(process := NoProcess)
    case WorkloadExits(op, status) =>
      if op in s.released && op in s.runtimes && s.runtimes[op].status == None
        && (status.Success? || status.Failed?) then
        s.(runtimes := s.runtimes[op := s.runtimes[op].(status := Some(status))])
      else s
    case GroupEnds(op) => s.(released := s.released - {op})
    case Reboot(bits) =>
      s.(boot := s.boot + 1, bits := bits, pristine := bits, released := {}, process := NoProcess)
    case OutsideWrite(path, bit) =>
      if s.outsideWriter && path in s.bits then s.(bits := s.bits[path := bit]) else s
  }

  ghost function After(outsideWriter: bool, bits: map<nat, bool>, es: seq<Event>): State
  {
    Exec(Step, Start(outsideWriter, bits), es)
  }

  // ---------------------------------------------------------------------
  // Journals, workload starts and outcomes, with any outside writer
  // ---------------------------------------------------------------------

  /** The outcome already on disk for `op`, in the journal or in `outcome.json`. */
  function DurableOutcome(s: State, op: nat): Option<Outcome>
  {
    if op in s.journals && s.journals[op].outcome.Some? then s.journals[op].outcome
    else if op in s.runtimes then s.runtimes[op].outcome
    else None
  }

  predicate BeforeRuntime(p: Process)
  {
    p.Applying? || p.MarkingStarted? || p.CreatingRuntime?
  }

  predicate InRestore(p: Process)
  {
    p.Checking? || p.Writing? || p.Verifying? || p.Cleaning?
  }

  ghost predicate RecordsAgree(s: State, op: nat)
    requires op in s.journals
  {
    var j := s.journals[op];
    op in s.runtimes && s.runtimes[op].outcome.Some? ==>
      && (j.outcome.Some? ==> j.outcome == s.runtimes[op].outcome)
      && (StageOf(j) == Restored || (InRestore(s.process) && s.process.op == op) ==> j.outcome.Some?)
  }

  ghost predicate ProcessOk(s: State)
  {
    var p := s.process;
    p != NoProcess ==>
      && p.op in s.journals
      && (p.Cleaning? <==> StageOf(s.journals[p.op]) == Restored)
      && s.released <= {p.op}
      && (p.Running? || p.OutcomeStored? || p.Erring? || p.Erred? || s.released == {})
      && (BeforeRuntime(p) ==> p.op !in s.runtimes && s.journals[p.op].outcome == None)
      && (BeforeRuntime(p) || p.Supervising? ==> p.op !in s.starts)
      && (p.Supervising? || p.Running? ==>
            p.op in s.runtimes && s.runtimes[p.op].outcome == None && s.journals[p.op].outcome == None)
      && (p.OutcomeStored? ==>
            p.op in s.runtimes && s.runtimes[p.op].outcome == Some(p.outcome) && s.journals[p.op].outcome == None)
  }

  ghost predicate JournalInv(s: State)
  {
    && (forall op :: op in s.runtimes ==> op in s.journals)
    && (forall op :: op in s.released ==> Unfinished(s, op))
    && (forall op :: op in s.starts ==> op in s.journals)
    && (forall op :: s.starts[op] <= 1)
    && (forall a, b :: Unfinished(s, a) && Unfinished(s, b) ==> a == b)
    && (forall op :: op in s.journals ==> RecordsAgree(s, op))
    && ProcessOk(s)
  }

  /** Only the process, the bits or the set of running groups changed. */
  lemma ProcessMoves(s: State, s': State)
    requires JournalInv(s) && ProcessOk(s')
    requires s'.journals == s.journals && s'.runtimes == s.runtimes && s'.starts == s.starts
      && s'.released <= s.released
    requires InRestore(s'.process) ==> RecordsAgree(s', s'.process.op)
    ensures JournalInv(s')
  {
    forall op | op in s'.journals ensures RecordsAgree(s', op) { assert RecordsAgree(s, op); }
    assert forall op :: Unfinished(s', op) <==> Unfinished(s, op);
  }

  /** The process stored its journal. */
  lemma JournalMoves(s: State, j: Journal, p: Process)
    requires JournalInv(s) && s.process != NoProcess && !s.process.Cleaning?
    requires var s' := SetJournal(s, s.process.op, j, p); ProcessOk(s') && RecordsAgree(s', s.process.op)
    requires p != NoProcess ==> p.op == s.process.op
    requires StageOf(j) == Restored ==> s.released == {}
    ensures JournalInv(SetJournal(s, s.process.op, j, p))
  {
    var op, s' := s.process.op, SetJournal(s, s.process.op, j, p);
    forall other | other in s'.journals ensures RecordsAgree(s', other) {
      if other != op { assert RecordsAgree(s, other); }
    }
    assert forall other :: Unfinished(s', other) ==> Unfinished(s, other);
    assert forall other :: other != op && Unfinished(s, other) ==> Unfinished(s', other);
  }

  /** A record of the one unfinished operation's runtime directory was written. */
  lemma RuntimeMoves(s: State, op: nat, r: Runtime, p: Process)
    requires JournalInv(s) && op in s.journals
    requires var s' := s.(runtimes := s.runtimes[op := r], process := p); ProcessOk(s') && RecordsAgree(s', op)
    requires p == s.process || (p != NoProcess && p.op == op)
    ensures JournalInv(s.(runtimes := s.runtimes[op := r], process := p))
  {
    var s' := s.(runtimes := s.runtimes[op := r], process := p);
    forall other | other in s'.journals ensures RecordsAgree(s', other) {
      if other != op { assert RecordsAgree(s, other); }
    }
    assert forall other :: Unfinished(s', other) <==> Unfinished(s, other);
  }

  lemma StageAfter(j: Journal, stages: seq<Stage>)
    requires stages != []
    ensures StageOf(Transition(j, stages)) == stages[|stages| - 1]
  {
  }

  lemma StartRunKeeps(s: State, op: nat, request: nat, entries: seq<Entry>)
    requires JournalInv(s)
    ensures JournalInv(Step(s, StartRun(op, request, entries)))
  {
    var s' := Step(s, StartRun(op, request, entries));
    if s' != s {
      forall other | other in s'.journals ensures RecordsAgree(s', other) {
        if other != op { assert RecordsAgree(s, other); }
      }
      assert forall other :: other != op ==> (Unfinished(s', other) <==> Unfinished(s, other));
    }
  }

  lemma StartRecoverKeeps(s: State, op: nat)
    requires JournalInv(s)
    ensures JournalInv(Step(s, StartRecover(op)))
  {
    var s' := Step(s, StartRecover(op));
    if s' != s {
      assert RecordsAgree(s, op);
      ProcessMoves(s, s');
    }
  }

  /** A step that leaves journals and runtime records alone. */
  ghost predicate Quiet(s: State, s': State)
  {
    && s'.journals == s.journals && s'.runtimes == s.runtimes && s'.starts == s.starts && s'.released <= s.released
    && ProcessOk(s') && (InRestore(s'.process) ==> RecordsAgree(s', s'.process.op))
  }

  /** A step that stores the process's own journal. */
  ghost predicate Stores(s: State, s': State)
  {
    && s.process != NoProcess && !s.process.Cleaning? && s.process.op in s'.journals
    && s' == SetJournal(s, s.process.op, s'.journals[s.process.op], s'.process)
    && ProcessOk(s') && RecordsAgree(s', s.process.op)
    && (s'.process != NoProcess ==> s'.process.op == s.process.op)
    && (StageOf(s'.journals[s.process.op]) == Restored ==> s.released == {})
  }

  lemma QuietOrStoresKeeps(s: State, s': State)
    requires JournalInv(s) && (Quiet(s, s') || Stores(s, s'))
    ensures JournalInv(s')
  {
    if Quiet(s, s') {
      ProcessMoves(s, s');
    } else {
      JournalMoves(s, s'.journals[s.process.op], s'.process);
    }
  }

  lemma RestoreEntryShape(s: State, e: Entry)
    requires ProcessOk(s) && Restores(s.process) && RecordsAgree(s, s.process.op)
    ensures Quiet(s, RestoreEntry(s, e)) || Stores(s, RestoreEntry(s, e))
  {
    StageAfter(s.journals[s.process.op], [RestoreConflict]);
    if RestoreEntry(s, e) == Conflicts(s) {
      assert Stores(s, Conflicts(s));
    }
  }

  lemma RestorePassEndsShape(s: State)
    requires ProcessOk(s) && Restores(s.process) && RecordsAgree(s, s.process.op)
    ensures Quiet(s, RestorePassEnds(s)) || Stores(s, RestorePassEnds(s))
  {
    StageAfter(s.journals[s.process.op], [Restoring]);
    StageAfter(s.journals[s.process.op], [Restored]);
  }

  lemma RestoreShape(s: State)
    requires ProcessOk(s) && Restores(s.process) && RecordsAgree(s, s.process.op)
    ensures Quiet(s, RestoreStep(s)) || Stores(s, RestoreStep(s))
  {
    var j := s.journals[s.process.op];
    if s.process.next < |j.entries| {
      RestoreEntryShape(s, j.entries[s.process.next]);
    } else {
      RestorePassEndsShape(s);
    }
  }

  /** The coordinator steps that store the journal. */
  lemma CoordinatorStores(s: State)
    requires ProcessOk(s) && s.process != NoProcess && RecordsAgree(s, s.process.op)
    requires s.process.MarkingStarted? || s.process.Erring? || s.process.Erred? || s.process.Reconciling?
      || s.process.OutcomeStored?
    ensures ProceedStep(s) == s || Stores(s, ProceedStep(s))
  {
    var j := s.journals[s.process.op];
    StageAfter(j, [WorkloadStarted]);
    StageAfter(j, [Recoverable]);
    if s.process.OutcomeStored? {
      StageAfter(j.(outcome := Some(s.process.outcome)), [WorkloadFinished, Draining]);
    }
  }

  lemma ApplyShape(s: State)
    requires ProcessOk(s) && s.process.Applying? && RecordsAgree(s, s.process.op)
    ensures Quiet(s, ApplyStep(s)) || Stores(s, ApplyStep(s))
  {
    StageAfter(s.journals[s.process.op], [Applied]);
  }

  lemma SupervisingKeeps(s: State)
    requires JournalInv(s) && s.process.Supervising?
    ensures JournalInv(ProceedStep(s))
  {
    var s', op := ProceedStep(s), s.process.op;
    forall other | other in s'.journals ensures RecordsAgree(s', other) { assert RecordsAgree(s, other); }
    assert forall other :: Unfinished(s', other) <==> Unfinished(s, other);
    assert forall other :: s'.starts[other] == s.starts[other] + (if other == op then 1 else 0);
  }

  lemma CleaningKeeps(s: State)
    requires JournalInv(s) && s.process.Cleaning?
    ensures JournalInv(ProceedStep(s))
  {
    var s' := ProceedStep(s);
    forall other | other in s'.journals ensures RecordsAgree(s', other) { assert RecordsAgree(s, other); }
    assert forall other :: Unfinished(s', other) <==> Unfinished(s, other);
  }

  lemma ProceedKeeps(s: State)
    requires JournalInv(s)
    ensures JournalInv(ProceedStep(s))
  {
    var p := s.process;
    if p == NoProcess || p.Running? {
    } else if p.Supervising? {
      SupervisingKeeps(s);
    } else if p.Cleaning? {
      CleaningKeeps(s);
    } else {
      assert RecordsAgree(s, p.op);
      if p.CreatingRuntime? {
        RuntimeMoves(s, p.op, Runtime(None, None), Supervising(p.op));
      } else {
        if p.Applying? { ApplyShape(s); }
        else if Restores(p) { RestoreShape(s); }
        else { CoordinatorStores(s); }
        if ProceedStep(s) != s { QuietOrStoresKeeps(s, ProceedStep(s)); }
      }
    }
  }

  lemma QuietEvents(s: State, e: Event)
    requires ProcessOk(s) && (s.process != NoProcess ==> RecordsAgree(s, s.process.op))
    requires e.Fail? || e.Crash? || e.GroupEnds? || e.Reboot? || e.OutsideWrite?
    ensures Quiet(s, Step(s, e))
  {
  }

  lemma RecordEvents(s: State, e: Event)
    requires JournalInv(s) && (e.Decide? || e.WorkloadExits?)
    ensures JournalInv(Step(s, e))
  {
    var s' := Step(s, e);
    if s' != s {
      var op := if e.Decide? then s.process.op else e.op;
      assert RecordsAgree(s, op);
      RuntimeMoves(s, op, s'.runtimes[op], s'.process);
    }
  }

  lemma JournalStep(s: State, e: Event)
    requires JournalInv(s)
    ensures JournalInv(Step(s, e))
  {
    if e.StartRun? {
      StartRunKeeps(s, e.op, e.request, e.entries);
    } else if e.StartRecover? {
      StartRecoverKeeps(s, e.op);
    } else if e.Proceed? {
      ProceedKeeps(s);
    } else if e.Decide? || e.WorkloadExits? {
      RecordEvents(s, e);
    } else {
      if s.process != NoProcess { assert RecordsAgree(s, s.process.op); }
      QuietEvents(s, e);
      QuietOrStoresKeeps(s, Step(s, e));
    }
  }

  lemma JournalInvAfter(outsideWriter: bool, bits: map<nat, bool>, es: seq<Event>)
    ensures JournalInv(After(outsideWriter, bits, es))
  {
    forall s, e | JournalInv(s) ensures JournalInv(Step(s, e)) { JournalStep(s, e); }
    InvariantHolds(Step, JournalInv, Start(outsideWriter, bits), es);
  }

  /** Over all sequences of runs, retries, crashes, recoveries and reboots, and
      with any outside writer: at most one journal is unfinished, and no
      operation publishes GO twice. */
  lemma OneUnfinishedOneStart(outsideWriter: bool, bits: map<nat, bool>, es: seq<Event>)
    ensures var s := After(outsideWriter, bits, es);
      && (forall a, b :: Unfinished(s, a) && Unfinished(s, b) ==> a == b)
      && (forall op :: s.starts[op] <= 1)
  {
    JournalInvAfter(outsideWriter, bits, es);
  }

  /** What storing a journal again may change. */
  ghost predicate Extends(j: Journal, j': Journal)
  {
    && j'.request == j.request && j'.boot == j.boot && j'.entries == j.entries
    && j.transitions <= j'.transitions
    && (j.outcome.Some? ==> j'.outcome == j.outcome)
  }

  /** No journal changes, or the process extends its own. */
  ghost predicate OwnJournalOnly(s: State, s': State)
  {
    s'.journals == s.journals
    || (&& s.process != NoProcess && !s.process.Cleaning? && s.process.op in s.journals
        && s.process.op in s'.journals
        && s'.journals == s.journals[s.process.op := s'.journals[s.process.op]]
        && Extends(s.journals[s.process.op], s'.journals[s.process.op]))
  }

  lemma StoreWritesOwnJournal(s: State, stages: seq<Stage>, p: Process)
    requires s.process != NoProcess && !s.process.Cleaning? && s.process.op in s.journals
    ensures OwnJournalOnly(s, SetJournal(s, s.process.op, Transition(s.journals[s.process.op], stages), p))
  {
  }

  lemma RestoreEntryWritesOwnJournal(s: State, e: Entry)
    requires Restores(s.process) && s.process.op in s.journals
    ensures OwnJournalOnly(s, RestoreEntry(s, e)) && RestoreEntry(s, e).runtimes == s.runtimes
  {
    StoreWritesOwnJournal(s, [RestoreConflict], NoProcess);
  }

  lemma PassEndWritesOwnJournal(s: State)
    requires Restores(s.process) && s.process.op in s.journals
    ensures OwnJournalOnly(s, RestorePassEnds(s)) && RestorePassEnds(s).runtimes == s.runtimes
  {
    StoreWritesOwnJournal(s, [Restoring], Writing(s.process.op, 0));
    StoreWritesOwnJournal(s, [Restored], Cleaning(s.process.op));
  }

  lemma RestoreWritesOwnJournal(s: State)
    requires Restores(s.process) && s.process.op in s.journals
    ensures OwnJournalOnly(s, RestoreStep(s)) && RestoreStep(s).runtimes == s.runtimes
  {
    var j := s.journals[s.process.op];
    if s.process.next < |j.entries| {
      RestoreEntryWritesOwnJournal(s, j.entries[s.process.next]);
    } else {
      PassEndWritesOwnJournal(s);
    }
  }

  lemma ApplyWritesOwnJournal(s: State)
    requires s.process.Applying? && s.process.op in s.journals
    ensures OwnJournalOnly(s, ApplyStep(s))
  {
    StoreWritesOwnJournal(s, [Applied], MarkingStarted(s.process.op));
  }

  /** The coordinator's steps outside `apply` and `restore`. */
  lemma CoordinatorWritesOwnJournal(s: State)
    requires ProcessOk(s) && !s.process.Applying? && !Restores(s.process)
    ensures OwnJournalOnly(s, ProceedStep(s))
  {
  }

  lemma ProceedWritesOwnJournal(s: State)
    requires ProcessOk(s)
    ensures OwnJournalOnly(s, ProceedStep(s))
  {
    if Restores(s.process) {
      RestoreWritesOwnJournal(s);
    } else if s.process.Applying? {
      ApplyWritesOwnJournal(s);
    } else {
      CoordinatorWritesOwnJournal(s);
    }
  }

  /** Records of a runtime directory appear once, grow, and go only after Restored. */
  lemma ProceedKeepsRuntimes(s: State, op: nat)
    requires ProcessOk(s) && op in s.runtimes
    ensures var s' := ProceedStep(s);
      (op in s'.runtimes && s'.runtimes[op] == s.runtimes[op])
        || (s.process == Cleaning(op) && s'.journals == s.journals)
  {
    if Restores(s.process) { RestoreWritesOwnJournal(s); }
  }

  lemma ProceedOnlyExtends(s: State, op: nat)
    requires JournalInv(s) && op in s.journals
    ensures var s' := ProceedStep(s);
      op in s'.journals && Extends(s.journals[op], s'.journals[op])
      && (StageOf(s.journals[op]) == Restored ==> s'.journals[op] == s.journals[op])
  {
    ProceedWritesOwnJournal(s);
  }

  lemma OtherEventsKeepJournal(s: State, e: Event, op: nat)
    requires !e.Proceed? && op in s.journals
    ensures op in Step(s, e).journals && Step(s, e).journals[op] == s.journals[op]
  {
  }

  lemma JournalsOnlyExtend(s: State, e: Event, op: nat)
    requires JournalInv(s) && op in s.journals
    ensures op in Step(s, e).journals
    ensures StageOf(s.journals[op]) == Restored ==> Step(s, e).journals[op] == s.journals[op]
    ensures Extends(s.journals[op], Step(s, e).journals[op])
  {
    if e.Proceed? {
      ProceedOnlyExtends(s, op);
    } else {
      OtherEventsKeepJournal(s, e, op);
    }
  }

  /** A durable outcome stays when its journal only extends and its runtime
      record stays or goes after Restored. */
  lemma OutcomeStays(s: State, s': State, op: nat)
    requires op in s.journals && op in s'.journals && DurableOutcome(s, op).Some?
      && Extends(s.journals[op], s'.journals[op])
    requires RecordsAgree(s, op) && RecordsAgree(s', op)
    requires op in s.runtimes && s.runtimes[op].outcome.Some? ==>
      (op in s'.runtimes && s'.runtimes[op].outcome == s.runtimes[op].outcome) || s.journals[op].outcome.Some?
    ensures DurableOutcome(s', op) == DurableOutcome(s, op)
  {
  }

  /** No event but a process step takes a runtime record away or changes its outcome. */
  lemma RuntimeOutcomeStays(s: State, e: Event, op: nat)
    requires ProcessOk(s) && !e.Proceed? && op in s.runtimes && s.runtimes[op].outcome.Some?
    ensures op in Step(s, e).runtimes && Step(s, e).runtimes[op].outcome == s.runtimes[op].outcome
  {
    if e.Decide? {
      DecidedOutcomeStays(s, e, op);
    }
  }

  /** A coordinator decides only while its runtime has no outcome. */
  lemma DecidedOutcomeStays(s: State, e: Event, op: nat)
    requires ProcessOk(s) && e.Decide? && op in s.runtimes && s.runtimes[op].outcome.Some?
    ensures op in Step(s, e).runtimes && Step(s, e).runtimes[op].outcome == s.runtimes[op].outcome
  {
  }

  lemma DurableOutcomeStep(s: State, e: Event, op: nat)
    requires JournalInv(s) && op in s.journals && DurableOutcome(s, op).Some?
    ensures DurableOutcome(Step(s, e), op) == DurableOutcome(s, op)
  {
    JournalsOnlyExtend(s, e, op);
    JournalStep(s, e);
    assert RecordsAgree(s, op) && RecordsAgree(Step(s, e), op);
    if op in s.runtimes && s.runtimes[op].outcome.Some? {
      if e.Proceed? { ProceedKeepsRuntimes(s, op); } else { RuntimeOutcomeStays(s, e, op); }
    }
    OutcomeStays(s, Step(s, e), op);
  }

  /** Once an outcome is durable for an operation, it stays, and every later
      request for that operation is answered with it or refused. */
  lemma DurableOutcomeIsReplayed(
      outsideWriter: bool, bits: map<nat, bool>, first: seq<Event>, later: seq<Event>, op: nat, request: nat)
    requires DurableOutcome(After(outsideWriter, bits, first), op).Some?
    ensures var outcome := DurableOutcome(After(outsideWriter, bits, first), op);
      var s := After(outsideWriter, bits, first + later);
      && DurableOutcome(s, op) == outcome
      && ReplyTo(s, op, request) in {Conflict, RecoveryRequired, Replayed(outcome)}
  {
    JournalInvAfter(outsideWriter, bits, first);
    var s0 := After(outsideWriter, bits, first);
    var outcome := DurableOutcome(s0, op);
    var inv := (s: State) => JournalInv(s) && op in s.journals && DurableOutcome(s, op) == outcome;
    forall s, e | inv(s) ensures inv(Step(s, e)) {
      JournalStep(s, e);
      JournalsOnlyExtend(s, e, op);
      DurableOutcomeStep(s, e, op);
    }
    InvariantHolds(Step, inv, s0, later);
    ExecConcat(Step, Start(outsideWriter, bits), first, later);
    assert RecordsAgree(After(outsideWriter, bits, first + later), op);
  }

  /** Restored is terminal: the whole journal is frozen, so every later retry
      gets the same answer. */
  lemma RestoredIsTerminal(
      outsideWriter: bool, bits: map<nat, bool>, first: seq<Event>, later: seq<Event>, op: nat, request: nat)
    requires var s := After(outsideWriter, bits, first); op in s.journals && StageOf(s.journals[op]) == Restored
    ensures var s0, s := After(outsideWriter, bits, first), After(outsideWriter, bits, first + later);
      && op in s.journals && s.journals[op] == s0.journals[op]
      && ReplyTo(s, op, request) == ReplyTo(s0, op, request)
  {
    JournalInvAfter(outsideWriter, bits, first);
    var s0 := After(outsideWriter, bits, first);
    var inv := (s: State) => JournalInv(s) && op in s.journals && s.journals[op] == s0.journals[op];
    forall s, e | inv(s) ensures inv(Step(s, e)) {
      JournalStep(s, e);
      JournalsOnlyExtend(s, e, op);
    }
    InvariantHolds(Step, inv, s0, later);
    ExecConcat(Step, Start(outsideWriter, bits), first, later);
  }

  // ---------------------------------------------------------------------
  // Exact restoration without an outside writer
  // ---------------------------------------------------------------------

  /** `op` is unfinished in this boot and its entry `i` explains the bit at `path`. */
  ghost predicate Explains(s: State, op: nat, i: nat, path: nat)
  {
    && Unfinished(s, op) && s.journals[op].boot == s.boot && i < |s.journals[op].entries|
    && s.journals[op].entries[i].path == path && path in s.bits && s.bits[path] == s.journals[op].entries[i].desired
  }

  ghost predicate BitExplained(s: State, path: nat)
    requires path in s.bits && path in s.pristine
  {
    s.bits[path] == s.pristine[path] || exists op, i :: Explains(s, op, i, path)
  }

  ghost predicate RecordsPristine(s: State, j: Journal)
  {
    && Distinct(j.entries) && j.boot <= s.boot && RestoreConflict !in j.transitions
    && (j.boot == s.boot ==> forall i :: 0 <= i < |j.entries| ==>
          j.entries[i].path in s.pristine && j.entries[i].original == s.pristine[j.entries[i].path])
  }

  ghost predicate RestoredUpTo(s: State, j: Journal, n: nat)
  {
    n <= |j.entries| && forall i :: 0 <= i < n ==>
      j.entries[i].path in s.bits && s.bits[j.entries[i].path] == j.entries[i].original
  }

  ghost predicate RestoreProgress(s: State)
  {
    var p := s.process;
    p != NoProcess && p.op in s.journals && !p.Cleaning? ==>
      && s.journals[p.op].boot == s.boot
      && (p.Writing? ==> RestoredUpTo(s, s.journals[p.op], p.next))
      && (p.Verifying? ==> RestoredUpTo(s, s.journals[p.op], |s.journals[p.op].entries|))
  }

  ghost predicate BitsInv(s: State)
  {
    && !s.outsideWriter
    && s.bits.Keys == s.pristine.Keys
    && (forall op :: op in s.journals ==> RecordsPristine(s, s.journals[op]))
    && (forall path :: path in s.bits ==> BitExplained(s, path))
    && RestoreProgress(s)
  }

  ghost predicate OnlyUnfinished(s: State, op: nat)
  {
    Unfinished(s, op) && forall other :: Unfinished(s, other) ==> other == op
  }

  /** A recorded bit of the unfinished operation is `original` or `desired`. */
  lemma RecordedBit(s: State, op: nat, i: nat)
    requires BitsInv(s) && OnlyUnfinished(s, op) && s.journals[op].boot == s.boot && i < |s.journals[op].entries|
    ensures var e := s.journals[op].entries[i];
      e.path in s.bits && (s.bits[e.path] == e.original || s.bits[e.path] == e.desired)
  {
    var e := s.journals[op].entries[i];
    assert RecordsPristine(s, s.journals[op]);
    assert e.path in s.bits && BitExplained(s, e.path);
    if s.bits[e.path] != s.pristine[e.path] {
      var op', k :| Explains(s, op', k, e.path);
      assert op' == op && k == i;
    }
  }

  /** With every journal finished, every bit is pristine; so is a finished record's. */
  lemma FinishedMeansPristine(s: State)
    requires BitsInv(s) && forall op :: op in s.journals ==> !Unfinished(s, op)
    ensures s.bits == s.pristine
  {
    forall path | path in s.bits ensures s.bits[path] == s.pristine[path] {
      assert BitExplained(s, path);
    }
  }

  ghost predicate KeepsEntries(s: State, s': State, op: nat)
    requires op in s.journals
  {
    && Unfinished(s', op)
    && s'.journals[op].boot == s.journals[op].boot && s'.journals[op].entries == s.journals[op].entries
  }

  /** Journals kept or extended without finishing, bits kept: every bit stays explained. */
  lemma ExplainedStays(s: State, s': State)
    requires BitsInv(s) && s'.bits == s.bits && s'.pristine == s.pristine && s'.boot == s.boot
    requires forall op :: Unfinished(s, op) ==> KeepsEntries(s, s', op)
    ensures forall path :: path in s'.bits ==> BitExplained(s', path)
  {
    forall path | path in s'.bits ensures BitExplained(s', path) {
      assert BitExplained(s, path);
      if s.bits[path] != s.pristine[path] {
        var op, i :| Explains(s, op, i, path);
        assert Explains(s', op, i, path);
      }
    }
  }

  /** One bit of the unfinished operation is written with a recorded value. */
  lemma WriteStaysExplained(s: State, s': State, op: nat, i: nat)
    requires BitsInv(s) && Unfinished(s, op) && s.journals[op].boot == s.boot && i < |s.journals[op].entries|
    requires s'.journals == s.journals && s'.pristine == s.pristine && s'.boot == s.boot
    requires var e := s.journals[op].entries[i];
      e.path in s.bits && (s'.bits == s.bits[e.path := e.original] || s'.bits == s.bits[e.path := e.desired])
    ensures s'.bits.Keys == s'.pristine.Keys && forall path :: path in s'.bits ==> BitExplained(s', path)
  {
    var e := s.journals[op].entries[i];
    assert RecordsPristine(s, s.journals[op]);
    forall path | path in s'.bits ensures BitExplained(s', path) {
      if path == e.path {
        if s'.bits[path] == e.desired { assert Explains(s', op, i, path); }
      } else {
        assert BitExplained(s, path);
        if s.bits[path] != s.pristine[path] {
          var op', k :| Explains(s, op', k, path);
          assert Explains(s', op', k, path);
        }
      }
    }
  }

  lemma StartRunKeepsBits(s: State, op: nat, request: nat, entries: seq<Entry>)
    requires BitsInv(s)
    ensures BitsInv(Step(s, StartRun(op, request, entries)))
  {
    var s' := Step(s, StartRun(op, request, entries));
    if s' != s {
      FinishedMeansPristine(s);
      ExplainedStays(s, s');
    }
  }

  /** The process of an unfinished operation stores its journal and stays unfinished. */
  lemma StoreKeepsBits(s: State, j: Journal, p: Process)
    requires BitsInv(s) && s.process != NoProcess && s.process.op in s.journals && !s.process.Cleaning?
    requires Extends(s.journals[s.process.op], j) && StageOf(j) != Restored && RestoreConflict !in j.transitions
    requires p == NoProcess || (p.op == s.process.op && !p.Verifying? && (p.Writing? ==> p.next == 0))
    ensures BitsInv(SetJournal(s, s.process.op, j, p))
  {
    var s' := SetJournal(s, s.process.op, j, p);
    forall op | op in s'.journals ensures RecordsPristine(s', s'.journals[op]) {
      assert RecordsPristine(s, s.journals[op]);
    }
    ExplainedStays(s, s');
  }

  /** Nothing that the bits depend on changed. */
  lemma MoveKeepsBits(s: State, s': State)
    requires BitsInv(s) && s'.journals == s.journals && s'.bits == s.bits && s'.pristine == s.pristine
    requires s'.boot == s.boot && s'.outsideWriter == s.outsideWriter && RestoreProgress(s')
    ensures BitsInv(s')
  {
    forall op | op in s'.journals ensures RecordsPristine(s', s'.journals[op]) {
      assert RecordsPristine(s, s.journals[op]);
    }
    ExplainedStays(s, s');
  }

  lemma ApplyKeepsBits(s: State)
    requires BitsInv(s) && ProcessOk(s) && s.process.Applying?
    ensures BitsInv(ApplyStep(s))
  {
    var op, s' := s.process.op, ApplyStep(s);
    if s.process.next >= |s.journals[op].entries| {
      StageAfter(s.journals[op], [Applied]);
      assert RecordsPristine(s, s.journals[op]);
      StoreKeepsBits(s, s'.journals[op], s'.process);
    } else if s'.bits == s.bits {
      MoveKeepsBits(s, s');
    } else {
      WriteStaysExplained(s, s', op, s.process.next);
      forall other | other in s'.journals ensures RecordsPristine(s', s'.journals[other]) {
        assert RecordsPristine(s, s.journals[other]);
      }
    }
  }

  predicate Advanced(p: Process, p': Process)
    requires Restores(p)
  {
    match p
    case Checking(op, i) => p' == Checking(op, i + 1)
    case Writing(op, i) => p' == Writing(op, i + 1)
    case Verifying(op, i) => p' == Verifying(op, i + 1)
  }

  /** Without an outside writer `restore` finds no conflict at any entry. */
  lemma RestoreEntryAdvances(s: State)
    requires BitsInv(s) && ProcessOk(s) && Restores(s.process) && OnlyUnfinished(s, s.process.op)
    requires s.process.next < |s.journals[s.process.op].entries|
    ensures var s', e := RestoreStep(s), s.journals[s.process.op].entries[s.process.next];
      && s'.journals == s.journals && Advanced(s.process, s'.process)
      && s'.pristine == s.pristine && s'.boot == s.boot && !s'.outsideWriter
      && e.path in s.bits && (s'.bits == s.bits || s'.bits == s.bits[e.path := e.original])
      && (s.process.Writing? ==> e.path in s'.bits && s'.bits[e.path] == e.original)
  {
    RecordedBit(s, s.process.op, s.process.next);
  }

  lemma RestoreEntryKeepsBits(s: State)
    requires BitsInv(s) && ProcessOk(s) && Restores(s.process) && OnlyUnfinished(s, s.process.op)
    requires s.process.next < |s.journals[s.process.op].entries|
    ensures BitsInv(RestoreStep(s))
  {
    var op, i, s' := s.process.op, s.process.next, RestoreStep(s);
    var j := s.journals[op];
    RestoreEntryAdvances(s);
    assert RecordsPristine(s, j);
    if s'.bits == s.bits {
      MoveKeepsBits(s, s');
    } else {
      WriteStaysExplained(s, s', op, i);
      forall other | other in s'.journals ensures RecordsPristine(s', s'.journals[other]) {
        assert RecordsPristine(s, s.journals[other]);
      }
    }
  }

  /** Storing Restored after a final pass that saw every entry at `original`. */
  lemma FinishKeepsBits(s: State)
    requires BitsInv(s) && ProcessOk(s) && s.process.Verifying? && OnlyUnfinished(s, s.process.op)
    ensures BitsInv(RestorePassEnds(s))
  {
    var op, s' := s.process.op, RestorePassEnds(s);
    var j := s.journals[op];
    assert RecordsPristine(s, j);
    forall path | path in s'.bits ensures BitExplained(s', path) {
      assert BitExplained(s, path);
    }
    forall other | other in s'.journals ensures RecordsPristine(s', s'.journals[other]) {
      assert RecordsPristine(s, s.journals[other]);
    }
  }

  lemma RestoreKeepsBits(s: State)
    requires BitsInv(s) && ProcessOk(s) && Restores(s.process) && OnlyUnfinished(s, s.process.op)
    ensures BitsInv(RestoreStep(s))
  {
    var j := s.journals[s.process.op];
    assert RecordsPristine(s, j);
    if s.process.next < |j.entries| {
      RestoreEntryKeepsBits(s);
    } else if s.process.Checking? {
      StageAfter(j, [Restoring]);
      StoreKeepsBits(s, Transition(j, [Restoring]), Writing(s.process.op, 0));
    } else if s.process.Writing? {
      MoveKeepsBits(s, RestoreStep(s));
    } else {
      FinishKeepsBits(s);
    }
  }

  lemma CoordinatorKeepsBits(s: State)
    requires BitsInv(s) && ProcessOk(s) && s.process != NoProcess && !s.process.Applying? && !Restores(s.process)
    requires RecordsAgree(s, s.process.op)
    ensures BitsInv(ProceedStep(s))
  {
    var s' := ProceedStep(s);
    if s'.journals == s.journals {
      MoveKeepsBits(s, s');
    } else {
      CoordinatorStores(s);
      ProceedWritesOwnJournal(s);
      assert RecordsPristine(s, s.journals[s.process.op]);
      StoreKeepsBits(s, s'.journals[s.process.op], s'.process);
    }
  }

  lemma OtherEventsKeepBits(s: State, e: Event)
    requires BitsInv(s) && ProcessOk(s) && !e.StartRun? && !e.Reboot? && !e.Proceed?
    ensures BitsInv(Step(s, e))
  {
    MoveKeepsBits(s, Step(s, e));
  }

  lemma BitsStep(s: State, e: Event)
    requires BitsInv(s) && JournalInv(s)
    ensures BitsInv(Step(s, e))
  {
    if e.StartRun? {
      StartRunKeepsBits(s, e.op, e.request, e.entries);
    } else if e.Reboot? {
      forall op | op in s.journals ensures RecordsPristine(Step(s, e),
          s.journals[op]) { assert RecordsPristine(s, s.journals[op]); }
    } else if !e.Proceed? {
      OtherEventsKeepBits(s, e);
    } else if s.process.Applying? {
      ApplyKeepsBits(s);
    } else if Restores(s.process) {
      assert Unfinished(s, s.process.op);
      RestoreKeepsBits(s);
    } else if s.process != NoProcess {
      assert RecordsAgree(s, s.process.op);
      CoordinatorKeepsBits(s);
    }
  }

  lemma InvAfter(bits: map<nat, bool>, es: seq<Event>)
    ensures BitsInv(After(false, bits, es)) && JournalInv(After(false, bits, es))
  {
    var inv := (s: State) => BitsInv(s) && JournalInv(s);
    forall s, e | inv(s) ensures inv(Step(s, e)) { JournalStep(s, e); BitsStep(s, e); }
    InvariantHolds(Step, inv, Start(false, bits), es);
  }

  /** The bits at the last boot of a run that began with `bits`. */
  ghost function BootBits(bits: map<nat, bool>, es: seq<Event>): map<nat, bool>
  {
    if es == [] then bits
    else if es[|es| - 1].Reboot? then es[|es| - 1].bits
    else BootBits(bits, es[..|es| - 1])
  }

  lemma {:induction false} PristineIsBootBits(bits: map<nat, bool>, es: seq<Event>)
    ensures After(false, bits, es).pristine == BootBits(bits, es)
  {
    if es == [] {
    } else {
      PristineIsBootBits(bits, es[..|es| - 1]);
      PristineFrame(After(false, bits, es[..|es| - 1]), es[|es| - 1]);
    }
  }

  lemma PristineFrame(s: State, e: Event)
    ensures Step(s, e).pristine == if e.Reboot? then e.bits else s.pristine
  {
  }

  /** Without an outside writer, whatever was run, crashed and recovered: as
      soon as no journal is unfinished, every cpuidle bit is what it was at
      boot; until then each recorded bit is `original` or `desired`; and no
      restore ever reports a conflict. */
  lemma ExactRestoration(bits: map<nat, bool>, es: seq<Event>)
    ensures var s := After(false, bits, es);
      && ((forall op :: op in s.journals ==> !Unfinished(s, op)) ==> s.bits == BootBits(bits, es))
      && (forall op, i :: Unfinished(s, op) && s.journals[op].boot == s.boot && 0 <= i < |s.journals[op].entries| ==>
            var e := s.journals[op].entries[i];
            e.path in s.bits && s.bits[e.path] in {e.original, e.desired} && e.path in BootBits(bits, es)
              && e.original == BootBits(bits, es)[e.path])
      && (forall op :: op in s.journals ==> RestoreConflict !in s.journals[op].transitions)
  {
    InvAfter(bits, es);
    PristineIsBootBits(bits, es);
    var s := After(false, bits, es);
    if forall op :: op in s.journals ==> !Unfinished(s, op) { FinishedMeansPristine(s); }
    forall op, i | Unfinished(s, op) && s.journals[op].boot == s.boot && 0 <= i < |s.journals[op].entries|
      ensures var e := s.journals[op].entries[i];
        e.path in s.bits && s.bits[e.path] in {e.original, e.desired} && e.path in s.pristine
          && e.original == s.pristine[e.path]
    {
      RecordedBit(s, op, i);
      assert RecordsPristine(s, s.journals[op]);
    }
    forall op | op in s.journals ensures RestoreConflict !in s.journals[op].transitions {
      assert RecordsPristine(s, s.journals[op]);
    }
  }

  ghost function StepsLeft(s: State): nat
    requires Restores(s.process) && s.process.op in s.journals && s.process.next <= |s.journals[s.process.op].entries|
  {
    var n := |s.journals[s.process.op].entries|;
    (n - s.process.next) + (if s.process.Checking? then 2 * (n + 1) else if s.process.Writing? then n + 1 else 0)
  }

  ghost predicate MidRestore(s: State, op: nat)
  {
    Restores(s.process) && s.process.op == op && op in s.journals && s.process.next <= |s.journals[op].entries|
  }

  /** A finished restore: the journal says Restored and the bits are pristine. */
  ghost predicate Recovered(s: State, op: nat, pristine: map<nat, bool>)
  {
    op in s.journals && StageOf(s.journals[op]) == Restored && s.bits == pristine
  }

  /** `restore` makes progress, and stores Restored only over pristine bits. */
  lemma RestoreProgresses(s: State, op: nat)
    requires BitsInv(s) && ProcessOk(s) && MidRestore(s, op) && OnlyUnfinished(s, op)
    ensures var s' := RestoreStep(s);
      Recovered(s', op, s.pristine) || (MidRestore(s', op) && StepsLeft(s') < StepsLeft(s))
  {
    if s.process.next < |s.journals[op].entries| {
      RestoreEntryAdvances(s);
    } else if s.process.Verifying? {
      var s' := RestoreStep(s);
      StageAfter(s.journals[op], [Restored]);
      forall other | other in s'.journals ensures !Unfinished(s', other) {
        if other != op { assert !Unfinished(s, other); }
      }
      FinishKeepsBits(s);
      FinishedMeansPristine(s');
    }
  }

  lemma RunRestoreProgresses(bits: map<nat, bool>, es: seq<Event>, op: nat)
    requires MidRestore(After(false, bits, es), op)
    ensures var s, s' := After(false, bits, es), After(false, bits, es + [Proceed]);
      && s'.pristine == s.pristine
      && (Recovered(s', op, s.pristine) || (MidRestore(s', op) && StepsLeft(s') < StepsLeft(s)))
  {
    InvAfter(bits, es);
    var s := After(false, bits, es);
    ExecSnoc(Step, Start(false, bits), es, Proceed);
    assert Unfinished(s, op);
    RestoreProgresses(s, op);
  }

  /** `restore`, left alone, ends by storing Restored over pristine bits. */
  lemma {:induction false} RestoreCompletes(bits: map<nat, bool>, es: seq<Event>, op: nat) returns (more: seq<Event>)
    requires MidRestore(After(false, bits, es), op)
    ensures forall i :: 0 <= i < |more| ==> more[i] == Proceed
    ensures Recovered(After(false, bits, es + more), op, After(false, bits, es).pristine)
    decreases StepsLeft(After(false, bits, es))
  {
    RunRestoreProgresses(bits, es, op);
    if Recovered(After(false, bits, es + [Proceed]), op, After(false, bits, es).pristine) {
      more := [Proceed];
    } else {
      var rest := RestoreCompletes(bits, es + [Proceed], op);
      assert es + [Proceed] + rest == es + ([Proceed] + rest);
      more := [Proceed] + rest;
    }
  }

  lemma RecoverReachesRestore(bits: map<nat, bool>, es: seq<Event>, op: nat)
    requires var s := After(false, bits, es);
      s.process == NoProcess && s.released == {} && Unfinished(s, op) && s.journals[op].boot == s.boot
    ensures var s, s' := After(false, bits, es), After(false, bits, es + [StartRecover(op)] + [Proceed]);
      MidRestore(s', op) && s'.pristine == s.pristine
  {
    ExecSnoc(Step, Start(false, bits), es, StartRecover(op));
    ExecSnoc(Step, Start(false, bits), es + [StartRecover(op)], Proceed);
  }

  /** From any crash state, one recover of the unfinished operation of this
      boot can run to the end, and then every bit is what it was at boot. */
  lemma OneRecoverSuffices(bits: map<nat, bool>, es: seq<Event>, op: nat) returns (recovery: seq<Event>)
    requires var s := After(false, bits, es);
      s.process == NoProcess && s.released == {} && Unfinished(s, op) && s.journals[op].boot == s.boot
    ensures |recovery| > 0 && recovery[0] == StartRecover(op) && forall i :: 0 < i < |recovery| ==>
      recovery[i] == Proceed
    ensures Recovered(After(false, bits, es + recovery), op, BootBits(bits, es))
  {
    PristineIsBootBits(bits, es);
    RecoverReachesRestore(bits, es, op);
    var rest := RestoreCompletes(bits, es + [StartRecover(op)] + [Proceed], op);
    recovery := [StartRecover(op)] + [Proceed] + rest;
    assert es + [StartRecover(op)] + [Proceed] + rest == es + recovery;
  }
}
