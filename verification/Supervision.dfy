/** The supervision protocol of benchctl: who may write cpuidle bits when.

    Sessions are coordinator processes, each a `run` or a `recover`. A run owns
    one operation: a workload process group whose supervisor waits for a GO
    file, and a guardian that holds `active.lock` until it has proved the group
    empty. Any session can end between any two steps, by a crash, an error or a
    normal exit, and any number of sessions run side by side. The guardian is
    assumed not to be killed and its drain not to time out.
*/
module Supervision {
  import opened Machine
  import opened Runs

  datatype Group =
    | Absent    // the supervisor has not been spawned
    | Gated     // the supervisor waits for GO
    | Released  // past the gate: the workload may be running
    | Empty     // every process of the group is gone

  datatype Guardian = NotSpawned | Started | Locked | Watching | Drained(requested: bool) | Reported | Exited

  datatype Operation = Operation(group: Group, guardian: Guardian, ready: bool, go: bool, drain: bool, drained: bool)

  datatype Kind = Run | Recover

  datatype Pc =
    | AwaitingLock
    | Locking           // holds the cpuidle lock, `require_inactive` still to pass
    | Inactive          // `require_inactive` passed: apply writes of a run, restore writes of both
    | SupervisorSpawned
    | GuardianSpawned
    | ReadySeen
    | GoPublished
    | DrainRequested
    | DrainSeen
    | DrainProved       // guardian reaped: restore writes of a run
    | Ended

  datatype Session = Session(kind: Kind, pc: Pc)

  datatype State = State(
    cpuidle: Option<nat>,
    active: Option<nat>,
    sessions: map<nat, Session>,
    operations: map<nat, Operation>)

  /** Three orderings that the code chooses; all hold in the shipped protocol. */
  datatype Design = Design(
    waitsForReady: bool,   // GO only after `guardian.ready`
    locksBeforeReady: bool, // the guardian reports ready only once it holds `active.lock`
    checksInactive: bool)  // `require_inactive` before anything else

  const SHIPPED: Design := Design(true, true, true)

  datatype Event =
    | Enter(id: nat, kind: Kind)
    | LockCpuidle(id: nat)
    | CheckInactive(id: nat)
    | WriteBit(id: nat)
    | SpawnSupervisor(id: nat)
    | SpawnGuardian(id: nat)
    | SeeReady(id: nat)
    | PublishGo(id: nat)
    | RequestDrain(id: nat)
    | SeeDrained(id: nat)
    | ReapGuardian(id: nat)
    | TerminateGroup(id: nat)
    | End(id: nat)
    | PassGate(id: nat)
    | GroupDies(id: nat)
    | GuardianLocks(id: nat)
    | GuardianReports(id: nat)
    | GuardianDrains(id: nat)
    | GuardianWritesDrained(id: nat)
    | GuardianExits(id: nat)

  function Start(): State
  {
    State(None, None, map[], map[])
  }

  predicate At(s: State, id: nat, pc: Pc)
  {
    id in s.sessions && s.sessions[id].pc == pc
  }

  predicate RunAt(s: State, id: nat, pc: Pc)
  {
    At(s, id, pc) && s.sessions[id].kind.Run? && id in s.operations
  }

  predicate HasGuardian(s: State, id: nat, g: Guardian)
  {
    id in s.operations && s.operations[id].guardian == g
  }

  function Goto(s: State, id: nat, pc: Pc): State
    requires id in s.sessions
  {
    s.(sessions := s.sessions[id := s.sessions[id].(pc := pc)])
  }

  function SetOperation(s: State, id: nat, o: Operation): State
  {
    s.(operations := s.operations[id := o])
  }

  function EndSession(s: State, id: nat): State
    requires id in s.sessions
  {
    Goto(s, id, Ended).(cpuidle := if s.cpuidle == Some(id) then None else s.cpuidle)
  }

  /** The cpuidle writes of `apply` and `restore`. */
  predicate Writes(s: State, e: Event)
  {
    e.WriteBit? && (At(s, e.id, Inactive) || RunAt(s, e.id, DrainProved))
  }

  predicate Live(s: State)
  {
    exists id :: id in s.operations && s.operations[id].group == Released
  }

  function SessionStep(d: Design, s: State, e: Event): State
  {
    match e
    case Enter(id, kind) =>
      if id in s.sessions then s
      else
        var s' := s.(sessions := s.sessions[id := Session(kind, AwaitingLock)]);
        if kind.Run? then SetOperation(s', id, Operation(Absent, NotSpawned, false, false, false, false)) else s'
    case LockCpuidle(id) =>
      if At(s, id, AwaitingLock) && s.cpuidle == None then Goto(s, id, Locking).(cpuidle := Some(id)) else s
    case CheckInactive(id) =>
      if At(s, id, Locking) && (d.checksInactive ==> s.active == None) then Goto(s, id, Inactive) else s
    case SpawnSupervisor(id) =>
      if RunAt(s, id, Inactive) then
        Goto(SetOperation(s, id, s.operations[id].(group := Gated)), id, SupervisorSpawned)
      else s
    case SpawnGuardian(id) =>
      if RunAt(s, id, SupervisorSpawned) then
        Goto(SetOperation(s, id, s.operations[id].(guardian := Started)), id, GuardianSpawned)
      else s
    case SeeReady(id) =>
      if RunAt(s, id, GuardianSpawned) && (d.waitsForReady ==> s.operations[id].ready) then
        Goto(s, id, ReadySeen)
      else s
    case PublishGo(id) =>
      if RunAt(s, id, ReadySeen) then
        Goto(SetOperation(s, id, s.operations[id].(go := true)), id, GoPublished)
      else s
    case RequestDrain(id) =>
      if RunAt(s, id, GoPublished) then
        Goto(SetOperation(s, id, s.operations[id].(drain := true)), id, DrainRequested)
      else s
    case SeeDrained(id) =>
      if RunAt(s, id, DrainRequested) && s.operations[id].drained then Goto(s, id, DrainSeen) else s
    case ReapGuardian(id) =>
      if RunAt(s, id, DrainSeen) && s.operations[id].guardian == Exited then Goto(s, id, DrainProved) else s
    case TerminateGroup(id) =>
      if RunAt(s, id, SupervisorSpawned) || RunAt(s, id, GuardianSpawned) || RunAt(s, id, GoPublished) then
        EndSession(SetOperation(s, id, s.operations[id].(group := Empty)), id)
      else s
    case End(id) => if id in s.sessions then EndSession(s, id) else s
    case _ => s
  }

  function OperationStep(d: Design, s: State, e: Event): State
  {
    match e
    case PassGate(id) =>
      if id in s.operations && s.operations[id].group == Gated && s.operations[id].go then
        SetOperation(s, id, s.operations[id].(group := Released))
      else s
    case GroupDies(id) =>
      if id in s.operations && s.operations[id].group in {Gated, Released} then
        SetOperation(s, id, s.operations[id].(group := Empty))
      else s
    case GuardianLocks(id) =>
      if HasGuardian(s, id, Started) && s.active == None then
        SetOperation(s, id, s.operations[id].(guardian := Locked)).(active := Some(id))
      else s
    case GuardianReports(id) =>
      if HasGuardian(s, id, Locked) then
        SetOperation(s, id, s.operations[id].(guardian := Watching, ready := true))
      else if HasGuardian(s, id, Started) && !d.locksBeforeReady then
        SetOperation(s, id, s.operations[id].(ready := true))
      else s
    case GuardianDrains(id) =>
      if HasGuardian(s, id, Watching) && (s.operations[id].drain || At(s, id, Ended)) then
        SetOperation(s, id, s.operations[id].(group := Empty, guardian := Drained(s.operations[id].drain)))
      else s
    case GuardianWritesDrained(id) =>
      if id in s.operations && s.operations[id].guardian.Drained? then
        var o := s.operations[id];
        SetOperation(s, id, o.(guardian := Reported, drained := o.drained || o.guardian.requested))
      else s
    case GuardianExits(id) =>
      if HasGuardian(s, id, Reported) then
        SetOperation(s, id, s.operations[id].(guardian := Exited)).(active := None)
      else s
    case _ => s
  }

  predicate OfOperation(e: Event)
  {
    e.PassGate? || e.GroupDies? || e.GuardianLocks? || e.GuardianReports?
    || e.GuardianDrains? || e.GuardianWritesDrained? || e.GuardianExits?
  }

  function Step(d: Design, s: State, e: Event): State
  {
    if OfOperation(e) then OperationStep(d, s, e) else SessionStep(d, s, e)
  }

  ghost function After(d: Design, es: seq<Event>): State
  {
    Exec((s: State, e: Event) => Step(d, s, e), Start(), es)
  }

  /** In every run, no cpuidle bit is written while a workload may be running. */
  ghost predicate NeverWritesWhileLive(d: Design)
  {
    forall es, e :: Writes(After(d, es), e) ==> !Live(After(d, es))
  }

  // ---------------------------------------------------------------------

  ghost predicate OperationOk(o: Operation)
  {
    && (o.ready ==> o.guardian.Watching? || o.guardian.Drained? || o.guardian.Reported? || o.guardian.Exited?)
    && (o.go ==> o.ready)
    && (o.group == Absent ==> o.guardian == NotSpawned)
    && (o.group == Released ==> o.go)
    && (o.guardian.Drained? || o.guardian.Reported? || o.guardian.Exited? ==> o.group == Empty)
    && (o.drained ==> o.guardian.Reported? || o.guardian.Exited?)
  }

  predicate HoldsActive(g: Guardian)
  {
    g.Locked? || g.Watching? || g.Drained? || g.Reported?
  }

  /** What a session's own operation looks like at each step. */
  ghost predicate OwnOperationOk(pc: Pc, o: Operation)
  {
    match pc
    case AwaitingLock | Locking | Inactive => o.group == Absent && !o.go
    case SupervisorSpawned => o.guardian == NotSpawned && o.group != Absent && !o.go
    case GuardianSpawned => o.group != Absent && !o.go
    case ReadySeen => o.ready && o.group != Absent && !o.go
    case DrainSeen => o.drained && o.group != Absent
    case DrainProved => o.group == Empty
    case _ => pc == Ended || o.group != Absent
  }

  predicate PastCheck(pc: Pc)
  {
    !pc.AwaitingLock? && !pc.Locking? && !pc.Ended?
  }

  ghost predicate LocksOk(s: State)
  {
    && (s.cpuidle.Some? ==> s.cpuidle.value in s.sessions)
    && (s.active.Some? ==> s.active.value in s.operations)
    && (forall id :: id in s.sessions ==>
          (s.cpuidle == Some(id) <==> !s.sessions[id].pc.AwaitingLock? && !s.sessions[id].pc.Ended?))
    && (forall id :: id in s.operations ==>
          (s.active == Some(id) <==> HoldsActive(s.operations[id].guardian)))
  }

  ghost predicate SessionOk(s: State, id: nat)
    requires id in s.sessions
  {
    && (s.sessions[id].kind.Run? <==> id in s.operations)
    && (id in s.operations ==> OwnOperationOk(s.sessions[id].pc, s.operations[id]))
    && (PastCheck(s.sessions[id].pc) ==>
          forall o :: o in s.operations && o != id && s.operations[o].go ==> s.operations[o].group == Empty)
  }

  ghost predicate SupervisionInv(s: State)
  {
    && LocksOk(s)
    && (forall id :: id in s.operations ==> id in s.sessions && OperationOk(s.operations[id]))
    && (forall id :: id in s.sessions ==> SessionOk(s, id))
  }

  /** One operation moves on by itself; GO files and other sessions are untouched. */
  lemma OperationMoves(s: State, id: nat, o: Operation, active: Option<nat>)
    requires SupervisionInv(s) && id in s.operations
    requires OperationOk(o) && OwnOperationOk(s.sessions[id].pc, o)
    requires o.go == s.operations[id].go && (s.operations[id].group == Empty ==> o.group == Empty)
    requires HoldsActive(o.guardian) == (active == Some(id))
    requires active == s.active || (s.active in {None, Some(id)} && active in {None, Some(id)})
    ensures SupervisionInv(SetOperation(s, id, o).(active := active))
  {
    var s' := SetOperation(s, id, o).(active := active);
    forall other | other in s'.sessions ensures SessionOk(s', other) { assert SessionOk(s, other); }
  }

  lemma OperationStepKeepsInv(s: State, e: Event)
    requires SupervisionInv(s) && OfOperation(e)
    ensures SupervisionInv(OperationStep(SHIPPED, s, e))
  {
    var s' := OperationStep(SHIPPED, s, e);
    if s' != s {
      assert OperationOk(s.operations[e.id]) && SessionOk(s, e.id);
      OperationMoves(s, e.id, s'.operations[e.id], s'.active);
    }
  }

  /** The run holding the cpuidle lock moves on, with its own operation. */
  lemma RunMoves(s: State, id: nat, pc: Pc, o: Operation)
    requires SupervisionInv(s) && id in s.sessions && id in s.operations
    requires PastCheck(s.sessions[id].pc) && PastCheck(pc)
    requires OperationOk(o) && OwnOperationOk(pc, o)
    requires HoldsActive(o.guardian) == HoldsActive(s.operations[id].guardian)
    ensures SupervisionInv(Goto(SetOperation(s, id, o), id, pc))
  {
    var s' := Goto(SetOperation(s, id, o), id, pc);
    assert SessionOk(s, id);
    forall other | other in s'.sessions ensures SessionOk(s', other) { assert SessionOk(s, other); }
  }

  lemma SessionEnds(s: State, id: nat)
    requires SupervisionInv(s) && id in s.sessions
    ensures SupervisionInv(EndSession(s, id))
  {
    var s' := EndSession(s, id);
    forall other | other in s'.sessions ensures SessionOk(s', other) { assert SessionOk(s, other); }
  }

  lemma SessionEnters(s: State, id: nat, kind: Kind)
    requires SupervisionInv(s)
    ensures SupervisionInv(SessionStep(SHIPPED, s, Enter(id, kind)))
  {
    var s' := SessionStep(SHIPPED, s, Enter(id, kind));
    assert id !in s.sessions ==> id !in s.operations;
    forall other | other in s'.sessions ensures SessionOk(s', other) {
      if other in s.sessions { assert SessionOk(s, other); }
    }
  }

  /** Taking the lock, and passing `require_inactive` under it: with
      `active.lock` free, an operation whose GO exists has an empty group. */
  lemma SessionGetsAccess(s: State, e: Event)
    requires SupervisionInv(s) && (e.LockCpuidle? || e.CheckInactive?)
    ensures SupervisionInv(SessionStep(SHIPPED, s, e))
  {
    var s' := SessionStep(SHIPPED, s, e);
    forall other | other in s'.sessions ensures SessionOk(s', other) {
      assert SessionOk(s, other);
      if s' != s && s.active == None {
        forall o | o in s.operations && s.operations[o].go ensures s.operations[o].group == Empty {
          assert OperationOk(s.operations[o]);
        }
      }
    }
  }

  predicate OfRun(e: Event)
  {
    e.SpawnSupervisor? || e.SpawnGuardian? || e.SeeReady? || e.PublishGo? || e.RequestDrain? || e.SeeDrained?
      || e.ReapGuardian?
  }

  /** A run step changes one session's pc and its own operation, in a way that fits. */
  lemma RunStepShape(s: State, e: Event) returns (pc: Pc, o: Operation)
    requires OfRun(e) && SessionStep(SHIPPED, s, e) != s
    requires e.id in s.operations ==> OperationOk(s.operations[e.id])
    requires e.id in s.sessions && e.id in s.operations ==> OwnOperationOk(s.sessions[e.id].pc, s.operations[e.id])
    ensures e.id in s.sessions && e.id in s.operations
    ensures SessionStep(SHIPPED, s, e) == Goto(SetOperation(s, e.id, o), e.id, pc)
    ensures PastCheck(s.sessions[e.id].pc) && PastCheck(pc) && OperationOk(o) && OwnOperationOk(pc, o)
    ensures HoldsActive(o.guardian) == HoldsActive(s.operations[e.id].guardian)
  {
    var s' := SessionStep(SHIPPED, s, e);
    pc, o := s'.sessions[e.id].pc, s'.operations[e.id];
    assert s.operations[e.id := s.operations[e.id]] == s.operations;
  }

  lemma TerminateKeepsInv(s: State, e: Event)
    requires SupervisionInv(s) && e.TerminateGroup?
    ensures SupervisionInv(SessionStep(SHIPPED, s, e))
  {
    if SessionStep(SHIPPED, s, e) != s {
      assert SessionOk(s, e.id) && OperationOk(s.operations[e.id]);
      var o := s.operations[e.id].(group := Empty);
      OperationMoves(s, e.id, o, s.active);
      SessionEnds(SetOperation(s, e.id, o), e.id);
    }
  }

  lemma SessionStepKeepsInv(s: State, e: Event)
    requires SupervisionInv(s) && !OfOperation(e)
    ensures SupervisionInv(SessionStep(SHIPPED, s, e))
  {
    if OfRun(e) {
      if SessionStep(SHIPPED, s, e) != s {
        assert e.id in s.sessions ==> SessionOk(s, e.id);
        var pc, o := RunStepShape(s, e);
        RunMoves(s, e.id, pc, o);
      }
    } else if e.Enter? {
      SessionEnters(s, e.id, e.kind);
    } else if e.LockCpuidle? || e.CheckInactive? {
      SessionGetsAccess(s, e);
    } else if e.TerminateGroup? {
      TerminateKeepsInv(s, e);
    } else if e.End? && e.id in s.sessions {
      SessionEnds(s, e.id);
    }
  }

  lemma ShippedInvAfter(es: seq<Event>)
    ensures SupervisionInv(After(SHIPPED, es))
  {
    var step := (s: State, e: Event) => Step(SHIPPED, s, e);
    forall s, e | SupervisionInv(s) ensures SupervisionInv(step(s, e)) {
      if OfOperation(e) { OperationStepKeepsInv(s, e); } else { SessionStepKeepsInv(s, e); }
    }
    InvariantHolds(step, SupervisionInv, Start(), es);
  }

  /** No cpuidle write of any session happens while any workload may be
      running, for every interleaving and every crash. */
  lemma ShippedNeverWritesWhileLive()
    ensures NeverWritesWhileLive(SHIPPED)
  {
    forall es, e | Writes(After(SHIPPED, es), e) ensures !Live(After(SHIPPED, es)) {
      ShippedInvAfter(es);
      var s := After(SHIPPED, es);
      assert SessionOk(s, e.id);
      forall id | id in s.operations ensures s.operations[id].group != Released {
        assert OperationOk(s.operations[id]);
      }
    }
  }

  lemma Snoc(d: Design, es: seq<Event>, e: Event) returns (es': seq<Event>)
    ensures After(d, es') == Step(d, After(d, es), e)
  {
    ExecSnoc((s: State, e: Event) => Step(d, s, e), Start(), es, e);
    es' := es + [e];
  }

  /** Run 0 alone, with its operation. */
  function Alone(pc: Pc, o: Operation, cpuidle: Option<nat>, active: Option<nat>): State
  {
    State(cpuidle, active, map[0 := Session(Run, pc)], map[0 := o])
  }

  const UNSPAWNED: Operation := Operation(Absent, NotSpawned, false, false, false, false)

  lemma AloneEnters(d: Design)
    ensures Step(d, Start(), Enter(0, Run))
            == Alone(AwaitingLock, UNSPAWNED, None, None)
    ensures Step(d, Alone(AwaitingLock, UNSPAWNED, None, None), LockCpuidle(0))
            == Alone(Locking, UNSPAWNED, Some(0), None)
    ensures Step(d, Alone(Locking, UNSPAWNED, Some(0), None), CheckInactive(0))
            == Alone(Inactive, UNSPAWNED, Some(0), None)
  {
  }

  lemma AloneSpawns(d: Design)
    ensures Step(d, Alone(Inactive, UNSPAWNED, Some(0), None), SpawnSupervisor(0))
         == Alone(SupervisorSpawned, UNSPAWNED.(group := Gated), Some(0), None)
    ensures Step(d, Alone(SupervisorSpawned, UNSPAWNED.(group := Gated), Some(0), None), SpawnGuardian(0))
         == Alone(GuardianSpawned, UNSPAWNED.(group := Gated, guardian := Started), Some(0), None)
  {
  }

  lemma AlonePublishes(d: Design, o: Operation, active: Option<nat>)
    requires d.waitsForReady ==> o.ready
    ensures Step(d, Alone(GuardianSpawned, o, Some(0), active), SeeReady(0))
            == Alone(ReadySeen, o, Some(0), active)
    ensures Step(d, Alone(ReadySeen, o, Some(0), active), PublishGo(0))
            == Alone(GoPublished, o.(go := true), Some(0), active)
  {
  }

  lemma AloneReleases(d: Design, o: Operation, active: Option<nat>)
    requires o.group == Gated && o.go
    ensures Step(d, Alone(GoPublished, o, Some(0), active), PassGate(0))
            == Alone(GoPublished, o.(group := Released), Some(0), active)
    ensures Step(d, Alone(GoPublished, o.(group := Released), Some(0), active), End(0))
            == Alone(Ended, o.(group := Released), None, active)
  {
  }

  lemma SpawnedRun(d: Design) returns (es: seq<Event>)
    ensures After(d, es) == Alone(GuardianSpawned, UNSPAWNED.(group := Gated, guardian := Started), Some(0), None)
  {
    AloneEnters(d);
    AloneSpawns(d);
    es := Snoc(d, [], Enter(0, Run));
    es := Snoc(d, es, LockCpuidle(0));
    es := Snoc(d, es, CheckInactive(0));
    es := Snoc(d, es, SpawnSupervisor(0));
    es := Snoc(d, es, SpawnGuardian(0));
  }

  lemma ReleaseAndCrash(d: Design, es: seq<Event>, o: Operation, active: Option<nat>) returns (es': seq<Event>)
    requires After(d, es) == Alone(GuardianSpawned, o, Some(0), active)
    requires o.group == Gated && (d.waitsForReady ==> o.ready)
    ensures After(d, es') == Alone(Ended, o.(go := true, group := Released), None, active)
  {
    AlonePublishes(d, o, active);
    AloneReleases(d, o.(go := true), active);
    es' := Snoc(d, es, SeeReady(0));
    es' := Snoc(d, es', PublishGo(0));
    es' := Snoc(d, es', PassGate(0));
    es' := Snoc(d, es', End(0));
  }

  /** A design without one of the orderings lets run 0 publish GO while
      `active.lock` is free, or lets a later session not look at it. */
  lemma UnguardedRelease(d: Design) returns (es: seq<Event>)
    requires d != SHIPPED
    ensures var s := After(d, es);
      && s.cpuidle == None && (d.checksInactive ==> s.active == None)
      && s.sessions.Keys == {0} && 0 in s.operations && s.operations[0].group == Released
  {
    var o := UNSPAWNED.(group := Gated, guardian := Started);
    es := SpawnedRun(d);
    if !d.checksInactive {
      es := Snoc(d, es, GuardianLocks(0));
      assert After(d, es) == Alone(GuardianSpawned, o.(guardian := Locked), Some(0), Some(0));
      es := Snoc(d, es, GuardianReports(0));
      o := o.(guardian := Watching, ready := true);
      assert After(d, es) == Alone(GuardianSpawned, o, Some(0), Some(0));
      es := ReleaseAndCrash(d, es, o, Some(0));
    } else {
      if !d.locksBeforeReady {
        es := Snoc(d, es, GuardianReports(0));
        o := o.(ready := true);
        assert After(d, es) == Alone(GuardianSpawned, o, Some(0), None);
      }
      es := ReleaseAndCrash(d, es, o, None);
    }
  }

  lemma BrokenDesignWritesWhileLive(d: Design) returns (es: seq<Event>)
    requires d != SHIPPED
    ensures Writes(After(d, es), WriteBit(1)) && Live(After(d, es))
  {
    es := UnguardedRelease(d);
    var s := After(d, es);
    assert 0 in s.operations && s.operations[0].group == Released;
    es := Snoc(d, es, Enter(1, Recover));
    es := Snoc(d, es, LockCpuidle(1));
    es := Snoc(d, es, CheckInactive(1));
    assert 0 in After(d, es).operations;
  }

  /** Each of the three orderings is necessary, and together they suffice. */
  lemma WritesAreSafeIffShippedDesign(d: Design)
    ensures NeverWritesWhileLive(d) <==> d.waitsForReady && d.locksBeforeReady && d.checksInactive
  {
    if d == SHIPPED {
      ShippedNeverWritesWhileLive();
    } else {
      var es := BrokenDesignWritesWhileLive(d);
    }
  }
}
