/** Arm, recheck, wait: the hardware address monitor protocols.

    A protocol is a straight-line program over one watched word. Another thread
    may store any value, the expected one included, between any two operations.
    A store to the monitored line after `Arm` triggers the monitor, and the
    hardware wait may return at any time, triggered or not (the MONITORX and
    MWAITX entries of AMD64 APM Volume 3, UMONITOR and UMWAIT of Intel SDM
    Volume 2).
*/
module MonitorWait {
  import opened Runs

  datatype Op =
    | Load           // Acquire load; returns Changed unless the word equals `expected`
    | CheckDeadline  // returns TimedOut when the public deadline has passed
    | Arm            // MONITORX or UMONITOR
    | Wait           // MWAITX or UMWAIT

  /** `mwaitx_untimed_protocol` and `umwait_untimed_protocol`, classification included. */
  const UNTIMED_PROTOCOL: seq<Op> := [Load, Arm, Load, Wait, Load]

  /** `mwaitx_timed_protocol` and `umwait_timed_protocol`, classification included. */
  const TIMED_PROTOCOL: seq<Op> := [Load, CheckDeadline, Arm, Load, CheckDeadline, Wait, Load, CheckDeadline]

  /** `preflight_wait_once`: a further load follows the handoff store. */
  const PREFLIGHT_PROBE: seq<Op> := [Load, Arm, Load, Load, Wait]

  datatype Monitor = Disarmed | Armed(triggered: bool)

  datatype State = State(word: int, monitor: Monitor, pc: nat, blocked: bool, returned: bool)

  datatype Event =
    | Store(value: int)       // another thread writes the watched word
    | Disturb                 // interrupt, false sharing, or any other monitor event
    | Advance(expired: bool)  // the waiter runs its next operation
    | Wake                    // the hardware wait returns, for any reason

  function Trigger(m: Monitor): Monitor
  {
    if m.Armed? then Armed(true) else m
  }

  function RunOp(expected: int, op: Op, s: State, expired: bool): State
  {
    match op
    case Load => if s.word != expected then s.(returned := true) else s.(pc := s.pc + 1)
    case CheckDeadline => if expired then s.(returned := true) else s.(pc := s.pc + 1)
    case Arm => s.(monitor := Armed(false), pc := s.pc + 1)
    case Wait => s.(blocked := true)
  }

  function Step(program: seq<Op>, expected: int, s: State, e: Event): State
  {
    match e
    case Store(value) => s.(word := value, monitor := Trigger(s.monitor))
    case Disturb => s.(monitor := Trigger(s.monitor))
    case Advance(expired) =>
      if s.blocked || s.returned || s.pc >= |program| then s
      else RunOp(expected, program[s.pc], s, expired)
    case Wake =>
      if s.blocked then s.(blocked := false, monitor := Disarmed, pc := s.pc + 1) else s
  }

  function Start(word: int): State
  {
    State(word, Disarmed, 0, false, false)
  }

  ghost function After(program: seq<Op>, expected: int, word: int, es: seq<Event>): State
  {
    Exec((s: State, e: Event) => Step(program, expected, s, e), Start(word), es)
  }

  /** Asleep, nothing will trigger the monitor for what already happened, and
      the word the caller waits for has changed. */
  predicate LostWake(expected: int, s: State)
  {
    s.blocked && s.monitor == Armed(false) && s.word != expected
  }

  /** `program` never sleeps through a change, whatever is stored and whenever. */
  ghost predicate NeverLosesWake(program: seq<Op>, expected: int)
  {
    forall word, es :: !LostWake(expected, After(program, expected, word, es))
  }

  /** The wait at `k` follows the arm at `i` with no load in between. */
  ghost predicate Exposed(program: seq<Op>, i: nat, k: nat)
  {
    && i < k < |program| && program[i].Arm? && program[k].Wait?
    && forall j :: i < j < k ==> program[j].CheckDeadline?
  }

  ghost predicate Rechecks(program: seq<Op>)
  {
    forall i: nat, k: nat :: !Exposed(program, i, k)
  }

  /** Before operation `k` the monitor was armed and nothing was loaded since. */
  ghost predicate ArmedUnchecked(program: seq<Op>, k: nat)
    requires k <= |program|
  {
    exists i :: 0 <= i < k && program[i].Arm? && forall j :: i < j < k ==> program[j].CheckDeadline?
  }

  ghost predicate WaitInv(program: seq<Op>, expected: int, s: State)
  {
    && s.pc <= |program|
    && (s.blocked ==> s.pc < |program| && program[s.pc].Wait?)
    && (s.monitor == Armed(false) && !s.returned && !ArmedUnchecked(program, s.pc) ==> s.word == expected)
  }

  lemma WaitStep(program: seq<Op>, expected: int, s: State, e: Event)
    requires WaitInv(program, expected, s) && Rechecks(program)
    ensures WaitInv(program, expected, Step(program, expected, s, e))
  {
    if e.Advance? && !s.blocked && !s.returned && s.pc < |program| {
      var op := program[s.pc];
      if op.CheckDeadline? && ArmedUnchecked(program, s.pc) {
        var i :| 0 <= i < s.pc && program[i].Arm? && forall j :: i < j < s.pc ==> program[j].CheckDeadline?;
        assert forall j :: i < j < s.pc + 1 ==> program[j].CheckDeadline?;
      }
    }
  }

  lemma RecheckingProgramsAreSafe(program: seq<Op>, expected: int, word: int, es: seq<Event>)
    requires Rechecks(program)
    ensures !LostWake(expected, After(program, expected, word, es))
  {
    var step := (s: State, e: Event) => Step(program, expected, s, e);
    var inv := (s: State) => WaitInv(program, expected, s) && !(s.blocked && s.returned);
    forall s, e | inv(s) ensures inv(step(s, e)) { WaitStep(program, expected, s, e); }
    InvariantHolds(step, inv, Start(word), es);
    var s := After(program, expected, word, es);
    if s.blocked && ArmedUnchecked(program, s.pc) {
      var i :| 0 <= i < s.pc && program[i].Arm? && forall j :: i < j < s.pc ==> program[j].CheckDeadline?;
      assert Exposed(program, i, s.pc);
    }
  }

  /** With no change to the word, every operation can be reached. */
  lemma {:induction false} QuietRun(program: seq<Op>, expected: int, n: nat) returns (es: seq<Event>)
    requires n <= |program|
    ensures var s := After(program, expected, expected, es);
      s.word == expected && s.pc == n && !s.blocked && !s.returned
  {
    es := [];
    if n > 0 {
      es := QuietRun(program, expected, n - 1);
      es := Snoc(program, expected, expected, es, Advance(false));
      if program[n - 1].Wait? {
        es := Snoc(program, expected, expected, es, Wake);
      }
    }
  }

  lemma Snoc(program: seq<Op>, expected: int, word: int, es: seq<Event>, e: Event) returns (es': seq<Event>)
    ensures After(program, expected, word, es') == Step(program, expected, After(program, expected, word, es), e)
  {
    var step := (s: State, e: Event) => Step(program, expected, s, e);
    ExecSnoc(step, Start(word), es, e);
    es' := es + [e];
  }

  /** A change stored just before an arm that is not rechecked is slept through. */
  lemma ExposedWaitLosesWake(program: seq<Op>, expected: int, i: nat, k: nat) returns (es: seq<Event>)
    requires Exposed(program, i, k)
    ensures LostWake(expected, After(program, expected, expected, es))
  {
    es := QuietRun(program, expected, i);
    es := Snoc(program, expected, expected, es, Store(expected + 1));
    es := Snoc(program, expected, expected, es, Advance(false));
    var n := i + 1;
    while n < k
      invariant i < n <= k
      invariant var s := After(program, expected, expected, es);
        s.word == expected + 1 && s.monitor == Armed(false) && s.pc == n && !s.blocked && !s.returned
    {
      es := Snoc(program, expected, expected, es, Advance(false));
      n := n + 1;
    }
    es := Snoc(program, expected, expected, es, Advance(false));
  }

  /** Among all straight-line programs, exactly those that load between the
      last arm and each wait never lose a wake. */
  lemma NoLostWakeIffRechecked(program: seq<Op>, expected: int)
    ensures NeverLosesWake(program, expected) <==> Rechecks(program)
  {
    if Rechecks(program) {
      forall word, es ensures !LostWake(expected, After(program, expected, word, es)) {
        RecheckingProgramsAreSafe(program, expected, word, es);
      }
    } else {
      var i: nat, k: nat :| Exposed(program, i, k);
      var es := ExposedWaitLosesWake(program, expected, i, k);
    }
  }

  lemma SingleRecheck(program: seq<Op>, arm: nat, load: nat, wait: nat)
    requires arm < load < wait < |program| && program[load].Load?
    requires forall i :: 0 <= i < |program| ==> (program[i].Arm? ==> i == arm) && (program[i].Wait? ==> i == wait)
    ensures Rechecks(program)
  {
    forall i: nat, k: nat ensures !Exposed(program, i, k) {
      assert !program[load].CheckDeadline?;
    }
  }

  /** The four wait protocols and the preflight probe never lose a wake;
      dropping their second load, or moving it before the arm, loses one. */
  lemma ShippedProtocolsNeverLoseWake(expected: int)
    ensures NeverLosesWake(UNTIMED_PROTOCOL, expected)
    ensures NeverLosesWake(TIMED_PROTOCOL, expected)
    ensures NeverLosesWake(PREFLIGHT_PROBE, expected)
    ensures !NeverLosesWake([Load, Arm, Wait, Load], expected)
    ensures !NeverLosesWake([Load, CheckDeadline, Arm, CheckDeadline, Wait, Load, CheckDeadline], expected)
    ensures !NeverLosesWake([Load, Load, Arm, Wait, Load], expected)
  {
    SingleRecheck(UNTIMED_PROTOCOL, 1, 2, 3);
    NoLostWakeIffRechecked(UNTIMED_PROTOCOL, expected);
    SingleRecheck(TIMED_PROTOCOL, 2, 3, 5);
    NoLostWakeIffRechecked(TIMED_PROTOCOL, expected);
    SingleRecheck(PREFLIGHT_PROBE, 1, 2, 4);
    NoLostWakeIffRechecked(PREFLIGHT_PROBE, expected);
    var dropped := [Load, Arm, Wait, Load];
    assert Exposed(dropped, 1, 2);
    NoLostWakeIffRechecked(dropped, expected);
    var droppedTimed := [Load, CheckDeadline, Arm, CheckDeadline, Wait, Load, CheckDeadline];
    assert Exposed(droppedTimed, 2, 4);
    NoLostWakeIffRechecked(droppedTimed, expected);
    var moved := [Load, Load, Arm, Wait, Load];
    assert Exposed(moved, 2, 3);
    NoLostWakeIffRechecked(moved, expected);
  }
}
