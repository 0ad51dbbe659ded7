/** The two views of `restore` agree.

    Module CpuIdle runs `restore` access by access against a host, module
    Recovery as steps of a process that may crash between any two. On a quiet
    host both leave the same bits and make the same stages durable.
*/
module RestoreAgreement {
  import opened Runs
  import CpuIdle
  import Recovery

  function BitOf(value: string): bool { value == "1" }

  function BitsOf(bits: map<nat, string>): map<nat, bool>
  {
    map path | path in bits :: BitOf(bits[path])
  }

  function EntryOf(e: CpuIdle.IdleEntry): Recovery.Entry
  {
    Recovery.Entry(e.path, BitOf(e.original), BitOf(e.desired))
  }

  function EntriesOf(entries: seq<CpuIdle.IdleEntry>): (r: seq<Recovery.Entry>)
    ensures |r| == |entries| && forall i :: 0 <= i < |r| ==> r[i] == EntryOf(entries[i])
  {
    seq(|entries|, i requires 0 <= i < |entries| => EntryOf(entries[i]))
  }

  function StageOf(stage: CpuIdle.Stage): Recovery.Stage
  {
    match stage
    case Restoring => Recovery.Restoring
    case Restored => Recovery.Restored
    case RestoreConflict => Recovery.RestoreConflict
  }

  function StagesOf(stages: seq<CpuIdle.Stage>): seq<Recovery.Stage>
  {
    seq(|stages|, i requires 0 <= i < |stages| => StageOf(stages[i]))
  }

  // ----------------------------------------------------------- Recovery's passes

  /** One step of the process. */
  ghost predicate Moves(s: Recovery.State, s': Recovery.State)
  {
    Recovery.Step(s, Recovery.Proceed) == s'
  }

  ghost predicate Chain(states: seq<Recovery.State>)
  {
    forall i :: 0 < i < |states| ==> Moves(states[i - 1], states[i])
  }

  /** `n` steps of the process, one after another. */
  ghost predicate Leads(s: Recovery.State, n: nat, s': Recovery.State)
  {
    exists states :: |states| == n + 1 && states[0] == s && states[n] == s' && Chain(states)
  }

  lemma LeadsNowhere(s: Recovery.State)
    ensures Leads(s, 0, s)
  {
    assert Chain([s]);
  }

  lemma LeadsMore(s: Recovery.State, n: nat, s': Recovery.State, s'': Recovery.State)
    requires Leads(s, n, s') && Moves(s', s'')
    ensures Leads(s, n + 1, s'')
  {
    var states :| |states| == n + 1 && states[0] == s && states[n] == s' && Chain(states);
    assert Chain(states + [s'']);
  }

  lemma LeadsOn(s: Recovery.State, m: nat, s': Recovery.State, n: nat, s'': Recovery.State)
    requires Leads(s, m, s') && Leads(s', n, s'')
    ensures Leads(s, m + n, s'')
  {
    var first :| |first| == m + 1 && first[0] == s && first[m] == s' && Chain(first);
    var second :| |second| == n + 1 && second[0] == s' && second[n] == s'' && Chain(second);
    var states := first + second[1..];
    forall i | 0 < i < |states| ensures Moves(states[i - 1], states[i]) {
      if i <= m {
        assert Moves(first[i - 1], first[i]);
      } else {
        assert Moves(second[i - m - 1], second[i - m]);
      }
    }
    assert Chain(states) && states[m + n] == s'';
  }

  /** Such steps are a run of Recovery's step system. */
  lemma {:induction false} LeadsIsARun(s: Recovery.State, n: nat, s': Recovery.State)
    requires Leads(s, n, s')
    ensures Exec(Recovery.Step, s, seq(n, _ => Recovery.Proceed)) == s'
  {
    var states :| |states| == n + 1 && states[0] == s && states[n] == s' && Chain(states);
    if n == 0 {
    } else {
      assert Chain(states[..n]);
      assert Moves(states[n - 1], states[n]);
      LeadsIsARun(s, n - 1, states[n - 1]);
      ExecSnoc(Recovery.Step, s, seq(n - 1, _ => Recovery.Proceed), Recovery.Proceed);
      assert seq(n, _ => Recovery.Proceed) == seq(n - 1, _ => Recovery.Proceed) + [Recovery.Proceed];
    }
  }

  /** The bits with the first `n` entries at their original value. */
  function Undone(bits: map<nat, bool>, entries: seq<Recovery.Entry>, n: nat): map<nat, bool>
    requires n <= |entries|
  {
    if n == 0 then bits else Undone(bits, entries, n - 1)[entries[n - 1].path := entries[n - 1].original]
  }

  predicate Restorable(bits: map<nat, bool>, entries: seq<Recovery.Entry>)
  {
    forall i :: 0 <= i < |entries| ==>
      entries[i].path in bits
        && (bits[entries[i].path] == entries[i].original || bits[entries[i].path] == entries[i].desired)
  }

  lemma {:induction false} UndoneElsewhere(bits: map<nat, bool>, entries: seq<Recovery.Entry>, n: nat, path: nat)
    requires n <= |entries| && path in bits && forall i :: 0 <= i < n ==> entries[i].path != path
    ensures path in Undone(bits, entries, n) && Undone(bits, entries, n)[path] == bits[path]
  {
    if n == 0 {
    } else {
      UndoneElsewhere(bits, entries, n - 1, path);
    }
  }

  lemma {:induction false} UndoneAt(bits: map<nat, bool>, entries: seq<Recovery.Entry>, n: nat, i: nat)
    requires i < n <= |entries| && Recovery.Distinct(entries)
    ensures entries[i].path in Undone(bits, entries, n)
      && Undone(bits, entries, n)[entries[i].path] == entries[i].original
  {
    if i == n - 1 {
    } else {
      UndoneAt(bits, entries, n - 1, i);
    }
  }

  lemma {:induction false} UndoneKeys(bits: map<nat, bool>, entries: seq<Recovery.Entry>, n: nat)
    requires n <= |entries| && forall i :: 0 <= i < n ==> entries[i].path in bits
    ensures Undone(bits, entries, n).Keys == bits.Keys
  {
    if n == 0 {
    } else {
      UndoneKeys(bits, entries, n - 1);
    }
  }

  /** The process is at the start of a pass of `restore` over restorable bits. */
  predicate AtPass(s: Recovery.State, op: nat)
  {
    Recovery.Restores(s.process) && s.process.op == op && s.process.next == 0 && op in s.journals
    && Recovery.Distinct(s.journals[op].entries) && Restorable(s.bits, s.journals[op].entries)
  }

  lemma ChecksOne(s: Recovery.State, op: nat, i: nat)
    requires s.process == Recovery.Checking(op, i) && op in s.journals && i < |s.journals[op].entries|
    requires Restorable(s.bits, s.journals[op].entries)
    ensures Moves(s, s.(process := Recovery.Checking(op, i + 1)))
  {
  }

  lemma {:induction false} ChecksAll(s: Recovery.State, op: nat, n: nat)
    requires AtPass(s, op) && s.process.Checking? && n <= |s.journals[op].entries|
    ensures Leads(s, n, s.(process := Recovery.Checking(op, n)))
  {
    if n == 0 {
      LeadsNowhere(s);
    } else {
      var before := s.(process := Recovery.Checking(op, n - 1));
      ChecksAll(s, op, n - 1);
      ChecksOne(before, op, n - 1);
      LeadsMore(s, n - 1, before, s.(process := Recovery.Checking(op, n)));
    }
  }

  lemma WritesOne(s: Recovery.State, op: nat, i: nat, e: Recovery.Entry)
    requires s.process == Recovery.Writing(op, i) && op in s.journals && i < |s.journals[op].entries|
    requires e == s.journals[op].entries[i] && e.path in s.bits
    requires s.bits[e.path] == e.original || s.bits[e.path] == e.desired
    ensures Moves(s, s.(bits := s.bits[e.path := e.original], process := Recovery.Writing(op, i + 1)))
  {
    if s.bits[e.path] == e.original {
      assert s.bits[e.path := e.original] == s.bits;
    }
  }

  lemma {:induction false} WritesAll(s: Recovery.State, op: nat, n: nat)
    requires AtPass(s, op) && s.process.Writing? && n <= |s.journals[op].entries|
    ensures Leads(s, n, s.(bits := Undone(s.bits, s.journals[op].entries, n), process := Recovery.Writing(op, n)))
  {
    if n == 0 {
      LeadsNowhere(s);
    } else {
      var entries := s.journals[op].entries;
      var e := entries[n - 1];
      var before := s.(bits := Undone(s.bits, entries, n - 1), process := Recovery.Writing(op, n - 1));
      WritesAll(s, op, n - 1);
      UndoneElsewhere(s.bits, entries, n - 1, e.path);
      WritesOne(before, op, n - 1, e);
      LeadsMore(s, n - 1, before, s.(bits := Undone(s.bits, entries, n), process := Recovery.Writing(op, n)));
    }
  }

  lemma VerifiesOne(s: Recovery.State, op: nat, i: nat)
    requires s.process == Recovery.Verifying(op, i) && op in s.journals && i < |s.journals[op].entries|
    requires Original(s.bits, s.journals[op].entries)
    ensures Moves(s, s.(process := Recovery.Verifying(op, i + 1)))
  {
  }

  predicate Original(bits: map<nat, bool>, entries: seq<Recovery.Entry>)
  {
    forall i :: 0 <= i < |entries| ==> entries[i].path in bits && bits[entries[i].path] == entries[i].original
  }

  lemma {:induction false} VerifiesAll(s: Recovery.State, op: nat, n: nat)
    requires s.process == Recovery.Verifying(op, 0) && op in s.journals && n <= |s.journals[op].entries|
    requires Original(s.bits, s.journals[op].entries)
    ensures Leads(s, n, s.(process := Recovery.Verifying(op, n)))
  {
    if n == 0 {
      LeadsNowhere(s);
    } else {
      var before := s.(process := Recovery.Verifying(op, n - 1));
      VerifiesAll(s, op, n - 1);
      VerifiesOne(before, op, n - 1);
      LeadsMore(s, n - 1, before, s.(process := Recovery.Verifying(op, n)));
    }
  }

  lemma PassEnds(s: Recovery.State, op: nat)
    requires Recovery.Restores(s.process) && s.process.op == op && op in s.journals
    requires s.process.next == |s.journals[op].entries|
    ensures Moves(s, Recovery.RestorePassEnds(s))
  {
  }

  /** The three passes, each with the store that ends it. */
  lemma CheckPass(s: Recovery.State, op: nat)
    requires AtPass(s, op) && s.process.Checking?
    ensures var j := s.journals[op];
      Leads(s, |j.entries| + 1,
            Recovery.SetJournal(s, op, Recovery.Transition(j, [Recovery.Restoring]), Recovery.Writing(op, 0)))
  {
    var n := |s.journals[op].entries|;
    var last := s.(process := Recovery.Checking(op, n));
    ChecksAll(s, op, n);
    PassEnds(last, op);
    LeadsMore(s, n, last, Recovery.RestorePassEnds(last));
  }

  lemma WritingEnds(s: Recovery.State, op: nat)
    requires op in s.journals && s.process == Recovery.Writing(op, |s.journals[op].entries|)
    ensures Moves(s, s.(process := Recovery.Verifying(op, 0)))
  {
  }

  lemma WritePass(s: Recovery.State, op: nat, undone: map<nat, bool>)
    requires AtPass(s, op) && s.process.Writing?
    requires undone == Undone(s.bits, s.journals[op].entries, |s.journals[op].entries|)
    ensures Leads(s, |s.journals[op].entries| + 1, s.(bits := undone, process := Recovery.Verifying(op, 0)))
  {
    var n := |s.journals[op].entries|;
    WritesAll(s, op, n);
    var last := s.(bits := undone, process := Recovery.Writing(op, n));
    assert Leads(s, n, last);
    WritingEnds(last, op);
    LeadsMore(s, n, last, s.(bits := undone, process := Recovery.Verifying(op, 0)));
  }

  lemma VerifyPass(s: Recovery.State, op: nat)
    requires s.process == Recovery.Verifying(op, 0) && op in s.journals && Original(s.bits, s.journals[op].entries)
    ensures var j := s.journals[op];
      Leads(s, |j.entries| + 1,
            Recovery.SetJournal(s, op, Recovery.Transition(j, [Recovery.Restored]), Recovery.Cleaning(op)))
  {
    var n := |s.journals[op].entries|;
    var last := s.(process := Recovery.Verifying(op, n));
    VerifiesAll(s, op, n);
    PassEnds(last, op);
    LeadsMore(s, n, last, Recovery.RestorePassEnds(last));
  }

  /** The state that three complete passes leave. */
  function AfterPasses(s: Recovery.State, op: nat): Recovery.State
    requires op in s.journals
  {
    var j := s.journals[op];
    var stored := Recovery.Transition(j, [Recovery.Restoring, Recovery.Restored]);
    s.(bits := Undone(s.bits, j.entries, |j.entries|), journals := s.journals[op := stored],
      process := Recovery.Cleaning(op))
  }

  /** `restore` as Recovery runs it, from its first pass to its last store. */
  lemma ThreePasses(s: Recovery.State, op: nat)
    requires AtPass(s, op) && s.process.Checking?
    ensures Leads(s, 3 * (|s.journals[op].entries| + 1), AfterPasses(s, op))
  {
    var j, n := s.journals[op], |s.journals[op].entries|;
    var s1 := Recovery.SetJournal(s, op, Recovery.Transition(j, [Recovery.Restoring]), Recovery.Writing(op, 0));
    var s2 := s1.(bits := Undone(s.bits, j.entries, n), process := Recovery.Verifying(op, 0));
    CheckPass(s, op);
    WritePass(s1, op, Undone(s.bits, j.entries, n));
    UndoneIsOriginal(s.bits, j.entries);
    VerifyPass(s2, op);
    PassesCompose(s, op);
    LeadsThrice(s, n + 1, s1, s2, AfterPasses(s, op));
  }

  lemma LeadsThrice(s: Recovery.State, n: nat, s1: Recovery.State, s2: Recovery.State, s3: Recovery.State)
    requires Leads(s, n, s1) && Leads(s1, n, s2) && Leads(s2, n, s3)
    ensures Leads(s, 3 * n, s3)
  {
    LeadsOn(s, n, s1, n, s2);
    LeadsOn(s, 2 * n, s2, n, s3);
  }

  lemma UndoneIsOriginal(bits: map<nat, bool>, entries: seq<Recovery.Entry>)
    requires Recovery.Distinct(entries)
    ensures Original(Undone(bits, entries, |entries|), entries)
  {
    forall i | 0 <= i < |entries|
      ensures var u := Undone(bits, entries, |entries|);
        entries[i].path in u && u[entries[i].path] == entries[i].original {
      UndoneAt(bits, entries, |entries|, i);
    }
  }

  /** The two stores of the passes together. */
  lemma PassesCompose(s: Recovery.State, op: nat)
    requires op in s.journals
    ensures var j := s.journals[op];
      var s1 := Recovery.SetJournal(s, op, Recovery.Transition(j, [Recovery.Restoring]), Recovery.Writing(op, 0));
      var s2 := s1.(bits := Undone(s.bits, j.entries, |j.entries|), process := Recovery.Verifying(op, 0));
      Recovery.SetJournal(s2, op, Recovery.Transition(s2.journals[op], [Recovery.Restored]), Recovery.Cleaning(op))
      == AfterPasses(s, op)
  {
    var j := s.journals[op];
    var twice := j.transitions + [Recovery.Restoring] + [Recovery.Restored];
    assert twice == j.transitions + [Recovery.Restoring, Recovery.Restored];
    var first := Recovery.Transition(j, [Recovery.Restoring]);
    var second := Recovery.Transition(first, [Recovery.Restored]);
    assert s.journals[op := first][op := second] == s.journals[op := second];
  }

  // ------------------------------------------------------------------ agreement

  lemma CalmIsAtPass(bits: map<nat, string>, entries: seq<CpuIdle.IdleEntry>)
    requires CpuIdle.Distinct(entries) && CpuIdle.Restorable(bits, entries)
    ensures Recovery.Distinct(EntriesOf(entries)) && Restorable(BitsOf(bits), EntriesOf(entries))
  {
    forall i | 0 <= i < |entries| ensures CpuIdle.RestorableEntry(bits, entries[i]) {
    }
  }

  lemma MovedIsUndoneAt(
      before: map<nat, string>, bits: map<nat, string>, entries: seq<CpuIdle.IdleEntry>, es: seq<Recovery.Entry>,
        path: nat)
    requires CpuIdle.Moved(before, bits, entries, |entries|, CpuIdle.Undoing) && path in bits
    requires es == EntriesOf(entries) && Recovery.Distinct(es)
    ensures path in Undone(BitsOf(before), es, |es|) && BitOf(bits[path]) == Undone(BitsOf(before), es, |es|)[path]
  {
    if i :| 0 <= i < |entries| && entries[i].path == path {
      UndoneAt(BitsOf(before), es, |es|, i);
    } else {
      UndoneElsewhere(BitsOf(before), es, |es|, path);
    }
  }

  lemma EqualMaps(a: map<nat, bool>, b: map<nat, bool>)
    requires a.Keys == b.Keys && forall k :: k in a ==> a[k] == b[k]
    ensures a == b
  {
  }

  lemma EntriesHaveBits(bits: map<nat, string>, entries: seq<CpuIdle.IdleEntry>)
    requires CpuIdle.Restorable(bits, entries)
    ensures forall i :: 0 <= i < |entries| ==> EntriesOf(entries)[i].path in BitsOf(bits)
  {
    forall i | 0 <= i < |entries| ensures EntriesOf(entries)[i].path in BitsOf(bits) {
      assert CpuIdle.RestorableEntry(bits, entries[i]);
    }
  }

  /** Moving every entry back is undoing every entry. */
  lemma MovedIsUndone(before: map<nat, string>, bits: map<nat, string>, entries: seq<CpuIdle.IdleEntry>)
    requires CpuIdle.Distinct(entries) && CpuIdle.Restorable(before, entries)
    requires CpuIdle.Moved(before, bits, entries, |entries|, CpuIdle.Undoing)
    ensures BitsOf(bits) == Undone(BitsOf(before), EntriesOf(entries), |entries|)
  {
    var es := EntriesOf(entries);
    var undone := Undone(BitsOf(before), es, |es|);
    assert Recovery.Distinct(es);
    EntriesHaveBits(before, entries);
    UndoneKeys(BitsOf(before), es, |es|);
    forall path | path in BitsOf(bits) ensures BitsOf(bits)[path] == undone[path] {
      MovedIsUndoneAt(before, bits, entries, es, path);
    }
    EqualMaps(BitsOf(bits), undone);
  }

  lemma StagesAgree(stages: seq<CpuIdle.Stage>)
    requires stages == [CpuIdle.Restoring, CpuIdle.Restored]
    ensures StagesOf(stages) == [Recovery.Restoring, Recovery.Restored]
  {
  }

  /** Recovery's passes on the same bits and entries. */
  lemma PassesAgree(
      before: map<nat, string>, bits: map<nat, string>, entries: seq<CpuIdle.IdleEntry>, s: Recovery.State, op: nat)
    requires CpuIdle.Distinct(entries) && CpuIdle.Restorable(before, entries)
    requires CpuIdle.Moved(before, bits, entries, |entries|, CpuIdle.Undoing)
    requires op in s.journals && s.journals[op].entries == EntriesOf(entries)
    requires s.process == Recovery.Checking(op, 0) && s.bits == BitsOf(before)
    ensures Leads(s, 3 * (|entries| + 1), AfterPasses(s, op))
    ensures AfterPasses(s, op).bits == BitsOf(bits)
  {
    CalmIsAtPass(before, entries);
    ThreePasses(s, op);
    MovedIsUndone(before, bits, entries);
  }

  /** On a quiet host with restorable bits, `restore` against the host and
      Recovery's process, started on the same bits and entries, end with the
      same bits and with the same stages added to the journal. */
  method RestoresAgree(host: CpuIdle.Host, entries: seq<CpuIdle.IdleEntry>, ghost s: Recovery.State, ghost op: nat)
      returns (r: CpuIdle.Result<()>, ghost trace: seq<CpuIdle.Access>, ghost s': Recovery.State)
    requires host.quiet && CpuIdle.Calm(host.items, host.bits, entries)
    requires op in s.journals && s.journals[op].entries == EntriesOf(entries)
    requires s.process == Recovery.Checking(op, 0) && s.bits == BitsOf(host.bits)
    modifies host
    ensures r.Ok? && host.log == old(host.log) + trace
    ensures Leads(s, 3 * (|entries| + 1), s') && op in s'.journals
    ensures s'.bits == BitsOf(host.bits)
    ensures s'.journals[op].transitions == s.journals[op].transitions + StagesOf(CpuIdle.Stages(trace))
  {
    s' := AfterPasses(s, op);
    r, trace := host.Restore(entries);
    PassesAgree(old(host.bits), host.bits, entries, s, op);
    StagesAgree(CpuIdle.Stages(trace));
  }
}
