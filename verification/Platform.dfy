/** The benchmark's own check of the idle policy, independent of benchctl.

    The benchmark upper-cases state names, benchctl compares them exactly, and
    each walks the sysfs tree by itself. They agree on an applied policy exactly
    when no state name merely looks like POLL or C1.
*/
module Platform {
  import opened Machine
  import opened CpuIdle

  datatype CpuIdleState = CpuIdleState(cpu: nat, name: string, disabled: bool)

  function UpperChar(c: char): char
  {
    if 'a' <= c <= 'z' then (c as int - 'a' as int + 'A' as int) as char else c
  }

  /** `to_ascii_uppercase` */
  function Upper(name: string): string
  {
    if name == "" then "" else [UpperChar(name[0])] + Upper(name[1..])
  }

  predicate Kept(name: string)
  {
    name == "POLL" || name == "C1"
  }

  /** A directory whose name starts with `state`. */
  predicate IsState(item: Item)
  {
    item.directory && !item.file.Unrelated?
  }

  function CountFolded(items: seq<Item>, name: string): nat
  {
    if items == [] then 0
    else
      var last := items[|items| - 1];
      CountFolded(items[..|items| - 1], name) + (if IsState(last) && Upper(last.name) == name then 1 else 0)
  }

  function StatesOfCpu(cpu: nat, items: seq<Item>, bits: map<nat, string>): seq<CpuIdleState>
  {
    if items == [] then []
    else
      var last := items[|items| - 1];
      StatesOfCpu(cpu, items[..|items| - 1], bits)
      + (if IsState(last) then [CpuIdleState(cpu, Upper(last.name), last.path in bits && bits[last.path] == "1")]
        else [])
  }

  predicate BitsReadable(items: seq<Item>, bits: map<nat, string>)
  {
    forall i :: 0 <= i < |items| && IsState(items[i]) ==> items[i].path in bits && IsBit(bits[items[i].path])
  }

  /** A CPU that `read_cpuidle` accepts. */
  predicate CpuReadable(items: map<nat, seq<Item>>, bits: map<nat, string>, cpu: nat)
  {
    cpu in items && BitsReadable(items[cpu], bits)
    && CountFolded(items[cpu], "POLL") == 1 && CountFolded(items[cpu], "C1") == 1
  }

  predicate CpusReadable(items: map<nat, seq<Item>>, bits: map<nat, string>, cpus: seq<nat>)
  {
    forall i :: 0 <= i < |cpus| ==> cpus[i] in items && CpuReadable(items, bits, cpus[i])
  }

  function StatesOf(items: map<nat, seq<Item>>, bits: map<nat, string>, cpus: seq<nat>): seq<CpuIdleState>
    requires forall i :: 0 <= i < |cpus| ==> cpus[i] in items
  {
    if cpus == [] then []
    else
      var cpu := cpus[|cpus| - 1];
      StatesOf(items, bits, cpus[..|cpus| - 1]) + StatesOfCpu(cpu, items[cpu], bits)
  }

  method ReadCpu(items: seq<Item>, bits: map<nat, string>, cpu: nat) returns (r: Option<seq<CpuIdleState>>)
    ensures r.Some? <==>
      BitsReadable(items, bits) && CountFolded(items, "POLL") == 1 && CountFolded(items, "C1") == 1
    ensures r.Some? ==> r.value == StatesOfCpu(cpu, items, bits)
  {
    var result: seq<CpuIdleState> := [];
    var exactPoll, exactC1 := 0, 0;
    for i := 0 to |items|
      invariant BitsReadable(items[..i], bits) && result == StatesOfCpu(cpu, items[..i], bits)
      invariant exactPoll == Min(CountFolded(items[..i], "POLL"), 255)
        && exactC1 == Min(CountFolded(items[..i], "C1"), 255)
    {
      assert items[..i + 1][..i] == items[..i];
      var item := items[i];
      if !IsState(item) {
        continue;
      }
      var name := Upper(item.name);
      if item.path !in bits || !IsBit(bits[item.path]) {
        return None;
      }
      if name == "POLL" {
        exactPoll := SaturatingAdd(exactPoll, 1, 255);
      } else if name == "C1" {
        exactC1 := SaturatingAdd(exactC1, 1, 255);
      }
      result := result + [CpuIdleState(cpu, name, bits[item.path] == "1")];
    }
    assert items[..|items|] == items;
    if exactPoll != 1 || exactC1 != 1 {
      return None;
    }
    r := Some(result);
  }

  /** `read_cpuidle` */
  method ReadCpuidle(items: map<nat, seq<Item>>, bits: map<nat, string>, selected: seq<nat>)
    returns (r: Option<seq<CpuIdleState>>)
    ensures r.Some? <==> CpusReadable(items, bits, selected)
    ensures r.Some? ==> r.value == StatesOf(items, bits, selected)
  {
    var result: seq<CpuIdleState> := [];
    for i := 0 to |selected|
      invariant CpusReadable(items, bits, selected[..i]) && result == StatesOf(items, bits, selected[..i])
    {
      assert selected[..i + 1][..i] == selected[..i];
      var cpu := selected[i];
      if cpu !in items {
        return None;
      }
      var states := ReadCpu(items[cpu], bits, cpu);
      if states.None? {
        return None;
      }
      result := result + states.value;
    }
    assert selected[..|selected|] == selected;
    r := Some(result);
  }

  predicate PolicyHolds(state: CpuIdleState)
  {
    state.disabled == !Kept(state.name)
  }

  /** `validate_cpuidle` */
  method ValidateCpuidle(items: map<nat, seq<Item>>, bits: map<nat, string>, selected: seq<nat>)
    returns (r: Option<seq<CpuIdleState>>)
    ensures r.Some? <==> Accepts(items, bits, selected)
  {
    var states := ReadCpuidle(items, bits, selected);
    if states.None? {
      return None;
    }
    for i := 0 to |states.value|
      invariant forall k :: 0 <= k < i ==> PolicyHolds(states.value[k])
    {
      var state := states.value[i];
      if state.name == "POLL" || state.name == "C1" {
        if state.disabled {
          return None;
        }
      } else if !state.disabled {
        return None;
      }
    }
    r := states;
  }

  predicate Accepts(items: map<nat, seq<Item>>, bits: map<nat, string>, cpus: seq<nat>)
  {
    CpusReadable(items, bits, cpus)
    && var states := StatesOf(items, bits, cpus); forall k :: 0 <= k < |states| ==> PolicyHolds(states[k])
  }

  /** A state whose name is POLL or C1 only after upper-casing. */
  predicate LooksKept(item: Item)
  {
    IsState(item) && Kept(Upper(item.name)) && !Kept(item.name)
  }

  ghost predicate NoLookalikes(items: map<nat, seq<Item>>, cpus: seq<nat>)
  {
    forall i, k :: 0 <= i < |cpus| && cpus[i] in items && 0 <= k < |items[cpus[i]]| ==> !LooksKept(items[cpus[i]][k])
  }

  lemma KeptNamesStayKept()
    ensures Upper("POLL") == "POLL" && Upper("C1") == "C1"
  {
    assert Upper("") == "";
    assert "L"[1..] == "" && "LL"[1..] == "L" && "OLL"[1..] == "LL" && "POLL"[1..] == "OLL";
    assert Upper("LL") == "LL" && Upper("OLL") == "OLL";
    assert "1"[1..] == "" && "C1"[1..] == "1" && Upper("1") == "1";
  }

  lemma {:induction false} EntryOfItem(cpu: nat, items: seq<Item>, k: nat)
    requires k < |items| && items[k].file.Numbered?
    ensures UnreadItem(cpu, items[k]) in CpuEntries(cpu, items)
  {
    if k == |items| - 1 {
    } else {
      EntryOfItem(cpu, items[..|items| - 1], k);
    }
  }

  lemma {:induction false} OwnEntriesInInventory(items: map<nat, seq<Item>>, cpus: seq<nat>, i: nat, e: IdleEntry)
    requires forall k :: 0 <= k < |cpus| ==> cpus[k] in items
    requires i < |cpus| && e in SortByState(CpuEntries(cpus[i], items[cpus[i]]))
    ensures e in InventoryOf(items, cpus)
  {
    if i == |cpus| - 1 {
    } else {
      OwnEntriesInInventory(items, cpus[..|cpus| - 1], i, e);
    }
  }

  lemma EntryInInventory(items: map<nat, seq<Item>>, cpus: seq<nat>, i: nat, k: nat)
    requires forall k :: 0 <= k < |cpus| ==> cpus[k] in items
    requires i < |cpus| && k < |items[cpus[i]]| && items[cpus[i]][k].file.Numbered?
    ensures UnreadItem(cpus[i], items[cpus[i]][k]) in InventoryOf(items, cpus)
  {
    EntryOfItem(cpus[i], items[cpus[i]], k);
    SortMembers(CpuEntries(cpus[i], items[cpus[i]]), UnreadItem(cpus[i], items[cpus[i]][k]));
    OwnEntriesInInventory(items, cpus, i, UnreadItem(cpus[i], items[cpus[i]][k]));
  }

  /** Every idle state of the CPU has the bit that benchctl wants for its name. */
  ghost predicate Policed(items: seq<Item>, bits: map<nat, string>)
  {
    forall k :: 0 <= k < |items| && IsState(items[k]) ==>
        items[k].path in bits && bits[items[k].path] == Desired(items[k].name)
  }

  ghost predicate EntriesApplied(entries: seq<IdleEntry>, bits: map<nat, string>)
  {
    forall j :: 0 <= j < |entries| ==> entries[j].path in bits && bits[entries[j].path] == entries[j].desired
  }

  lemma AppliedIsPoliced(items: map<nat, seq<Item>>, bits: map<nat, string>, cpus: seq<nat>, entries: seq<IdleEntry>,
      i: nat)
    requires GoodCpus(items, cpus) && UnreadAll(entries) == InventoryOf(items, cpus)
      && EntriesApplied(entries, bits) && i < |cpus|
    ensures Policed(items[cpus[i]], bits)
  {
    var list := items[cpus[i]];
    forall k | 0 <= k < |list| && IsState(list[k]) ensures list[k].path in bits
        && bits[list[k].path] == Desired(list[k].name) {
      EntryInInventory(items, cpus, i, k);
      var j :| 0 <= j < |entries| && UnreadAll(entries)[j] == UnreadItem(cpus[i], list[k]);
      assert Unread(entries[j]) == UnreadItem(cpus[i], list[k]);
    }
  }

  lemma {:induction false} StatesComeFromItems(cpu: nat, items: seq<Item>, bits: map<nat, string>)
    requires Policed(items, bits) && forall k :: 0 <= k < |items| ==> !LooksKept(items[k])
    ensures forall state :: state in StatesOfCpu(cpu, items, bits) ==> PolicyHolds(state)
  {
    KeptNamesStayKept();
    if items == [] {
    } else {
      StatesComeFromItems(cpu, items[..|items| - 1], bits);
    }
  }

  lemma {:induction false} StateOfItem(cpu: nat, items: seq<Item>, bits: map<nat, string>, k: nat)
    requires k < |items| && IsState(items[k])
    ensures var disabled := items[k].path in bits && bits[items[k].path] == "1";
      CpuIdleState(cpu, Upper(items[k].name), disabled) in StatesOfCpu(cpu, items, bits)
  {
    if k == |items| - 1 {
    } else {
      StateOfItem(cpu, items[..|items| - 1], bits, k);
    }
  }

  lemma {:induction false} SameCounts(items: seq<Item>, name: string)
    requires Kept(name) && GoodItems(items) && forall k :: 0 <= k < |items| ==> !LooksKept(items[k])
    ensures CountFolded(items, name) == Count(items, name)
  {
    KeptNamesStayKept();
    if items == [] {
    } else {
      SameCounts(items[..|items| - 1], name);
    }
  }

  lemma {:induction false} StateHasCpu(
      items: map<nat, seq<Item>>, bits: map<nat, string>, cpus: seq<nat>, state: CpuIdleState) returns (i: nat)
    requires (forall k :: 0 <= k < |cpus| ==> cpus[k] in items) && state in StatesOf(items, bits, cpus)
    ensures i < |cpus| && state in StatesOfCpu(cpus[i], items[cpus[i]], bits)
  {
    i := |cpus| - 1;
    if state in StatesOf(items, bits, cpus[..|cpus| - 1]) {
      i := StateHasCpu(items, bits, cpus[..|cpus| - 1], state);
    }
  }

  lemma {:induction false} CpuHasStates(
      items: map<nat, seq<Item>>, bits: map<nat, string>, cpus: seq<nat>, i: nat, state: CpuIdleState)
    requires forall k :: 0 <= k < |cpus| ==> cpus[k] in items
    requires i < |cpus| && state in StatesOfCpu(cpus[i], items[cpus[i]], bits)
    ensures state in StatesOf(items, bits, cpus)
  {
    if i == |cpus| - 1 {
    } else {
      CpuHasStates(items, bits, cpus[..|cpus| - 1], i, state);
    }
  }

  lemma CleanNamesAccepted(items: map<nat, seq<Item>>, bits: map<nat, string>, cpus: seq<nat>)
    requires GoodCpus(items, cpus) && NoLookalikes(items, cpus)
    requires forall i :: 0 <= i < |cpus| ==> cpus[i] in items && Policed(items[cpus[i]], bits)
    ensures Accepts(items, bits, cpus)
  {
    forall i | 0 <= i < |cpus| ensures CpuReadable(items, bits, cpus[i]) {
      assert GoodCpu(items, cpus[i]);
      SameCounts(items[cpus[i]], "POLL");
      SameCounts(items[cpus[i]], "C1");
    }
    var states := StatesOf(items, bits, cpus);
    forall k | 0 <= k < |states| ensures PolicyHolds(states[k]) {
      var i := StateHasCpu(items, bits, cpus, states[k]);
      StatesComeFromItems(cpus[i], items[cpus[i]], bits);
    }
  }

  lemma LookalikeRejected(items: map<nat, seq<Item>>, bits: map<nat, string>, cpus: seq<nat>, i: nat, k: nat)
    requires forall i :: 0 <= i < |cpus| ==> cpus[i] in items && Policed(items[cpus[i]], bits)
    requires i < |cpus| && k < |items[cpus[i]]| && LooksKept(items[cpus[i]][k])
    ensures !Accepts(items, bits, cpus)
  {
    var item := items[cpus[i]][k];
    var state := CpuIdleState(cpus[i], Upper(item.name), true);
    StateOfItem(cpus[i], items[cpus[i]], bits, k);
    CpuHasStates(items, bits, cpus, i, state);
    assert !PolicyHolds(state);
  }

  /** The policy that a successful `apply` leaves is accepted by the benchmark,
      for every choice and order of its CPUs among those applied, exactly when no
      state name of these is POLL or C1 only after upper-casing. */
  lemma AppliedPolicyAcceptedIffNoLookalike(
      items: map<nat, seq<Item>>, bits: map<nat, string>, cpus: seq<nat>, entries: seq<IdleEntry>, selected: seq<nat>)
    requires GoodCpus(items, cpus) && UnreadAll(entries) == InventoryOf(items, cpus) && EntriesApplied(entries, bits)
    requires forall i :: 0 <= i < |selected| ==> selected[i] in cpus
    ensures Accepts(items, bits, selected) <==> NoLookalikes(items, selected)
  {
    forall i | 0 <= i < |selected| ensures GoodCpu(items, selected[i]) && Policed(items[selected[i]], bits) {
      var j :| 0 <= j < |cpus| && cpus[j] == selected[i];
      AppliedIsPoliced(items, bits, cpus, entries, j);
    }
    if NoLookalikes(items, selected) {
      CleanNamesAccepted(items, bits, selected);
    } else {
      var i, k :| 0 <= i < |selected| && selected[i] in items && 0 <= k < |items[selected[i]]|
        && LooksKept(items[selected[i]][k]);
      LookalikeRejected(items, bits, selected, i, k);
    }
  }

  /** Distinct directories have distinct `disable` files. */
  ghost predicate DistinctPaths(items: map<nat, seq<Item>>)
  {
    forall c1, i, c2, k | c1 in items && c2 in items && 0 <= i < |items[c1]| && 0 <= k < |items[c2]| ::
      items[c1][i].path == items[c2][k].path ==> c1 == c2 && i == k
  }

  lemma {:induction false} CpuEntriesDistinct(cpu: nat, items: seq<Item>)
    requires forall i, k :: 0 <= i < k < |items| ==> items[i].path != items[k].path
    ensures Distinct(CpuEntries(cpu, items))
  {
    if items == [] {
    } else {
      var n := |items| - 1;
      CpuEntriesDistinct(cpu, items[..n]);
      forall e | e in CpuEntries(cpu, items[..n]) ensures e.path != items[n].path {
        CpuEntryOrigin(cpu, items[..n], e);
      }
    }
  }

  lemma {:induction false} InsertDistinct(e: IdleEntry, sorted: seq<IdleEntry>)
    requires Distinct(sorted) && forall x :: x in sorted ==> x.path != e.path
    ensures Distinct(InsertByState(e, sorted))
  {
    if sorted == [] || e.state < sorted[0].state {
    } else {
      assert sorted == [sorted[0]] + sorted[1..];
      InsertDistinct(e, sorted[1..]);
      var rest := InsertByState(e, sorted[1..]);
      forall k | 0 <= k < |rest| ensures rest[k].path != sorted[0].path {
        InsertMembers(e, sorted[1..], rest[k]);
      }
    }
  }

  lemma {:induction false} SortDistinct(entries: seq<IdleEntry>)
    requires Distinct(entries)
    ensures Distinct(SortByState(entries))
  {
    if entries == [] {
    } else {
      var n := |entries| - 1;
      SortDistinct(entries[..n]);
      forall x | x in SortByState(entries[..n]) ensures x.path != entries[n].path {
        SortMembers(entries[..n], x);
      }
      InsertDistinct(entries[n], SortByState(entries[..n]));
    }
  }

  lemma {:induction false} InventoryDistinct(items: map<nat, seq<Item>>, cpus: seq<nat>)
    requires DistinctPaths(items) && GoodCpus(items, cpus) && forall i, k :: 0 <= i < k < |cpus| ==> cpus[i] != cpus[k]
    ensures Distinct(InventoryOf(items, cpus))
  {
    if cpus == [] {
    } else {
      var n := |cpus| - 1;
      InventoryDistinct(items, cpus[..n]);
      var own := CpuEntries(cpus[n], items[cpus[n]]);
      CpuEntriesDistinct(cpus[n], items[cpus[n]]);
      SortDistinct(own);
      forall a, b | a in InventoryOf(items, cpus[..n]) && b in SortByState(own) ensures a.path != b.path {
        InventoryOrigin(items, cpus[..n], a);
        SortMembers(own, b);
        CpuEntryOrigin(cpus[n], items[cpus[n]], b);
      }
    }
  }

  lemma EntriesDistinct(items: map<nat, seq<Item>>, cpus: seq<nat>, entries: seq<IdleEntry>)
    requires DistinctPaths(items) && GoodCpus(items, cpus) && Increasing(cpus)
      && UnreadAll(entries) == InventoryOf(items, cpus)
    ensures Distinct(entries)
  {
    InventoryDistinct(items, cpus);
    forall i, k | 0 <= i < k < |entries| ensures entries[i].path != entries[k].path {
      assert UnreadAll(entries)[i] == Unread(entries[i]) && UnreadAll(entries)[k] == Unread(entries[k]);
    }
  }

  /** The bits after `apply` and `restore` are those before. */
  lemma UndoneExactly(before: map<nat, string>, applied: map<nat, string>, after: map<nat, string>,
      entries: seq<IdleEntry>)
    requires HoldBits(entries, before) && Moved(before, applied, entries, |entries|, Applying)
    requires Moved(applied, after, entries, |entries|, Undoing)
    ensures after == before
  {
    forall path | path in before ensures after[path] == before[path] {
      if i :| 0 <= i < |entries| && entries[i].path == path {
        assert entries[i] in entries;
      }
    }
  }

  /** What applying leaves is still calm, so `restore` succeeds on it. */
  lemma AppliedIsCalm(items: map<nat, seq<Item>>, before: map<nat, string>, bits: map<nat, string>,
      entries: seq<IdleEntry>)
    requires Readable(items, before, entries) && Restorable(before, entries)
      && Moved(before, bits, entries, |entries|, Applying)
    ensures Readable(items, bits, entries) && Restorable(bits, entries)
  {
    StillReadable(items, before, bits, entries, Applying);
    forall i | 0 <= i < |entries| ensures RestorableEntry(bits, entries[i]) {
      assert RestorableEntry(before, entries[i]);
    }
  }

  /** A run's inventory, apply, the benchmark's own check and restore, on a
      quiet host. `requested` are benchctl's CPUs in any order, `selected` the
      benchmark's roles among them in any order. Applying succeeds exactly when
      the request and the directories are in order; then the benchmark accepts
      exactly when there are no lookalikes, and restoring gives back every bit. */
  method ApplyValidateRestore(host: Host, requested: seq<nat>, selected: seq<nat>)
      returns (applied: bool, accepted: bool, restored: bool)
    requires host.quiet && DistinctPaths(host.items)
    requires forall i :: 0 <= i < |selected| ==> selected[i] in requested
    modifies host
    ensures applied <==>
      (requested != [] && NoDuplicates(requested) && GoodCpus(host.items, requested)
        && ReadableCpus(host.items, old(host.bits), requested))
    ensures applied ==> (accepted <==> NoLookalikes(host.items, selected)) && restored
    ensures host.bits == old(host.bits)
  {
    var cpus := AcceptCpus(requested);
    if cpus.None? {
      return false, false, false;
    }
    SameMembers(host.items, host.bits, requested, cpus.value);
    var entries, _ := host.Inventory(cpus.value);
    if entries.Err? {
      return false, false, false;
    }
    FreshInventoryIsCalm(host.items, host.bits, cpus.value, entries.value);
    EntriesDistinct(host.items, cpus.value, entries.value);
    ghost var before := host.bits;
    var r, _ := host.Apply(entries.value);
    assert r.Ok?;
    assert forall i :: 0 <= i < |selected| ==> selected[i] in multiset(requested);
    AppliedPolicyAcceptedIffNoLookalike(host.items, host.bits, cpus.value, entries.value, selected);
    AppliedIsCalm(host.items, before, host.bits, entries.value);
    var states := ValidateCpuidle(host.items, host.bits, selected);
    ghost var after := host.bits;
    var undone, _ := host.Restore(entries.value);
    UndoneExactly(before, after, host.bits, entries.value);
    return true, states.Some?, undone.Ok?;
  }

  /** Sorting the request changes neither which directories are read nor whether they are in order. */
  lemma SameMembers(items: map<nat, seq<Item>>, bits: map<nat, string>, requested: seq<nat>, cpus: seq<nat>)
    requires multiset(cpus) == multiset(requested)
    ensures GoodCpus(items, cpus) <==> GoodCpus(items, requested)
    ensures ReadableCpus(items, bits, cpus) <==> ReadableCpus(items, bits, requested)
  {
    assert forall i :: 0 <= i < |cpus| ==> cpus[i] in multiset(requested);
    assert forall i :: 0 <= i < |requested| ==> requested[i] in multiset(cpus);
  }
}
