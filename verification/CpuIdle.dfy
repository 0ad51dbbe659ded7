/** cpuidle control of benchctl against a host whose bits anybody may write.

    A host is a sysfs tree of idle states and the durable journal stages. Before
    every access of benchctl an outside writer may rewrite any `disable` file,
    unless the host is quiet.
*/
module CpuIdle {
  import opened Machine
  import Sorting

  datatype Stage = Restoring | Restored | RestoreConflict

  datatype IdleEntry = IdleEntry(cpu: nat, state: nat, name: string, path: nat, original: string, desired: string)

  datatype Error =
    | InvalidBit(path: nat)
    | ReadbackFailed(path: nat)
    | ChangedBeforeApply(path: nat)
    | Conflict(path: nat)
    | BadInventory
    | InventoryDiffers

  datatype Result<T> = Ok(value: T) | Err(error: Error)

  /** What benchctl did to the host, in order. */
  datatype Access = Read(path: nat, value: string) | Write(path: nat, value: string) | Stored(stage: Stage)

  predicate IsBit(value: string)
  {
    value == "0" || value == "1"
  }

  ghost predicate NoWrites(log: seq<Access>)
  {
    forall k :: 0 <= k < |log| ==> !log[k].Write?
  }

  ghost predicate NothingStored(log: seq<Access>)
  {
    forall k :: 0 <= k < |log| ==> !log[k].Stored?
  }

  /** The two conditional writes: `apply` replaces `original` by `desired`, `restore` the reverse. */
  datatype Direction = Applying | Undoing

  function Before(d: Direction, e: IdleEntry): string
  {
    if d.Applying? then e.original else e.desired
  }

  function Target(d: Direction, e: IdleEntry): string
  {
    if d.Applying? then e.desired else e.original
  }

  /** Access `k` writes the target value of an entry right after reading the value it replaces. */
  ghost predicate JustifiedWrite(log: seq<Access>, k: nat, entries: seq<IdleEntry>, d: Direction)
    requires k < |log|
  {
    0 < k && exists i :: 0 <= i < |entries| && Justifies(log, k, entries[i], d)
  }

  ghost predicate Justifies(log: seq<Access>, k: nat, e: IdleEntry, d: Direction)
    requires 0 < k < |log|
  {
    && log[k - 1] == Read(e.path, Before(d, e)) && log[k] == Write(e.path, Target(d, e))
    && (d.Undoing? ==> e.desired != e.original)
  }

  ghost predicate OnlyJustifiedWrites(log: seq<Access>, entries: seq<IdleEntry>, d: Direction)
  {
    forall k :: 0 <= k < |log| && log[k].Write? ==> JustifiedWrite(log, k, entries, d)
  }

  /** The reads of a pass that found the first `n` entries at their original value. */
  ghost function CleanReads(entries: seq<IdleEntry>, n: nat): seq<Access>
    requires n <= |entries|
  {
    seq(n, i requires 0 <= i < n => Read(entries[i].path, entries[i].original))
  }

  lemma JustifiedAppend(log: seq<Access>, more: seq<Access>, entries: seq<IdleEntry>, d: Direction)
    requires OnlyJustifiedWrites(log, entries, d) && OnlyJustifiedWrites(more, entries, d)
    ensures OnlyJustifiedWrites(log + more, entries, d)
  {
    var all := log + more;
    forall k | 0 <= k < |all| && all[k].Write? ensures JustifiedWrite(all, k, entries, d) {
      var part, j := if k < |log| then log else more, if k < |log| then k else k - |log|;
      assert JustifiedWrite(part, j, entries, d);
      var i :| 0 <= i < |entries| && Justifies(part, j, entries[i], d);
      assert Justifies(all, k, entries[i], d);
    }
  }

  /** The accesses of one entry's turn write at most once, right after the justifying read. */
  ghost predicate JustifiedTurn(turn: seq<Access>, e: IdleEntry, d: Direction)
  {
    forall k :: 0 <= k < |turn| && turn[k].Write? ==> k == 1 && Justifies(turn, 1, e, d)
  }

  lemma TurnJustified(log: seq<Access>, turn: seq<Access>, entries: seq<IdleEntry>, i: nat, d: Direction)
    requires OnlyJustifiedWrites(log, entries, d) && i < |entries| && JustifiedTurn(turn, entries[i], d)
    ensures OnlyJustifiedWrites(log + turn, entries, d)
  {
    forall k | 0 <= k < |turn| && turn[k].Write? ensures JustifiedWrite(turn, k, entries, d) {
      assert Justifies(turn, k, entries[i], d);
    }
    JustifiedAppend(log, turn, entries, d);
  }

  /** The accesses end with a durable RestoreConflict, the only thing stored. */
  ghost predicate EndsInConflict(log: seq<Access>)
  {
    |log| > 0 && log[|log| - 1] == Stored(RestoreConflict) && NothingStored(log[..|log| - 1])
  }

  predicate Distinct(entries: seq<IdleEntry>)
  {
    forall i, k :: 0 <= i < k < |entries| ==> entries[i].path != entries[k].path
  }

  /** The entry's bit has its original or its desired value. */
  predicate RestorableEntry(bits: map<nat, string>, e: IdleEntry)
  {
    e.path in bits && IsBit(e.original) && IsBit(e.desired) && (bits[e.path] == e.original || bits[e.path] == e.desired)
  }

  predicate Restorable(bits: map<nat, string>, entries: seq<IdleEntry>)
  {
    forall i :: 0 <= i < |entries| ==> RestorableEntry(bits, entries[i])
  }

  /** The first `n` entries have their target value and no other bit differs from `before`. */
  predicate Moved(before: map<nat, string>, bits: map<nat, string>, entries: seq<IdleEntry>, n: nat, d: Direction)
    requires n <= |entries|
  {
    && bits.Keys == before.Keys
    && (forall i :: 0 <= i < n ==> entries[i].path in bits && bits[entries[i].path] == Target(d, entries[i]))
    && (forall path :: path in bits && (forall i :: 0 <= i < n ==> entries[i].path != path) ==>
      bits[path] == before[path])
  }

  // ---------------------------------------------------------------------
  // The inventory of idle states
  // ---------------------------------------------------------------------

  /** A name below `cpuidle`: `state<n>`, `state<not a number>`, or anything else. */
  datatype FileName = Numbered(index: nat) | Unnumbered | Unrelated

  datatype Item = Item(path: nat, file: FileName, directory: bool, name: string)

  function Desired(name: string): string
  {
    if name == "POLL" || name == "C1" then "0" else "1"
  }

  /** An entry without the bit that was read into it. */
  function Unread(e: IdleEntry): IdleEntry
  {
    e.(original := "")
  }

  function UnreadAll(entries: seq<IdleEntry>): (r: seq<IdleEntry>)
    ensures |r| == |entries|
  {
    seq(|entries|, i requires 0 <= i < |entries| => Unread(entries[i]))
  }

  function UnreadItem(cpu: nat, item: Item): IdleEntry
    requires item.file.Numbered?
  {
    IdleEntry(cpu, item.file.index, item.name, item.path, "", Desired(item.name))
  }

  /** The idle states of one CPU, in directory order. */
  function CpuEntries(cpu: nat, items: seq<Item>): seq<IdleEntry>
  {
    if items == [] then []
    else
      var last := items[|items| - 1];
      CpuEntries(cpu, items[..|items| - 1]) + (if last.file.Numbered? then [UnreadItem(cpu, last)] else [])
  }

  /** How often a name occurs among the idle states. */
  function Count(items: seq<Item>, name: string): nat
  {
    if items == [] then 0
    else
      var last := items[|items| - 1];
      Count(items[..|items| - 1], name) + (if !last.file.Unrelated? && last.name == name then 1 else 0)
  }

  predicate GoodItems(items: seq<Item>)
  {
    forall i :: 0 <= i < |items| && !items[i].file.Unrelated? ==> items[i].file.Numbered? && items[i].directory
  }

  /** Each entry's `original` is the bit at its path. */
  predicate HoldBits(entries: seq<IdleEntry>, bits: map<nat, string>)
  {
    forall e :: e in entries ==> e.path in bits && e.original == bits[e.path]
  }

  predicate GoodCpus(items: map<nat, seq<Item>>, cpus: seq<nat>)
  {
    forall i :: 0 <= i < |cpus| ==> cpus[i] in items && GoodCpu(items, cpus[i])
  }

  /** One CPU's directory as `inventory` accepts it. */
  predicate GoodCpu(items: map<nat, seq<Item>>, cpu: nat)
  {
    && cpu in items
    && GoodItems(items[cpu])
    && Count(items[cpu], "POLL") == 1 && Count(items[cpu], "C1") == 1
  }

  /** Every idle state of the list has a valid bit. */
  predicate ReadableItems(items: seq<Item>, bits: map<nat, string>)
  {
    forall i :: 0 <= i < |items| && !items[i].file.Unrelated? ==> items[i].path in bits && IsBit(bits[items[i].path])
  }

  predicate ReadableCpu(items: map<nat, seq<Item>>, bits: map<nat, string>, cpu: nat)
  {
    cpu in items && ReadableItems(items[cpu], bits)
  }

  predicate ReadableCpus(items: map<nat, seq<Item>>, bits: map<nat, string>, cpus: seq<nat>)
  {
    forall i :: 0 <= i < |cpus| ==> ReadableCpu(items, bits, cpus[i])
  }

  /** Every state of every recorded CPU has a valid bit. */
  predicate Readable(items: map<nat, seq<Item>>, bits: map<nat, string>, entries: seq<IdleEntry>)
  {
    forall i :: 0 <= i < |entries| ==> ReadableCpu(items, bits, entries[i].cpu)
  }

  /** `sort_by_key(state)`, which is stable. */
  function InsertByState(e: IdleEntry, sorted: seq<IdleEntry>): seq<IdleEntry>
  {
    if sorted == [] || e.state < sorted[0].state then [e] + sorted
    else [sorted[0]] + InsertByState(e, sorted[1..])
  }

  function SortByState(entries: seq<IdleEntry>): seq<IdleEntry>
  {
    if entries == [] then []
    else InsertByState(entries[|entries| - 1], SortByState(entries[..|entries| - 1]))
  }

  function InventoryOf(items: map<nat, seq<Item>>, cpus: seq<nat>): seq<IdleEntry>
    requires forall i :: 0 <= i < |cpus| ==> cpus[i] in items
  {
    if cpus == [] then []
    else
      var cpu := cpus[|cpus| - 1];
      InventoryOf(items, cpus[..|cpus| - 1]) + SortByState(CpuEntries(cpu, items[cpu]))
  }

  /** The fields `validate_inventory` compares. */
  predicate SameState(left: IdleEntry, right: IdleEntry)
  {
    left.cpu == right.cpu && left.state == right.state && left.name == right.name && left.path == right.path
  }

  function InsertCpu(cpu: nat, sorted: seq<nat>): seq<nat>
  {
    if sorted == [] || cpu < sorted[0] then [cpu] + sorted
    else if cpu == sorted[0] then sorted
    else [sorted[0]] + InsertCpu(cpu, sorted[1..])
  }

  /** The CPUs of the entries, sorted and without duplicates. */
  function SortedCpus(entries: seq<IdleEntry>): seq<nat>
  {
    if entries == [] then [] else InsertCpu(entries[|entries| - 1].cpu, SortedCpus(entries[..|entries| - 1]))
  }

  lemma {:induction false} InsertCpuMembers(cpu: nat, sorted: seq<nat>, x: nat)
    ensures x in InsertCpu(cpu, sorted) <==> x == cpu || x in sorted
  {
    if sorted == [] || cpu <= sorted[0] {
    } else {
      InsertCpuMembers(cpu, sorted[1..], x);
      assert sorted == [sorted[0]] + sorted[1..];
    }
  }

  lemma {:induction false} CpusAreRecorded(entries: seq<IdleEntry>, cpu: nat)
    ensures cpu in SortedCpus(entries) <==> exists k :: 0 <= k < |entries| && entries[k].cpu == cpu
  {
    if entries == [] {
    } else {
      var n := |entries| - 1;
      CpusAreRecorded(entries[..n], cpu);
      InsertCpuMembers(entries[n].cpu, SortedCpus(entries[..n]), cpu);
    }
  }

  predicate SameStates(items: map<nat, seq<Item>>, recorded: seq<IdleEntry>)
  {
    var cpus := SortedCpus(recorded);
    && GoodCpus(items, cpus)
    && var current := InventoryOf(items, cpus);
    |current| == |recorded| && forall i :: 0 <= i < |recorded| ==> SameState(current[i], recorded[i])
  }

  lemma DifferentStates(items: map<nat, seq<Item>>, recorded: seq<IdleEntry>, cpus: seq<nat>, current: seq<IdleEntry>)
    requires cpus == SortedCpus(recorded) && GoodCpus(items, cpus) && UnreadAll(current) == InventoryOf(items, cpus)
    requires |current| != |recorded| || exists i :: 0 <= i < |recorded| && !SameState(current[i], recorded[i])
    ensures !SameStates(items, recorded)
  {
    if |current| == |recorded| {
      var i :| 0 <= i < |recorded| && !SameState(current[i], recorded[i]);
      assert UnreadAll(current)[i] == Unread(current[i]);
    }
  }

  lemma EqualStates(items: map<nat, seq<Item>>, recorded: seq<IdleEntry>, cpus: seq<nat>, current: seq<IdleEntry>)
    requires cpus == SortedCpus(recorded) && GoodCpus(items, cpus) && UnreadAll(current) == InventoryOf(items, cpus)
    requires |current| == |recorded| && forall i :: 0 <= i < |recorded| ==> SameState(current[i], recorded[i])
    ensures SameStates(items, recorded)
  {
    forall i | 0 <= i < |recorded| ensures SameState(InventoryOf(items, cpus)[i], recorded[i]) {
      assert UnreadAll(current)[i] == Unread(current[i]);
    }
  }

  lemma {:induction false} InsertUnread(e: IdleEntry, sorted: seq<IdleEntry>)
    ensures UnreadAll(InsertByState(e, sorted)) == InsertByState(Unread(e), UnreadAll(sorted))
  {
    if sorted != [] && e.state >= sorted[0].state {
      InsertUnread(e, sorted[1..]);
      assert UnreadAll(sorted)[1..] == UnreadAll(sorted[1..]);
      assert UnreadAll(InsertByState(e, sorted)) == [Unread(sorted[0])] + UnreadAll(InsertByState(e, sorted[1..]));
    } else {
      assert UnreadAll([e] + sorted) == [Unread(e)] + UnreadAll(sorted);
    }
  }

  /** Sorting does not look at the bits. */
  lemma {:induction false} SortUnread(entries: seq<IdleEntry>)
    ensures UnreadAll(SortByState(entries)) == SortByState(UnreadAll(entries))
  {
    if entries == [] {
    } else {
      var n := |entries| - 1;
      SortUnread(entries[..n]);
      assert UnreadAll(entries)[..n] == UnreadAll(entries[..n]);
      InsertUnread(entries[n], SortByState(entries[..n]));
    }
  }

  predicate OrderedByState(entries: seq<IdleEntry>)
  {
    forall i, k :: 0 <= i < k < |entries| ==> entries[i].state <= entries[k].state
  }

  /** The entries of one state number, in order. */
  function OfState(entries: seq<IdleEntry>, state: nat): seq<IdleEntry>
  {
    if entries == [] then []
    else (if entries[0].state == state then [entries[0]] else []) + OfState(entries[1..], state)
  }

  lemma {:induction false} OfStateAppend(entries: seq<IdleEntry>, last: IdleEntry, state: nat)
    ensures OfState(entries + [last], state) == OfState(entries, state) + if last.state == state then [last] else []
  {
    if entries == [] {
      assert [last][1..] == [];
    } else {
      var first := if entries[0].state == state then [entries[0]] else [];
      var tail := if last.state == state then [last] else [];
      OfStateAppend(entries[1..], last, state);
      assert (entries + [last])[1..] == entries[1..] + [last];
      assert OfState(entries + [last], state) == first + OfState(entries[1..] + [last], state);
      assert first + (OfState(entries[1..], state) + tail) == OfState(entries, state) + tail;
    }
  }

  lemma {:induction false} InsertMembers(e: IdleEntry, sorted: seq<IdleEntry>, x: IdleEntry)
    ensures x in InsertByState(e, sorted) <==> x == e || x in sorted
  {
    if sorted == [] || e.state < sorted[0].state {
    } else {
      InsertMembers(e, sorted[1..], x);
      assert sorted == [sorted[0]] + sorted[1..];
    }
  }

  lemma {:induction false} InsertOrders(e: IdleEntry, sorted: seq<IdleEntry>)
    requires OrderedByState(sorted)
    ensures OrderedByState(InsertByState(e, sorted))
      && multiset(InsertByState(e, sorted)) == multiset(sorted) + multiset{e}
  {
    if sorted == [] || e.state < sorted[0].state {
    } else {
      InsertOrders(e, sorted[1..]);
      assert sorted == [sorted[0]] + sorted[1..];
      assert InsertByState(e, sorted[1..])[0].state >= sorted[0].state;
    }
  }

  lemma {:induction false} NoneOfState(sorted: seq<IdleEntry>, state: nat)
    requires forall i :: 0 <= i < |sorted| ==> sorted[i].state > state
    ensures OfState(sorted, state) == []
  {
    if sorted == [] {
    } else {
      NoneOfState(sorted[1..], state);
    }
  }

  lemma {:induction false} InsertIsStable(e: IdleEntry, sorted: seq<IdleEntry>, state: nat)
    requires OrderedByState(sorted)
    ensures OfState(InsertByState(e, sorted), state) == OfState(sorted, state) + if e.state == state then [e] else []
  {
    if sorted == [] || e.state < sorted[0].state {
      assert ([e] + sorted)[1..] == sorted;
      if e.state == state {
        NoneOfState(sorted, state);
      }
    } else {
      InsertIsStable(e, sorted[1..], state);
      assert ([sorted[0]] + InsertByState(e, sorted[1..]))[1..] == InsertByState(e, sorted[1..]);
    }
  }

  /** `sort_by_key(state)`: the same entries, ordered by state, and entries of
      one state in their old order. */
  lemma {:induction false} SortIsStableSort(entries: seq<IdleEntry>)
    ensures OrderedByState(SortByState(entries)) && multiset(SortByState(entries)) == multiset(entries)
    ensures forall state :: OfState(SortByState(entries), state) == OfState(entries, state)
  {
    if entries == [] {
    } else {
      var n := |entries| - 1;
      SortIsStableSort(entries[..n]);
      assert entries == entries[..n] + [entries[n]];
      InsertOrders(entries[n], SortByState(entries[..n]));
      forall state ensures OfState(SortByState(entries), state) == OfState(entries, state) {
        InsertIsStable(entries[n], SortByState(entries[..n]), state);
        OfStateAppend(entries[..n], entries[n], state);
      }
    }
  }

  lemma SortMembers(entries: seq<IdleEntry>, x: IdleEntry)
    ensures x in SortByState(entries) <==> x in entries
  {
    SortIsStableSort(entries);
    assert x in multiset(entries) <==> x in entries;
    assert x in multiset(SortByState(entries)) <==> x in SortByState(entries);
  }

  /** What `inventory` has gathered from the first items of a CPU. */
  predicate Scanned(cpu: nat, items: seq<Item>, entries: seq<IdleEntry>, pollCount: nat, c1Count: nat)
  {
    GoodItems(items) && UnreadAll(entries) == CpuEntries(cpu, items)
    && pollCount == Count(items, "POLL") && c1Count == Count(items, "C1")
  }

  lemma ScannedSkip(cpu: nat, list: seq<Item>, i: nat, entries: seq<IdleEntry>, pollCount: nat, c1Count: nat,
                    bits: map<nat, string>)
    requires i < |list| && list[i].file.Unrelated? && Scanned(cpu, list[..i], entries, pollCount, c1Count)
    ensures Scanned(cpu, list[..i + 1], entries, pollCount, c1Count)
    ensures ReadableItems(list[..i], bits) ==> ReadableItems(list[..i + 1], bits)
  {
    assert list[..i + 1][..i] == list[..i];
  }

  lemma ScannedOne(cpu: nat, list: seq<Item>, i: nat, entries: seq<IdleEntry>, pollCount: nat, c1Count: nat,
                   bits: map<nat, string>, original: string)
    requires i < |list| && list[i].file.Numbered? && list[i].directory
    requires Scanned(cpu, list[..i], entries, pollCount, c1Count)
    ensures var item := list[i];
      var more := entries + [IdleEntry(cpu, item.file.index, item.name, item.path, original, Desired(item.name))];
      Scanned(cpu, list[..i + 1], more,
              pollCount + (if item.name == "POLL" then 1 else 0), c1Count + (if item.name == "C1" then 1 else 0))
      && (item.path in bits && bits[item.path] == original && HoldBits(entries, bits) ==> HoldBits(more, bits))
    ensures list[i].path in bits && IsBit(bits[list[i].path]) && ReadableItems(list[..i], bits) ==>
      ReadableItems(list[..i + 1], bits)
  {
    var item := list[i];
    var last := IdleEntry(cpu, item.file.index, item.name, item.path, original, Desired(item.name));
    assert list[..i + 1][..i] == list[..i];
    UnreadConcat(entries, [last]);
    assert UnreadAll([last]) == [UnreadItem(cpu, item)];
  }

  lemma SortHoldsBits(entries: seq<IdleEntry>, bits: map<nat, string>)
    ensures HoldBits(entries, bits) ==> HoldBits(SortByState(entries), bits)
  {
    forall e | e in SortByState(entries) ensures e in entries { SortMembers(entries, e); }
  }

  lemma UnreadConcat(a: seq<IdleEntry>, b: seq<IdleEntry>)
    ensures UnreadAll(a + b) == UnreadAll(a) + UnreadAll(b)
  {
  }

  /** One more CPU of an inventory. */
  lemma InventoryGrows(items: map<nat, seq<Item>>, bits: map<nat, string>, cpus: seq<nat>, i: nat,
                       entries: seq<IdleEntry>, own: seq<IdleEntry>)
    requires i < |cpus| && GoodCpus(items, cpus[..i]) && UnreadAll(entries) == InventoryOf(items, cpus[..i])
    requires GoodCpu(items, cpus[i]) && UnreadAll(own) == SortByState(CpuEntries(cpus[i], items[cpus[i]]))
    ensures GoodCpus(items, cpus[..i + 1]) && UnreadAll(entries + own) == InventoryOf(items, cpus[..i + 1])
    ensures ReadableCpus(items, bits, cpus[..i]) && ReadableCpu(items, bits, cpus[i]) ==>
      ReadableCpus(items, bits, cpus[..i + 1])
    ensures HoldBits(entries, bits) && HoldBits(own, bits) ==> HoldBits(entries + own, bits)
  {
    assert cpus[..i + 1][..i] == cpus[..i];
    UnreadConcat(entries, own);
  }

  // ---------------------------------------------------------------------
  // A fresh inventory is one that `validate_inventory` recognises
  // ---------------------------------------------------------------------

  predicate Increasing(cpus: seq<nat>)
  {
    forall i, k :: 0 <= i < k < |cpus| ==> cpus[i] < cpus[k]
  }

  /** No CPU is listed twice. */
  ghost predicate NoDuplicates(cpus: seq<nat>)
  {
    forall x :: multiset(cpus)[x] <= 1
  }

  lemma {:induction false} IncreasingHasNoDuplicates(cpus: seq<nat>)
    requires Increasing(cpus)
    ensures NoDuplicates(cpus)
  {
    if cpus == [] {
    } else {
      IncreasingHasNoDuplicates(cpus[1..]);
      assert cpus == [cpus[0]] + cpus[1..];
      assert cpus[0] !in cpus[1..];
      assert multiset(cpus[1..])[cpus[0]] == 0;
    }
  }

  lemma NeighboursAreDuplicates(cpus: seq<nat>, i: nat)
    requires 0 < i < |cpus| && cpus[i - 1] == cpus[i]
    ensures !NoDuplicates(cpus)
  {
    assert cpus == cpus[..i - 1] + [cpus[i]] + [cpus[i]] + cpus[i + 1..];
    assert multiset(cpus)[cpus[i]] >= 2;
  }

  /** The CPU list of a run: sorted, and refused when empty or when a CPU is
      listed twice. */
  method AcceptCpus(requested: seq<nat>) returns (cpus: Option<seq<nat>>)
    ensures cpus.Some? <==> requested != [] && NoDuplicates(requested)
    ensures cpus.Some? ==> Increasing(cpus.value) && multiset(cpus.value) == multiset(requested)
  {
    if requested == [] {
      return None;
    }
    var buffer := new nat[|requested|](i requires 0 <= i < |requested| => requested[i]);
    assert buffer[..] == requested;
    Sorting.SortInPlace(buffer);
    var sorted := buffer[..];
    for i := 1 to |sorted|
      invariant Increasing(sorted[..i])
    {
      if sorted[i - 1] == sorted[i] {
        NeighboursAreDuplicates(sorted, i);
        return None;
      }
    }
    assert sorted[..|sorted|] == sorted;
    IncreasingHasNoDuplicates(sorted);
    cpus := Some(sorted);
  }

  lemma {:induction false} InsertCpuIncreasing(cpu: nat, sorted: seq<nat>)
    requires Increasing(sorted)
    ensures Increasing(InsertCpu(cpu, sorted))
  {
    if sorted == [] || cpu <= sorted[0] {
    } else {
      InsertCpuIncreasing(cpu, sorted[1..]);
      var rest := InsertCpu(cpu, sorted[1..]);
      forall k | 0 <= k < |rest| ensures sorted[0] < rest[k] {
        InsertCpuMembers(cpu, sorted[1..], rest[k]);
      }
    }
  }

  /** Sorted and deduplicated. */
  lemma {:induction false} SortedCpusIncreasing(entries: seq<IdleEntry>)
    ensures Increasing(SortedCpus(entries))
  {
    if entries == [] {
    } else {
      SortedCpusIncreasing(entries[..|entries| - 1]);
      InsertCpuIncreasing(entries[|entries| - 1].cpu, SortedCpus(entries[..|entries| - 1]));
    }
  }

  lemma EmptyOrMember(s: seq<nat>)
    ensures s == [] || exists x :: x in s
  {
    if s != [] {
      assert s[0] in s;
    }
  }

  lemma {:induction false} IncreasingUnique(a: seq<nat>, b: seq<nat>)
    requires Increasing(a) && Increasing(b) && forall x :: x in a <==> x in b
    ensures a == b
  {
    EmptyOrMember(a);
    EmptyOrMember(b);
    if a == [] || b == [] {
    } else {
      assert a[0] in b && b[0] in a;
      forall x ensures x in a[1..] <==> x in b[1..] {
        assert x in a[1..] <==> x in a && x != a[0];
        assert x in b[1..] <==> x in b && x != b[0];
      }
      IncreasingUnique(a[1..], b[1..]);
    }
  }

  lemma {:induction false} CpuEntriesOfCpu(cpu: nat, items: seq<Item>)
    ensures forall e :: e in CpuEntries(cpu, items) ==> e.cpu == cpu
  {
    if items == [] {
    } else {
      CpuEntriesOfCpu(cpu, items[..|items| - 1]);
    }
  }

  lemma {:induction false} InventoryCpus(items: map<nat, seq<Item>>, cpus: seq<nat>, cpu: nat)
    requires GoodCpus(items, cpus)
    ensures cpu in cpus <==> exists e :: e in InventoryOf(items, cpus) && e.cpu == cpu
  {
    if cpus == [] {
    } else {
      var n := |cpus| - 1;
      var own := CpuEntries(cpus[n], items[cpus[n]]);
      InventoryCpus(items, cpus[..n], cpu);
      assert cpu in cpus <==> cpu in cpus[..n] || cpu == cpus[n];
      CpuEntriesOfCpu(cpus[n], items[cpus[n]]);
      forall e | e in SortByState(own) ensures e.cpu == cpus[n] { SortMembers(own, e); }
      NoStatesNoPoll(cpus[n], items[cpus[n]]);
      SortMembers(own, own[0]);
      assert own[0] in InventoryOf(items, cpus) && own[0].cpu == cpus[n];
    }
  }

  lemma {:induction false} SortedCpusUnread(entries: seq<IdleEntry>)
    ensures SortedCpus(UnreadAll(entries)) == SortedCpus(entries)
  {
    if entries == [] {
    } else {
      var n := |entries| - 1;
      SortedCpusUnread(entries[..n]);
      assert UnreadAll(entries)[..n] == UnreadAll(entries[..n]);
    }
  }

  /** The CPUs recovered from an inventory of increasing CPUs are those CPUs. */
  lemma InventoryHasItsCpus(items: map<nat, seq<Item>>, cpus: seq<nat>, entries: seq<IdleEntry>)
    requires GoodCpus(items, cpus) && Increasing(cpus) && UnreadAll(entries) == InventoryOf(items, cpus)
    ensures SortedCpus(entries) == cpus
  {
    var inventory := InventoryOf(items, cpus);
    SortedCpusUnread(entries);
    SortedCpusIncreasing(inventory);
    forall x ensures x in SortedCpus(inventory) <==> x in cpus {
      CpusAreRecorded(inventory, x);
      InventoryCpus(items, cpus, x);
    }
    IncreasingUnique(SortedCpus(inventory), cpus);
  }

  /** What a quiet `inventory` of increasing CPUs returns can be applied and restored. */
  lemma FreshInventoryIsCalm(items: map<nat, seq<Item>>, bits: map<nat, string>, cpus: seq<nat>,
      entries: seq<IdleEntry>)
    requires GoodCpus(items, cpus) && ReadableCpus(items, bits, cpus) && Increasing(cpus)
    requires UnreadAll(entries) == InventoryOf(items, cpus) && HoldBits(entries, bits)
    ensures SameStates(items, entries) && Readable(items, bits, entries) && Restorable(bits, entries)
    ensures forall i :: 0 <= i < |entries| ==> bits[entries[i].path] == entries[i].original
  {
    var inventory := InventoryOf(items, cpus);
    InventoryHasItsCpus(items, cpus, entries);
    assert forall i :: 0 <= i < |entries| ==> inventory[i] == Unread(entries[i]);
    forall i | 0 <= i < |entries| ensures ReadableCpu(items, bits, entries[i].cpu)
        && RestorableEntry(bits, entries[i]) {
      assert inventory[i] in inventory;
      InventoryCpus(items, cpus, entries[i].cpu);
      InventoryOrigin(items, cpus, inventory[i]);
    }
  }

  lemma {:induction false} CpuEntryOrigin(cpu: nat, items: seq<Item>, e: IdleEntry)
    requires e in CpuEntries(cpu, items)
    ensures exists k :: 0 <= k < |items| && items[k].file.Numbered? && e == UnreadItem(cpu, items[k])
  {
    var n := |items| - 1;
    if e in CpuEntries(cpu, items[..n]) {
      CpuEntryOrigin(cpu, items[..n], e);
      var k :| 0 <= k < n && items[..n][k].file.Numbered? && e == UnreadItem(cpu, items[..n][k]);
      assert items[k] == items[..n][k];
    } else {
      assert e == UnreadItem(cpu, items[n]);
    }
  }

  /** Every entry of an inventory comes from an idle state of a listed CPU. */
  lemma {:induction false} InventoryOrigin(items: map<nat, seq<Item>>, cpus: seq<nat>, e: IdleEntry)
    requires GoodCpus(items, cpus) && e in InventoryOf(items, cpus)
    ensures exists i, k ::
      0 <= i < |cpus| && 0 <= k < |items[cpus[i]]| && items[cpus[i]][k].file.Numbered?
        && e == UnreadItem(cpus[i], items[cpus[i]][k])
  {
    var n := |cpus| - 1;
    if e in InventoryOf(items, cpus[..n]) {
      InventoryOrigin(items, cpus[..n], e);
      var i, k :| 0 <= i < n && 0 <= k < |items[cpus[..n][i]]| && items[cpus[..n][i]][k].file.Numbered?
                  && e == UnreadItem(cpus[..n][i], items[cpus[..n][i]][k]);
      assert cpus[i] == cpus[..n][i];
    } else {
      SortMembers(CpuEntries(cpus[n], items[cpus[n]]), e);
      CpuEntryOrigin(cpus[n], items[cpus[n]], e);
    }
  }

  lemma StillRestorable(before: map<nat, string>, bits: map<nat, string>, entries: seq<IdleEntry>, n: nat)
    requires n < |entries| && Distinct(entries) && Restorable(before, entries)
      && Moved(before, bits, entries, n, Undoing)
    ensures RestorableEntry(bits, entries[n])
  {
    assert RestorableEntry(before, entries[n]);
  }

  lemma StillOriginal(before: map<nat, string>, bits: map<nat, string>, entries: seq<IdleEntry>, n: nat)
    requires n < |entries| && Distinct(entries) && Restorable(before, entries) && HoldBits(entries, before)
    requires Moved(before, bits, entries, n, Applying)
    ensures entries[n].path in bits && bits[entries[n].path] == entries[n].original
    ensures IsBit(entries[n].original) && IsBit(entries[n].desired)
  {
    assert RestorableEntry(before, entries[n]) && entries[n] in entries;
  }

  lemma MovedOne(before: map<nat, string>, bits: map<nat, string>, bits': map<nat, string>,
                 entries: seq<IdleEntry>, n: nat, d: Direction)
    requires n < |entries| && Distinct(entries) && entries[n].path in bits && Moved(before, bits, entries, n, d)
    requires bits' == bits[entries[n].path := Target(d, entries[n])]
    ensures Moved(before, bits', entries, n + 1, d)
  {
  }

  lemma StillReadable(items: map<nat, seq<Item>>, before: map<nat, string>, bits: map<nat, string>,
                      entries: seq<IdleEntry>, d: Direction)
    requires Readable(items, before, entries) && Restorable(before, entries)
      && Moved(before, bits, entries, |entries|, d)
    ensures Readable(items, bits, entries)
  {
    forall i | 0 <= i < |entries| ensures ReadableCpu(items, bits, entries[i].cpu) {
      assert ReadableCpu(items, before, entries[i].cpu);
    }
  }

  lemma StaysRestorable(before: map<nat, string>, bits: map<nat, string>, entries: seq<IdleEntry>)
    requires Restorable(before, entries) && Moved(before, bits, entries, |entries|, Undoing)
    ensures Restorable(bits, entries) && Moved(bits, bits, entries, |entries|, Undoing)
  {
  }

  predicate IsConflict(r: Result<()>)
  {
    r.Err? && r.error.Conflict?
  }

  /** A conflict is stored last and alone; anything else stores nothing. */
  ghost predicate StoresConflictOnly(r: Result<()>, log: seq<Access>)
  {
    if IsConflict(r) then EndsInConflict(log) else NothingStored(log)
  }

  /** The stages stored, in order. */
  function Stages(log: seq<Access>): seq<Stage>
  {
    if log == [] then []
    else
      var last := log[|log| - 1];
      Stages(log[..|log| - 1]) + if last.Stored? then [last.stage] else []
  }

  lemma {:induction false} StagesConcat(a: seq<Access>, b: seq<Access>)
    ensures Stages(a + b) == Stages(a) + Stages(b)
    decreases |b|
  {
    if b == [] {
      assert a + b == a;
    } else {
      assert (a + b)[..|a + b| - 1] == a + b[..|b| - 1];
      StagesConcat(a, b[..|b| - 1]);
    }
  }

  lemma {:induction false} NoStages(log: seq<Access>)
    requires NothingStored(log)
    ensures Stages(log) == []
  {
    if log == [] {
    } else {
      NoStages(log[..|log| - 1]);
    }
  }

  /** The stages of a successful restore. */
  lemma SuccessStages(begun: seq<Access>, written: seq<Access>, ended: seq<Access>, entries: seq<IdleEntry>)
    requires NothingStored(begun) && NothingStored(written) && EndsInCleanPass(ended, entries)
    ensures Stages(begun + [Stored(Restoring)] + written + ended) == [Restoring, Restored]
  {
    var before :| NothingStored(before) && ended == before + CleanReads(entries, |entries|) + [Stored(Restored)];
    var quiet := before + CleanReads(entries, |entries|);
    NoStages(begun);
    NoStages(written);
    NoStages(quiet);
    StagesConcat(begun, [Stored(Restoring)]);
    StagesConcat(begun + [Stored(Restoring)], written);
    StagesConcat(begun + [Stored(Restoring)] + written, ended);
    StagesConcat(quiet, [Stored(Restored)]);
  }

  /** The reads of a pass that found every entry at `original` or `desired`. */
  ghost predicate RestorableReads(pass: seq<Access>, entries: seq<IdleEntry>)
  {
    |pass| == |entries|
    && forall i :: 0 <= i < |entries| ==>
         pass[i] == Read(entries[i].path, entries[i].original) || pass[i] == Read(entries[i].path, entries[i].desired)
  }

  /** A log that ends with such a pass, and has written and stored nothing. */
  ghost predicate EndsInRestorableReads(log: seq<Access>, entries: seq<IdleEntry>)
  {
    exists before, pass :: log == before + pass && NoWrites(before) && NothingStored(before)
      && RestorableReads(pass, entries)
  }

  /** Restoring became durable right after a pass that found nothing unexpected,
      with nothing written or stored before. */
  ghost predicate FirstPassWasClean(log: seq<Access>, entries: seq<IdleEntry>)
  {
    exists begun, rest :: log == begun + [Stored(Restoring)] + rest && EndsInRestorableReads(begun, entries)
  }

  /** What `restore` has made durable by the time it returns, and when: a value
      that is neither original nor desired in the first pass leaves no Restoring,
      and without Restoring nothing is written. */
  ghost predicate RestoreOrder(r: Result<()>, log: seq<Access>, entries: seq<IdleEntry>)
  {
    && OnlyJustifiedWrites(log, entries, Undoing)
    && (forall k :: 0 <= k < |log| && log[k].Write? ==> Stored(Restoring) in log[..k])
    && (Stored(Restoring) in log ==> FirstPassWasClean(log, entries))
    && (r.Ok? <==> Stored(Restored) in log)
    && (r.Ok? ==> exists before :: log == before + CleanReads(entries, |entries|) + [Stored(Restored)])
    && (r.Ok? ==> Stages(log) == [Restoring, Restored])
    && (IsConflict(r) <==> Stored(RestoreConflict) in log)
  }

  lemma ConflictLast(r: Result<()>, first: seq<Access>, last: seq<Access>)
    requires NothingStored(first) && StoresConflictOnly(r, last)
    ensures StoresConflictOnly(r, first + last)
  {
    if IsConflict(r) {
      assert (first + last)[..|first + last| - 1] == first + last[..|last| - 1];
    }
  }

  /** Nothing is stored but Restored, directly after a pass that read every entry at `original`. */
  ghost predicate EndsInCleanPass(log: seq<Access>, entries: seq<IdleEntry>)
  {
    exists before :: NothingStored(before) && log == before + CleanReads(entries, |entries|) + [Stored(Restored)]
  }

  lemma RestoreStops(r: Result<()>, begun: seq<Access>, written: seq<Access>, ended: seq<Access>,
      entries: seq<IdleEntry>)
    requires r.Err? && NothingStored(begun)
    requires (ended == [] && StoresConflictOnly(r, written)) || (NothingStored(written) && StoresConflictOnly(r, ended))
    ensures var log := begun + [Stored(Restoring)] + written + ended;
      Stored(Restored) !in log && (IsConflict(r) <==> Stored(RestoreConflict) in log)
  {
    var log := begun + [Stored(Restoring)] + written + ended;
    if IsConflict(r) { assert log[|log| - 1] == Stored(RestoreConflict); }
  }

  lemma RestoreSucceeds(begun: seq<Access>, written: seq<Access>, ended: seq<Access>, entries: seq<IdleEntry>)
    requires NothingStored(begun) && NothingStored(written) && EndsInCleanPass(ended, entries)
    ensures var log := begun + [Stored(Restoring)] + written + ended;
      && Stored(Restored) in log && Stored(RestoreConflict) !in log
      && exists before :: log == before + CleanReads(entries, |entries|) + [Stored(Restored)]
  {
    var before :| NothingStored(before) && ended == before + CleanReads(entries, |entries|) + [Stored(Restored)];
    var log := begun + [Stored(Restoring)] + written + ended;
    var begin := begun + [Stored(Restoring)] + written + before;
    assert log == begin + CleanReads(entries, |entries|) + [Stored(Restored)];
    assert log[|log| - 1] == Stored(Restored);
  }

  lemma RestoreOrdered(r: Result<()>, begun: seq<Access>, written: seq<Access>, ended: seq<Access>,
      entries: seq<IdleEntry>)
    requires NothingStored(begun) && NoWrites(begun) && EndsInRestorableReads(begun, entries)
    requires NoWrites(ended) && OnlyJustifiedWrites(written, entries, Undoing)
    requires r.Ok? ==> NothingStored(written) && EndsInCleanPass(ended, entries)
    requires r.Err? ==>
      (ended == [] && StoresConflictOnly(r, written)) || (NothingStored(written) && StoresConflictOnly(r, ended))
    ensures RestoreOrder(r, begun + [Stored(Restoring)] + written + ended, entries)
  {
    JustifiedAppend(begun + [Stored(Restoring)], written, entries, Undoing);
    JustifiedAppend(begun + [Stored(Restoring)] + written, ended, entries, Undoing);
    var log := begun + [Stored(Restoring)] + written + ended;
    assert log == begun + [Stored(Restoring)] + (written + ended);
    assert forall k :: |begun| < k < |log| ==> log[..k][|begun|] == Stored(Restoring);
    if r.Ok? { SuccessStages(begun, written, ended, entries); }
    if r.Ok? {
      RestoreSucceeds(begun, written, ended, entries);
    } else {
      RestoreStops(r, begun, written, ended, entries);
    }
  }

  /** A restore that ends before Restoring. */
  lemma RestoreNeverBegan(r: Result<()>, begun: seq<Access>, entries: seq<IdleEntry>)
    requires r.Err? && NoWrites(begun) && StoresConflictOnly(r, begun)
    ensures Stored(Restoring) !in begun && RestoreOrder(r, begun, entries)
  {
    if IsConflict(r) {
      var n := |begun| - 1;
      assert begun == begun[..n] + [Stored(RestoreConflict)];
    }
  }

  lemma JoinAccesses(log: seq<Access>, begun: seq<Access>, stage: Access, written: seq<Access>, ended: seq<Access>)
    ensures log + begun + [stage] + written + ended == log + (begun + [stage] + written + ended)
  {
  }

  /** The recorded states are there, with restorable bits. */
  ghost predicate Calm(items: map<nat, seq<Item>>, bits: map<nat, string>, entries: seq<IdleEntry>)
  {
    Distinct(entries) && Restorable(bits, entries) && SameStates(items, entries) && Readable(items, bits, entries)
  }

  /** Every method that touches the host returns, as `trace`, the accesses it
      appended to the log. */
  class Host {
    const items: map<nat, seq<Item>>
    const quiet: bool
    var bits: map<nat, string>
    var log: seq<Access>

    constructor (items: map<nat, seq<Item>>, quiet: bool, bits: map<nat, string>)
      ensures this.items == items && this.quiet == quiet && this.bits == bits && log == []
    {
      this.items := items;
      this.quiet := quiet;
      this.bits := bits;
      log := [];
    }

    /** The outside writer's turn. */
    method Interfere()
      modifies this`bits
      ensures bits.Keys == old(bits).Keys
      ensures quiet ==> bits == old(bits)
    {
      var next: map<nat, string> := *;
      if !quiet && next.Keys == bits.Keys {
        bits := next;
      }
    }

    method Store(stage: Stage)
      modifies this`log
      ensures log == old(log) + [Stored(stage)]
    {
      log := log + [Stored(stage)];
    }

    /** `read_bit` */
    method ReadBit(path: nat) returns (r: Result<string>)
      modifies this
      ensures bits.Keys == old(bits).Keys && (quiet ==> bits == old(bits))
      ensures r.Ok? ==>
        path in bits && r.value == bits[path] && IsBit(r.value) && log == old(log) + [Read(path, r.value)]
      ensures r.Err? ==> r.error == InvalidBit(path) && log == old(log) && (path in bits ==> !IsBit(bits[path]))
    {
      Interfere();
      if path !in bits || !IsBit(bits[path]) {
        return Err(InvalidBit(path));
      }
      log := log + [Read(path, bits[path])];
      r := Ok(bits[path]);
    }

    /** `write_bit`, with its readback */
    method WriteBit(path: nat, value: string) returns (r: Result<()>, ghost readback: seq<Access>)
      modifies this
      ensures bits.Keys == old(bits).Keys + {path}
      ensures log == old(log) + [Write(path, value)] + readback && NoWrites(readback) && NothingStored(readback)
      ensures r.Ok? ==> readback == [Read(path, value)]
      ensures r.Err? ==> !r.error.Conflict?
      ensures quiet ==> bits == old(bits)[path := value] && (IsBit(value) ==> r.Ok?)
    {
      Interfere();
      bits := bits[path := value];
      log := log + [Write(path, value)];
      var actual := ReadBit(path);
      if actual.Err? {
        return Err(actual.error), [];
      }
      readback := [Read(path, actual.value)];
      if actual.value != value {
        return Err(ReadbackFailed(path)), readback;
      }
      r := Ok(());
    }

    /** First pass of `restore`: an unexpected value is a durable conflict, and nothing is written. */
    method CheckPass(entries: seq<IdleEntry>) returns (r: Result<()>, ghost trace: seq<Access>)
      modifies this
      ensures bits.Keys == old(bits).Keys && (quiet ==> bits == old(bits))
      ensures log == old(log) + trace && NoWrites(trace) && StoresConflictOnly(r, trace)
      ensures r.Ok? ==> RestorableReads(trace, entries)
      ensures quiet && Restorable(bits, entries) ==> r.Ok?
    {
      trace := [];
      for i := 0 to |entries|
        invariant bits.Keys == old(bits).Keys && (quiet ==> bits == old(bits))
        invariant log == old(log) + trace && NoWrites(trace) && NothingStored(trace)
        invariant RestorableReads(trace, entries[..i])
      {
        var e := entries[i];
        var current := ReadBit(e.path);
        if current.Err? {
          return Err(current.error), trace;
        }
        trace := trace + [Read(e.path, current.value)];
        if current.value != e.original && current.value != e.desired {
          Store(RestoreConflict);
          return Err(Conflict(e.path)), trace + [Stored(RestoreConflict)];
        }
      }
      r := Ok(());
    }

    /** The second pass of `restore` at one entry: write `original` where `desired` was just read. */
    method UndoEntry(e: IdleEntry) returns (r: Result<()>, ghost trace: seq<Access>)
      modifies this
      ensures bits.Keys == old(bits).Keys
      ensures log == old(log) + trace && JustifiedTurn(trace, e, Undoing) && StoresConflictOnly(r, trace)
      ensures quiet && RestorableEntry(old(bits), e) ==> r.Ok? && bits == old(bits)[e.path := e.original]
    {
      var current := ReadBit(e.path);
      if current.Err? {
        return Err(current.error), [];
      }
      trace := [Read(e.path, current.value)];
      if current.value != e.original && current.value != e.desired {
        Store(RestoreConflict);
        return Err(Conflict(e.path)), trace + [Stored(RestoreConflict)];
      }
      r := Ok(());
      if current.value == e.desired && current.value != e.original {
        ghost var readback;
        r, readback := WriteBit(e.path, e.original);
        trace := trace + [Write(e.path, e.original)] + readback;
      }
    }

    /** Second pass of `restore`. */
    method WritePass(entries: seq<IdleEntry>) returns (r: Result<()>, ghost trace: seq<Access>)
      modifies this
      ensures bits.Keys == old(bits).Keys
      ensures log == old(log) + trace && OnlyJustifiedWrites(trace, entries, Undoing) && StoresConflictOnly(r, trace)
      ensures quiet && Distinct(entries) && Restorable(old(bits), entries) ==>
        r.Ok? && Moved(old(bits), bits, entries, |entries|, Undoing)
    {
      ghost var calm := quiet && Distinct(entries) && Restorable(old(bits), entries);
      trace := [];
      for i := 0 to |entries|
        invariant bits.Keys == old(bits).Keys
        invariant log == old(log) + trace && NothingStored(trace) && OnlyJustifiedWrites(trace, entries, Undoing)
        invariant calm ==> Moved(old(bits), bits, entries, i, Undoing)
      {
        ghost var before := bits;
        if calm { StillRestorable(old(bits), bits, entries, i); }
        ghost var turn;
        r, turn := UndoEntry(entries[i]);
        TurnJustified(trace, turn, entries, i, Undoing);
        trace := trace + turn;
        if r.Err? {
          return;
        }
        if calm { MovedOne(old(bits), before, bits, entries, i, Undoing); }
      }
      r := Ok(());
    }

    /** Final pass of `restore`: every entry must read as `original`. */
    method VerifyPass(entries: seq<IdleEntry>) returns (r: Result<()>, ghost trace: seq<Access>)
      modifies this
      ensures bits.Keys == old(bits).Keys && (quiet ==> bits == old(bits))
      ensures log == old(log) + trace && NoWrites(trace) && StoresConflictOnly(r, trace)
      ensures r.Ok? ==> trace == CleanReads(entries, |entries|)
      ensures quiet && Restorable(bits, entries) && Moved(bits, bits, entries, |entries|, Undoing) ==> r.Ok?
    {
      trace := [];
      for i := 0 to |entries|
        invariant bits.Keys == old(bits).Keys && (quiet ==> bits == old(bits))
        invariant trace == CleanReads(entries, i) && log == old(log) + trace
      {
        var e := entries[i];
        var actual := ReadBit(e.path);
        if actual.Err? {
          return Err(actual.error), trace;
        }
        trace := trace + [Read(e.path, actual.value)];
        if actual.value != e.original {
          Store(RestoreConflict);
          return Err(Conflict(e.path)), trace + [Stored(RestoreConflict)];
        }
      }
      r := Ok(());
    }

    /** The entries of one CPU, in directory order. */
    method ReadCpu(cpu: nat) returns (r: Result<seq<IdleEntry>>, ghost trace: seq<Access>)
      modifies this
      ensures bits.Keys == old(bits).Keys && (quiet ==> bits == old(bits))
      ensures log == old(log) + trace && NoWrites(trace) && NothingStored(trace)
      ensures r.Err? ==> !r.error.Conflict?
      ensures r.Ok? ==> GoodCpu(items, cpu) && UnreadAll(r.value) == CpuEntries(cpu, items[cpu])
      ensures r.Ok? && quiet ==> HoldBits(r.value, bits)
      ensures quiet ==> (r.Ok? <==> GoodCpu(items, cpu) && ReadableCpu(items, bits, cpu))
    {
      trace := [];
      if cpu !in items {
        return Err(BadInventory), trace;
      }
      var list := items[cpu];
      var pollCount, c1Count := 0, 0;
      var entries: seq<IdleEntry> := [];
      for i := 0 to |list|
        invariant bits.Keys == old(bits).Keys && (quiet ==> bits == old(bits))
        invariant log == old(log) + trace && NoWrites(trace) && NothingStored(trace)
        invariant Scanned(cpu, list[..i], entries, pollCount, c1Count)
        invariant quiet ==> HoldBits(entries, bits) && ReadableItems(list[..i], bits)
      {
        var item := list[i];
        if item.file.Unrelated? {
          ScannedSkip(cpu, list, i, entries, pollCount, c1Count, bits);
          continue;
        }
        if item.file.Unnumbered? || !item.directory {
          return Err(BadInventory), trace;
        }
        var original := ReadBit(item.path);
        if original.Err? {
          return Err(original.error), trace;
        }
        trace := trace + [Read(item.path, original.value)];
        ScannedOne(cpu, list, i, entries, pollCount, c1Count, bits, original.value);
        if item.name == "POLL" || item.name == "C1" {
          if item.name == "POLL" {
            pollCount := pollCount + 1;
          } else {
            c1Count := c1Count + 1;
          }
        }
        var desired := Desired(item.name);
        entries := entries + [IdleEntry(cpu, item.file.index, item.name, item.path, original.value, desired)];
      }
      assert list[..|list|] == list;
      if entries == [] || pollCount != 1 || c1Count != 1 {
        assert entries == [] ==> CpuEntries(cpu, list) == [];
        NoStatesNoPoll(cpu, list);
        return Err(BadInventory), trace;
      }
      r := Ok(entries);
    }

    /** The entries of one CPU, sorted by state. */
    method ReadSortedCpu(cpu: nat) returns (r: Result<seq<IdleEntry>>, ghost trace: seq<Access>)
      modifies this
      ensures bits.Keys == old(bits).Keys && (quiet ==> bits == old(bits))
      ensures log == old(log) + trace && NoWrites(trace) && NothingStored(trace)
      ensures r.Err? ==> !r.error.Conflict?
      ensures r.Ok? ==> GoodCpu(items, cpu) && UnreadAll(r.value) == SortByState(CpuEntries(cpu, items[cpu]))
      ensures r.Ok? && quiet ==> HoldBits(r.value, bits)
      ensures quiet ==> (r.Ok? <==> GoodCpu(items, cpu) && ReadableCpu(items, bits, cpu))
    {
      r, trace := ReadCpu(cpu);
      if r.Ok? {
        SortUnread(r.value);
        SortHoldsBits(r.value, bits);
        r := Ok(SortByState(r.value));
      }
    }

    /** `inventory` */
    method Inventory(cpus: seq<nat>) returns (r: Result<seq<IdleEntry>>, ghost trace: seq<Access>)
      modifies this
      ensures bits.Keys == old(bits).Keys && (quiet ==> bits == old(bits))
      ensures log == old(log) + trace && NoWrites(trace) && NothingStored(trace)
      ensures r.Err? ==> !r.error.Conflict?
      ensures r.Ok? ==> GoodCpus(items, cpus) && UnreadAll(r.value) == InventoryOf(items, cpus)
      ensures r.Ok? && quiet ==> HoldBits(r.value, bits)
      ensures quiet ==> (r.Ok? <==> GoodCpus(items, cpus) && ReadableCpus(items, bits, cpus))
    {
      var entries: seq<IdleEntry> := [];
      trace := [];
      for i := 0 to |cpus|
        invariant bits.Keys == old(bits).Keys && (quiet ==> bits == old(bits))
        invariant log == old(log) + trace && NoWrites(trace) && NothingStored(trace)
        invariant GoodCpus(items, cpus[..i]) && UnreadAll(entries) == InventoryOf(items, cpus[..i])
        invariant quiet ==> HoldBits(entries, bits) && ReadableCpus(items, bits, cpus[..i])
      {
        var own;
        ghost var turn;
        own, turn := ReadSortedCpu(cpus[i]);
        trace := trace + turn;
        if own.Err? {
          return own, trace;
        }
        InventoryGrows(items, bits, cpus, i, entries, own.value);
        entries := entries + own.value;
      }
      assert cpus[..|cpus|] == cpus;
      r := Ok(entries);
    }

    /** `validate_inventory`: the CPUs of the recorded entries still expose the same states. */
    method ValidateInventory(recorded: seq<IdleEntry>) returns (r: Result<()>, ghost trace: seq<Access>)
      modifies this
      ensures bits.Keys == old(bits).Keys && (quiet ==> bits == old(bits))
      ensures log == old(log) + trace && NoWrites(trace) && NothingStored(trace)
      ensures r.Err? ==> !r.error.Conflict?
      ensures r.Ok? ==> SameStates(items, recorded)
      ensures quiet && SameStates(items, recorded) && Readable(items, bits, recorded) ==> r.Ok?
    {
      var cpus := SortedCpus(recorded);
      forall i | 0 <= i < |cpus| ensures exists k :: 0 <= k < |recorded| && recorded[k].cpu == cpus[i] {
        CpusAreRecorded(recorded, cpus[i]);
      }
      var current;
      current, trace := Inventory(cpus);
      if current.Err? {
        return Err(current.error), trace;
      }
      if |current.value| != |recorded| || exists i :: 0 <= i < |recorded| && !SameState(current.value[i], recorded[i]) {
        DifferentStates(items, recorded, cpus, current.value);
        return Err(InventoryDiffers), trace;
      }
      EqualStates(items, recorded, cpus, current.value);
      r := Ok(());
    }

    /** `apply` at one entry: write `desired` where `original` was just read. */
    method ApplyEntry(e: IdleEntry) returns (r: Result<()>, ghost trace: seq<Access>)
      modifies this
      ensures bits.Keys == old(bits).Keys
      ensures log == old(log) + trace && JustifiedTurn(trace, e, Applying) && NothingStored(trace)
      ensures r.Ok? ==> trace == [Read(e.path, e.original), Write(e.path, e.desired), Read(e.path, e.desired)]
      ensures quiet && r.Ok? ==> e.path in bits && bits == old(bits)[e.path := e.desired]
      ensures quiet && e.path in old(bits) && IsBit(e.original) && IsBit(e.desired) ==>
        old(bits)[e.path] == e.original ==> r.Ok?
    {
      var current := ReadBit(e.path);
      if current.Err? {
        return Err(current.error), [];
      }
      trace := [Read(e.path, current.value)];
      if current.value != e.original {
        return Err(ChangedBeforeApply(e.path)), trace;
      }
      ghost var readback;
      r, readback := WriteBit(e.path, e.desired);
      trace := trace + [Write(e.path, e.desired)] + readback;
    }

    /** The loop of `apply`. */
    method ApplyAll(entries: seq<IdleEntry>) returns (r: Result<()>, ghost trace: seq<Access>)
      modifies this
      ensures bits.Keys == old(bits).Keys
      ensures log == old(log) + trace && OnlyJustifiedWrites(trace, entries, Applying) && NothingStored(trace)
      ensures quiet && Distinct(entries) && r.Ok? ==> Moved(old(bits), bits, entries, |entries|, Applying)
      ensures quiet && Distinct(entries) && Restorable(old(bits), entries) && HoldBits(entries, old(bits)) ==> r.Ok?
    {
      ghost var calm := quiet && Distinct(entries) && Restorable(bits, entries) && HoldBits(entries, bits);
      trace := [];
      for i := 0 to |entries|
        invariant bits.Keys == old(bits).Keys
        invariant log == old(log) + trace && NothingStored(trace) && OnlyJustifiedWrites(trace, entries, Applying)
        invariant quiet && Distinct(entries) ==> Moved(old(bits), bits, entries, i, Applying)
      {
        ghost var before := bits;
        if calm { StillOriginal(old(bits), bits, entries, i); }
        ghost var turn;
        r, turn := ApplyEntry(entries[i]);
        TurnJustified(trace, turn, entries, i, Applying);
        trace := trace + turn;
        if r.Err? {
          return;
        }
        if quiet && Distinct(entries) { MovedOne(old(bits), before, bits, entries, i, Applying); }
      }
      r := Ok(());
    }

    /** `apply` */
    method Apply(entries: seq<IdleEntry>) returns (r: Result<()>, ghost trace: seq<Access>)
      modifies this
      ensures bits.Keys == old(bits).Keys
      ensures log == old(log) + trace && OnlyJustifiedWrites(trace, entries, Applying) && NothingStored(trace)
      ensures quiet && Distinct(entries) && r.Ok? ==> Moved(old(bits), bits, entries, |entries|, Applying)
      ensures quiet && Calm(items, old(bits), entries) && HoldBits(entries, old(bits)) ==> r.Ok?
    {
      r, trace := ValidateInventory(entries);
      if r.Err? {
        return;
      }
      ghost var writes;
      r, writes := ApplyAll(entries);
      JustifiedAppend(trace, writes, entries, Applying);
      trace := trace + writes;
    }

    /** `restore` up to its first write. */
    method RestoreBegins(entries: seq<IdleEntry>) returns (r: Result<()>, ghost trace: seq<Access>)
      modifies this
      ensures bits.Keys == old(bits).Keys && (quiet ==> bits == old(bits))
      ensures log == old(log) + trace && NoWrites(trace) && StoresConflictOnly(r, trace)
      ensures r.Ok? ==> EndsInRestorableReads(trace, entries)
      ensures quiet && Calm(items, bits, entries) ==> r.Ok?
    {
      ghost var checked;
      r, trace := ValidateInventory(entries);
      if r.Ok? {
        r, checked := CheckPass(entries);
        ConflictLast(r, trace, checked);
        trace := trace + checked;
      }
    }

    /** `restore` after its last write. */
    method RestoreEnds(entries: seq<IdleEntry>) returns (r: Result<()>, ghost trace: seq<Access>)
      modifies this
      ensures bits.Keys == old(bits).Keys && (quiet ==> bits == old(bits))
      ensures log == old(log) + trace && NoWrites(trace)
      ensures if r.Ok? then EndsInCleanPass(trace, entries) else StoresConflictOnly(r, trace)
      ensures quiet && Calm(items, bits, entries) && Moved(bits, bits, entries, |entries|, Undoing) ==> r.Ok?
    {
      ghost var verified;
      r, trace := ValidateInventory(entries);
      if r.Ok? {
        r, verified := VerifyPass(entries);
        ConflictLast(r, trace, verified);
        if r.Ok? {
          Store(Restored);
          assert EndsInCleanPass(trace + verified + [Stored(Restored)], entries);
          verified := verified + [Stored(Restored)];
        }
        trace := trace + verified;
      }
    }

    /** `restore` from Restoring on: the writes, and what follows them. */
    method RestoreWrites(entries: seq<IdleEntry>)
        returns (r: Result<()>, ghost written: seq<Access>, ghost ended: seq<Access>)
      modifies this
      ensures log == old(log) + written + ended && NoWrites(ended) && OnlyJustifiedWrites(written, entries, Undoing)
      ensures r.Ok? ==> NothingStored(written) && EndsInCleanPass(ended, entries)
      ensures r.Err? ==>
        (ended == [] && StoresConflictOnly(r, written)) || (NothingStored(written) && StoresConflictOnly(r, ended))
      ensures quiet && Calm(items, old(bits), entries) ==> r.Ok? && Moved(old(bits), bits, entries, |entries|, Undoing)
    {
      ghost var calm := quiet && Calm(items, bits, entries);
      r, written := WritePass(entries);
      ended := [];
      if r.Ok? {
        if calm {
          StillReadable(items, old(bits), bits, entries, Undoing);
          StaysRestorable(old(bits), bits, entries);
        }
        r, ended := RestoreEnds(entries);
      }
    }

    /** `restore`: whatever the outside writer does, `original` is written only
        where `desired` was just read; nothing is written before Restoring is
        durable, and Restoring only after a first pass without surprises; a
        conflict is durable; and Restored is stored exactly on success, right
        after a pass that read every entry at `original`. On a quiet host whose
        bits are restorable it succeeds and is exact. */
    method Restore(entries: seq<IdleEntry>) returns (r: Result<()>, ghost trace: seq<Access>)
      modifies this
      ensures log == old(log) + trace && RestoreOrder(r, trace, entries)
      ensures quiet && Calm(items, old(bits), entries) ==> r.Ok? && Moved(old(bits), bits, entries, |entries|, Undoing)
    {
      ghost var begun, written, ended;
      r, begun := RestoreBegins(entries);
      trace := begun;
      if r.Ok? {
        Store(Restoring);
        r, written, ended := RestoreWrites(entries);
        trace := begun + [Stored(Restoring)] + written + ended;
        JoinAccesses(old(log), begun, Stored(Restoring), written, ended);
        RestoreOrdered(r, begun, written, ended, entries);
      } else {
        RestoreNeverBegan(r, begun, entries);
      }
    }
  }

  lemma {:induction false} NoStatesNoPoll(cpu: nat, items: seq<Item>)
    requires GoodItems(items)
    ensures CpuEntries(cpu, items) == [] ==> Count(items, "POLL") == 0
  {
    if items == [] {
    } else {
      NoStatesNoPoll(cpu, items[..|items| - 1]);
    }
  }
}
