# Verification of snoozer's wait protocols and of its benchmark control

snoozer is a library of wait strategies and one-token parkers, with a wake-latency
benchmark and a privileged controller (`benchctl`) that changes cpuidle bits for a run and
puts them back. This project models the parts where the reasoning is hard and proves, in
Dafny 4.11, what they keep over every run, every input or every interleaving.

`dafny verify dfyconfig.toml` checks all modules together.

| module | subject |
|---|---|
| `Runs` | finite runs of a step system; a disabled event leaves the state alone |
| `Machine`, `Sorting` | machine integer ranges; in-place sorting of the small sample buffers |
| `Parker` | the atomic token under stale but coherent loads: modification order, views, release sequences |
| `MonitorWait` | arm, recheck, wait programs over a hardware address monitor |
| `WaitStrategies` | the four strategies, raw and filtered, as methods over a log of what the thread did |
| `Preflight` | one store trial, the sixteen-trial loop, the process-wide cell |
| `Timer` | calibration, conservative rate, cycle budgets, absolute deadlines |
| `TscOffset` | the cross-core handshake, the minimum-round-trip estimate, latency correction |
| `Handoff` | the generation and acknowledge protocol of a timing trial, with stop and abort races |
| `Supervision` | sessions, guardian, GO gate and the two locks: who may write when |
| `Recovery` | journals, outcomes and bits over runs, crashes, recoveries and reboots |
| `CpuIdle` | `inventory`, `apply` and `restore` on a host with an outside writer |
| `RestoreAgreement` | the two views of `restore`, in `CpuIdle` and `Recovery`, agree |
| `Platform` | the benchmark's independent check of the idle policy |
| `DependencyGraph` | the worklist over the resolved Cargo graph |

## How the system is modelled

Concurrent code is a total step function over a state and an event; theorems quantify over
all event sequences, so over all interleavings. Atomics that need it are lists of messages
in modification order. A load may return any message at or after the reader's own position,
an Acquire load learns what the message carries, and a read-modify-write joins what the
message before it carried (section 6.9.2.1 of ISO C++20). Sequential code that mutates is a
method or a class whose postcondition refers to a function or a predicate defined beside it,
about which lemmas are proved. The clock, loads of contended words, directory contents, Git
and the file system are inputs or arbitrary choices.

Four results contradict what a reader may expect of the code, which is modelled as it is:

* `conservative_timer_hz` limits the spread of its samples to 20 percent only while twenty
  times the largest sample fits 64 bits; above that every spread is accepted
  (`Timer.SpreadLimitHoldsIffUnsaturated`).
* A preflight can succeed although no trial executed the hardware wait: the store may land
  between the handoff and the load after it. It shows an executed wait exactly when that
  load comes within less than the helper's delay (`Preflight.SuccessShowsTheWaitIff`). From
  the stamps and values that the code records nothing of the kind follows: no test of them
  shows that the wait was executed, or that a store hit it, unless it passes no success at
  all (`Preflight.NoPreflightShowsTheWait`).
* A baseline from 1000 to 1334 ns passes the blocking test, but no preflight with it can
  succeed, because the helper's delay of at least 1 us is not below three quarters of the
  baseline (`Preflight.PreflightCanSucceedIff`).
* An applied idle policy is accepted by the benchmark exactly when no state name becomes
  POLL or C1 only by upper-casing (`Platform.AppliedPolicyAcceptedIffNoLookalike`).

## Model

| member | source | states |
|---|---|---|
| Parker.EveryCompletionIsHonest | src/parker.rs:203-277 | In every run, with any producers and either unpark form, neither debug assertion can fail; a wait that saw a change is followed by a successful take; Notified is returned exactly when a token was consumed, TimedOut exactly when the wait timed out and nothing was consumed |
| Parker.TokenIsAMailbox | src/parker.rs:280-295 | The token's modification order is a legal run of a one-token mailbox, and each take acquires the publications of every earlier unpark, not only the last one; for the read-modify-write form with any producers and the store form with one |
| Parker.StoreFormNeedsSoleProducer | src/parker.rs:394-433 | The Release-store form refines the mailbox on all runs if and only if there is at most one producer |
| Parker.TwoStoringProducersLosePublication | src/parker.rs:406-408 | For any two storing producers a concrete run in which a publication is lost |
| Parker.NoNotificationIsLost | src/parker.rs:280-295 | In every run, with either form and any producers, the token's last value is NOTIFIED exactly when some unpark has no later take |
| Parker.NotificationsCoalesce | src/parker.rs:203-216 | In every run any two takes have an unpark between them, so repeated unparks deliver one notification |
| Parker.ExclusiveUnparkAppends | src/parker.rs:406-408 | With RMW producers, or one storing producer, an unpark is always last in modification order and its message carries the whole mailbox |
| Parker.TokenIsAFlag | src/parker.rs:280-295 | In execution order the token is a flag: an unpark sets it and adds what was published; a take of the latest message clears it and acquires all it carries; a take of an older one acquires what that one carried and leaves it set; nothing else changes it |
| MonitorWait.NoLostWakeIffRechecked | src/strategy.rs:893-1035 | Among all straight-line programs over load, deadline check, arm and wait, exactly those that load between an arm and a wait never sleep through a change, under arbitrary stores at any point |
| MonitorWait.ShippedProtocolsNeverLoseWake | src/strategy.rs:893-957 | The untimed and timed protocols of both vendors and the preflight probe never lose a wake; without the second load, or with it moved before the arm, each loses one |
| MonitorWait.RecheckingProgramsAreSafe | src/strategy.rs:969-1035 | In every reachable state of a rechecking program, blocked with an untriggered monitor implies that the word equals the expected value |
| MonitorWait.ExposedWaitLosesWake | src/strategy.rs:909-918 | From any unchecked arm and wait, a concrete run that sleeps through a change |
| WaitStrategies.VerdictIsForced | src/strategy.rs:46-73 | What the thread observed justifies at most one result |
| WaitStrategies.Waiter.Remaining | src/strategy.rs:81-97 | None exactly when the elapsed time has reached the timeout |
| WaitStrategies.Waiter.BusySpinWait | src/strategy.rs:290-313 | Changed and TimedOut are justified by the last loads and clock readings; with a deadline it always returns |
| WaitStrategies.Waiter.SpinPrefix | src/strategy.rs:736-761 | Gives up after exactly one plus the configured number of loads that all saw the expected value before the deadline |
| WaitStrategies.Waiter.ClassifyAfterWait | src/strategy.rs:763-776 | The result is the one its load and clock reading justify |
| WaitStrategies.Waiter.UntimedProtocol | src/strategy.rs:893-921 | Runs an initial part of the untimed monitor program with the safety budget and never times out |
| WaitStrategies.Waiter.TimedProtocol | src/strategy.rs:923-957 | Runs an initial part of the timed monitor program; the wait gets the budget of the time left at the clock reading just before it |
| WaitStrategies.Waiter.HardwareWaitRaw | src/strategy.rs:789-806 | Both vendors, timed or not: justified result, at most one blocking wait, never a wait on an unchecked arm |
| WaitStrategies.Waiter.SpinThenYieldRaw | src/strategy.rs:350-369 | Justified result, at most one yield, exactly one before Unclassified |
| WaitStrategies.Waiter.SpinThenHardwareRaw | src/strategy.rs:649-678 | Justified result, at most one hardware wait, and that one rechecked |
| WaitStrategies.Waiter.WaitRaw | src/strategy.rs:99-121 | The contract every strategy meets |
| WaitStrategies.Waiter.WaitIfEqual | src/strategy.rs:223-235 | An untimed raw wait never stands for a timeout, and blocks at most once |
| WaitStrategies.Waiter.WaitIfEqualTimeout | src/strategy.rs:252-260 | TimedOut implies a clock reading at or past the timeout right after a load that saw the expected value |
| WaitStrategies.Waiter.WaitUntilDifferent | src/strategy.rs:237-250 | Returns only a loaded value different from the expected one, the first such value |
| WaitStrategies.Waiter.WaitUntilDifferentTimeout | src/strategy.rs:262-281 | Terminates for every strategy and every behaviour of other threads, never Unclassified, with a justified result |
| WaitStrategies.FollowingBlocksOnce | src/strategy.rs:138-140 | A run of a hardware protocol blocks at most once |
| WaitStrategies.FollowingIsChecked | src/strategy.rs:893-957 | In a run of a hardware protocol the word is loaded between arming and waiting |
| Preflight.VerifiedStoreIsWhileProbing | src/strategy.rs:1325-1367 | In every verified trial the helper's store came after the monitor was armed and before the load with which the probe returned |
| Preflight.OverlappingStoreIsBeforeFinish | src/strategy.rs:1193-1205 | Overlap alone puts the store after the arm and, on the clock, no later than the finish stamp |
| Preflight.OverlapAfterReturn | src/strategy.rs:1292-1300 | An overlapping trial whose store came after the probe had returned |
| Preflight.VerifiedTrialsSleepIff | src/strategy.rs:1325-1367 | For every delay, threshold and gap: all verified trials that recheck within the gap of their handoff executed the hardware wait, if and only if the gap is below the helper's delay (or the delay is not below the threshold, so that nothing verifies) |
| Preflight.VerifiedStoresHitTheWaitIff | src/strategy.rs:1285-1297 | For every margin between the publication stamp and the finish stamp: all verified trials with it whose wait returned were stored before it returned, if and only if the margin is so large that no trial with it can be verified |
| Preflight.NoTestShowsTheWait | src/strategy.rs:1193-1205 | Whatever is computed from a trial's evidence shows that the hardware wait was executed, or that the store hit it, if and only if it passes no verified trial at all |
| Preflight.NoPreflightShowsTheWait | src/strategy.rs:1237-1322 | The same for any test of the baselines and all the evidence of a whole successful preflight |
| Preflight.VerifiedAfterWake | src/strategy.rs:1325-1367 | For every evidence a verified trial can leave, a trial that leaves it although the wait returned before the store |
| Preflight.EarlyWakeIsNotTheStore | src/strategy.rs:1281-1285 | A hardware wait that returns within the delay of the handoff returned before the store |
| Preflight.VerifiedWithoutSleeping | src/strategy.rs:1325-1367 | For every evidence a verified trial can leave, a trial that leaves it without executing the hardware wait |
| Preflight.VerifiedTrialExistsIff | src/strategy.rs:1256-1260 | A trial can be verified if and only if the delay is below the threshold |
| Preflight.FunctionalPreflight | src/strategy.rs:1237-1322 | The loop with its in-place sort and early stop computes the conclusion that the specification function gives |
| Preflight.PreflightResultIsEarned | src/strategy.rs:1208-1322 | Success exactly when the median blocks and two trials verify, stopping at the second, with 2 = verified <= overlaps <= attempts; the failure reasons exactly characterised |
| Preflight.SuccessIsEarned | src/strategy.rs:1208-1234 | Behind a success stand an earned report, two different trials that stored while probing, and a baseline of at least 1335 ns |
| Preflight.PreflightCanSucceedIff | src/strategy.rs:1251-1260 | A preflight with a given baseline can succeed if and only if the baseline is at least 1335 ns, although 1000 ns pass the blocking test |
| Preflight.SuccessShowsTheWaitIff | src/strategy.rs:1256-1322 | A success whose trials recheck within a gap shows an executed hardware wait, if and only if the gap is below the helper's delay (or no success is possible) |
| Preflight.RunsOnceIffPanicsAreCaught | src/strategy.rs:514-522 | For any number of callers the initializer runs at most once with one verdict, if and only if a panic is caught inside it |
| Preflight.VerdictNeverChanges | src/strategy.rs:543-546 | Once set, the verdict is the same after every further step |
| Preflight.StrategyNeedsEarnedReport | src/strategy.rs:559-567 | In every run of any callers, a strategy or a success report comes from an initializer of this process whose own trials satisfy 2 = verified <= overlaps <= attempts <= 16, two of them storing while probing |
| Timer.CollectTscFrequencies | src/arch/x86_64/amd.rs:100-116 | The first three usable samples of nine attempts, or nothing exactly when there are fewer |
| Timer.FrequencyIsExact | src/arch/x86_64/amd.rs:147-150 | The saturating 128-bit computation is the exact clamped quotient |
| Timer.SampleNeverExceedsTrueRate | src/arch/x86_64/amd.rs:118-145 | With exact clocks a sample above the floor of 1 is at most the true rate |
| Timer.TruncationIsInsideTheMargin | src/arch/x86_64/intel.rs:164-196 | With truncating counters four fifths of a sample is still at most the true rate, from 2001 Hz on |
| Timer.ConservativeTimerHz | src/arch/x86_64/amd.rs:152-163 | Exactly when a rate is accepted, and that it is at most 80 percent of the smallest sample even when products saturate |
| Timer.SpreadLimitHoldsIffUnsaturated | src/arch/x86_64/amd.rs:156-160 | The 20 percent limit holds for a given maximum if and only if twenty times it does not saturate |
| Timer.CalibrateTimerHz | src/arch/x86_64/amd.rs:53-60 | Whatever was observed at one true rate, the chosen rate is at most 80 percent of it, or at most it with truncating counters |
| Timer.CyclesAreExact | src/strategy.rs:1370-1379 | Saturation of the 128-bit product never shows after the clamp |
| Timer.BudgetIsTight | src/strategy.rs:960-966 | Every budget is nonzero, fits its register, does not outlast the remaining time or 1 ms unless it is 1, and is the largest such budget |
| Timer.BudgetNeverOutlastsDeadline | src/strategy.rs:1038-1044 | On a timer at least as fast as configured a budget above 1 passes within min(remaining, 1 ms) |
| Timer.CalibratedBudget | src/strategy.rs:1082-1108 | The same from raw observations to the budget, with exact clocks, and with truncating ones from 2001 Hz on |
| Timer.UmwaitReceivesDeadline | src/strategy.rs:1047-1051 | The register pair denotes a deadline in the future and exactly the budget away unless the counter would overflow |
| TscOffset.HandshakeEncloses | benches/support/platform.rs:427-474 | In every run of the handshake the remote stamp that the controller reads was taken inside that very round trip |
| TscOffset.EstimateRemoteTscOffset | benches/support/platform.rs:452-481 | The offset at the midpoint of the first smallest round trip; migration and an offset outside i64 are reported exactly when they happen |
| TscOffset.EstimateIsClose | benches/support/platform.rs:452-481 | Within ceil(round trip / 2), at most the reported uncertainty plus one cycle, of the true offset |
| TscOffset.CorrectionIsFaithful | benches/support/pure.rs:98-101 | Rejected exactly when the corrected value is negative; otherwise as far from the true latency as the estimate from the true offset |
| TscOffset.CorrectAll | benches/wake_latency.rs:1622-1637 | Keeps the accepted latencies in order, counts the rejected ones with saturation, fails exactly when all are rejected |
| TscOffset.ReportLatencies | benches/wake_latency.rs:1622-1637 | From the handshake to the report: each reported latency, at its own sample, is within the uncertainty plus one cycle of the true latency, and a sample is reported exactly when its corrected value is not negative |
| TscOffset.KeptAreClose | benches/wake_latency.rs:1622-1634 | The same for any correction and error |
| Handoff.SamplesAreLockStep | benches/wake_latency.rs:1347-1448 | In every trial the acknowledged generations are 1, 2, 3, ..., each paired with its own send stamp, and no terminal or abort bump is recorded |
| Handoff.LockStepIffGenerationReleases | benches/wake_latency.rs:1412-1418 | That holds on all runs if and only if the writes of the generation are Release |
| Handoff.RelaxedBumpIsRecorded | benches/wake_latency.rs:1416-1418 | A run in which a relaxed terminal bump is recorded as a sample |
| Handoff.EveryStampSequenceIsRecorded | benches/wake_latency.rs:1347-1415 | The converse: for every sequence of send stamps some trial, on either surface, records exactly that sequence |
| Handoff.AtMostOneGenerationInFlight | benches/wake_latency.rs:1394-1413 | The producer is never more than one generation ahead of the acknowledgements |
| Handoff.FailedStartupRecordsNothing | benches/wake_latency.rs:917-921 | A trial that fails before all threads are ready records nothing and never parks |
| Handoff.WaiterIsNeverStranded | benches/wake_latency.rs:1211-1227 | When the producer has finished the wake for its latest store and the waiter is in park on an older generation, the token is notified, with leftover tokens and takes of older unparks included |
| Handoff.AllReadyMeansUntouched | benches/support/pure.rs:109-125 | When the controller finds three threads ready, there is one generation, no go, no stop and no token, and the waiter captured generation 0 |
| Supervision.ShippedNeverWritesWhileLive | tools/benchctl/src/supervision.rs:163-231 | For every interleaving of sessions and every crash, no cpuidle write happens while any workload group may run |
| Supervision.WritesAreSafeIffShippedDesign | tools/benchctl/src/supervision.rs:433-485 | GO after ready, lock before ready and the inactivity check are each necessary and together sufficient |
| Supervision.BrokenDesignWritesWhileLive | tools/benchctl/src/supervision.rs:269-280 | For each design without one of the three, a run in which a recover writes under a live workload |
| Recovery.OneUnfinishedOneStart | tools/benchctl/src/cpuidle.rs:130-167 | Over all runs, retries, crashes, recoveries and reboots, with any outside writer: at most one unfinished journal, and no operation starts its workload twice |
| Recovery.DurableOutcomeIsReplayed | tools/benchctl/src/cpuidle.rs:287-329 | A durable outcome never changes, and every later request is answered with it or refused |
| Recovery.RestoredIsTerminal | tools/benchctl/src/cpuidle.rs:218-252 | A restored journal is frozen and every later request gets the same answer |
| Recovery.ExactRestoration | tools/benchctl/src/cpuidle.rs:195-216 | Without an outside writer the bits equal those at boot whenever no journal is unfinished; until then each recorded bit is original or desired, and no conflict is reported |
| Recovery.OneRecoverSuffices | tools/benchctl/src/cpuidle.rs:78-115 | From any crash state one recover of the unfinished operation of this boot runs to the end and leaves the bits of the boot |
| Recovery.JournalStep | tools/benchctl/src/journal.rs:121-134 | Every step of every process, crash and outside write keeps the journal invariant |
| Recovery.BitsStep | tools/benchctl/src/cpuidle.rs:393-460 | Every step keeps each bit explained by the one unfinished journal |
| Recovery.RestoreProgresses | tools/benchctl/src/cpuidle.rs:408-460 | A restore step finishes over pristine bits or strictly decreases the work left |
| RestoreAgreement.RestoresAgree | tools/benchctl/src/cpuidle.rs:408-460 | On a quiet host `restore` against the host and Recovery's three passes leave the same bits and add the same stages |
| RestoreAgreement.ThreePasses | tools/benchctl/src/cpuidle.rs:408-460 | Three complete passes undo every entry and add exactly Restoring and Restored |
| CpuIdle.AcceptCpus | tools/benchctl/src/cpuidle.rs:117-126 | Sorted CPUs, refused exactly when the list is empty or has duplicates |
| CpuIdle.Host.Inventory | tools/benchctl/src/cpuidle.rs:331-391 | On a quiet host it succeeds exactly when every CPU has well-formed readable states with one POLL and one C1; it returns each CPU's states sorted, with the bits held |
| CpuIdle.SortIsStableSort | tools/benchctl/src/cpuidle.rs:387-388 | The sort orders by state, keeps every entry with its multiplicity, and keeps the order within one state |
| CpuIdle.SortedCpusIncreasing | tools/benchctl/src/cpuidle.rs:463-465 | The recorded CPUs come out increasing, without duplicates |
| CpuIdle.InventoryHasItsCpus | tools/benchctl/src/cpuidle.rs:462-466 | The CPUs recovered from an inventory of increasing CPUs are those CPUs |
| CpuIdle.FreshInventoryIsCalm | tools/benchctl/src/cpuidle.rs:462-480 | What a quiet inventory returns passes the comparison and can be applied and restored |
| CpuIdle.Host.ValidateInventory | tools/benchctl/src/cpuidle.rs:462-480 | Accepts only the same states in the same order, and on a quiet readable host accepts exactly those |
| CpuIdle.Host.Apply | tools/benchctl/src/cpuidle.rs:393-406 | Writes only desired values over just-read originals; a quiet success moves exactly the recorded bits, and a fresh inventory on a quiet host does succeed |
| CpuIdle.Host.WriteBit | tools/benchctl/src/cpuidle.rs:482-493 | Succeeds only when the value was read back |
| CpuIdle.Host.ReadBit | tools/benchctl/src/cpuidle.rs:495-504 | Returns the current bit if it is 0 or 1, and an error that names the path otherwise |
| CpuIdle.Host.Restore | tools/benchctl/src/cpuidle.rs:408-460 | With any outside writer: only originals over just-read desired values; every write after a durable Restoring, and Restoring only after a first pass without surprises; conflicts recorded durably; Restored only after a pass that read every entry at original; exact on a quiet host |
| CpuIdle.RestoreOrdered | tools/benchctl/src/cpuidle.rs:408-460 | The three passes of a restore compose to that order |
| CpuIdle.Host.RestoreBegins | tools/benchctl/src/cpuidle.rs:409-425 | Up to its first pass a restore writes nothing; a surprise is a durable conflict and nothing else is stored; success means every entry was read at original or desired |
| Platform.ReadCpuidle | benches/support/platform.rs:72-124 | The upper-cased states of the selected CPUs in order |
| Platform.ValidateCpuidle | benches/support/platform.rs:126-147 | Accepts exactly when each CPU has one POLL and one C1, both enabled, and everything else is disabled |
| Platform.AppliedPolicyAcceptedIffNoLookalike | benches/support/platform.rs:126-147 | For every choice and order of the benchmark's CPUs among the applied ones, the policy is accepted if and only if none of their names is POLL or C1 only after upper-casing |
| Platform.InventoryDistinct | tools/benchctl/src/cpuidle.rs:331-391 | Distinct directories give an inventory with distinct paths |
| Platform.ApplyValidateRestore | tools/benchctl/src/cpuidle.rs:117-216 | On a quiet host, for any order of the request and of the benchmark's roles: applying succeeds exactly when request and directories are in order, the benchmark then accepts exactly when there are no lookalikes, and restoring gives back every bit |
| DependencyGraph.CollectReachable | tools/benchctl/src/build.rs:518-534 | Terminates on cyclic graphs with duplicate queue entries and returns exactly the reachable ids, or a reachable id without a node |
| DependencyGraph.ValidateReachableLocalGraph | tools/benchctl/src/build.rs:510-580 | Ok exactly when every reachable package has a node and a package entry and every reachable local one passes its checks; an error names a reachable package that fails the check it reports |
| DependencyGraph.CheckPackage | tools/benchctl/src/build.rs:536-577 | Ok exactly when the package entry exists and, if local, its manifest and all targets are tracked inside the repository |
| DependencyGraph.ClosedHoldsWalk | tools/benchctl/src/build.rs:520-534 | A set that holds the root and is closed under dependencies holds every reachable id |

## Left out

- Inline assembly, CPUID, `prctl`, affinity, Git, Cargo, sudo, pidfd and signal calls: foreign boundary, represented by arbitrary results.
- SHA-256, serde encoding, PID reuse, symlink and ownership checks, the production-control proof pipe: requests and records are plain values.
- A killed guardian and a drain that times out: Supervision assumes neither happens; on those paths the code releases `active.lock` at process exit.
- Partial writes: `atomic_write` is an atomic durable replacement.
- CPU hot-plug during a run: the set of idle-state directories does not change within one boot.
- Restore's inventory comparison is in CpuIdle only; Recovery's journal steps start at the first pass over the entries, and RestoreAgreement connects the two on a quiet host.
- Liveness other than the timed-wait measure, restore progress and "not blocked while notified".
- Untimed waits have a bound on attempts so that the methods terminate; reaching it is reported as a separate result and proves only that nothing had changed.
- The monotonic clock is assumed to advance by at least one nanosecond between two readings.
- Spurious failure of the strong compare-exchange does not exist and is not modelled; `spin_loop` hints have no effect.
- The benchmark-only C1 strategy and the std-park surface: the same protocols with another hint or another parker.
- Handoff's token takes the steps of `Parker.TokenIsAFlag`, with an older take learning any part of what is carried; 64-bit wrap-around of the generation is ignored.
- Floating-point statistics, the skew limit in nanoseconds, victim throughput, CLI, JSONL output, capability decoding and backend selection: finite tables or approximate arithmetic.
- Preflight.FunctionalPreflight: the wake threshold does not model saturation of three times the baseline duration at `Duration::MAX`, because no wait lasts that long.
- Preflight's trials have one clock for both threads, and steps may take no time; the loop's sixteen trials are given as runs, of which it uses those up to its last attempt.
- TscOffset.HandshakeEncloses: assumes counters of one rate that do not wrap during the handshake.
