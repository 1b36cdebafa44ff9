# Verified model of the engine

A Dafny 4.11 model of a validator engine that executes transactions in parallel
over a relocating account store, and keeps an ordered log that is indexed and
replicated. `dafny verify dfyconfig.toml` checks the whole project.

The project has two kinds of files. Code that changes state step by step is
modelled as classes and loops, each method tied by its contract to a function on
values. Whole-run results are lemmas about transition systems over those values:
every interleaving is a run, and invariants are carried along runs.

## The parts

- **Dependency scheduler**: `Transactions`, `Ordering`, `OrderingRegister`,
  `OrderingComplete`, `OrderingTable` (module `OrderingArena`), `Pool`,
  `Sequencer`, `SequencerRuns`, `SequencerTheorems`, `SequencerService`. A
  transaction is a pure function of its declared accounts. Loading accounts,
  landing writes and reporting completion are separate steps, so the absence of
  overlapping conflicts is needed for serial equivalence. Keys within one
  transaction are unique, as sanitization guarantees.
- **Persisted store and packing compactor**: `Layout`, `Allocation`, `Packing`,
  `Relocation`, `PackingPass`, `PackingTheorems`, `PackingSteps`,
  `PersistedStore`. Storage is an array of units copied in place; the accounts
  table is a map, the owner index and the freelist are sets.
- **Reader admission**: `Readers`, `ReadersProofs`, `ReadersLiveness`,
  `ReadersAdmission`. Threads take one atomic step at a time; the compactor scans one
  slot per step.
- **Log, index and replication**: `AppendFile`, `Pipeline`, `PipelineProofs`,
  `PipelineDelivery`, `SpanKeys`, `Paging`, `LogServer`, `Records`, `ReplicaEngine`,
  `Replica`, `ReplicaProofs`, `ReplicaIngest`, `ReplicaCoverage`, `ReplicaProgress`. A
  follower runs its own admission: it drops a transaction it rejects, and stops at a
  block that does not continue its hash chain.
- **Caches and admission**: `ExpiringCaches`, `Admission`, `AdmissionReplay`,
  `AdmissionKeeper`. An event is an attempted transaction, given by its signature
  prefix and the block hash it names, or a published block; a run is any sequence
  of events.
- **Two-backend routing**: `Routing`, over `PersistedStore` and a volatile store.
- **Transformations**: `Calculator` (expression lowering against the stack
  evaluator) and `Patches` (account decomposition, lifecycle modes, lamport
  balancing).

`Basics` holds the names they share.

## What had to be stated precisely

- *No transaction is admitted twice* exactly when the signature window is positive
  and at least as long as the block window, whatever prefixes collide
  (`Admission.AdmittedOnceIffWindowCovers`); with a shorter window
  `Admission.ShortWindowReadmits` builds a run that admits one twice.
- *No prefix is admitted twice* is false: a prefix comes back under a newer hash
  once its reservation has expired (`Admission.PrefixUnderTwoHashes`). It holds over
  every run of attempts drawn from a set of transactions if and only if no prefix of
  that set comes with two hashes and the windows cover
  (`Admission.PrefixOnceIffUnambiguous`). Block slots are consecutive and block
  hashes distinct.
- *A follower's log is a prefix of the leader's* is false of a follower restored
  with too few block hashes: it drops a transaction that names an older one, and
  until the next block its log is no prefix and its position not the leader's
  (`ReplicaCoverage.TooFewHashesDrop`). It never drops anything, over every
  continuation of the leader's log under distinct prefixes and every run of
  disconnects and resumes, if and only if its restored hashes cover the block window
  or the whole chain (`ReplicaCoverage.NeverDropsIffCovered`). For the 512 hashes of a
  snapshot that is `AdmissionReplay.SnapshotAdmitsIff`: the window is
  60 s over the block time, rounded up: more than 512 slots for block times of
  117 ms and less.
- *A follower accepts what the leader admitted* needs more than covering windows when
  prefixes collide: it pushes less often than the leader, so it sweeps later
  (`AdmissionReplay.ReplicaMaySweepLater`). `AdmissionReplay.FollowerAdmitsIff` gives
  the exact condition, computed from the log alone.
- *Routing* leaves each key of a batch in the backend its mode demands, with its
  image, exactly when the entry's storage form and mode marker are faithful
  (`Routing.PlacedIffFaithful`). Keys within one batch are distinct. An owned
  account that leaves persistence unmarked keeps a stale persisted copy, and a
  borrowed image of a key that is not persisted is stored nowhere.
- *A lookup by owner yields the owner's accounts* needs one more condition: the
  persisted index keeps only the tail half of an owner, and nothing compares the rest.
  It yields no other account exactly when no persisted account has another owner with
  that tail (`Routing.ProgramExactIff`, `Routing.SharedTailMisleads`).
- *Growing the mapped file never fails within capacity*
  (`PersistedStore.GrowFits`), so allocation fails exactly at the capacity bound
  although the code has a second error path.
- Documentation says an expired block hash stays accepted until a push sweeps it.
  With one block per slot there is no such hash: each push expires at most one
  block, so the history is exactly the unexpired window
  (`Admission.HistoryIsWindow`); only the newest block outlives a zero window.

## Model

| member | source | states |
|---|---|---|
| Transactions.SerialPrefix | processor/src/sequencer/order.rs:18-26 | serial execution of a prefix does not depend on what follows it |
| Transactions.SerialUntouched | processor/src/sequencer/order.rs:85-97 | transactions that do not write an account leave its serial value unchanged |
| Transactions.ApplyBecomes | processor/src/executor.rs:174-204 | account by account: a transaction is given exactly its declared accounts as they are; the ones declared writable become what it returned, all others stay |
| Ordering.EmptyInv | processor/src/sequencer/order.rs:165-173 | the reset table satisfies the scheduler invariant |
| Ordering.FrontierRefinesAllPairs | processor/src/sequencer/order.rs:85-116 | an unfinished ticket counts no predecessor if and only if every earlier conflicting transaction has completed, although frontiers forget finished writers and drained readers |
| Ordering.ObstructedCounts | processor/src/sequencer/order.rs:85-103 | an unfinished earlier conflict forces a positive predecessor count |
| Ordering.CountedObstructs | processor/src/sequencer/order.rs:101-114 | a positive predecessor count is owed to an unfinished earlier conflict |
| Ordering.SomeTicketIsReleased | processor/src/sequencer/mod.rs:274-288 | while any ticket is outstanding, some unfinished ticket has no predecessor left |
| OrderingRegister.PredecessorsAreLiveConflicts | processor/src/sequencer/order.rs:85-103 | the predecessors found at the frontiers are unfinished earlier conflicts |
| OrderingRegister.RegisterKeepsInv | processor/src/sequencer/order.rs:80-117 | registration keeps exact counts, sound edges, covering frontiers, queues and the outstanding count, for every transaction with unique keys |
| OrderingComplete.CompletedShape | processor/src/sequencer/order.rs:125-152 | completion finishes one ticket, drops its edges and decrements exactly its dependents |
| OrderingComplete.CompleteKeepsInv | processor/src/sequencer/order.rs:125-152 | completion of a released ticket keeps the scheduler invariant |
| OrderingComplete.TakeReadyKeepsInv | processor/src/sequencer/order.rs:120-122 | taking a ready ticket keeps the scheduler invariant |
| OrderingComplete.TakenInFlight | processor/src/sequencer/order.rs:120-122 | a taken ticket is released, unfinished and no longer queued |
| OrderingComplete.DrainedIsEmpty | processor/src/sequencer/order.rs:165-173 | with nothing outstanding, no payload is queued or blocked and every ticket is complete |
| OrderingArena.SortedUnique | processor/src/sequencer/order.rs:99-100 | sorting and deduplicating predecessors keeps their set, strictly ascending |
| OrderingArena.OrderingTable.constructor | processor/src/sequencer/order.rs:41-54 | a new table is the empty table |
| OrderingArena.OrderingTable.Register | processor/src/sequencer/order.rs:80-117 | the in-place registration computes the registered table and reports whether the ticket is blocked |
| OrderingArena.OrderingTable.Append | processor/src/sequencer/order.rs:99-116 | linking, queueing or blocking, and node creation give the registered table |
| OrderingArena.OrderingTable.Visit | processor/src/sequencer/order.rs:85-97 | the loop over declared accounts advances every frontier and collects exactly the unfinished frontier tickets |
| OrderingArena.OrderingTable.VisitAccess | processor/src/sequencer/order.rs:86-96 | one account: a finished writer is forgotten, a write takes over the frontier, a read joins it |
| OrderingArena.OrderingTable.Link | processor/src/sequencer/order.rs:101-103 | the ticket becomes a dependent of each predecessor |
| OrderingArena.OrderingTable.TakeReady | processor/src/sequencer/order.rs:120-122 | pops the oldest ready ticket and keeps the invariant |
| OrderingArena.OrderingTable.Complete | processor/src/sequencer/order.rs:125-152 | the in-place completion computes the completed table and returns how many dependents became ready |
| OrderingArena.OrderingTable.Release | processor/src/sequencer/order.rs:135-151 | the dependents loop decrements each once and queues exactly those that reach zero, in order |
| OrderingArena.OrderingTable.ReleaseOne | processor/src/sequencer/order.rs:138-149 | one dependent: decremented, and moved from blocked to ready at zero |
| OrderingArena.OrderingTable.Reset | processor/src/sequencer/order.rs:165-173 | a drained table becomes the empty table |
| Pool.TrailingZeros | processor/src/sequencer/pool.rs:40-43 | the index of the lowest set bit, or the word width |
| Pool.Executors.constructor | processor/src/sequencer/pool.rs:28-32 | all workers start idle, their bits set |
| Pool.Executors.Available | processor/src/sequencer/pool.rs:40-43 | the lowest idle worker, or none when every worker holds a ticket |
| Pool.Executors.Dispatch | processor/src/sequencer/pool.rs:46-52 | clears exactly the worker's bit; bits stay clear exactly while a ticket is held |
| Pool.Executors.Release | processor/src/sequencer/pool.rs:55-59 | sets exactly the worker's bit again |
| SequencerRuns.RunningExcludesConflicts | processor/src/sequencer/order.rs:85-116 | everything a running transaction conflicts with has completed if earlier and is still blocked if later |
| SequencerRuns.ConflictsNeverOverlap | processor/src/sequencer/order.rs:80-152 | two conflicting transactions are never in flight together |
| SequencerRuns.LoadSeesSerialState | processor/src/sequencer/mod.rs:235-243 | a transaction loads exactly the account images serial execution gives it |
| SequencerRuns.DrainedLanded | processor/src/sequencer/mod.rs:274-288 | a drained engine holds the serial account state, whose accounts are the last writes, and no running work |
| SequencerRuns.StepKeeps | processor/src/sequencer/mod.rs:162-191 | every admission, dispatch, load, landing, completion, barrier and seal keeps the system invariant |
| SequencerTheorems.RunKeeps | processor/src/sequencer/mod.rs:162-191 | the system invariant holds over every run |
| SequencerTheorems.SerialEquivalence | processor/src/sequencer/mod.rs:194-227 | over every interleaving, hash chain and, once drained, account state equal one-at-a-time execution of the admitted stream; the next two rows say account by account what that is |
| SequencerTheorems.ReplayLastWrite | processor/src/executor.rs:174-204 | in one-at-a-time execution an account holds what its last writer returned for the accounts it saw, what the last block boundary made of it, or its start value |
| SequencerTheorems.DrainedHoldsLastWrites | processor/src/sequencer/mod.rs:194-288 | over every interleaving, in a drained engine every account holds what the last admitted writer of it returned for the accounts it saw; an account nobody wrote keeps its start value |
| SequencerTheorems.Determinism | processor/src/sequencer/mod.rs:338-361 | two engines with any pool sizes and schedules agree on hashes and, once drained, on accounts |
| SequencerTheorems.ReachableSafety | processor/src/sequencer/order.rs:80-152 | in every reachable state conflicts do not overlap, complete in ticket order, tickets are released exactly by the all-pairs rule, and the backlog is at most 16 per executor |
| SequencerTheorems.WorkIsEnabled | processor/src/sequencer/mod.rs:274-288 | while work is outstanding, some dispatch, load, landing or completion is possible |
| SequencerTheorems.WorkDecreases | processor/src/sequencer/mod.rs:274-288 | every work step lowers the remaining work by one |
| SequencerTheorems.DrainTerminates | processor/src/sequencer/mod.rs:274-288 | draining takes the same number of steps in every schedule, at most four per outstanding ticket, and never gets stuck |
| SequencerService.Service.constructor | processor/src/sequencer/mod.rs:82-127 | a new service is in the start state of the transition system |
| SequencerService.Service.IsAccepting | processor/src/sequencer/mod.rs:230-232 | whether the backlog is below 16 per executor |
| SequencerService.Service.DispatchReady | processor/src/sequencer/mod.rs:235-243 | the dispatch loop is a stretch of dispatch steps after which no ready ticket waits beside an idle worker |
| SequencerService.Service.DispatchNext | processor/src/sequencer/mod.rs:236-241 | one round dispatches the oldest ready ticket to the lowest idle worker, or finds nothing to do |
| SequencerService.Service.Schedule | processor/src/sequencer/mod.rs:204-209 | an admission step followed by dispatches; the hasher absorbs the signature |
| SequencerService.Service.Enroll | processor/src/sequencer/mod.rs:204-208 | one admission step: the signature is absorbed and the ticket registered |
| SequencerService.Service.HandleCompleted | processor/src/sequencer/mod.rs:213-227 | a completion step followed by dispatches |
| SequencerService.Service.Receive | processor/src/sequencer/mod.rs:278-283 | the next completion: after any loads and landings of any executors, some busy executor has landed its transaction |
| SequencerService.Service.Drain | processor/src/sequencer/mod.rs:274-288 | the drain loop ends, with nothing outstanding, after executor work, completions and dispatches only |
| SequencerService.Service.DrainNext | processor/src/sequencer/mod.rs:277-285 | while anything is outstanding some executor is busy; handling its completion leaves less work |
| SequencerService.Service.FinishDrain | processor/src/sequencer/mod.rs:274-288 | from any state a barrier finishes all accepted work; the accounts are then those of executing everything admitted in order, each holding what its last writer returned, and the arena is empty |
| SequencerService.Service.Finalize | processor/src/sequencer/mod.rs:292-327 | from any state all accepted work finishes, and the block hash and the accounts, each holding what its last writer or this boundary left, are those of the reference chain with this boundary |
| ReadersProofs.StepKeepsInv | accountsdb/src/readers.rs:91-202 | every step of every thread keeps the admission invariant (safety; `ReadersAdmission` says readers get in) |
| ReadersProofs.ReachableInv | accountsdb/src/readers.rs:70-202 | the admission invariant holds in every reachable state, for any number of threads and nesting depth |
| ReadersProofs.RelocationIsExclusive | accountsdb/src/readers.rs:91-153 | no reader is admitted and no second compactor runs while relocation runs, although withdrawing readers may raise scanned slots |
| ReadersProofs.NoLostWakeup | accountsdb/src/readers.rs:145-192 | a waiting compactor always has a thread with an active slot or a notification still owed, and the gate is shut |
| ReadersProofs.NeverBlocksWhileActive | accountsdb/src/readers.rs:111-114 | no thread blocks on the maintenance mutex while its slot is active |
| ReadersProofs.DeadlockFree | accountsdb/src/readers.rs:91-202 | in every reachable state with unfinished calls some thread can go on (`ReadersAdmission.ReaderIsAdmitted` and `ReadersLiveness.RelocationIsReached` bound how long) |
| ReadersLiveness.StepNearer | accountsdb/src/readers.rs:121-192 | with the gate shut, every step of any thread that continues a call or drops a guard lowers a measure over guards, withdrawals, notifications and the scan |
| ReadersLiveness.RelocationIsReached | accountsdb/src/readers.rs:121-153 | once the gate is shut and while no new call starts, every schedule brings the compactor to its relocation within a bound fixed at the start, and none gets stuck before |
| ReadersAdmission.EntersOpenGate | accountsdb/src/readers.rs:91-117 | under an open gate a registered thread holds its guard after announcing and checking |
| ReadersAdmission.NestedEnters | accountsdb/src/readers.rs:93-106 | a nested reader is admitted one level deeper by its next step, whatever the gate and whatever the others do in between |
| ReadersAdmission.EnterStarts | accountsdb/src/readers.rs:91-94 | entering always starts, and asks for one level more than was held |
| ReadersAdmission.EntryIsEnabled | accountsdb/src/readers.rs:91-117 | under an open gate an entering thread can step, or waits for a mutex whose owner can |
| ReadersAdmission.ReaderIsAdmitted | accountsdb/src/readers.rs:91-117 | from every reachable state and under every schedule, while the gate stays open an entering reader is admitted at the depth it asked for within seven of its own steps |
| ReadersAdmission.PauseShutsGate | accountsdb/src/readers.rs:121-134 | a pause is refused to a reader; otherwise it takes the free mutex and shuts the gate |
| ReadersAdmission.PauseReopensGate | accountsdb/src/readers.rs:194-201 | after relocation, or a failed fence, the gate opens before the mutex is given up |
| Packing.NextRun | accountsdb/src/store/defrag.rs:165-181 | the maximal run of adjacent holes starting at a hole |
| Packing.GroupRuns | accountsdb/src/store/defrag.rs:162-183 | the runs partition the holes in order, each maximal |
| Packing.FirstInRange | accountsdb/src/store/defrag.rs:192-206 | the entry within a size range with the fewest units, at the lowest offset among equals, or none |
| Packing.Largest | accountsdb/src/store/defrag.rs:187-190 | the most units any run still has |
| Packing.BestFit | accountsdb/src/store/defrag.rs:186-207 | an exact fit at the lowest offset, else the fewest units from need plus 43 up, at the lowest offset among equals; none exactly when nothing fits |
| Packing.Retire | accountsdb/src/store/defrag.rs:223-227 | drops from the fit set exactly the runs that reach above the source |
| Packing.PackedByBest | accountsdb/src/store/defrag.rs:222-243 | the reference packing takes the best run whenever one exists |
| Packing.MovesAreBest | accountsdb/src/store/defrag.rs:211-244 | every move of the greedy packing goes to the best run of its moment, in numbers |
| Packing.StaysIffNoneCanTake | accountsdb/src/store/defrag.rs:222-243 | an image stays exactly when no run below it can take it at its turn |
| Packing.PackOne | accountsdb/src/store/defrag.rs:222-243 | one image goes to the best of all runs wholly below it, an exact fit or else the fewest remaining units, or stays |
| Packing.Place | accountsdb/src/store/defrag.rs:233-242 | takes the run's front, records the move, and keeps the fit set in step |
| Packing.TakeKeepsPlan | accountsdb/src/store/defrag.rs:57-63 | taking a front keeps destinations disjoint and exactly filling what was consumed |
| Packing.Pack | accountsdb/src/store/defrag.rs:211-244 | the incremental fit set refines greedy packing over all runs; every move goes to an exact fit or else the run with the fewest remaining units below its source as the runs then were; the plan is sound, and if it is empty nothing could move |
| Packing.CompactedTail | accountsdb/src/store/defrag.rs:247-281 | the merge finds the first unit of the final free suffix: all above is free, the unit below is not, and no free span crosses it |
| Packing.TopEndsLast | accountsdb/src/store/defrag.rs:252-270 | the highest remaining free span ends above all the others |
| Relocation.TargetIsFree | accountsdb/src/store/defrag.rs:298-305 | every destination unit lies in an entry-time hole and in no image |
| Relocation.SourceIsLive | accountsdb/src/store/defrag.rs:298-305 | every source unit lies in the moved account's image and in no hole |
| Relocation.VacantSpans | accountsdb/src/store/defrag.rs:247-281 | run remainders and vacated sources are separate spans below the cursor |
| PackingPass.Piece | accountsdb/src/store/defrag.rs:336-347 | what is published of a hole is its part past the run's front and below the tail |
| PackingPass.ImageKept | accountsdb/src/store/defrag.rs:298-305 | after copying in plan order every account's image is intact at its new offset |
| PackingPass.StaysTaken | accountsdb/src/store/defrag.rs:298-321 | units of relocated or unmoved images are not free after the pass |
| PackingPass.NewFreeSound | accountsdb/src/store/defrag.rs:333-356 | published free spans are nonempty, separate, below the tail and really free |
| PackingPass.HoleCovered | accountsdb/src/store/defrag.rs:333-347 | every unit of an entry-time hole below the tail is filled by a move or stays published |
| PackingTheorems.PassKeepsTiling | accountsdb/src/store/defrag.rs:289-356 | after a pass live images and free spans tile the shorter region exactly once |
| PackingTheorems.PassKeepsContents | accountsdb/src/store/defrag.rs:298-316 | a pass preserves the pubkey-to-image map, the input of the checksum |
| PackingTheorems.TailIsLeast | accountsdb/src/store/defrag.rs:247-281 | the published cursor is the least boundary: the unit below it is live |
| PackingTheorems.PassLowersOffsets | accountsdb/src/store/defrag.rs:223-243 | a pass that moves anything strictly lowers the sum of live offsets; none raises it |
| PackingSteps.SortHoles | accountsdb/src/store/defrag.rs:146 | the free spans in ascending order, none lost |
| PackingSteps.SortOffsets | accountsdb/src/store/defrag.rs:147-157 | the live offsets from the tail down, none lost |
| PackingSteps.CopyStep | accountsdb/src/store/defrag.rs:298-305 | copying one more move leaves earlier copies and all later sources intact |
| PackingSteps.MoveStep | accountsdb/src/store/index.rs:222-233 | relocating one more entry extends the relocated index |
| PackingSteps.RewriteStep | accountsdb/src/store/defrag.rs:336-347 | rewriting one more hole keeps untouched holes and replaces changed ones by what is left |
| Allocation.ReserveFree | accountsdb/src/store/index.rs:143-151 | taking a freed span sets exactly that span aside |
| Allocation.ReserveFresh | accountsdb/src/store/mmap.rs:227-249 | advancing the cursor sets the new span aside |
| Allocation.ReleaseKeeps | accountsdb/src/store/mod.rs:244-260 | dropping an account turns its span into a free span of the tiling |
| Allocation.FillKeeps | accountsdb/src/store/mod.rs:211-241 | writing the image into the reserved span completes the tiling and changes that account only |
| Allocation.OverwriteKeeps | accountsdb/src/store/mod.rs:190-208 | committing an image in place keeps the tiling and changes that account only |
| Allocation.IndexAfterDelete | accountsdb/src/store/index.rs:166-176 | deleting one pair leaves the owner index recomputed from the accounts |
| Allocation.IndexAfterInsert | accountsdb/src/store/index.rs:154-163 | inserting one pair gives the owner index recomputed from the accounts |
| Allocation.IndexAfterChange | accountsdb/src/store/index.rs:204-233 | an owner change or a relocation replaces one pair and gives the recomputed owner index |
| PersistedStore.Rounded | accountsdb/src/store/mmap.rs:281-282 | the least whole number of storage blocks that covers a length |
| PersistedStore.GrowFits | accountsdb/src/store/mmap.rs:230-236 | within capacity, rounding up never exceeds the mapping |
| PersistedStore.PersistedStore.constructor | accountsdb/src/store/mmap.rs:157-190 | a new store is empty and tiled |
| PersistedStore.PersistedStore.Grow | accountsdb/src/store/mmap.rs:281-316 | the file grows to the request rounded up to whole blocks if it is shorter, or the request exceeds the mapping |
| PersistedStore.PersistedStore.Allocate | accountsdb/src/store/mmap.rs:227-249 | a fresh span at the cursor, with the file grown only if it must; fails exactly past the capacity |
| PersistedStore.PersistedStore.TakeFree | accountsdb/src/store/index.rs:143-151 | some free span of exactly the requested size leaves the freelist; none does exactly when there is none |
| PersistedStore.PersistedStore.Reserve | accountsdb/src/store/mod.rs:221-228 | a freed span of the exact size, else a fresh one; fails exactly when neither exists; the cursor rises by no more than asked |
| PersistedStore.PersistedStore.Program | accountsdb/src/store/mod.rs:122-125 | a lookup by owner yields exactly the persisted accounts whose owner has the same tail, named by the heads of their images |
| PersistedStore.PersistedStore.Release | accountsdb/src/store/mod.rs:230-260 | drops the account and its owner pair and frees its span |
| PersistedStore.PersistedStore.Delete | accountsdb/src/store/mod.rs:252-260 | the store's images without the account; tiling and owner index kept |
| PersistedStore.PersistedStore.Write | accountsdb/src/store/mod.rs:236-239 | the span holds the image, every other unit is unchanged |
| PersistedStore.PersistedStore.Insert | accountsdb/src/store/mod.rs:211-241 | the images with this one added or replaced, or unchanged when no space is left; exactly when that is; the cursor rises by at most the image |
| PersistedStore.PersistedStore.Update | accountsdb/src/store/mod.rs:190-208 | the images with this one replaced in place, its owner pair moved when marked; none changes when the account is not indexed |
| PersistedStore.PersistedStore.Reindex | accountsdb/src/store/index.rs:204-219 | the account has its new owner at its old offset and the owner index is the recomputed one |
| PersistedStore.PersistedStore.Apply | accountsdb/src/store/mod.rs:156-172 | one transition changes exactly its account; only an insert past capacity fails; the cursor rises by at most what it needs |
| PersistedStore.PersistedStore.Upsert | accountsdb/src/store/mod.rs:90-120 | a committed batch equals its transitions in order, and keeps tiling and owner index; it commits whenever its inserts fit above the cursor |
| PersistedStore.PersistedStore.PlanPass | accountsdb/src/store/defrag.rs:125-159 | a sound plan over the current layout; an empty one only when nothing fits |
| PersistedStore.PersistedStore.CopyMoves | accountsdb/src/store/defrag.rs:298-305 | all moves copied, every unit outside destinations unchanged |
| PersistedStore.PersistedStore.RelocateMoves | accountsdb/src/store/defrag.rs:307-314 | the index names every destination and the owner index is the recomputed one |
| PersistedStore.PersistedStore.RelocateNext | accountsdb/src/store/defrag.rs:308-314 | key and owner read from the intact source name the entry being moved |
| PersistedStore.PersistedStore.Relocate | accountsdb/src/store/index.rs:222-233 | one entry and one owner pair move to the new offset |
| PersistedStore.PersistedStore.Publish | accountsdb/src/store/defrag.rs:333-356 | the freelist becomes what is left of the holes plus the sources below the tail |
| PersistedStore.PersistedStore.RewriteRun | accountsdb/src/store/defrag.rs:335-347 | the holes of one run are rewritten |
| PersistedStore.PersistedStore.NewTail | accountsdb/src/store/defrag.rs:290 | the tight tail of the plan |
| PersistedStore.PersistedStore.Execute | accountsdb/src/store/defrag.rs:289-316 | copying, relocating and publishing keep images, owners, tiling and owner index, and reach a tight tail |
| PersistedStore.PersistedStore.Shrink | accountsdb/src/store/mmap.rs:263-267 | cursor and file end at the new tail |
| PersistedStore.PersistedStore.Defragment | accountsdb/src/store/defrag.rs:112-330 | a pass keeps every image and owner, reclaims exactly the cursor's drop, and either settles or lowers the sum of offsets plus cursor |
| PersistedStore.PersistedStore.Perform | accountsdb/src/store/mod.rs:90-120 | over every run of committed batches and packing passes the tiling and the owner index hold, and the images are those of the batches alone; the run commits whenever all its inserts fit above the cursor |
| PersistedStore.MovesAreRelocations | accountsdb/src/store/defrag.rs:291-294 | the reported number of moves is the number of accounts whose offset changed |
| PersistedStore.PersistedStore.Compact | accountsdb/src/lib.rs:204-221 | repeated packing terminates, keeps every image, returns the drop in the cursor, and stops only when no image fits below |
| ExpiringCaches.ExpiredFront | keeper/src/cache.rs:298-303 | the number of expired entries at the front of the queue |
| ExpiringCaches.PushKeepsConsistent | keeper/src/cache.rs:295-313 | readable keys are exactly the queued ones, once each, after every push |
| ExpiringCaches.SweptKeyExpired | keeper/src/cache.rs:298-303 | a key leaves the cache only at or after its expiry slot |
| ExpiringCaches.PushKeepsLifetime | keeper/src/cache.rs:295-313 | a push never shortens another entry's life |
| ExpiringCaches.ExpiringCache.constructor | keeper/src/cache.rs:283-289 | a new cache is empty |
| ExpiringCaches.ExpiringCache.Push | keeper/src/cache.rs:295-313 | the bounded sweep loop and insertion compute the pushed cache and whether the key was new |
| ExpiringCaches.ExpiringCache.Update | keeper/src/cache.rs:333-338 | replaces one value; keys and expiry order stay |
| Admission.BlockKeepsBlocks | keeper/src/cache.rs:256-260 | after each block the history is exactly the unexpired suffix of the chain |
| Admission.HistoryIsWindow | keeper/src/accessor.rs:334-336 | a hash is valid if and only if its block is the newest or unexpired |
| Admission.AttemptKeepsReserved | keeper/src/accessor.rs:195-212 | attempts under any prefix and hash never release a reserved signature early |
| Admission.NotReadmitted | keeper/src/accessor.rs:195-212 | an admitted transaction has its prefix still reserved or names an expired block |
| Admission.AfterKeeps | keeper/src/accessor.rs:195-212 | the admission invariant holds over every run of attempts and blocks |
| Admission.NeverAdmittedTwice | keeper/src/accessor.rs:195-212 | over every run, colliding prefixes included, no transaction is appended to the ledger twice |
| Admission.ShortWindowReadmits | keeper/src/builder.rs:57-59 | with a shorter or zero signature window every transaction has a run that admits it twice |
| Admission.AdmittedOnceIffWindowCovers | keeper/src/builder.rs:57-59 | no transaction is admitted twice over every run if and only if the signature window is positive and covers the block window |
| Admission.PrefixUnderTwoHashes | keeper/src/cache.rs:27-31 | two transactions that share a prefix and name different blocks are both admitted in some run, whatever the windows |
| Admission.PrefixOnceIffUnambiguous | keeper/src/cache.rs:27-31 | a prefix is admitted at most once over every run of attempts drawn from a set if and only if no prefix of it comes with two hashes and the windows cover |
| AdmissionReplay.RestoredSound | keeper/src/cache.rs:54-56 | restoring consecutive hashes one by one gives exactly the window over that chain and no signature |
| AdmissionReplay.SameWindow | keeper/src/accessor.rs:334-336 | leader and follower accept the same hashes once the follower knows the leader's window |
| AdmissionReplay.FollowerAdmitsIff | keeper/src/accessor.rs:195-212 | a follower that knows the leader's window, fed exactly what the leader appends, admits all of it if and only if the log never repeats a prefix the follower still holds |
| AdmissionReplay.DistinctIsCollisionFree | keeper/src/cache.rs:295-313 | a log with distinct prefixes never meets one still held |
| AdmissionReplay.ReplicaMaySweepLater | keeper/src/cache.rs:295-313 | from the same start and with covering windows a run exists whose admitted log a second keeper does not admit whole |
| AdmissionReplay.MissedHash | keeper/src/builder.rs:233-268 | a transaction naming the newest hash a follower was not given is admitted by the leader and not by the follower |
| AdmissionReplay.RestoredAdmitsIff | keeper/src/builder.rs:233-268 | a follower restored with the last d hashes admits every continuation of the leader's log under distinct prefixes if and only if d covers the block window or the whole chain |
| AdmissionReplay.SnapshotAdmitsIff | keeper/src/builder.rs:55-59 | with the hashes of a snapshot it does if and only if the chain or the block window is no longer than 512 |
| AdmissionKeeper.Keeper.constructor | keeper/src/builder.rs:253-266 | the restore loop over consecutive hashes gives the restored admission state |
| AdmissionKeeper.Keeper.RestoreHash | keeper/src/cache.rs:54-56 | one restored hash changes the state as one published block, without a ledger entry |
| AdmissionKeeper.Keeper.Append | keeper/src/accessor.rs:195-212 | one admission attempt for any prefix and hash: reserve the signature, check the hash, append; which outcome when |
| AdmissionKeeper.Keeper.PublishBlock | keeper/src/accessor.rs:346-357 | one block publication: append, advance the latest slot, record the hash |
| LogServer.BetweenJoins | replicator/src/server.rs:289-305 | log ranges join across any number of segments |
| LogServer.ReplicationServer.constructor | replicator/src/server.rs:152-162 | a server starts at the sampled position with nothing sent |
| LogServer.ReplicationServer.Send | replicator/src/server.rs:308-318 | sends exactly the segment bytes up to the end and moves the position there |
| LogServer.ReplicationServer.Step | replicator/src/server.rs:294-303 | finishes a sealed segment and crosses into the next, sending exactly the bytes passed |
| LogServer.ReplicationServer.Advance | replicator/src/server.rs:289-305 | what was sent is the log between old and new position, and the new one is the old or the target, at or past the target by superblock and then offset; fails exactly on a missing segment |
| LogServer.ReplicationServer.Follow | replicator/src/server.rs:211-231 | for any sequence of merged, skipped, stale or lagged updates the bytes sent are the log from the start to a position that is the start or an update, and at or past every update by superblock and then offset; fails exactly when an update needs a segment that is gone |
| LogServer.ReplicationServer.Serve | replicator/src/server.rs:174-267 | a follower at a position still held past the first segment is sent exactly the log from there to the latest update; one whose superblock and offset exceed what was written is turned away; neither it nor one sent a snapshot gets a log byte |
| Records.SegmentsAreConsecutive | ledger/src/appender.rs:118-143 | seals number the segments without gaps |
| Records.SealsRotate | ledger/src/appender.rs:118-143 | every seal opens one new segment, and the active one holds exactly the records since the last seal |
| ReplicaEngine.TakeTracks | processor/src/sequencer/mod.rs:194-210 | the engine has fed its admission every consumed record and appended exactly what that admitted |
| ReplicaEngine.DroppedIffBehind | processor/src/sequencer/mod.rs:195-203 | a record was dropped exactly when admission did not follow what was consumed |
| ReplicaEngine.TakeAgrees | processor/src/sequencer/mod.rs:292-327 | taking the leader's next record keeps the engine at the leader's latest block and, without a drop, at its absorbed signatures; only an engine that dropped something is stopped by it |
| ReplicaEngine.TakeStaysPending | processor/src/sequencer/mod.rs:304-311 | after a drop the next block stops the engine and anything else leaves the drop unnoticed |
| Records.PrefixIsSeen | ledger/src/appender.rs:232-248 | a shorter log is an earlier view of a longer one: sealed segments final, the head a prefix |
| Records.RecordsBetween | replicator/src/server.rs:289-318 | the log bytes between two record boundaries are the encodings of the records in between |
| Replica.LogShifts | replicator/src/client.rs:310-331 | a follower bootstrapped at a segment start shares the leader's positions and segments from there on |
| Replica.StreamFrom | replicator/src/server.rs:197-208 | whatever a server sends from a boundary is a prefix of the encodings that follow |
| ReplicaProofs.DecodesNext | replicator/src/client.rs:355-372 | a record decoded from the stream is the leader's next record |
| ReplicaProofs.DecodeKeeps | replicator/src/client.rs:373-408 | decoding and batching take each record once and in order |
| ReplicaProofs.HandoverKeepsTaken | replicator/src/client.rs:358-364 | losing the transport, handing over, taking into the engine and resuming lose and duplicate nothing |
| ReplicaProofs.RunKeeps | replicator/src/client.rs:155-180 | the replication invariant holds over every run of bootstraps, connects, losses and resumes |
| ReplicaProofs.ReplicaIsPrefix | replicator/src/client.rs:155-248 | over every run a follower that dropped nothing has the leader's records from its base on, its position a record boundary of the leader, its segments prefixes of the leader's with the same ids, and has not stopped |
| ReplicaProofs.DropIsTerminal | processor/src/sequencer/mod.rs:304-311 | over every run, until it reconnects, a follower that dropped something agrees with the leader up to its last accepted block, has accepted none since, and stops at the next |
| ReplicaCoverage.CoveredNeverDiverges | keeper/src/builder.rs:233-268 | over every run a follower restored with enough hashes drops nothing, has not stopped and has a prefix of the leader's log |
| ReplicaCoverage.TooFewHashesDrop | processor/src/sequencer/mod.rs:195-203 | with too few hashes some continuation of the leader's log has a run after which the follower's log is no prefix and its position not the leader's |
| ReplicaCoverage.NeverDropsIffCovered | keeper/src/builder.rs:233-268 | a bootstrapped follower drops nothing over every continuation and every run if and only if its hashes cover the block window or the whole chain |
| ReplicaProgress.OwnStepsEnd | replicator/src/client.rs:183-241 | decoding, handing over and appending what is there comes to an end in any order, within a bound fixed at the start |
| ReplicaProgress.RunKeepsBatch | replicator/src/client.rs:44-60 | over every run a batch in the making holds only transactions, fewer than 128 and less than 128 KiB |
| ReplicaProgress.QuiescentHasAll | replicator/src/client.rs:355-410 | a follower with no such step left, and not stopped, has taken in every record it received whole; all but the current batch went through its engine |
| ReplicaProgress.FollowerCatchesUp | replicator/src/client.rs:183-241 | both, from every state a run reaches |
| ReplicaProgress.LostLinkIsGivenUp | replicator/src/client.rs:155-180 | a lost connection, once worked off, leaves nothing behind: the follower may connect again wherever the leader still serves the end of its log |
| ReplicaProgress.ReconnectStartsClean | replicator/src/client.rs:244-272 | a new connection starts at the end of the log with nothing pending |
| ReplicaProofs.ResumeIsServed | replicator/src/server.rs:240-267 | whatever was truncated, a reconnecting follower that dropped nothing is streamed to from the record right after its own last one if its segment is retained, else gets a snapshot; it is never turned away |
| ReplicaIngest.Ingest | replicator/src/client.rs:355-410 | the decoder loop hands over every whole record in order, in batches that never cross another record, hold at most 128 transactions and stay under 128 KiB before the last, and split only at one of these limits; it drops only the incomplete tail |
| ReplicaIngest.Accept | replicator/src/client.rs:373-408 | one decoded record is batched, or flushes the batch before it |
| ReplicaIngest.Flush | replicator/src/client.rs:413-426 | the batch is handed over whole, or nothing is |
| AppendFile.AppendFile.constructor | ledger/src/storage.rs:68-79 | a reopened file's log ends at the published cursor |
| AppendFile.AppendFile.Append | ledger/src/storage.rs:102-109 | the log grows by exactly the fragment, and a buffer that reaches 64 MB is flushed |
| AppendFile.AppendFile.Flush | ledger/src/storage.rs:157-167 | buffered bytes reach their place; the log and the bytes past the cursor are unchanged |
| AppendFile.AppendFile.Preallocate | ledger/src/storage.rs:125-139 | reserves space without changing the log, failing exactly past the addressable size |
| AppendFile.AppendFile.Persist | ledger/src/storage.rs:113-122 | everything appended is in the file below the returned cursor, with a sixteenth of a reservation still ahead; the exact failure condition |
| AppendFile.AppendFile.Finalize | ledger/src/storage.rs:142-148 | a sealed file is exactly its log |
| PipelineProofs.GrowthKeeps | ledger/src/appender.rs:299-304 | written and published entries stay so as files grow |
| PipelineProofs.BeginKeeps | ledger/src/appender.rs:147-219 | starting any ledger event keeps the pipeline invariant (what it writes is `PipelineDelivery.StepWrites`) |
| PipelineProofs.PublishKeeps | ledger/src/appender.rs:232-248 | publishing covers everything written before it |
| PipelineProofs.SendKeeps | ledger/src/appender.rs:157-176 | a commit message is sent only once everything before it is published |
| PipelineProofs.RotateKeeps | ledger/src/appender.rs:118-143 | opening the successor leaves committed entries backed |
| PipelineProofs.IndexKeeps | ledger/src/indexer.rs:80-106 | the indexer commits only published entries, under their own superblock |
| PipelineProofs.RunKeeps | ledger/src/appender.rs:63-115 | the pipeline invariant holds in every interleaving of appender and indexer |
| PipelineProofs.CommittedIsPublished | ledger/src/indexer.rs:80-106 | each committed entry names spans of its own superblock that hold its very records and lie below the published cursors |
| PipelineProofs.NothingDiscarded | ledger/src/indexer.rs:88-97 | a rotation fence never meets a nonempty batch, and every entry handed over is committed or still on its way (that executions are handed over is `PipelineDelivery.ExecutionIsIndexed`) |
| PipelineDelivery.StepWrites | ledger/src/appender.rs:147-222 | the active files grow by exactly the encodings of the records of the events, executions only of pending transactions; no other file changes |
| PipelineDelivery.CommittedIsMatched | ledger/src/appender.rs:157-170 | in every interleaving a committed transaction entry carries the execution of its own signature |
| PipelineDelivery.ExecutionIsIndexed | ledger/src/appender.rs:157-170 | an execution of a pending transaction is stored once, ends the wait, is handed over by the next step of the appender with the transaction it belongs to, and is committed whenever the appender is idle and queue and batch are empty |
| PipelineDelivery.BlockIsIndexed | ledger/src/appender.rs:173-183 | a block is handed over and committed the same way |
| PipelineDelivery.TransactionIsIndexed | ledger/src/appender.rs:147-170 | a transaction written at any moment of a run and executed later is indexed with that execution, under the superblock and the spans both were written to, whatever happens in between |
| PipelineDelivery.IdleAccepts | ledger/src/appender.rs:90-112 | between events every well-formed event is taken, a seal exactly when nothing is pending and its successor is new |
| PipelineDelivery.EventEnds | ledger/src/appender.rs:90-112 | every schedule of appender and indexer steps ends each event within a bound fixed at the start, and none gets stuck before |
| PipelineDelivery.EventPublishes | ledger/src/appender.rs:173-249 | a block, checkpoint, reset, sync or seal ends with everything written to its superblock published |
| PipelineDelivery.SyncSettles | ledger/src/appender.rs:200-229 | a sync, reset, synced block or seal ends with everything handed over committed; after a seal the empty successor is active, for the indexer too |
| SpanKeys.PackRoundTrip | ledger/src/index.rs:60-83 | packing 39-bit offset and 25-bit size loses nothing |
| SpanKeys.PackOrders | ledger/src/index.rs:53-75 | packed order is offset order, then size order |
| SpanKeys.BigEndianOrder | ledger/src/index.rs:86-105 | big-endian byte order is numeric order |
| SpanKeys.AccountKeyOrder | ledger/src/index.rs:287-300 | under one account prefix, byte order of keys is file order of spans, and keys decode back |
| Paging.FileOrderIsSpanOrder | ledger/src/index.rs:53-75 | executions laid one after another in the file have ascending packed spans |
| Paging.LastKey | ledger/src/index.rs:122-134 | the greatest key of an account in byte order is its newest span |
| Paging.AccountSpans | ledger/src/index.rs:216-223 | the account's spans below a bound, newest first, none missed |
| Paging.SpansAreHistory | ledger/src/index.rs:216-246 | what the index yields is exactly the superblock's executions mentioning the account |
| Paging.Header | ledger/src/reader.rs:469-473 | the execution stored at a span |
| Paging.ReadSuperblock | ledger/src/reader.rs:165-204 | one superblock contributes its entries until the limit or the stop signature |
| Paging.ReadSpans | ledger/src/reader.rs:175-203 | headers are read in order until the limit or the stop signature |
| Paging.AccountSignatures | ledger/src/reader.rs:152-207 | the first entries, up to limit and stop signature, of the newest-first history after the given signature |
| Paging.PageIsStretch | ledger/src/reader.rs:175-203 | a page is the stretch of the walk before the first entry with the stop signature, cut at the limit |
| Paging.WalkResumes | ledger/src/reader.rs:166-173 | walking before an entry of the history is the history after it |
| Paging.NextPage | ledger/src/reader.rs:152-207 | the page after what has been read is the next stretch of the history |
| Paging.ReadAll | ledger/src/reader.rs:152-207 | pages requested before the last returned signature concatenate to exactly the unpaged history across all superblocks |
| Routing.PlacedIffFaithful | accountsdb/src/lib.rs:422-433 | a stored batch leaves a key of it in exactly the backend its mode demands, with its image and owner, if and only if the entry's form and mode marker are faithful to where the key was |
| Routing.StoredModeMeans | solana/account/src/mode.rs:39-44 | the stored mode is the one whose kind is the lowest byte of the head word and whose access and flow are the next |
| Routing.ProgramExactIff | accountsdb/src/store/kv.rs:16-25 | a lookup by owner misses none of its accounts, and yields no other exactly when no persisted account has another owner with the same tail |
| Routing.SharedTailMisleads | accountsdb/src/store/kv.rs:16-25 | two owners with one tail: a lookup for one yields the account of the other |
| Routing.VolatileStore.constructor | accountsdb/src/volatile.rs:37-58 | the rebuilt owner sets are those of the restored accounts |
| Routing.VolatileStore.Join | accountsdb/src/volatile.rs:72-74 | the key joins its owner's set |
| Routing.VolatileStore.Leave | accountsdb/src/volatile.rs:83-86 | the key leaves its owner's set, which goes when empty |
| Routing.VolatileStore.Delete | accountsdb/src/volatile.rs:118-124 | the account is gone and the owner sets equal the recomputed ones |
| Routing.VolatileStore.Put | accountsdb/src/volatile.rs:70-87 | the account is stored and the owner sets equal the recomputed ones, also across an owner change |
| Routing.VolatileStore.Upsert | accountsdb/src/volatile.rs:61-89 | volatile accounts are kept, stale copies of persistent or closed ones dropped, in order |
| Routing.VolatileStore.Reset | accountsdb/src/volatile.rs:112-115 | no account and no owner set remains |
| Routing.OpsApply | accountsdb/src/store/mod.rs:90-120 | a persisted batch over distinct keys gives each key its own transition and leaves the rest |
| Routing.VolatileAppliedAt | accountsdb/src/volatile.rs:61-89 | a volatile batch over distinct keys gives each key its own outcome and leaves the rest |
| Routing.UnmentionedStays | accountsdb/src/lib.rs:85-97 | keys outside the batch stay as they are in both backends |
| Routing.StoreRoutes | accountsdb/src/lib.rs:85-97 | after a faithful batch every key lives in at most one backend, the one its mode demands |
| Routing.AccountsDB.constructor | accountsdb/src/lib.rs:51-66 | a new database is routed and valid |
| Routing.AccountsDB.Store | accountsdb/src/lib.rs:85-97 | a committed store keeps tiling and both owner indexes, places each entry exactly when it is faithful, lists each volatile entry under the owner its image names and no other, leaves other keys alone, and keeps the database routed if all entries are faithful; it commits whenever its inserts fit above the cursor, and leaves the volatile backend alone otherwise |
| Routing.AccountsDB.Locate | accountsdb/src/lib.rs:303-308 | the backend that holds a key; never both |
| Routing.AccountsDB.Program | accountsdb/src/lib.rs:124-143 | what both backends yield for an owner; exactly its accounts when no other persisted owner shares its tail |
| Routing.AccountsDB.Reset | accountsdb/src/lib.rs:241-243 | volatile state is dropped, persisted images are retained |
| Routing.AccountsDB.Compact | accountsdb/src/lib.rs:204-221 | compaction leaves what both backends store unchanged |
| Calculator.WordRoundTrip | programs/v42-calculator-interface/src/builder.rs:47-52 | little-endian words decode to what was encoded |
| Calculator.I64RoundTrip | programs/v42-calculator-program/src/calculator.rs:88-91 | an encoded signed literal is read back |
| Calculator.QuotientTruncates | programs/v42-calculator-program/src/calculator.rs:67 | the quotient leaves a remainder smaller than the divisor with the sign of the dividend |
| Calculator.TruncatesOnce | programs/v42-calculator-program/src/calculator.rs:67 | only one quotient does, and its product is no further from zero than the dividend |
| Calculator.CalculateMeans | programs/v42-calculator-program/src/calculator.rs:61-70 | each operation gives the arithmetic value exactly when it is in range; the exact conditions of both errors |
| Calculator.AccountValueMeans | programs/v42-calculator-program/src/calculator.rs:73-98 | an account's value is the signed little-endian word its data starts with; the exact conditions of both errors |
| Calculator.LoweredRuns | programs/v42-calculator-interface/src/builder.rs:47-100 | whatever surrounds it, a lowered tree pushes its value or stops with its first error |
| Calculator.RoomGivesValue | programs/v42-calculator-program/src/calculator.rs:167-197 | with enough slots the stack never shows in the result |
| Calculator.NoRoomOverflows | programs/v42-calculator-program/src/calculator.rs:179-183 | a level that needs more than 64 slots always fails, with overflow if nothing fails first |
| Calculator.LoweringPreservesMeaning | programs/v42-calculator-program/src/calculator.rs:37-59 | evaluating lowered bytes gives the tree's left-to-right checked result or first error exactly when every level fits 64 slots |
| Calculator.ShortProgramsFit | programs/v42-calculator-interface/src/builder.rs:47-100 | every call body of a lowered program of less than 65539 bytes fits its 16-bit length |
| Calculator.Stack.constructor | programs/v42-calculator-program/src/calculator.rs:175-177 | a new stack is empty |
| Calculator.Stack.Add | programs/v42-calculator-program/src/calculator.rs:179-183 | pushes, or fails exactly at 64 values |
| Calculator.Stack.Pop | programs/v42-calculator-program/src/calculator.rs:185-188 | removes the top, or fails exactly when empty |
| Calculator.Evaluate | programs/v42-calculator-program/src/calculator.rs:37-59 | the token loop over the fixed stack computes the evaluator's result, errors included |
| Calculator.Call | programs/v42-calculator-program/src/lib.rs:17-25 | a nested program is evaluated, unless it starts with the transfer opcode: then the call fails whether or not the transfer does |
| Calculator.LoweredIsNoTransfer | programs/v42-calculator-interface/src/builder.rs:47-100 | a lowered tree is never taken for a transfer |
| Patches.ModeRoundTrip | solana/account/src/mode.rs:40-215 | mode bytes decode to exactly the mode whose kind, access and flow they name |
| Patches.PersistentModes | solana/account/src/mode.rs:150-161 | exactly the delegated, undelegating, magic and runtime modes persist: the regular ones not fed from the base chain |
| Patches.EnteredFrom | solana/account/src/mode.rs:164-189 | for each mode, what it may be entered from and at which slots; refreshes advance the slot |
| Patches.LifecycleLaws | solana/account/src/mode.rs:164-189 | over every successful run of patches: deleted stays deleted, runtime stays runtime, a delegation ends only by undelegating, slots never fall |
| Patches.Resized | solana/account/src/patch.rs:73 | exact length, old bytes kept, growth zero-filled |
| Patches.Overwritten | solana/account/src/cow/mod.rs:271-286 | bytes at the offset replaced, data extended and zero-filled as needed, the rest kept |
| Patches.ChunksRebuild | solana/account/src/patch.rs:82-100 | bounded chunks written in order rebuild the data, for any length and chunk count |
| Patches.SequenceRebuilds | solana/account/src/patch.rs:67-100 | applying an account's patches to any target rebuilds every non-flag field if and only if the lifecycle transition is legal |
| Patches.StepConserves | programs/magic-root-program/src/account.rs:10-42 | each successful step keeps target plus authority lamports and never lowers the slot |
| Patches.RunConserves | programs/magic-root-program/src/account.rs:10-42 | so does every prefix of a successful run of patches |
| Patches.RebuildConserves | programs/magic-root-program/src/account.rs:10-42 | rebuilding under the authority gives the decomposed account and keeps the combined balance |
| Patches.RebuildSucceedsIff | programs/magic-root-program/src/account.rs:10-42 | rebuilding succeeds exactly when the balance can be settled, the transition is legal and the data is not too long |
| Patches.SharedAccount.SetDataAt | solana/account/src/cow/mod.rs:271-286 | growing, overwriting the overlap and appending the tail give the overwritten data |
| Patches.SharedAccount.Apply | solana/account/src/patch.rs:67-77 | the in-place patch, or an unchanged account on an illegal transition |
| Patches.PatchInstruction | programs/magic-root-program/src/account.rs:10-42 | on success both accounts are as specified and their combined lamports unchanged; each error exactly under its condition |

## Left out

- Rollback after a failed persisted batch: the storage cursor is not undone and
  the index transaction aborts; `PersistedStore.Upsert` and
  `Routing.AccountsDB.Store` state their results for committed batches only.
- PersistedStore.PersistedStore.TakeFree: does not say which of several exact-size spans is taken, because the index compares its little-endian duplicates bytewise and nothing depends on the choice.
- Upsert: says nothing of the state after a failed batch, because the abort of the index transaction is not modelled.
- Store: says nothing of the persisted state after a failed batch, for the same reason.
- The active/shadow copy-on-write image layout and its sequence lock: an image is
  an abstract sequence of units with pubkey, owner and length.
- Weak memory: readers and the compactor take sequentially consistent steps, as
  the fences are meant to give.
- The compare-and-swap loop of the allocator under concurrent writers: batches
  are applied one at a time.
- A pending transaction at a seal: execution is drained before a seal, so the
  pipeline takes an empty pending set there as an environment fact.
- Snapshot staging and restart: only a step that puts the follower at offset 0
  of a segment with some of the leader's latest hashes and no signatures. A
  follower restarted over its own ledger also restores that ledger's signatures,
  and a chain younger than 512 blocks carries placeholder hashes.
- What a follower does after it reconnects with a dropped transaction behind it, and
  its checks of seals, resets and checkpoints against its own state.
- Signature verification, hashing, compression, record codecs and handshake
  timestamps: abstract functions; records have nonempty, self-delimiting
  encodings.
- File and mapping system calls, durability, directory rotation, archival and
  retention sizing.
- The main event loop's scheduling of messages, shutdown and executor failure:
  a failed executor stops the engine. Completions arrive in any order.
- Transaction execution itself, cross-program calls, call depth and compute
  limits, and the effects of a calculator transfer.
- Ledger reads of blocks, block ranges and replay, and the block-time cache of
  account history: they would add easier members.
- Account history is per 8-byte key prefix, as in the index; distinct keys with
  equal prefixes share a history.
- Metrics, subscriptions, program cache maps and configuration.
