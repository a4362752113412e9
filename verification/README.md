# Verification of the qrandomx native library

This project models the native part of the qrandomx library in Dafny and proves what its components
promise, over every input and every interleaving of threads. Six components are covered.

**Hash engine** (`src/qrandomx/rx-slow-hash.c`). Two shared cache slots serve any number of threads. A
call picks a slot from the parity of its seed epoch, brings the slot to the seed it wants, binds its
thread-local machine, and hashes; a main-chain call drops the slot lock before it hashes.
`SeedEpochs` holds the epoch arithmetic and the slot choice, `EngineSteps` the transition system with one
access to shared state per step (the reorganisation of one slot and the block under the dataset mutex are
one step each), `EngineLocks`, `EngineSafety` and `EngineTheorems` what every run keeps, `EngineSharing`
when dropping the lock early is safe, `EngineChoice` which calls keep it, `EngineParallel` that this
condition is exact for calls whose slot does not depend on what is recorded, and `EngineOnce` that two
adjacent epochs fill each slot at most once. `EngineAlone` composes the atomic steps of an operation that
nobody interrupts into the effect of the sequential code, full-memory mode included. `HashEngine` is the same
code, without that mode, as a class that updates its slots in place, run by one thread. `DatasetInit` covers
the parallel dataset loop.

**Miner** (`src/qrandomx/qrxminer.cpp`). A thread in `start`, threads in `cancel` or a solution accessor,
an event thread whose handler may call any of these, and the workers of a job share four mutexes, atomics
and an event queue. `MinerSteps` is the transition system, `MinerLocks` the lock discipline and deadlock
freedom, `MinerSafety` the invariant, `MinerTheorems` the promises, `MinerComplete` that no worker, nonce,
solution or announcement is left out, `MinerEvents` the fate of each event, `MinerDeliver` when it reaches the
handler, `MinerTrials` the nonces hashed in a run, and `MinerCurrent` when a job's number is the current one.
`MinerRuns` builds concrete runs: `MinerOvertaken` has one in which a `cancel` overlaps a `start`,
`MinerBothEvents` one in which a job creates both kinds of event. `NonceSearch` covers how workers share
the nonces and the search loop over an array; `Miner` is the miner's own code as a class.

**Proxy** (`src/qrandomx/threadedqrandomx.cpp`). Callers put requests in a queue; one thread drains it in
batches and answers each request through its own output queue. `ProxySteps`, `ProxySafety` and
`ProxyTheorems` treat all interleavings, `ThreadedProxy` the code as classes.

**Pool** (`src/qrandomx/qrandomxpool.cpp`). Instances move between pool, clients and deleters, and may
outlive the pool. `PoolSteps` treats all interleavings, `ObjectPool` the code as classes.

**Difficulty and target** (`src/pow/powhelper.cpp`, `src/misc/bignum.cpp`). `PowHelper` and `Bignum`.

Conventions. A run is a list of actions; an action that is not enabled when its turn comes does nothing, so
a statement about all lists is one about all interleavings. The proof-of-work function is an
uninterpreted function of a 32-byte seed and the input. History fields (logs and counters that no
step depends on) are named as such where they are declared. Integer division of C++ truncates toward
zero and is written out as `TruncDiv`; 32-bit and 64-bit wrap-around is written out where it matters.

Six results say exactly where the code does what one might expect, and where it does not:

- The comment "mainchain users can run in parallel" (`rx-slow-hash.c:278`). Give each thread any set of
  light calls (`miners` 0) whose slot does not depend on what is recorded: main-chain calls, and alt calls
  for another seed height than that of their main height. Some interleaving makes a thread hash with a
  wrong seed if and only if one of its calls is no alt call after slot selection and a call of another
  thread chooses the same slot for a different seed (`EngineParallel.ParallelHashingIff`); slot and alt
  flag follow from the heights and the flag of a call. A refill of the slot for the same seed, as after a
  reorganisation or for another seed height, does no harm. No such conflict exists among main-chain calls
  whose seeds belong to two adjacent epochs, provided that each call's seed height is within one epoch of
  the seed height of its main height and that each seed height has one seed
  (`EngineSharing.AdjacentEpochsNeverClash`). With a main height further away, seeds of adjacent epochs
  can conflict (`EngineParallel.FarMainHeightConflicts`).
- A call with `miners` that finds a light machine in its thread does not rebind it (`rx-slow-hash.c:269-273`).
  Even when nobody interrupts it, it hashes with its own seed if and only if the machine was bound to that
  seed before and its cache still has it (`EngineAlone.MinersKeepLightMachine`).
- The nonces are split exactly among the workers if and only if there are 1 to 255 of them, because a
  worker receives the thread count as one byte (`NonceSearch.PartitionIffOneByte`).
- The number of a job is outdated if and only if a `cancel` has taken a number since `start` read it
  (`MinerCurrent.OutdatedIff`). A `start` that no other thread's `cancel` overlaps returns with its job
  current (`MinerCurrent.StartedJobIsCurrent`); an overlapping one can leave a job running whose events
  are all dropped (`MinerOvertaken.CancelOvertakesStart`, `MinerOvertaken.OutdatedJobIsSilent`).
- One measurement keeps the order of all parent difficulties if and only if the quantization is positive,
  or the adjustment is not, or the adjustment is at least half the size of the quantization
  (`PowHelper.OrderKeptIff`).
- The next seed height is the current one or one epoch later if and only if the addition does not wrap
  (`SeedEpochs.NextSeedHeight`).

## Model

| member | source | states |
|---|---|---|
| Bignum.FromByteVector | src/misc/bignum.cpp:6-20 | fails exactly on lengths other than 32, and otherwise yields the big-endian value, below 2^256 |
| Bignum.ToByteVector | src/misc/bignum.cpp:22-33 | writes 32 bytes whose big-endian value is the number |
| Bignum.CodecsAreInverse | src/misc/bignum.cpp:6-33 | decoding after encoding and encoding after decoding are both the identity on the values and strings that fit |
| Bignum.BigEndianInjective | src/misc/bignum.cpp:13-19 | different strings of one length decode to different numbers |
| Bignum.LittleEndianHead | src/pow/powhelper.cpp:93-109 | in the little-endian reading the first byte is the low one |
| Bignum.FirstDifferenceDecides | src/pow/powhelper.cpp:106-115 | the most significant differing byte decides the order of the two numbers |
| PowHelper.GetDifficulty | src/pow/powhelper.cpp:43-78 | its two error cases, and otherwise the encoding of the next difficulty |
| PowHelper.GetTarget | src/pow/powhelper.cpp:80-95 | its error case, 32 zero bytes for difficulty 0, and otherwise the little-endian encoding of the 256-bit reciprocal |
| PowHelper.PassesTarget | src/pow/powhelper.cpp:97-118 | the byte loop accepts exactly when both strings have 32 bytes and the hash is at most the target as little-endian numbers |
| PowHelper.AcceptedAfter | src/pow/powhelper.cpp:43-118 | measurement, difficulty, target and verdict composed: a hash is accepted exactly when its value times the difficulty stays below 2^256 |
| PowHelper.TargetIsExact | src/pow/powhelper.cpp:88-89 | rounding the reciprocal loses nothing: passing it is the same as value times difficulty below 2^256 |
| PowHelper.SlowerBlockAcceptsMore | src/pow/powhelper.cpp:43-118 | every byte string accepted for a parent after some measurement is accepted after every slower one, and the target does not shrink |
| PowHelper.RawIsTruncDiv | src/pow/powhelper.cpp:51 | the real-valued expression truncates to kp * (set point - measurement) / set point |
| PowHelper.AdjustmentByCases | src/pow/powhelper.cpp:51-62 | the adjustment is that quotient, or the bound it passes; the lower bound wins when the bounds cross |
| PowHelper.AdjustmentAntitone | src/pow/powhelper.cpp:51-62 | after both clamps a slower block never has a larger adjustment |
| PowHelper.NextAntitone | src/pow/powhelper.cpp:51-77 | a slower block never has a larger difficulty |
| PowHelper.NextMonotone | src/pow/powhelper.cpp:63-77 | a harder parent never has an easier child, for every pair of clamps |
| PowHelper.ChainsStayOrdered | src/pow/powhelper.cpp:51-77 | two chains with ordered starts and pointwise ordered measurements stay ordered at every block |
| PowHelper.OrderKeptIff | src/pow/powhelper.cpp:63-77 | one measurement keeps the order of all 256-bit parents if and only if the quantization is positive, or the adjustment is not, or twice the adjustment reaches the size of the quantization |
| PowHelper.DefaultFitsLong | src/pow/powhelper.cpp:51 | with default parameters the raw value fits a 64-bit `long` if and only if the measurement is at most 5534023222112865545 |
| PowHelper.OneStep | src/pow/powhelper.cpp:63-77 | direction of one step, its stand-still case, and the bound max(1, adjustment * parent / quantization) on its size |
| PowHelper.ExactStep | src/pow/powhelper.cpp:63-77 | with a positive quantization the difficulty moves by exactly max(1, adjustment * parent / quantization) in the direction of the adjustment, and stops at 2 and at 2^256 - 1 |
| PowHelper.ExactStepTurned | src/pow/powhelper.cpp:63-77 | the same for a negative quantization: a scaled step goes against the adjustment, the bump of an empty one with it |
| PowHelper.DefaultAdjustmentSign | src/pow/powhelper.cpp:51-62 | with default parameters the adjustment has the sign of 60 minus the measurement and lies between -1000 and 100 |
| PowHelper.DefaultStep | src/pow/powhelper.h:36-40 | the exact step with the default parameters, in numbers |
| PowHelper.SixtyIsTheFixedPoint | src/pow/powhelper.cpp:51-77 | a measurement leaves every difficulty unchanged if and only if it is 60 |
| PowHelper.Descent | src/pow/powhelper.cpp:51-77 | measurements of at least 61 lower the difficulty at every block until it is 2, within parent - 2 blocks, where it stays |
| PowHelper.Ascent | src/pow/powhelper.cpp:51-77 | measurements of at most 59 raise the difficulty at every block until it is 2^256 - 1, where it stays |
| SeedEpochs.MaskRoundsDown | src/qrandomx/rx-slow-hash.c:127-131 | the sign-extended mask rounds every 64-bit number down to a multiple of 2048 |
| SeedEpochs.ToggleBitIsParity | src/qrandomx/rx-slow-hash.c:192 | the toggle bit of a height is the parity of its epoch |
| SeedEpochs.SeedHeightByDivision | src/qrandomx/rx-slow-hash.c:127-131 | the masked form equals a division form for every 64-bit height |
| SeedEpochs.SeedHeightLaws | src/qrandomx/rx-slow-hash.c:127-131 | the seed height is a multiple of 2048, lies 65 to 2112 blocks back, and is 0 exactly up to height 2112 |
| SeedEpochs.SeedHeightJumps | src/qrandomx/rx-slow-hash.c:127-131 | from block to block it stays or jumps by exactly 2048, and where it jumps |
| SeedEpochs.SeedHeightMonotone | src/qrandomx/rx-slow-hash.c:127-131 | it never falls as the height grows |
| SeedEpochs.NextSeedHeight | src/qrandomx/rx-slow-hash.c:133-136 | the announced next seed height is the current one or one epoch later if and only if the sum does not wrap |
| SeedEpochs.ChoiceByFields | src/qrandomx/rx-slow-hash.c:191-214 | slot and alt flag of every call by its fields: which calls use the slot of the current epoch, and which stay alt calls |
| SeedEpochs.MainCallSlot | src/qrandomx/rx-slow-hash.c:191-214 | a main-chain call uses the slot of its epoch's parity if and only if the epoch is the current one or an odd number of epochs away |
| SeedEpochs.NeighbouringEpochSlot | src/qrandomx/rx-slow-hash.c:191-214 | within one epoch the slot depends on the seed height alone |
| SeedEpochs.AdjacentEpochsUseDifferentSlots | src/qrandomx/rx-slow-hash.c:191-214 | epochs at most one apart share a slot only if they are the same |
| EngineLocks.LockDiscipline | src/qrandomx/rx-slow-hash.c:197-304 | every step of every operation takes a mutex only when it is free and releases only its own |
| EngineLocks.LockStep | src/qrandomx/rx-slow-hash.c:197-304 | ownership of all four mutexes is at every moment exactly what the program counters say |
| EngineLocks.WaitsAscend | src/qrandomx/rx-slow-hash.c:197-304 | whoever is waited for runs or waits for a mutex later in the order rx_mutex, rs_mutex, rx_dataset_mutex |
| EngineLocks.SomeoneCanMove | src/qrandomx/rx-slow-hash.c:197-304 | with an unfinished operation, some unfinished operation can step |
| EngineLocks.StepsAreBounded | src/qrandomx/rx-slow-hash.c:189-305 | every step uses up a bounded remainder of its operation |
| EngineSafety.AlwaysOk | src/qrandomx/rx-slow-hash.c:189-305 | the invariant on slots, caches, machines, mutexes and the log holds in every run |
| EngineTheorems.FreeSlotAgrees | src/qrandomx/rx-slow-hash.c:218-234 | a slot whose lock is free has a cache whose key is the recorded seed hash |
| EngineTheorems.HashUsesRequestedSeed | src/qrandomx/rx-slow-hash.c:199-285 | a call still alt after slot selection hashes with its own seed; any other call does exactly when the last refill of its slot between its unlock and its hash, if any, was for the same seed |
| EngineTheorems.LightRuns | src/qrandomx/rx-slow-hash.c:235-277 | runs without full-memory requests contain only light hashes |
| EngineTheorems.OperationsFinish | src/qrandomx/rx-slow-hash.c:114-305 | once no new operation begins, every run has at most as many steps as the operations had left, and when none can move all have finished and no mutex is held |
| EngineChoice.SelectByFields | src/qrandomx/rx-slow-hash.c:197-214 | an alt call for the current epoch goes to its slot, and gives up the lock early, exactly when the hash recorded there is its own |
| EngineChoice.OtherEpochsKeepTheLock | src/qrandomx/rx-slow-hash.c:199-284 | in every run a call for a past epoch, or an alt call for any other epoch than the current one, keeps out of the current epoch's slot and hashes with its own seed whatever else runs |
| EngineChoice.WhoHashesUnderTheLock | src/qrandomx/rx-slow-hash.c:278-284 | in every reachable state a thread about to hash holds the lock of its slot if it is an alt caller after the choice, and no slot lock otherwise |
| EngineSharing.SharedSlotsAreSafe | src/qrandomx/rx-slow-hash.c:199-285 | in every run, with alt calls and reorganisations, a caller always hashes with its own seed if at no moment another call in flight wants a different seed in the slot that it uses without the lock |
| EngineSharing.AdjacentEpochsNeverClash | src/qrandomx/rx-slow-hash.c:199-285 | if at any moment the calls in flight are light main-chain calls within one epoch of their main height, for two adjacent epochs with one seed each, every hash uses its requested seed |
| EngineOnce.TwoSlotsSuffice | src/qrandomx/rx-slow-hash.c:189-285 | main-chain calls for one pair of adjacent epochs fill each slot at most once, and every hash uses its requested seed |
| EngineParallel.ParallelHashingIff | src/qrandomx/rx-slow-hash.c:199-281 | for light calls with a fixed choice, any set of them on each of any number of threads, some interleaving makes a thread hash with a wrong seed if and only if one of its calls is no alt call after slot selection and a call of another thread has its slot and a different seed |
| EngineParallel.FarMainHeightConflicts | src/qrandomx/rx-slow-hash.c:199-212 | seeds of adjacent epochs conflict when one call is for its own main height and the other is made an even, non-zero number of epochs away from its seed |
| EngineAlone.CallAlone | src/qrandomx/rx-slow-hash.c:189-285 | the steps of a call together: slot by fields, one refill exactly when seed or height differ, dataset and machine by the request, the hash it computes, and all mutexes free |
| EngineAlone.MinersKeepLightMachine | src/qrandomx/rx-slow-hash.c:235-281 | a call with miners over a light machine, not interrupted, hashes with its own seed if and only if the machine was bound to it before and its cache has it |
| EngineAlone.ReorgAlone | src/qrandomx/rx-slow-hash.c:114-125 | the steps of a reorganisation together make exactly the slots at or above the split stale, and the dataset with them if it was built for one of their heights |
| EngineAlone.StopAlone | src/qrandomx/rx-slow-hash.c:297-305 | the steps of the end of mining together release the dataset and change nothing else |
| EngineAlone.FreeStateAlone | src/qrandomx/rx-slow-hash.c:290-295 | freeing the machine leaves slots and caches alone |
| HashEngine.Engine.PrepareSlot | src/qrandomx/rx-slow-hash.c:218-234 | the slot gets the requested seed, by one refill exactly when seed or height differ, keeps its cache if it had one, and the other slot is untouched |
| HashEngine.Engine.BindMachine | src/qrandomx/rx-slow-hash.c:235-277 | the machine reads the slot's cache under the slot's seed |
| HashEngine.Engine.SlowHash | src/qrandomx/rx-slow-hash.c:189-285 | every call returns the memoryless hash, changes only the chosen slot, and never moves a slot's cache |
| HashEngine.Engine.Reorg | src/qrandomx/rx-slow-hash.c:114-125 | exactly the slots at or above the split are marked stale, the dataset with them if it was built for one of their heights, and the caches still match their seeds |
| HashEngine.Engine.AtMostTwoCaches | src/qrandomx/rx-slow-hash.c:218-234 | at most two caches are ever allocated |
| DatasetInit.SplitWork | src/qrandomx/rx-slow-hash.c:151-173 | the loop fills the work table with the chunks of the specification |
| DatasetInit.ChunkSizes | src/qrandomx/rx-slow-hash.c:152-165 | every thread but the last gets total / miners items, and the last one the rest |
| DatasetInit.ExactCover | src/qrandomx/rx-slow-hash.c:151-173 | for every item count and every thread count above 1, each item is in exactly one chunk and no chunk reaches outside |
| DatasetInit.InterleavingsAgree | src/qrandomx/rx-slow-hash.c:144-180 | in every interleaving of the seed threads no item is written twice, and the finished dataset is that of one whole-range call |
| DatasetInit.InitRange | src/qrandomx/rx-slow-hash.c:144-148 | a seed thread writes its own range and nothing else |
| DatasetInit.InitData | src/qrandomx/rx-slow-hash.c:150-187 | any number of miners yields the full dataset, recorded for the given height |
| ProxySafety.AlwaysOk | src/qrandomx/threadedqrandomx.cpp:40-113 | the invariant on queue, requests, mutexes and threads holds in every run |
| ProxyTheorems.ProxyRefinesDirectCall | src/qrandomx/threadedqrandomx.cpp:40-113 | requests run in submission order, each gets at most one output, and each caller returns the direct result of its own parameters: by kind, the hash of its input under its seed, the seed height by division, or nothing |
| ProxyTheorems.CallReturnsItsResult | src/qrandomx/threadedqrandomx.cpp:50-72 | in every continuation of a call, what is returned for its request goes to the calling thread and is the direct result of the arguments of the call |
| ProxyTheorems.NoLostWakeUp | src/qrandomx/threadedqrandomx.cpp:40-113 | the proxy never sleeps beside a non-empty queue, nor a caller beside its output, without a notification pending or about to be sent |
| ProxyTheorems.ProxyLowersRank | src/qrandomx/threadedqrandomx.cpp:74-113 | each proxy step brings an unanswered request closer to its answer |
| ProxyTheorems.OthersKeepRank | src/qrandomx/threadedqrandomx.cpp:40-72 | no step of a caller pushes an unanswered request further away |
| ProxyTheorems.BlockedByRunningCaller | src/qrandomx/threadedqrandomx.cpp:40-113 | a proxy that cannot step while a request waits is held up by a caller that can |
| ProxyTheorems.BlockedProxyIsFreed | src/qrandomx/threadedqrandomx.cpp:40-113 | in every run the proxy waits for one and the same caller, which takes at most two steps before the proxy can go on |
| ProxyTheorems.EventuallyAnswered | src/qrandomx/threadedqrandomx.cpp:40-113 | in every continuation of every run a submitted request is answered by the time the proxy has taken as many steps as its rank |
| ProxyTheorems.SomeoneCanStep | src/qrandomx/threadedqrandomx.cpp:40-113 | while a caller is inside a call, the proxy or a caller can step |
| ProxyTheorems.EveryCallReturns | src/qrandomx/threadedqrandomx.cpp:40-113 | every run of steps, in any order, has at most as many as there was work, and when no thread can step every caller has returned |
| ThreadedProxy.ThreadedQRandomX.DrainQueue | src/qrandomx/threadedqrandomx.cpp:80-86 | the batch is the whole queue in order, and the queue is empty |
| ThreadedProxy.ThreadedQRandomX.Execute | src/qrandomx/threadedqrandomx.cpp:92-103 | by kind: the hash of the input under the seed, with the slot that the call chooses; the seed height by division; or no output and a freed machine |
| ThreadedProxy.ThreadedQRandomX.ProcessEvents | src/qrandomx/threadedqrandomx.cpp:89-108 | every request of a batch gets exactly one more output, the result for its kind, whatever the engine remembers |
| PoolSteps.OnePlaceEach | src/qrandomx/qrandomxpool.cpp:29-89 | in every run each created instance is in exactly one place, and no other instance is anywhere |
| PoolSteps.CreatedIsPeak | src/qrandomx/qrandomxpool.cpp:67-89 | while the pool lives nothing is deleted, created equals pooled plus out, and created equals the peak out at one moment |
| PoolSteps.EverythingIsDeletedOnce | src/qrandomx/qrandomxpool.cpp:29-65 | nothing is ever deleted twice, and once all is given back and all owners are gone everything has been deleted once |
| PoolSteps.DeletersFinish | src/qrandomx/qrandomxpool.cpp:29-43 | each step of a deleter brings the pool closer to rest |
| PoolSteps.GivenBackComesOutNext | src/qrandomx/qrandomxpool.cpp:29-89 | an instance given back while the pool lives is the next one handed out, and no new one is made |
| ObjectPool.QRandomXPool.Acquire | src/qrandomx/qrandomxpool.cpp:67-83 | the instance given back last, or a new one exactly when none is idle; it is no longer in the pool |
| ObjectPool.QRandomXPool.Destroy | src/qrandomx/qrandomxpool.cpp:57-65 | every idle instance is detached and deleted exactly once |
| ObjectPool.Release | src/qrandomx/qrandomxpool.cpp:29-43 | back on top of a living pool, otherwise deleted once |
| NonceSearch.NonceStep | src/qrandomx/qrxminer.cpp:192-235 | repeated 32-bit additions of the stride reach the closed form of the k-th nonce |
| NonceSearch.PartitionIffOneByte | src/qrandomx/qrxminer.cpp:183-235 | the pre-wrap sequences of all workers contain every 32-bit nonce exactly once if and only if there are 1 to 255 threads |
| NonceSearch.DistinctTries | src/qrandomx/qrxminer.cpp:183-235 | with 1 to 255 threads two different tries never use one nonce before a counter wraps |
| NonceSearch.NonceRoundTrip | src/qrandomx/qrxminer.cpp:105-111 | a stored nonce reads back, no other byte changes, and the next nonce replaces it without trace |
| NonceSearch.NonceBytes | src/qrandomx/qrxminer.cpp:105-111 | the four stored bytes, most significant first, and the number they read back as |
| NonceSearch.StoreNonce | src/qrandomx/qrxminer.cpp:189-199 | the in-place store leaves the buffer with the nonce in network byte order |
| NonceSearch.Search | src/qrandomx/qrxminer.cpp:184-236 | the search loop returns the first solving nonce of its worker, with the exact input and hash, or nothing when none of its tries solves |
| Miner.CurrentIsExact | src/qrandomx/qrxminer.cpp:278-303 | exactly the events of the current sequence number get through |
| Miner.CurrentKeepsOrder | src/qrandomx/qrxminer.cpp:292-303 | events of the current number get through in the order in which they were queued |
| Miner.QRXMiner.Start | src/qrandomx/qrxminer.cpp:153-175 | the new job forgets the last solution, and no queued event counts as its own |
| Miner.QRXMiner.Publish | src/qrandomx/qrxminer.cpp:225-233 | the first passing solution is stored and announced; nothing else changes anything |
| Miner.QRXMiner.Work | src/qrandomx/qrxminer.cpp:184-238 | a worker publishes exactly when one of its nonces solves the job, then the first, announces it once, and it reads back |
| Miner.QRXMiner.SolutionNonce | src/qrandomx/qrxminer.cpp:105-111 | reads the stored nonce in network byte order |
| Miner.QRXMiner.DrainEvents | src/qrandomx/qrxminer.cpp:290-315 | the queue runs empty and the handler sees exactly the current events, in order |
| MinerLocks.StepKeepsLocks | src/qrandomx/qrxminer.cpp:153-315 | ownership and recursion depth of all four mutexes are at every moment what the program counters say |
| MinerLocks.WaitsAscend | src/qrandomx/qrxminer.cpp:225-311 | along the waits-for relation the wanted resource moves up the order event mutex, running-threads mutex, joins, solution mutex, queue mutex |
| MinerLocks.SomeoneCanStep | src/qrandomx/qrxminer.cpp:225-311 | from any thread with something to do the waits lead to one that can step |
| MinerSafety.AlwaysOk | src/qrandomx/qrxminer.cpp:153-315 | the invariant on workers, solution, events and locks holds in every run |
| MinerTheorems.SolutionIsSound | src/qrandomx/qrxminer.cpp:79-117 | a solution seen under its mutex is the job's input with only the nonce replaced, the hash of that input, and meets the target, except between the lines of `start` that set the next job and take the last solution back |
| MinerTheorems.AccessorAlone | src/qrandomx/qrxminer.cpp:79-117 | an accessor that finds the solution mutex free gets it and leaves everything as it was |
| MinerComplete.StartCreatesEveryWorker | src/qrandomx/qrxminer.cpp:163-239 | when `start` is about to return, exactly the requested number of workers exists, with their numbers and step, and from 1 to 255 of them cover every nonce |
| MinerComplete.NoSolutionIsMissed | src/qrandomx/qrxminer.cpp:198-236 | in every reachable state no worker goes past a solving nonce or a passing hash unless a solution is stored, and none ends unless one is stored or the stop flag is up |
| MinerComplete.ExhaustedMeansUnsolvable | src/qrandomx/qrxminer.cpp:163-236 | when the workers of a job of 1 to 255 threads have all gone through their nonces and no solution is stored, no nonce solves the job |
| MinerComplete.StoredIsAnnounced | src/qrandomx/qrxminer.cpp:225-233 | a stored solution has been announced, with its nonce, once the solution mutex is free |
| MinerComplete.TimeoutIsAnnounced | src/qrandomx/qrxminer.cpp:213-217 | a worker that stops the job after its deadline has announced the timeout first |
| MinerTheorems.OneEventOfAKind | src/qrandomx/qrxminer.cpp:213-232 | at most one SOLUTION and one TIMEOUT are created per sequence number |
| MinerBothEvents.BothKindsOccur | src/qrandomx/qrxminer.cpp:213-232 | both can occur: every job of two threads that nonce 1 solves has a run that creates its SOLUTION and its TIMEOUT |
| MinerTheorems.AnnouncedIsStored | src/qrandomx/qrxminer.cpp:225-233 | no event is newer than the current job, and an announced nonce of the current job is the stored one |
| MinerTheorems.HandlerSeesCurrentJob | src/qrandomx/qrxminer.cpp:274-288 | while the handler runs only its own calls have moved the sequence number; before they do, a delivered solution is the stored one |
| MinerTheorems.OnlyTheHandlerAdvances | src/qrandomx/qrxminer.cpp:251-288 | the sequence number grows by one in `cancel` only, and by no other thread while the event thread holds its mutex for delivery |
| MinerTheorems.NoStaleDelivery | src/qrandomx/qrxminer.cpp:251-315 | after any state the handler is never entered with an event older than that state's sequence number |
| MinerTheorems.HandlerMayCall | src/qrandomx/qrxminer.cpp:251-288 | the running handler may begin any call, and its own calls never wait for the event mutex |
| MinerTheorems.CancelStopsEverything | src/qrandomx/qrxminer.cpp:251-262 | when `cancel` has cleared the threads, none runs, the count is 0 and no worker holds the solution mutex |
| MinerTheorems.QuietUntilStart | src/qrandomx/qrxminer.cpp:153-262 | with no workers and no `start` in progress, no worker runs, no event is created and the solution is frozen until a `start` begins |
| MinerTheorems.SilenceAfterCancel | src/qrandomx/qrxminer.cpp:251-262 | the same from the end of `cancel` on, if no `start` is in progress |
| MinerTheorems.SolutionStays | src/qrandomx/qrxminer.cpp:225-233 | a published solution stays what it is, whatever workers and cancelling threads do and while its own `start` still creates workers, until a next `start` replaces the job |
| MinerTheorems.NoCallNoNewJob | src/qrandomx/qrxminer.cpp:161-168 | no `start` replaces the job before a next one is called |
| MinerTheorems.WorkerHashesItsNonce | src/qrandomx/qrxminer.cpp:192-200 | in every interleaving a worker hashes the job's input with exactly the nonce of its index and number of tries |
| MinerTrials.NoNonceHashedTwice | src/qrandomx/qrxminer.cpp:183-200 | in every run any two hashes for one job of 1 to 255 threads have different nonces in their inputs, unless one comes after a wrap |
| MinerTheorems.NeverDeadlocked | src/qrandomx/qrxminer.cpp:225-311 | in every reachable state with something to do, also for `cancel` or a solution accessor inside the handler, some thread can take its next step |
| MinerTheorems.JoinsWaitForBoundedWork | src/qrandomx/qrxminer.cpp:251-260 | while `cancel` joins, no schedule lets the workers take more than 17 further steps each |
| MinerTheorems.TimeoutStopsTheJob | src/qrandomx/qrxminer.cpp:213-217 | once the worker that announced a timeout is on its way out, the stop flag is up for the job's other workers |
| MinerTheorems.HaltEndsTheSearch | src/qrandomx/qrxminer.cpp:198-235 | after a timeout, a cancellation or a solution, also one that comes while `start` still creates workers, and until a next `start` replaces the job, in every schedule the workers take at most 17 further steps each and those still to be created at most 4 |
| MinerEvents.NoEventLost | src/qrandomx/qrxminer.cpp:244-249 | a current event stays queued or in hand in every continuation, unless the handler accepts it or a newer sequence number is taken |
| MinerEvents.ReachableHasNoCopies | src/qrandomx/qrxminer.cpp:297-309 | queue and hand of the event thread hold every event at most once |
| MinerEvents.AcceptedOnce | src/qrandomx/qrxminer.cpp:278-309 | once an event is accepted, or found outdated at either check, the handler is never entered with it again |
| MinerEvents.OutdatedIsDropped | src/qrandomx/qrxminer.cpp:274-303 | an outdated event that was taken from the queue is neither put back nor handed to the handler |
| MinerDeliver.EventuallyDelivered | src/qrandomx/qrxminer.cpp:274-315 | in every continuation of every run a queued event whose number stays current is handed to the handler by the time the event thread has taken a number of steps given by its place, whatever the handler does with the events before it |
| MinerCurrent.OutdatedIff | src/qrandomx/qrxminer.cpp:175-261 | the job is current when `start` reads its number, and outdated from then on if and only if a `cancel` has taken a number since |
| MinerCurrent.StartedJobIsCurrent | src/qrandomx/qrxminer.cpp:153-262 | if no other thread is inside `cancel` during a `start`, then when it returns all its workers exist, the stop flag is down unless the job timed out, and the job is current and stays so exactly until the next `cancel` takes a number |
| MinerOvertaken.CancelOvertakesStart | src/qrandomx/qrxminer.cpp:161-177 | otherwise: a run in which a `cancel` overlapping a `start` returns and the job goes on with an outdated sequence number |
| MinerOvertaken.OutdatedJobIsSilent | src/qrandomx/qrxminer.cpp:274-303 | no event of such a job reaches the handler before a `start` reads a new number |

## Left out

- RandomX itself (Argon2, JIT, AES, dataset items) is an uninterpreted function of the seed and the input; a cache holds the key it was last initialised with, and creating or rebinding a machine binds it to a cache.
- The floating-point arithmetic of `src/pow/powhelper.cpp:51` is modelled as the exact rational value truncated toward zero; results that do not fit a `long` or where a double rounds across an integer are not covered. With the default parameters the first limit is a measurement of 5534023222112865545 (`PowHelper.DefaultFitsLong`); rounding has no effect there, because values that differ from an integer do so by at least 1/3 and values below -1000 are clamped.
- PowHelper.Descent: speaks of every measurement of at least 61, of which the source covers those up to that limit.
- PowHelper.GetDifficulty: requires a positive set point, because the conversion of an infinite or undefined quotient to an integer has no defined result.
- Integer widths of the controller parameters (64-bit) are not modelled; the parameters are unbounded.
- The initialisation of a cache is one step, and so is a hash: a hash during an initialisation of its cache is not modelled, and an initialisation with the same key leaves the cache as it was. Torn reads of the recorded seed hash are not modelled.
- EngineParallel.ParallelHashingIff: alt calls for the seed height of their own main height are not admitted, because their slot depends on the recorded seed hash; `EngineSharing.SharedSlotsAreSafe` covers them by the slots they have chosen.
- HashEngine.Engine.SlowHash: covers calls without full-memory mode; `EngineAlone.CallAlone` covers it for calls that nobody interrupts.
- The seed a dataset was built for is not recorded, so a hash over the full dataset carries no claim; and which seed a thread that has asked for miners hashes with is claimed only for calls that nobody interrupts.
- Allocation failures, large-page fallbacks, flag parsing and the Windows mutex macros.
- Timers, hash-rate measurement, forced sleeps and `waitForAnswer`; the deadline of a job is a nondeterministic choice of worker 0.
- The condition variable of the miner's event thread is a guard on the queue; the sleep of 100 ms before an unprocessed event is retried is not modelled.
- DatasetInit.InitData: writes the ranges one after the other; `DatasetInit.InterleavingsAgree` is about the threads.
- Miner.QRXMiner.Start: leaves out the workers, and the heights, on which the proof-of-work function does not depend; `MinerSteps` has the workers.
- Miner.QRXMiner.Work: one worker alone, without a deadline; `MinerTheorems` treats all workers together.
- Miner.QRXMiner.DrainEvents: the handler accepts every event and makes no calls; `MinerEvents` treats handlers that decline events and moving sequence numbers.
- Miner.CurrentIsExact: about one queue at one sequence number, as `DrainEvents` uses it.
- NonceSearch.Search: the stop flag and the found flag of other workers appear as a bound on the number of tries; `MinerSteps` treats them as shared flags.
- Two threads inside `start` at once, and the destruction of a miner or a proxy that other threads still call; the stop flag of the proxy is therefore never raised.
- A `start` whose nonce offset leaves no room for four bytes in the input; the source writes out of bounds there.
- The sequence number that `start` returns is read after the workers exist and is not recorded; a caller that overlapped a `cancel` gets the newer number.
- The wrap-around of the 64-bit sequence number, which takes 2^64 cancellations.
- PoolSteps.CreatedIsPeak: an instance counts as out until its deleter has put it back, so the peak is over instances held by clients or in a deleter.
- `ThreadedQRandomX::freeVM` has an empty body in the source, so the miner's call of it at the end of a worker has no effect and no step.
- Decimal strings, hex printing, the SWIG and Python layers, packaging.
