# Buffer pools: a verified model

This project models the two buffer pools of `par-buffer-pool` and two of the programs built on
them, and proves what their users rely on. All statements are for every input, every number of
shards, threads and calls, and every interleaving, unless a row says otherwise.

**The shared pool** (`src/buffer.rs`). `PoolSteps` is a step system in which one step is one
lock section or one atomic operation: any number of calls are in flight, a return claims under the
cap before it pushes, a take pops before it adjusts the counter, a drain sweeps pile by pile and
subtracts once, a refused claim is rolled back later. Every sequence of actions is a run, because an action
that is not enabled leaves the state alone. Each remaining `Pool*` module adds one property of
all runs. `PoolMemory` puts contents on top of the buffer tokens and `PoolLocks` splits each visit
to a pile into acquire, visit and release; forgetting contents or locks gives a run of the step system
back by construction. `BufferPools` has the same pool as a class with the
methods of the source; `PoolModel` is a plain model of stacks. The class is proved against that
model, and `PoolSolo` proves that the step system, run one call at a time, computes it too, results
included.

**The thread-local pool** (`src/local.rs`). `Registries` has the registry as classes, with
growth, gap filling, repair and the lazy sweep, proved against a plain map. `LocalSteps` is the step system
over many pools and threads: a pool dies in two steps (flag, then epoch), a thread sweeps slot by slot
on its own next access, and epoch and flag loads may be stale as far as acquire and release allow.
`LocalRefinement` proves that callers cannot tell this from a map in which a dropped pool's
buffers vanish at once, `LocalCalls` what each call comes to from its start to its end, and `LocalDeath`
how a dropped pool is announced and its buffers destroyed.

**Clients.** `PoolReduce` is the drain-based reduction, `SizeClasses` the size-class scratch,
`PoolFresh` and `PoolLateHook` the reset-hook contract that `examples/non_static_init.rs` uses.

Where a promise does not hold of the code as it stands, the code is kept, a lemma gives the run,
and another says exactly when the promise holds or what holds in its place:

- `PoolStats::reuses` (src/buffer.rs:47-52, documented at 22-25 as leases served from recycled
  buffers): `stats` loads the leases first and the allocations later (src/buffer.rs:592-597), and a
  prefilled buffer is an allocation without a lease. The difference is that number if and only if the
  leases undecided at the first load cancel the prefilled buffers and the allocations between the
  loads, and it goes below zero if and only if these outweigh it (`PoolLeases.StatsIff`). With both
  loads at one moment at rest that is: exact if and only if nothing was prefilled, below zero if and only
  if fewer leases were recycled than buffers prefilled (`PoolLeases.ReusesIff`). Runs that go below zero,
  with a prefill and without: `PoolLeases.PrefillWrapsReuses`, `PoolLeases.LateLoadWrapsReuses`.
- `allocations` as a bound on the leases out (src/buffer.rs:36-41). At rest it holds if and only if the
  buffers put from outside are matched by buffers not on lease (`PoolLeases.BoundedAtRestIff`); and it
  holds in every continuation without further such puts if and only if no more buffers exist than were
  allocated (`PoolLeaseBound.BoundHoldsIff`). One buffer put from outside breaks it, and destroying that
  buffer after a detach restores it (`PoolLeaseBound.ForeignPutsLeaseToo`, `PoolLeaseBound.DiscardRestoresBound`).
- A return can be refused by an empty pool, because a concurrent take is still on the counter
  (`PoolCapLimits.RefusedBelowTheCap`); exactly when is `PoolCounter.RefusedIff`. A cap is kept by every
  run if and only if what was parked when it was installed fits under it (`PoolCounter.CapHoldsIff`),
  which a larger prefill before it breaks (`PoolCapLimits.PrefillBeforeCap`).
- "The buffer count converges to the sum of per-shard peaks" (src/buffer.rs:335-336; src/lib.rs:45-47
  speaks of the peak number of leases out). The exact law counts per shard not the leases out but the
  net flow, attempts to pop it less buffers pushed into it: in every run without drains and further prefills,
  capped or not, allocations are the sum of the peaks of those flows plus what is left of the prefill less
  the leases still deciding (`PoolFlows.AllocationsAreFlows`), which with none deciding is the larger of
  prefill and peaks (`PoolFlows.ExactAllocations`). The documented sum holds in every run of an uncapped pool
  that drops guards along a route from shard to shard if and only if that route brings every guard home
  (`PoolRouting.RoutingIff`). In a pipeline, where no guard comes home, it is the number of leases
  (`PoolMigration.PipelinesAllocateEveryLease`), even with one lease out at a time.
- `idle_len` and a concurrent `drain` report the idle count of their start plus what was parked ahead of
  the sweep less what was taken ahead of it, so that count if and only if the two are equal
  (`PoolSweep.SweepExact`, `PoolSweep.SweepExactIff`). One buffer can be counted once per shard
  (`PoolCountLimits.OneBufferCountedPerShard`).
- A reset hook makes every lease start "from a known state" (src/buffer.rs:258-259) if and only if
  what was parked when it was installed was already in that state (`PoolLateHook.InvisibleIff`); a run in
  which it was not is `PoolLateHook.LateHookShows`.
- `ClassScratch::get` (examples/size_buckets.rs:72-79) finds a pool if and only if at least nine
  elements are asked for and at most the largest class, although 16 would hold fewer
  (`SizeClasses.IndexableIff`).
- `allocations` as "buffers created" (src/buffer.rs:36-37) counts an initializer that unwinds. At rest it is
  the buffers made, apart from those put from outside, if and only if none has
  (`PoolLeases.AllocationsAreMadeIff`); a run in which one has is `PoolLeases.UnwoundInitializerCounts`.

## Model

| member | source | states |
|---|---|---|
| PoolCounter.CounterAccounting | src/buffer.rs:543-681 | in every reachable state of a capped pool the counter is the parked buffers plus claims granted but not pushed, refused claims not rolled back, pops not yet unparked and the buffers of unfinished drains; so every pending `fetch_sub` is covered and none goes below zero, whatever panicked |
| PoolCounter.CounterExactAtRest | src/buffer.rs:642-650 | when the pool's own code is at rest, guards out or not, the counter is the idle count |
| PoolCounter.CapSafety | src/buffer.rs:247-256 | from the installation of the cap on, parked buffers plus granted slots never exceed the larger of the cap and what was parked at that moment, however parks, takes and drains interleave |
| PoolCounter.CapHoldsIff | src/buffer.rs:247-256 | a cap installed over a quiet pool is kept by every run if and only if what was parked at that moment fits under it |
| PoolCounter.CapSticks | src/buffer.rs:642-650 | a pool whose parked buffers have come within its cap never exceeds it again, slots under way included |
| PoolCounter.RefusedIff | src/buffer.rs:642-650 | a return is refused if and only if parked buffers plus the counter contributions of calls in flight reach the cap, and granted otherwise |
| PoolCounter.ReturnsAccounted | src/buffer.rs:642-681 | in every reachable state each buffer handed back was granted a slot, refused, lost to its hook, or is still on the way to the cap, and what is destroyed is exactly what was refused, lost, or discarded by its owner |
| PoolCounter.HookPanicLosesBuffer | src/buffer.rs:655-667 | a reset hook that unwinds loses its buffer and touches no pile and not the counter, which stays exact |
| PoolCounter.CapExactWithoutTakes | src/buffer.rs:655-667 | any interleaving of returns without takes parks exactly as many buffers as there was room for and destroys the others, as the test of the global cap expects |
| PoolCapLimits.RefusedBelowTheCap | src/buffer.rs:642-650 | for every shard count, a run with one take under way in which a return is refused and the pool ends empty below its cap |
| PoolCapLimits.PrefillBeforeCap | src/buffer.rs:247-256 | a pool prefilled with any number of buffers and capped afterwards at any limit starts with all of them parked |
| PoolConservation.Conservation | src/buffer.rs:360-681 | in every reachable state each buffer ever made is in exactly one pile, call, guard, hand of the user, or destroyed, and occurs there once |
| PoolConservation.Exclusivity | src/buffer.rs:360-381 | no buffer is in two places or twice in one: two leases never share one, and a parked, drained or destroyed buffer is behind no guard |
| PoolConservation.GuardIsAlone | src/buffer.rs:360-381 | the buffer behind a guard is nowhere else |
| PoolLeases.LeaseAccounting | src/buffer.rs:25-41 | leases = leases served from piles + (allocations - prefilled) + leases still deciding, and the leases out never exceed allocations plus buffers put from outside, over every run |
| PoolLeases.AllocationsAreBuffers | src/buffer.rs:318-381 | at rest, allocations plus foreign puts less initializer panics are exactly the buffers in piles, calls, hands and destroyed |
| PoolLeases.LeaseEnds | src/buffer.rs:790-825 | in every reachable state each lease ever begun is still open, or its guard was dropped, or its guard was detached, or its initializer unwound, each counted once |
| PoolLeases.EndedStaysEnded | src/buffer.rs:790-825 | a lease that has ended is never open again, so it ends once |
| PoolLeases.StatsIff | src/buffer.rs:592-597 | what `reuses` computes from two loads any run apart, exactly, when that is the number of recycled leases, and when it is negative |
| PoolLeases.ReusesIff | src/buffer.rs:47-52 | at one moment at rest: `leases - allocations` is the number of recycled leases if and only if nothing was prefilled, and is negative if and only if fewer leases were recycled than buffers prefilled |
| PoolLeases.PrefillWrapsReuses | src/buffer.rs:318-326 | one prefill iteration on a new pool already makes the difference negative |
| PoolLeases.LateLoadWrapsReuses | src/buffer.rs:592-597 | without any prefill, one `get` between the two loads makes the difference negative |
| PoolLeases.AllocationsAreMadeIff | src/buffer.rs:36-37 | at rest the allocations count the buffers made, apart from those put from outside, if and only if no initializer has unwound |
| PoolLeases.UnwoundInitializerCounts | src/buffer.rs:360-381 | a first lease whose initializer unwinds leaves one allocation and no buffer |
| PoolLeases.BoundedAtRestIff | src/buffer.rs:36-41 | at rest the allocations bound the leases out if and only if the buffers put from outside are matched by parked, drained, detached or destroyed ones and unwound initializers |
| PoolLeaseBound.BoundHoldsIff | src/buffer.rs:36-41 | from a state at rest on, no continuation without buffers from outside breaks that bound if and only if no more buffers exist than were allocated |
| PoolLeaseBound.LeaseEverything | src/buffer.rs:360-381 | from any state at rest some run without buffers from outside puts every buffer in existence on lease and allocates none |
| PoolLeaseBound.ForeignPutsLeaseToo | src/buffer.rs:451-453 | one buffer put from outside into a new pool breaks the documented bound |
| PoolLeaseBound.DiscardRestoresBound | src/buffer.rs:790-794 | leasing, detaching and destroying that buffer restores the bound for good |
| PoolSweep.SweepExact | src/buffer.rs:543-570 | over every interleaving what `drain` returns and `count_idle` reports is the idle count at its start plus the parks into piles it had still to visit less the takes from such piles |
| PoolSweep.SweepExactIff | src/buffer.rs:688-694 | so it is that idle count if and only if these parks and takes are equally many |
| PoolSweep.SweepBounds | src/buffer.rs:543-570 | in particular it is at least the idle count at its start less the concurrent takes and at most that count plus the concurrent parks |
| PoolSweep.DrainComplete | src/buffer.rs:543-570 | every buffer parked when a drain starts is in its result or was taken by another call meanwhile; everything in the result was parked at the start or meanwhile; nothing is in it twice |
| PoolCountLimits.OneBufferCountedPerShard | src/buffer.rs:688-694 | for every shard count, a run in which a single buffer is ever made and a concurrent count reports one per shard |
| PoolFlows.PilePlusNetIsPeak | src/buffer.rs:605-667 | in every run without drains and further prefills, whatever is capped, detached, put or unwinds and wherever guards are dropped: at every moment a shard's pile plus its net flow, attempts less pushes, is the most that flow has ever been |
| PoolFlows.AllocationsAreFlows | src/buffer.rs:332-381 | at every moment of every such run allocations are the sum over the shards of their peak net flows plus what is left of the prefill less the leases that have missed their shard and not decided |
| PoolFlows.ExactAllocations | src/buffer.rs:332-338 | so when no `get` is between its shard pop and its decision, allocations are exactly the larger of the prefill and the sum of the peak net flows |
| PoolPeaks.PilePlusOutIsPeak | src/buffer.rs:332-338 | uncapped and only leased from, with guards dropped on their leasing shard: a shard's pile plus the leases out of it is the most that were ever out of it at once |
| PoolPeaks.HomeAllocations | src/buffer.rs:332-338 | when no `get` is between its shard pop and its decision, allocations are then the larger of the prefill and the sum of the per-shard peaks of leases out, as documented |
| PoolPeaks.AllocationsFromNew | src/buffer.rs:318-381 | both laws for a new pool after `prefill` |
| PoolRouting.RoutingIff | src/buffer.rs:332-338 | from a new pool after any prefill, every run that leases and drops along a route from shard to shard obeys the documented law if and only if the route brings every guard home |
| PoolMigration.PipelinesAllocateEveryLease | src/buffer.rs:335-337 | whenever guards are only ever dropped, and buffers put, on shards that are not leased from, allocations are the larger of the prefill and the number of leases |
| PoolMigration.MigrationAllocatesEveryTime | src/buffer.rs:335-337 | for any two threads on different shards, k leases on one, one out at a time, each dropped on the other, end with none out and k buffers allocated, or the prefill if larger |
| PoolMemory.LeaseOwnsContents | src/buffer.rs:360-381 | while a guard is out, no other call and no write by the user to another buffer changes what it holds |
| PoolMemory.WritesTakeEffect | src/buffer.rs:797-811 | what is written through a guard or to an owned buffer is there, and in no other buffer |
| PoolFresh.PoolingIsInvisible | src/buffer.rs:258-285 | once the hook restores what the initializer yields and whatever is parked is in that state, every lease of every interleaving starts as a fresh initializer call would have made it |
| PoolFresh.HookOnEmptyPool | examples/non_static_init.rs:52-74 | installing the hook on a quiet pool with empty piles is such a state |
| PoolLateHook.InvisibleIff | src/buffer.rs:280-285 | from a state at rest with the hook installed, pooling is invisible in every run if and only if no parked buffer differs from what the initializer yields |
| PoolLateHook.LateHookShows | src/buffer.rs:280-285 | for every shard count, a run that puts a buffer before the hook is installed ends at rest with the hook in place and a lease to come that shows it |
| PoolReduce.PartialsHoldTheTotal | examples/drain_reduce.rs:30-35 | over any commutative monoid, at every moment of the map phase, the accumulators, idle or leased or in between, fold to the items added so far |
| PoolReduce.PooledReduction | examples/drain_reduce.rs:37-47 | once the phase is over the drain returns every accumulator ever made, once, and what they hold folds to the items added |
| PoolReduce.ReductionIsSequentialFold | examples/drain_reduce.rs:24-47 | for any data of which each item was added once, in whatever order, that is the sequential fold of the data in its own order |
| PoolReduce.AddsItem | examples/drain_reduce.rs:35-35 | adding through a guard adds to its accumulator and no other, and counts as done |
| PoolReduce.SomeRunAddsAll | examples/drain_reduce.rs:35-35 | for any data there is a run that adds every item once and ends its phase |
| PoolReduce.PartialsAreAllocations | examples/drain_reduce.rs:49-68 | and there are as many of them as the allocation counter says |
| PoolModel.LeaseTakesOrAllocates | src/buffer.rs:360-381 | a lease takes one parked buffer, or else own shard and reserve were both empty and one allocation is counted |
| PoolModel.ReturnThenLease | src/buffer.rs:655-667 | what a thread returns is what it leases next, and the lease undoes the return |
| PoolModel.StockThenLease | src/buffer.rs:318-326 | what a prefill stocked last is what a lease that misses its shard gets |
| PoolModel.LeaseThenReturn | src/buffer.rs:360-381 | returning a recycled buffer to its shard undoes the lease |
| PoolModel.ReturnAllFills | src/buffer.rs:642-667 | a batch of returns under a cap parks exactly its first buffers that fit, in order |
| PoolModel.DrainTakesAll | src/buffer.rs:543-570 | a drain hands over as many buffers as were parked and leaves none |
| PoolModel.DrainInOrder | src/buffer.rs:543-570 | each parked buffer is in the result after those of earlier shards and those parked before it in its own; the reserve comes last |
| PoolSolo.GetAlone | src/buffer.rs:360-381 | run alone, the steps of `get` lease the buffer the stack model leases, leave the pool as the model does, and touch nothing else the users see |
| PoolSolo.DropAlone | src/buffer.rs:655-667 | run alone, a guard's drop is the model's return to the dropping thread's shard: parked there, or destroyed if and only if the pool is at its cap |
| PoolSolo.StockAlone | src/buffer.rs:673-681 | run alone, a prefill iteration is the model's |
| PoolSolo.DrainAlone | src/buffer.rs:543-570 | run alone, a drain returns shards in index order and the reserve last, each in parking order, and leaves all empty |
| PoolSolo.CountAlone | src/buffer.rs:688-694 | run alone, `count_idle` is exact and changes nothing |
| PoolSolo.SequentialRefinement | src/buffer.rs:247-694 | any sequence of leases, drops, detaches, discards, puts of own and of new buffers, prefills, drains, counts, caps and hooks by any threads, one at a time: stacks, guards, drained vectors, counts, detached and destroyed buffers are those of a model without counter, claims or steps |
| PoolLocks.LockDiscipline | src/buffer.rs:611-694 | in every run of calls that acquire, visit and release in statement order, a lock is taken exactly by the call in its section, no two calls are in one section, no call holds two locks, each visits only the pile it has locked, and no initializer, reset hook or lease runs under a lock |
| PoolLocks.SomeoneCanStep | src/buffer.rs:611-694 | as long as anything is unfinished, some call or lock holder can step: no deadlock |
| PoolLocks.BoundedCompletion | src/buffer.rs:543-694 | under every schedule the pool's own steps are bounded by a measure of the work left, and none can step if and only if all calls have finished and all locks are open |
| ShardIndex.NextPowerOfTwoIsLeast | src/buffer.rs:115-118 | rounding up gives the least power of two that is at least n, and stays below 2n |
| ShardIndex.ShardCountFits | src/buffer.rs:115-118 | the shard count is the least power of two that is at least 128 and at least the parallelism, 128 if that is unknown |
| ShardIndex.MaskSelectsShard | src/buffer.rs:605-607 | for every thread id the mask selects an existing shard, the id modulo the shard count |
| ShardIndex.ConsecutiveIdsCover | src/buffer.rs:120-145 | any N consecutive ids meet each of the N shards exactly once |
| ShardIndex.ThreadIds.Tid | src/buffer.rs:134-145 | an id sticks to its thread, ids are dense and never shared |
| ShardIndex.ThreadIds.NoSharing | src/buffer.rs:102-109 | while there are at most as many threads as shards, no two threads share a shard |
| BufferPools.BufferPool.constructor | src/buffer.rs:210-229 | a new pool is empty and uncapped, with the shard count of the machine and its mask |
| BufferPools.BufferPool.WithMaxIdle | src/buffer.rs:247-256 | installs the cap over an exact recount, or refuses a shared pool; only `usize::MAX` removes the counter |
| BufferPools.BufferPool.WithReset | src/buffer.rs:280-285 | installs the hook and leaves what is parked as it is, or refuses a shared pool |
| BufferPools.BufferPool.Prefill | src/buffer.rs:318-326 | the loop counts n allocations, is n iterations of the model's stocking step, and adds only what the hook makes of the initializer's value |
| BufferPools.PrefillKeeps | src/buffer.rs:318-326 | a prefill counts n allocations and keeps as many reset buffers as fit, on top of what the reserve held |
| BufferPools.BufferPool.Clone | src/buffer.rs:697-704 | another handle to the same contents, after which the builder methods refuse |
| BufferPools.BufferPool.Get | src/buffer.rs:360-381 | leases what the model leases, own shard then reserve then initializer, and keeps the counter exact |
| BufferPools.BufferPool.GetOwned | src/buffer.rs:409-418 | the same lease; the emptied borrowing guard returns nothing |
| BufferPools.BufferPool.Put | src/buffer.rs:451-453 | the model's return to the caller's shard: below the cap, what the hook makes of the buffer lies on top, or the buffer itself without a hook |
| BufferPools.BufferPool.Drain | src/buffer.rs:543-570 | returns everything parked in order and empties the pool, with the counter left exact |
| BufferPools.BufferPool.PopShard | src/buffer.rs:611-617 | pops the last buffer parked in the caller's shard, if any |
| BufferPools.BufferPool.PopReserve | src/buffer.rs:620-626 | pops the last buffer of the reserve, if any |
| BufferPools.BufferPool.CapAllows | src/buffer.rs:642-650 | allows if and only if the pool is below its cap, and keeps the claim only then |
| BufferPools.BufferPool.Recycle | src/buffer.rs:655-667 | resets first, then parks on top of the caller's shard unless the pool is at its cap |
| BufferPools.BufferPool.StockReserve | src/buffer.rs:673-681 | the same checks and the same hook, parking on top of the reserve |
| BufferPools.BufferPool.CountIdle | src/buffer.rs:688-694 | the loop computes the sum over shards and reserve |
| BufferPools.SharedPooled.IntoInner | src/buffer.rs:790-794 | the guard gives up its buffer and is empty |
| BufferPools.SharedPooled.Drop | src/buffer.rs:815-825 | a full guard returns its buffer once, reset if there is a hook, through the dropping thread's shard; an empty one changes nothing |
| BufferPools.SharedPooledOwned.Drop | src/buffer.rs:905-915 | the same, and the pool's shared state is released |
| BufferPools.ResetThenLease | tests/pool.rs:108-126 | install a hook, put a buffer, lease on the same thread: the lease starts with what the hook made of the buffer |
| SizeClasses.IndexableIff | examples/size_buckets.rs:58-79 | a lease of n elements finds its pool if and only if 9 <= n <= next power of two of the maximum |
| SizeClasses.ClassIsTight | examples/size_buckets.rs:72-73 | n <= 2^class < 2n |
| SizeClasses.CapacityOnlyGrows | examples/size_buckets.rs:43-50 | over any concurrent history of leases, `clear` and `resize`, and element writes, no capacity falls |
| SizeClasses.CapacityCoversHighWater | examples/size_buckets.rs:43-50 | and every vector has at least its reserved capacity and the largest size it has ever served |
| SizeClasses.OnlyGrowthAllocates | examples/size_buckets.rs:43-50 | so a lease of n elements reallocates if and only if n exceeds the vector's capacity, and never for a size up to the largest it has served |
| SizeClasses.ServedHasLength | examples/size_buckets.rs:45-50 | a lease of n elements hands out a vector of exactly n elements, grown or not, and changes no other |
| SizeClasses.ReservedEnough | examples/size_buckets.rs:60-69 | the pool picked for n was built with room for n and less than 2n |
| SizeClasses.ClassNeverReallocates | examples/size_buckets.rs:58-79 | in the pool that `get` picks for n, reserved as the constructor reserves it, every leased vector takes n without reallocating |
| Registries.SlotForKeepsMap | src/local.rs:135-152 | growth, gap filling and repair change no buffer, end with the pool's own flag, and the `debug_assert` holds |
| Registries.TakeAndParkAreMapUpdates | src/local.rs:302-387 | taking is removal from a plain map and parking is update of it |
| Registries.SweepRemovesTheDead | src/local.rs:113-131 | a sweep removes exactly the buffers of dead pools |
| Registries.Globals.NewPool | src/local.rs:241-253 | the next id, alive and of the given type, and no other pool is affected |
| Registries.Globals.DropPool | src/local.rs:216-223 | clears the pool's flag only, so that its entry, and no other, vanishes from what live pools have in every registry, and raises the epoch |
| Registries.Registry.Refresh | src/local.rs:113-131 | after the epoch check and sweep what live pools have parked is unchanged |
| Registries.Registry.EnsureSlot | src/local.rs:135-152 | the branches of `slot_for`, its assertion included: no lookup changes and the slot has the pool's own flag |
| Registries.Registry.TakeFor | src/local.rs:308-308 | what the thread had parked for the pool leaves the map, has the pool's type, and is returned |
| Registries.Registry.IdleLen | src/local.rs:394-400 | one if the map has a buffer for the pool, otherwise zero |
| Registries.ThreadLocalPool.Get | src/local.rs:302-333 | leases the parked buffer or a fresh one, counts accordingly, and the downcast does not fail |
| Registries.ThreadLocalPool.Put | src/local.rs:369-387 | parks on the calling thread over what was parked there |
| Registries.LocalPooled.Drop | src/local.rs:541-551 | a full guard parks in the slot of the dropping thread; an empty one changes nothing |
| LocalRefinement.LazyIsEager | src/local.rs:113-400 | in every run over any pools and threads, stale loads and mid-sweep states included, what each lease is given and each `idle_len` answers is what a plain map gives in which a dropped pool's buffers vanish everywhere at once, and the slots of live pools always agree with that map |
| LocalCalls.GetEnds | src/local.rs:302-333 | when the access of a waiting `get` ends, its lease is out with exactly what the map had for that thread and pool, nothing is destroyed, and if there was nothing the initializer is to run |
| LocalCalls.GetServes | src/local.rs:302-333 | from any moment, a `get` gets there by its thread's own steps |
| LocalCalls.InitEnds | src/local.rs:323-331 | the initializer's buffer has the pool's type and was nowhere before |
| LocalCalls.ReturnBegins | src/local.rs:541-551 | a guard's drop or a `put` hands over its very buffer, which leaves the lease or the owner |
| LocalCalls.ReturnEnds | src/local.rs:376-387 | when the access of a return ends, the map has exactly that buffer, and what was parked there before, if anything, is destroyed |
| LocalCalls.ReturnParks | src/local.rs:369-387 | whatever else happens, a return that has begun is under way, its buffer neither with a user nor destroyed, until at some moment the thread is at rest with that buffer parked |
| LocalCalls.ReturnServes | src/local.rs:369-387 | from any moment, a drop, a `put` of an owned buffer or of a new one ends with that buffer parked by its thread's own steps |
| LocalCalls.AskEnds | src/local.rs:394-400 | `idle_len` answers one if the map has a buffer for the thread and the pool, zero otherwise, and changes nothing |
| LocalCalls.LeavesForGood | src/local.rs:530-538 | a detach, a hook or initializer that unwinds, and an owner's discard end the lease or take the buffer, and no registry notices |
| LocalCalls.DropThenGet | src/local.rs:584-593 | from any moment of any run, a guard dropped on a thread and its next `get` hands out the very same buffer, none made |
| LocalCalls.SecondLeaseRecycles | src/local.rs:584-593 | from nothing: the first lease makes one buffer, and the second one after its drop hands out the same |
| LocalSafety.NoFaults | src/local.rs:135-152 | no downcast fails and no slot with a buffer is ever repaired, in any run |
| LocalRefinement.SweepSparesTheLiving | src/local.rs:119-127 | whatever a sweep drops was last parked in that slot, on that thread, by the slot's own pool, and that pool is dead |
| LocalDeath.DropAnnounces | src/local.rs:216-223 | a completed drop raises the epoch above everything any thread has seen |
| LocalDeath.FlagFirst | src/local.rs:216-223 | after the first half of a drop the pool is dead, and the second half can follow whatever happens in between |
| LocalDeath.KnownDeadIsGone | src/local.rs:113-131 | a thread that has seen the epoch a pool's drop left behind holds no buffer of it, except ahead of a sweep under way |
| LocalDeath.NextAccessFrees | src/local.rs:113-131 | a thread that begins any call and reads at least that epoch has, whenever it is not sweeping after that and whatever else happens, no buffer of the pool, and what it had held for it is destroyed |
| LocalDeath.DropFreesOnNextAccess | src/local.rs:113-223 | the same from the drop on: a pool is dropped, anything happens, a thread makes any call that reads the current epoch |
| LocalDeath.Reclaims | src/local.rs:596-618 | a pool nobody borrows is dropped while a thread has a buffer of it parked: one call of that thread on any other pool and the buffer is destroyed |
| LocalDeath.DroppedPoolIsReclaimed | src/local.rs:596-618 | from nothing, a run that leases, drops, drops the pool and asks another destroys that buffer |
| LocalDeath.HolderMustSweep | src/local.rs:116-119 | a thread still holding such a buffer sweeps from its first slot in its next call that reads such an epoch |
| LocalConservation.LocalConservation | src/local.rs:302-387 | in every run each buffer ever made is in exactly one slot, access, lease, hand of the user, or dropped |
| LocalConservation.LocalCount | src/local.rs:430-438 | buffers made = parked or being parked + leased + detached + dropped |
| LocalAllocation.AllocationsAreLessees | src/local.rs:302-333 | while a pool lives and its leases take turns on their own threads, the initializer has run exactly once per thread that ever leased |

## Left out

- `with` on both pools: a lease and a drop around a closure, nothing new.
- Weak memory beyond stale epoch and flag loads: other atomics are single steps in one interleaving.
- Mutex poisoning recovery and allocation failure: no user code runs under a pile lock.
- Wrap-around of `NEXT_TID`, `NEXT_ID`, `DROP_EPOCH`, `parked` and the statistics at the machine word: counters are natural numbers (a difference below zero is stated as such).
- Overflow of `next_power_of_two`: for sizes above the largest representable power of two.
- Buffer destructors that re-enter a thread-local pool: documented as unsupported.
- `Arc`, lifetimes, `Send`, `Sync`, `Deref`, `Debug`, `Default`: handles are a count in the class, and in the step systems a guard or a call in flight keeps its pool alive.
- Initializer and hook as stateful code: the class takes them as functions; in the step systems they may leave any value, panic, or re-enter the pool.
- The reset hook of the thread-local pool: it does not touch slots, so only its panic is a step, in a guard's drop and in `put`.
- The counters of the thread-local pool in the step system: the class keeps them; `LocalAllocation` counts initializer runs from what callers see.
- `prefill` in the step system: its iterations are separate calls, which allows more interleavings than the loop.
- Floating-point rounding in the reduction: the monoid is exact.
- How `Vec` grows: any capacity at least as large may result.
- The remaining examples and all benchmarks.
