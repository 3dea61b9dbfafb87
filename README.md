# Fixed-block pool allocator (custom_malloc.c), modelled in Dafny

`custom_malloc.c` is a fixed-capacity allocator with two size classes.
The small pool has 2000 blocks and serves requests of at most 15 bytes.
The large pool has 500 blocks and serves requests of 16 to 180 bytes.
Each pool has a backing array, a bump index (`idx15` / `idx180`) counting the blocks carved out since the last reset, and a LIFO free list (`head15` / `head180`) of released blocks.
`my_malloc` picks the pool by size, pops the free-list head, otherwise carves out the next block, otherwise returns NULL.
`my_free` finds the owning pool by address range and pushes the block onto its free list; NULL and foreign addresses are ignored.
`my_allocator_init` resets both pools.

The project has three modules:

- `PoolSpec` (pool_spec.dfy): one pool as a value `PoolState(hwm, free)`, where `hwm` is the bump index and `free` is the free list with its head first. `Acquire` and `Release` are the pool's steps. `Consistent(s, cap, live)` is the invariant that holds under correct usage, where `live` is the set of slots the caller holds. The lemmas prove that invariant is preserved, that results are fresh, that reuse is LIFO, and that exhaustion happens exactly when every block is live.
- `AllocatorSpec` (allocator_spec.dfy): the two pools as a value `Heap(small, large)`, with `Malloc`, `Free` and `InitialHeap`. An address is a handle `Ptr(region, slot)` or `Null`; memory outside both pools is region `Elsewhere`. The C range test `start <= addr < end` becomes "the region is a pool and the slot is below that pool's capacity" (`InRange`). The lemmas cover routing by size, the no-op cases of free, LIFO reuse, distinct results, exhaustion and recovery, the state after init, and the scenario of the functional test in main.c.
- `CustomMalloc` (custom_malloc.dfy): the mutable form. `BlockPool` is a class whose `hwm` and `free` fields its methods update in place. `Allocator` owns two `BlockPool` objects and a ghost set `live` of the pointers the caller holds. Each method is proved to make exactly the step that `AllocatorSpec` defines, and to keep `HeapConsistent(State(), live)`.

`my_free` does not absorb a double free silently, as a reader of its interface might expect: it pushes the block a second time and corrupts the free list. The model follows the code and excludes double frees with a precondition (`AllocatorSpec.CanFree`) instead of claiming any behaviour for them.

## Model

| member | source | states |
|---|---|---|
| `PoolSpec.Acquire` | custom_malloc.c:45-54 | If the free list is non-empty, it returns the head and removes it. Otherwise, if the index is below capacity, it returns block `hwm` and increments the index. Otherwise it fails and leaves the state unchanged. It fails exactly when the free list is empty and the index has reached capacity. It never moves the index or a free-list entry outside the array. |
| `PoolSpec.Release` | custom_malloc.c:85-87 | The released block becomes the new free-list head, in front of the old list, and the index is unchanged. Its partner is `PoolSpec.ReleaseThenAcquire`: the next acquisition pops exactly that block back. |
| `PoolSpec.AcquireFresh` | custom_malloc.c:46-53 | Under correct usage, an acquired block lies inside the array and is not live. The pool stays consistent with that block added to the live set. |
| `PoolSpec.ReleaseThenAcquire` | custom_malloc.c:84-88 | Releasing a live block keeps the pool consistent with that block no longer live. The next acquisition returns exactly that block and restores the earlier state (LIFO). |
| `PoolSpec.LiveCount` | custom_malloc.c:22-26 | Under correct usage, every carved-out block is either live or on the free list, never both, so live count plus free-list length equals the bump index. |
| `PoolSpec.AcquireSucceedsIff` | custom_malloc.c:51-54 | Under correct usage, acquisition succeeds if and only if fewer than `cap` blocks are live. |
| `PoolSpec.EmptyConsistent` | custom_malloc.c:31-36 | A reset pool is consistent with nothing live. Its first acquisition returns block 0 and sets the index to 1, or fails if the capacity is 0. |
| `AllocatorSpec.Malloc` | custom_malloc.c:44-68 | A size above 180 returns NULL and changes nothing. A size of 15 or less, including 0, changes only the small pool. A size from 16 to 180 changes only the large pool. A NULL result leaves the state unchanged. A non-NULL result belongs to the requested class. The result is non-NULL if and only if that pool's free list is non-empty or its index is below capacity. A non-empty free list yields its head. The chosen pool ends in exactly the state one pool acquisition gives: head removed with the index kept, or the index bumped by one. Returned blocks lie inside their pool. |
| `AllocatorSpec.Free` | custom_malloc.c:75-100 | NULL and any address outside both pools leave the state unchanged. An address inside a pool becomes that pool's free-list head. That pool's index and the other pool are unchanged. |
| `AllocatorSpec.MallocSucceedsIff` | custom_malloc.c:51-54 | Under correct usage, an allocation of a supported size returns non-NULL if and only if fewer blocks of its class are live than the pool holds (2000 or 500); the same holds for the large pool at lines 62-65. |
| `AllocatorSpec.MallocFresh` | custom_malloc.c:47-63 | Under correct usage, every non-NULL result lies inside its pool and differs from every live pointer. The allocator stays consistent with that result added to the live set. |
| `AllocatorSpec.FreeConsistent` | custom_malloc.c:84-98 | Under correct usage, freeing keeps the allocator consistent, with the freed pointer no longer live. |
| `AllocatorSpec.FreeThenMalloc` | main.c:40-44 | Freeing a live pointer and then allocating a size of the same class returns exactly that pointer and restores the state from before the free. |
| `AllocatorSpec.ExhaustedRecovers` | custom_malloc.c:51-65 | Suppose an allocation of a supported size returns NULL under correct usage. Then the caller holds a block of that class, and freeing it makes the next allocation of that class return it. |
| `AllocatorSpec.MallocTwiceDistinct` | main.c:29-32 | Under correct usage, two allocations with no free between them never return the same non-NULL pointer. |
| `AllocatorSpec.InitialHeapFirstBlocks` | custom_malloc.c:31-36 | The initial state is consistent with nothing live. The first allocation of each class returns block 0 of its pool (`&pool15[0]`, `&pool180[0]`). |
| `AllocatorSpec.Carve` | custom_malloc.c:52 | The `k` blocks that `&pool[idx++]` hands out from index `m` onwards: exactly `k` pointers, the `i`-th being slot `m + i` of the pool, in address order. |
| `AllocatorSpec.BumpRun` | custom_malloc.c:51-53 | With an empty free list and index `m`, `k` allocations of one class return exactly `Carve(c, m, k)`, the next `k` blocks in address order. The index advances to `m + k`, the free list stays empty, and the other pool is unchanged. |
| `AllocatorSpec.FullPoolFails` | custom_malloc.c:51-54 | When the chosen pool's free list is empty and its index is not below the capacity, the allocation returns NULL and changes nothing (line 65 for the large pool). |
| `AllocatorSpec.ExhaustFromInit` | custom_malloc.c:4-5 | From the initial state, the first N allocations of a class return `Carve(c, 0, N)`, that is blocks 0..N-1 in order, with N = 2000 for the small class and 500 for the large one. The next allocation returns NULL and changes nothing. |
| `AllocatorSpec.FunctionalScenario` | main.c:15-58 | The functional test's run: results `a`, `b` and `c` are non-NULL and pairwise distinct. After `free(a)`, the next 15-byte allocation is `a`. `my_malloc(878)` is NULL. The final frees push every block back. |
| `CustomMalloc.BlockPool.constructor` | custom_malloc.c:19-26 | A new pool has the given capacity, an index of 0 and an empty free list. |
| `CustomMalloc.BlockPool.Reset` | custom_malloc.c:32-35 | The pool's index becomes 0 and its free list becomes empty, whatever the earlier state. |
| `CustomMalloc.BlockPool.Acquire` | custom_malloc.c:46-54 | Updates the fields in place and returns exactly what `PoolSpec.Acquire` gives for the old state. |
| `CustomMalloc.BlockPool.Release` | custom_malloc.c:85-87 | Updates the fields in place to exactly what `PoolSpec.Release` gives for the old state: the slot becomes the new head. |
| `CustomMalloc.Allocator.constructor` | custom_malloc.c:19-26 | Two distinct, new pools of capacity 2000 and 500, both empty, with nothing live. |
| `CustomMalloc.Allocator.Init` | custom_malloc.c:31-36 | Needs only that the two pools are distinct objects with the right capacities; whatever their indices, free lists and live set were, both pools become empty, nothing is live and the allocator is consistent again. So init is idempotent and ends any exhaustion. |
| `CustomMalloc.Allocator.Malloc` | custom_malloc.c:44-68 | Returns the pointer and makes the state change given by `AllocatorSpec.Malloc`. A non-NULL result joins `live`. Consistency is kept. |
| `CustomMalloc.Allocator.Free` | custom_malloc.c:75-100 | For a pointer that is NULL, foreign, or live, makes the state change given by `AllocatorSpec.Free`. The pointer leaves `live`. Consistency is kept. |

## Left out

- Payload bytes, the `union` overlay of the `next` link with the data, and the `long` alignment member are not modelled. The free list is a separate sequence of slot indices, not links stored inside the blocks.
- Raw addresses and `uintptr_t` comparisons are replaced by handles (pool, slot). An address inside a pool that is not the start of a block cannot be expressed. The C range test would accept such an address and corrupt the pool.
- CustomMalloc.Allocator.Free: requires that an in-range pointer is live, so a double free and a free of an in-range block never handed out are excluded; the source does not check either. What `AllocatorSpec.Free` computes on those inputs is not what C does. A double free of the current head makes C set `block->next = block`, a one-block cycle that hands out that block on every later allocation, while the model's list holds the block twice and hands it out twice before moving on. Freeing a block above the bump index leaves C's chain well formed, but the block is later handed out twice, once popped from the list and once carved by the index; the model does the same. The correct-usage lemmas say nothing about either case.
- The file-scope globals (`pool15`, `head15`, `idx15`, …) become the fields of one `Allocator` object. The process-wide singleton itself is not modelled.
- `size_t` is modelled as `nat`. The source does no arithmetic on the size, so no wrap-around is involved.
- The benchmark in main.c (timing with `clock`, the system `malloc`/`free`, floating point, `printf`) is outside the allocator. Only the functional test's checks are modelled, by `AllocatorSpec.FunctionalScenario`. Writing strings into the blocks with `strcpy` is not modelled because payloads are not modelled.
- Concurrency: the allocator is single-threaded and has no locking.
