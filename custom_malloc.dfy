/** The allocator of custom_malloc.c as mutable state: each pool is an object
    whose bump index and free list the operations update in place, and the
    allocator owns the two pools. Every operation is proved to perform the
    step that AllocatorSpec defines, so the lemmas there apply to it. */
module CustomMalloc {
  import opened PoolSpec
  import opened AllocatorSpec

  /** One pool: `idx15`/`idx180` is `hwm`, the chain from `head15`/`head180`
      is `free`, head first. The backing array holds only payload bytes,
      which are not modelled. */
  class BlockPool {
    const capacity: nat
    var hwm: nat
    var free: seq<nat>

    function State(): PoolState
      reads this
    {
      PoolState(hwm, free)
    }

    constructor (capacity: nat)
      ensures this.capacity == capacity
      ensures State() == Empty
    {
      this.capacity := capacity;
      hwm := 0;
      free := [];
    }

    /** Forget every block: empty free list, bump index 0. */
    method Reset()
      modifies this
      ensures State() == Empty
    {
      free := [];
      hwm := 0;
    }

    /** Pop the free-list head, else bump the index, else fail. */
    method Acquire() returns (b: Option<nat>)
      modifies this
      ensures (b, State()) == PoolSpec.Acquire(old(State()), capacity)
    {
      if free != [] {
        b := Some(free[0]);
        free := free[1..];
      } else if hwm < capacity {
        b := Some(hwm);
        hwm := hwm + 1;
      } else {
        b := None;
      }
    }

    /** Push `slot` onto the free list: `block->next = head; head = block`. */
    method Release(slot: nat)
      modifies this
      ensures State() == PoolSpec.Release(old(State()), slot)
    {
      free := [slot] + free;
    }
  }

  /** The two pools and the ghost set of pointers the caller currently holds. */
  class Allocator {
    const small: BlockPool
    const large: BlockPool
    ghost var live: set<Pointer>

    /** The pools are two distinct objects with the capacities of
        POOL_SIZE_15 and POOL_SIZE_180. */
    predicate Wired()
      reads this, small, large
    {
      && small != large
      && small.capacity == SmallCapacity
      && large.capacity == LargeCapacity
    }

    ghost predicate Valid()
      reads this, small, large
    {
      Wired() && HeapConsistent(State(), live)
    }

    function State(): Heap
      reads small, large
    {
      Heap(small.State(), large.State())
    }

    constructor ()
      ensures Valid() && fresh(small) && fresh(large)
      ensures State() == InitialHeap && live == {}
    {
      small := new BlockPool(SmallCapacity);
      large := new BlockPool(LargeCapacity);
      live := {};
      new;
      InitialHeapFirstBlocks(0);
    }

    /** `my_allocator_init`: both pools back to empty, whatever came before;
        every outstanding pointer is abandoned. */
    method Init()
      requires Wired()
      modifies this, small, large
      ensures Valid()
      ensures State() == InitialHeap && live == {}
    {
      small.Reset();
      large.Reset();
      live := {};
      InitialHeapFirstBlocks(0);
    }

    /** `my_malloc(size)`. */
    method Malloc(size: nat) returns (p: Pointer)
      requires Valid()
      modifies this, small, large
      ensures Valid()
      ensures (p, State()) == AllocatorSpec.Malloc(old(State()), size)
      ensures live == if p == Null then old(live) else old(live) + {p}
    {
      MallocFresh(State(), live, size);
      if size <= SmallBlockSize {
        var b := small.Acquire();
        p := Handle(SmallPool, b);
      } else if size <= LargeBlockSize {
        var b := large.Acquire();
        p := Handle(LargePool, b);
      } else {
        p := Null;
      }
      if p != Null {
        live := live + {p};
      }
    }

    /** `my_free(p)`, for a caller that frees only what it holds. */
    method Free(p: Pointer)
      requires Valid()
      requires CanFree(live, p)
      modifies this, small, large
      ensures Valid()
      ensures State() == AllocatorSpec.Free(old(State()), p)
      ensures live == old(live) - {p}
    {
      FreeConsistent(State(), live, p);
      if p == Null {
      } else if p.region == SmallPool && p.slot < SmallCapacity {
        small.Release(p.slot);
      } else if p.region == LargePool && p.slot < LargeCapacity {
        large.Release(p.slot);
      }
      live := live - {p};
    }
  }
}
