/** The paged KV pool: a sorted free list of slots and the run of slots each request owns. */
module KvPool {
  import opened Sorting

  datatype Result<T> = Ok(value: T) | AlreadyAllocated | PoolFull

  // ---------------------------------------------------------------- who owns which slots

  /** Every slot that some owner in `m` has, with its multiplicity. */
  ghost function Owned<K>(m: map<K, seq<int>>): multiset<int> {
    if m.Keys == {} then multiset{} else
      var k :| k in m;
      multiset(m[k]) + Owned(m - {k})
  }

  lemma {:induction false} OwnedLess<K>(m: map<K, seq<int>>, k: K)
    requires k in m
    ensures Owned(m) == Owned(m - {k}) + multiset(m[k])
    decreases |m|
  {
    var j :| j in m && Owned(m) == multiset(m[j]) + Owned(m - {j});
    if j != k {
      OwnedLess(m - {j}, k);
      assert m - {j} - {k} == m - {k} - {j};
      OwnedLess(m - {k}, j);
    }
  }

  lemma OwnedMore<K>(m: map<K, seq<int>>, k: K, s: seq<int>)
    requires k !in m
    ensures Owned(m[k := s]) == Owned(m) + multiset(s)
  {
    OwnedLess(m[k := s], k);
    assert m[k := s] - {k} == m;
  }

  /** Everything the pool knows of: free slots, and slots owned by requests. */
  ghost function Stock(free: seq<int>, alloc: map<int, seq<int>>): multiset<int> {
    multiset(free) + Owned(alloc)
  }

  class MHAKVCache {
    const pageSize: nat
    const numPages: nat
    var freeSlots: seq<int>
    var alloc: map<int, seq<int>>

    constructor (pageSize: nat, numPages: nat)
      requires 0 < pageSize * numPages
      ensures this.pageSize == pageSize && this.numPages == numPages && alloc == map[]
      ensures freeSlots == Range(1, pageSize * numPages) && Sorted(freeSlots)
    {
      this.pageSize, this.numPages := pageSize, numPages;
      freeSlots, alloc := Range(1, pageSize * numPages), map[];
    }

    /** Take the `pages` lowest pages of the free list for `reqId`, or change nothing. */
    method Allocate(reqId: int, pages: nat) returns (r: Result<seq<int>>)
      modifies this
      ensures r == AlreadyAllocated <==> reqId in old(alloc)
      ensures r == PoolFull <==> reqId !in old(alloc) && pages * pageSize > |old(freeSlots)|
      ensures r.Ok? ==> |r.value| == pages * pageSize && r.value + freeSlots == old(freeSlots)
                        && alloc == old(alloc)[reqId := r.value]
      ensures !r.Ok? ==> freeSlots == old(freeSlots) && alloc == old(alloc)
      ensures Stock(freeSlots, alloc) == old(Stock(freeSlots, alloc))
      ensures Sorted(old(freeSlots)) ==> Sorted(freeSlots)
    {
      var need := pages * pageSize;
      if reqId in alloc {
        return AlreadyAllocated;
      }
      if need > |freeSlots| {
        return PoolFull;
      }
      var slots := freeSlots[..need];
      OwnedMore(alloc, reqId, slots);
      assert freeSlots == slots + freeSlots[need..];
      freeSlots := freeSlots[need..];
      alloc := alloc[reqId := slots];
      r := Ok(slots);
    }

    /** Give the slots of `reqId` back to the free list. */
    method Free(reqId: int)
      modifies this
      ensures alloc == old(alloc) - {reqId}
      ensures Stock(freeSlots, alloc) == old(Stock(freeSlots, alloc))
      ensures if reqId in old(alloc) then multiset(freeSlots) == multiset(old(freeSlots)) + multiset(old(alloc)[reqId])
              else freeSlots == old(freeSlots)
      ensures Sorted(old(freeSlots)) ==> Sorted(freeSlots)
    {
      if reqId !in alloc {
        assert alloc - {reqId} == alloc;
        return;
      }
      var slots := alloc[reqId];
      OwnedLess(alloc, reqId);
      alloc := alloc - {reqId};
      SortSorts(freeSlots + slots);
      freeSlots := Sort(freeSlots + slots);
    }

    /** Forget who owns the slots of `reqId`; they go to whoever they were handed to. */
    method Detach(reqId: int) returns (slots: seq<int>)
      modifies this`alloc
      ensures alloc == old(alloc) - {reqId}
      ensures slots == if reqId in old(alloc) then old(alloc)[reqId] else []
      ensures Stock(freeSlots, alloc) + multiset(slots) == old(Stock(freeSlots, alloc))
    {
      if reqId !in alloc {
        assert alloc - {reqId} == alloc;
        return [];
      }
      slots := alloc[reqId];
      OwnedLess(alloc, reqId);
      alloc := alloc - {reqId};
    }

    /** Put slots on the free list that no request owns. */
    method FreeSlots(slots: seq<int>)
      modifies this`freeSlots
      ensures Stock(freeSlots, alloc) == old(Stock(freeSlots, alloc)) + multiset(slots)
      ensures Sorted(old(freeSlots)) ==> Sorted(freeSlots)
      ensures |freeSlots| == |old(freeSlots)| + |slots|
    {
      if slots == [] {
        return;
      }
      SortSorts(freeSlots + slots);
      freeSlots := Sort(freeSlots + slots);
      assert |freeSlots| == |multiset(freeSlots)|;
    }
  }
}
