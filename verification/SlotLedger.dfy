/** Slot ownership: every slot of the pool is on the free list, in the allocation of one live row,
    or in one node of the prefix tree. */
module SlotLedger {
  import opened Sorting
  import opened PageTree
  import opened Paging
  import opened Eviction
  import opened KvPool
  import opened RadixCache

  /** Nothing lost, nothing twice: free slots, allocations and cached pages are all the slots. */
  ghost predicate Conserved(free: seq<int>, alloc: map<int, seq<int>>, pages: map<Path, Page>, numSlots: nat) {
    1 <= numSlots && Stock(free, alloc) + Owned(pages) == multiset(Range(1, numSlots))
  }

  /** The same up to a surplus: slots that have been given away once too often. */
  ghost predicate Shared(free: seq<int>, alloc: map<int, seq<int>>, pages: map<Path, Page>, numSlots: nat,
                         surplus: multiset<int>) {
    1 <= numSlots && Stock(free, alloc) + Owned(pages) == multiset(Range(1, numSlots)) + surplus
  }

  /** Slots are conserved exactly as long as there is no surplus. */
  lemma ConservedWithout(free: seq<int>, alloc: map<int, seq<int>>, pages: map<Path, Page>, numSlots: nat,
                         surplus: multiset<int>)
    requires Shared(free, alloc, pages, numSlots, surplus)
    ensures Conserved(free, alloc, pages, numSlots) <==> surplus == multiset{}
  {
    var all := multiset(Range(1, numSlots));
    if all + surplus == all {
      forall s ensures surplus[s] == 0 {
        assert (all + surplus)[s] == all[s] + surplus[s];
      }
    }
  }

  lemma RemovedLast(was: map<Path, Page>, c: map<Path, Page>, from: seq<Path>, taken: seq<Page>)
    requires Removed(was, c, from, taken) && from != []
    ensures var n := |from| - 1;
            && from[n] in was && was[from[n]] == taken[n] && Removed(was - {from[n]}, c, from[..n], taken[..n])
  {
    var n := |from| - 1;
    forall v | v in was - {from[n]} && v !in c ensures v in from[..n] {
      assert v in from;
    }
  }

  lemma RemovedNothing(was: map<Path, Page>, c: map<Path, Page>, taken: seq<Page>)
    requires Removed(was, c, [], taken)
    ensures was == c && taken == []
  {
    assert forall u :: u in was ==> u in c;
  }

  lemma RemovedLength(was: map<Path, Page>, c: map<Path, Page>, from: seq<Path>, taken: seq<Page>)
    requires Removed(was, c, from, taken)
    ensures |from| == |taken|
  {}

  /** What eviction returns is what left the tree. */
  lemma {:induction false} OwnedRemoved(was: map<Path, Page>, c: map<Path, Page>, from: seq<Path>, taken: seq<Page>)
    requires Removed(was, c, from, taken)
    ensures Owned(was) == Owned(c) + multiset(Flat(taken))
    decreases |from|
  {
    hide Removed, Owned;
    RemovedLength(was, c, from, taken);
    if from == [] {
      RemovedNothing(was, c, taken);
    } else {
      var n := |from| - 1;
      RemovedLast(was, c, from, taken);
      OwnedLess(was, from[n]);
      OwnedRemoved(was - {from[n]}, c, from[..n], taken[..n]);
      assert taken == taken[..n] + [taken[n]];
      FlatConcat(taken[..n], [taken[n]]);
      assert Flat([taken[n]]) == taken[n];
    }
  }

  /** What an insertion adds to the tree are the slots past the part that was cached. */
  lemma OwnedInserted(was: map<Path, Page>, c: map<Path, Page>, u: Path, slots: seq<Page>, k: nat)
    requires Inserted(was, c, u, slots, k)
    ensures Owned(c) == Owned(was) + multiset(Flat(slots[k..]))
  {
    StretchRemoved(was, u, k, slots[k..]);
    OwnedRemoved(c, was, Rungs(u, k), slots[k..]);
  }

  lemma {:induction false} RangeOnce(lo: int, hi: int, x: int)
    requires lo <= hi
    ensures multiset(Range(lo, hi))[x] == if lo <= x < hi then 1 else 0
    decreases hi - lo
  {
    if lo < hi {
      RangeOnce(lo + 1, hi, x);
      var rest := Range(lo + 1, hi);
      assert Range(lo, hi) == [lo] + rest;
      hide Range;
      assert multiset([lo] + rest) == multiset{lo} + multiset(rest);
    }
  }

  /** A slot in a row's allocation is nowhere else: not free, not in another row, not in the tree,
      and not at another position of the row. */
  lemma SlotsExclusive(free: seq<int>, alloc: map<int, seq<int>>, pages: map<Path, Page>, numSlots: nat, row: int,
                       i: nat)
    requires Conserved(free, alloc, pages, numSlots) && row in alloc && i < |alloc[row]|
    ensures 1 <= alloc[row][i] < numSlots && alloc[row][i] !in free
    ensures forall r :: r in alloc && r != row ==> alloc[row][i] !in alloc[r]
    ensures forall u :: u in pages ==> alloc[row][i] !in pages[u]
    ensures forall k :: 0 <= k < |alloc[row]| && k != i ==> alloc[row][k] != alloc[row][i]
  {
    var s, own := alloc[row][i], alloc[row];
    RangeOnce(1, numSlots, s);
    OwnedLess(alloc, row);
    assert s in multiset(own);
    var rest := multiset(free) + Owned(alloc - {row}) + Owned(pages);
    assert Stock(free, alloc) + Owned(pages) == rest + multiset(own);
    assert multiset(own)[s] == 1 && rest[s] == 0;
    assert s !in multiset(free);
    forall r | r in alloc && r != row ensures s !in alloc[r] {
      OwnedLess(alloc - {row}, r);
      assert s !in multiset(alloc[r]);
    }
    forall u | u in pages ensures s !in pages[u] {
      OwnedLess(pages, u);
      assert s !in multiset(pages[u]);
    }
    forall k | 0 <= k < |own| && k != i ensures own[k] != s {
      OnceOnly(own, i, k);
    }
  }

  lemma OnceOnly(s: seq<int>, i: nat, k: nat)
    requires i < |s| && k < |s| && i != k && multiset(s)[s[i]] == 1
    ensures s[k] != s[i]
  {
    var a, b := if i < k then i else k, if i < k then k else i;
    assert s == s[..a] + [s[a]] + s[a + 1..b] + [s[b]] + s[b + 1..];
    assert s[k] == s[i] ==> multiset(s)[s[i]] >= 2;
  }

  /** Every slot but the padding slot 0 has an owner. */
  lemma SlotOwned(free: seq<int>, alloc: map<int, seq<int>>, pages: map<Path, Page>, numSlots: nat, s: int)
    requires Conserved(free, alloc, pages, numSlots) && 1 <= s < numSlots
    ensures s in free || (exists r :: r in alloc && s in alloc[r]) || (exists u :: u in pages && s in pages[u])
  {
    RangeOnce(1, numSlots, s);
    assert s in multiset(free) || s in Owned(alloc) || s in Owned(pages);
    if s in Owned(alloc) {
      var r := OwnerOf(alloc, s);
    } else if s in Owned(pages) {
      var u := OwnerOf(pages, s);
    }
  }

  lemma {:induction false} OwnerOf<K>(m: map<K, seq<int>>, s: int) returns (k: K)
    requires s in Owned(m)
    ensures k in m && s in m[k]
    decreases |m|
  {
    var j :| j in m && Owned(m) == multiset(m[j]) + Owned(m - {j});
    if s in m[j] {
      k := j;
    } else {
      assert s !in multiset(m[j]);
      k := OwnerOf(m - {j}, s);
    }
  }

  /** With one-slot pages, the number of cached prefixes is the number of slots the tree owns. */
  lemma {:induction false} OwnedSize<K>(m: map<K, seq<int>>, n: nat)
    requires forall k :: k in m ==> |m[k]| == n
    ensures |Owned(m)| == Tokens(|m|, n)
    decreases |m|
  {
    if m.Keys != {} {
      var j :| j in m && Owned(m) == multiset(m[j]) + Owned(m - {j});
      OwnedSize(m - {j}, n);
      assert m.Keys == (m - {j}).Keys + {j};
    }
  }
}
