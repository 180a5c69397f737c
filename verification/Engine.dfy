/** The engine: admission, abort, the step that commits finished requests, and the generate loop. */
module Engine {
  import opened Arith
  import opened Finite
  import opened Sorting
  import opened Rosters
  import opened PageTree
  import opened Paging
  import opened PathLocks
  import opened Eviction
  import opened KvPool
  import opened RadixNodes
  import opened Recency
  import opened RadixCache
  import opened Requests
  import opened Prefill
  import opened Decode
  import opened PrefillQueue
  import opened Scheduling
  import opened Stepping
  import opened Forward
  import opened Progress
  import opened SlotLedger
  import opened EngineLedger

  // ---------------------------------------------------------------- slots for a row

  /** What eviction may not touch. */
  ghost predicate Protects(t: NodeTree, l: Locks, t': NodeTree) {
    NodesKept(t, t', l) && Keeps(t.pages, l, t'.pages)
  }

  lemma EvictedProtects(t: NodeTree, t': NodeTree, l: Locks, st: Stamps, log: EvictionLog<RadixTreeNode>)
    requires Evicting(t, t', l, st, log)
    ensures Protects(t, l, t') && Owned(t.pages) == Owned(t'.pages) + multiset(Flat(log.taken))
  {
    EvictingKeeps(t, t', l, st, log);
    OwnedRemoved(t.pages, t'.pages, log.from, log.taken);
  }

  lemma ProtectsAll(t: NodeTree, l: Locks)
    ensures Protects(t, l, t)
  {}

  /** The row is given up: its lock, its record and its slots, which are free again if it had any. */
  ghost predicate GivenUp(g: Ledger, g': Ledger, row: int) {
    && row in g.jobs && (row in g.alloc <==> row !in g.refused)
    && g' == Ledger(g.jobs - {row}, g.tree, g.locks - {row}, g.table, g'.free, g.alloc - {row}, g.admitted - {row},
                    g.maxLen, g.numSlots, g.refused - {row}, g.surplus)
    && if row in g.alloc then multiset(g'.free) == multiset(g.free) + multiset(g.alloc[row]) else g'.free == g.free
  }

  /** The request is off the scheduler and its lock is gone; its slots are still on record. */
  ghost function Unqueued(g: Ledger, row: int): Ledger {
    g.(jobs := g.jobs - {row}, locks := g.locks - {row})
  }

  lemma UnqueuedIs(g: Ledger, row: int)
    ensures Unqueued(g, row) == Ledger(g.jobs - {row}, g.tree, g.locks - {row}, g.table, g.free, g.alloc, g.admitted,
                                       g.maxLen, g.numSlots, g.refused, g.surplus)
  {}

  lemma IsGivenUp(g: Ledger, g': Ledger, row: int)
    requires row in g.jobs && (row in g.alloc <==> row !in g.refused)
    requires g' == Ledger(g.jobs - {row}, g.tree, g.locks - {row}, g.table, g'.free, g.alloc - {row},
                          g.admitted - {row}, g.maxLen, g.numSlots, g.refused - {row}, g.surplus)
    requires if row in g.alloc then multiset(g'.free) == multiset(g.free) + multiset(g.alloc[row])
                else g'.free == g.free
    ensures GivenUp(g, g', row)
  {}

  lemma SharedMoves(free: seq<int>, alloc: map<int, seq<int>>, pages: map<Path, Page>,
                    free': seq<int>, alloc': map<int, seq<int>>, pages': map<Path, Page>, numSlots: nat,
                    surplus: multiset<int>)
    requires Shared(free, alloc, pages, numSlots, surplus)
    requires Stock(free', alloc') + Owned(pages') == Stock(free, alloc) + Owned(pages)
    ensures Shared(free', alloc', pages', numSlots, surplus)
  {}

  lemma SizesOf(c: map<Path, Page>, l: Locks, ev: int, pr: int)
    requires Sizes(c, l, 1, ev, pr)
    ensures ev == |Idle(c, l)| && pr == |Pinned(c, l)|
  {
    TokensIs(|Idle(c, l)|, 1);
    TokensIs(|Pinned(c, l)|, 1);
  }

  /** Evict and put the evicted slots on the free list. */
  method Reclaim(cache: RadixPrefixCache, kv: MHAKVCache, size: nat, ghost numSlots: nat, ghost surplus: multiset<int>)
    returns (ghost log: RadixLog)
    requires cache.Valid() && 0 < size <= cache.evictableSize
    requires Shared(kv.freeSlots, kv.alloc, cache.tree.pages, numSlots, surplus)
    modifies kv`freeSlots, cache`tree, cache`evictableSize, cache.tree.paths.Keys`children
    ensures cache.Valid() && Shared(kv.freeSlots, kv.alloc, cache.tree.pages, numSlots, surplus)
    ensures Protects(old(cache.tree), cache.locks, cache.tree) && cache.tree.paths.Keys <= old(cache.tree.paths.Keys)
    ensures |kv.freeSlots| + cache.evictableSize == old(|kv.freeSlots| + cache.evictableSize)
    ensures |kv.freeSlots| >= old(|kv.freeSlots|) + size && 0 <= cache.evictableSize
    ensures Evicting(old(cache.tree), cache.tree, cache.locks, old(cache.NodeStamps()), log)
    ensures JustEnough(log, |Flat(log.taken)|, size, cache.pageSize)
    ensures NoUse(old(cache.LastUses()), cache.LastUses())
  {
    hide *;
    ghost var t, l, st := cache.tree, cache.locks, cache.NodeStamps();
    cache.StampsAre();
    var evicted;
    evicted, log := cache.Evict(size);
    JustEnoughFacts(log, |evicted|, size, cache.pageSize);
    EvictedProtects(t, cache.tree, l, st, log);
    kv.FreeSlots(evicted);
    cache.Facts();
    EvictableNatural(cache.tree.pages, l, cache.pageSize, cache.evictableSize, cache.protectedSize);
    SharedMoves(old(kv.freeSlots), kv.alloc, t.pages, kv.freeSlots, kv.alloc, cache.tree.pages, numSlots, surplus);
  }

  lemma JustEnoughFacts(log: RadixLog, freed: nat, size: nat, ps: nat)
    requires JustEnough(log, freed, size, ps)
    ensures size <= freed
  {}

  lemma EvictableNatural(c: map<Path, Page>, l: Locks, ps: nat, ev: int, pr: int)
    requires Sizes(c, l, ps, ev, pr)
    ensures 0 <= ev && 0 <= pr
  {}

  /** The tree and the stamps once an admission has matched its prompt, and what it evicted then. */
  datatype RoomLog = RoomLog(tree: NodeTree, stamps: Stamps, log: RadixLog)

  /** How `need` slots were come by. If enough were free, nothing was evicted. Otherwise idle leaves went,
      the least recently used first, until as many tokens were free as were needed or could be had, and no
      leaf after that. */
  ghost predicate MadeRoom(t: NodeTree, t': NodeTree, l: Locks, st: Stamps, log: RadixLog, free: nat, need: nat) {
    var n := Min(need, |Idle(t.pages, l)|);
    if need <= free || n == 0 then t' == t
    else Evicting(t, t', l, st, log) && JustEnough(log, |Flat(log.taken)|, n, 1)
  }

  lemma NoRoomMade(t: NodeTree, l: Locks, st: Stamps, log: RadixLog, free: nat, need: nat)
    requires need <= free || Min(need, |Idle(t.pages, l)|) == 0
    ensures MadeRoom(t, t, l, st, log, free, need)
  {}

  lemma RoomMade(t: NodeTree, t': NodeTree, l: Locks, st: Stamps, log: RadixLog, free: nat, need: nat, n: nat)
    requires need > free && n == Min(need, |Idle(t.pages, l)|) > 0
    requires Evicting(t, t', l, st, log) && JustEnough(log, |Flat(log.taken)|, n, 1)
    ensures MadeRoom(t, t', l, st, log, free, need)
  {}

  /** What no lock holds is gone, and nothing else is. */
  ghost predicate OnlyPinned(c: map<Path, Page>, c': map<Path, Page>, l: Locks) {
    forall u :: u in c ==> (u in c' <==> RefCount(l, u) > 0)
  }

  lemma PageEach(c: map<Path, Page>, c': map<Path, Page>, from: seq<Path>, taken: seq<Page>)
    requires Removed(c, c', from, taken) && forall u :: u in c ==> |c[u]| == 1
    ensures |Flat(taken)| == |from| && Distinct(from) && forall u :: u in from ==> u in c && u !in c'
  {
    forall i | 0 <= i < |taken| ensures |taken[i]| == 1 {
      assert taken[i] == c[from[i]];
    }
    FlatLength(taken, 1);
    TokensIs(|taken|, 1);
  }

  /** Taking as many prefixes as are idle, all of them idle, takes all that are. */
  lemma AllIdleGone(c: map<Path, Page>, c': map<Path, Page>, l: Locks, from: seq<Path>, taken: seq<Page>)
    requires Removed(c, c', from, taken) && (forall u :: u in from ==> RefCount(l, u) == 0)
    requires (forall u :: u in c ==> |c[u]| == 1) && |Flat(taken)| >= |Idle(c, l)|
    ensures OnlyPinned(c, c', l)
  {
    PageEach(c, c', from, taken);
    DistinctSize(from);
    var idle, gone := Idle(c, l), set u | u in from;
    assert gone <= idle;
    SubsetSize(gone, idle);
    SubsetAll(gone, idle);
    forall u | u in c ensures u in c' <==> RefCount(l, u) > 0 {
      assert u in idle <==> RefCount(l, u) == 0;
      assert u !in c' ==> u in from;
      assert u in gone <==> u in from;
    }
  }

  lemma NoneIdle(c: map<Path, Page>, l: Locks)
    requires |Idle(c, l)| == 0
    ensures OnlyPinned(c, c, l)
  {
    forall u | u in c ensures RefCount(l, u) > 0 {
      assert u !in Idle(c, l);
    }
  }

  /** Whoever is admitted from the free list leaves the cache alone; whoever is refused has emptied it of
      all that no lock holds. */
  lemma RoomMeans(was: NodeTree, t: NodeTree, t': NodeTree, l: Locks, st: Stamps, log: RadixLog, free: nat, need: nat)
    requires Grown(was, t) && MadeRoom(t, t', l, st, log, free, need)
    requires forall u :: u in was.pages ==> |was.pages[u]| == 1
    ensures need <= free ==> t'.pages == was.pages
    ensures need > free + |Idle(was.pages, l)| ==> OnlyPinned(was.pages, t'.pages, l)
  {
    hide Evicting, OnlyPinned, Removed, Idle, JustEnough;
    MinIs(need, |Idle(t.pages, l)|);
    if need > free + |Idle(was.pages, l)| {
      if |Idle(t.pages, l)| == 0 {
        NoneIdle(t.pages, l);
      } else {
        JustEnoughFacts(log, |Flat(log.taken)|, |Idle(t.pages, l)|, 1);
        EvictingRemoved(t, t', l, st, log);
        AllIdleGone(t.pages, t'.pages, l, log.from, log.taken);
      }
    }
  }

  lemma EvictingRemoved(t: NodeTree, t': NodeTree, l: Locks, st: Stamps, log: RadixLog)
    requires Evicting(t, t', l, st, log)
    ensures Removed(t.pages, t'.pages, log.from, log.taken) && forall u :: u in log.from ==> RefCount(l, u) == 0
  {}

  /** Take `need` slots for the row, evicting once when the free list is short. It works exactly when
      the free slots and the evictable ones together are enough. */
  method TakeSlots(cache: RadixPrefixCache, kv: MHAKVCache, row: int, need: nat, ghost numSlots: nat,
                   ghost surplus: multiset<int>)
    returns (slots: Option<seq<int>>, ghost log: RadixLog)
    requires cache.Valid() && cache.pageSize == 1 && kv.pageSize == 1 && row !in kv.alloc
    requires Shared(kv.freeSlots, kv.alloc, cache.tree.pages, numSlots, surplus)
    modifies kv, cache`tree, cache`evictableSize, cache.tree.paths.Keys`children
    ensures cache.Valid() && Shared(kv.freeSlots, kv.alloc, cache.tree.pages, numSlots, surplus)
    ensures Protects(old(cache.tree), cache.locks, cache.tree) && cache.tree.paths.Keys <= old(cache.tree.paths.Keys)
    ensures slots.Some? <==> need <= old(|kv.freeSlots|) + old(cache.evictableSize)
    ensures if slots.Some? then |slots.value| == need && kv.alloc == old(kv.alloc)[row := slots.value]
               else kv.alloc == old(kv.alloc)
    ensures MadeRoom(old(cache.tree), cache.tree, cache.locks, old(cache.NodeStamps()), log, old(|kv.freeSlots|), need)
    ensures NoUse(old(cache.LastUses()), cache.LastUses())
  {
    hide *;
    cache.Facts();
    ghost var t, st, free0 := cache.tree, cache.NodeStamps(), |kv.freeSlots|;
    log := EmptyLog(t);
    NoUseNone(cache.LastUses());
    SizesOf(t.pages, cache.locks, cache.evictableSize, cache.protectedSize);
    ProtectsAll(cache.tree, cache.locks);
    EvictableNatural(cache.tree.pages, cache.locks, cache.pageSize, cache.evictableSize, cache.protectedSize);
    ghost var was := kv.freeSlots;
    var r := kv.Allocate(row, need);
    SharedMoves(was, old(kv.alloc), cache.tree.pages, kv.freeSlots, kv.alloc, cache.tree.pages, numSlots, surplus);
    if r == PoolFull {
      var toEvict := Min(need, cache.evictableSize);
      MinIs(need, cache.evictableSize);
      if toEvict <= 0 {
        NoRoomMade(t, cache.locks, st, log, free0, need);
        return None, log;
      }
      log := Reclaim(cache, kv, toEvict, numSlots, surplus);
      RoomMade(t, cache.tree, cache.locks, st, log, free0, need, toEvict);
      ghost var free := kv.freeSlots;
      r := kv.Allocate(row, need);
      SharedMoves(free, old(kv.alloc), cache.tree.pages, kv.freeSlots, kv.alloc, cache.tree.pages, numSlots, surplus);
    }
    if need <= free0 {
      NoRoomMade(t, cache.locks, st, log, free0, need);
    }
    slots := if r.Ok? then Some(r.value) else None;
  }

  // ---------------------------------------------------------------- committing a finished row

  lemma OnePages(ids: seq<int>)
    ensures |Pages(ids, 1)| == |ids| && AlignDown(|ids|, 1) == |ids|
  {
    PagesUniform(ids, 1);
    AlignDownIs(|ids|, 1);
    TokensIs(|Pages(ids, 1)|, 1);
  }

  lemma PagesOfPrefix(a: seq<int>, b: seq<int>)
    requires a <= b
    ensures |Pages(b, 1)| == |b| && Pages(a, 1) == Pages(b, 1)[..|a|] && IsPrefix(Pages(a, 1), Pages(b, 1))
  {
    OnePages(a);
    OnePages(b);
    PagesSplit(b, 1, |a|);
    TokensIs(|a|, 1);
    assert b[..|a|] == a;
  }

  /** The finished row's history starts with its prompt and fits the table. */
  ghost predicate CommitReady(g: Ledger, row: int, full: seq<int>) {
    RowOk(g, row) && g.jobs[row].prompt <= full && |full| <= g.maxLen
  }

  /** What the row reused is still cached, so an insertion of its history starts no earlier than that. */
  lemma CommitStart(g: Ledger, row: int, full: seq<int>, c: map<Path, Page>, slots: seq<Page>, k: nat)
    requires CommitReady(g, row, full) && Inserted(g.tree.pages, c, Pages(full, 1), slots, k)
    ensures g.jobs[row].cached <= |g.locks[row]| <= k <= |full|
  {
    var p, u := g.locks[row], Pages(full, 1);
    PagesOfPrefix(g.jobs[row].prompt, full);
    assert IsPrefix(p, u);
    assert u[..|p|] == p;
    assert IsPrefix(p, p) && (p != [] ==> p in g.tree.pages);
  }

  /** What a refused row adds to the surplus when it is committed: the row's entries past what it reused
      go to the tree or to the free list, and nobody gave them to the row. */
  ghost function Excess(g: Ledger, row: int): multiset<int> {
    if row in g.refused && row in g.admitted && 0 <= row < |g.table| && g.admitted[row] <= |g.table[row]|
      then multiset(g.table[row][g.admitted[row]..]) else multiset{}
  }

  lemma ExcessIs(g: Ledger, row: int)
    requires row in g.admitted && 0 <= row < |g.table| && g.admitted[row] <= |g.table[row]|
    ensures Excess(g, row) == if row in g.refused then multiset(g.table[row][g.admitted[row]..]) else multiset{}
  {}

  lemma CommitSlots(full: seq<int>, indices: seq<int>, k: nat)
    requires |full| == |indices| && k <= |full|
    ensures AlignDown(|full|, 1) == |full| && Tokens(k, 1) == k && |NewSlots(full, indices, 1)| == |full|
    ensures Flat(NewSlots(full, indices, 1)[k..]) == indices[k..]
  {
    OnePages(full);
    OnePages(indices);
    InsertArrays(full, indices, 1, k);
    TokensIs(k, 1);
    assert indices[..|full|] == indices && indices[k..|full|] == indices[k..];
  }

  /** The row's own slots: redundant ones, adopted ones, ones that were never written. */
  lemma RowShares(r: seq<int>, a: nat, k: nat, n: nat)
    requires a <= k <= n <= |r|
    ensures multiset(r[a..]) == multiset(r[a..k] + r[n..]) + multiset(r[k..n])
  {
    assert r[a..] == r[a..k] + r[k..n] + r[n..];
  }

  lemma CommitFacts(g: Ledger, row: int, full: seq<int>)
    requires CommitReady(g, row, full)
    ensures row in g.jobs && row in g.locks && row in g.admitted && 0 <= row < |g.table|
    ensures |full| <= |g.table[row]| == g.maxLen && g.admitted[row] == g.jobs[row].cached < g.maxLen
    ensures row in g.alloc <==> row !in g.refused
    ensures row in g.alloc ==> g.alloc[row] == g.table[row][g.admitted[row]..]
    ensures g.jobs[row].handle.node in g.tree.paths && g.tree.paths[g.jobs[row].handle.node] == g.locks[row]
  {
    OnePages(g.jobs[row].prompt);
  }

  /** Unlock the row's prefix and hand its history to the tree; `k` tokens of it were there already. */
  method AdoptRow(cache: RadixPrefixCache, row: int, handle: RadixCacheHandle, full: seq<int>, indices: seq<int>,
                  now: int, ghost g: Ledger)
    returns (k: nat)
    requires cache.Valid() && cache.pageSize == 1 && CommitReady(g, row, full) && |indices| == |full|
    requires row in g.jobs && row in g.locks && g.jobs[row].handle == handle && g.tree == cache.tree
             && g.locks == cache.locks
    modifies cache`tree, cache`evictableSize, cache`protectedSize, cache`locks,
             cache.tree.paths.Keys`key, cache.tree.paths.Keys`value, cache.tree.paths.Keys`parent,
             cache.tree.paths.Keys`children, cache.tree.paths.Keys`timestamp, cache.tree.paths.Keys`refCount
    ensures cache.Valid() && fresh(cache.tree.paths.Keys - old(cache.tree.paths.Keys))
            && cache.locks == old(cache.locks) - {row}
    ensures g.jobs[row].cached <= k <= |full| && AlignDown(|full|, 1) == |full|
    ensures Inserted(g.tree.pages, cache.tree.pages, Pages(full, 1), NewSlots(full, indices, 1), k)
    ensures Owned(cache.tree.pages) == Owned(g.tree.pages) + multiset(indices[k..])
    ensures PathsKept(g.tree, cache.tree) && Keeps(g.tree.pages, g.locks, cache.tree.pages)
    ensures Used(old(cache.LastUses()), cache.LastUses(), Pages(full, 1), now)
  {
    hide *;
    CommitFacts(g, row, full);
    ghost var r := cache.LastUses();
    cache.LockHandle(handle, true, row);
    OnePages(full);
    var h;
    ghost var at, mid;
    k, h, at, mid := cache.InsertPrefix(full, indices, now, now);
    UsedAtOnce(r, cache.LastUses(), Pages(full, 1), at, now);
    ghost var slots := NewSlots(full, indices, 1);
    CommitStart(g, row, full, cache.tree.pages, slots, at);
    CommitSlots(full, indices, at);
    InsertedKeeps(g.tree.pages, cache.tree.pages, Pages(full, 1), slots, at, g.locks);
    OwnedInserted(g.tree.pages, cache.tree.pages, Pages(full, 1), slots, at);
  }

  /** Take the row's slots off the record and free the redundant ones and those never written. */
  method SettleRow(kv: MHAKVCache, row: int, r: seq<int>, a: nat, k: nat, n: nat) returns (own: seq<int>)
    requires a <= k <= n <= |r|
    modifies kv
    ensures kv.alloc == old(kv.alloc) - {row} && own == if row in old(kv.alloc) then old(kv.alloc)[row] else []
    ensures Stock(kv.freeSlots, kv.alloc) + multiset(own)
              == old(Stock(kv.freeSlots, kv.alloc)) + multiset(r[a..k] + r[n..])
  {
    hide *;
    own := kv.Detach(row);
    var redundant, neverWritten := r[a..k], r[n..];
    kv.FreeSlots(redundant + neverWritten);
  }

  /** Unlock the row's prefix, hand its history to the tree, free what the tree did not adopt. For a row
      with slots of its own the law holds again; a refused row leaves a surplus. */
  method CommitRow(cache: RadixPrefixCache, kv: MHAKVCache, row: int, handle: RadixCacheHandle, full: seq<int>,
                   r: seq<int>, a: nat, now: int, ghost g: Ledger)
    returns (ghost k: nat)
    requires cache.Valid() && cache.pageSize == 1 && CommitReady(g, row, full) && Balanced(g)
    requires row in g.jobs && row in g.admitted && 0 <= row < |g.table|
    requires g.jobs[row].handle == handle && g.table[row] == r && g.admitted[row] == a
    requires g.tree == cache.tree && g.locks == cache.locks && g.free == kv.freeSlots && g.alloc == kv.alloc
    modifies kv, cache`tree, cache`evictableSize, cache`protectedSize, cache`locks,
             cache.tree.paths.Keys`key, cache.tree.paths.Keys`value, cache.tree.paths.Keys`parent,
             cache.tree.paths.Keys`children, cache.tree.paths.Keys`timestamp, cache.tree.paths.Keys`refCount
    ensures cache.Valid() && fresh(cache.tree.paths.Keys - old(cache.tree.paths.Keys))
    ensures cache.locks == old(cache.locks) - {row} && kv.alloc == old(kv.alloc) - {row}
    ensures Shared(kv.freeSlots, kv.alloc, cache.tree.pages, g.numSlots, g.surplus + Excess(g, row))
    ensures PathsKept(g.tree, cache.tree) && Keeps(g.tree.pages, g.locks, cache.tree.pages)
    ensures |full| <= |r| && Taken(g.tree.pages, cache.tree.pages, full, r, k)
    ensures Used(old(cache.LastUses()), cache.LastUses(), Pages(full, 1), now)
  {
    hide *;
    CommitFacts(g, row, full);
    ExcessIs(g, row);
    BalancedFacts(g);
    var cachedLen := AdoptRow(cache, row, handle, full, r[..|full|], now, g);
    k := cachedLen;
    var own := SettleRow(kv, row, r, a, cachedLen, |full|);
    assert r[..|full|][k..] == r[k..|full|];
    SettledShares(g.free, g.alloc, g.tree.pages, kv.freeSlots, kv.alloc, cache.tree.pages, g.numSlots, g.surplus, own,
                  r, a, k, |full|);
    IsTaken(g.tree.pages, cache.tree.pages, full, r, k);
  }

  /** The history `full` was inserted with the slots that the table row `r` maps it to. */
  ghost predicate Taken(c: map<Path, Page>, c': map<Path, Page>, full: seq<int>, r: seq<int>, k: nat)
    requires |full| <= |r|
  {
    AlignDown(|full|, 1) == |full| && Inserted(c, c', Pages(full, 1), NewSlots(full, r[..|full|], 1), k)
  }

  lemma IsTaken(c: map<Path, Page>, c': map<Path, Page>, full: seq<int>, r: seq<int>, k: nat)
    requires |full| <= |r| && AlignDown(|full|, 1) == |full|
             && Inserted(c, c', Pages(full, 1), NewSlots(full, r[..|full|], 1), k)
    ensures Taken(c, c', full, r, k)
  {}

  /** `own` is what the row gave back, `tail` what was handed on in its name. */
  lemma SharedWith(free: seq<int>, alloc: map<int, seq<int>>, pages: map<Path, Page>, free': seq<int>,
                   alloc': map<int, seq<int>>, pages': map<Path, Page>, numSlots: nat, surplus: multiset<int>,
                   own: seq<int>, tail: seq<int>)
    requires Shared(free, alloc, pages, numSlots, surplus) && (own == tail || own == [])
    requires Stock(free', alloc') + Owned(pages') + multiset(own) == Stock(free, alloc) + Owned(pages) + multiset(tail)
    ensures Shared(free', alloc', pages', numSlots, surplus + if own == [] then multiset(tail) else multiset{})
  {
    hide Stock, Owned, Range;
    var all, all' := Stock(free, alloc) + Owned(pages), Stock(free', alloc') + Owned(pages');
    if own != [] {
      assert all' == all' + multiset(own) - multiset(own) == all + multiset(own) - multiset(own) == all;
    } else {
      assert all' + multiset([]) == all';
      assert all + multiset(tail) == multiset(Range(1, numSlots)) + (surplus + multiset(tail));
    }
    assert surplus + multiset{} == surplus;
  }

  /** The tree got the slots of `r[k..n]`, the free list those of `r[a..k]` and `r[n..]`. */
  lemma SettledShares(free: seq<int>, alloc: map<int, seq<int>>, pages: map<Path, Page>, free': seq<int>,
                      alloc': map<int, seq<int>>, pages': map<Path, Page>, numSlots: nat, surplus: multiset<int>,
                      own: seq<int>, r: seq<int>, a: nat, k: nat, n: nat)
    requires a <= k <= n <= |r| && Shared(free, alloc, pages, numSlots, surplus) && (own == r[a..] || own == [])
    requires Stock(free', alloc') + multiset(own) == Stock(free, alloc) + multiset(r[a..k] + r[n..])
    requires Owned(pages') == Owned(pages) + multiset(r[k..n])
    ensures Shared(free', alloc', pages', numSlots, surplus + if own == [] then multiset(r[a..]) else multiset{})
  {
    hide *;
    RowShares(r, a, k, n);
    Regroup(Stock(free', alloc'), multiset(own), Stock(free, alloc), multiset(r[a..k] + r[n..]), Owned(pages'),
            Owned(pages), multiset(r[k..n]));
    SharedWith(free, alloc, pages, free', alloc', pages', numSlots, surplus, own, r[a..]);
  }

  lemma Regroup(a': multiset<int>, own: multiset<int>, a: multiset<int>, x: multiset<int>, b': multiset<int>,
                b: multiset<int>, y: multiset<int>)
    requires a' + own == a + x && b' == b + y
    ensures a' + b' + own == a + b + (x + y)
  {
    assert a' + b' + own == (a' + own) + b' == (a + x) + (b + y);
  }

  lemma BalancedFacts(g: Ledger)
    requires Balanced(g)
    ensures Shared(g.free, g.alloc, g.tree.pages, g.numSlots, g.surplus)
  {}

  // ---------------------------------------------------------------- how the ledger moves

  ghost predicate SameJobs(jobs: Jobs, jobs': Jobs, rows: set<int>) {
    forall row :: row in rows ==> row in jobs && row in jobs' && SameRequest(jobs[row], jobs'[row])
  }

  ghost predicate HandlesKept(g: Ledger, t: NodeTree, rows: set<int>) {
    forall row :: row in rows && row in g.locks && row in g.jobs && g.jobs[row].handle.node in g.tree.paths
                  && g.tree.paths[g.jobs[row].handle.node] == g.locks[row] ==>
      g.jobs[row].handle.node in t.paths && t.paths[g.jobs[row].handle.node] == g.locks[row]
  }

  /** Jobs move on, locks and rows outside `rows` change, the tree keeps what is locked. */
  lemma LedgerMoves(g: Ledger, g': Ledger, rows: set<int>)
    requires LedgerOk(g, rows) && Balanced(g') && g'.alloc == g.alloc && g'.refused == g.refused
             && SameJobs(g.jobs, g'.jobs, rows)
    requires g'.maxLen == g.maxLen && |g'.table| == |g.table| && Keeps(g.tree.pages, g.locks, g'.tree.pages)
    requires forall row :: row in rows && 0 <= row < |g.table| ==> g'.table[row] == g.table[row]
    requires forall row :: row in rows && row in g.locks ==> row in g'.locks && g'.locks[row] == g.locks[row]
    requires forall row :: row in rows && row in g.admitted ==>
               row in g'.admitted && g'.admitted[row] == g.admitted[row]
    requires HandlesKept(g, g'.tree, rows)
    ensures LedgerOk(g', rows)
  {
    forall row | row in rows ensures Carries(g, g', row) {
      assert RowOk(g, row);
      assert row in g'.jobs && SameRequest(g.jobs[row], g'.jobs[row]);
    }
    hide RowOk, Carries, Keeps, Balanced;
    LedgerKept(g, g', rows);
  }

  /** A locked node survives eviction. */
  lemma HandlesSurvive(t: NodeTree, l: Locks, t': NodeTree, row: int, n: RadixTreeNode)
    requires Protects(t, l, t') && row in l && n in t.paths && t.paths[n] == l[row]
    ensures n in t'.paths && t'.paths[n] == l[row]
  {
    CountPositive(l, row, l[row]);
  }

  lemma ProtectsHandles(g: Ledger, t: NodeTree, rows: set<int>)
    requires Protects(g.tree, g.locks, t)
    ensures HandlesKept(g, t, rows) && Keeps(g.tree.pages, g.locks, t.pages)
  {
    forall row | row in rows && row in g.locks && row in g.jobs && g.jobs[row].handle.node in g.tree.paths
                 && g.tree.paths[g.jobs[row].handle.node] == g.locks[row]
      ensures g.jobs[row].handle.node in t.paths && t.paths[g.jobs[row].handle.node] == g.locks[row]
    {
      HandlesSurvive(g.tree, g.locks, t, row, g.jobs[row].handle.node);
    }
  }

  lemma PathsKeptHandles(g: Ledger, t: NodeTree, rows: set<int>)
    requires PathsKept(g.tree, t)
    ensures HandlesKept(g, t, rows)
  {}

  /** A row leaves: its lock, its slots and its length go, everything else stays in order. */
  lemma RowDropped(g: Ledger, g': Ledger, rows: set<int>, row: int)
    requires LedgerOk(g, rows) && row in rows && Balanced(g') && g'.maxLen == g.maxLen && g'.table == g.table
    requires g'.alloc == g.alloc - {row} && g'.locks == g.locks - {row} && g'.admitted == g.admitted - {row}
    requires g'.refused == g.refused - {row}
    requires SameJobs(g.jobs, g'.jobs, rows - {row}) && HandlesKept(g, g'.tree, rows)
             && Keeps(g.tree.pages, g.locks, g'.tree.pages)
    ensures LedgerOk(g', rows - {row})
  {
    forall r | r in rows - {row} ensures RowOk(g', r) {
      assert RowOk(g, r);
      assert r in g'.jobs && SameRequest(g.jobs[r], g'.jobs[r]);
      assert Carries(g, g', r);
      hide RowOk, Carries, Keeps;
      RowKept(g, g', r);
    }
  }

  lemma HistoryDropped(fullIds: map<int, seq<int>>, jobs: Jobs, row: int)
    requires HistoryOk(fullIds, jobs)
    ensures HistoryOk(fullIds - {row}, jobs - {row})
  {
    assert DecodingRows(jobs - {row}) == DecodingRows(jobs) - {row};
    forall r | r in fullIds - {row} ensures (fullIds - {row})[r] == (jobs - {row})[r].prompt + (jobs - {row})[r].out {
      assert fullIds[r] == jobs[r].prompt + jobs[r].out;
      assert r in DecodingRows(jobs);
    }
  }

  lemma KeepsSame(c: map<Path, Page>, l: Locks)
    ensures Keeps(c, l, c)
  {}

  // ---------------------------------------------------------------- admission

  /** The ledger with a new request on `row`, before it has slots of its own. */
  ghost function Entered(g: Ledger, row: int, j: Job, t: NodeTree, p: Path): Ledger {
    g.(jobs := g.jobs[row := j], tree := t, locks := g.locks[row := p], admitted := g.admitted[row := j.cached])
  }

  lemma EnteredOk(g: Ledger, row: int, j: Job, t: NodeTree, p: Path, rows: set<int>)
    requires LedgerOk(g, rows) && row !in rows && Grown(g.tree, t)
    ensures LedgerOk(Entered(g, row, j, t, p), rows)
  {
    var g' := Entered(g, row, j, t, p);
    assert SameJobs(g.jobs, g'.jobs, rows) by {
      forall r | r in rows ensures r in g.jobs {
        assert RowOk(g, r);
      }
    }
    KeepsSame(g.tree.pages, g.locks);
    LedgerMoves(g, g', rows);
  }

  /** The new row's entries are in order once it has slots. */
  lemma NewRowOk(g: Ledger, row: int)
    requires row in g.jobs && row in g.locks && row in g.alloc && row in g.admitted && 0 <= row < |g.table|
    requires Held(g.jobs[row], g.locks[row], g.tree, g.maxLen) && g.admitted[row] == g.jobs[row].cached
    requires TableOk(g.table[row], g.locks[row], g.tree.pages, g.jobs[row].cached, g.alloc[row], g.maxLen)
             && row !in g.refused
    ensures RowOk(g, row)
  {}

  lemma RefusedRowOk(g: Ledger, row: int)
    requires row in g.jobs && row in g.locks && row in g.admitted && 0 <= row < |g.table| && |g.table[row]| == g.maxLen
    requires Held(g.jobs[row], g.locks[row], g.tree, g.maxLen) && g.admitted[row] == g.jobs[row].cached
    requires Cached(g.tree.pages, g.locks[row]) && row in g.refused && row !in g.alloc
    ensures RowOk(g, row)
  {}

  lemma NewHeld(j: Job, p: Path, t: NodeTree, maxLen: nat)
    requires j.handle.node in t.paths && t.paths[j.handle.node] == p
    requires IsPrefix(p, Pages(j.prompt, 1)) && j.cached <= |p| && |j.prompt| + Max(1, j.outputLen) <= maxLen
    ensures Held(j, p, t, maxLen)
  {}

  lemma NewTable(matched: seq<int>, own: seq<int>, p: Path, c: map<Path, Page>, cached: nat, maxLen: nat)
    requires Cached(c, p) && matched == Flat(Backing(c, p)) && cached <= |matched| && cached + |own| == maxLen
    ensures TableOk(matched[..cached] + own, p, c, cached, own, maxLen)
  {
    assert (matched[..cached] + own)[..cached] == matched[..cached];
    assert (matched[..cached] + own)[cached..] == own;
  }

  lemma TableKept(r: seq<int>, p: Path, c: map<Path, Page>, cached: nat, own: seq<int>, maxLen: nat, l: Locks, row: int,
                  c': map<Path, Page>)
    requires TableOk(r, p, c, cached, own, maxLen) && Keeps(c, l, c') && row in l && l[row] == p
    ensures TableOk(r, p, c', cached, own, maxLen)
  {
    KeepsBacking(c, l, c', row);
  }

  /** No other row of the table has changed. */
  ghost predicate TableBut(table: seq<seq<int>>, table': seq<seq<int>>, row: int) {
    |table'| == |table| && forall r :: 0 <= r < |table| && r != row ==> table'[r] == table[r]
  }

  lemma IsTableBut(table: seq<seq<int>>, table': seq<seq<int>>, row: int)
    requires 0 <= row < |table| == |table'| && table' == table[row := table'[row]]
    ensures TableBut(table, table', row)
  {}

  /** The rest of the ledger when `row` gets slots or is refused. */
  ghost predicate JoinedBy(g: Ledger, g': Ledger, row: int) {
    && (if row in g'.refused then g'.refused == g.refused + {row} && g'.alloc == g.alloc
        else g'.refused == g.refused && row in g'.alloc && g'.alloc == g.alloc[row := g'.alloc[row]])
    && g'.jobs == g.jobs && g'.locks == g.locks && g'.admitted == g.admitted && g'.maxLen == g.maxLen
    && 0 <= row < |g.table| == |g'.table| && g'.table == g.table[row := g'.table[row]]
  }

  lemma OtherRow(g: Ledger, g': Ledger, row: int, rows: set<int>, r: int)
    requires LedgerOk(g, rows) && r in rows && row !in rows && JoinedBy(g, g', row)
    requires HandlesKept(g, g'.tree, rows) && Keeps(g.tree.pages, g.locks, g'.tree.pages)
    ensures RowOk(g', r)
  {
    assert RowOk(g, r);
    assert Carries(g, g', r) by {
      hide Keeps, Cached, TableOk;
    }
    hide RowOk, Carries, Keeps;
    RowKept(g, g', r);
  }

  /** The rows of a ledger with one more row, which got slots or was refused. */
  lemma AddedRowOk(g: Ledger, g': Ledger, rows: set<int>, row: int)
    requires LedgerOk(g, rows) && row !in rows && Balanced(g') && JoinedBy(g, g', row)
    requires Protects(g.tree, g.locks, g'.tree) && RowOk(g', row)
    ensures LedgerOk(g', rows + {row})
  {
    hide RowOk, HandlesKept, Keeps, Protects, Balanced;
    ProtectsHandles(g, g'.tree, rows);
    forall r | r in rows ensures RowOk(g', r) {
      OtherRow(g, g', row, rows, r);
    }
    RowHasSlots(g', row);
  }

  lemma RowHasSlots(g: Ledger, row: int)
    requires RowOk(g, row)
    ensures row in g.alloc <==> row !in g.refused
  {}

  datatype AddResult = Admitted(row: int) | PoolExhausted | NoFreeRow

  class Engine {
    const maxSeqLen: nat
    const eos: int
    const scheduler: Scheduler
    const cache: RadixPrefixCache
    const kv: MHAKVCache
    var pageTable: seq<seq<int>>
    var fullIds: map<int, seq<int>>
    var admitted: map<int, nat>
    /** Live rows whose admission failed: queued and locked, but without slots. */
    ghost var refused: set<int>
    /** Slots given away once too often, by committing refused rows. */
    ghost var surplus: multiset<int>
    /** Locks taken for requests that were then turned away; nobody releases them. */
    ghost var strays: nat

    ghost function State(): Ledger
      reads this, scheduler, cache, kv
    {
      Ledger(scheduler.jobs, cache.tree, cache.locks, pageTable, kv.freeSlots, kv.alloc, admitted, maxSeqLen,
             kv.numPages, refused, surplus)
    }

    /** The fixed shape of the engine, with prefix caching on and one-slot pages. */
    ghost predicate Shaped()
      reads this, kv, scheduler
    {
      && scheduler.eos == eos && cache.pageSize == 1 && kv.pageSize == 1 && |pageTable| == scheduler.maxRunningReq + 1
      && forall i :: 0 <= i < |pageTable| ==> |pageTable[i]| == maxSeqLen
    }

    /** The slots are shared out among the free list, the rows in `rows`, and the tree. */
    ghost predicate Sharing(rows: set<int>)
      reads this, scheduler, cache, kv, cache.tree.paths.Keys, cache.rootNode
    {
      cache.Valid() && Shaped() && LedgerOk(State(), rows) && admitted.Keys == rows
        && Ticketed(cache.locks, rows, strays)
    }

    /** What holds in every reachable state, whether or not admissions failed. */
    ghost predicate Sound()
      reads this, scheduler, cache, kv, cache.tree.paths.Keys, cache.rootNode,
            scheduler.prefillManager, set p | p in scheduler.prefillManager.pendingList,
            set p | p in scheduler.prefillManager.pendingList && p.chunkedReq != null :: p.chunkedReq,
            scheduler.decodeManager, set r | r in scheduler.decodeManager.runningReqs
    {
      scheduler.Valid() && Sharing(scheduler.jobs.Keys) && HistoryOk(fullIds, scheduler.jobs)
    }

    /** Moreover every live row has its slots, every lock is held by a live row, and no slot was ever given
        away twice. */
    ghost predicate Valid()
      reads this, scheduler, cache, kv, cache.tree.paths.Keys, cache.rootNode,
            scheduler.prefillManager, set p | p in scheduler.prefillManager.pendingList,
            set p | p in scheduler.prefillManager.pendingList && p.chunkedReq != null :: p.chunkedReq,
            scheduler.decodeManager, set r | r in scheduler.decodeManager.runningReqs
    {
      Sound() && refused == {} && surplus == multiset{} && strays == 0
    }

    lemma Facts()
      requires Sound()
      ensures scheduler.Valid() && Sharing(scheduler.jobs.Keys) && HistoryOk(fullIds, scheduler.jobs)
    {}

    lemma IsSound()
      requires scheduler.Valid() && Sharing(scheduler.jobs.Keys) && HistoryOk(fullIds, scheduler.jobs)
      ensures Sound()
    {}

    lemma SoundWith(rows: set<int>)
      requires scheduler.Valid() && cache.Valid() && Shaped() && LedgerOk(State(), rows)
               && HistoryOk(fullIds, scheduler.jobs)
      requires admitted.Keys == scheduler.jobs.Keys == rows && Ticketed(cache.locks, rows, strays)
      ensures Sound()
    {
      hide *;
      IsSharing(rows);
      IsSound();
    }

    /** Every slot has exactly one owner if and only if there is no surplus. */
    lemma Conserves()
      requires Sound()
      ensures Conserved(kv.freeSlots, kv.alloc, cache.tree.pages, kv.numPages) <==> surplus == multiset{}
    {
      SharingFacts(scheduler.jobs.Keys);
      ConservedWithout(kv.freeSlots, kv.alloc, cache.tree.pages, kv.numPages, surplus);
    }

    lemma SharingFacts(rows: set<int>)
      requires Sharing(rows)
      ensures cache.Valid() && Shaped() && LedgerOk(State(), rows) && admitted.Keys == rows
              && Ticketed(cache.locks, rows, strays)
      ensures scheduler.eos == eos && cache.pageSize == 1 && kv.pageSize == 1
              && |pageTable| == scheduler.maxRunningReq + 1
      ensures Balanced(State()) && refused <= rows && kv.alloc.Keys == rows - refused
      ensures Shared(kv.freeSlots, kv.alloc, cache.tree.pages, kv.numPages, surplus)
      ensures forall row :: row in rows ==> RowOk(State(), row)
    {
      forall row | row in rows ensures RowOk(State(), row) {
        assert RowOk(State(), row);
      }
    }

    lemma IsSharing(rows: set<int>)
      requires cache.Valid() && Shaped() && LedgerOk(State(), rows) && admitted.Keys == rows
               && Ticketed(cache.locks, rows, strays)
      ensures Sharing(rows)
    {}

    lemma FreshFields()
      requires scheduler.eos == eos && cache.pageSize == 1 && kv.pageSize == 1
      requires pageTable == seq(scheduler.maxRunningReq + 1, _ => seq(maxSeqLen, _ => 0))
      ensures Shaped()
      ensures State() == Ledger(scheduler.jobs, cache.tree, cache.locks, pageTable, kv.freeSlots, kv.alloc, admitted,
                                maxSeqLen, kv.numPages,
                               refused, surplus)
    {}

    constructor (maxRunningReq: nat, maxExtendTokens: int, maxSeqLen: nat, cacheBudget: int, numPages: nat, eos: int,
                 born: int)
      ensures Valid() && scheduler.jobs == map[] && cache.tree.pages == map[]
      ensures this.maxSeqLen == maxSeqLen && this.eos == eos && kv.numPages == numPages + 1
      ensures scheduler.maxRunningReq == maxRunningReq && scheduler.maxExtendTokens == maxExtendTokens
      ensures scheduler.cacheBudget == cacheBudget
      ensures fresh(scheduler) && fresh(scheduler.prefillManager) && fresh(scheduler.decodeManager) && fresh(cache)
              && fresh(kv)
      ensures fresh(cache.tree.paths.Keys) && scheduler.prefillManager.pendingList == []
              && scheduler.decodeManager.runningReqs == []
    {
      hide *;
      this.maxSeqLen, this.eos := maxSeqLen, eos;
      scheduler := new Scheduler(maxRunningReq, maxExtendTokens, cacheBudget, 1, eos);
      cache := new RadixPrefixCache(1, born);
      kv := new MHAKVCache(1, numPages + 1);
      pageTable := seq(maxRunningReq + 1, _ => seq(maxSeqLen, _ => 0));
      fullIds, admitted, refused, surplus, strays := map[], map[], {}, multiset{}, 0;
      new;
      FreshFields();
      FreshLedger(State());
      NoHistory();
      NoTickets(cache.locks);
      IsSharing({});
      IsSound();
      ValidIs();
    }

    lemma ValidIs()
      ensures Valid() <==> Sound() && refused == {} && surplus == multiset{} && strays == 0
    {}

    /** A request is queued on `row` and its prefix locked; it still has to get slots. */
    ghost predicate Entering(rows: set<int>, row: int, cachedLen: nat, matched: seq<int>)
      reads this, scheduler, cache, kv, cache.tree.paths.Keys, cache.rootNode
    {
      && cache.Valid() && Shaped() && LedgerOk(State(), rows) && row !in rows && 0 <= row < |pageTable|
      && row in scheduler.jobs && row in cache.locks && row in admitted
      && scheduler.jobs[row].cached == admitted[row] == cachedLen <= maxSeqLen
      && Held(scheduler.jobs[row], cache.locks[row], cache.tree, maxSeqLen)
      && Cached(cache.tree.pages, cache.locks[row]) && matched == Flat(Backing(cache.tree.pages, cache.locks[row]))
      && cachedLen <= |matched|
    }

    lemma EnteringFacts(rows: set<int>, row: int, cachedLen: nat, matched: seq<int>)
      requires Entering(rows, row, cachedLen, matched)
      ensures cache.Valid() && kv.pageSize == 1 && row !in kv.alloc && 0 <= row < |pageTable|
              && |pageTable[row]| == maxSeqLen
      ensures Shared(kv.freeSlots, kv.alloc, cache.tree.pages, kv.numPages, surplus) && cachedLen <= |matched|
              && cachedLen <= maxSeqLen
      ensures LedgerOk(State(), rows) && row !in rows && row in cache.locks && kv.alloc.Keys == rows - refused
              && refused <= rows
      ensures row in scheduler.jobs && row in admitted && scheduler.jobs[row].cached == admitted[row] == cachedLen
      ensures Held(scheduler.jobs[row], cache.locks[row], cache.tree, maxSeqLen)
      ensures Cached(cache.tree.pages, cache.locks[row]) && matched == Flat(Backing(cache.tree.pages, cache.locks[row]))
      ensures scheduler.eos == eos && cache.pageSize == 1 && |pageTable| == scheduler.maxRunningReq + 1
      ensures forall i :: 0 <= i < |pageTable| ==> |pageTable[i]| == maxSeqLen
    {}

    lemma StateIs()
      ensures State() == Ledger(scheduler.jobs, cache.tree, cache.locks, pageTable, kv.freeSlots, kv.alloc, admitted,
                                maxSeqLen, kv.numPages,
                               refused, surplus)
    {}

    /** Map the reused positions of a row to the slots of the matched prefix. */
    method ReusePrefix(tableIdx: int, cachedLen: nat, matched: seq<int>)
      requires 0 <= tableIdx < |pageTable| && cachedLen <= |matched| && cachedLen <= |pageTable[tableIdx]|
      modifies this`pageTable
      ensures pageTable == old(pageTable)[tableIdx := matched[..cachedLen] + old(pageTable)[tableIdx][cachedLen..]]
    {
      if cachedLen > 0 {
        pageTable := pageTable[tableIdx := matched[..cachedLen] + pageTable[tableIdx][cachedLen..]];
      } else {
        assert matched[..cachedLen] + pageTable[tableIdx][cachedLen..] == pageTable[tableIdx];
      }
    }

    /** Map the other positions of a row to its slots, if it got any. */
    method FillRow(tableIdx: int, cachedLen: nat, slots: Option<seq<int>>) returns (ok: bool)
      requires 0 <= tableIdx < |pageTable| && cachedLen <= |pageTable[tableIdx]|
      modifies this`pageTable, this`refused
      ensures ok == slots.Some?
      ensures if ok then refused == old(refused)
                         && pageTable == old(pageTable)[tableIdx := old(pageTable)[tableIdx][..cachedLen] + slots.value]
              else refused == old(refused) + {tableIdx} && pageTable == old(pageTable)
    {
      ok := slots.Some?;
      if ok {
        pageTable := pageTable[tableIdx := pageTable[tableIdx][..cachedLen] + slots.value];
      } else {
        refused := refused + {tableIdx};
      }
    }

    /** Slots for the positions that the row does not reuse. It works exactly when the free slots and
        the evictable ones are enough, and takes at most one eviction. Otherwise the row is refused: its
        reused positions are filled in, the others still map to what the row's last owner had there. */
    method AllocateSlot(tableIdx: int, cachedLen: nat, matched: seq<int>, ghost rows: set<int>)
      returns (ok: bool, ghost log: RadixLog)
      requires Entering(rows, tableIdx, cachedLen, matched)
      modifies this`pageTable, this`refused, kv, cache`tree, cache`evictableSize, cache.tree.paths.Keys`children
      ensures cache.Valid() && Shaped() && cache.tree.paths.Keys <= old(cache.tree.paths.Keys)
      ensures ok <==> maxSeqLen - cachedLen <= old(|kv.freeSlots| + cache.evictableSize)
      ensures LedgerOk(State(), rows + {tableIdx}) && refused == old(refused) + if ok then {} else {tableIdx}
      ensures (ok <==> tableIdx in kv.alloc) && TableBut(old(pageTable), pageTable, tableIdx)
      ensures MadeRoom(old(cache.tree), cache.tree, cache.locks, old(cache.NodeStamps()), log, old(|kv.freeSlots|),
                       maxSeqLen - cachedLen)
      ensures NoUse(old(cache.LastUses()), cache.LastUses())
    {
      hide *;
      EnteringFacts(rows, tableIdx, cachedLen, matched);
      StateIs();
      ghost var g := State();
      ReusePrefix(tableIdx, cachedLen, matched);
      var slots;
      slots, log := TakeSlots(cache, kv, tableIdx, maxSeqLen - cachedLen, kv.numPages, surplus);
      ok := FillRow(tableIdx, cachedLen, slots);
      StateIs();
      IsTableBut(g.table, pageTable, tableIdx);
      if ok {
        assert pageTable[tableIdx] == matched[..cachedLen] + slots.value;
        AllocatedRow(g, rows, tableIdx, cachedLen, matched, slots.value);
      } else {
        RefusedRow(g, rows, tableIdx, cachedLen);
      }
      StillShaped();
    }

    lemma StillShaped()
      requires scheduler.eos == eos && cache.pageSize == 1 && kv.pageSize == 1
               && |pageTable| == scheduler.maxRunningReq + 1
      requires forall i :: 0 <= i < |pageTable| ==> |pageTable[i]| == maxSeqLen
      ensures Shaped()
    {}

    lemma AllocatedRow(g: Ledger, rows: set<int>, row: int, cachedLen: nat, matched: seq<int>, own: seq<int>)
      requires LedgerOk(g, rows) && row !in rows && 0 <= row < |g.table|
      requires row in g.jobs && row in g.locks && row in g.admitted
               && g.jobs[row].cached == g.admitted[row] == cachedLen
      requires Held(g.jobs[row], g.locks[row], g.tree, g.maxLen)
      requires Cached(g.tree.pages, g.locks[row]) && matched == Flat(Backing(g.tree.pages, g.locks[row]))
               && cachedLen <= |matched|
      requires cachedLen + |own| == g.maxLen && Protects(g.tree, g.locks, cache.tree)
      requires State() == g.(tree := cache.tree, free := kv.freeSlots, alloc := g.alloc[row := own],
                             table := g.table[row := matched[..cachedLen] + own])
      requires Shared(kv.freeSlots, kv.alloc, cache.tree.pages, kv.numPages, surplus) && row !in g.refused
      ensures LedgerOk(State(), rows + {row})
    {
      var g' := State();
      assert Balanced(g');
      NewTable(matched, own, g.locks[row], g.tree.pages, cachedLen, g.maxLen);
      ProtectsHandles(g, cache.tree, {row});
      TableKept(matched[..cachedLen] + own, g.locks[row], g.tree.pages, cachedLen, own, g.maxLen, g.locks, row,
                cache.tree.pages);
      NewHeld(g.jobs[row], g.locks[row], cache.tree, g.maxLen);
      NewRowOk(g', row);
      hide *;
      AddedRowOk(g, g', rows, row);
    }

    lemma RefusedRow(g: Ledger, rows: set<int>, row: int, cachedLen: nat)
      requires LedgerOk(g, rows) && row !in rows && 0 <= row < |g.table| == |pageTable| && |pageTable[row]| == g.maxLen
      requires row in g.jobs && row in g.locks && row in g.admitted
               && g.jobs[row].cached == g.admitted[row] == cachedLen
      requires Held(g.jobs[row], g.locks[row], g.tree, g.maxLen) && row !in g.alloc
      requires Cached(g.tree.pages, g.locks[row]) && Protects(g.tree, g.locks, cache.tree)
      requires State() == g.(tree := cache.tree, free := kv.freeSlots, table := g.table[row := pageTable[row]],
                             refused := g.refused + {row})
      requires Shared(kv.freeSlots, kv.alloc, cache.tree.pages, kv.numPages, surplus)
      ensures LedgerOk(State(), rows + {row})
    {
      var g' := State();
      assert Balanced(g');
      ProtectsHandles(g, cache.tree, {row});
      KeepsBacking(g.tree.pages, g.locks, cache.tree.pages, row);
      NewHeld(g.jobs[row], g.locks[row], cache.tree, g.maxLen);
      RefusedRowOk(g', row);
      hide *;
      AddedRowOk(g, g', rows, row);
    }

    /** Queue a request whose prefix is locked on the lowest free row. */
    method EnterRow(uid: int, prompt: seq<int>, outputLen: int, ignoreEos: bool, cachedLen: nat,
                    handle: RadixCacheHandle)
      returns (row: int)
      requires scheduler.Valid() && scheduler.freeSlots != [] && cachedLen < |prompt|
      modifies this`admitted, scheduler`freeSlots, scheduler`jobs, scheduler.prefillManager`pendingList
      ensures scheduler.Valid() && row == old(scheduler.freeSlots)[0] && row !in old(scheduler.jobs)
      ensures scheduler.jobs == old(scheduler.jobs)[row :=
                                                    Job(uid, prompt, outputLen, ignoreEos, cachedLen, handle, [], [])]
      ensures admitted == old(admitted)[row := cachedLen] && 0 <= row < scheduler.maxRunningReq
      ensures forall p :: p in scheduler.prefillManager.pendingList ==>
                fresh(p) || p in old(scheduler.prefillManager.pendingList)
      ensures old(scheduler.prefillManager.pendingList) < scheduler.prefillManager.pendingList
    {
      hide *;
      scheduler.Facts();
      scheduler.MidwayFacts();
      ghost var jobs := scheduler.jobs;
      AddedRow(scheduler.freeSlots, jobs, scheduler.maxRunningReq,
               Job(uid, prompt, outputLen, ignoreEos, cachedLen, handle, [], []));
      var pending := new PendingReq(uid, prompt, outputLen, ignoreEos, cachedLen, handle);
      NewJobIs(pending);
      var queued := scheduler.Add(pending);
      row := pending.tableIdx;
      admitted := admitted[row := cachedLen];
    }

    lemma IsEntering(g: Ledger, row: int, j: Job, path: Path, matched: seq<int>, jobs: Jobs)
      requires LedgerOk(g, jobs.Keys) && row !in jobs && 0 <= row < |pageTable| && cache.Valid() && Shaped()
      requires Grown(g.tree, cache.tree) && g.maxLen == maxSeqLen
      requires j.handle.node in cache.tree.paths && cache.tree.paths[j.handle.node] == path
      requires IsPrefix(path, Pages(j.prompt, 1)) && j.cached <= |path| && |j.prompt| + Max(1, j.outputLen) <= maxSeqLen
      requires Cached(cache.tree.pages, path) && matched == Flat(Backing(cache.tree.pages, path)) && |matched| == |path|
      requires State() == Entered(g, row, j, cache.tree, path) && j.cached <= |j.prompt|
      ensures Entering(jobs.Keys, row, j.cached, matched)
    {
      EnteredOk(g, row, j, cache.tree, path, jobs.Keys);
      NewHeld(j, path, cache.tree, maxSeqLen);
    }

    lemma EnteredIs(g: Ledger, row: int, j: Job, t: NodeTree, p: Path)
      ensures Entered(g, row, j, t, p) ==
                Ledger(g.jobs[row := j], t, g.locks[row := p], g.table, g.free, g.alloc, g.admitted[row := j.cached],
                       g.maxLen, g.numSlots, g.refused, g.surplus)
    {}

    /** Lock the cached prefix of a prompt, then queue its request. */
    method LockAndQueue(uid: int, prompt: seq<int>, outputLen: int, ignoreEos: bool, now: int)
      returns (row: int, cachedLen: nat, matched: seq<int>, ghost path: Path)
      requires scheduler.Valid() && scheduler.freeSlots != [] && prompt != []
      requires cache.Valid() && cache.pageSize == 1 && scheduler.freeSlots[0] !in cache.locks
      modifies this`admitted, scheduler`freeSlots, scheduler`jobs, scheduler.prefillManager`pendingList,
               cache`tree, cache`evictableSize, cache`protectedSize, cache`locks,
               cache.tree.paths.Keys`key, cache.tree.paths.Keys`value, cache.tree.paths.Keys`parent,
               cache.tree.paths.Keys`children, cache.tree.paths.Keys`timestamp, cache.tree.paths.Keys`refCount
      ensures cache.Valid() && fresh(cache.tree.paths.Keys - old(cache.tree.paths.Keys))
              && Grown(old(cache.tree), cache.tree)
      ensures scheduler.Valid()
              && Joined(old(scheduler.freeSlots), old(scheduler.jobs), scheduler.jobs, row, uid, prompt, outputLen,
                        ignoreEos, cachedLen)
      ensures cache.locks == old(cache.locks)[row := path] && cache.tree.pages == old(cache.tree.pages)
      ensures admitted == old(admitted)[row := cachedLen] && 0 <= row < scheduler.maxRunningReq && row in scheduler.jobs
      ensures scheduler.jobs[row].handle.node in cache.tree.paths
              && cache.tree.paths[scheduler.jobs[row].handle.node] == path
      ensures IsPrefix(path, Pages(prompt, 1)) && Longest(cache.tree.pages, Pages(prompt, 1), |path|)
      ensures Cached(cache.tree.pages, path) && matched == Flat(Backing(cache.tree.pages, path)) && |matched| == |path|
      ensures cachedLen == Min(|path|, |prompt| - 1) && cachedLen <= |path| && cachedLen < |prompt|
      ensures forall p :: p in scheduler.prefillManager.pendingList ==>
                fresh(p) || p in old(scheduler.prefillManager.pendingList)
      ensures old(scheduler.prefillManager.pendingList) < scheduler.prefillManager.pendingList
      ensures Walked(old(cache.tree), cache.tree, old(cache.NodeStamps()), cache.NodeStamps(), path, now)
    {
      hide *;
      var handle;
      handle, cachedLen, matched, path := LockPrefix(cache, prompt, now, scheduler.freeSlots[0]);
      row := EnterRow(uid, prompt, outputLen, ignoreEos, cachedLen, handle);
      IsJoined(old(scheduler.freeSlots), old(scheduler.jobs), scheduler.jobs, row,
               Job(uid, prompt, outputLen, ignoreEos, cachedLen, handle, [], []));
    }

    /** Everything of an admission but the slots. */
    method EnterRequest(uid: int, prompt: seq<int>, outputLen: int, ignoreEos: bool, now: int)
      returns (row: int, cachedLen: nat, matched: seq<int>, ghost path: Path)
      requires Sound() && scheduler.freeSlots != [] && prompt != [] && |prompt| + Max(1, outputLen) <= maxSeqLen
      modifies this`admitted, scheduler`freeSlots, scheduler`jobs, scheduler.prefillManager`pendingList,
               cache`tree, cache`evictableSize, cache`protectedSize, cache`locks,
               cache.tree.paths.Keys`key, cache.tree.paths.Keys`value, cache.tree.paths.Keys`parent,
               cache.tree.paths.Keys`children, cache.tree.paths.Keys`timestamp, cache.tree.paths.Keys`refCount
      ensures Entering(old(scheduler.jobs).Keys, row, cachedLen, matched)
      ensures scheduler.Valid() && HistoryOk(fullIds, scheduler.jobs)
      ensures Joined(old(scheduler.freeSlots), old(scheduler.jobs), scheduler.jobs, row, uid, prompt, outputLen,
                     ignoreEos, cachedLen)
      ensures admitted.Keys == scheduler.jobs.Keys == old(scheduler.jobs).Keys + {row}
      ensures Ticketed(cache.locks, scheduler.jobs.Keys, strays)
      ensures fresh(cache.tree.paths.Keys - old(cache.tree.paths.Keys))
      ensures forall p :: p in scheduler.prefillManager.pendingList ==>
                fresh(p) || p in old(scheduler.prefillManager.pendingList)
      ensures old(scheduler.prefillManager.pendingList) < scheduler.prefillManager.pendingList
      ensures cachedLen == Min(|path|, |prompt| - 1) && Matched(old(cache.tree.pages), prompt, path)
      ensures cache.locks == old(cache.locks)[row := path]
      ensures |kv.freeSlots| + cache.evictableSize == Room(old(State()), row, path)
      ensures AlwaysRoom(old(State()), scheduler.maxRunningReq, prompt) ==>
                maxSeqLen - cachedLen <= Room(old(State()), row, path)
      ensures NeverRoom(old(State()), scheduler.maxRunningReq, prompt) ==>
                maxSeqLen - cachedLen > Room(old(State()), row, path)
      ensures Walked(old(cache.tree), cache.tree, old(cache.NodeStamps()), cache.NodeStamps(), path, now)
    {
      hide *;
      Facts();
      SharingFacts(scheduler.jobs.Keys);
      scheduler.Facts();
      scheduler.MidwayFacts();
      StateIs();
      ghost var g, jobs := State(), scheduler.jobs;
      NextRow(scheduler.freeSlots, jobs, scheduler.maxRunningReq);
      RowNoTicket(cache.locks, jobs.Keys, strays, scheduler.freeSlots[0]);
      row, cachedLen, matched, path := LockAndQueue(uid, prompt, outputLen, ignoreEos, now);
      StateIs();
      StillShaped();
      IsMatched(g.tree.pages, prompt, path);
      WithRequest(g, old(scheduler.freeSlots), row, uid, prompt, outputLen, ignoreEos, cachedLen, matched, path);
    }

    /** The state after a request has joined the queue, with its prefix locked. */
    lemma WithRequest(g: Ledger, freeRows: seq<int>, row: int, uid: int, prompt: seq<int>, outputLen: int,
                      ignoreEos: bool, cachedLen: nat, matched: seq<int>, path: Path)
      requires LedgerOk(g, g.jobs.Keys) && g.admitted.Keys == g.jobs.Keys && |g.jobs| < scheduler.maxRunningReq
      requires Ticketed(g.locks, g.jobs.Keys, strays)
      requires cache.Valid() && Shaped() && g.maxLen == maxSeqLen && Grown(g.tree, cache.tree)
               && cache.tree.pages == g.tree.pages
      requires Joined(freeRows, g.jobs, scheduler.jobs, row, uid, prompt, outputLen, ignoreEos, cachedLen)
               && HistoryOk(fullIds, g.jobs)
      requires row in scheduler.jobs && 0 <= row < |pageTable| && prompt != []
               && |prompt| + Max(1, outputLen) <= maxSeqLen
      requires scheduler.jobs[row].handle.node in cache.tree.paths
               && cache.tree.paths[scheduler.jobs[row].handle.node] == path
      requires IsPrefix(path, Pages(prompt, 1)) && Cached(cache.tree.pages, path)
               && cachedLen == Min(|path|, |prompt| - 1)
      requires matched == Flat(Backing(cache.tree.pages, path)) && |matched| == |path| && cachedLen <= |path|
               && cachedLen < |prompt|
      requires Longest(cache.tree.pages, Pages(prompt, 1), |path|)
      requires State() == Ledger(scheduler.jobs, cache.tree, g.locks[row := path], g.table, g.free, g.alloc,
                                 g.admitted[row := cachedLen], g.maxLen, g.numSlots, g.refused, g.surplus)
      ensures Entering(g.jobs.Keys, row, cachedLen, matched) && HistoryOk(fullIds, scheduler.jobs)
      ensures admitted.Keys == scheduler.jobs.Keys == g.jobs.Keys + {row}
              && Ticketed(cache.locks, scheduler.jobs.Keys, strays)
      ensures |kv.freeSlots| + cache.evictableSize == Room(g, row, path)
      ensures AlwaysRoom(g, scheduler.maxRunningReq, prompt) ==> maxSeqLen - cachedLen <= Room(g, row, path)
      ensures NeverRoom(g, scheduler.maxRunningReq, prompt) ==> maxSeqLen - cachedLen > Room(g, row, path)
    {
      hide *;
      JoinedFacts(freeRows, g.jobs, scheduler.jobs, row, uid, prompt, outputLen, ignoreEos, cachedLen);
      StateIs();
      ShapedFacts();
      RoomIs(g, row, path);
      TicketedRow(g.locks, g.jobs.Keys, strays, row, path);
      cache.Facts();
      SizesOf(cache.tree.pages, cache.locks, cache.evictableSize, cache.protectedSize);
      HistoryEntered(fullIds, g.jobs, row, scheduler.jobs[row]);
      EnteredIs(g, row, scheduler.jobs[row], cache.tree, path);
      IsEntering(g, row, scheduler.jobs[row], path, matched, g.jobs);
      RoomForOne(g, g.jobs, row, prompt, path, cachedLen, matched);
      OneSlotPages();
      IsPoolOk(g, scheduler.maxRunningReq);
      if NeverRoom(g, scheduler.maxRunningReq, prompt) {
        NoRoomForWhole(g, scheduler.maxRunningReq, prompt, row, path);
      }
    }

    lemma OneSlotPages()
      requires cache.Valid() && cache.pageSize == 1
      ensures forall u :: u in cache.tree.pages ==> |cache.tree.pages[u]| == 1
    {
      hide *;
      forall u | u in cache.tree.pages ensures |cache.tree.pages[u]| == 1 {
        cache.PageSizes(u);
      }
    }

    lemma OneSlotsNow()
      requires Sound()
      ensures forall u :: u in cache.tree.pages ==> |cache.tree.pages[u]| == 1
    {
      hide *;
      Facts();
      SharingFacts(scheduler.jobs.Keys);
      OneSlotPages();
    }

    /** What admission relies on, as values. */
    lemma BeforeAdmission()
      requires Sound() && scheduler.freeSlots != []
      ensures State().numSlots == kv.numPages && State().maxLen == maxSeqLen && State().free == kv.freeSlots
      ensures State().tree == cache.tree && State().locks == cache.locks
      ensures PoolOk(State(), scheduler.maxRunningReq)
              && (Valid() ==> State().refused == {} && State().surplus == multiset{})
    {
      Facts();
      SharingFacts(scheduler.jobs.Keys);
      OneSlotPages();
      FreeRowsOk();
      NextRow(scheduler.freeSlots, scheduler.jobs, scheduler.maxRunningReq);
    }

    /** Without a free row, a request is turned away only after its cached prefix was locked. */
    method TurnAway(prompt: seq<int>, now: int) returns (ghost ticket: int, ghost path: Path)
      requires Sound() && prompt != []
      modifies this`strays,
               cache`tree, cache`evictableSize, cache`protectedSize, cache`locks,
               cache.tree.paths.Keys`key, cache.tree.paths.Keys`value, cache.tree.paths.Keys`parent,
               cache.tree.paths.Keys`children, cache.tree.paths.Keys`timestamp, cache.tree.paths.Keys`refCount
      ensures Sound() && fresh(cache.tree.paths.Keys - old(cache.tree.paths.Keys)) && strays == old(strays) + 1
      ensures TurnedAway(old(State()), State(), ticket, path)
      ensures Matched(old(cache.tree.pages), prompt, path)
      ensures Walked(old(cache.tree), cache.tree, old(cache.NodeStamps()), cache.NodeStamps(), path, now)
    {
      hide *;
      Facts();
      SharingFacts(scheduler.jobs.Keys);
      StateIs();
      ghost var g, before := State(), strays;
      ticket := 0 - strays - 1;
      RowsInTable(g, scheduler.jobs.Keys);
      TicketedMore(cache.locks, scheduler.jobs.Keys, strays, []);
      var handle, cachedLen, matched;
      ghost var p;
      handle, cachedLen, matched, p := LockPrefix(cache, prompt, now, ticket);
      path, strays := p, strays + 1;
      StateIs();
      StillShaped();
      WithStray(g, before, ticket, path, prompt);
    }

    /** The state after a request was turned away, with its prefix still locked. */
    lemma WithStray(g: Ledger, before: nat, ticket: int, path: Path, prompt: seq<int>)
      requires LedgerOk(g, g.jobs.Keys) && g.admitted.Keys == g.jobs.Keys && strays == before + 1
      requires Ticketed(g.locks, g.jobs.Keys, before) && ticket == 0 - strays
      requires scheduler.Valid() && cache.Valid() && Shaped()
      requires Grown(g.tree, cache.tree) && cache.tree.pages == g.tree.pages && HistoryOk(fullIds, g.jobs)
      requires IsPrefix(path, Pages(prompt, 1)) && Longest(g.tree.pages, Pages(prompt, 1), |path|)
               && Cached(g.tree.pages, path)
      requires State() == Ledger(g.jobs, cache.tree, g.locks[ticket := path], g.table, g.free, g.alloc, g.admitted,
                                 g.maxLen, g.numSlots, g.refused, g.surplus)
      ensures Sound() && TurnedAway(g, State(), ticket, path) && Matched(g.tree.pages, prompt, path)
    {
      hide *;
      StateIs();
      RowsInTable(g, g.jobs.Keys);
      TicketedMore(g.locks, g.jobs.Keys, before, path);
      StrayOk(g, g.jobs.Keys, cache.tree, ticket, path);
      IsTurnedAway(g, State(), ticket, path);
      IsMatched(g.tree.pages, prompt, path);
      SoundWith(g.jobs.Keys);
    }

    /** Slots for a request that has joined the queue, and what was evicted for them. */
    method GiveSlots(tableIdx: int, cachedLen: nat, matched: seq<int>, ghost rows: set<int>, ghost t: NodeTree,
                     ghost st: Stamps, ghost path: Path, ghost now: int)
      returns (ok: bool, ghost room: RoomLog)
      requires Entering(rows, tableIdx, cachedLen, matched) && scheduler.Valid() && HistoryOk(fullIds, scheduler.jobs)
      requires admitted.Keys == scheduler.jobs.Keys == rows + {tableIdx}
      requires Ticketed(cache.locks, scheduler.jobs.Keys, strays)
      requires Walked(t, cache.tree, st, cache.NodeStamps(), path, now)
      requires forall u :: u in t.pages ==> |t.pages[u]| == 1
      modifies this`pageTable, this`refused, kv, cache`tree, cache`evictableSize, cache.tree.paths.Keys`children
      ensures Sound() && cache.tree.paths.Keys <= old(cache.tree.paths.Keys)
      ensures ok <==> maxSeqLen - cachedLen <= old(|kv.freeSlots| + cache.evictableSize)
      ensures refused == old(refused) + if ok then {} else {tableIdx}
      ensures TableBut(old(pageTable), pageTable, tableIdx)
      ensures room.tree == old(cache.tree) && room.stamps == old(cache.NodeStamps())
      ensures MadeRoom(room.tree, cache.tree, cache.locks, room.stamps, room.log, old(|kv.freeSlots|),
                       maxSeqLen - cachedLen)
      ensures maxSeqLen - cachedLen <= old(|kv.freeSlots|) ==> cache.tree.pages == t.pages
      ensures !ok ==> OnlyPinned(t.pages, cache.tree.pages, cache.locks)
      ensures Used(LastUse(t, st), cache.LastUses(), path, now)
    {
      hide *;
      EnteringFacts(rows, tableIdx, cachedLen, matched);
      cache.Facts();
      SizesOf(cache.tree.pages, cache.locks, cache.evictableSize, cache.protectedSize);
      cache.StampsAre();
      ghost var t1, st1, free, log := cache.tree, cache.NodeStamps(), |kv.freeSlots|, EmptyLog(cache.tree);
      ok, log := AllocateSlot(tableIdx, cachedLen, matched, rows);
      room := RoomLog(t1, st1, log);
      WalkedGrown(t, t1, st, st1, path, now);
      RoomMeans(t, t1, cache.tree, cache.locks, st1, log, free, maxSeqLen - cachedLen);
      UsedStill(t, t1, st, st1, cache.LastUses(), path, now);
      SoundWith(scheduler.jobs.Keys);
    }

    /** Admit a request to a free row: reuse and lock its cached prefix, queue it, and give it slots for
        the rest. Without slots nothing is rolled back: the request stays live on a refused row. */
    method Admit(uid: int, prompt: seq<int>, outputLen: int, ignoreEos: bool, now: int)
      returns (r: AddResult, ghost row: int, ghost cachedLen: nat, ghost path: Path, ghost room: RoomLog)
      requires Sound() && scheduler.freeSlots != [] && prompt != [] && |prompt| + Max(1, outputLen) <= maxSeqLen
      modifies this`admitted, this`pageTable, this`refused, scheduler`freeSlots, scheduler`jobs,
               scheduler.prefillManager`pendingList, kv,
               cache`tree, cache`evictableSize, cache`protectedSize, cache`locks,
               cache.tree.paths.Keys`key, cache.tree.paths.Keys`value, cache.tree.paths.Keys`parent,
               cache.tree.paths.Keys`children, cache.tree.paths.Keys`timestamp, cache.tree.paths.Keys`refCount
      ensures Sound() && fresh(cache.tree.paths.Keys - old(cache.tree.paths.Keys))
      ensures forall p :: p in scheduler.prefillManager.pendingList ==>
                fresh(p) || p in old(scheduler.prefillManager.pendingList)
      ensures old(scheduler.prefillManager.pendingList) < scheduler.prefillManager.pendingList
      ensures Joined(old(scheduler.freeSlots), old(scheduler.jobs), scheduler.jobs, row, uid, prompt, outputLen,
                     ignoreEos, cachedLen)
      ensures Matched(old(cache.tree.pages), prompt, path) && cache.locks == old(cache.locks)[row := path]
      ensures cachedLen == Min(|path|, |prompt| - 1) && (r == PoolExhausted || r == Admitted(row))
      ensures r.Admitted? <==> maxSeqLen - cachedLen <= Room(old(State()), row, path)
      ensures AlwaysRoom(old(State()), scheduler.maxRunningReq, prompt) ==> r.Admitted?
      ensures NeverRoom(old(State()), scheduler.maxRunningReq, prompt) ==> r == PoolExhausted
      ensures refused == old(refused) + if r.Admitted? then {} else {row}
      ensures TableBut(old(pageTable), pageTable, row)
      ensures Walked(old(cache.tree), room.tree, old(cache.NodeStamps()), room.stamps, path, now)
      ensures MadeRoom(room.tree, cache.tree, cache.locks, room.stamps, room.log, old(|kv.freeSlots|),
                       maxSeqLen - cachedLen)
      ensures maxSeqLen - cachedLen <= old(|kv.freeSlots|) ==> cache.tree.pages == old(cache.tree.pages)
      ensures r == PoolExhausted ==> OnlyPinned(old(cache.tree.pages), cache.tree.pages, cache.locks)
      ensures Used(old(cache.LastUses()), cache.LastUses(), path, now)
    {
      hide *;
      OneSlotsNow();
      cache.StampsAre();
      ghost var jobs, t0, st0 := scheduler.jobs, cache.tree, cache.NodeStamps();
      var tableIdx, reuse, matched;
      ghost var p;
      tableIdx, reuse, matched, p := EnterRequest(uid, prompt, outputLen, ignoreEos, now);
      row, cachedLen, path := tableIdx, reuse, p;
      var ok;
      ok, room := GiveSlots(tableIdx, reuse, matched, jobs.Keys, t0, st0, path, now);
      r := if ok then Admitted(tableIdx) else PoolExhausted;
    }

    /** Add a request. On a free row it is admitted exactly when the free slots and those no lock holds are
        enough for what its cached prefix leaves; in a conventionally sized pool, and with a prompt that is
        not cached to its end, they always are. Neither failure is undone: a request without slots stays
        live on a refused row, and one without a row leaves a lock behind. */
    method AddRequest(uid: int, prompt: seq<int>, outputLen: int, ignoreEos: bool, now: int)
      returns (r: AddResult, ghost row: int, ghost cachedLen: nat, ghost path: Path, ghost room: RoomLog)
      requires Sound() && prompt != [] && |prompt| + Max(1, outputLen) <= maxSeqLen
      modifies this`admitted, this`pageTable, this`refused, this`strays, kv,
               scheduler`freeSlots, scheduler`jobs, scheduler.prefillManager`pendingList,
               cache`tree, cache`evictableSize, cache`protectedSize, cache`locks,
               cache.tree.paths.Keys`key, cache.tree.paths.Keys`value, cache.tree.paths.Keys`parent,
               cache.tree.paths.Keys`children, cache.tree.paths.Keys`timestamp, cache.tree.paths.Keys`refCount
      ensures Sound() && fresh(cache.tree.paths.Keys - old(cache.tree.paths.Keys))
      ensures forall p :: p in scheduler.prefillManager.pendingList ==>
                fresh(p) || p in old(scheduler.prefillManager.pendingList)
      ensures if r == NoFreeRow then scheduler.prefillManager.pendingList == old(scheduler.prefillManager.pendingList)
              else old(scheduler.prefillManager.pendingList) < scheduler.prefillManager.pendingList
      ensures Matched(old(cache.tree.pages), prompt, path) && cache.locks == old(cache.locks)[row := path]
      ensures r == NoFreeRow <==> old(scheduler.freeSlots) == []
      ensures if r == NoFreeRow then TurnedAway(old(State()), State(), row, path) && strays == old(strays) + 1
              else && Joined(old(scheduler.freeSlots), old(scheduler.jobs), scheduler.jobs, row, uid, prompt, outputLen,
                             ignoreEos, cachedLen)
                   && cachedLen == Min(|path|, |prompt| - 1) && (r == PoolExhausted || r == Admitted(row))
                   && strays == old(strays)
                   && (r.Admitted? <==> maxSeqLen - cachedLen <= Room(old(State()), row, path))
                   && (AlwaysRoom(old(State()), scheduler.maxRunningReq, prompt) ==> r.Admitted?)
                   && (NeverRoom(old(State()), scheduler.maxRunningReq, prompt) ==> r == PoolExhausted)
      ensures refused == old(refused) + if r == PoolExhausted then {row} else {}
      ensures if r == NoFreeRow then pageTable == old(pageTable) else TableBut(old(pageTable), pageTable, row)
      ensures Walked(old(cache.tree), room.tree, old(cache.NodeStamps()), room.stamps, path, now)
      ensures r != NoFreeRow ==>
                MadeRoom(room.tree, cache.tree, cache.locks, room.stamps, room.log, old(|kv.freeSlots|),
                         maxSeqLen - cachedLen)
      ensures r != NoFreeRow && maxSeqLen - cachedLen <= old(|kv.freeSlots|) ==>
                cache.tree.pages == old(cache.tree.pages)
      ensures r == PoolExhausted ==> OnlyPinned(old(cache.tree.pages), cache.tree.pages, cache.locks)
      ensures Used(old(cache.LastUses()), cache.LastUses(), path, now)
    {
      hide *;
      if scheduler.freeSlots == [] {
        StateIs();
        cache.StampsAre();
        ghost var g, st := State(), cache.NodeStamps();
        row, path := TurnAway(prompt, now);
        StateIs();
        TurnedAwayFacts(g, State(), row, path);
        r, cachedLen, room := NoFreeRow, 0, RoomLog(cache.tree, cache.NodeStamps(), EmptyLog(cache.tree));
        cache.StampsAre();
        UsedStill(g.tree, cache.tree, st, cache.NodeStamps(), cache.LastUses(), path, now);
      } else {
        r, row, cachedLen, path, room := Admit(uid, prompt, outputLen, ignoreEos, now);
      }
    }

    /** The handle that the live request meant by `uid` holds. */
    method FindCacheHandle(uid: int) returns (handle: Option<RadixCacheHandle>)
      requires scheduler.Valid()
      ensures var row := TargetRow(scheduler.prefillManager.pendingList, scheduler.decodeManager.runningReqs, uid);
              if row == None then handle == None
              else row.value in scheduler.jobs && handle == Some(scheduler.jobs[row.value].handle)
    {
      hide *;
      scheduler.Facts();
      scheduler.MidwayFacts();
      var line, running := scheduler.prefillManager.pendingList, scheduler.decodeManager.runningReqs;
      TargetIs(line, running, uid);
      var i, k := FindPending(line, uid), FindRunning(running, uid);
      if i < |line| {
        QueuedHandle(line, scheduler.jobs, i);
        handle := Some(if line[i].chunkedReq != null then line[i].chunkedReq.cacheHandle else line[i].cacheHandle);
      } else if k < |running| {
        RunningHandle(running, scheduler.jobs, scheduler.eos, k);
        handle := Some(running[k].cacheHandle);
      } else {
        handle := None;
      }
    }

    /** Unlock the prefix of a live request and take it off the scheduler. */
    method DropRequest(uid: int, ghost g: Ledger) returns (ok: bool, ghost row: Option<int>)
      requires scheduler.Valid() && cache.Valid() && Shaped() && g == State() && LedgerOk(g, scheduler.jobs.Keys)
      modifies scheduler`freeSlots, scheduler`jobs, scheduler.prefillManager`pendingList,
               scheduler.decodeManager`runningReqs,
               cache`evictableSize, cache`protectedSize, cache`locks, cache.tree.paths.Keys`refCount
      ensures scheduler.Valid() && cache.Valid() && Shaped() && ok == row.Some?
      ensures row == old(TargetRow(scheduler.prefillManager.pendingList, scheduler.decodeManager.runningReqs, uid))
      ensures if row == None then State() == g
              else row.value in g.jobs && g.jobs[row.value].uid == uid && State() == Unqueued(g, row.value)
      ensures row == None <==> forall r :: r in old(scheduler.jobs) ==> old(scheduler.jobs)[r].uid != uid
      ensures forall p :: p in scheduler.prefillManager.pendingList ==> p in old(scheduler.prefillManager.pendingList)
      ensures forall r :: r in scheduler.decodeManager.runningReqs ==> r in old(scheduler.decodeManager.runningReqs)
    {
      hide *;
      StateIs();
      ShapedFacts();
      row := TargetRow(scheduler.prefillManager.pendingList, scheduler.decodeManager.runningReqs, uid);
      var handle := FindCacheHandle(uid);
      if handle.Some? {
        LockedHandle(g, row.value, scheduler.jobs.Keys);
        cache.LockHandle(handle.value, true, row.value);
      }
      ok, row := scheduler.Abort(uid);
      StateIs();
      StillShaped();
      if row.Some? {
        UnqueuedIs(g, row.value);
      }
    }

    /** Drop the bookkeeping of a row that is given up. */
    method ForgetRow(row: int, ghost more: multiset<int>)
      modifies this`fullIds, this`admitted, this`refused, this`surplus
      ensures fullIds == old(fullIds) - {row} && admitted == old(admitted) - {row}
      ensures refused == old(refused) - {row} && surplus == old(surplus) + more
    {
      fullIds, admitted := fullIds - {row}, admitted - {row};
      refused, surplus := refused - {row}, surplus + more;
    }

    /** Drop the bookkeeping of the only row in `rows` and free its slots. */
    method GiveUp(rows: seq<int>)
      requires |rows| == 1
      modifies this`fullIds, this`admitted, this`refused, this`surplus, kv
      ensures fullIds == old(fullIds) - {rows[0]} && admitted == old(admitted) - {rows[0]}
      ensures refused == old(refused) - {rows[0]} && surplus == old(surplus) && kv.alloc == old(kv.alloc) - {rows[0]}
      ensures Stock(kv.freeSlots, kv.alloc) == old(Stock(kv.freeSlots, kv.alloc))
      ensures if rows[0] in old(kv.alloc)
                 then multiset(kv.freeSlots) == multiset(old(kv.freeSlots)) + multiset(old(kv.alloc)[rows[0]])
              else kv.freeSlots == old(kv.freeSlots)
    {
      hide *;
      FreeRows(kv, rows);
      assert (set r | r in rows) == {rows[0]};
      ForgetRow(rows[0], multiset{});
      assert surplus == old(surplus);
    }

    /** Free the slots of the row that the scheduler just took back. */
    method FreeDropped(before: seq<int>, ghost g: Ledger, ghost jobs: Jobs, ghost row: int)
      requires LedgerOk(g, jobs.Keys) && g.jobs == jobs && row in jobs && g.admitted.Keys == jobs.Keys
               && Ticketed(g.locks, jobs.Keys, strays)
      requires scheduler.Valid() && cache.Valid() && Shaped() && RowsOk(before, jobs, scheduler.maxRunningReq)
      requires State() == Unqueued(g, row)
      requires HistoryOk(fullIds, jobs) && Shared(g.free, g.alloc, g.tree.pages, g.numSlots, g.surplus)
      modifies this`fullIds, this`admitted, this`refused, this`surplus, kv
      ensures Sound() && GivenUp(g, State(), row)
    {
      hide *;
      StateIs();
      UnqueuedIs(g, row);
      ShapedFacts();
      FreeRowsOk();
      FreedByAbort(before, jobs, scheduler.maxRunningReq, row, scheduler.freeSlots);
      var rows := NewlyFree(scheduler.freeSlots, before);
      JustOne(rows, row);
      OwnsSlots(g, row, jobs.Keys);
      GiveUp(rows);
      HistoryDropped(old(fullIds), jobs, row);
      StateIs();
      StillShaped();
      DropAborted(g, jobs, row);
      IsGivenUp(g, State(), row);
    }

    /** Drop a request in any phase: its prefix is unlocked and its slots, if it has any, are free again.
        Aborting is the way out of a failed admission: without refused rows everything is as it should be. */
    method AbortRequest(uid: int) returns (ok: bool, ghost row: Option<int>)
      requires Sound()
      modifies this`fullIds, this`admitted, this`refused, this`surplus, kv,
               scheduler`freeSlots, scheduler`jobs, scheduler.prefillManager`pendingList,
               scheduler.decodeManager`runningReqs, cache`evictableSize, cache`protectedSize, cache`locks,
               cache.tree.paths.Keys`refCount
      ensures Sound() && ok == row.Some?
      ensures row == old(TargetRow(scheduler.prefillManager.pendingList, scheduler.decodeManager.runningReqs, uid))
      ensures row == None <==> forall r :: r in old(scheduler.jobs) ==> old(scheduler.jobs)[r].uid != uid
      ensures row == None ==> State() == old(State())
      ensures row.Some? ==>
                row.value in old(scheduler.jobs) && old(scheduler.jobs)[row.value].uid == uid
                  && GivenUp(old(State()), State(), row.value)
      ensures forall p :: p in scheduler.prefillManager.pendingList ==> p in old(scheduler.prefillManager.pendingList)
      ensures forall r :: r in scheduler.decodeManager.runningReqs ==> r in old(scheduler.decodeManager.runningReqs)
    {
      hide *;
      Facts();
      SharingFacts(scheduler.jobs.Keys);
      StateIs();
      ghost var g, jobs := State(), scheduler.jobs;
      var before := scheduler.freeSlots;
      FreeRowsOk();
      ok, row := DropRequest(uid, g);
      if ok {
        FreeDropped(before, g, jobs, row.value);
      } else {
        StateIs();
        SoundWith(scheduler.jobs.Keys);
      }
    }

    lemma ShapedFacts()
      requires Shaped()
      ensures scheduler.eos == eos && cache.pageSize == 1 && kv.pageSize == 1
              && |pageTable| == scheduler.maxRunningReq + 1
      ensures forall i :: 0 <= i < |pageTable| ==> |pageTable[i]| == maxSeqLen
    {}

    lemma FreeRowsOk()
      requires scheduler.Valid()
      ensures RowsOk(scheduler.freeSlots, scheduler.jobs, scheduler.maxRunningReq)
    {}

    lemma DropAborted(g: Ledger, jobs: Jobs, row: int)
      requires LedgerOk(g, jobs.Keys) && g.jobs == jobs && row in jobs && g.admitted.Keys == jobs.Keys
               && Ticketed(g.locks, jobs.Keys, strays)
      requires scheduler.Valid() && cache.Valid() && Shaped() && scheduler.jobs == jobs - {row}
      requires State() == Ledger(jobs - {row}, g.tree, g.locks - {row}, g.table, kv.freeSlots, g.alloc - {row},
                                 g.admitted - {row}, g.maxLen, g.numSlots, g.refused - {row}, g.surplus)
      requires Shared(g.free, g.alloc, g.tree.pages, g.numSlots, g.surplus)
               && Stock(kv.freeSlots, g.alloc - {row}) == Stock(g.free, g.alloc)
      requires HistoryOk(fullIds, jobs - {row})
      ensures Sound()
    {
      hide *;
      StateIs();
      SharedMoves(g.free, g.alloc, g.tree.pages, kv.freeSlots, g.alloc - {row}, g.tree.pages, g.numSlots, g.surplus);
      KeepsSame(g.tree.pages, g.locks);
      IsBalanced(State());
      LessSame(jobs, {row});
      SameHandles(g, jobs.Keys);
      RowDropped(g, State(), jobs.Keys, row);
      RowInTable(g, jobs.Keys, row);
      TicketedLess(g.locks, jobs.Keys, strays, row);
      assert jobs.Keys - {row} == scheduler.jobs.Keys;
      IsSharing(scheduler.jobs.Keys);
      IsSound();
    }

    /** Give the complete requests of a scheduled batch their tokens. */
    method NoteStep(batch: Batch, sample: nat -> int, ghost jobs: Jobs, ghost mid: Jobs)
      returns (finished: seq<Req>, ghost noted: Jobs)
      requires scheduler.Midway() && scheduler.eos == eos && scheduler.jobs == mid && batch.reqs != []
      requires BatchOk(batch, scheduler.decodeManager.runningReqs, mid, eos)
      requires RunningOk(scheduler.decodeManager.runningReqs, jobs, eos)
               && RunningOk(scheduler.decodeManager.runningReqs, mid, eos)
      requires if batch.prefill then Granted(batch.reqs, jobs, mid, scheduler.maxExtendTokens)
                                     && 0 < TotalExtend(batch.reqs) <= scheduler.maxExtendTokens
               else mid == jobs && batch.reqs == SortByUid(scheduler.decodeManager.runningReqs)
      requires AtRest(jobs, eos) && HistoryOk(fullIds, jobs)
      modifies this`fullIds, scheduler`jobs, Plain(batch.reqs)
      ensures scheduler.Midway() && scheduler.jobs == noted && HistoryOk(fullIds, noted)
      ensures Noted(batch.reqs, scheduler.decodeManager.runningReqs, noted, eos)
      ensures StepRel(batch, sample, jobs, mid, noted, scheduler.maxExtendTokens)
      ensures SameJobs(jobs, noted, jobs.Keys) && noted.Keys == jobs.Keys
      ensures Distinct(finished) && forall r :: r in finished <==> r in Plain(batch.reqs) && r.aborted
      ensures ReqRows(finished) == Among(ReqRows(batch.reqs), OverRows(noted, eos))
    {
      hide *;
      scheduler.MidwayFacts();
      ghost var line, running, ext := scheduler.prefillManager.pendingList, scheduler.decodeManager.runningReqs,
      scheduler.maxExtendTokens;
      ScheduledFacts(batch, line, running, jobs, mid, ext, eos, fullIds);
      var history;
      finished, history, noted := NoteBatch(batch, sample, eos, fullIds, running, mid, ext);
      QueueKept(line, mid, noted);
      fullIds, scheduler.jobs := history, noted;
      StepDone(batch, sample, jobs, mid, noted, ext);
      AreSame(jobs, noted);
      scheduler.IsMidway();
    }

    /** Schedule a batch and give its complete requests their tokens. */
    method ScheduleAndNote(sample: nat -> int)
      returns (batch: Option<Batch>, finished: seq<Req>, inputs: Inputs, ghost mid: Jobs, ghost noted: Jobs)
      requires scheduler.Valid() && scheduler.eos == eos && HistoryOk(fullIds, scheduler.jobs)
      modifies this`fullIds, scheduler`jobs, scheduler.prefillManager`pendingList,
               (set p | p in scheduler.prefillManager.pendingList)`chunkedReq,
               set r | r in scheduler.decodeManager.runningReqs
      ensures batch == None ==>
                scheduler.Valid() && scheduler.jobs == old(scheduler.jobs) == noted
                  && HistoryOk(fullIds, scheduler.jobs)
      ensures batch.Some? ==>
                && scheduler.Midway() && scheduler.jobs == noted && HistoryOk(fullIds, noted)
                && Noted(batch.value.reqs, scheduler.decodeManager.runningReqs, noted, eos)
                && StepRel(batch.value, sample, old(scheduler.jobs), mid, noted, scheduler.maxExtendTokens)
                && SameJobs(old(scheduler.jobs), noted, old(scheduler.jobs).Keys)
                && noted.Keys == old(scheduler.jobs).Keys
                && Distinct(finished) && (forall r :: r in finished <==> r in Plain(batch.value.reqs) && r.aborted)
                && FedExactly(inputs, batch.value.reqs, old(scheduler.jobs), noted)
                && ReqRows(finished) == Among(ReqRows(batch.value.reqs), OverRows(noted, eos))
      ensures forall p :: p in scheduler.prefillManager.pendingList ==> p in old(scheduler.prefillManager.pendingList)
      ensures batch.Some? ==> forall r :: r in batch.value.reqs ==>
                fresh(r) || r in old(scheduler.decodeManager.runningReqs)
      ensures scheduler.maxExtendTokens > 0
              && old(FitsAlone(scheduler.prefillManager.pendingList, scheduler.cacheBudget)) ==>
                (batch == None <==> old(scheduler.jobs) == map[])
      ensures batch.Some? && batch.value.prefill <==>
              old(Prefills(scheduler.jobs, scheduler.maxExtendTokens,
                           Inflight(scheduler.jobs, scheduler.decodeManager.pageSize), scheduler.cacheBudget))
      ensures batch == None <==>
              old(NothingToDo(scheduler.jobs, scheduler.maxExtendTokens,
                              Inflight(scheduler.jobs, scheduler.decodeManager.pageSize), scheduler.cacheBudget))
    {
      hide *;
      ghost var jobs, running, ext := scheduler.jobs, scheduler.decodeManager.runningReqs, scheduler.maxExtendTokens;
      scheduler.Facts();
      scheduler.MidwayFacts();
      ghost var grants;
      batch, grants := scheduler.Schedule();
      mid, noted, finished, inputs := scheduler.jobs, scheduler.jobs, [], Inputs([], [], [], []);
      if batch.Some? {
        BatchFeeds(batch.value, running, jobs, mid, ext, eos);
        inputs := ForwardInputs(batch.value, FedNow(jobs), FedNext(mid), mid);
        scheduler.MidwayFacts();
        ScheduledFacts(batch.value, scheduler.prefillManager.pendingList, running, jobs, mid, ext, eos, fullIds);
        finished, noted := NoteStep(batch.value, sample, jobs, mid);
        StepFeeds(inputs, batch.value, sample, jobs, mid, noted, ext, eos);
      }
    }

    /** The same, with what it means for the slots. */
    method RunBatch(sample: nat -> int)
      returns (batch: Option<Batch>, finished: seq<Req>, inputs: Inputs, ghost mid: Jobs, ghost noted: Jobs)
      requires Sound()
      modifies this`fullIds, scheduler`jobs, scheduler.prefillManager`pendingList,
               (set p | p in scheduler.prefillManager.pendingList)`chunkedReq,
               set r | r in scheduler.decodeManager.runningReqs
      ensures State() == old(State()).(jobs := noted) && cache.LastUses() == old(cache.LastUses())
      ensures batch == None ==> Sound() && scheduler.jobs == old(scheduler.jobs) == noted
      ensures batch.Some? ==>
                && scheduler.Midway() && scheduler.jobs == noted && HistoryOk(fullIds, noted) && Sharing(noted.Keys)
                && Noted(batch.value.reqs, scheduler.decodeManager.runningReqs, noted, eos)
                && StepRel(batch.value, sample, old(scheduler.jobs), mid, noted, scheduler.maxExtendTokens)
                && noted.Keys == old(scheduler.jobs).Keys
                && Distinct(finished) && (forall r :: r in finished <==> r in Plain(batch.value.reqs) && r.aborted)
                && FedExactly(inputs, batch.value.reqs, old(scheduler.jobs), noted)
                && ReqRows(finished) == Among(ReqRows(batch.value.reqs), OverRows(noted, eos))
      ensures forall p :: p in scheduler.prefillManager.pendingList ==> p in old(scheduler.prefillManager.pendingList)
      ensures batch.Some? ==> forall r :: r in batch.value.reqs ==>
                fresh(r) || r in old(scheduler.decodeManager.runningReqs)
      ensures scheduler.maxExtendTokens > 0 && JobsFit(old(scheduler.jobs), scheduler.cacheBudget) ==>
                (batch == None <==> old(scheduler.jobs) == map[])
      ensures batch.Some? && batch.value.prefill <==>
              old(Prefills(scheduler.jobs, scheduler.maxExtendTokens,
                           Inflight(scheduler.jobs, scheduler.decodeManager.pageSize), scheduler.cacheBudget))
      ensures batch == None <==>
              old(NothingToDo(scheduler.jobs, scheduler.maxExtendTokens,
                              Inflight(scheduler.jobs, scheduler.decodeManager.pageSize), scheduler.cacheBudget))
    {
      hide *;
      Facts();
      SharingFacts(scheduler.jobs.Keys);
      StateIs();
      ghost var g := State();
      QueueFits();
      batch, finished, inputs, mid, noted := ScheduleAndNote(sample);
      StateIs();
      StillShaped();
      AfterBatch(g, noted, batch.Some?);
    }

    lemma AfterBatch(g: Ledger, noted: Jobs, ran: bool)
      requires LedgerOk(g, g.jobs.Keys) && g.admitted.Keys == g.jobs.Keys == noted.Keys
               && Ticketed(g.locks, g.jobs.Keys, strays)
      requires State() == Ledger(noted, g.tree, g.locks, g.table, g.free, g.alloc, g.admitted, g.maxLen, g.numSlots,
                                 g.refused, g.surplus)
      requires cache.Valid() && Shaped() && (if ran then SameJobs(g.jobs, noted, g.jobs.Keys) else noted == g.jobs)
      ensures Sharing(noted.Keys)
      ensures scheduler.Valid() && HistoryOk(fullIds, noted) ==> Sound()
    {
      hide *;
      StateIs();
      if ran {
        JobsMove(g, noted, noted.Keys);
      }
      IsSharing(noted.Keys);
      if scheduler.Valid() && HistoryOk(fullIds, noted) {
        IsSound();
      }
    }

    /** Commit one finished request: unlock its prefix, hand its history to the tree, give up its row. */
    method CommitOne(req: Req, now: int, ghost rows: set<int>) returns (ghost k: nat)
      requires Sharing(rows) && req.tableIdx in rows && req.tableIdx in scheduler.jobs && req.tableIdx in fullIds
      requires req.cacheHandle == scheduler.jobs[req.tableIdx].handle
      requires CommitReady(State(), req.tableIdx, fullIds[req.tableIdx])
      modifies this`fullIds, this`admitted, this`refused, this`surplus, kv,
               cache`tree, cache`evictableSize, cache`protectedSize, cache`locks,
               cache.tree.paths.Keys`key, cache.tree.paths.Keys`value, cache.tree.paths.Keys`parent,
               cache.tree.paths.Keys`children, cache.tree.paths.Keys`timestamp, cache.tree.paths.Keys`refCount
      ensures Sharing(rows - {req.tableIdx}) && fullIds == old(fullIds) - {req.tableIdx}
      ensures refused == old(refused) - {req.tableIdx} && surplus == old(surplus) + Excess(old(State()), req.tableIdx)
      ensures fresh(cache.tree.paths.Keys - old(cache.tree.paths.Keys)) && pageTable == old(pageTable)
      ensures cache.locks == old(cache.locks) - {req.tableIdx}
      ensures 0 <= req.tableIdx < |pageTable| && |old(fullIds)[req.tableIdx]| <= |pageTable[req.tableIdx]|
      ensures Taken(old(cache.tree.pages), cache.tree.pages, old(fullIds)[req.tableIdx], pageTable[req.tableIdx], k)
      ensures Used(old(cache.LastUses()), cache.LastUses(), Pages(old(fullIds)[req.tableIdx], 1), now)
    {
      hide *;
      SharingFacts(rows);
      ShapedFacts();
      StateIs();
      ghost var g := State();
      var row := req.tableIdx;
      CommitFacts(g, row, fullIds[row]);
      var full, a := fullIds[row], admitted[row];
      k := CommitRow(cache, kv, row, req.cacheHandle, full, pageTable[row], a, now, g);
      ForgetRow(row, Excess(g, row));
      StateIs();
      StillShaped();
      Committed(g, rows, row);
    }

    lemma Committed(g: Ledger, rows: set<int>, row: int)
      requires LedgerOk(g, rows) && row in rows && g.admitted.Keys == rows && Ticketed(g.locks, rows, strays)
               && cache.Valid() && Shaped()
      requires State() == Ledger(g.jobs, cache.tree, g.locks - {row}, g.table, kv.freeSlots, g.alloc - {row},
                                 g.admitted - {row}, g.maxLen, g.numSlots, g.refused - {row},
                                 g.surplus + Excess(g, row))
      requires Shared(kv.freeSlots, g.alloc - {row}, cache.tree.pages, g.numSlots, g.surplus + Excess(g, row))
      requires PathsKept(g.tree, cache.tree) && Keeps(g.tree.pages, g.locks, cache.tree.pages)
      ensures Sharing(rows - {row})
    {
      hide *;
      StateIs();
      IsBalanced(State());
      RowsHaveJobs(g, rows);
      PathsKeptHandles(g, cache.tree, rows);
      RowDropped(g, State(), rows, row);
      RowInTable(g, rows, row);
      TicketedLess(g.locks, rows, strays, row);
      IsSharing(rows - {row});
    }

    /** The next of the finished requests, with the record of what the commits did so far. */
    method CommitNext(finished: seq<Req>, i: nat, now: int, ghost rows: set<int>, ghost was: Ledger,
                      ghost hist: map<int, seq<int>>, ghost uses: map<Path, int>)
      requires i < |finished| && Sharing(rows - RowsIn(finished, i)) && fullIds == hist - RowsIn(finished, i)
      requires Committable(finished[i..], rows - RowsIn(finished, i), scheduler.jobs, fullIds, maxSeqLen)
      requires CommittedSoFar(was, State(), hist, RowsIn(finished, i))
      requires FirstServed(was.tree.pages, cache.tree.pages, hist, was.table, ReqRows(finished)[..i])
      requires UsedAll(uses, cache.LastUses(), HistoryPaths(hist, RowsIn(finished, i)), now)
      modifies this`fullIds, this`admitted, this`refused, this`surplus, kv,
               cache`tree, cache`evictableSize, cache`protectedSize, cache`locks,
               cache.tree.paths.Keys`key, cache.tree.paths.Keys`value, cache.tree.paths.Keys`parent,
               cache.tree.paths.Keys`children, cache.tree.paths.Keys`timestamp, cache.tree.paths.Keys`refCount
      ensures Sharing(rows - RowsIn(finished, i + 1)) && fullIds == hist - RowsIn(finished, i + 1)
      ensures Committable(finished[i + 1..], rows - RowsIn(finished, i + 1), scheduler.jobs, fullIds, maxSeqLen)
      ensures CommittedSoFar(was, State(), hist, RowsIn(finished, i + 1))
      ensures FirstServed(was.tree.pages, cache.tree.pages, hist, was.table, ReqRows(finished)[..i + 1])
      ensures UsedAll(uses, cache.LastUses(), HistoryPaths(hist, RowsIn(finished, i + 1)), now)
      ensures fresh(cache.tree.paths.Keys - old(cache.tree.paths.Keys))
    {
      hide *;
      ghost var left, g := rows - RowsIn(finished, i), State();
      SharingFacts(left);
      StateIs();
      FirstCommittable(finished[i..], left, State(), fullIds);
      RestCommittable(finished[i..], left, scheduler.jobs, fullIds, maxSeqLen);
      RowsInMore(finished, i, rows, hist);
      NotYet(finished, i, hist, fullIds);
      ghost var r, row := cache.LastUses(), finished[i].tableIdx;
      ghost var k := CommitOne(finished[i], now, left);
      HistoryPathsMore(hist, RowsIn(finished, i), row);
      UsedMore(uses, r, cache.LastUses(), HistoryPaths(hist, RowsIn(finished, i)), Pages(hist[row], 1), now);
      StateIs();
      CommittedMore(was, g, State(), hist, RowsIn(finished, i), finished[i].tableIdx, k);
      FirstServedMore(was, g, cache.tree.pages, hist, finished, i, k);
    }

    method CommitFinished(finished: seq<Req>, now: int, ghost rows: set<int>)
      requires Sharing(rows) && Committable(finished, rows, scheduler.jobs, fullIds, maxSeqLen)
      modifies this`fullIds, this`admitted, this`refused, this`surplus, kv,
               cache`tree, cache`evictableSize, cache`protectedSize, cache`locks,
               cache.tree.paths.Keys`key, cache.tree.paths.Keys`value, cache.tree.paths.Keys`parent,
               cache.tree.paths.Keys`children, cache.tree.paths.Keys`timestamp, cache.tree.paths.Keys`refCount
      ensures Sharing(rows - RowsOf(set r | r in finished)) && fullIds == old(fullIds) - RowsOf(set r | r in finished)
      ensures CommittedSoFar(old(State()), State(), old(fullIds), RowsOf(set r | r in finished))
      ensures FirstServed(old(cache.tree.pages), cache.tree.pages, old(fullIds), old(pageTable), ReqRows(finished))
      ensures UsedAll(old(cache.LastUses()), cache.LastUses(),
                      HistoryPaths(old(fullIds), RowsOf(set r | r in finished)), now)
      ensures fresh(cache.tree.paths.Keys - old(cache.tree.paths.Keys))
    {
      hide *;
      ghost var was, hist := State(), fullIds;
      NoRows(rows, fullIds, finished);
      CommittedNone(was, hist, finished);
      StateIs();
      FirstServedNone(was.tree.pages, hist, was.table, finished);
      ghost var uses := cache.LastUses();
      HistoryPathsNone(hist, finished);
      UsedNone(uses, now);
      for i := 0 to |finished|
        invariant Sharing(rows - RowsIn(finished, i)) && fullIds == hist - RowsIn(finished, i)
        invariant Committable(finished[i..], rows - RowsIn(finished, i), scheduler.jobs, fullIds, maxSeqLen)
        invariant CommittedSoFar(was, State(), hist, RowsIn(finished, i))
        invariant FirstServed(was.tree.pages, cache.tree.pages, hist, was.table, ReqRows(finished)[..i])
        invariant UsedAll(uses, cache.LastUses(), HistoryPaths(hist, RowsIn(finished, i)), now)
        invariant fresh(cache.tree.paths.Keys - old(cache.tree.paths.Keys))
      {
        CommitNext(finished, i, now, rows, was, hist, uses);
      }
      RowsInAll(finished);
      assert ReqRows(finished)[..|finished|] == ReqRows(finished);
    }

    /** The end of a step: the scheduler takes back the rows of finished requests, whose slots are with
        the tree or the free list already. */
    method CompleteStep(batch: Batch, ghost noted: Jobs)
      requires scheduler.Midway() && scheduler.jobs == noted
               && Noted(batch.reqs, scheduler.decodeManager.runningReqs, noted, eos)
      requires Sharing(noted.Keys - OverRows(noted, eos)) && HistoryOk(fullIds, noted - OverRows(noted, eos))
      modifies kv, scheduler`freeSlots, scheduler`jobs, scheduler.decodeManager`runningReqs
      ensures Sound() && scheduler.jobs == noted - OverRows(noted, eos) && kv.freeSlots == old(kv.freeSlots)
      ensures cache.LastUses() == old(cache.LastUses())
      ensures forall r :: r in scheduler.decodeManager.runningReqs ==>
                r in old(scheduler.decodeManager.runningReqs) || r in batch.reqs
    {
      hide *;
      ghost var left := noted.Keys - OverRows(noted, eos);
      SharingFacts(left);
      ShapedFacts();
      scheduler.MidwayFacts();
      StateIs();
      ghost var g := State();
      var before := scheduler.freeSlots;
      scheduler.Complete(batch);
      FreeRowsOk();
      assert left == scheduler.jobs.Keys;
      FreshlyFree(scheduler.jobs, scheduler.maxRunningReq, scheduler.freeSlots, left);
      var rows := NewlyFree(scheduler.freeSlots, before);
      NoneOwned(rows, scheduler.freeSlots, before, left, kv.alloc);
      FreeRows(kv, rows);
      StateIs();
      StillShaped();
      LessSame(noted, OverRows(noted, eos));
      JobsMove(g, noted - OverRows(noted, eos), left);
      assert left == scheduler.jobs.Keys;
      IsSharing(left);
      IsSound();
    }

    /** Commit the requests that ended with this step. */
    method CommitAll(ghost batch: Batch, finished: seq<Req>, now: int, ghost noted: Jobs, ghost uses: map<Path, int>)
      requires cache.LastUses() == uses
      requires scheduler.Midway() && scheduler.jobs == noted
               && Noted(batch.reqs, scheduler.decodeManager.runningReqs, noted, eos)
      requires Sharing(noted.Keys) && HistoryOk(fullIds, noted)
      requires Distinct(finished) && forall r :: r in finished <==> r in Plain(batch.reqs) && r.aborted
      modifies this`fullIds, this`admitted, this`refused, this`surplus, kv,
               cache`tree, cache`evictableSize, cache`protectedSize, cache`locks,
               cache.tree.paths.Keys`key, cache.tree.paths.Keys`value, cache.tree.paths.Keys`parent,
               cache.tree.paths.Keys`children, cache.tree.paths.Keys`timestamp, cache.tree.paths.Keys`refCount
      ensures fresh(cache.tree.paths.Keys - old(cache.tree.paths.Keys))
      ensures JobsFine(noted, scheduler.maxExtendTokens, eos) && RowsOf(set r | r in finished) == OverRows(noted, eos)
      ensures Sharing(noted.Keys - OverRows(noted, eos)) && HistoryOk(fullIds, noted - OverRows(noted, eos))
      ensures CommittedSoFar(old(State()), State(), Histories(noted), OverRows(noted, eos))
      ensures FirstServed(old(State()).tree.pages, cache.tree.pages, Histories(noted), pageTable, ReqRows(finished))
      ensures UsedAll(uses, cache.LastUses(), HistoryPaths(Histories(noted), OverRows(noted, eos)), now)
    {
      hide *;
      SharingFacts(noted.Keys);
      StateIs();
      ghost var was, hist := State(), fullIds;
      scheduler.MidwayFacts();
      BeforeCommits(batch.reqs, scheduler.decodeManager.runningReqs, finished, was, hist, scheduler.maxExtendTokens,
                    eos);
      CommitFinished(finished, now, noted.Keys);
      CommittedAs(was, State(), hist, Histories(noted), OverRows(noted, eos));
      HistoryPathsSame(hist, Histories(noted), OverRows(noted, eos));
      FirstServedSame(was.tree.pages, cache.tree.pages, hist, Histories(noted), pageTable, finished);
    }

    /** Commit the requests that ended with this step, then complete it. */
    method FinishStep(batch: Batch, finished: seq<Req>, now: int, ghost noted: Jobs, ghost uses: map<Path, int>)
      requires cache.LastUses() == uses
      requires scheduler.Midway() && scheduler.jobs == noted
               && Noted(batch.reqs, scheduler.decodeManager.runningReqs, noted, eos)
      requires Sharing(noted.Keys) && HistoryOk(fullIds, noted)
      requires Distinct(finished) && forall r :: r in finished <==> r in Plain(batch.reqs) && r.aborted
      modifies this`fullIds, this`admitted, this`refused, this`surplus, kv,
               scheduler`freeSlots, scheduler`jobs, scheduler.decodeManager`runningReqs,
               cache`tree, cache`evictableSize, cache`protectedSize, cache`locks,
               cache.tree.paths.Keys`key, cache.tree.paths.Keys`value, cache.tree.paths.Keys`parent,
               cache.tree.paths.Keys`children, cache.tree.paths.Keys`timestamp, cache.tree.paths.Keys`refCount
      ensures Sound() && fresh(cache.tree.paths.Keys - old(cache.tree.paths.Keys))
      ensures JobsFine(noted, scheduler.maxExtendTokens, eos) && scheduler.jobs == noted - OverRows(noted, eos)
      ensures RowsOf(set r | r in finished) == OverRows(noted, eos)
      ensures CommittedSoFar(old(State()), State(), Histories(noted), OverRows(noted, eos))
      ensures FirstServed(old(State()).tree.pages, cache.tree.pages, Histories(noted), pageTable, ReqRows(finished))
      ensures UsedAll(uses, cache.LastUses(), HistoryPaths(Histories(noted), OverRows(noted, eos)), now)
      ensures forall r :: r in scheduler.decodeManager.runningReqs ==>
                r in old(scheduler.decodeManager.runningReqs) || r in batch.reqs
    {
      hide *;
      ghost var was := State();
      CommitAll(batch, finished, now, noted, uses);
      StateIs();
      ghost var mid := State();
      CompleteStep(batch, noted);
      StateIs();
      CommittedStill(was, mid, State(), Histories(noted), OverRows(noted, eos));
    }

    /** One engine step. Afterwards slots and rows are shared out as before among the requests that are
        left; those that are over have their history in the tree, backed by the slots their rows mapped it
        to, and the tree got nothing else. A surplus comes up exactly if a refused request ends. */
    method Step(sample: nat -> int, now: int)
      returns (batch: Option<Batch>, finished: seq<Req>, inputs: Inputs, ghost mid: Jobs, ghost noted: Jobs)
      requires Sound()
      modifies this`fullIds, this`admitted, this`refused, this`surplus, kv,
               scheduler`freeSlots, scheduler`jobs, scheduler.prefillManager`pendingList,
               (set p | p in scheduler.prefillManager.pendingList)`chunkedReq,
               scheduler.decodeManager`runningReqs, (set r | r in scheduler.decodeManager.runningReqs),
               cache`tree, cache`evictableSize, cache`protectedSize, cache`locks,
               cache.tree.paths.Keys`key, cache.tree.paths.Keys`value, cache.tree.paths.Keys`parent,
               cache.tree.paths.Keys`children, cache.tree.paths.Keys`timestamp, cache.tree.paths.Keys`refCount
      ensures Sound() && fresh(cache.tree.paths.Keys - old(cache.tree.paths.Keys))
      ensures forall p :: p in scheduler.prefillManager.pendingList ==> p in old(scheduler.prefillManager.pendingList)
      ensures forall r :: r in scheduler.decodeManager.runningReqs ==>
                fresh(r) || r in old(scheduler.decodeManager.runningReqs)
      ensures batch == None ==> scheduler.jobs == noted == old(scheduler.jobs) && State() == old(State())
      ensures batch.Some? ==>
                && StepRel(batch.value, sample, old(scheduler.jobs), mid, noted, scheduler.maxExtendTokens)
                && JobsFine(noted, scheduler.maxExtendTokens, eos) && scheduler.jobs == noted - OverRows(noted, eos)
                && RowsOf(set r | r in finished) == OverRows(noted, eos)
                && ReqRows(finished) == Among(ReqRows(batch.value.reqs), OverRows(noted, eos))
                && FirstServed(old(cache.tree.pages), cache.tree.pages, Histories(noted), pageTable, ReqRows(finished))
                && Adopted(old(cache.tree.pages), cache.tree.pages, Histories(noted), pageTable, OverRows(noted, eos))
                && cache.locks == old(cache.locks) - OverRows(noted, eos)
                && UsedAll(old(cache.LastUses()), cache.LastUses(),
                           HistoryPaths(Histories(noted), OverRows(noted, eos)), now)
                && FedExactly(inputs, batch.value.reqs, old(scheduler.jobs), noted)
      ensures noted.Keys == old(scheduler.jobs).Keys && scheduler.jobs.Keys <= old(scheduler.jobs).Keys
      ensures Accounted(old(refused), old(surplus), refused, surplus, scheduler.jobs.Keys)
      ensures scheduler.maxExtendTokens > 0 && JobsFit(old(scheduler.jobs), scheduler.cacheBudget) ==>
                (batch == None <==> old(scheduler.jobs) == map[])
      ensures batch.Some? && batch.value.prefill <==>
              old(Prefills(scheduler.jobs, scheduler.maxExtendTokens,
                           Inflight(scheduler.jobs, scheduler.decodeManager.pageSize), scheduler.cacheBudget))
      ensures batch == None <==>
              old(NothingToDo(scheduler.jobs, scheduler.maxExtendTokens,
                              Inflight(scheduler.jobs, scheduler.decodeManager.pageSize), scheduler.cacheBudget))
    {
      hide *;
      RefusedLive();
      StateIs();
      ghost var g, jobs, uses := State(), scheduler.jobs, cache.LastUses();
      batch, finished, inputs, mid, noted := RunBatch(sample);
      if batch.Some? {
        FinishStep(batch.value, finished, now, noted, uses);
        StateIs();
        CommittedFacts(g.(jobs := noted), State(), Histories(noted), OverRows(noted, eos));
        RefusedLeft(g.refused, g.surplus, refused, surplus, noted, eos);
      } else {
        StateIs();
        RefusedStay(g.refused, jobs, surplus);
      }
    }

    lemma QueueFits()
      requires scheduler.Valid()
      ensures JobsFit(scheduler.jobs, scheduler.cacheBudget) ==>
                FitsAlone(scheduler.prefillManager.pendingList, scheduler.cacheBudget)
    {
      forall p | p in scheduler.prefillManager.pendingList ensures EntryOk(p, scheduler.jobs) {}
    }

    /** One round of the generate loop: a step, and its tokens collected. */
    method StepAndCollect(sample: nat -> int, now: int, tokens: map<int, seq<int>>, ghost jobs0: Jobs, ghost left: int,
                          ghost taken: nat, ghost sure: bool)
      returns (ended: bool, tokens': map<int, seq<int>>, ghost round: Round)
      requires Sound() && Behind(jobs0, scheduler.jobs, scheduler.maxExtendTokens, taken)
      requires Running(jobs0, scheduler.jobs, tokens, scheduler.maxExtendTokens, eos, scheduler.cacheBudget, left, sure)
      modifies this`fullIds, this`admitted, this`refused, this`surplus, kv,
               scheduler`freeSlots, scheduler`jobs, scheduler.prefillManager`pendingList,
               (set p | p in scheduler.prefillManager.pendingList)`chunkedReq,
               scheduler.decodeManager`runningReqs, (set r | r in scheduler.decodeManager.runningReqs),
               cache`tree, cache`evictableSize, cache`protectedSize, cache`locks,
               cache.tree.paths.Keys`key, cache.tree.paths.Keys`value, cache.tree.paths.Keys`parent,
               cache.tree.paths.Keys`children, cache.tree.paths.Keys`timestamp, cache.tree.paths.Keys`refCount
      ensures Sound() && fresh(cache.tree.paths.Keys - old(cache.tree.paths.Keys))
      ensures Accounted(old(refused), old(surplus), refused, surplus, scheduler.jobs.Keys)
      ensures scheduler.jobs.Keys <= old(scheduler.jobs).Keys
      ensures forall p :: p in scheduler.prefillManager.pendingList ==> p in old(scheduler.prefillManager.pendingList)
      ensures forall r :: r in scheduler.decodeManager.runningReqs ==>
                fresh(r) || r in old(scheduler.decodeManager.runningReqs)
      ensures Behind(jobs0, scheduler.jobs, scheduler.maxExtendTokens, if ended then taken else taken + 1)
      ensures Running(jobs0, scheduler.jobs, tokens', scheduler.maxExtendTokens, eos, scheduler.cacheBudget,
                      if ended then left else left - 1, sure)
      ensures ended && sure ==> scheduler.jobs == map[]
      ensures ended ==> scheduler.jobs == old(scheduler.jobs)
                        && NothingToDo(scheduler.jobs, scheduler.maxExtendTokens,
                                       Inflight(scheduler.jobs, scheduler.decodeManager.pageSize),
                                       scheduler.cacheBudget)
      ensures ended ==> tokens' == tokens
      ensures !ended && BatchApart(round.batch.reqs) ==>
                Collected(round.batch.reqs, |round.batch.reqs|, sample, tokens, tokens')
      ensures !ended ==> scheduler.jobs == round.noted - OverRows(round.noted, eos)
                         && StepRel(round.batch, sample, old(scheduler.jobs), round.mid, round.noted,
                                    scheduler.maxExtendTokens)
    {
      hide *;
      ghost var jobs, ext, fits := scheduler.jobs, scheduler.maxExtendTokens, scheduler.cacheBudget;
      RunFacts(jobs0, jobs, tokens, ext, eos, fits, left, sure);
      var batch, finished, inputs;
      ghost var mid, noted;
      RestAfter();
      JobsAre();
      batch, finished, inputs, mid, noted := Step(sample, now);
      tokens', ended := tokens, batch == None;
      round := Round(Batch([], false), mid, noted);
      if batch.Some? {
        round := Round(batch.value, mid, noted);
        BehindMore(batch.value, sample, jobs0, jobs, mid, noted, ext, eos, taken);
        tokens' := Collect(batch.value.reqs, sample, tokens);
        RestAfter();
        RunStep(batch.value, sample, jobs0, jobs, mid, noted, scheduler.jobs, ext, eos, fits, left, sure, tokens,
                tokens');
      }
    }

    /** The generate loop: at most `budget` steps, or until nothing is pending or decoding. */
    method RunSteps(budget: int, model: (nat, nat) -> int, clock: nat -> int, tokens: map<int, seq<int>>,
                    ghost jobs0: Jobs, ghost sure: bool)
      returns (tokens': map<int, seq<int>>, ghost rounds: seq<Round>)
      requires Sound() && jobs0 == scheduler.jobs
      requires Running(jobs0, scheduler.jobs, tokens, scheduler.maxExtendTokens, eos, scheduler.cacheBudget, budget,
                       sure)
      modifies this`fullIds, this`admitted, this`refused, this`surplus, kv,
               scheduler`freeSlots, scheduler`jobs, scheduler.prefillManager`pendingList,
               (set p | p in scheduler.prefillManager.pendingList)`chunkedReq,
               scheduler.decodeManager`runningReqs, (set r | r in scheduler.decodeManager.runningReqs),
               cache`tree, cache`evictableSize, cache`protectedSize, cache`locks,
               cache.tree.paths.Keys`key, cache.tree.paths.Keys`value, cache.tree.paths.Keys`parent,
               cache.tree.paths.Keys`children, cache.tree.paths.Keys`timestamp, cache.tree.paths.Keys`refCount
      ensures Accounted(old(refused), old(surplus), refused, surplus, scheduler.jobs.Keys)
      ensures Sound() && AllTracked(jobs0, scheduler.jobs, tokens', eos)
      ensures sure ==> scheduler.jobs == map[]
      ensures Behind(jobs0, scheduler.jobs, scheduler.maxExtendTokens, Allowed(budget))
      ensures AreRounds(jobs0, rounds, model, scheduler.maxExtendTokens, eos)
              && scheduler.jobs == After(jobs0, rounds, eos) && |rounds| <= Allowed(budget)
              && OutsAre(jobs0, rounds, tokens')
      ensures |rounds| == Allowed(budget)
              || NothingToDo(scheduler.jobs, scheduler.maxExtendTokens,
                             Inflight(scheduler.jobs, scheduler.decodeManager.pageSize), scheduler.cacheBudget)
    {
      hide *;
      tokens' := tokens;
      var steps: nat := 0;
      ghost var line, running := scheduler.prefillManager.pendingList, scheduler.decodeManager.runningReqs;
      ghost var ext, fits := scheduler.maxExtendTokens, scheduler.cacheBudget;
      var ended := false;
      rounds := [];
      NoRounds(jobs0, model, ext, eos);
      RunFacts(jobs0, jobs0, tokens, ext, eos, fits, budget, sure);
      OutsStart(jobs0, tokens, eos);
      BehindStart(jobs0, ext);
      AllowedIs(budget);
      RefusedLive();
      RefusedStay(refused, jobs0, surplus);
      while steps < budget && !ended
        invariant Accounted(old(refused), old(surplus), refused, surplus, scheduler.jobs.Keys)
        invariant Behind(jobs0, scheduler.jobs, ext, steps) && steps <= Allowed(budget)
        invariant Sound() && Running(jobs0, scheduler.jobs, tokens', ext, eos, fits, budget - steps, sure)
        invariant ended && sure ==> scheduler.jobs == map[]
        invariant AreRounds(jobs0, rounds, model, ext, eos) && scheduler.jobs == After(jobs0, rounds, eos)
        invariant |rounds| == steps && OutsAre(jobs0, rounds, tokens')
        invariant ended ==> NothingToDo(scheduler.jobs, ext,
                                        Inflight(scheduler.jobs, scheduler.decodeManager.pageSize), fits)
        invariant fresh(cache.tree.paths.Keys - old(cache.tree.paths.Keys))
        invariant forall p :: p in scheduler.prefillManager.pendingList ==> p in line
        invariant forall r :: r in scheduler.decodeManager.runningReqs ==> fresh(r) || r in running
        decreases budget - steps, !ended
      {
        var s := steps;
        ghost var r1, s1, live := refused, surplus, scheduler.jobs.Keys;
        ghost var round, was, jobs := Round(Batch([], false), jobs0, jobs0), tokens', scheduler.jobs;
        RunFacts(jobs0, jobs, was, ext, eos, fits, budget - s, sure);
        ended, tokens', round := StepAndCollect(Sampler(model, s), clock(s), tokens', jobs0, budget - s, s, sure);
        steps := if ended then steps else steps + 1;
        if !ended {
          RoundsMore(jobs0, rounds, round, model, ext, eos);
          OutsMore(jobs0, rounds, round, Sampler(model, s), jobs, ext, eos, was, tokens');
          rounds := rounds + [round];
        }
        AccountedMore(old(refused), old(surplus), r1, s1, live, refused, surplus, scheduler.jobs.Keys);
      }
      RunFacts(jobs0, scheduler.jobs, tokens', ext, eos, fits, budget - steps, sure);
      BehindLater(jobs0, scheduler.jobs, ext, steps, Allowed(budget));
    }

    lemma RefusedLive()
      requires Sound()
      ensures refused <= scheduler.jobs.Keys
    {}

    lemma JobsAre()
      requires Sound()
      ensures JobsFine(scheduler.jobs, scheduler.maxExtendTokens, eos)
    {}

    /** Run the queued prompts to completion, or for `maxSteps` steps; the output of each prompt, in
        admission order. `model` gives the token that each step samples for each place in its batch.
        From an empty decode set the default number of steps is enough if it covers the work, which it does
        unless an output length is negative; a prompt that needs more steps than are taken stays live. */
    method Generate(maxSteps: Option<int>, model: (nat, nat) -> int, clock: nat -> int)
      returns (outs: seq<seq<int>>, ghost entries: seq<Entry>, ghost rounds: seq<Round>)
      requires Sound()
      modifies this`fullIds, this`admitted, this`refused, this`surplus, kv,
               scheduler`freeSlots, scheduler`jobs, scheduler.prefillManager`pendingList,
               (set p | p in scheduler.prefillManager.pendingList)`chunkedReq,
               scheduler.decodeManager`runningReqs, (set r | r in scheduler.decodeManager.runningReqs),
               cache`tree, cache`evictableSize, cache`protectedSize, cache`locks,
               cache.tree.paths.Keys`key, cache.tree.paths.Keys`value, cache.tree.paths.Keys`parent,
               cache.tree.paths.Keys`children, cache.tree.paths.Keys`timestamp, cache.tree.paths.Keys`refCount
      ensures Sound() && Accounted(old(refused), old(surplus), refused, surplus, scheduler.jobs.Keys)
      ensures |outs| == |entries| == |old(scheduler.prefillManager.pendingList)|
      ensures forall i {:trigger entries[i]} :: 0 <= i < |outs| ==>
                && entries[i].row == old(scheduler.prefillManager.pendingList[i].tableIdx)
                && entries[i].uid == old(scheduler.prefillManager.pendingList)[i].uid
                && (UidsApart(old(scheduler.jobs)) ==>
                    Delivered(old(scheduler.jobs), scheduler.jobs, entries[i].row, outs[i], eos)
                    && outs[i] == LastOut(old(scheduler.jobs), rounds, entries[i].row))
      ensures (maxSteps == None && old(scheduler.prefillManager.pendingList) != []
               && old(Sure(scheduler.prefillManager.pendingList, scheduler.decodeManager.runningReqs, scheduler.jobs,
                           scheduler.maxExtendTokens, scheduler.cacheBudget))) ==>
                scheduler.jobs == map[]
      ensures Behind(old(scheduler.jobs), scheduler.jobs, scheduler.maxExtendTokens, Allowed(old(Steps(maxSteps))))
      ensures AreRounds(old(scheduler.jobs), rounds, model, scheduler.maxExtendTokens, eos)
              && scheduler.jobs == After(old(scheduler.jobs), rounds, eos)
      ensures if old(scheduler.prefillManager.pendingList) == [] then rounds == []
              else |rounds| <= Allowed(old(Steps(maxSteps)))
                   && (|rounds| == Allowed(old(Steps(maxSteps)))
                       || NothingToDo(scheduler.jobs, scheduler.maxExtendTokens,
                                      Inflight(scheduler.jobs, scheduler.decodeManager.pageSize),
                                      scheduler.cacheBudget))
    {
      hide *;
      Facts();
      scheduler.Facts();
      scheduler.MidwayFacts();
      SchedulerEos();
      var line, running := scheduler.prefillManager.pendingList, scheduler.decodeManager.runningReqs;
      entries := QueueEntries(line, scheduler.jobs);
      EntriesSize(entries, line, scheduler.jobs);
      BehindStart(scheduler.jobs, scheduler.maxExtendTokens);
      AllowedIs(Steps(maxSteps));
      BehindLater(scheduler.jobs, scheduler.jobs, scheduler.maxExtendTokens, 0, Allowed(Steps(maxSteps)));
      if |line| == 0 {
        RefusedLive();
        RefusedStay(refused, scheduler.jobs, surplus);
        NoRounds(scheduler.jobs, model, scheduler.maxExtendTokens, eos);
        return [], entries, [];
      }
      var budget := Steps(maxSteps);
      var tokens := NoTokens(line);
      ghost var jobs0, ext, fits := scheduler.jobs, scheduler.maxExtendTokens, scheduler.cacheBudget;
      ghost var sure := maxSteps == None && Sure(line, running, jobs0, ext, fits);
      StepsAre(maxSteps);
      RunStart(line, running, jobs0, tokens, ext, eos, fits, budget, sure);
      tokens, rounds := RunSteps(budget, model, clock, tokens, jobs0, sure);
      DeliveredAll(entries, line, jobs0, scheduler.jobs, tokens, eos);
      if UidsApart(jobs0) {
        OutsAll(entries, line, jobs0, rounds, tokens);
      }
      EntriesSize(entries, line, jobs0);
      assert forall i :: 0 <= i < |line| ==> entries[i].uid == line[i].uid;
      outs := seq(|line|, i requires 0 <= i < |line| && line[i].uid in tokens => tokens[line[i].uid]);
    }

    /** How many steps a run may take. */
    function Steps(maxSteps: Option<int>): int
      reads scheduler.prefillManager, scheduler.decodeManager
    {
      if maxSteps.Some? then maxSteps.value
      else Budget(scheduler.prefillManager.pendingList, scheduler.maxExtendTokens)
             + |scheduler.decodeManager.runningReqs|
    }

    lemma StepsAre(maxSteps: Option<int>)
      ensures maxSteps == None ==>
                Steps(maxSteps) == Budget(scheduler.prefillManager.pendingList, scheduler.maxExtendTokens)
                  + |scheduler.decodeManager.runningReqs|
    {}

    /** From an empty decode set, and with one prompt that fits alone, the default number of steps is
        enough if and only if its output length is not negative or what is done of the prompt makes up
        for it. */
    method GenerateOne(model: (nat, nat) -> int, clock: nat -> int) returns (outs: seq<seq<int>>)
      requires Sound() && scheduler.maxExtendTokens > 0 && JobsFit(scheduler.jobs, scheduler.cacheBudget)
      requires |scheduler.prefillManager.pendingList| == 1 && scheduler.decodeManager.runningReqs == []
      modifies this`fullIds, this`admitted, this`refused, this`surplus, kv,
               scheduler`freeSlots, scheduler`jobs, scheduler.prefillManager`pendingList,
               (set p | p in scheduler.prefillManager.pendingList)`chunkedReq,
               scheduler.decodeManager`runningReqs, (set r | r in scheduler.decodeManager.runningReqs),
               cache`tree, cache`evictableSize, cache`protectedSize, cache`locks,
               cache.tree.paths.Keys`key, cache.tree.paths.Keys`value, cache.tree.paths.Keys`parent,
               cache.tree.paths.Keys`children, cache.tree.paths.Keys`timestamp, cache.tree.paths.Keys`refCount
      ensures Sound()
      ensures scheduler.jobs == map[] <==>
                old(CoveredAlone(scheduler.prefillManager.pendingList, scheduler.jobs, scheduler.maxExtendTokens))
    {
      hide *;
      Facts();
      scheduler.Facts();
      scheduler.MidwayFacts();
      SchedulerEos();
      ghost var line, jobs, ext := scheduler.prefillManager.pendingList, scheduler.jobs, scheduler.maxExtendTokens;
      ghost var row, steps := line[0].tableIdx, Steps(None);
      SureForOne(line, scheduler.decodeManager.runningReqs, jobs, ext, eos, scheduler.cacheBudget);
      StepsAre(None);
      ghost var es, rounds;
      outs, es, rounds := Generate(None, model, clock);
      if !CoversOne(line[0], jobs[row], ext) {
        BehindAt(jobs, scheduler.jobs, ext, Allowed(steps), row);
      }
    }

    lemma SchedulerEos()
      requires Sound()
      ensures scheduler.eos == eos
    {}

    lemma RestAfter()
      requires Sound()
      ensures AtRest(scheduler.jobs, eos)
    {}

    /** No request writes where another one reads: a position that a live row did not reuse has a slot
        that no other live row maps anywhere, and that the prefix tree does not hold. */
    lemma RowIsolated(row: int, pos: nat)
      requires Sound() && surplus == multiset{} && row in scheduler.jobs && row !in refused
      requires scheduler.jobs[row].cached <= pos < maxSeqLen
      ensures 0 <= row < |pageTable| && |pageTable[row]| == maxSeqLen
      ensures 1 <= pageTable[row][pos] < kv.numPages && pageTable[row][pos] !in kv.freeSlots
      ensures forall u :: u in cache.tree.pages ==> pageTable[row][pos] !in cache.tree.pages[u]
      ensures forall other :: other in scheduler.jobs && other != row && other !in refused ==>
                0 <= other < |pageTable| && pageTable[row][pos] !in pageTable[other]
      ensures forall p :: 0 <= p < maxSeqLen && p != pos && p >= scheduler.jobs[row].cached ==>
                pageTable[row][p] != pageTable[row][pos]
    {
      hide *;
      Facts();
      SharingFacts(scheduler.jobs.Keys);
      StateIs();
      RowShape(State(), row, scheduler.jobs.Keys);
      Isolated(State(), scheduler.jobs.Keys, row, pos);
      forall other | other in scheduler.jobs && other != row && other !in refused
        ensures 0 <= other < |pageTable| && pageTable[row][pos] !in pageTable[other]
      {
        IsolatedFrom(State(), scheduler.jobs.Keys, row, pos, other);
      }
    }

    lemma RoomForOne(g: Ledger, jobs: Jobs, row: int, prompt: seq<int>, path: Path, cachedLen: nat, matched: seq<int>)
      requires Entering(jobs.Keys, row, cachedLen, matched) && |jobs| < scheduler.maxRunningReq && prompt != []
      requires g.admitted.Keys == g.jobs.Keys == jobs.Keys && g.tree.pages == cache.tree.pages
      requires g.refused == refused && g.surplus == surplus && g.numSlots == kv.numPages && g.maxLen == maxSeqLen
      requires cache.locks == g.locks[row := path] && admitted == g.admitted[row := cachedLen]
      requires cachedLen == Min(|path|, |prompt| - 1) && IsPrefix(path, Pages(prompt, 1))
               && Cached(cache.tree.pages, path)
      ensures AlwaysRoom(g, scheduler.maxRunningReq, prompt) ==>
                maxSeqLen - cachedLen <= |kv.freeSlots| + cache.evictableSize
    {
      hide Entering, Cached, Pages, IsPrefix, Tokens;
      WholeMatch(path, prompt, cache.tree.pages);
      if AlwaysRoom(g, scheduler.maxRunningReq, prompt) {
        assert cache.locks.Keys == jobs.Keys + {row};
        RoomyRow(jobs, row, cachedLen, matched);
      }
    }

    lemma RoomyRow(jobs: Jobs, row: int, cachedLen: nat, matched: seq<int>)
      requires Entering(jobs.Keys, row, cachedLen, matched) && |jobs| < scheduler.maxRunningReq
      requires kv.numPages > Tokens(scheduler.maxRunningReq, maxSeqLen)
               && cache.locks.Keys == jobs.Keys + {row} == admitted.Keys
      requires refused == {} && surplus == multiset{}
      requires forall r :: r in cache.locks ==> |cache.locks[r]| <= admitted[r]
      ensures maxSeqLen - cachedLen <= |kv.freeSlots| + cache.evictableSize
    {
      hide *;
      EnteringFacts(jobs.Keys, row, cachedLen, matched);
      StateIs();
      OneSlotPages();
      FullRows(State(), jobs.Keys);
      cache.Facts();
      SizesOf(cache.tree.pages, cache.locks, cache.evictableSize, cache.protectedSize);
      ConservedWithout(kv.freeSlots, kv.alloc, cache.tree.pages, kv.numPages, surplus);
      SameSize(kv.alloc, jobs);
      AdmissionFits(kv.freeSlots, kv.alloc, cache.tree, cache.locks, admitted, kv.numPages, scheduler.maxRunningReq,
                    maxSeqLen, row);
    }
  }

  lemma RowInTable(g: Ledger, rows: set<int>, row: int)
    requires LedgerOk(g, rows) && row in rows
    ensures 0 <= row < |g.table|
  {
    assert RowOk(g, row);
  }

  lemma FullRows(g: Ledger, rows: set<int>)
    requires LedgerOk(g, rows) && g.refused == {}
    ensures g.alloc.Keys == rows && forall r :: r in g.alloc ==>
              r in g.admitted && |g.alloc[r]| + g.admitted[r] == g.maxLen
  {
    forall r | r in g.alloc ensures r in g.admitted && |g.alloc[r]| + g.admitted[r] == g.maxLen {
      assert RowOk(g, r);
    }
  }

  lemma SameSize(alloc: map<int, seq<int>>, jobs: Jobs)
    requires alloc.Keys == jobs.Keys
    ensures |alloc| == |jobs|
  {
    assert |alloc| == |alloc.Keys| && |jobs| == |jobs.Keys|;
  }

  /** The request is live on the lowest free row, with its whole prompt still to be scheduled. */
  ghost predicate Joined(freeRows: seq<int>, jobs: Jobs, jobs': Jobs, row: int, uid: int, prompt: seq<int>,
                         outputLen: int, ignoreEos: bool, cachedLen: nat)
  {
    && freeRows != [] && row == freeRows[0] && row !in jobs && row in jobs' && jobs' == jobs[row := jobs'[row]]
    && jobs'[row] == Job(uid, prompt, outputLen, ignoreEos, cachedLen, jobs'[row].handle, [], [])
  }

  lemma IsJoined(freeRows: seq<int>, jobs: Jobs, jobs': Jobs, row: int, j: Job)
    requires freeRows != [] && row == freeRows[0] && row !in jobs && jobs' == jobs[row := j] && j.slices == []
             && j.out == []
    ensures Joined(freeRows, jobs, jobs', row, j.uid, j.prompt, j.outputLen, j.ignoreEos, j.cached) && row in jobs'
  {}

  lemma JoinedFacts(freeRows: seq<int>, jobs: Jobs, jobs': Jobs, row: int, uid: int, prompt: seq<int>, outputLen: int,
                    ignoreEos: bool, cachedLen: nat)
    requires Joined(freeRows, jobs, jobs', row, uid, prompt, outputLen, ignoreEos, cachedLen)
    ensures freeRows != [] && row == freeRows[0] && row !in jobs && row in jobs' && jobs' == jobs[row := jobs'[row]]
    ensures jobs'[row] == Job(uid, prompt, outputLen, ignoreEos, cachedLen, jobs'[row].handle, [], [])
    ensures jobs'.Keys == jobs.Keys + {row}
  {}

  /** `path` is the longest cached prefix of the prompt. */
  ghost predicate Matched(c: map<Path, Page>, prompt: seq<int>, path: Path) {
    IsPrefix(path, Pages(prompt, 1)) && Longest(c, Pages(prompt, 1), |path|) && Cached(c, path)
  }

  lemma IsMatched(c: map<Path, Page>, prompt: seq<int>, path: Path)
    requires IsPrefix(path, Pages(prompt, 1)) && Longest(c, Pages(prompt, 1), |path|) && Cached(c, path)
    ensures Matched(c, prompt, path)
  {}

  /** All that is left of a request without a row is a lock on what it matched, under a ticket that is
      no row. */
  ghost predicate TurnedAway(g: Ledger, g': Ledger, ticket: int, path: Path) {
    ticket < 0 && ticket !in g.locks && g' == g.(tree := g'.tree, locks := g.locks[ticket := path])
      && g'.tree.pages == g.tree.pages
  }

  lemma IsTurnedAway(g: Ledger, g': Ledger, ticket: int, path: Path)
    requires ticket < 0 && ticket !in g.locks && g'.tree.pages == g.tree.pages
    requires g' == Ledger(g.jobs, g'.tree, g.locks[ticket := path], g.table, g.free, g.alloc, g.admitted, g.maxLen,
                          g.numSlots, g.refused, g.surplus)
    ensures TurnedAway(g, g', ticket, path)
  {}

  lemma TurnedAwayFacts(g: Ledger, g': Ledger, ticket: int, path: Path)
    requires TurnedAway(g, g', ticket, path)
    ensures g'.jobs == g.jobs && g'.locks == g.locks[ticket := path] && g'.refused == g.refused
  {}

  lemma RowsInTable(g: Ledger, rows: set<int>)
    requires LedgerOk(g, rows)
    ensures forall row :: row in rows ==> 0 <= row < |g.table|
  {
    forall row | row in rows ensures 0 <= row < |g.table| {
      assert RowOk(g, row);
    }
  }

  lemma StrayOk(g: Ledger, rows: set<int>, t: NodeTree, ticket: int, path: Path)
    requires LedgerOk(g, rows) && ticket !in g.locks && Grown(g.tree, t)
    ensures LedgerOk(g.(tree := t, locks := g.locks[ticket := path]), rows)
  {
    var g' := g.(tree := t, locks := g.locks[ticket := path]);
    assert SameJobs(g.jobs, g'.jobs, rows) by {
      forall r | r in rows ensures r in g.jobs {
        assert RowOk(g, r);
      }
    }
    KeepsSame(g.tree.pages, g.locks);
    LedgerMoves(g, g', rows);
  }

  /** The slots that are free or that no lock would hold if `row` locked `path`. */
  ghost function Room(g: Ledger, row: int, path: Path): nat {
    |g.free| + |Idle(g.tree.pages, g.locks[row := path])|
  }

  lemma RoomIs(g: Ledger, row: int, path: Path)
    ensures Room(g, row, path) == |g.free| + |Idle(g.tree.pages, g.locks[row := path])|
  {}

  /** The pool has more slots than `n` full rows of `m` (slot 0 is padding), and no live lock is longer
      than what its row reuses. */
  ghost predicate Roomy(l: Locks, admitted: map<int, nat>, numSlots: nat, n: nat, m: nat) {
    numSlots > Tokens(n, m) && forall row :: row in l && row in admitted ==> |l[row]| <= admitted[row]
  }

  /** A pool whose slots are shared out, with fewer than `n` live rows. */
  ghost predicate PoolOk(g: Ledger, n: nat) {
    && LedgerOk(g, g.jobs.Keys) && |g.jobs| < n && g.admitted.Keys == g.jobs.Keys
    && forall u :: u in g.tree.pages ==> |g.tree.pages[u]| == 1
  }

  lemma IsPoolOk(g: Ledger, n: nat)
    requires LedgerOk(g, g.jobs.Keys) && |g.jobs| < n && g.admitted.Keys == g.jobs.Keys
    requires forall u :: u in g.tree.pages ==> |g.tree.pages[u]| == 1
    ensures PoolOk(g, n)
  {}

  /** The pool has just one full row, and the prompt is cached to its end. */
  ghost predicate NeverRoom(g: Ledger, n: nat, prompt: seq<int>) {
    && g.refused == {} && g.surplus == multiset{} && g.locks.Keys == g.jobs.Keys
    && n == 1 && g.numSlots == g.maxLen + 1 && Pages(prompt, 1) in g.tree.pages
  }

  /** In a pool of just one full row the two conditions leave nothing open. */
  lemma OneRowPool(g: Ledger, prompt: seq<int>)
    requires PoolOk(g, 1) && g.refused == {} && g.surplus == multiset{} && g.locks.Keys == g.jobs.Keys
             && g.numSlots == g.maxLen + 1
    ensures AlwaysRoom(g, 1, prompt) <==> !NeverRoom(g, 1, prompt)
  {
    EmptyPoolFacts(g, 0, []);
    TokensIs(1, g.maxLen);
  }

  lemma NoRoomForWhole(g: Ledger, n: nat, prompt: seq<int>, row: int, path: Path)
    requires PoolOk(g, n) && NeverRoom(g, n, prompt) && prompt != [] && Cached(g.tree.pages, path)
    requires IsPrefix(path, Pages(prompt, 1)) && Longest(g.tree.pages, Pages(prompt, 1), |path|)
    ensures g.maxLen - Min(|path|, |prompt| - 1) > Room(g, row, path)
  {
    EmptyPoolFacts(g, row, path);
    OnePages(prompt);
    WholePath(path, Pages(prompt, 1), g.tree.pages);
    hide *;
    RoomIs(g, row, path);
    MinIs(|path|, |prompt| - 1);
    WholePromptMatchDoesNotFit(g.free, g.alloc, g.tree, row, path, g.numSlots, g.maxLen);
  }

  lemma EmptyPoolFacts(g: Ledger, row: int, path: Path)
    requires PoolOk(g, 1) && g.surplus == multiset{} && g.locks.Keys == g.jobs.Keys
    ensures g.alloc.Keys == {} && g.locks.Keys == {} && g.locks[row := path] == map[row := path]
    ensures Conserved(g.free, g.alloc, g.tree.pages, g.numSlots) && forall u :: u in g.tree.pages ==>
              |g.tree.pages[u]| == 1
  {
    assert |g.jobs| == |g.jobs.Keys|;
    assert g.jobs.Keys == {};
    assert g.locks[row := path].Keys == {row};
    ConservedWithout(g.free, g.alloc, g.tree.pages, g.numSlots, g.surplus);
  }

  lemma WholePath(path: Path, u: Path, c: map<Path, Page>)
    requires IsPrefix(path, u) && Longest(c, u, |path|)
    ensures |path| <= |u| && (u in c ==> |path| == |u|)
  {
    assert u[..|u|] == u;
  }

  /** The conditions under which an admission is sure to get slots. */
  ghost predicate AlwaysRoom(g: Ledger, n: nat, prompt: seq<int>) {
    && g.refused == {} && g.surplus == multiset{} && g.locks.Keys == g.jobs.Keys
    && Roomy(g.locks, g.admitted, g.numSlots, n, g.maxLen) && Pages(prompt, 1) !in g.tree.pages
  }

  /** The rows on the free list now that were not on it before. */
  method NewlyFree(after: seq<int>, before: seq<int>) returns (rows: seq<int>)
    requires Distinct(after)
    ensures Lists(rows, set r | r in after && r !in before)
  {
    rows := [];
    for i := 0 to |after|
      invariant Lists(rows, set r | r in after[..i] && r !in before)
    {
      assert after[..i + 1] == after[..i] + [after[i]];
      ghost var was := set r | r in after[..i] && r !in before;
      if after[i] !in before {
        assert after[i] !in was;
        ListsMore(rows, was, after[i]);
        rows := rows + [after[i]];
        assert (set r | r in after[..i + 1] && r !in before) == was + {after[i]};
      } else {
        assert (set r | r in after[..i + 1] && r !in before) == was;
      }
    }
    assert after[..|after|] == after;
  }

  /** Release the slots of each of the rows. */
  method FreeRows(kv: MHAKVCache, rows: seq<int>)
    modifies kv
    ensures kv.alloc == old(kv.alloc) - (set r | r in rows)
            && Stock(kv.freeSlots, kv.alloc) == old(Stock(kv.freeSlots, kv.alloc))
    ensures (forall r :: r in rows ==> r !in old(kv.alloc)) ==> kv.freeSlots == old(kv.freeSlots)
    ensures |rows| == 1 && rows[0] in old(kv.alloc) ==>
              multiset(kv.freeSlots) == multiset(old(kv.freeSlots)) + multiset(old(kv.alloc)[rows[0]])
  {
    for i := 0 to |rows|
      invariant kv.alloc == old(kv.alloc) - (set r | r in rows[..i])
      invariant Stock(kv.freeSlots, kv.alloc) == old(Stock(kv.freeSlots, kv.alloc))
      invariant i == 0 || (forall r :: r in rows ==> r !in old(kv.alloc)) ==> kv.freeSlots == old(kv.freeSlots)
      invariant i == 0 ==> kv.freeSlots == old(kv.freeSlots)
      invariant i == 1 == |rows| && rows[0] in old(kv.alloc) ==>
                  multiset(kv.freeSlots) == multiset(old(kv.freeSlots)) + multiset(old(kv.alloc)[rows[0]])
    {
      assert rows[..i + 1] == rows[..i] + [rows[i]];
      kv.Free(rows[i]);
    }
    assert rows[..|rows|] == rows;
  }

  lemma FreedByAbort(before: seq<int>, jobs: Jobs, n: nat, row: int, after: seq<int>)
    requires RowsOk(before, jobs, n) && row in jobs && RowsOk(after, jobs - {row}, n)
    ensures Distinct(after) && (set r | r in after && r !in before) == {row}
  {
    assert row in AllRows(n);
    forall r ensures r in after && r !in before <==> r == row {
      assert r in after <==> r in AllRows(n) - (jobs - {row}).Keys;
      assert r in before <==> r in AllRows(n) - jobs.Keys;
    }
  }

  lemma JustOne(rows: seq<int>, row: int)
    requires Lists(rows, {row})
    ensures rows == [row]
  {
    ListsSize(rows, {row});
    assert rows[0] in rows;
  }

  /** What finished requests need so that each can be committed. */
  ghost predicate Committable(finished: seq<Req>, rows: set<int>, jobs: Jobs, fullIds: map<int, seq<int>>,
                              maxLen: nat) {
    && Distinct(ReqRows(finished))
    && forall r :: r in finished ==>
         && r.tableIdx in rows && r.tableIdx in jobs && r.tableIdx in fullIds
         && r.cacheHandle == jobs[r.tableIdx].handle
         && jobs[r.tableIdx].prompt <= fullIds[r.tableIdx] && |fullIds[r.tableIdx]| <= maxLen
  }

  lemma FirstCommittable(finished: seq<Req>, rows: set<int>, g: Ledger, fullIds: map<int, seq<int>>)
    requires finished != [] && Committable(finished, rows, g.jobs, fullIds, g.maxLen) && LedgerOk(g, rows)
    ensures var r := finished[0];
            r.tableIdx in rows && r.tableIdx in g.jobs && r.tableIdx in fullIds
              && r.cacheHandle == g.jobs[r.tableIdx].handle
            && CommitReady(g, r.tableIdx, fullIds[r.tableIdx])
  {
    assert finished[0] in finished;
    assert RowOk(g, finished[0].tableIdx);
  }

  lemma RestCommittable(finished: seq<Req>, rows: set<int>, jobs: Jobs, fullIds: map<int, seq<int>>, maxLen: nat)
    requires finished != [] && Committable(finished, rows, jobs, fullIds, maxLen)
    ensures var row := finished[0].tableIdx;
            Committable(finished[1..], rows - {row}, jobs, fullIds - {row}, maxLen)
  {
    var all, rest := ReqRows(finished), finished[1..];
    forall r | r in rest ensures r in finished && r.tableIdx != finished[0].tableIdx {
      var k :| 0 <= k < |rest| && rest[k] == r;
      assert finished[k + 1] == r && all[0] != all[k + 1];
    }
    forall i, k | 0 <= i < k < |rest| ensures ReqRows(rest)[i] != ReqRows(rest)[k] {
      assert all[i + 1] != all[k + 1];
    }
  }

  ghost function RowsIn(rs: seq<Req>, n: nat): set<int>
    requires n <= |rs|
  {
    set i | 0 <= i < n :: rs[i].tableIdx
  }

  lemma NoRows(rows: set<int>, fullIds: map<int, seq<int>>, rs: seq<Req>)
    ensures rows - RowsIn(rs, 0) == rows && fullIds - RowsIn(rs, 0) == fullIds && rs[0..] == rs
  {}

  lemma RowsInMore(rs: seq<Req>, n: nat, rows: set<int>, fullIds: map<int, seq<int>>)
    requires n < |rs|
    ensures rows - RowsIn(rs, n + 1) == rows - RowsIn(rs, n) - {rs[n].tableIdx}
    ensures fullIds - RowsIn(rs, n + 1) == fullIds - RowsIn(rs, n) - {rs[n].tableIdx}
    ensures rs[n..][1..] == rs[n + 1..]
  {
    assert RowsIn(rs, n + 1) == RowsIn(rs, n) + {rs[n].tableIdx};
  }

  /** The next row has not been committed yet. */
  lemma NotYet(rs: seq<Req>, n: nat, hist: map<int, seq<int>>, left: map<int, seq<int>>)
    requires n < |rs| && left == hist - RowsIn(rs, n) && rs[n].tableIdx in left
    ensures rs[n].tableIdx !in RowsIn(rs, n) && rs[n].tableIdx in hist && left[rs[n].tableIdx] == hist[rs[n].tableIdx]
    ensures RowsIn(rs, n + 1) == RowsIn(rs, n) + {rs[n].tableIdx} && rs[n..][0] == rs[n]
  {}

  lemma RowsInAll(rs: seq<Req>)
    ensures RowsIn(rs, |rs|) == RowsOf(set r | r in rs)
  {
    forall row ensures row in RowsIn(rs, |rs|) <==> row in RowsOf(set r | r in rs) {
      if row in RowsOf(set r | r in rs) {
        var r :| r in rs && r.tableIdx == row;
        var i :| 0 <= i < |rs| && rs[i] == r;
      }
    }
  }

  /** The surplus after `was`: larger if some refused request was committed, else the same. */
  ghost predicate Grows(was: multiset<int>, now: multiset<int>, hit: bool) {
    if hit then was < now else now == was
  }

  /** Of the refused rows those in `live` are left. The surplus has grown if some other one has ended,
      and else it is the same. */
  ghost predicate Accounted(refused0: set<int>, surplus0: multiset<int>, refused: set<int>, surplus: multiset<int>,
                            live: set<int>) {
    refused == refused0 * live && Grows(surplus0, surplus, !(refused0 <= live))
  }

  lemma RefusedLeft(refused0: set<int>, surplus0: multiset<int>, refused: set<int>, surplus: multiset<int>, noted: Jobs,
                    eos: int)
    requires refused0 <= noted.Keys && refused == refused0 - OverRows(noted, eos)
    requires Grows(surplus0, surplus, refused0 * OverRows(noted, eos) != {})
    ensures (noted - OverRows(noted, eos)).Keys <= noted.Keys
    ensures Accounted(refused0, surplus0, refused, surplus, (noted - OverRows(noted, eos)).Keys)
  {
    var left := (noted - OverRows(noted, eos)).Keys;
    assert refused0 * OverRows(noted, eos) == refused0 - left;
    forall r | r in refused0 && r !in left ensures r in refused0 - left {}
    assert refused0 - OverRows(noted, eos) == refused0 * left;
  }

  lemma RefusedStay(refused0: set<int>, jobs: Jobs, surplus: multiset<int>)
    requires refused0 <= jobs.Keys
    ensures Accounted(refused0, surplus, refused0, surplus, jobs.Keys)
  {
    assert refused0 == refused0 * jobs.Keys;
  }

  lemma AccountedMore(refused0: set<int>, surplus0: multiset<int>, refused1: set<int>, surplus1: multiset<int>,
                      live1: set<int>,
                    refused2: set<int>, surplus2: multiset<int>, live2: set<int>)
    requires Accounted(refused0, surplus0, refused1, surplus1, live1)
             && Accounted(refused1, surplus1, refused2, surplus2, live2)
    requires live2 <= live1
    ensures Accounted(refused0, surplus0, refused2, surplus2, live2)
  {
    assert refused2 == refused0 * live2;
    assert refused0 <= live2 <==> refused0 <= live1 && refused1 <= live2 by {
      if refused0 <= live1 {
        assert refused1 == refused0;
      }
    }
  }

  // ---------------------------------------------------------------- what commits add to the tree

  /** The cached prefix `u` is part of the row's history and backed by the slot that the row maps it to. */
  ghost predicate FromRow(u: Path, page: Page, hist: map<int, seq<int>>, table: seq<seq<int>>, row: int) {
    && row in hist && 0 <= row < |table| && IsPrefix(u, Pages(hist[row], 1))
    && 0 < |u| <= |table[row]| && page == [table[row][|u| - 1]]
  }

  /** The histories of `rows` are cached, whatever was cached keeps its slots, and nothing else came in. */
  ghost predicate Adopted(c: map<Path, Page>, c': map<Path, Page>, hist: map<int, seq<int>>, table: seq<seq<int>>,
                          rows: set<int>) {
    && (forall u {:trigger u in c'} :: u in c ==> u in c' && c'[u] == c[u])
    && (forall row :: row in rows ==> row in hist && Cached(c', Pages(hist[row], 1)))
    && (forall u {:trigger u in c'} :: u in c' && u !in c ==>
        exists row :: row in rows && FromRow(u, c'[u], hist, table, row))
  }

  lemma AdoptedNone(c: map<Path, Page>, hist: map<int, seq<int>>, table: seq<seq<int>>)
    ensures Adopted(c, c, hist, table, {})
  {}

  lemma {:induction false} PageAt(x: seq<int>, i: nat)
    requires i < |x|
    ensures i < |Pages(x, 1)| && Pages(x, 1)[i] == [x[i]]
  {
    if i > 0 {
      PageAt(x[1..], i - 1);
    }
  }

  /** The page that an inserted history has at the end of one of its prefixes. */
  lemma RowPage(full: seq<int>, r: seq<int>, v: Path)
    requires |full| <= |r| && v != [] && IsPrefix(v, Pages(full, 1)) && AlignDown(|full|, 1) == |full|
    ensures 0 < |v| <= |full| == |NewSlots(full, r[..|full|], 1)|
    ensures NewSlots(full, r[..|full|], 1)[|v| - 1] == [r[|v| - 1]]
  {
    var x := r[..|full|];
    OnePages(full);
    OnePages(x);
    assert x[..|full|] == x && |v| <= |full|;
    hide Pages;
    PageAt(x, |v| - 1);
  }

  lemma TakenFacts(c: map<Path, Page>, c': map<Path, Page>, full: seq<int>, r: seq<int>, k: nat)
    requires |full| <= |r| && Taken(c, c', full, r, k)
    ensures AlignDown(|full|, 1) == |full| && Inserted(c, c', Pages(full, 1), NewSlots(full, r[..|full|], 1), k)
  {}

  lemma TakenPage(c: map<Path, Page>, c': map<Path, Page>, full: seq<int>, r: seq<int>, k: nat, v: Path)
    requires |full| <= |r| && Taken(c, c', full, r, k)
    ensures v in c' <==> v in c || (v != [] && IsPrefix(v, Pages(full, 1)))
    ensures v in c ==> c'[v] == c[v]
    ensures v in c' && v !in c ==> 0 < |v| <= |full| && c'[v] == [r[|v| - 1]]
  {
    hide *;
    TakenFacts(c, c', full, r, k);
    InsertedMeans(c, c', Pages(full, 1), NewSlots(full, r[..|full|], 1), k, v);
    if v in c' && v !in c {
      RowPage(full, r, v);
    }
  }

  lemma AdoptedOne(c: map<Path, Page>, c': map<Path, Page>, hist: map<int, seq<int>>, table: seq<seq<int>>, row: int,
                   k: nat)
    requires row in hist && 0 <= row < |table| && |hist[row]| <= |table[row]| && Taken(c, c', hist[row], table[row], k)
    ensures Adopted(c, c', hist, table, {row})
  {
    hide Taken, Pages;
    forall v
      ensures v in c ==> v in c' && c'[v] == c[v]
      ensures v != [] && IsPrefix(v, Pages(hist[row], 1)) ==> v in c'
      ensures v in c' && v !in c ==> FromRow(v, c'[v], hist, table, row)
    {
      TakenPage(c, c', hist[row], table[row], k, v);
    }
  }

  lemma AdoptedMore(a: map<Path, Page>, b: map<Path, Page>, c: map<Path, Page>, hist: map<int, seq<int>>,
                    table: seq<seq<int>>, rows: set<int>, more: set<int>)
    requires Adopted(a, b, hist, table, rows) && Adopted(b, c, hist, table, more)
    ensures Adopted(a, c, hist, table, rows + more)
  {
    hide FromRow;
    forall u | u in a ensures u in c && c[u] == a[u] {
      assert u in b;
    }
    forall row | row in rows ensures Cached(c, Pages(hist[row], 1)) {
      assert Cached(b, Pages(hist[row], 1));
      forall v | v != [] && IsPrefix(v, Pages(hist[row], 1)) ensures v in c {
        assert v in b;
      }
    }
    forall u | u in c && u !in a ensures exists row :: row in rows + more && FromRow(u, c[u], hist, table, row) {
      if u in b {
        var row :| row in rows && FromRow(u, b[u], hist, table, row);
        assert row in rows + more;
      } else {
        var row :| row in more && FromRow(u, c[u], hist, table, row);
        assert row in rows + more;
      }
    }
  }

  lemma AdoptedSame(c: map<Path, Page>, c': map<Path, Page>, hist: map<int, seq<int>>, hist': map<int, seq<int>>,
                    table: seq<seq<int>>, rows: set<int>)
    requires Adopted(c, c', hist, table, rows)
    requires forall row :: row in rows ==> row in hist && row in hist' && hist'[row] == hist[row]
    ensures Adopted(c, c', hist', table, rows)
  {
    forall u | u in c' && u !in c ensures exists row :: row in rows && FromRow(u, c'[u], hist', table, row) {
      var row :| row in rows && FromRow(u, c'[u], hist, table, row);
      assert FromRow(u, c'[u], hist', table, row);
    }
  }

  /** The token histories of the live requests. */
  ghost function Histories(jobs: Jobs): map<int, seq<int>> {
    map row | row in jobs :: jobs[row].prompt + jobs[row].out
  }

  lemma HistoriesAre(fullIds: map<int, seq<int>>, jobs: Jobs, ext: int, eos: int)
    requires HistoryOk(fullIds, jobs) && JobsFine(jobs, ext, eos)
    ensures forall row :: row in OverRows(jobs, eos) ==>
              row in fullIds && row in Histories(jobs) && Histories(jobs)[row] == fullIds[row]
  {
    forall row | row in OverRows(jobs, eos) ensures row in fullIds && fullIds[row] == jobs[row].prompt + jobs[row].out {
      OverIsDecoding(jobs, ext, eos, row);
    }
  }

  /** Who brought what into the tree when the histories of `rows` were committed in this order: a new prefix
      has the slot of the first row whose history begins with it. */
  ghost predicate FirstServed(c: map<Path, Page>, c': map<Path, Page>, hist: map<int, seq<int>>, table: seq<seq<int>>,
                              rows: seq<int>) {
    forall u {:trigger u in c'} :: u in c' && u !in c ==> Served(u, c'[u], hist, table, rows)
  }

  ghost predicate Served(u: Path, page: Page, hist: map<int, seq<int>>, table: seq<seq<int>>, rows: seq<int>) {
    exists i :: 0 <= i < |rows| && FirstWith(u, hist, rows, i) && FromRow(u, page, hist, table, rows[i])
  }

  ghost predicate FirstWith(u: Path, hist: map<int, seq<int>>, rows: seq<int>, i: nat)
    requires i < |rows|
  {
    && rows[i] in hist && IsPrefix(u, Pages(hist[rows[i]], 1))
    && forall j :: 0 <= j < i ==> rows[j] in hist && !IsPrefix(u, Pages(hist[rows[j]], 1))
  }

  lemma FirstServedNone(c: map<Path, Page>, hist: map<int, seq<int>>, table: seq<seq<int>>, rs: seq<Req>)
    ensures FirstServed(c, c, hist, table, ReqRows(rs)[..0])
  {}

  lemma FirstServedMore(was: Ledger, g: Ledger, c': map<Path, Page>, hist: map<int, seq<int>>, rs: seq<Req>, i: nat,
                        k: nat)
    requires i < |rs| && CommittedSoFar(was, g, hist, RowsIn(rs, i)) && rs[i].tableIdx in hist
    requires FirstServed(was.tree.pages, g.tree.pages, hist, was.table, ReqRows(rs)[..i])
    requires var row := rs[i].tableIdx;
             && 0 <= row < |g.table| && |hist[row]| <= |g.table[row]|
             && Taken(g.tree.pages, c', hist[row], g.table[row], k)
    ensures FirstServed(was.tree.pages, c', hist, was.table, ReqRows(rs)[..i + 1])
  {
    hide *;
    CommittedFacts(was, g, hist, RowsIn(rs, i));
    AdoptedOne(g.tree.pages, c', hist, g.table, rs[i].tableIdx, k);
    EarlierCached(was.tree.pages, g.tree.pages, hist, was.table, rs, i);
    ServedNext(was.tree.pages, g.tree.pages, c', hist, was.table, ReqRows(rs), i);
  }

  /** What the rows before have brought is there. */
  lemma EarlierCached(c: map<Path, Page>, c': map<Path, Page>, hist: map<int, seq<int>>, table: seq<seq<int>>,
                      rs: seq<Req>, i: nat)
    requires i <= |rs| && Adopted(c, c', hist, table, RowsIn(rs, i))
    ensures forall j :: 0 <= j < i ==> ReqRows(rs)[j] in hist && Cached(c', Pages(hist[ReqRows(rs)[j]], 1))
  {
    forall j | 0 <= j < i ensures ReqRows(rs)[j] in RowsIn(rs, i) {
      assert ReqRows(rs)[j] == rs[j].tableIdx;
    }
  }

  lemma ServedNext(a: map<Path, Page>, b: map<Path, Page>, c: map<Path, Page>, hist: map<int, seq<int>>,
                   table: seq<seq<int>>, rows: seq<int>, i: nat)
    requires i < |rows| && FirstServed(a, b, hist, table, rows[..i]) && Adopted(b, c, hist, table, {rows[i]})
    requires forall j :: 0 <= j < i ==> rows[j] in hist && Cached(b, Pages(hist[rows[j]], 1))
    ensures FirstServed(a, c, hist, table, rows[..i + 1])
  {
    hide Pages, Served, FromRow, Cached;
    forall u | u in c && u !in a ensures Served(u, c[u], hist, table, rows[..i + 1]) {
      if u in b {
        ServedStill(u, c[u], hist, table, rows, i);
      } else {
        assert FromRow(u, c[u], hist, table, rows[i]);
        ServedNow(b, c[u], hist, table, rows, i, u);
      }
    }
  }

  lemma ServedStill(u: Path, page: Page, hist: map<int, seq<int>>, table: seq<seq<int>>, rows: seq<int>, i: nat)
    requires i < |rows| && Served(u, page, hist, table, rows[..i])
    ensures Served(u, page, hist, table, rows[..i + 1])
  {
    hide Pages, FromRow, IsPrefix;
    var j :| 0 <= j < i && FirstWith(u, hist, rows[..i], j) && FromRow(u, page, hist, table, rows[..i][j]);
    assert FirstWith(u, hist, rows[..i + 1], j) && rows[..i + 1][j] == rows[..i][j];
  }

  lemma ServedNow(b: map<Path, Page>, page: Page, hist: map<int, seq<int>>, table: seq<seq<int>>, rows: seq<int>,
                  i: nat, u: Path)
    requires i < |rows| && u !in b && FromRow(u, page, hist, table, rows[i])
    requires forall j :: 0 <= j < i ==> rows[j] in hist && Cached(b, Pages(hist[rows[j]], 1))
    ensures Served(u, page, hist, table, rows[..i + 1])
  {
    var next := rows[..i + 1];
    hide Pages;
    forall j | 0 <= j < i ensures next[j] in hist && !IsPrefix(u, Pages(hist[next[j]], 1)) {
      assert Cached(b, Pages(hist[rows[j]], 1));
    }
    assert FirstWith(u, hist, next, i);
  }

  lemma FirstServedSame(c: map<Path, Page>, c': map<Path, Page>, hist: map<int, seq<int>>, hist': map<int, seq<int>>,
                        table: seq<seq<int>>, rs: seq<Req>)
    requires FirstServed(c, c', hist, table, ReqRows(rs))
    requires forall row :: row in RowsOf(set r | r in rs) ==> row in hist && row in hist' && hist'[row] == hist[row]
    ensures FirstServed(c, c', hist', table, ReqRows(rs))
  {
    hide Pages;
    var rows := ReqRows(rs);
    forall j | 0 <= j < |rows| ensures rows[j] in RowsOf(set r | r in rs) {
      assert rs[j] in rs && rs[j].tableIdx == rows[j];
    }
    forall u | u in c' && u !in c ensures Served(u, c'[u], hist', table, rows) {
      assert Served(u, c'[u], hist, table, rows);
      var i :| 0 <= i < |rows| && FirstWith(u, hist, rows, i) && FromRow(u, c'[u], hist, table, rows[i]);
      assert FirstWith(u, hist', rows, i) && FromRow(u, c'[u], hist', table, rows[i]);
    }
  }

  /** The paths of the histories of `rows`. */
  ghost function HistoryPaths(hist: map<int, seq<int>>, rows: set<int>): set<Path> {
    set row | row in rows && row in hist :: Pages(hist[row], 1)
  }

  lemma HistoryPathsNone(hist: map<int, seq<int>>, rs: seq<Req>)
    ensures HistoryPaths(hist, RowsIn(rs, 0)) == {}
  {}

  lemma HistoryPathsMore(hist: map<int, seq<int>>, rows: set<int>, row: int)
    requires row in hist
    ensures HistoryPaths(hist, rows + {row}) == HistoryPaths(hist, rows) + {Pages(hist[row], 1)}
  {
    hide Pages;
  }

  lemma HistoryPathsSame(hist: map<int, seq<int>>, hist': map<int, seq<int>>, rows: set<int>)
    requires forall row :: row in rows ==> row in hist && row in hist' && hist'[row] == hist[row]
    ensures HistoryPaths(hist', rows) == HistoryPaths(hist, rows)
  {
    hide Pages;
  }

  /** What committing the rows in `gone` has done since the ledger was `g`. */
  ghost predicate CommittedSoFar(g: Ledger, g': Ledger, hist: map<int, seq<int>>, gone: set<int>) {
    && g'.refused == g.refused - gone && g'.table == g.table && g'.locks == g.locks - gone
    && Grows(g.surplus, g'.surplus, g.refused * gone != {})
    && Adopted(g.tree.pages, g'.tree.pages, hist, g.table, gone)
  }

  lemma CommittedFacts(g: Ledger, g': Ledger, hist: map<int, seq<int>>, gone: set<int>)
    requires CommittedSoFar(g, g', hist, gone)
    ensures g'.refused == g.refused - gone && g'.table == g.table && g'.locks == g.locks - gone
    ensures Grows(g.surplus, g'.surplus, g.refused * gone != {})
    ensures Adopted(g.tree.pages, g'.tree.pages, hist, g.table, gone)
  {}

  /** Only what the map says about the rows in question matters. */
  lemma CommittedAs(g: Ledger, g': Ledger, hist: map<int, seq<int>>, hist': map<int, seq<int>>, gone: set<int>)
    requires CommittedSoFar(g, g', hist, gone)
    requires forall row :: row in gone ==> row in hist && row in hist' && hist'[row] == hist[row]
    ensures CommittedSoFar(g, g', hist', gone)
  {
    hide Adopted;
    AdoptedSame(g.tree.pages, g'.tree.pages, hist, hist', g.table, gone);
  }

  lemma CommittedStill(g: Ledger, mid: Ledger, g': Ledger, hist: map<int, seq<int>>, gone: set<int>)
    requires CommittedSoFar(g, mid, hist, gone)
    requires g'.refused == mid.refused && g'.table == mid.table && g'.surplus == mid.surplus && g'.tree == mid.tree
    requires g'.locks == mid.locks
    ensures CommittedSoFar(g, g', hist, gone)
  {}

  lemma CommittedNone(g: Ledger, hist: map<int, seq<int>>, rs: seq<Req>)
    ensures CommittedSoFar(g, g, hist, RowsIn(rs, 0))
  {
    AdoptedNone(g.tree.pages, hist, g.table);
    assert RowsIn(rs, 0) == {} && g.locks - {} == g.locks;
  }

  lemma CommittedMore(g0: Ledger, g: Ledger, g': Ledger, hist: map<int, seq<int>>, gone: set<int>, row: int, k: nat)
    requires CommittedSoFar(g0, g, hist, gone) && row !in gone && row in hist
    requires g'.refused == g.refused - {row} && g'.surplus == g.surplus + Excess(g, row) && g'.table == g.table
    requires g'.locks == g.locks - {row}
    requires 0 <= row < |g.table| && |hist[row]| <= |g.table[row]| && CommitReady(g, row, hist[row])
    requires Taken(g.tree.pages, g'.tree.pages, hist[row], g.table[row], k)
    ensures CommittedSoFar(g0, g', hist, gone + {row})
  {
    AdoptedOne(g.tree.pages, g'.tree.pages, hist, g.table, row, k);
    AdoptedMore(g0.tree.pages, g.tree.pages, g'.tree.pages, hist, g.table, gone, {row});
    CommitFacts(g, row, hist[row]);
    ExcessIs(g, row);
    GrowsMore(g0.refused, g.refused, gone, row, g0.surplus, g.surplus, Excess(g, row));
  }

  lemma GrowsMore(refused0: set<int>, refused: set<int>, gone: set<int>, row: int, was: multiset<int>,
                  mid: multiset<int>, more: multiset<int>)
    requires refused == refused0 - gone && row !in gone && Grows(was, mid, refused0 * gone != {})
    requires if row in refused then |more| > 0 else more == multiset{}
    ensures Grows(was, mid + more, refused0 * (gone + {row}) != {})
  {
    assert row in refused0 <==> row in refused;
    assert refused0 * (gone + {row}) == refused0 * gone + if row in refused0 then {row} else {};
    assert mid + more >= mid && |mid + more| == |mid| + |more|;
    assert row in refused0 ==> row in refused0 * (gone + {row});
  }

  lemma RowsHaveJobs(g: Ledger, rows: set<int>)
    requires LedgerOk(g, rows)
    ensures SameJobs(g.jobs, g.jobs, rows) && forall row :: SameJobs(g.jobs, g.jobs, rows - {row})
  {
    forall row | row in rows ensures row in g.jobs {
      assert RowOk(g, row);
    }
  }

  lemma EntriesSize(es: seq<Entry>, line: seq<PendingReq>, jobs: Jobs)
    requires EntriesOf(es, line, jobs)
    ensures |es| == |line| && forall i {:trigger es[i]} :: 0 <= i < |line| ==> es[i].uid == line[i].uid
  {}

  lemma {:induction false} InFlat(pages: seq<Page>, s: int)
    ensures s in Flat(pages) ==> exists i :: 0 <= i < |pages| && s in pages[i]
  {
    if pages != [] {
      InFlat(pages[1..], s);
      if i :| 0 <= i < |pages[1..]| && s in pages[1..][i] {
        assert s in pages[i + 1];
      }
    }
  }

  lemma BackingSlots(c: map<Path, Page>, p: Path, s: int)
    requires Cached(c, p) && forall u :: u in c ==> s !in c[u]
    ensures s !in Flat(Backing(c, p))
  {
    InFlat(Backing(c, p), s);
    forall i | 0 <= i < |p| ensures s !in Backing(c, p)[i] {
      assert IsPrefix(p[..i + 1], p);
    }
  }

  lemma RowShape(g: Ledger, row: int, rows: set<int>)
    requires LedgerOk(g, rows) && row in rows && row !in g.refused
    ensures row in g.jobs && row in g.alloc && 0 <= row < |g.table| && |g.table[row]| == g.maxLen
            && g.jobs[row].cached <= g.maxLen
    ensures g.alloc[row] == g.table[row][g.jobs[row].cached..]
  {
    assert RowOk(g, row);
  }

  lemma Isolated(g: Ledger, rows: set<int>, row: int, pos: nat)
    requires LedgerOk(g, rows) && row in rows && row !in g.refused && g.surplus == multiset{} && row in g.jobs
             && g.jobs[row].cached <= pos < g.maxLen
    requires 0 <= row < |g.table| && |g.table[row]| == g.maxLen
    ensures 1 <= g.table[row][pos] < g.numSlots && g.table[row][pos] !in g.free
    ensures forall u :: u in g.tree.pages ==> g.table[row][pos] !in g.tree.pages[u]
    ensures forall r :: r in g.alloc && r != row ==> g.table[row][pos] !in g.alloc[r]
    ensures forall p :: g.jobs[row].cached <= p < g.maxLen && p != pos ==> g.table[row][p] != g.table[row][pos]
  {
    hide *;
    RowShape(g, row, rows);
    LedgerBalanced(g, rows);
    BalancedFacts(g);
    ConservedWithout(g.free, g.alloc, g.tree.pages, g.numSlots, g.surplus);
    var a := g.jobs[row].cached;
    SlotsExclusive(g.free, g.alloc, g.tree.pages, g.numSlots, row, pos - a);
    assert g.alloc[row][pos - a] == g.table[row][pos];
    forall p | a <= p < g.maxLen && p != pos ensures g.table[row][p] != g.table[row][pos] {
      assert g.alloc[row][p - a] == g.table[row][p];
    }
  }

  lemma LedgerBalanced(g: Ledger, rows: set<int>)
    requires LedgerOk(g, rows)
    ensures Balanced(g)
  {}

  lemma IsolatedFrom(g: Ledger, rows: set<int>, row: int, pos: nat, other: int)
    requires LedgerOk(g, rows) && row in rows && row !in g.refused && other !in g.refused && g.surplus == multiset{}
             && row in g.jobs && g.jobs[row].cached <= pos < g.maxLen
    requires 0 <= row < |g.table| && |g.table[row]| == g.maxLen && other in rows && other != row
    ensures 0 <= other < |g.table| && g.table[row][pos] !in g.table[other]
  {
    assert RowOk(g, other);
    Isolated(g, rows, row, pos);
    hide LedgerOk, RowOk, Held;
    var s, r, b := g.table[row][pos], g.table[other], g.jobs[other].cached;
    var whole := Flat(Backing(g.tree.pages, g.locks[other]));
    BackingSlots(g.tree.pages, g.locks[other], s);
    assert r == r[..b] + r[b..] && r[..b] == whole[..b];
  }

  lemma JobsMove(g: Ledger, jobs: Jobs, rows: set<int>)
    requires LedgerOk(g, rows) && SameJobs(g.jobs, jobs, rows)
    ensures LedgerOk(g.(jobs := jobs), rows)
  {
    KeepsSame(g.tree.pages, g.locks);
    SameHandles(g, rows);
    LedgerMoves(g, g.(jobs := jobs), rows);
  }

  lemma FreshlyFree(jobs: Jobs, n: nat, after: seq<int>, left: set<int>)
    requires RowsOk(after, jobs, n) && jobs.Keys == left
    ensures Distinct(after) && forall r :: r in after ==> r !in left
  {
    forall r | r in after ensures r !in left {
      assert r in AllRows(n) - jobs.Keys;
    }
  }

  lemma NoneOwned(rows: seq<int>, after: seq<int>, before: seq<int>, left: set<int>, alloc: map<int, seq<int>>)
    requires Lists(rows, set r | r in after && r !in before) && (forall r :: r in after ==> r !in left)
             && alloc.Keys <= left
    ensures (forall r :: r in rows ==> r !in alloc) && alloc - (set r | r in rows) == alloc
  {}

  /** Every request that ended in this step can be committed, and these are the ones that are over. */
  lemma FinishedCommit(reqs: seq<Req>, running: seq<Req>, finished: seq<Req>, g: Ledger, fullIds: map<int, seq<int>>,
                       ext: int, eos: int)
    requires Noted(reqs, running, g.jobs, eos) && JobsFine(g.jobs, ext, eos) && HistoryOk(fullIds, g.jobs)
    requires LedgerOk(g, g.jobs.Keys) && Distinct(finished)
    requires forall r :: r in finished <==> r in Plain(reqs) && r.aborted
    ensures Committable(finished, g.jobs.Keys, g.jobs, fullIds, g.maxLen)
    ensures RowsOf(set r | r in finished) == OverRows(g.jobs, eos)
  {
    forall r | r in finished
      ensures r.tableIdx in g.jobs && r.tableIdx in fullIds && r.cacheHandle == g.jobs[r.tableIdx].handle
      ensures g.jobs[r.tableIdx].prompt <= fullIds[r.tableIdx] && |fullIds[r.tableIdx]| <= g.maxLen
      ensures r.tableIdx in OverRows(g.jobs, eos)
    {
      FinishedOne(reqs, running, g, fullIds, ext, eos, r);
    }
    forall row | row in OverRows(g.jobs, eos) ensures row in RowsOf(set r | r in finished) {
      OverIsDecoding(g.jobs, ext, eos, row);
      assert row in RowsOf(Stepped(running, reqs));
      var r :| r in Stepped(running, reqs) && r.tableIdx == row;
      SteppedFacts(reqs, running, g.jobs, ext, eos, r);
      assert r in finished;
    }
    var rows := ReqRows(finished);
    forall i, k | 0 <= i < k < |rows| ensures rows[i] != rows[k] {
      assert finished[i] in finished && finished[k] in finished;
      assert finished[i] in Stepped(running, reqs) && finished[k] in Stepped(running, reqs);
    }
  }

  lemma BeforeCommits(reqs: seq<Req>, running: seq<Req>, finished: seq<Req>, g: Ledger, fullIds: map<int, seq<int>>,
                      ext: int, eos: int)
    requires Noted(reqs, running, g.jobs, eos) && JobsFine(g.jobs, ext, eos) && HistoryOk(fullIds, g.jobs)
    requires LedgerOk(g, g.jobs.Keys) && Distinct(finished)
    requires forall r :: r in finished <==> r in Plain(reqs) && r.aborted
    ensures Committable(finished, g.jobs.Keys, g.jobs, fullIds, g.maxLen)
    ensures RowsOf(set r | r in finished) == OverRows(g.jobs, eos)
    ensures HistoryOk(fullIds - OverRows(g.jobs, eos), g.jobs - OverRows(g.jobs, eos))
    ensures forall row :: row in OverRows(g.jobs, eos) ==>
              row in fullIds && row in Histories(g.jobs) && Histories(g.jobs)[row] == fullIds[row]
  {
    hide *;
    FinishedCommit(reqs, running, finished, g, fullIds, ext, eos);
    HistoryLeft(fullIds, g.jobs, eos);
    HistoriesAre(fullIds, g.jobs, ext, eos);
  }

  lemma FinishedOne(reqs: seq<Req>, running: seq<Req>, g: Ledger, fullIds: map<int, seq<int>>, ext: int, eos: int,
                    r: Req)
    requires Noted(reqs, running, g.jobs, eos) && JobsFine(g.jobs, ext, eos) && HistoryOk(fullIds, g.jobs)
    requires LedgerOk(g, g.jobs.Keys) && r in Plain(reqs) && r.aborted
    ensures r.tableIdx in g.jobs && r.tableIdx in fullIds && r.cacheHandle == g.jobs[r.tableIdx].handle
    ensures g.jobs[r.tableIdx].prompt <= fullIds[r.tableIdx] && |fullIds[r.tableIdx]| <= g.maxLen
    ensures r.tableIdx in OverRows(g.jobs, eos)
  {
    SteppedFacts(reqs, running, g.jobs, ext, eos, r);
    assert Fine(g.jobs[r.tableIdx], ext, eos) && RowOk(g, r.tableIdx);
    assert fullIds[r.tableIdx] == g.jobs[r.tableIdx].prompt + g.jobs[r.tableIdx].out;
  }

  lemma HistoryLeft(fullIds: map<int, seq<int>>, jobs: Jobs, eos: int)
    requires HistoryOk(fullIds, jobs)
    ensures HistoryOk(fullIds - OverRows(jobs, eos), jobs - OverRows(jobs, eos))
  {
    var over := OverRows(jobs, eos);
    forall row ensures row in DecodingRows(jobs - over) <==> row in DecodingRows(jobs) - over {}
    forall r | r in fullIds - over ensures (fullIds - over)[r] == (jobs - over)[r].prompt + (jobs - over)[r].out {
      assert fullIds[r] == jobs[r].prompt + jobs[r].out;
    }
  }

  lemma AreSame(jobs: Jobs, jobs': Jobs)
    requires forall row :: row in jobs ==> row in jobs' && SameRequest(jobs[row], jobs'[row])
    ensures SameJobs(jobs, jobs', jobs.Keys)
  {}

  lemma QueuedHandle(line: seq<PendingReq>, jobs: Jobs, i: nat)
    requires QueueOk(line, jobs) && i < |line|
    ensures line[i].tableIdx in jobs && line[i].cacheHandle == jobs[line[i].tableIdx].handle
    ensures line[i].chunkedReq != null ==> line[i].chunkedReq.cacheHandle == jobs[line[i].tableIdx].handle
  {
    QueueFacts(line, jobs, i);
  }

  lemma RunningHandle(running: seq<Req>, jobs: Jobs, eos: int, i: nat)
    requires RunningOk(running, jobs, eos) && i < |running|
    ensures running[i].tableIdx in jobs && running[i].cacheHandle == jobs[running[i].tableIdx].handle
  {
    assert ReqIs(running[i], jobs, eos);
  }

  lemma LockedHandle(g: Ledger, row: int, rows: set<int>)
    requires LedgerOk(g, rows) && row in rows
    ensures row in g.jobs && row in g.locks && g.jobs[row].handle.node in g.tree.paths
    ensures g.tree.paths[g.jobs[row].handle.node] == g.locks[row]
  {
    assert RowOk(g, row);
  }

  lemma OwnsSlots(g: Ledger, row: int, rows: set<int>)
    requires LedgerOk(g, rows) && row in rows
    ensures row in g.alloc <==> row !in g.refused
  {}

  lemma IsBalanced(g: Ledger)
    requires Shared(g.free, g.alloc, g.tree.pages, g.numSlots, g.surplus)
    ensures Balanced(g)
  {}

  lemma LessSame(jobs: Jobs, rows: set<int>)
    ensures SameJobs(jobs, jobs - rows, jobs.Keys - rows)
  {}

  lemma SameHandles(g: Ledger, rows: set<int>)
    ensures HandlesKept(g, g.tree, rows)
  {}

  lemma WholeMatch(path: Path, prompt: seq<int>, c: map<Path, Page>)
    requires IsPrefix(path, Pages(prompt, 1)) && Cached(c, path) && prompt != []
    ensures |path| <= |prompt| && (|path| == |prompt| ==> Pages(prompt, 1) in c)
  {
    OnePages(prompt);
    assert IsPrefix(path, path) && (|path| == |prompt| ==> path == Pages(prompt, 1) != []);
  }

  lemma NextRow(freeSlots: seq<int>, jobs: Jobs, n: nat)
    requires RowsOk(freeSlots, jobs, n) && freeSlots != []
    ensures freeSlots[0] !in jobs && 0 <= freeSlots[0] < n && |jobs| < n
  {
    assert freeSlots[0] in freeSlots;
    assert freeSlots[0] in AllRows(n) - jobs.Keys;
    SubsetSize(jobs.Keys, AllRows(n) - {freeSlots[0]});
  }

  lemma NewJobIs(pr: PendingReq)
    ensures NewJob(pr) == Job(pr.uid, pr.inputIds, pr.outputLen, pr.ignoreEos, pr.cachedLen, pr.cacheHandle, [], [])
  {}

  lemma HistoryEntered(fullIds: map<int, seq<int>>, jobs: Jobs, row: int, j: Job)
    requires HistoryOk(fullIds, jobs) && row !in jobs && j.slices == [] && j.cached < |j.prompt|
    ensures HistoryOk(fullIds, jobs[row := j])
  {
    AddedRows(jobs, row, j);
    DecodingInside(jobs);
    hide DecodingRows;
  }

  /** Match a prompt against the cache and lock what matched. All but the last token may be reused. */
  method LockPrefix(cache: RadixPrefixCache, prompt: seq<int>, now: int, ghost row: int)
    returns (handle: RadixCacheHandle, cachedLen: nat, matched: seq<int>, ghost path: Path)
    requires cache.Valid() && cache.pageSize == 1 && prompt != [] && row !in cache.locks
    modifies cache`tree, cache`evictableSize, cache`protectedSize, cache`locks,
             cache.tree.paths.Keys`key, cache.tree.paths.Keys`value, cache.tree.paths.Keys`parent,
             cache.tree.paths.Keys`children, cache.tree.paths.Keys`timestamp, cache.tree.paths.Keys`refCount
    ensures cache.Valid() && fresh(cache.tree.paths.Keys - old(cache.tree.paths.Keys))
            && Grown(old(cache.tree), cache.tree)
    ensures cache.locks == old(cache.locks)[row := path] && cache.tree.pages == old(cache.tree.pages)
    ensures handle.node in cache.tree.paths && cache.tree.paths[handle.node] == path
    ensures IsPrefix(path, Pages(prompt, 1)) && Longest(cache.tree.pages, Pages(prompt, 1), |path|)
    ensures Cached(cache.tree.pages, path) && matched == Flat(Backing(cache.tree.pages, path)) && |matched| == |path|
    ensures cachedLen == Min(|path|, |prompt| - 1) && cachedLen <= |path| && cachedLen < |prompt|
    ensures Walked(old(cache.tree), cache.tree, old(cache.NodeStamps()), cache.NodeStamps(), path, now)
  {
    hide *;
    ghost var was, st := cache.tree, cache.NodeStamps();
    cache.StampsAre();
    handle := cache.MatchPrefix(prompt, now);
    cache.StampsAre();
    GrownFacts(was, cache.tree);
    AtFacts(cache.tree, handle.node, prompt, 1, handle.cachedLen);
    path := cache.tree.paths[handle.node];
    IsWalked(was, cache.tree, st, cache.NodeStamps(), path, now);
    TokensIs(|path|, 1);
    MinIs(handle.cachedLen, |prompt| - 1);
    AlignDownIs(Min(handle.cachedLen, |prompt| - 1), 1);
    cachedLen := AlignDown(Min(handle.cachedLen, |prompt| - 1), cache.pageSize);
    cache.LockHandle(handle, false, row);
    matched := cache.GetMatchedIndices(handle);
    cache.BackingSize(path);
  }

  lemma IsWalked(t: NodeTree, t': NodeTree, st: Stamps, st': Stamps, path: Path, now: int)
    requires Grown(t, t') && Touched(st, st', t', now, path) && Used(LastUse(t, st), LastUse(t', st'), path, now)
    ensures Walked(t, t', st, st', path, now)
  {}

  lemma DecodingInside(jobs: Jobs)
    ensures DecodingRows(jobs) <= jobs.Keys
  {}

  lemma FreshLedger(g: Ledger)
    requires g.numSlots >= 1 && g.free == Range(1, g.numSlots) && g.alloc == map[] && g.tree.pages == map[]
    requires g.refused == {} && g.surplus == multiset{}
    ensures LedgerOk(g, {})
  {
    NoAlloc(g.alloc);
    var none := g.tree.pages;
    assert none.Keys == {};
    NothingCached(none);
  }

  lemma NothingCached(c: map<Path, Page>)
    requires c.Keys == {}
    ensures Owned(c) == multiset{}
  {}

  lemma NoHistory()
    ensures HistoryOk(map[], map[])
  {}
}
