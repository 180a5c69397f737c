/** The hybrid radix cache: KV prefixes and recurrent-state snapshots in one tree, with two kinds of
    locks and two kinds of eviction. */
module HybridCache {
  import opened Finite
  import opened Rosters
  import opened PageTree
  import opened Paging
  import opened PathLocks
  import opened Eviction
  import opened RadixNodes
  import opened Recency
  import opened NodeScan
  import opened RadixCache
  import opened HybridTree
  import opened HybridEviction

  datatype HybridMatch = HybridMatch(kvIndices: seq<int>, cachedLen: nat, mambaValue: Option<int>, node: RadixTreeNode)
  datatype EvictResult = EvictResult(kvIndices: seq<int>, mambaSlots: seq<int>)

  // ---------------------------------------------------------------- eviction loops

  /** An eviction that began in `h0` has come to `h`. */
  ghost predicate EvictState(h0: HybridState, h: HybridState, l: Locks, st: Stamps, log: HybridLog, tokens: bool,
                             ps: nat, ev: int, pr: int)
    reads h.tree.paths.Keys`key, h.tree.paths.Keys`value, h.tree.paths.Keys`parent, h.tree.paths.Keys`children,
          h.tree.paths.Keys`refCount, h.tree.paths.Keys`mambaValue, h.tree.paths.Keys`mambaRefCount
  {
    Whole(h.tree, l, h.snaps, ps, ev - |Flat(log.taken)|, pr) && Dropping(h0, h, l, st, log, tokens)
  }

  lemma StateFacts(h0: HybridState, h: HybridState, l: Locks, st: Stamps, log: HybridLog, tokens: bool, ps: nat,
                   ev: int, pr: int)
    requires EvictState(h0, h, l, st, log, tokens, ps, ev, pr)
    ensures Whole(h.tree, l, h.snaps, ps, ev - |Flat(log.taken)|, pr) && Dropping(h0, h, l, st, log, tokens)
  {}

  lemma IsState(h0: HybridState, h: HybridState, l: Locks, st: Stamps, log: HybridLog, tokens: bool, ps: nat, ev: int,
                pr: int)
    requires Whole(h.tree, l, h.snaps, ps, ev - |Flat(log.taken)|, pr) && Dropping(h0, h, l, st, log, tokens)
    ensures EvictState(h0, h, l, st, log, tokens, ps, ev, pr)
  {}

  lemma IsDropStep(h: HybridState, n: RadixTreeNode, h': HybridState, l: Locks, st: Stamps, tokens: bool)
    requires n in Candidates(h, l, tokens) && n in st && h' == AfterDrop(h, l, n)
    requires forall m :: m in Candidates(h, l, tokens) && m in st ==> st[n] <= st[m]
    ensures DropStep(h, n, h', l, st, tokens)
  {}

  lemma CandidatesAre(h: HybridState, l: Locks)
    ensures Candidates(h, l, true) == IdleLeaves(h.tree, l) && Candidates(h, l, false) == Spare(h.snaps)
    ensures forall n :: n in IdleLeaves(h.tree, l) ==> n in h.tree.paths
    ensures forall n :: n in Spare(h.snaps) ==> n in h.snaps
  {}

  lemma RunMoreIs(log: HybridLog, n: RadixTreeNode, h: HybridState, from: seq<Path>, taken: seq<Page>, v: int)
    ensures RunMore(log, n, h, from, taken, v).taken == log.taken + taken
            && RunMore(log, n, h, from, taken, v).slots == log.slots + [v]
    ensures RunMore(log, n, h, from, taken, v).victims == log.victims + [n]
  {}

  /** One dropped leaf goes onto the record. */
  lemma RecordDrop(h0: HybridState, h: HybridState, l: Locks, st: Stamps, log: HybridLog, tokens: bool,
                   n: RadixTreeNode, h': HybridState, from: seq<Path>, taken: seq<Page>, v: int, ps: nat, ev: int,
                   pr: int)
    requires Dropping(h0, h, l, st, log, tokens) && n in Candidates(h, l, tokens) && n in st
    requires forall m :: m in Candidates(h, l, tokens) && m in st ==> st[n] <= st[m]
    requires h' == AfterDrop(h, l, n) && Shed(h.tree, h'.tree, l, from, taken) && Freed(h.snaps, h'.snaps, [n], [v])
    requires Whole(h'.tree, l, h'.snaps, ps, ev - |Flat(log.taken)| - |Flat(taken)|, pr)
    ensures EvictState(h0, h', l, st, RunMore(log, n, h', from, taken, v), tokens, ps, ev, pr)
    ensures Flat(log.taken + taken) == Flat(log.taken) + Flat(taken)
    ensures |Spare(h'.snaps)| == |Spare(h.snaps)| - 1 && InUse(h'.snaps) == InUse(h.snaps)
  {
    hide *;
    IsDropStep(h, n, h', l, st, tokens);
    DroppingMore(h0, h, l, st, log, tokens, n, h', from, taken, v);
    RunMoreIs(log, n, h', from, taken, v);
    IsState(h0, h', l, st, RunMore(log, n, h', from, taken, v), tokens, ps, ev, pr);
    OneDistinct(n);
    FreedSpare(h.snaps, h'.snaps, [n], [v]);
  }

  lemma OneDistinct(n: RadixTreeNode)
    ensures Distinct([n])
  {}

  // ---------------------------------------------------------------- no more than what is asked for

  /** If there was a victim, something was asked for, and the tokens that had left the tree when the last
      one was chosen, cascades included, were fewer than that. */
  ghost predicate NotTooMany(log: HybridLog, num: nat, ps: nat) {
    log.victims != [] ==>
      && num > 0 && |log.states| == |log.victims| + 1
      && Tokens(|log.states[0].tree.pages|, ps)
         < Tokens(|log.states[|log.victims| - 1].tree.pages|, ps) + num
  }

  /** The counters add up to the tokens of the tree. */
  lemma SizesAddUp(c: map<Path, Page>, l: Locks, ps: nat, ev: int, pr: int)
    requires Sizes(c, l, ps, ev, pr)
    ensures ev + pr == Tokens(|c|, ps)
  {
    IdleOrPinned(c, l);
    TokensAdd(|Idle(c, l)|, |Pinned(c, l)|, ps);
  }

  lemma OneMoreNeeded(h0: HybridState, h: HybridState, l: Locks, st: Stamps, log: HybridLog, tokens: bool,
                      n: RadixTreeNode, h': HybridState, from: seq<Path>, taken: seq<Page>, v: int, num: nat, ps: nat)
    requires Dropping(h0, h, l, st, log, tokens) && num > 0
    requires Tokens(|h0.tree.pages|, ps) < Tokens(|h.tree.pages|, ps) + num
    ensures NotTooMany(RunMore(log, n, h', from, taken, v), num, ps)
  {
    RunLength(log, l, st, tokens);
  }

  lemma NoneNeeded(h: HybridState, num: nat, ps: nat)
    ensures NotTooMany(EmptyRun(h), num, ps)
  {}

  /** What has been taken so far is missing from the tree. */
  lemma StillNeeded(h0: HybridState, h: HybridState, l: Locks, st: Stamps, log: HybridLog, ps: nat, ev: int, pr: int)
    requires EvictState(h0, h, l, st, log, true, ps, ev, pr) && Sizes(h0.tree.pages, l, ps, ev, pr)
    ensures Tokens(|h0.tree.pages|, ps) == Tokens(|h.tree.pages|, ps) + |Flat(log.taken)|
  {
    hide *;
    StateFacts(h0, h, l, st, log, true, ps, ev, pr);
    WholeFacts(h.tree, l, h.snaps, ps, ev - |Flat(log.taken)|, pr);
    SizesAddUp(h0.tree.pages, l, ps, ev, pr);
    SizesAddUp(h.tree.pages, l, ps, ev - |Flat(log.taken)|, pr);
  }

  lemma RecordOldest(h0: HybridState, h: HybridState, l: Locks, st: Stamps, log: HybridLog, n: RadixTreeNode,
                     h': HybridState, from: seq<Path>, taken: seq<Page>, v: int, num: nat, ps: nat, ev: int, pr: int)
    requires Dropping(h0, h, l, st, log, true) && n in Candidates(h, l, true) && n in st
    requires forall m :: m in Candidates(h, l, true) && m in st ==> st[n] <= st[m]
    requires h' == AfterDrop(h, l, n) && Shed(h.tree, h'.tree, l, from, taken) && Freed(h.snaps, h'.snaps, [n], [v])
    requires Whole(h'.tree, l, h'.snaps, ps, ev - |Flat(log.taken)| - |Flat(taken)|, pr)
    requires Tokens(|h0.tree.pages|, ps) < Tokens(|h.tree.pages|, ps) + num && num > 0
    ensures EvictState(h0, h', l, st, RunMore(log, n, h', from, taken, v), true, ps, ev, pr)
    ensures NotTooMany(RunMore(log, n, h', from, taken, v), num, ps)
    ensures RunMore(log, n, h', from, taken, v).taken == log.taken + taken
            && RunMore(log, n, h', from, taken, v).slots == log.slots + [v]
    ensures Flat(log.taken + taken) == Flat(log.taken) + Flat(taken)
    ensures |Spare(h'.snaps)| == |Spare(h.snaps)| - 1 && InUse(h'.snaps) == InUse(h.snaps)
  {
    hide *;
    RunMoreIs(log, n, h', from, taken, v);
    RecordDrop(h0, h, l, st, log, true, n, h', from, taken, v, ps, ev, pr);
    OneMoreNeeded(h0, h, l, st, log, true, n, h', from, taken, v, num, ps);
  }

  lemma HeapIs(t: NodeTree, l: Locks, heap: set<RadixTreeNode>, top: RadixTreeNode)
    requires HeapBut(t, l, heap, top)
    ensures IdleLeaves(t, l) == heap + if IsIdleLeaf(t, l, top) then {top} else {}
  {}

  /** One round of evicting tokens: the oldest idle leaf goes. */
  method DropOldest(heap: set<RadixTreeNode>, kv: seq<int>, mamba: seq<int>, ps: nat, ghost h0: HybridState,
                    ghost h: HybridState, ghost l: Locks, ghost st: Stamps, ghost log: HybridLog, ghost ev: int,
                    ghost pr: int, ghost num: nat)
    returns (heap': set<RadixTreeNode>, kv': seq<int>, mamba': seq<int>, freed: nat, ghost h': HybridState,
             ghost log': HybridLog)
    requires EvictState(h0, h, l, st, log, true, ps, ev, pr) && heap == IdleLeaves(h.tree, l) && heap != {}
    requires h.tree.paths.Keys <= st.Keys && forall n :: n in h.tree.paths ==> st[n] == n.timestamp
    requires Tokens(|h0.tree.pages|, ps) < Tokens(|h.tree.pages|, ps) + num && num > 0
    modifies h.tree.paths.Keys`mambaValue, h.tree.paths.Keys`children
    ensures EvictState(h0, h', l, st, log', true, ps, ev, pr) && heap' == IdleLeaves(h'.tree, l)
    ensures NotTooMany(log', num, ps)
    ensures h'.tree.paths.Keys <= h.tree.paths.Keys && h'.tree.root == h.tree.root
    ensures |kv'| == |kv| + freed && |Flat(log'.taken)| == |Flat(log.taken)| + freed
    ensures kv == Flat(log.taken) ==> kv' == Flat(log'.taken)
    ensures (mamba == log.slots ==> mamba' == log'.slots) && |mamba'| == |mamba| + 1
    ensures |Spare(h'.snaps)| == |Spare(h.snaps)| - 1 && InUse(h'.snaps) == InUse(h.snaps)
  {
    hide *;
    StateFacts(h0, h, l, st, log, true, ps, ev, pr);
    CandidatesAre(h, l);
    var node := PopOldest(heap);
    heap' := heap - {node};
    var top;
    ghost var t', s', from, taken;
    top, kv', mamba', freed, t', s', from, taken :=
      DropLeaf(node, kv, mamba, ps, h.tree, l, h.snaps, ev - |Flat(log.taken)|, pr, heap');
    h' := HybridState(t', s');
    ghost var v := h.snaps[node].value.value;
    log' := RunMore(log, node, h', from, taken, v);
    RecordOldest(h0, h, l, st, log, node, h', from, taken, v, num, ps, ev, pr);
    HeapIs(t', l, heap', top);
    if top.children == map[] && top.refCount == 0 && top.parent != null {
      heap' := heap' + {top};
    }
  }

  /** When no idle leaf is left there is nothing left to evict. */
  lemma NothingIdle(t: NodeTree, l: Locks, s: Snaps, ps: nat, ev: int, pr: int)
    requires Whole(t, l, s, ps, ev, pr) && IdleLeaves(t, l) == {}
    ensures ev == 0
  {
    if |Idle(t.pages, l)| > 0 {
      SomeIdleLeaf(t, l);
    }
  }

  /** Evict KV tokens: at least `num`, or all that can be evicted, and no victim more than that takes. */
  method EvictTokens(root: RadixTreeNode, num: nat, ps: nat, ghost t: NodeTree, ghost l: Locks, ghost s: Snaps,
                     ghost ev: int, ghost pr: int)
    returns (result: EvictResult, ghost h: HybridState, ghost log: HybridLog)
    requires Whole(t, l, s, ps, ev, pr) && t.root == root
    modifies t.paths.Keys`mambaValue, t.paths.Keys`children
    ensures EvictState(HybridState(t, s), h, l, old(StampsOf(t.paths.Keys)), log, true, ps, ev, pr)
    ensures h.tree.paths.Keys <= t.paths.Keys && h.tree.root == root
    ensures result.kvIndices == Flat(log.taken) && result.mambaSlots == log.slots
    ensures |result.kvIndices| >= num || |result.kvIndices| == ev
    ensures NotTooMany(log, num, ps)
    ensures |Spare(h.snaps)| == |Spare(s)| - |result.mambaSlots| && InUse(h.snaps) == InUse(s)
  {
    hide *;
    WholeFacts(t, l, s, ps, ev, pr);
    ghost var st := StampsOf(t.paths.Keys);
    ghost var h0 := HybridState(t, s);
    var nodes := AllNodes(root, ps, t);
    var heap := CollectIdleLeaves(nodes, ps, t, l);
    var kv, mamba, freed := [], [], 0;
    h, log := h0, EmptyRun(h0);
    DroppingNone(h0, l, st, true);
    NoneNeeded(h0, num, ps);
    FlatNone();
    IsState(h0, h, l, st, log, true, ps, ev, pr);
    while freed < num && heap != {}
      invariant EvictState(h0, h, l, st, log, true, ps, ev, pr) && heap == IdleLeaves(h.tree, l)
      invariant h.tree.paths.Keys <= t.paths.Keys && h.tree.root == root
      invariant kv == Flat(log.taken) && mamba == log.slots && freed == |kv| && NotTooMany(log, num, ps)
      invariant |Spare(h.snaps)| == |Spare(s)| - |mamba| && InUse(h.snaps) == InUse(s)
      decreases |Spare(h.snaps)|
    {
      var more;
      StillNeeded(h0, h, l, st, log, ps, ev, pr);
      heap, kv, mamba, more, h, log := DropOldest(heap, kv, mamba, ps, h0, h, l, st, log, ev, pr, num);
      freed := freed + more;
    }
    StateFacts(h0, h, l, st, log, true, ps, ev, pr);
    if heap == {} {
      NothingIdle(h.tree, l, h.snaps, ps, ev - |Flat(log.taken)|, pr);
    }
    result := EvictResult(kv, mamba);
  }

  // ---------------------------------------------------------------- evicting snapshots

  /** A spare snapshot whose node is no idle leaf belongs to an internal node. */
  lemma SpareInternal(t: NodeTree, l: Locks, s: Snaps, ps: nat, ev: int, pr: int, n: RadixTreeNode)
    requires Whole(t, l, s, ps, ev, pr) && n in Spare(s)
    ensures n in t.paths && n in s && s[n].value.Some? && s[n].refs == 0 && n != t.root
    ensures n !in IdleLeaves(t, l) ==> !IsLeaf(t, n)
    ensures n.children == map[] && n.refCount == 0 <==> n in IdleLeaves(t, l)
  {
    assert SnapOk(t, l, s, n);
    ParentFacts(t, l, n, ps);
    if IsLeaf(t, n) && n !in IdleLeaves(t, l) {
      LeafLocked(t, l, s, n);
    }
  }

  /** Freeing the snapshot of an internal node leaves the tree as it is. */
  lemma TombstoneDrop(t: NodeTree, l: Locks, s: Snaps, n: RadixTreeNode)
    requires SnapsOk(t, l, s) && LeavesLive(t, s, {}) && n in Spare(s) && n in s && s[n].value.Some? && !IsLeaf(t, n)
    ensures var s' := s[n := Snap(None, 0)];
            && SnapsOk(t, l, s') && LeavesLive(t, s', {}) && HybridState(t, s') == AfterDrop(HybridState(t, s), l, n)
            && Freed(s, s', [n], [s[n].value.value]) && Shed(t, t, l, [], [])
  {
    var s' := s[n := Snap(None, 0)];
    FreeOk(t, l, s, n, {});
    assert !TombstoneLeaf(t, l, s', n);
    CascadeStops(t, l, s', n);
    assert Restrict(s', t) == s';
    FreedOne(s, s', n, s[n].value.value);
    ShedNone(t, l);
  }

  /** One round of evicting snapshots: the oldest spare one goes; its node too, if it is an idle leaf. */
  method FreeOldest(cands: set<RadixTreeNode>, kv: seq<int>, mamba: seq<int>, ps: nat, ghost h0: HybridState,
                    ghost h: HybridState, ghost l: Locks, ghost st: Stamps, ghost log: HybridLog, ghost ev: int,
                    ghost pr: int)
    returns (cands': set<RadixTreeNode>, kv': seq<int>, mamba': seq<int>, freed: nat, ghost h': HybridState,
             ghost log': HybridLog)
    requires EvictState(h0, h, l, st, log, false, ps, ev, pr) && cands == Spare(h.snaps) && cands != {}
    requires h.tree.paths.Keys <= st.Keys && forall n :: n in h.tree.paths ==> st[n] == n.timestamp
    modifies h.tree.paths.Keys`mambaValue, h.tree.paths.Keys`children
    ensures EvictState(h0, h', l, st, log', false, ps, ev, pr) && cands' == Spare(h'.snaps)
    ensures h'.tree.paths.Keys <= h.tree.paths.Keys && h'.tree.root == h.tree.root
    ensures |kv'| == |kv| + freed && |Flat(log'.taken)| == |Flat(log.taken)| + freed
    ensures kv == Flat(log.taken) ==> kv' == Flat(log'.taken)
    ensures (mamba == log.slots ==> mamba' == log'.slots) && |mamba'| == |mamba| + 1
    ensures |cands'| == |cands| - 1 && InUse(h'.snaps) == InUse(h.snaps)
  {
    hide *;
    StateFacts(h0, h, l, st, log, false, ps, ev, pr);
    WholeFacts(h.tree, l, h.snaps, ps, ev - |Flat(log.taken)|, pr);
    CandidatesAre(h, l);
    SparesHere(h.tree, h.snaps, l);
    var node := PopOldest(cands);
    cands' := cands - {node};
    ghost var from, taken, v;
    SpareInternal(h.tree, l, h.snaps, ps, ev - |Flat(log.taken)|, pr, node);
    if node.children == map[] && node.refCount == 0 {
      kv', mamba', freed, h', from, taken, v := DropSpareLeaf(node, kv, mamba, ps, h, l, ev - |Flat(log.taken)|, pr);
    } else {
      mamba', freed, h', from, taken, v := FreeInternal(node, mamba, ps, h, l, ev - |Flat(log.taken)|, pr);
      kv' := kv;
    }
    log' := RunMore(log, node, h', from, taken, v);
    RunMoreIs(log, node, h', from, taken, v);
    RecordDrop(h0, h, l, st, log, false, node, h', from, taken, v, ps, ev, pr);
    SpareLess(h.snaps, h'.snaps, node, v);
  }

  lemma SparesHere(t: NodeTree, s: Snaps, l: Locks)
    requires s.Keys == t.paths.Keys
    ensures forall n :: n in Spare(s) ==> n in t.paths
  {}

  lemma SpareLess(s: Snaps, s': Snaps, n: RadixTreeNode, v: int)
    requires Freed(s, s', [n], [v])
    ensures Spare(s') == Spare(s) - {n}
  {
    forall m ensures m in Spare(s') <==> m in Spare(s) && m != n {
      FreedNode(s, s', [n], [v], m);
    }
  }

  method DropSpareLeaf(node: RadixTreeNode, kv: seq<int>, mamba: seq<int>, ps: nat, ghost h: HybridState,
                       ghost l: Locks, ghost ev: int, ghost pr: int)
    returns (kv': seq<int>, mamba': seq<int>, freed: nat, ghost h': HybridState, ghost from: seq<Path>,
             ghost taken: seq<Page>, ghost v: int)
    requires Whole(h.tree, l, h.snaps, ps, ev, pr) && node in IdleLeaves(h.tree, l)
    modifies node`mambaValue, h.tree.paths.Keys`children
    ensures Whole(h'.tree, l, h'.snaps, ps, ev - freed, pr) && freed == |Flat(taken)| && kv' == kv + Flat(taken)
    ensures h' == AfterDrop(h, l, node) && Shed(h.tree, h'.tree, l, from, taken)
            && Freed(h.snaps, h'.snaps, [node], [v])
    ensures mamba' == mamba + [v] && h'.tree.paths.Keys <= h.tree.paths.Keys && h'.tree.root == h.tree.root
  {
    hide *;
    var top;
    ghost var t', s';
    top, kv', mamba', freed, t', s', from, taken :=
      DropLeaf(node, kv, mamba, ps, h.tree, l, h.snaps, ev, pr, IdleLeaves(h.tree, l) - {node});
    h', v := HybridState(t', s'), h.snaps[node].value.value;
  }

  /** Free the snapshot of an internal node, which becomes a tombstone. */
  method FreeInternal(node: RadixTreeNode, mamba: seq<int>, ps: nat, ghost h: HybridState, ghost l: Locks,
                      ghost ev: int, ghost pr: int)
    returns (mamba': seq<int>, freed: nat, ghost h': HybridState, ghost from: seq<Path>, ghost taken: seq<Page>,
             ghost v: int)
    requires Whole(h.tree, l, h.snaps, ps, ev, pr) && node in Spare(h.snaps) && !IsLeaf(h.tree, node)
    modifies node`mambaValue
    ensures Whole(h'.tree, l, h'.snaps, ps, ev - freed, pr) && freed == |Flat(taken)| == 0 && taken == []
    ensures h' == AfterDrop(h, l, node) && Shed(h.tree, h'.tree, l, from, taken)
            && Freed(h.snaps, h'.snaps, [node], [v])
    ensures mamba' == mamba + [v] && h'.tree == h.tree
  {
    hide *;
    WholeFacts(h.tree, l, h.snaps, ps, ev, pr);
    SpareInternal(h.tree, l, h.snaps, ps, ev, pr, node);
    TombstoneDrop(h.tree, l, h.snaps, node);
    FlatNone();
    v := h.snaps[node].value.value;
    mamba', freed, from, taken := mamba + [node.mambaValue.value], 0, [], [];
    node.mambaValue := None;
    h' := HybridState(h.tree, h.snaps[node := Snap(None, 0)]);
    assert h'.snaps == SnapsOf(h.tree.paths.Keys);
    IsWhole(h'.tree, l, h'.snaps, ps, ev, pr);
  }

  /** Evict snapshots: exactly `num` of them, or all that can be evicted. */
  method EvictSnapshots(root: RadixTreeNode, num: nat, ps: nat, ghost t: NodeTree, ghost l: Locks, ghost s: Snaps,
                        ghost ev: int, ghost pr: int)
    returns (result: EvictResult, ghost h: HybridState, ghost log: HybridLog)
    requires Whole(t, l, s, ps, ev, pr) && t.root == root
    modifies t.paths.Keys`mambaValue, t.paths.Keys`children
    ensures EvictState(HybridState(t, s), h, l, old(StampsOf(t.paths.Keys)), log, false, ps, ev, pr)
    ensures h.tree.paths.Keys <= t.paths.Keys && h.tree.root == root
    ensures result.kvIndices == Flat(log.taken) && result.mambaSlots == log.slots
    ensures |result.mambaSlots| == if num < |Spare(s)| then num else |Spare(s)|
    ensures |Spare(h.snaps)| == |Spare(s)| - |result.mambaSlots| && InUse(h.snaps) == InUse(s)
  {
    hide *;
    WholeFacts(t, l, s, ps, ev, pr);
    ghost var st := StampsOf(t.paths.Keys);
    ghost var h0 := HybridState(t, s);
    var nodes := AllNodes(root, ps, t);
    var cands := set n | n in nodes && n.mambaValue.Some? && n.mambaRefCount == 0;
    SparesAre(nodes, s, t);
    var kv, mamba, freed := [], [], 0;
    h, log := h0, EmptyRun(h0);
    DroppingNone(h0, l, st, false);
    FlatNone();
    IsState(h0, h, l, st, log, false, ps, ev, pr);
    while freed < num && cands != {}
      invariant EvictState(h0, h, l, st, log, false, ps, ev, pr) && cands == Spare(h.snaps)
      invariant h.tree.paths.Keys <= t.paths.Keys && h.tree.root == root
      invariant kv == Flat(log.taken) && mamba == log.slots && freed == |mamba| <= num
      invariant |Spare(h.snaps)| == |Spare(s)| - |mamba| && InUse(h.snaps) == InUse(s)
      decreases num - freed
    {
      var more;
      cands, kv, mamba, more, h, log := FreeOldest(cands, kv, mamba, ps, h0, h, l, st, log, ev, pr);
      freed := freed + 1;
    }
    result := EvictResult(kv, mamba);
  }

  lemma SparesAre(nodes: set<RadixTreeNode>, s: Snaps, t: NodeTree)
    requires nodes == t.paths.Keys && s == SnapsOf(nodes)
    ensures Spare(s) == set n | n in nodes && n.mambaValue.Some? && n.mambaRefCount == 0
  {}

  // ---------------------------------------------------------------- matching

  /** No node on the way along `u` deeper than `k` pages has a live snapshot. */
  ghost predicate NoneDeeper(t: NodeTree, s: Snaps, u: Path, k: nat) {
    forall n {:trigger HasSnap(s, n)} :: n in t.paths && IsPrefix(t.paths[n], u) && |t.paths[n]| > k ==> !HasSnap(s, n)
  }

  lemma NoneBelowWalk(t: NodeTree, s: Snaps, node: RadixTreeNode, u: Path)
    requires WellFormed(t) && node in t.paths && IsPrefix(t.paths[node], u) && Longest(t.pages, u, |t.paths[node]|)
    ensures NoneDeeper(t, s, u, |t.paths[node]|)
  {
    forall n | n in t.paths ensures IsPrefix(t.paths[n], u) ==> |t.paths[n]| <= |t.paths[node]| {
      if n in t.cuts {
        assert NodeOk(t, n) && IsPrefix(t.paths[n], t.paths[n]);
        assert IsPrefix(t.paths[n], u) ==> u[..|t.paths[n]|] == t.paths[n];
      }
    }
  }

  /** Passing a node without a live snapshot. */
  lemma NonePassed(t: NodeTree, s: Snaps, n: RadixTreeNode, u: Path)
    requires WellFormed(t) && n in t.cuts && n in t.paths && IsPrefix(t.paths[n], u)
             && NoneDeeper(t, s, u, |t.paths[n]|) && !HasSnap(s, n)
    ensures t.cuts[n].up in t.paths && IsPrefix(t.paths[t.cuts[n].up], u)
            && NoneDeeper(t, s, u, |t.paths[t.cuts[n].up]|)
    ensures NodeOk(t, n) && |t.paths[t.cuts[n].up]| == t.cuts[n].start
            && |t.paths[n]| == t.cuts[n].start + |t.cuts[n].span|
  {
    assert NodeOk(t, n);
    forall m | m in t.paths && IsPrefix(t.paths[m], u) && |t.paths[m]| > t.cuts[n].start ensures !HasSnap(s, m) {
      if |t.paths[m]| <= |t.paths[n]| {
        assert m != t.root;
        OneNodeThere(t, n, m, u);
      }
    }
  }

  /** The tokens on the root path of a node. */
  method PathLen(node: RadixTreeNode, ps: nat, ghost t: NodeTree) returns (total: nat)
    requires Linked(t, ps) && node in t.paths
    ensures total == Tokens(|t.paths[node]|, ps)
  {
    hide *;
    total := 0;
    var n := node;
    while n.parent != null
      invariant Linked(t, ps) && n in t.paths && total + Tokens(|t.paths[n]|, ps) == Tokens(|t.paths[node]|, ps)
      decreases |t.paths[n]|
    {
      NodeFacts(t, n, ps);
      LengthStep(t, n, ps);
      total := total + |n.key|;
      n := n.parent;
    }
    NodeFacts(t, n, ps);
    TokensZero(ps);
  }

  lemma LengthStep(t: NodeTree, n: RadixTreeNode, ps: nat)
    requires n in t.cuts && NodeOk(t, n)
    ensures t.cuts[n].up in t.paths
            && Tokens(|t.paths[n]|, ps) == Tokens(|t.paths[t.cuts[n].up]|, ps) + Tokens(|t.cuts[n].span|, ps)
  {
    TokensAdd(|t.paths[t.cuts[n].up]|, |t.cuts[n].span|, ps);
  }

  /** From the end of the walk up to the deepest node with a live snapshot. */
  method DeepestLive(node: RadixTreeNode, ps: nat, ghost t: NodeTree, ghost s: Snaps, ghost u: Path)
    returns (cur: RadixTreeNode, endLen: nat)
    requires Linked(t, ps) && s == SnapsOf(t.paths.Keys) && node in t.paths && IsPrefix(t.paths[node], u)
    requires Longest(t.pages, u, |t.paths[node]|)
    ensures cur in t.paths && IsPrefix(t.paths[cur], u) && NoneDeeper(t, s, u, |t.paths[cur]|)
    ensures endLen == Tokens(|t.paths[cur]|, ps) && (cur != t.root ==> cur.mambaValue.Some?)
  {
    hide *;
    LinkedFacts(t, ps);
    NoneBelowWalk(t, s, node, u);
    cur := node;
    endLen := PathLen(node, ps, t);
    while cur.parent != null && cur.mambaValue == None
      invariant Linked(t, ps) && s == SnapsOf(t.paths.Keys) && cur in t.paths && IsPrefix(t.paths[cur], u)
      invariant NoneDeeper(t, s, u, |t.paths[cur]|) && endLen == Tokens(|t.paths[cur]|, ps)
      decreases |t.paths[cur]|
    {
      LinkedFacts(t, ps);
      NodeFacts(t, cur, ps);
      BlankHere(s, cur);
      NonePassed(t, s, cur, u);
      LengthStep(t, cur, ps);
      endLen := endLen - |cur.key|;
      cur := cur.parent;
    }
    NodeFacts(t, cur, ps);
  }

  lemma BlankHere(s: Snaps, n: RadixTreeNode)
    requires n in s && s[n].value == None
    ensures !HasSnap(s, n)
  {}

  // ---------------------------------------------------------------- what the calls do to a tree at rest

  lemma WalkedWhole(t: NodeTree, t': NodeTree, l: Locks, s: Snaps, s': Snaps, ps: nat, ev: int, pr: int)
    requires WellFormed(t) && SnapsOk(t, l, s) && LeavesLive(t, s, {}) && Anchored(t, l)
             && Sizes(t.pages, l, ps, ev, pr)
    requires Linked(t', ps) && Counted(t', l) && Anchored(t', l) && t'.root in t'.paths && t'.root.refCount == 1
    requires Grown(t, t') && LeavesKept(t, t') && BlankAdded(s, s') && s' == SnapsOf(t'.paths.Keys)
    ensures Whole(t', l, s', ps, ev, pr) && Spare(s') == Spare(s) && InUse(s') == InUse(s)
  {
    BlankOk(t, t', l, s, s');
    BlankSizes(s, s');
    LeavesStillLive(t, t', s, s', {});
  }

  lemma InsertedWhole(t: NodeTree, t': NodeTree, l: Locks, s: Snaps, s': Snaps, ps: nat, ev: int, pr: int,
                      node: RadixTreeNode)
    requires WellFormed(t) && SnapsOk(t, l, s) && LeavesLive(t, s, {}) && Anchored(t, l) && WellFormed(t')
    requires PathsKept(t, t') && t'.root == t.root && LeavesBut(t, t', node) && BlankAdded(s, s')
             && s'.Keys == t'.paths.Keys
    requires node in t'.paths
    ensures SnapsOk(t', l, s') && LeavesLive(t', s', {node}) && Spare(s') == Spare(s) && InUse(s') == InUse(s)
    ensures node == t.root || HasSnap(s', node) ==> LeavesLive(t', s', {})
    ensures node != t.root && !HasSnap(s', node) ==> s'[node].value == None && node in s'
  {
    assert t'.root !in t'.cuts;
    hide *;
    KeptKeys(t, t');
    PathsKeptAt(t, t');
    BlankOk(t, t', l, s, s');
    BlankSizes(s, s');
    LeavesButAt(t, t', node);
    LeavesStillLive(t, t', s, s', {node});
    EveryLeafLive(t', s', node);
  }

  lemma PathsKeptAt(t: NodeTree, t': NodeTree)
    requires PathsKept(t, t')
    ensures forall m :: m in t.paths ==> m in t'.paths && t'.paths[m] == t.paths[m]
  {}

  lemma LeavesButAt(t: NodeTree, t': NodeTree, node: RadixTreeNode)
    requires LeavesBut(t, t', node)
    ensures forall n :: n in t'.paths && IsLeaf(t', n) && n !in {node} ==> n in t.paths && IsLeaf(t, n)
  {}

  lemma EveryLeafLive(t: NodeTree, s: Snaps, node: RadixTreeNode)
    requires LeavesLive(t, s, {node}) && t.root !in t.cuts && node in s
    ensures node == t.root || HasSnap(s, node) ==> LeavesLive(t, s, {})
    ensures node != t.root && !HasSnap(s, node) ==> s[node].value == None
  {
    if node == t.root || HasSnap(s, node) {
      forall n | n in t.paths && IsLeaf(t, n) ensures HasSnap(s, n) {}
    }
  }

  lemma Blanks(t: NodeTree, t': NodeTree, s: Snaps)
    requires s.Keys == t.paths.Keys <= t'.paths.Keys
    requires forall n :: n in t.paths ==> s[n] == Snap(n.mambaValue, n.mambaRefCount)
    requires Blank(t'.paths.Keys - t.paths.Keys)
    ensures BlankAdded(s, SnapsOf(t'.paths.Keys))
  {}

  lemma KeptKeys(t: NodeTree, t': NodeTree)
    requires PathsKept(t, t')
    ensures t.paths.Keys <= t'.paths.Keys
  {}

  /** The walk of the hybrid tree: new nodes come without a snapshot, and the counters stay right. */
  method WalkHybrid(root: RadixTreeNode, ids: seq<int>, ps: nat, tic: int, ghost t: NodeTree, ghost l: Locks,
                    ghost s: Snaps, ghost ev: int, ghost pr: int, ghost st: Stamps)
    returns (node: RadixTreeNode, ghost t': NodeTree)
    requires Whole(t, l, s, ps, ev, pr) && t.root == root && st == StampsOf(t.paths.Keys)
    modifies t.paths.Keys`key, t.paths.Keys`value, t.paths.Keys`parent, t.paths.Keys`children, t.paths.Keys`timestamp
    ensures ps > 0 && Whole(t', l, SnapsOf(t'.paths.Keys), ps, ev, pr) && Grown(t, t')
            && fresh(t'.paths.Keys - t.paths.Keys) && t'.root == root
    ensures node in t'.paths && IsPrefix(t'.paths[node], Pages(ids, ps))
            && Longest(t'.pages, Pages(ids, ps), |t'.paths[node]|)
    ensures Spare(SnapsOf(t'.paths.Keys)) == Spare(s) && InUse(SnapsOf(t'.paths.Keys)) == InUse(s)
    ensures Touched(st, StampsOf(t'.paths.Keys), t', tic, t'.paths[node])
    ensures Used(LastUse(t, st), LastUse(t', StampsOf(t'.paths.Keys)), t'.paths[node], tic)
  {
    hide *;
    WholeFacts(t, l, s, ps, ev, pr);
    var len;
    node, len, t' := WalkAndUse(root, ids, ps, tic, t, l, st);
    GrownFacts(t, t');
    AtFacts(t', node, ids, ps, len);
    Blanks(t, t', s);
    WalkedWhole(t, t', l, s, SnapsOf(t'.paths.Keys), ps, ev, pr);
  }

  /** From the end of the walk to the match. */
  method MatchAbove(node: RadixTreeNode, ps: nat, ghost t: NodeTree, ghost l: Locks, ghost s: Snaps, ghost ev: int,
                    ghost pr: int, ghost u: Path)
    returns (m: HybridMatch)
    requires Whole(t, l, s, ps, ev, pr) && node in t.paths && IsPrefix(t.paths[node], u)
             && Longest(t.pages, u, |t.paths[node]|)
    ensures Matched(t, s, u, ps, m)
  {
    hide *;
    WholeFacts(t, l, s, ps, ev, pr);
    var cur, endLen := DeepestLive(node, ps, t, s, u);
    var kv := MatchedIndices(cur, ps, t);
    m := HybridMatch(kv, endLen, cur.mambaValue, cur);
    IsMatched(t, l, s, u, ps, m);
  }

  /** What a match of `u` returns: the deepest boundary on its path that owns a live snapshot, or the
      root, with the slots of exactly the pages up to there. */
  ghost predicate Matched(t: NodeTree, s: Snaps, u: Path, ps: nat, m: HybridMatch) {
    && m.node in t.paths && IsPrefix(t.paths[m.node], u) && NoneDeeper(t, s, u, |t.paths[m.node]|)
    && m.cachedLen == Tokens(|t.paths[m.node]|, ps) && m.node in s && m.mambaValue == s[m.node].value
    && (if m.node == t.root then m.mambaValue == None else m.mambaValue.Some?)
    && Cached(t.pages, t.paths[m.node]) && m.kvIndices == Flat(Backing(t.pages, t.paths[m.node]))
  }

  lemma IsMatched(t: NodeTree, l: Locks, s: Snaps, u: Path, ps: nat, m: HybridMatch)
    requires SnapsOk(t, l, s)
    requires m.node in t.paths && IsPrefix(t.paths[m.node], u) && NoneDeeper(t, s, u, |t.paths[m.node]|)
    requires m.cachedLen == Tokens(|t.paths[m.node]|, ps) && m.node in s && m.mambaValue == s[m.node].value
    requires m.node != t.root ==> m.mambaValue.Some?
    requires Cached(t.pages, t.paths[m.node]) && m.kvIndices == Flat(Backing(t.pages, t.paths[m.node]))
    ensures Matched(t, s, u, ps, m)
  {
    assert SnapOk(t, l, s, m.node);
  }

  /** A match: the walk, and the way back up. */
  method MatchIn(root: RadixTreeNode, ids: seq<int>, ps: nat, tic: int, ghost t: NodeTree, ghost l: Locks,
                 ghost s: Snaps, ghost ev: int, ghost pr: int, ghost st: Stamps)
    returns (m: HybridMatch, ghost end: Path, ghost t': NodeTree)
    requires Whole(t, l, s, ps, ev, pr) && t.root == root && st == StampsOf(t.paths.Keys)
    modifies t.paths.Keys`key, t.paths.Keys`value, t.paths.Keys`parent, t.paths.Keys`children, t.paths.Keys`timestamp
    ensures ps > 0 && Whole(t', l, SnapsOf(t'.paths.Keys), ps, ev, pr) && Grown(t, t')
            && fresh(t'.paths.Keys - t.paths.Keys) && t'.root == root
    ensures Spare(SnapsOf(t'.paths.Keys)) == Spare(s) && InUse(SnapsOf(t'.paths.Keys)) == InUse(s)
    ensures Matched(t', SnapsOf(t'.paths.Keys), Pages(ids, ps), ps, m)
    ensures IsPrefix(end, Pages(ids, ps)) && Longest(t'.pages, Pages(ids, ps), |end|)
    ensures Touched(st, StampsOf(t'.paths.Keys), t', tic, end)
    ensures Used(LastUse(t, st), LastUse(t', StampsOf(t'.paths.Keys)), end, tic)
  {
    hide *;
    var node;
    node, t' := WalkHybrid(root, ids, ps, tic, t, l, s, ev, pr, st);
    end := t'.paths[node];
    m := MatchAbove(node, ps, t', l, SnapsOf(t'.paths.Keys), ev, pr, Pages(ids, ps));
  }

  // ---------------------------------------------------------------- inserting

  /** What an insertion does to the snapshots: new nodes are blank, and the end of the inserted path
      gets the donated one unless it has one already. */
  ghost predicate Donated(s: Snaps, s': Snaps, root: RadixTreeNode, node: RadixTreeNode, v: int, exist: bool) {
    && (exist <==> node == root || HasSnap(s, node)) && node in s'
    && s.Keys <= s'.Keys
    && (forall n :: n in s' && (n != node || exist) ==> s'[n] == if n in s then s[n] else Snap(None, 0))
    && (!exist ==> s'[node] == Snap(Some(v), 0))
  }

  lemma IsDonated(s: Snaps, s1: Snaps, s': Snaps, root: RadixTreeNode, node: RadixTreeNode, v: int, exist: bool)
    requires BlankAdded(s, s1) && node in s1 && (exist <==> node == root || HasSnap(s1, node))
    requires s' == if exist then s1 else s1[node := Snap(Some(v), 0)]
    ensures Donated(s, s', root, node, v, exist)
  {}

  /** The KV part of an insertion. */
  method InsertKeys(root: RadixTreeNode, ids: seq<int>, indices: seq<int>, ps: nat, tic: int, born: int,
                    ghost t: NodeTree, ghost l: Locks, ghost s: Snaps, ghost ev: int, ghost pr: int, ghost st: Stamps)
    returns (node: RadixTreeNode, prefixLen: nat, added: nat, ghost k: nat, ghost t': NodeTree)
    requires Whole(t, l, s, ps, ev, pr) && t.root == root && st == StampsOf(t.paths.Keys)
    requires ps > 0 && AlignDown(|ids|, ps) <= |ids| && AlignDown(|ids|, ps) <= |indices|
    modifies t.paths.Keys`key, t.paths.Keys`value, t.paths.Keys`parent, t.paths.Keys`children, t.paths.Keys`timestamp
    ensures Cascading(t', l, SnapsOf(t'.paths.Keys), ps, node, ev + added, pr) && t'.root == root
            && fresh(t'.paths.Keys - t.paths.Keys)
    ensures Inserted(t.pages, t'.pages, Pages(ids, ps), NewSlots(ids, indices, ps), k) && prefixLen == Tokens(k, ps)
    ensures node in t'.paths && t'.paths[node] == Pages(ids, ps) && PathsKept(t, t')
    ensures BlankAdded(s, SnapsOf(t'.paths.Keys))
    ensures k <= |Pages(ids, ps)|
    ensures Stamped(st, StampsOf(t'.paths.Keys), t', Pages(ids, ps), k, tic, born)
    ensures UsedTo(LastUse(t, st), LastUse(t', StampsOf(t'.paths.Keys)), Pages(ids, ps), k, tic, born)
    ensures Spare(SnapsOf(t'.paths.Keys)) == Spare(s) && InUse(SnapsOf(t'.paths.Keys)) == InUse(s)
    ensures node == root || HasSnap(SnapsOf(t'.paths.Keys), node) ==> LeavesLive(t', SnapsOf(t'.paths.Keys), {})
  {
    hide *;
    WholeFacts(t, l, s, ps, ev, pr);
    ghost var mid;
    node, prefixLen, added, k, mid, t' := InsertInto(root, ids, indices, ps, tic, born, t, l, ev, pr, st);
    AfterInsert(t, t', l, s, ps, node, ev + added, pr);
  }

  /** The tree after an insertion, before a snapshot is donated at its end. */
  lemma AfterInsert(t: NodeTree, t': NodeTree, l: Locks, s: Snaps, ps: nat, node: RadixTreeNode, ev: int, pr: int)
    requires WellFormed(t) && SnapsOk(t, l, s) && LeavesLive(t, s, {}) && Anchored(t, l) && s.Keys == t.paths.Keys
    requires t.root in t.paths && t.root.refCount == 1 && forall n :: n in t.paths ==>
               s[n] == Snap(n.mambaValue, n.mambaRefCount)
    requires Linked(t', ps) && Counted(t', l) && Anchored(t', l) && t'.root == t.root && Sizes(t'.pages, l, ps, ev, pr)
    requires PathsKept(t, t') && LeavesBut(t, t', node) && Blank(t'.paths.Keys - t.paths.Keys) && node in t'.paths
    ensures Cascading(t', l, SnapsOf(t'.paths.Keys), ps, node, ev, pr) && BlankAdded(s, SnapsOf(t'.paths.Keys))
    ensures Spare(SnapsOf(t'.paths.Keys)) == Spare(s) && InUse(SnapsOf(t'.paths.Keys)) == InUse(s)
    ensures node == t.root || HasSnap(SnapsOf(t'.paths.Keys), node) ==> LeavesLive(t', SnapsOf(t'.paths.Keys), {})
  {
    hide *;
    LinkedFacts(t', ps);
    KeptKeys(t, t');
    Blanks(t, t', s);
    InsertedWhole(t, t', l, s, SnapsOf(t'.paths.Keys), ps, ev, pr, node);
    IsCascading(t', l, SnapsOf(t'.paths.Keys), ps, node, ev, pr);
  }

  /** The snapshot part: donate `v` at `node`, unless it is the root or has a snapshot. */
  method Donate(node: RadixTreeNode, v: int, ps: nat, ghost t: NodeTree, ghost l: Locks, ghost s: Snaps, ghost ev: int,
                ghost pr: int)
    returns (exist: bool, ghost s': Snaps)
    requires Cascading(t, l, s, ps, node, ev, pr) && s == SnapsOf(t.paths.Keys)
    requires node == t.root || HasSnap(s, node) ==> LeavesLive(t, s, {})
    modifies node`mambaValue
    ensures Whole(t, l, s', ps, ev, pr) && s' == if exist then s else s[node := Snap(Some(v), 0)]
    ensures exist <==> node == t.root || HasSnap(s, node)
    ensures |Spare(s')| == |Spare(s)| + (if exist then 0 else 1) && InUse(s') == InUse(s)
    ensures !exist ==> node.mambaRefCount == 0
  {
    hide *;
    CascadingFacts(t, l, s, ps, node, ev, pr);
    NodeFacts(t, node, ps);
    SnapHere(s, node);
    s' := s;
    exist := node.parent == null || node.mambaValue.Some?;
    if !exist {
      DonateOk(t, l, s, node, v);
      s' := s[node := Snap(Some(v), 0)];
      node.mambaValue := Some(v);
      assert s' == SnapsOf(t.paths.Keys);
    }
    IsWhole(t, l, s', ps, ev, pr);
  }

  /** An insertion: the keys, then the donation at their end. */
  method InsertIn(root: RadixTreeNode, ids: seq<int>, indices: seq<int>, v: int, ps: nat, tic: int, born: int,
                  ghost t: NodeTree, ghost l: Locks, ghost s: Snaps, ghost ev: int, ghost pr: int, ghost st: Stamps)
    returns (node: RadixTreeNode, prefixLen: nat, added: nat, exist: bool, ghost k: nat, ghost t': NodeTree,
             ghost s': Snaps)
    requires Whole(t, l, s, ps, ev, pr) && t.root == root && (ps > 0 ==> AlignDown(|ids|, ps) <= |indices|)
    requires st == StampsOf(t.paths.Keys)
    modifies t.paths.Keys`key, t.paths.Keys`value, t.paths.Keys`parent, t.paths.Keys`children, t.paths.Keys`timestamp,
             t.paths.Keys`mambaValue
    ensures ps > 0 && AlignDown(|ids|, ps) <= |ids| && Whole(t', l, s', ps, ev + added, pr) && t'.root == root
    ensures fresh(t'.paths.Keys - t.paths.Keys) && PathsKept(t, t') && s' == SnapsOf(t'.paths.Keys)
    ensures Inserted(t.pages, t'.pages, Pages(ids, ps), NewSlots(ids, indices, ps), k) && prefixLen == Tokens(k, ps)
    ensures node in t'.paths && t'.paths[node] == Pages(ids, ps) && Donated(s, s', root, node, v, exist)
    ensures k <= |Pages(ids, ps)|
    ensures Stamped(st, StampsOf(t'.paths.Keys), t', Pages(ids, ps), k, tic, born)
    ensures UsedTo(LastUse(t, st), LastUse(t', StampsOf(t'.paths.Keys)), Pages(ids, ps), k, tic, born)
    ensures |Spare(s')| == |Spare(s)| + (if exist then 0 else 1) && InUse(s') == InUse(s)
            && (!exist ==> node.mambaRefCount == 0)
  {
    hide *;
    WholeFacts(t, l, s, ps, ev, pr);
    AlignTwice(|ids|, ps);
    node, prefixLen, added, k, t' := InsertKeys(root, ids, indices, ps, tic, born, t, l, s, ev, pr, st);
    ghost var s1 := SnapsOf(t'.paths.Keys);
    exist, s' := Donate(node, v, ps, t', l, s1, ev + added, pr);
    IsDonated(s, s1, s', root, node, v, exist);
    WholeFacts(t', l, s', ps, ev + added, pr);
  }

  lemma SnapHere(s: Snaps, n: RadixTreeNode)
    requires n in s
    ensures HasSnap(s, n) <==> s[n].value.Some?
  {}

  /** What is donated at the end of `u` is what a later match of `u` restores from. */
  lemma DonatedMatched(t: NodeTree, s: Snaps, u: Path, ps: nat, n: RadixTreeNode, m: HybridMatch)
    requires WellFormed(t) && Matched(t, s, u, ps, m) && n in t.paths && t.paths[n] == u && HasSnap(s, n)
    ensures m.node == n && m.mambaValue == s[n].value && m.cachedLen == Tokens(|u|, ps)
  {
    assert IsPrefix(u, u);
    PathNamesNode(t, m.node, n);
  }

  // ---------------------------------------------------------------- locking

  /** One more lock on the snapshot of `node`, if it has one. */
  method LockSnapshot(node: RadixTreeNode, ghost t: NodeTree, ghost l: Locks, ghost s: Snaps, ghost i: int)
    returns (moved: int, ghost s': Snaps)
    requires WellFormed(t) && SnapsOk(t, l, s) && LeavesLive(t, s, {}) && s == SnapsOf(t.paths.Keys) && node in t.paths
             && i !in l
    requires node == t.root || node.mambaValue.Some?
    modifies node`mambaRefCount
    ensures SnapsOk(t, l[i := t.paths[node]], s') && LeavesLive(t, s', {}) && s' == SnapsOf(t.paths.Keys)
    ensures |Spare(s')| == |Spare(s)| - moved && |InUse(s')| == |InUse(s)| + moved && moved <= 1
  {
    hide *;
    RootBlank(t, l, s);
    LockSnap(t, l, s, i, node);
    moved, s' := 0, s;
    if node.mambaValue.Some? {
      moved := if node.mambaRefCount == 0 then 1 else 0;
      SnapMoved(s, node, s[node].refs + 1);
      SnapCount(t, l, s, node);
      SameLive(t, s, node, s[node].refs + 1);
      s' := s[node := Snap(s[node].value, s[node].refs + 1)];
      node.mambaRefCount := node.mambaRefCount + 1;
      assert s' == SnapsOf(t.paths.Keys);
    }
  }

  /** One lock less on the snapshot of `node`, if it has one. */
  method UnlockSnapshot(node: RadixTreeNode, ghost t: NodeTree, ghost l: Locks, ghost s: Snaps, ghost i: int)
    returns (moved: int, ghost s': Snaps)
    requires WellFormed(t) && SnapsOk(t, l, s) && LeavesLive(t, s, {}) && s == SnapsOf(t.paths.Keys) && node in t.paths
    requires i in l && l[i] == t.paths[node]
    modifies node`mambaRefCount
    ensures SnapsOk(t, l - {i}, s') && LeavesLive(t, s', {}) && s' == SnapsOf(t.paths.Keys)
    ensures |Spare(s')| == |Spare(s)| + moved && |InUse(s')| == |InUse(s)| - moved && moved <= 1
  {
    hide *;
    UnlockSnap(t, l, s, i, node);
    moved, s' := 0, s;
    if node.mambaValue.Some? && node.mambaRefCount > 0 {
      SnapMoved(s, node, s[node].refs - 1);
      SameLive(t, s, node, s[node].refs - 1);
      s' := s[node := Snap(s[node].value, s[node].refs - 1)];
      node.mambaRefCount := node.mambaRefCount - 1;
      moved := if node.mambaRefCount == 0 then 1 else 0;
      assert s' == SnapsOf(t.paths.Keys);
    }
  }

  lemma RootBlank(t: NodeTree, l: Locks, s: Snaps)
    requires WellFormed(t) && SnapsOk(t, l, s)
    ensures t.root in s && s[t.root] == Snap(None, 0)
  {
    assert SnapOk(t, l, s, t.root);
  }

  lemma SnapCount(t: NodeTree, l: Locks, s: Snaps, n: RadixTreeNode)
    requires SnapsOk(t, l, s) && n in t.paths
    ensures n in s && s[n].refs >= 0
  {
    assert SnapOk(t, l, s, n);
  }

  lemma SameLive(t: NodeTree, s: Snaps, n: RadixTreeNode, r: int)
    requires LeavesLive(t, s, {}) && n in s
    ensures LeavesLive(t, s[n := Snap(s[n].value, r)], {})
  {
    var s' := s[n := Snap(s[n].value, r)];
    forall m | m in t.paths && IsLeaf(t, m) ensures HasSnap(s', m) {
      assert HasSnap(s, m);
    }
  }

  /** A lock pins the snapshot of `node` and its KV path. */
  method LockBoth(node: RadixTreeNode, ps: nat, ghost t: NodeTree, ghost l: Locks, ghost s: Snaps, ghost ev: int,
                  ghost pr: int, ghost i: int)
    returns (moved: int, pinned: nat, ghost s': Snaps)
    requires Whole(t, l, s, ps, ev, pr) && node in t.paths && i !in l && (node == t.root || node.mambaValue.Some?)
    modifies node`mambaRefCount, (t.paths.Keys - {t.root})`refCount
    ensures Whole(t, l[i := t.paths[node]], s', ps, ev - pinned, pr + pinned)
    ensures |Spare(s')| == |Spare(s)| - moved && |InUse(s')| == |InUse(s)| + moved
  {
    hide *;
    WholeFacts(t, l, s, ps, ev, pr);
    moved, s' := LockSnapshot(node, t, l, s, i);
    pinned := PinPath(node, ps, t, l, i);
    SizesLock(t.pages, l, i, t.paths[node], ps, ev, pr);
    IsWhole(t, l[i := t.paths[node]], s', ps, ev - pinned, pr + pinned);
  }

  method UnlockBoth(node: RadixTreeNode, ps: nat, ghost t: NodeTree, ghost l: Locks, ghost s: Snaps, ghost ev: int,
                    ghost pr: int, ghost i: int)
    returns (moved: int, freed: nat, ghost s': Snaps)
    requires Whole(t, l, s, ps, ev, pr) && node in t.paths && i in l && l[i] == t.paths[node]
    modifies node`mambaRefCount, (t.paths.Keys - {t.root})`refCount
    ensures Whole(t, l - {i}, s', ps, ev + freed, pr - freed)
    ensures |Spare(s')| == |Spare(s)| + moved && |InUse(s')| == |InUse(s)| - moved
  {
    hide *;
    WholeFacts(t, l, s, ps, ev, pr);
    moved, s' := UnlockSnapshot(node, t, l, s, i);
    freed := UnpinPath(node, ps, t, l, i);
    UnlockSizes(t.pages, l, i, t.paths[node], ps, ev, pr);
    IsWhole(t, l - {i}, s', ps, ev + freed, pr - freed);
  }

  /** Eviction of either kind leaves what is locked as it is: the cached pages of every locked path
      and every snapshot in use. */
  lemma DroppingKeeps(h: HybridState, h': HybridState, l: Locks, st: Stamps, log: HybridLog, tokens: bool,
                      n: RadixTreeNode)
    requires Dropping(h, h', l, st, log, tokens)
    ensures Keeps(h.tree.pages, l, h'.tree.pages)
    ensures n in InUse(h.snaps) ==> n in h'.snaps && h'.snaps[n] == h.snaps[n]
  {
    RemovedKeeps(h.tree.pages, h'.tree.pages, l, log.from, log.taken);
    FreedNode(h.snaps, h'.snaps, log.victims, log.slots, n);
  }

  /** An empty hybrid tree. */
  lemma BareWhole(root: RadixTreeNode, ps: nat)
    requires ps > 0 && root.children == map[] && root.parent == null && root.refCount == 1
    requires root.mambaValue == None && root.mambaRefCount == 0
    ensures Whole(Bare(root), map[], SnapsOf({root}), ps, 0, 0) && Bare(root).root == root
    ensures Bare(root).paths.Keys == {root} && Bare(root).pages == map[]
            && |Spare(SnapsOf({root}))| == |InUse(SnapsOf({root}))| == 0
  {
    BareTree(root, ps);
    var t, s := Bare(root), SnapsOf({root});
    assert Spare(s) == {} && InUse(s) == {};
    assert SnapOk(t, map[], s, root);
  }

  class HybridRadixCache {
    const pageSize: nat
    const root: RadixTreeNode
    var fullEvictable: int
    var fullProtected: int
    var mambaEvictable: int
    var mambaProtected: int
    ghost var tree: NodeTree
    ghost var locks: Locks

    ghost predicate Valid()
      reads this, root`refCount, tree.paths.Keys`key, tree.paths.Keys`value, tree.paths.Keys`parent,
      tree.paths.Keys`children,
            tree.paths.Keys`refCount, tree.paths.Keys`mambaValue, tree.paths.Keys`mambaRefCount
    {
      && tree.root == root && Whole(tree, locks, SnapsOf(tree.paths.Keys), pageSize, fullEvictable, fullProtected)
      && SnapSizes(SnapsOf(tree.paths.Keys), mambaEvictable, mambaProtected)
    }

    /** When each cached prefix was used last. */
    ghost function LastUses(): map<Path, int>
      reads this`tree, tree.paths.Keys`timestamp
    {
      LastUse(tree, StampsOf(tree.paths.Keys))
    }

    lemma LastUsesAre()
      requires Valid()
      ensures LastUses() == LastUse(tree, StampsOf(tree.paths.Keys)) && LastUses().Keys == tree.pages.Keys
    {
      LinkedFacts(tree, pageSize);
      UseDomain(tree, StampsOf(tree.paths.Keys));
    }

    lemma Facts()
      requires Valid()
      ensures tree.root == root && Whole(tree, locks, SnapsOf(tree.paths.Keys), pageSize, fullEvictable, fullProtected)
      ensures SnapSizes(SnapsOf(tree.paths.Keys), mambaEvictable, mambaProtected)
      ensures mambaEvictable == |Spare(SnapsOf(tree.paths.Keys))| && mambaProtected == |InUse(SnapsOf(tree.paths.Keys))|
    {}

    lemma IsValid(s: Snaps, ev: int, pr: int)
      requires tree.root == root && Whole(tree, locks, s, pageSize, ev, pr) && ev == fullEvictable
               && pr == fullProtected
      requires mambaEvictable == |Spare(s)| && mambaProtected == |InUse(s)|
      ensures Valid() && s == SnapsOf(tree.paths.Keys)
    {}

    /** What holds of every node between the calls: a node without a live snapshot is internal, each
        count is the number of the locks it stands for, and no snapshot is locked more than its path. */
    lemma Integrity(n: RadixTreeNode)
      requires Valid() && n in tree.paths && n != root
      ensures n.children == map[] ==> n.mambaValue.Some?
      ensures n.refCount == RefCount(locks, tree.paths[n]) && n.mambaRefCount == |LocksAt(locks, tree.paths[n])|
      ensures 0 <= n.mambaRefCount <= n.refCount && (n.mambaRefCount > 0 ==> n.mambaValue.Some?)
    {
      var s := SnapsOf(tree.paths.Keys);
      NodeKids(tree, n, ViewsOf(tree.paths.Keys), pageSize);
      assert SnapOk(tree, locks, s, n);
      assert n.children == map[] ==> HasSnap(s, n);
      var p := tree.paths[n];
      forall i | i in LocksAt(locks, p) ensures i in Holders(locks, p) {}
      SubsetSize(LocksAt(locks, p), Holders(locks, p));
    }

    constructor (pageSize: nat, born: int)
      requires pageSize > 0
      ensures Valid() && fresh(tree.paths.Keys) && this.pageSize == pageSize && tree.pages == map[] && locks == map[]
      ensures fullEvictable == fullProtected == mambaEvictable == mambaProtected == 0
    {
      this.pageSize := pageSize;
      fullEvictable, fullProtected, mambaEvictable, mambaProtected := 0, 0, 0, 0;
      var node := NewRoot(born);
      root, tree, locks := node, Bare(node), map[];
      new;
      hide *;
      BareWhole(root, pageSize);
      IsValid(SnapsOf({root}), 0, 0);
    }

    /** Take over the tree that a walk left. */
    ghost method TakeOver(t: NodeTree)
      requires t.root == root && Whole(t, locks, SnapsOf(t.paths.Keys), pageSize, fullEvictable, fullProtected)
      requires |Spare(SnapsOf(t.paths.Keys))| == mambaEvictable && |InUse(SnapsOf(t.paths.Keys))| == mambaProtected
      modifies this`tree
      ensures Valid() && tree == t && SnapsOf(tree.paths.Keys) == old(SnapsOf(t.paths.Keys))
      ensures StampsOf(tree.paths.Keys) == old(StampsOf(t.paths.Keys))
    {
      hide *;
      tree := t;
      IsValid(SnapsOf(t.paths.Keys), fullEvictable, fullProtected);
    }

    /** The deepest boundary on the input's path that owns a live snapshot, with its slots. */
    method MatchPrefix(ids: seq<int>, tic: int) returns (m: HybridMatch, ghost end: Path)
      requires Valid()
      modifies this`tree, tree.paths.Keys`key, tree.paths.Keys`value, tree.paths.Keys`parent, tree.paths.Keys`children,
               tree.paths.Keys`timestamp
      ensures Valid() && fresh(tree.paths.Keys - old(tree.paths.Keys)) && Grown(old(tree), tree) && pageSize > 0
      ensures Matched(tree, SnapsOf(tree.paths.Keys), Pages(ids, pageSize), pageSize, m)
      ensures IsPrefix(end, Pages(ids, pageSize)) && Longest(tree.pages, Pages(ids, pageSize), |end|)
      ensures Touched(old(StampsOf(tree.paths.Keys)), StampsOf(tree.paths.Keys), tree, tic, end)
      ensures Used(old(LastUses()), LastUses(), end, tic)
    {
      hide *;
      Facts();
      LastUsesAre();
      ghost var walked;
      m, end, walked := MatchIn(root, ids, pageSize, tic, tree, locks, SnapsOf(tree.paths.Keys), fullEvictable,
                                fullProtected, StampsOf(tree.paths.Keys));
      TakeOver(walked);
      LastUsesAre();
    }

    /** Take over the tree that an insertion made, and count the tokens and the snapshot it added. */
    method Grow(ghost t: NodeTree, ghost s: Snaps, added: int, donated: bool)
      requires t.root == root && Whole(t, locks, s, pageSize, fullEvictable + added, fullProtected)
      requires |Spare(s)| == mambaEvictable + (if donated then 1 else 0) && |InUse(s)| == mambaProtected
      modifies this`tree, this`fullEvictable, this`mambaEvictable
      ensures Valid() && tree == t && SnapsOf(tree.paths.Keys) == s
      ensures StampsOf(tree.paths.Keys) == old(StampsOf(t.paths.Keys))
    {
      hide *;
      tree := t;
      fullEvictable := fullEvictable + added;
      if donated {
        mambaEvictable := mambaEvictable + 1;
      }
      IsValid(s, old(fullEvictable) + added, fullProtected);
    }

    /** Cache the whole pages of `ids` and donate the snapshot `v` at their end; `exist` says that the
        caller keeps its snapshot. What was cached of them counts as used at `tic`, a new node at `born`. */
    method Insert(ids: seq<int>, kvIndices: seq<int>, v: int, tic: int, born: int)
      returns (prefixLen: nat, exist: bool, ghost node: RadixTreeNode, ghost k: nat)
      requires Valid() && (pageSize > 0 ==> AlignDown(|ids|, pageSize) <= |kvIndices|)
      modifies this`tree, this`fullEvictable, this`mambaEvictable, tree.paths.Keys`key, tree.paths.Keys`value,
               tree.paths.Keys`parent,
               tree.paths.Keys`children, tree.paths.Keys`timestamp, tree.paths.Keys`mambaValue
      ensures Valid() && fresh(tree.paths.Keys - old(tree.paths.Keys)) && PathsKept(old(tree), tree)
      ensures pageSize > 0 && AlignDown(|ids|, pageSize) <= |ids|
      ensures Inserted(old(tree.pages), tree.pages, Pages(ids, pageSize), NewSlots(ids, kvIndices, pageSize), k)
      ensures prefixLen == Tokens(k, pageSize) && node in tree.paths && tree.paths[node] == Pages(ids, pageSize)
      ensures Donated(old(SnapsOf(tree.paths.Keys)), SnapsOf(tree.paths.Keys), root, node, v, exist)
      ensures k <= |Pages(ids, pageSize)|
      ensures Stamped(old(StampsOf(tree.paths.Keys)), StampsOf(tree.paths.Keys), tree, Pages(ids, pageSize), k, tic,
                      born)
      ensures UsedTo(old(LastUses()), LastUses(), Pages(ids, pageSize), k, tic, born)
    {
      hide *;
      Facts();
      LastUsesAre();
      ghost var s := SnapsOf(tree.paths.Keys);
      var end, added;
      ghost var s';
      ghost var grown;
      end, prefixLen, added, exist, k, grown, s' :=
        InsertIn(root, ids, kvIndices, v, pageSize, tic, born, tree, locks, s, fullEvictable, fullProtected,
                 StampsOf(tree.paths.Keys));
      node := end;
      Grow(grown, s', added, !exist && end.mambaRefCount == 0);
      LastUsesAre();
    }

    /** Count snapshots and tokens that became protected; negative numbers are released. */
    method Protect(ghost l: Locks, snaps: int, tokens: int)
      modifies this`fullEvictable, this`fullProtected, this`mambaEvictable, this`mambaProtected, this`locks
      ensures locks == l && mambaEvictable == old(mambaEvictable) - snaps
              && mambaProtected == old(mambaProtected) + snaps
      ensures fullEvictable == old(fullEvictable) - tokens && fullProtected == old(fullProtected) + tokens
    {
      locks := l;
      mambaEvictable, mambaProtected := mambaEvictable - snaps, mambaProtected + snaps;
      fullEvictable, fullProtected := fullEvictable - tokens, fullProtected + tokens;
    }

    /** Count what an eviction took. */
    method Shrink(ghost t: NodeTree, tokens: int, snaps: int)
      modifies this`tree, this`fullEvictable, this`mambaEvictable
      ensures tree == t && fullEvictable == old(fullEvictable) - tokens && mambaEvictable == old(mambaEvictable) - snaps
    {
      tree := t;
      fullEvictable, mambaEvictable := fullEvictable - tokens, mambaEvictable - snaps;
    }

    /** Lock a matched node: its snapshot, and the KV path up to the root. */
    method IncLock(node: RadixTreeNode, ghost ticket: int)
      requires Valid() && node in tree.paths && ticket !in locks && (node == root || node.mambaValue.Some?)
      modifies this`fullEvictable, this`fullProtected, this`mambaEvictable, this`mambaProtected, this`locks,
               node`mambaRefCount, (tree.paths.Keys - {root})`refCount
      ensures Valid() && locks == old(locks)[ticket := tree.paths[node]]
    {
      hide *;
      Facts();
      var moved, pinned;
      ghost var s';
      moved, pinned, s' := LockBoth(node, pageSize, tree, locks, SnapsOf(tree.paths.Keys), fullEvictable, fullProtected,
                                    ticket);
      Protect(locks[ticket := tree.paths[node]], moved, pinned);
      IsValid(s', old(fullEvictable) - pinned, old(fullProtected) + pinned);
    }

    /** Release a lock. */
    method DecLock(node: RadixTreeNode, ghost ticket: int)
      requires Valid() && node in tree.paths && ticket in locks && locks[ticket] == tree.paths[node]
      modifies this`fullEvictable, this`fullProtected, this`mambaEvictable, this`mambaProtected, this`locks,
               node`mambaRefCount, (tree.paths.Keys - {root})`refCount
      ensures Valid() && locks == old(locks) - {ticket}
    {
      hide *;
      Facts();
      var moved, freed: int;
      ghost var s';
      moved, freed, s' := UnlockBoth(node, pageSize, tree, locks, SnapsOf(tree.paths.Keys), fullEvictable,
                                     fullProtected, ticket);
      Protect(locks - {ticket}, -moved, -freed);
      IsValid(s', old(fullEvictable) + freed, old(fullProtected) - freed);
    }

    /** Evict KV tokens, least recently used idle leaves first: at least `num` of them, or all that are
        evictable, and no leaf after that. What is returned is exactly what left the tree. */
    method EvictFull(num: nat) returns (result: EvictResult, ghost log: HybridLog)
      requires Valid()
      modifies this`tree, this`fullEvictable, this`mambaEvictable, tree.paths.Keys`children, tree.paths.Keys`mambaValue
      ensures Valid() && tree.paths.Keys <= old(tree.paths.Keys)
      ensures Dropping(old(HybridState(tree, SnapsOf(tree.paths.Keys))), HybridState(tree, SnapsOf(tree.paths.Keys)),
                       locks, old(StampsOf(tree.paths.Keys)), log, true)
      ensures result.kvIndices == Flat(log.taken) && result.mambaSlots == log.slots
      ensures |result.kvIndices| >= num || |result.kvIndices| == old(fullEvictable)
      ensures NotTooMany(log, num, pageSize)
      ensures fullEvictable == old(fullEvictable) - |result.kvIndices|
              && mambaEvictable == old(mambaEvictable) - |result.mambaSlots|
    {
      hide *;
      Facts();
      ghost var h, s := HybridState(tree, SnapsOf(tree.paths.Keys)), SnapsOf(tree.paths.Keys);
      result, h, log := EvictTokens(root, num, pageSize, tree, locks, s, fullEvictable, fullProtected);
      StateFacts(HybridState(old(tree), s), h, locks, old(StampsOf(tree.paths.Keys)), log, true, pageSize,
                 fullEvictable, fullProtected);
      Shrink(h.tree, |result.kvIndices|, |result.mambaSlots|);
      IsValid(h.snaps, old(fullEvictable) - |Flat(log.taken)|, fullProtected);
    }

    /** Evict snapshots, least recently used unlocked ones first: exactly `num` of them, or all that are
        evictable. What is returned is exactly what left the tree. */
    method EvictMamba(num: nat) returns (result: EvictResult, ghost log: HybridLog)
      requires Valid()
      modifies this`tree, this`fullEvictable, this`mambaEvictable, tree.paths.Keys`children, tree.paths.Keys`mambaValue
      ensures Valid() && tree.paths.Keys <= old(tree.paths.Keys)
      ensures Dropping(old(HybridState(tree, SnapsOf(tree.paths.Keys))), HybridState(tree, SnapsOf(tree.paths.Keys)),
                       locks, old(StampsOf(tree.paths.Keys)), log, false)
      ensures result.kvIndices == Flat(log.taken) && result.mambaSlots == log.slots
      ensures |result.mambaSlots| == if num < old(mambaEvictable) then num else old(mambaEvictable)
      ensures fullEvictable == old(fullEvictable) - |result.kvIndices|
              && mambaEvictable == old(mambaEvictable) - |result.mambaSlots|
    {
      hide *;
      Facts();
      ghost var h, s := HybridState(tree, SnapsOf(tree.paths.Keys)), SnapsOf(tree.paths.Keys);
      result, h, log := EvictSnapshots(root, num, pageSize, tree, locks, s, fullEvictable, fullProtected);
      StateFacts(HybridState(old(tree), s), h, locks, old(StampsOf(tree.paths.Keys)), log, false, pageSize,
                 fullEvictable, fullProtected);
      Shrink(h.tree, |result.kvIndices|, |result.mambaSlots|);
      IsValid(h.snaps, old(fullEvictable) - |Flat(log.taken)|, fullProtected);
    }
  }
}
