/** Evicting from the hybrid tree: what dropping a node does, the cascade of tombstone leaves it sets
    off, and the record of a whole eviction. */
module HybridEviction {
  import opened Finite
  import opened Rosters
  import opened PageTree
  import opened Paging
  import opened PathLocks
  import opened Eviction
  import opened RadixNodes
  import opened RadixCache
  import opened HybridTree

  ghost predicate TombstoneLeaf(t: NodeTree, l: Locks, s: Snaps, p: RadixTreeNode) {
    p in t.paths && p in t.cuts && Prunable(t, p) && RefCount(l, t.paths[p]) == 0 && p in s && s[p].value == None
  }

  /** Tombstone leaves go, from `p` upwards, until one is locked, has children or a live snapshot. */
  ghost function CascadeFrom(t: NodeTree, l: Locks, s: Snaps, p: RadixTreeNode): NodeTree
    decreases |t.paths.Keys|
  {
    if TombstoneLeaf(t, l, s, p) then
      assert Prune(t, p).paths.Keys == t.paths.Keys - {p};
      CascadeFrom(Prune(t, p), l, s, t.cuts[p].up)
    else t
  }

  ghost function Restrict(s: Snaps, t: NodeTree): Snaps {
    map n | n in s && n in t.paths :: s[n]
  }

  datatype HybridState = HybridState(tree: NodeTree, snaps: Snaps)

  /** The tree after `n` gave up its snapshot: an idle leaf goes, with the tombstones it leaves bare. */
  ghost function AfterDrop(h: HybridState, l: Locks, n: RadixTreeNode): HybridState {
    var s := h.snaps[n := Snap(None, 0)];
    var t := CascadeFrom(h.tree, l, s, n);
    HybridState(t, Restrict(s, t))
  }

  /** What an eviction may take: idle leaves for tokens, unlocked snapshots for snapshots. */
  ghost function Candidates(h: HybridState, l: Locks, tokens: bool): set<RadixTreeNode> {
    if tokens then IdleLeaves(h.tree, l) else Spare(h.snaps)
  }

  ghost predicate DropStep(h: HybridState, n: RadixTreeNode, h': HybridState, l: Locks, st: Stamps, tokens: bool) {
    && n in Candidates(h, l, tokens) && n in st && h' == AfterDrop(h, l, n)
    && forall m :: m in Candidates(h, l, tokens) && m in st ==> st[n] <= st[m]
  }

  /** Exactly the snapshots `slots` of the nodes `nodes` left; the tree lost no other. */
  ghost predicate Freed(s: Snaps, s': Snaps, nodes: seq<RadixTreeNode>, slots: seq<int>) {
    && |nodes| == |slots| && Distinct(nodes) && s'.Keys <= s.Keys
    && (forall i {:trigger nodes[i]} :: 0 <= i < |nodes| ==> nodes[i] in s && s[nodes[i]] == Snap(Some(slots[i]), 0))
    && (forall n :: n in s' ==> if n in nodes then s'[n] == Snap(None, 0) else s'[n] == s[n])
    && (forall n :: n in s && n !in s' && n !in nodes ==> s[n].value == None)
  }

  /** The record of an eviction. */
  datatype HybridLog = HybridLog(states: seq<HybridState>, victims: seq<RadixTreeNode>, from: seq<Path>,
                                 taken: seq<Page>, slots: seq<int>)

  ghost predicate DropRun(log: HybridLog, l: Locks, st: Stamps, tokens: bool) {
    && |log.states| == |log.victims| + 1
    && forall i :: 0 <= i < |log.victims| ==> DropStep(log.states[i], log.victims[i], log.states[i + 1], l, st, tokens)
  }

  /** Pages went, all of them unlocked, and only nodes that no lock holds. */
  ghost predicate Shed(t: NodeTree, t': NodeTree, l: Locks, from: seq<Path>, taken: seq<Page>) {
    && Removed(t.pages, t'.pages, from, taken) && (forall u :: u in from ==> RefCount(l, u) == 0)
    && NodesKept(t, t', l) && t'.cuts.Keys <= t.cuts.Keys
  }

  ghost predicate Dropping(h: HybridState, h': HybridState, l: Locks, st: Stamps, log: HybridLog, tokens: bool) {
    && DropRun(log, l, st, tokens) && log.states[0] == h && log.states[|log.victims|] == h'
    && Shed(h.tree, h'.tree, l, log.from, log.taken) && Freed(h.snaps, h'.snaps, log.victims, log.slots)
  }

  lemma ShedNone(t: NodeTree, l: Locks)
    ensures Shed(t, t, l, [], [])
  {
    RemovedNone(t.pages);
  }

  lemma ShedMore(t: NodeTree, t': NodeTree, t'': NodeTree, l: Locks, from: seq<Path>, taken: seq<Page>, more: seq<Path>,
                 slots: seq<Page>)
    requires Shed(t, t', l, from, taken) && Shed(t', t'', l, more, slots)
    ensures Shed(t, t'', l, from + more, taken + slots)
  {
    hide RefCount, Removed;
    RemovedMore(t.pages, t'.pages, t''.pages, from, taken, more, slots);
  }

  lemma PruneKept(t: NodeTree, l: Locks, n: RadixTreeNode)
    requires Prunable(t, n) && n in t.paths && n in t.cuts && RefCount(l, t.paths[n]) == 0
    ensures NodesKept(t, Prune(t, n), l) && Prune(t, n).cuts.Keys <= t.cuts.Keys
  {}

  lemma IsShed(t: NodeTree, t': NodeTree, l: Locks, from: seq<Path>, taken: seq<Page>)
    requires Removed(t.pages, t'.pages, from, taken) && forall u :: u in from ==> RefCount(l, u) == 0
    requires NodesKept(t, t', l) && t'.cuts.Keys <= t.cuts.Keys
    ensures Shed(t, t', l, from, taken)
  {}

  lemma ShedPrune(t: NodeTree, l: Locks, n: RadixTreeNode)
    requires Prunable(t, n) && Anchored(t, l) && n in t.paths && n in t.cuts && RefCount(l, t.paths[n]) == 0
             && NodeOk(t, n)
    ensures t.cuts[n].start <= |t.paths[n]|
    ensures Shed(t, Prune(t, n), l, Rungs(t.paths[n], t.cuts[n].start), t.cuts[n].slots)
  {
    hide *;
    PruneRemoves(t, n);
    PruneUnlocked(t, l, n);
    PruneKept(t, l, n);
    IsShed(t, Prune(t, n), l, Rungs(t.paths[n], t.cuts[n].start), t.cuts[n].slots);
  }

  // ---------------------------------------------------------------- the cascade

  /** The tree in the middle of a cascade that has reached `p`. */
  ghost predicate Cascading(t: NodeTree, l: Locks, s: Snaps, ps: nat, p: RadixTreeNode, ev: int, pr: int)
    reads t.paths.Keys`key, t.paths.Keys`value, t.paths.Keys`parent, t.paths.Keys`children, t.paths.Keys`refCount
  {
    && Linked(t, ps) && Counted(t, l) && Anchored(t, l) && t.root in t.paths && t.root.refCount == 1
    && p in t.paths && SnapsOk(t, l, s) && LeavesLive(t, s, {p}) && Sizes(t.pages, l, ps, ev, pr)
  }

  lemma CascadingFacts(t: NodeTree, l: Locks, s: Snaps, ps: nat, p: RadixTreeNode, ev: int, pr: int)
    requires Cascading(t, l, s, ps, p, ev, pr)
    ensures Linked(t, ps) && Counted(t, l) && Anchored(t, l) && WellFormed(t) && t.root in t.paths
            && t.root.refCount == 1 && ps > 0
    ensures p in t.paths && SnapsOk(t, l, s) && LeavesLive(t, s, {p}) && Sizes(t.pages, l, ps, ev, pr)
            && s.Keys == t.paths.Keys
  {}

  lemma IsTombstone(t: NodeTree, l: Locks, s: Snaps, p: RadixTreeNode)
    requires WellFormed(t) && p in t.paths && p in s && t.root in t.paths
    ensures TombstoneLeaf(t, l, s, p) <==> p != t.root && IsIdleLeaf(t, l, p) && s[p].value == None
    ensures TombstoneLeaf(t, l, s, p) ==>
              && p in t.cuts && p != t.root && p in IdleLeaves(t, l) && Prunable(t, p) && NodeOk(t, p)
              && RefCount(l, t.paths[p]) == 0 && t.cuts[p].up in t.paths && s[p].value == None
  {
    assert p in t.cuts ==> NodeOk(t, p);
  }

  /** Where the cascade stops, every leaf has its snapshot. */
  lemma NoTombstone(t: NodeTree, l: Locks, s: Snaps, p: RadixTreeNode)
    requires WellFormed(t) && Anchored(t, l) && SnapsOk(t, l, s) && LeavesLive(t, s, {p}) && p in t.paths && p in s
    requires !(p != t.root && IsIdleLeaf(t, l, p) && s[p].value == None)
    ensures LeavesLive(t, s, {})
  {
    if IsLeaf(t, p) && p != t.root && RefCount(l, t.paths[p]) > 0 {
      LeafLocked(t, l, s, p);
    }
    hide WellFormed, SnapsOk, Anchored;
    forall n | n in t.paths && IsLeaf(t, n) ensures HasSnap(s, n) {}
  }

  lemma ValueAt(t: NodeTree, s: Snaps, n: RadixTreeNode, ps: nat)
    requires Linked(t, ps) && n in t.cuts && n in t.paths && s == SnapsOf(t.paths.Keys)
    ensures n.value == Flat(t.cuts[n].slots) && n in s && s[n].value == n.mambaValue
    ensures |n.key| == |n.value| == Tokens(|t.cuts[n].span|, ps)
  {
    NodeFields(t, n, ViewsOf(t.paths.Keys), ps);
  }

  /** The test of the cascade, read off the fields. */
  lemma CascadeTest(t: NodeTree, l: Locks, s: Snaps, ps: nat, p: RadixTreeNode, ev: int, pr: int)
    requires Cascading(t, l, s, ps, p, ev, pr) && s == SnapsOf(t.paths.Keys)
    ensures p.mambaValue == None && p.children == map[] && p.refCount == 0 && p.parent != null
            <==> TombstoneLeaf(t, l, s, p)
    ensures TombstoneLeaf(t, l, s, p) ==>
              && p in t.cuts && p != t.root && p in IdleLeaves(t, l) && Prunable(t, p) && NodeOk(t, p)
              && RefCount(l, t.paths[p]) == 0 && |p.key| == |p.value| == Tokens(|t.cuts[p].span|, ps)
              && p.value == Flat(t.cuts[p].slots) && t.cuts[p].up in t.paths && s[p].value == None
    ensures !TombstoneLeaf(t, l, s, p) ==> LeavesLive(t, s, {})
  {
    hide *;
    CascadingFacts(t, l, s, ps, p, ev, pr);
    NodeFacts(t, p, ps);
    ParentFacts(t, l, p, ps);
    IsTombstone(t, l, s, p);
    if p in t.cuts {
      ValueAt(t, s, p, ps);
    }
    if !TombstoneLeaf(t, l, s, p) {
      NoTombstone(t, l, s, p);
    }
  }

  /** The idle leaves of a tree in the middle of a cascade: those in the heap, and maybe `p`. */
  ghost predicate HeapBut(t: NodeTree, l: Locks, heap: set<RadixTreeNode>, p: RadixTreeNode) {
    IdleLeaves(t, l) == heap + (if IsIdleLeaf(t, l, p) then {p} else {}) && p !in heap
  }

  lemma HeapStep(t: NodeTree, l: Locks, heap: set<RadixTreeNode>, p: RadixTreeNode)
    requires HeapBut(t, l, heap, p) && Prunable(t, p) && p in t.paths && p in t.cuts && IsIdleLeaf(t, l, p)
             && NodeOk(t, p)
    ensures HeapBut(Prune(t, p), l, heap, t.cuts[p].up)
  {
    IdleLeavesPrune(t, l, p);
    UpNoLeaf(t, l, p);
  }

  /** A node with a child is no leaf. */
  lemma UpNoLeaf(t: NodeTree, l: Locks, p: RadixTreeNode)
    requires Prunable(t, p) && p in t.paths && p in t.cuts
    ensures t.cuts[p].up !in IdleLeaves(t, l) && t.cuts[p].up != p
  {
    assert IsKid(t, t.cuts[p].up, t.cuts[p].span[0], p);
  }

  lemma CascadeUnfold(t: NodeTree, l: Locks, s: Snaps, s': Snaps, p: RadixTreeNode)
    requires TombstoneLeaf(t, l, s, p)
    ensures NodeOk(t, p) && CascadeFrom(t, l, s, p) == CascadeFrom(Prune(t, p), l, s, t.cuts[p].up)
  {}

  lemma CascadeStops(t: NodeTree, l: Locks, s: Snaps, p: RadixTreeNode)
    requires !TombstoneLeaf(t, l, s, p)
    ensures CascadeFrom(t, l, s, p) == t
  {}

  /** Only what `s` says about the nodes of `t` matters to a cascade. */
  lemma {:induction false} CascadeSame(t: NodeTree, l: Locks, s: Snaps, s': Snaps, p: RadixTreeNode)
    requires forall n :: n in t.paths ==> (n in s <==> n in s') && (n in s ==> s[n] == s'[n])
    ensures CascadeFrom(t, l, s, p) == CascadeFrom(t, l, s', p)
    decreases |t.paths.Keys|
  {
    hide Prunable, RefCount;
    if TombstoneLeaf(t, l, s, p) {
      assert TombstoneLeaf(t, l, s', p);
      PruneKeysOf(t, p);
      CascadeUnfold(t, l, s, s', p);
      CascadeUnfold(t, l, s', s, p);
      CascadeSame(Prune(t, p), l, s, s', t.cuts[p].up);
    } else {
      assert !TombstoneLeaf(t, l, s', p);
    }
  }

  lemma PruneKeysOf(t: NodeTree, p: RadixTreeNode)
    requires Prunable(t, p) && p in t.paths
    ensures NodeOk(t, p) && Prune(t, p).paths.Keys == t.paths.Keys - {p} && |t.paths.Keys - {p}| < |t.paths.Keys|
  {}

  lemma CascadedOn(t: NodeTree, l: Locks, s: Snaps, ps: nat, p: RadixTreeNode, ev: int, pr: int)
    requires Cascading(t, l, s, ps, p, ev, pr) && TombstoneLeaf(t, l, s, p) && p != t.root && NodeOk(t, p)
             && p in t.cuts
    ensures var t', s' := Prune(t, p), s - {p};
            && SnapsOk(t', l, s') && LeavesLive(t', s', {t.cuts[p].up}) && t'.root == t.root && t.root in t'.paths
            && Sizes(t'.pages, l, ps, ev - Tokens(|t.cuts[p].span|, ps), pr)
            && Spare(s') == Spare(s) && InUse(s') == InUse(s) && t'.paths.Keys == t.paths.Keys - {p}
            && t.cuts[p].up in t'.paths
    ensures t.cuts[p].start <= |t.paths[p]|
    ensures Shed(t, Prune(t, p), l, Rungs(t.paths[p], t.cuts[p].start), t.cuts[p].slots)
    ensures CascadeFrom(t, l, s, p) == CascadeFrom(Prune(t, p), l, s - {p}, t.cuts[p].up)
  {
    hide *;
    CascadingFacts(t, l, s, ps, p, ev, pr);
    TombstoneFacts(t, l, s, p);
    PruneSnaps(t, l, s, p);
    EvictSizes(t, l, p, ps, ev, pr);
    ShedPrune(t, l, p);
    PruneRoot(t, p);
    CascadeUnfold(t, l, s, s, p);
    CascadeSame(Prune(t, p), l, s, s - {p}, t.cuts[p].up);
  }

  lemma TombstoneFacts(t: NodeTree, l: Locks, s: Snaps, p: RadixTreeNode)
    requires TombstoneLeaf(t, l, s, p)
    ensures p in t.paths && p in t.cuts && Prunable(t, p) && RefCount(l, t.paths[p]) == 0 && p in s
            && s[p].value == None
    ensures NodeOk(t, p) && IsIdleLeaf(t, l, p)
  {}

  lemma IsCascading(t: NodeTree, l: Locks, s: Snaps, ps: nat, p: RadixTreeNode, ev: int, pr: int)
    requires Linked(t, ps) && Counted(t, l) && Anchored(t, l) && t.root in t.paths && t.root.refCount == 1
    requires p in t.paths && SnapsOk(t, l, s) && LeavesLive(t, s, {p}) && Sizes(t.pages, l, ps, ev, pr)
    ensures Cascading(t, l, s, ps, p, ev, pr)
  {}

  /** One tombstone leaf of the cascade goes. */
  method CascadeOne(p: RadixTreeNode, ps: nat, ghost t: NodeTree, ghost l: Locks, ghost s: Snaps, ghost ev: int,
                    ghost pr: int, ghost heap: set<RadixTreeNode>)
    returns (parent: RadixTreeNode, ghost t': NodeTree, ghost s': Snaps, ghost left: int)
    requires Cascading(t, l, s, ps, p, ev, pr) && TombstoneLeaf(t, l, s, p) && s == SnapsOf(t.paths.Keys)
             && HeapBut(t, l, heap, p)
    modifies t.paths.Keys`children
    ensures Cascading(t', l, s', ps, parent, left, pr) && left == ev - |p.key| && s' == SnapsOf(t'.paths.Keys)
            && HeapBut(t', l, heap, parent)
    ensures t'.root == t.root && t'.paths.Keys == t.paths.Keys - {p} && p in t.paths && Spare(s') == Spare(s)
            && InUse(s') == InUse(s)
    ensures p in t.cuts && t.cuts[p].start <= |t.paths[p]| && p.value == Flat(t.cuts[p].slots) && |p.key| == |p.value|
    ensures Shed(t, t', l, Rungs(t.paths[p], t.cuts[p].start), t.cuts[p].slots)
    ensures CascadeFrom(t, l, s, p) == CascadeFrom(t', l, s', parent)
  {
    hide *;
    CascadingFacts(t, l, s, ps, p, ev, pr);
    CascadeTest(t, l, s, ps, p, ev, pr);
    TombstoneFacts(t, l, s, p);
    CascadedOn(t, l, s, ps, p, ev, pr);
    HeapStep(t, l, heap, p);
    parent, t' := Unlink(p, ps, t, l);
    s' := s - {p};
    assert s' == SnapsOf(t'.paths.Keys);
    left := ev - |p.key|;
    IsCascading(t', l, s', ps, parent, left, pr);
  }

  /** What a cascade has done so far: from the tree `t0` at `start` to the tree `t` at `p`. */
  ghost predicate Cascaded(t0: NodeTree, s0: Snaps, start: RadixTreeNode, t: NodeTree, s: Snaps, p: RadixTreeNode,
                           l: Locks, from: seq<Path>, taken: seq<Page>) {
    && Shed(t0, t, l, from, taken) && CascadeFrom(t0, l, s0, start) == CascadeFrom(t, l, s, p)
    && Spare(s) == Spare(s0) && InUse(s) == InUse(s0) && t.root == t0.root && t.paths.Keys <= t0.paths.Keys
  }

  lemma CascadedNone(t: NodeTree, s: Snaps, p: RadixTreeNode, l: Locks)
    ensures Cascaded(t, s, p, t, s, p, l, [], []) && Flat([]) == []
  {
    ShedNone(t, l);
  }

  lemma CascadedMore(t0: NodeTree, s0: Snaps, start: RadixTreeNode, t: NodeTree, s: Snaps, p: RadixTreeNode, l: Locks,
                     from: seq<Path>, taken: seq<Page>, t': NodeTree, s': Snaps, p': RadixTreeNode, more: seq<Path>,
                     slots: seq<Page>)
    requires Cascaded(t0, s0, start, t, s, p, l, from, taken) && Cascaded(t, s, p, t', s', p', l, more, slots)
    ensures Cascaded(t0, s0, start, t', s', p', l, from + more, taken + slots)
    ensures Flat(taken + slots) == Flat(taken) + Flat(slots)
  {
    hide Shed, CascadeFrom, Spare, InUse;
    ShedMore(t0, t, t', l, from, taken, more, slots);
    FlatConcat(taken, slots);
  }

  lemma IsCascaded(t0: NodeTree, s0: Snaps, start: RadixTreeNode, t: NodeTree, s: Snaps, p: RadixTreeNode, l: Locks,
                   from: seq<Path>, taken: seq<Page>)
    requires Shed(t0, t, l, from, taken) && CascadeFrom(t0, l, s0, start) == CascadeFrom(t, l, s, p)
    requires Spare(s) == Spare(s0) && InUse(s) == InUse(s0) && t.root == t0.root && t.paths.Keys <= t0.paths.Keys
    ensures Cascaded(t0, s0, start, t, s, p, l, from, taken)
  {}

  /** A cascade from `start` in `t0` that has reached `p` in `t`. */
  ghost predicate MidCascade(t0: NodeTree, s0: Snaps, start: RadixTreeNode, t: NodeTree, s: Snaps, p: RadixTreeNode,
                             l: Locks, ps: nat, ev: int, pr: int, heap: set<RadixTreeNode>, from: seq<Path>,
                             taken: seq<Page>)
    reads t.paths.Keys`key, t.paths.Keys`value, t.paths.Keys`parent, t.paths.Keys`children, t.paths.Keys`refCount,
          t.paths.Keys`mambaValue, t.paths.Keys`mambaRefCount
  {
    && Cascading(t, l, s, ps, p, ev - |Flat(taken)|, pr) && s == SnapsOf(t.paths.Keys) && HeapBut(t, l, heap, p)
    && Cascaded(t0, s0, start, t, s, p, l, from, taken)
  }

  lemma MidFacts(t0: NodeTree, s0: Snaps, start: RadixTreeNode, t: NodeTree, s: Snaps, p: RadixTreeNode, l: Locks,
                 ps: nat, ev: int, pr: int, heap: set<RadixTreeNode>, from: seq<Path>, taken: seq<Page>)
    requires MidCascade(t0, s0, start, t, s, p, l, ps, ev, pr, heap, from, taken)
    ensures Cascading(t, l, s, ps, p, ev - |Flat(taken)|, pr) && s == SnapsOf(t.paths.Keys) && HeapBut(t, l, heap, p)
    ensures Cascaded(t0, s0, start, t, s, p, l, from, taken) && t.paths.Keys <= t0.paths.Keys && t.root == t0.root
            && p in t.paths
  {}

  lemma IsMid(t0: NodeTree, s0: Snaps, start: RadixTreeNode, t: NodeTree, s: Snaps, p: RadixTreeNode, l: Locks, ps: nat,
              ev: int, pr: int, heap: set<RadixTreeNode>, from: seq<Path>, taken: seq<Page>)
    requires Cascading(t, l, s, ps, p, ev - |Flat(taken)|, pr) && s == SnapsOf(t.paths.Keys) && HeapBut(t, l, heap, p)
    requires Cascaded(t0, s0, start, t, s, p, l, from, taken)
    ensures MidCascade(t0, s0, start, t, s, p, l, ps, ev, pr, heap, from, taken)
  {}

  /** One round of a cascade, with its record. */
  method CascadeRound(p: RadixTreeNode, ps: nat, ghost t0: NodeTree, ghost s0: Snaps, ghost start: RadixTreeNode,
                      ghost t: NodeTree, ghost s: Snaps, ghost l: Locks, ghost ev: int, ghost pr: int,
                      ghost heap: set<RadixTreeNode>, ghost from: seq<Path>, ghost taken: seq<Page>)
    returns (parent: RadixTreeNode, slots: seq<int>, ghost t': NodeTree, ghost s': Snaps, ghost from': seq<Path>,
             ghost taken': seq<Page>)
    requires MidCascade(t0, s0, start, t, s, p, l, ps, ev, pr, heap, from, taken) && TombstoneLeaf(t, l, s, p)
    modifies t.paths.Keys`children
    ensures MidCascade(t0, s0, start, t', s', parent, l, ps, ev, pr, heap, from', taken')
    ensures Flat(taken') == Flat(taken) + slots && |t'.paths.Keys| < |t.paths.Keys| && t'.paths.Keys <= t.paths.Keys
  {
    hide *;
    MidFacts(t0, s0, start, t, s, p, l, ps, ev, pr, heap, from, taken);
    ghost var left;
    parent, t', s', left := CascadeOne(p, ps, t, l, s, ev - |Flat(taken)|, pr, heap);
    ghost var more, gone := Rungs(t.paths[p], t.cuts[p].start), t.cuts[p].slots;
    slots, from', taken' := p.value, from + more, taken + gone;
    SubsetSize(t'.paths.Keys, t.paths.Keys - {p});
    MidMore(t0, s0, start, t, s, p, l, ps, ev, pr, heap, from, taken, t', s', parent, more, gone, left);
  }

  /** One more node is gone. */
  lemma MidMore(t0: NodeTree, s0: Snaps, start: RadixTreeNode, t: NodeTree, s: Snaps, p: RadixTreeNode, l: Locks,
                ps: nat, ev: int, pr: int, heap: set<RadixTreeNode>, from: seq<Path>, taken: seq<Page>, t': NodeTree,
                s': Snaps, parent: RadixTreeNode, more: seq<Path>, gone: seq<Page>, left: int)
    requires Cascaded(t0, s0, start, t, s, p, l, from, taken) && Shed(t, t', l, more, gone)
    requires CascadeFrom(t, l, s, p) == CascadeFrom(t', l, s', parent) && Spare(s') == Spare(s) && InUse(s') == InUse(s)
    requires t'.root == t.root && t'.paths.Keys <= t.paths.Keys && s' == SnapsOf(t'.paths.Keys)
             && HeapBut(t', l, heap, parent)
    requires Cascading(t', l, s', ps, parent, left, pr) && left == ev - |Flat(taken)| - |Flat(gone)|
    ensures MidCascade(t0, s0, start, t', s', parent, l, ps, ev, pr, heap, from + more, taken + gone)
    ensures Flat(taken + gone) == Flat(taken) + Flat(gone)
  {
    hide *;
    IsCascaded(t, s, p, t', s', parent, l, more, gone);
    CascadedMore(t0, s0, start, t, s, p, l, from, taken, t', s', parent, more, gone);
    assert left == ev - |Flat(taken + gone)|;
    IsMid(t0, s0, start, t', s', parent, l, ps, ev, pr, heap, from + more, taken + gone);
  }

  /** The test of the cascade, in the middle of one. */
  lemma MidTest(t0: NodeTree, s0: Snaps, start: RadixTreeNode, t: NodeTree, s: Snaps, p: RadixTreeNode, l: Locks,
                ps: nat, ev: int, pr: int, heap: set<RadixTreeNode>, from: seq<Path>, taken: seq<Page>)
    requires MidCascade(t0, s0, start, t, s, p, l, ps, ev, pr, heap, from, taken)
    ensures p.mambaValue == None && p.children == map[] && p.refCount == 0 && p.parent != null
            <==> TombstoneLeaf(t, l, s, p)
    ensures !TombstoneLeaf(t, l, s, p) ==> LeavesLive(t, s, {})
  {
    hide *;
    MidFacts(t0, s0, start, t, s, p, l, ps, ev, pr, heap, from, taken);
    CascadeTest(t, l, s, ps, p, ev - |Flat(taken)|, pr);
  }

  /** Reclaim the tombstone leaves that an unlinked leaf exposes, walking up from its parent. */
  method CascadeTombstones(start: RadixTreeNode, kv: seq<int>, ps: nat, ghost t0: NodeTree, ghost l: Locks,
                           ghost s0: Snaps, ghost ev: int, ghost pr: int, ghost heap: set<RadixTreeNode>)
    returns (top: RadixTreeNode, kv': seq<int>, freed: nat, ghost t: NodeTree, ghost s: Snaps, ghost from: seq<Path>,
             ghost taken: seq<Page>)
    requires Cascading(t0, l, s0, ps, start, ev, pr) && s0 == SnapsOf(t0.paths.Keys) && HeapBut(t0, l, heap, start)
    modifies t0.paths.Keys`children
    ensures MidCascade(t0, s0, start, t, s, top, l, ps, ev, pr, heap, from, taken)
    ensures LeavesLive(t, s, {}) && !TombstoneLeaf(t, l, s, top) && t.paths.Keys <= t0.paths.Keys
    ensures kv' == kv + Flat(taken) && freed == |Flat(taken)|
  {
    hide *;
    top, kv', freed, t, s, from, taken := start, kv, 0, t0, s0, [], [];
    CascadedNone(t0, s0, start, l);
    IsMid(t0, s0, start, t, s, top, l, ps, ev, pr, heap, from, taken);
    MidTest(t0, s0, start, t, s, top, l, ps, ev, pr, heap, from, taken);
    while top.mambaValue == None && top.children == map[] && top.refCount == 0 && top.parent != null
      invariant MidCascade(t0, s0, start, t, s, top, l, ps, ev, pr, heap, from, taken)
      invariant kv' == kv + Flat(taken) && freed == |Flat(taken)| && t.paths.Keys <= t0.paths.Keys
      decreases |t.paths.Keys|
    {
      var slots;
      MidTest(t0, s0, start, t, s, top, l, ps, ev, pr, heap, from, taken);
      top, slots, t, s, from, taken := CascadeRound(top, ps, t0, s0, start, t, s, l, ev, pr, heap, from, taken);
      kv', freed := kv' + slots, freed + |slots|;
    }
    MidTest(t0, s0, start, t, s, top, l, ps, ev, pr, heap, from, taken);
  }

  // ---------------------------------------------------------------- dropping a node

  /** A hybrid tree at rest: both counts right, every leaf with a live snapshot, KV sizes right. */
  ghost predicate Whole(t: NodeTree, l: Locks, s: Snaps, ps: nat, ev: int, pr: int)
    reads t.paths.Keys`key, t.paths.Keys`value, t.paths.Keys`parent, t.paths.Keys`children, t.paths.Keys`refCount,
          t.paths.Keys`mambaValue, t.paths.Keys`mambaRefCount
  {
    && Linked(t, ps) && Counted(t, l) && Anchored(t, l) && t.root in t.paths && t.root.refCount == 1
    && SnapsOk(t, l, s) && LeavesLive(t, s, {}) && Sizes(t.pages, l, ps, ev, pr) && s == SnapsOf(t.paths.Keys)
  }

  lemma WholeFacts(t: NodeTree, l: Locks, s: Snaps, ps: nat, ev: int, pr: int)
    requires Whole(t, l, s, ps, ev, pr)
    ensures Linked(t, ps) && Counted(t, l) && Anchored(t, l) && WellFormed(t) && t.root in t.paths
            && t.root.refCount == 1 && ps > 0
    ensures SnapsOk(t, l, s) && LeavesLive(t, s, {}) && Sizes(t.pages, l, ps, ev, pr) && s == SnapsOf(t.paths.Keys)
    ensures [] !in t.pages && t.paths[t.root] == []
  {
    NothingAtRoot(t);
  }

  lemma IsWhole(t: NodeTree, l: Locks, s: Snaps, ps: nat, ev: int, pr: int)
    requires Linked(t, ps) && Counted(t, l) && Anchored(t, l) && t.root in t.paths && t.root.refCount == 1
    requires SnapsOk(t, l, s) && LeavesLive(t, s, {}) && Sizes(t.pages, l, ps, ev, pr) && s == SnapsOf(t.paths.Keys)
    ensures Whole(t, l, s, ps, ev, pr)
  {}

  /** An idle leaf has a snapshot that no lock uses; without it, it is a tombstone leaf. */
  lemma IdleLeafSpare(t: NodeTree, l: Locks, s: Snaps, n: RadixTreeNode)
    requires WellFormed(t) && SnapsOk(t, l, s) && LeavesLive(t, s, {}) && n in IdleLeaves(t, l)
    ensures n in Spare(s) && n in t.paths && n in s && s[n].value.Some? && s[n].refs == 0
    ensures TombstoneLeaf(t, l, s[n := Snap(None, 0)], n)
    ensures LeavesLive(t, s[n := Snap(None, 0)], {n})
  {
    assert IsLeaf(t, n) && n in t.cuts && NodeOk(t, n);
    assert HasSnap(s, n) && SnapOk(t, l, s, n);
    NoRefsBelow(l, t.paths[n]);
    FreeOk(t, l, s, n, {});
  }

  lemma FreedOne(s: Snaps, s': Snaps, n: RadixTreeNode, v: int)
    requires n in s && s[n] == Snap(Some(v), 0) && s'.Keys <= s.Keys
    requires forall m :: m in s' ==> s'[m] == if m == n then Snap(None, 0) else s[m]
    requires forall m :: m in s && m !in s' && m != n ==> s[m].value == None
    ensures Freed(s, s', [n], [v])
  {}

  lemma FreedMore(s: Snaps, s': Snaps, s'': Snaps, nodes: seq<RadixTreeNode>, slots: seq<int>, n: RadixTreeNode, v: int)
    requires Freed(s, s', nodes, slots) && Freed(s', s'', [n], [v])
    ensures Freed(s, s'', nodes + [n], slots + [v])
  {
    assert [n][0] in s' && s'[n] == Snap(Some(v), 0);
    assert n !in nodes;
    var all := nodes + [n];
    forall i | 0 <= i < |all| ensures all[i] in s && s[all[i]] == Snap(Some((slots + [v])[i]), 0) {
      if i < |nodes| { assert all[i] == nodes[i]; }
    }
    forall m ensures m in all <==> m in nodes || m == n {}
    forall m | m in s && m !in s'' && m !in all ensures s[m].value == None {
      assert m in s' ==> s'[m] == s[m] && m !in [n];
    }
    forall m | m in s'' ensures if m in all then s''[m] == Snap(None, 0) else s''[m] == s[m] {
      assert m in s';
      assert m in [n] <==> m == n;
    }
  }

  lemma FreedNode(s: Snaps, s': Snaps, nodes: seq<RadixTreeNode>, slots: seq<int>, n: RadixTreeNode)
    requires Freed(s, s', nodes, slots)
    ensures n in nodes ==> n in Spare(s) && n !in InUse(s) && n !in Spare(s')
    ensures n !in nodes && n in s && s[n].value.Some? ==> n in s' && s'[n] == s[n]
    ensures n !in nodes && n in s' ==> n in s && s'[n] == s[n]
    ensures n in InUse(s') ==> n !in nodes
  {
    if i :| 0 <= i < |nodes| && nodes[i] == n {
      assert s[nodes[i]] == Snap(Some(slots[i]), 0);
    }
  }

  /** Spare snapshots are what is left of them after some were freed. */
  lemma FreedSpare(s: Snaps, s': Snaps, nodes: seq<RadixTreeNode>, slots: seq<int>)
    requires Freed(s, s', nodes, slots) && Distinct(nodes)
    ensures |Spare(s')| == |Spare(s)| - |nodes| && InUse(s') == InUse(s)
  {
    hide Freed, Distinct;
    var gone := set n | n in nodes;
    forall n
      ensures n in Spare(s') <==> n in Spare(s) && n !in gone
      ensures n in gone ==> n in Spare(s)
      ensures n in InUse(s') <==> n in InUse(s)
    {
      FreedNode(s, s', nodes, slots, n);
    }
    assert Spare(s') == Spare(s) - gone;
    DistinctSize(nodes);
  }

  lemma {:induction false} DistinctSize(nodes: seq<RadixTreeNode>)
    requires Distinct(nodes)
    ensures |set n | n in nodes| == |nodes|
  {
    if nodes != [] {
      var k := |nodes| - 1;
      DistinctSize(nodes[..k]);
      assert nodes == nodes[..k] + [nodes[k]];
      assert nodes[k] !in nodes[..k];
      assert (set n | n in nodes) == (set n | n in nodes[..k]) + {nodes[k]};
    } else {
      assert (set n | n in nodes) == {};
    }
  }

  lemma LeavesIn(t: NodeTree, l: Locks, n: RadixTreeNode, heap: set<RadixTreeNode>)
    requires n in IdleLeaves(t, l) && heap == IdleLeaves(t, l) - {n}
    ensures HeapBut(t, l, heap, n) && n in t.paths && IsIdleLeaf(t, l, n)
  {}

  /** The record of a dropped node as a step of an eviction. */
  lemma DropIs(t: NodeTree, l: Locks, s: Snaps, s1: Snaps, n: RadixTreeNode, t': NodeTree, s': Snaps, v: int)
    requires n in s && s[n] == Snap(Some(v), 0) && s1 == s[n := Snap(None, 0)] && t'.paths.Keys <= t.paths.Keys
             && s.Keys == t.paths.Keys
    requires t' == CascadeFrom(t, l, s1, n) && s'.Keys == t'.paths.Keys && forall m :: m in s' ==> s'[m] == s1[m]
    requires Spare(s') == Spare(s1) && InUse(s') == InUse(s1)
    ensures HybridState(t', s') == AfterDrop(HybridState(t, s), l, n) && Freed(s, s', [n], [v])
  {
    assert s' == Restrict(s1, t');
    forall m | m in s && m !in s' && m != n ensures s[m].value == None {
      assert s1[m] == s[m] && m !in Spare(s') && m !in InUse(s');
      assert s[m].value.Some? ==> m in Spare(s1) || m in InUse(s1);
    }
    FreedOne(s, s', n, v);
  }

  lemma CascadeDone(t0: NodeTree, s0: Snaps, start: RadixTreeNode, t: NodeTree, s: Snaps, p: RadixTreeNode, l: Locks,
                    from: seq<Path>, taken: seq<Page>)
    requires Cascaded(t0, s0, start, t, s, p, l, from, taken) && !TombstoneLeaf(t, l, s, p)
    ensures t == CascadeFrom(t0, l, s0, start) && Shed(t0, t, l, from, taken)
    ensures Spare(s) == Spare(s0) && InUse(s) == InUse(s0) && t.root == t0.root && t.paths.Keys <= t0.paths.Keys
  {
    CascadeStops(t, l, s, p);
  }

  /** Free the snapshot of an idle leaf, which leaves a tombstone leaf. */
  method StripLeaf(node: RadixTreeNode, ps: nat, ghost t: NodeTree, ghost l: Locks, ghost s: Snaps, ghost ev: int,
                   ghost pr: int, ghost heap: set<RadixTreeNode>)
    returns (slot: int, ghost s1: Snaps)
    requires Whole(t, l, s, ps, ev, pr) && node in IdleLeaves(t, l) && heap == IdleLeaves(t, l) - {node}
    modifies node`mambaValue
    ensures node in s && s[node] == Snap(Some(slot), 0) && s1 == s[node := Snap(None, 0)] && s1 == SnapsOf(t.paths.Keys)
    ensures Cascading(t, l, s1, ps, node, ev, pr) && HeapBut(t, l, heap, node) && s.Keys == t.paths.Keys
            && node in Spare(s)
  {
    hide *;
    WholeFacts(t, l, s, ps, ev, pr);
    IdleLeafSpare(t, l, s, node);
    FreeOk(t, l, s, node, {});
    LeavesIn(t, l, node, heap);
    slot := node.mambaValue.value;
    s1 := s[node := Snap(None, 0)];
    node.mambaValue := None;
    assert s1 == SnapsOf(t.paths.Keys);
    IsCascading(t, l, s1, ps, node, ev, pr);
  }

  /** A finished cascade from a stripped leaf. */
  lemma AfterCascade(t: NodeTree, s: Snaps, s1: Snaps, node: RadixTreeNode, slot: int, t': NodeTree, s': Snaps,
                     top: RadixTreeNode, l: Locks, ps: nat, ev: int, pr: int, heap: set<RadixTreeNode>, from: seq<Path>,
                     taken: seq<Page>)
    requires MidCascade(t, s1, node, t', s', top, l, ps, ev, pr, heap, from, taken)
    requires LeavesLive(t', s', {}) && !TombstoneLeaf(t', l, s', top)
    requires node in s && s[node] == Snap(Some(slot), 0) && s1 == s[node := Snap(None, 0)]
             && s1 == SnapsOf(t.paths.Keys)
    requires s.Keys == t.paths.Keys
    ensures Whole(t', l, s', ps, ev - |Flat(taken)|, pr) && t'.paths.Keys <= t.paths.Keys && t'.root == t.root
    ensures HybridState(t', s') == AfterDrop(HybridState(t, s), l, node) && Shed(t, t', l, from, taken)
    ensures Freed(s, s', [node], [slot]) && HeapBut(t', l, heap, top) && top in t'.paths
    ensures IsIdleLeaf(t', l, top) <==> top.children == map[] && top.refCount == 0 && top.parent != null
  {
    hide *;
    MidFacts(t, s1, node, t', s', top, l, ps, ev, pr, heap, from, taken);
    CascadingFacts(t', l, s', ps, top, ev - |Flat(taken)|, pr);
    CascadeDone(t, s1, node, t', s', top, l, from, taken);
    IsWhole(t', l, s', ps, ev - |Flat(taken)|, pr);
    DropIs(t, l, s, s1, node, t', s', slot);
    ParentFacts(t', l, top, ps);
    NodeFacts(t', top, ps);
  }

  /** Drop an idle leaf: its snapshot is freed, and as a tombstone leaf it starts the cascade. */
  method DropLeaf(node: RadixTreeNode, kv: seq<int>, mamba: seq<int>, ps: nat, ghost t: NodeTree, ghost l: Locks,
                  ghost s: Snaps, ghost ev: int, ghost pr: int, ghost heap: set<RadixTreeNode>)
    returns (top: RadixTreeNode, kv': seq<int>, mamba': seq<int>, freed: nat, ghost t': NodeTree, ghost s': Snaps,
             ghost from: seq<Path>, ghost taken: seq<Page>)
    requires Whole(t, l, s, ps, ev, pr) && node in IdleLeaves(t, l) && heap == IdleLeaves(t, l) - {node}
    modifies node`mambaValue, t.paths.Keys`children
    ensures Whole(t', l, s', ps, ev - freed, pr) && t'.paths.Keys <= t.paths.Keys && t'.root == t.root
    ensures HybridState(t', s') == AfterDrop(HybridState(t, s), l, node) && Shed(t, t', l, from, taken)
    ensures node in s && s[node].value.Some? && Freed(s, s', [node], [s[node].value.value])
    ensures mamba' == mamba + [s[node].value.value] && kv' == kv + Flat(taken) && freed == |Flat(taken)|
    ensures HeapBut(t', l, heap, top) && top in t'.paths && node in Spare(s)
    ensures IsIdleLeaf(t', l, top) <==> top.children == map[] && top.refCount == 0 && top.parent != null
  {
    hide *;
    var slot;
    ghost var s1;
    slot, s1 := StripLeaf(node, ps, t, l, s, ev, pr, heap);
    mamba' := mamba + [slot];
    top, kv', freed, t', s', from, taken := CascadeTombstones(node, kv, ps, t, l, s1, ev, pr, heap);
    AfterCascade(t, s, s1, node, slot, t', s', top, l, ps, ev, pr, heap, from, taken);
  }

  // ---------------------------------------------------------------- evicting

  ghost function EmptyRun(h: HybridState): HybridLog {
    HybridLog([h], [], [], [], [])
  }

  ghost function RunMore(log: HybridLog, n: RadixTreeNode, h: HybridState, from: seq<Path>, taken: seq<Page>,
                         v: int): HybridLog {
    HybridLog(log.states + [h], log.victims + [n], log.from + from, log.taken + taken, log.slots + [v])
  }

  lemma DroppingNone(h: HybridState, l: Locks, st: Stamps, tokens: bool)
    ensures Dropping(h, h, l, st, EmptyRun(h), tokens)
    ensures EmptyRun(h).slots == [] && EmptyRun(h).taken == [] && EmptyRun(h).victims == []
  {
    ShedNone(h.tree, l);
  }

  lemma RunStep(log: HybridLog, l: Locks, st: Stamps, tokens: bool, n: RadixTreeNode, h: HybridState, from: seq<Path>,
                taken: seq<Page>, v: int)
    requires DropRun(log, l, st, tokens) && DropStep(log.states[|log.victims|], n, h, l, st, tokens)
    ensures DropRun(RunMore(log, n, h, from, taken, v), l, st, tokens)
  {
    hide DropStep;
    var log' := RunMore(log, n, h, from, taken, v);
    forall i | 0 <= i < |log'.victims|
      ensures DropStep(log'.states[i], log'.victims[i], log'.states[i + 1], l, st, tokens) {
      assert i < |log.victims| ==> DropStep(log.states[i], log.victims[i], log.states[i + 1], l, st, tokens);
    }
  }

  lemma DroppingMore(h0: HybridState, h: HybridState, l: Locks, st: Stamps, log: HybridLog, tokens: bool,
                     n: RadixTreeNode, h': HybridState, from: seq<Path>, taken: seq<Page>, v: int)
    requires Dropping(h0, h, l, st, log, tokens) && DropStep(h, n, h', l, st, tokens)
    requires Shed(h.tree, h'.tree, l, from, taken) && Freed(h.snaps, h'.snaps, [n], [v])
    ensures Dropping(h0, h', l, st, RunMore(log, n, h', from, taken, v), tokens)
    ensures Flat(log.taken + taken) == Flat(log.taken) + Flat(taken)
  {
    hide DropStep, Shed, Freed, DropRun;
    RunLength(log, l, st, tokens);
    RunStep(log, l, st, tokens, n, h', from, taken, v);
    ShedMore(h0.tree, h.tree, h'.tree, l, log.from, log.taken, from, taken);
    FreedMore(h0.snaps, h.snaps, h'.snaps, log.victims, log.slots, n, v);
    FlatConcat(log.taken, taken);
  }

  lemma RunLength(log: HybridLog, l: Locks, st: Stamps, tokens: bool)
    requires DropRun(log, l, st, tokens)
    ensures |log.states| == |log.victims| + 1
  {}
}
