/** The radix prefix cache: matching, inserting, locking and evicting over the mutable tree. */
module RadixCache {
  import opened Finite
  import opened PageTree
  import opened Paging
  import opened PathLocks
  import opened RadixNodes
  import opened Recency
  import opened NodeScan
  import opened Eviction

  datatype RadixCacheHandle = RadixCacheHandle(cachedLen: nat, node: RadixTreeNode)

  /** The two counters: tokens of the idle prefixes, tokens of the pinned ones. */
  ghost predicate Sizes(c: map<Path, Page>, l: Locks, ps: nat, evictable: int, protectedTokens: int) {
    evictable == Tokens(|Idle(c, l)|, ps) && protectedTokens == Tokens(|Pinned(c, l)|, ps)
  }

  lemma SizesLock(c: map<Path, Page>, l: Locks, i: int, p: Path, ps: nat, evictable: int, protectedTokens: int)
    requires i !in l && [] !in c
    ensures var n := Tokens(IdleOn(c, l, p), ps);
            Sizes(c, l, ps, evictable, protectedTokens) <==> Sizes(c, l[i := p], ps, evictable - n, protectedTokens + n)
  {
    hide *;
    IdleLock(c, l, i, p);
    TokensAdd(|Idle(c, l[i := p])|, IdleOn(c, l, p), ps);
    TokensAdd(|Pinned(c, l)|, IdleOn(c, l, p), ps);
    SizesIff(c, l, ps, evictable, protectedTokens);
    SizesIff(c, l[i := p], ps, evictable - Tokens(IdleOn(c, l, p), ps), protectedTokens + Tokens(IdleOn(c, l, p), ps));
  }

  lemma SizesIff(c: map<Path, Page>, l: Locks, ps: nat, evictable: int, protectedTokens: int)
    ensures Sizes(c, l, ps, evictable, protectedTokens) <==>
            evictable == Tokens(|Idle(c, l)|, ps) && protectedTokens == Tokens(|Pinned(c, l)|, ps)
  {}

  lemma UnlockSizes(c: map<Path, Page>, l: Locks, i: int, p: Path, ps: nat, evictable: int, protectedTokens: int)
    requires i in l && l[i] == p && [] !in c && Sizes(c, l, ps, evictable, protectedTokens)
    ensures var n := Tokens(IdleOn(c, l - {i}, p), ps);
            Sizes(c, l - {i}, ps, evictable + n, protectedTokens - n)
  {
    hide *;
    Relock(l, i);
    var n := Tokens(IdleOn(c, l - {i}, p), ps);
    SizesLock(c, l - {i}, i, p, ps, evictable + n, protectedTokens - n);
  }

  /** A root node alone is an empty tree. */
  lemma BareTree(root: RadixTreeNode, ps: nat)
    requires ps > 0 && root.children == map[] && root.parent == null
    ensures Linked(Bare(root), ps) && Counted(Bare(root), map[]) && Anchored(Bare(root), map[])
    ensures Sizes(Bare(root).pages, map[], ps, 0, 0) && Bare(root).root == root
    ensures Bare(root).paths.Keys == {root} && Bare(root).pages == map[]
  {
    assert Idle(Bare(root).pages, map[]) == {} && Pinned(Bare(root).pages, map[]) == {};
    TokensZero(ps);
  }

  /** The root of a new cache, which is always protected. */
  method NewRoot(born: int) returns (root: RadixTreeNode)
    ensures fresh(root) && root.children == map[] && root.parent == null && root.refCount == 1
    ensures root.mambaValue == None && root.mambaRefCount == 0
  {
    root := new RadixTreeNode(born);
    root.refCount := 1;
  }

  lemma GrownFacts(t: NodeTree, t': NodeTree)
    requires Grown(t, t')
    ensures t'.root == t.root && t'.pages == t.pages && t.paths.Keys <= t'.paths.Keys
    ensures forall n :: n in t.paths ==> t'.paths[n] == t.paths[n]
  {}

  // ---------------------------------------------------------------- inserting

  /** The leaf that an insertion adds: the pages past depth `k`, with their slots. */
  ghost function NewCut(node: RadixTreeNode, u: Path, slots: seq<Page>, k: nat): NodeCut
    requires k <= |u| && k <= |slots|
  {
    Cut(node, k, u[k..], slots[k..])
  }

  lemma InsertSpot(t: NodeTree, node: RadixTreeNode, u: Path, slots: seq<Page>)
    requires WellFormed(t) && node in t.paths && IsPrefix(t.paths[node], u) && |t.paths[node]| < |u| == |slots|
    requires Longest(t.pages, u, |t.paths[node]|)
    ensures GraftSpot(t, u, NewCut(node, u, slots, |t.paths[node]|))
  {
    var k := |t.paths[node]|;
    assert KidsOk(t, node);
    assert u[k] in t.kids[node] ==> NodeOk(t, t.kids[node][u[k]]);
    assert u[k] in t.kids[node] ==> t.cuts[t.kids[node][u[k]]].span[0] == u[k];
    assert u[k] in t.kids[node] ==> IsPrefix(u[..k + 1], t.paths[t.kids[node][u[k]]]);
    forall v | v in Stretch(u, k) ensures v !in t.ends {
      assert v == u[..|v|];
    }
  }

  lemma InsertSizes(t: NodeTree, l: Locks, n: RadixTreeNode, p: Path, c: NodeCut, ps: nat, ev: int, pr: int)
    requires Graftable(t, n, p, c) && Anchored(t, l) && Sizes(t.pages, l, ps, ev, pr)
    ensures Sizes(Graft(t, n, p, c).pages, l, ps, ev + Tokens(|c.span|, ps), pr)
  {
    hide *;
    GraftKeys(t, n, p, c);
    IdleGraft(t, l, n, p, c);
    TokensAdd(|Idle(t.pages, l)|, |c.span|, ps);
    SizesIff(t.pages, l, ps, ev, pr);
    SizesIff(Graft(t, n, p, c).pages, l, ps, ev + Tokens(|c.span|, ps), pr);
  }

  /** The token arrays of an insertion, cut at the length already cached. */
  lemma InsertArrays(ids: seq<int>, indices: seq<int>, ps: nat, k: nat)
    requires ps > 0 && AlignDown(|ids|, ps) <= |indices| && k <= |Pages(ids, ps)|
    ensures var n := AlignDown(|ids|, ps);
            && n <= |ids| && n == Tokens(|Pages(ids, ps)|, ps) && Tokens(k, ps) <= n
            && Pages(ids[..n], ps) == Pages(ids, ps)
            && |Pages(indices[..n], ps)| == |Pages(ids, ps)|
            && Flat(Pages(ids, ps)[k..]) == ids[Tokens(k, ps)..n]
            && Flat(Pages(indices[..n], ps)[k..]) == indices[Tokens(k, ps)..n]
            && Uniform(Pages(ids, ps)[k..], ps) && Uniform(Pages(indices[..n], ps)[k..], ps)
            && (k < |Pages(ids, ps)| <==> Tokens(k, ps) != n)
            && |ids[Tokens(k, ps)..n]| == Tokens(|Pages(ids, ps)| - k, ps)
  {
    var n := AlignDown(|ids|, ps);
    PagesUniform(ids, ps);
    PagesSplit(ids, ps, |Pages(ids, ps)|);
    AlignTwice(|ids|, ps);
    var a, b := ids[..n], indices[..n];
    assert Pages(ids, ps)[..|Pages(ids, ps)|] == Pages(ids, ps);
    PagesUniform(b, ps);
    TokensSame(|Pages(ids, ps)|, |Pages(b, ps)|, ps);
    PagesTail(a, ps, k);
    PagesTail(b, ps, k);
  }

  lemma PrefixTake(p: Path, u: Path)
    requires IsPrefix(p, u)
    ensures |p| <= |u| && p == u[..|p|]
  {}

  lemma NewCutIs(node: RadixTreeNode, u: Path, slots: seq<Page>, k: nat, ps: nat)
    requires k <= |u| && k <= |slots|
    ensures NewCut(node, u, slots, k) == Cut(node, k, u[k..], slots[k..])
    ensures PagedCut(NewCut(node, u, slots, k), ps) <==> Uniform(u[k..], ps) && Uniform(slots[k..], ps)
  {}

  /** What the walk of an insertion leaves to be added. */
  lemma InsertPlan(t: NodeTree, node: RadixTreeNode, ids: seq<int>, indices: seq<int>, ps: nat, prefixLen: nat)
    requires ps > 0 && WellFormed(t) && AlignDown(|ids|, ps) <= |ids| && AlignDown(|ids|, ps) <= |indices|
    requires At(t, node, ids[..AlignDown(|ids|, ps)], ps, prefixLen)
    requires Longest(t.pages, Pages(ids[..AlignDown(|ids|, ps)], ps), |t.paths[node]|)
    ensures var n, u, k, slots := AlignDown(|ids|, ps), Pages(ids, ps), |t.paths[node]|, NewSlots(ids, indices, ps);
            && k <= |u| == |slots| && t.paths[node] == u[..k] && prefixLen == Tokens(k, ps) <= n
            && Longest(t.pages, u, k) && (k < |u| <==> prefixLen != n) && n == Tokens(|u|, ps)
            && (k < |u| ==>
                 var c := NewCut(node, u, slots, k);
                 && GraftSpot(t, u, c) && PagedCut(c, ps) && c.span != [] && c == Cut(node, k, u[k..], slots[k..])
                 && ids[..n][prefixLen..] == Flat(c.span) && indices[..n][prefixLen..] == Flat(c.slots)
                 && n - prefixLen == Tokens(|c.span|, ps))
  {
    hide *;
    AtFacts(t, node, ids[..AlignDown(|ids|, ps)], ps, prefixLen);
    var n, u, k := AlignDown(|ids|, ps), Pages(ids, ps), |t.paths[node]|;
    InsertArrays(ids, indices, ps, 0);
    PrefixTake(t.paths[node], u);
    InsertArrays(ids, indices, ps, k);
    NewSlotsAre(ids, indices, ps);
    var slots := NewSlots(ids, indices, ps);
    if k < |u| {
      InsertSpot(t, node, u, slots);
      NewCutIs(node, u, slots, k, ps);
    }
  }

  lemma NewSlotsAre(ids: seq<int>, indices: seq<int>, ps: nat)
    requires ps > 0 && AlignDown(|ids|, ps) <= |indices|
    ensures NewSlots(ids, indices, ps) == Pages(indices[..AlignDown(|ids|, ps)], ps)
  {}

  /** The slots that an insertion of `ids` brings along, page after page. */
  ghost function NewSlots(ids: seq<int>, indices: seq<int>, ps: nat): seq<Page>
    requires ps > 0 && AlignDown(|ids|, ps) <= |indices|
  {
    Pages(indices[..AlignDown(|ids|, ps)], ps)
  }

  /** An insertion of `u`, of which `k` pages were cached: the rest is added, the old slots stay. */
  ghost predicate Inserted(was: map<Path, Page>, c: map<Path, Page>, u: Path, slots: seq<Page>, k: nat) {
    && k <= |u| == |slots| && Longest(was, u, k) && Cached(was, u[..k])
    && c == was + PathMap(u, k, slots[k..]) && was.Keys !! PathMap(u, k, slots[k..]).Keys
  }

  lemma InsertedLeaf(t: NodeTree, l: Locks, leaf: RadixTreeNode, u: Path, c: NodeCut, slots: seq<Page>)
    requires Graftable(t, leaf, u, c) && Anchored(t, l) && c.start <= |u| == |slots| && Longest(t.pages, u, c.start)
    requires c.slots == slots[c.start..] && Cached(t.pages, u[..c.start])
    ensures c.up in t.kids && c.span != []
    ensures var t' := Graft(t, leaf, u, c);
            && Inserted(t.pages, t'.pages, u, slots, c.start)
            && leaf in t'.paths && t'.paths[leaf] == u && t'.paths.Keys == t.paths.Keys + {leaf} && t'.root == t.root
            && leaf !in t.paths && forall n :: n in t.paths ==> t'.paths[n] == t.paths[n]
  {
    hide *;
    GraftDomains(t, leaf, u, c);
    GraftSets(t, leaf, u, c);
    GraftCuts(t, leaf, u, c);
    GraftPages(t, leaf, u, c);
    IsInserted(t.pages, Graft(t, leaf, u, c).pages, u, slots, c.start);
    assert t.paths[leaf := u].Keys == t.paths.Keys + {leaf};
  }

  lemma GraftPages(t: NodeTree, leaf: RadixTreeNode, u: Path, c: NodeCut)
    requires c.up in t.kids && c.span != []
    ensures Graft(t, leaf, u, c).pages == t.pages + PathMap(u, c.start, c.slots)
  {}

  lemma IsInserted(was: map<Path, Page>, c: map<Path, Page>, u: Path, slots: seq<Page>, k: nat)
    requires k <= |u| == |slots| && Longest(was, u, k) && Cached(was, u[..k])
    requires c == was + PathMap(u, k, slots[k..]) && was.Keys !! PathMap(u, k, slots[k..]).Keys
    ensures Inserted(was, c, u, slots, k)
  {}

  lemma NothingInserted(c: map<Path, Page>, u: Path, slots: seq<Page>)
    requires |u| == |slots| && Cached(c, u)
    ensures Inserted(c, c, u, slots, |u|)
  {
    assert u[..|u|] == u;
    assert Stretch(u, |u|) == {};
    assert PathMap(u, |u|, slots[|u|..]) == map[];
  }

  /** The insertion of `u` has walked to `node`; `key` and `value` are the rest, if there is one. */
  ghost predicate RestReady(t: NodeTree, node: RadixTreeNode, u: Path, slots: seq<Page>, key: seq<int>, value: seq<int>,
                            ps: nat) {
    && node in t.paths && IsPrefix(t.paths[node], u) && |u| == |slots| && Longest(t.pages, u, |t.paths[node]|)
    && if |t.paths[node]| == |u| then key == value == [] else
         var c := NewCut(node, u, slots, |t.paths[node]|);
         && key != [] && |key| == Tokens(|c.span|, ps) && GraftSpot(t, u, c) && PagedCut(c, ps)
         && key == Flat(c.span) && value == Flat(c.slots)
  }

  lemma RestFacts(t: NodeTree, node: RadixTreeNode, u: Path, slots: seq<Page>, key: seq<int>, value: seq<int>, ps: nat)
    requires RestReady(t, node, u, slots, key, value, ps)
    ensures node in t.paths && t.paths[node] <= u && |u| == |slots| && Longest(t.pages, u, |t.paths[node]|)
    ensures t.paths[node] == u[..|t.paths[node]|]
    ensures key == [] <==> |t.paths[node]| == |u|
    ensures key == [] ==> t.paths[node] == u
    ensures key != [] ==>
              var c := NewCut(node, u, slots, |t.paths[node]|);
              && |key| == Tokens(|c.span|, ps) && GraftSpot(t, u, c) && PagedCut(c, ps)
              && key == Flat(c.span) && value == Flat(c.slots)
              && c == Cut(node, |t.paths[node]|, u[|t.paths[node]|..], slots[|t.paths[node]|..])
  {}

  lemma IsReady(t: NodeTree, node: RadixTreeNode, ids: seq<int>, indices: seq<int>, ps: nat, cachedLen: nat)
    requires ps > 0 && WellFormed(t) && AlignDown(|ids|, ps) <= |ids| && AlignDown(|ids|, ps) <= |indices|
             && node in t.paths
    requires At(t, node, ids[..AlignDown(|ids|, ps)], ps, cachedLen)
    requires Longest(t.pages, Pages(ids[..AlignDown(|ids|, ps)], ps), |t.paths[node]|)
    ensures cachedLen <= AlignDown(|ids|, ps)
    ensures RestReady(t, node, Pages(ids, ps), NewSlots(ids, indices, ps), ids[cachedLen..AlignDown(|ids|, ps)],
                      indices[cachedLen..AlignDown(|ids|, ps)], ps)
    ensures node in t.paths && cachedLen == Tokens(|t.paths[node]|, ps) && |t.paths[node]| <= |Pages(ids, ps)|
    ensures t.paths[node] == Pages(ids, ps)[..|t.paths[node]|]
  {
    hide WellFormed, At, Tokens, Pages, AlignDown, GraftSpot, Longest, Flat;
    InsertPlan(t, node, ids, indices, ps, cachedLen);
    var n := AlignDown(|ids|, ps);
    assert ids[..n][cachedLen..] == ids[cachedLen..n] && indices[..n][cachedLen..] == indices[cachedLen..n];
  }

  /** Insertion is insertion into a plain prefix map in which the first writer wins: every whole-page
      prefix of the input ends up cached, what was cached keeps its slots, and nothing else changes. */
  lemma InsertedMeans(was: map<Path, Page>, c: map<Path, Page>, u: Path, slots: seq<Page>, k: nat, v: Path)
    requires Inserted(was, c, u, slots, k)
    ensures v in c <==> v in was || (v != [] && IsPrefix(v, u))
    ensures v in c ==> c[v] == if v in was then was[v] else slots[|v| - 1]
  {
    if v != [] && IsPrefix(v, u) {
      if |v| <= k {
        assert IsPrefix(v, u[..k]);
      } else {
        assert v in Stretch(u, k) && PathMap(u, k, slots[k..])[v] == slots[|v| - 1];
      }
    }
  }

  lemma InsertedKeeps(was: map<Path, Page>, c: map<Path, Page>, u: Path, slots: seq<Page>, k: nat, l: Locks)
    requires Inserted(was, c, u, slots, k)
    ensures Keeps(was, l, c)
  {
    AddedKeeps(was, l, PathMap(u, k, slots[k..]));
  }

  lemma EvictingKeeps(t: NodeTree, t': NodeTree, l: Locks, st: Stamps, log: EvictionLog<RadixTreeNode>)
    requires Evicting(t, t', l, st, log)
    ensures Keeps(t.pages, l, t'.pages)
  {
    RemovedKeeps(t.pages, t'.pages, l, log.from, log.taken);
  }

  // ---------------------------------------------------------------- runs of a cache

  /** A moment in the life of a cache: what it holds, and which locks are out. */
  datatype Moment = Moment(pages: map<Path, Page>, locks: Locks)

  /** A match and the splits it makes. */
  ghost predicate MatchStep(a: Moment, b: Moment) {
    b == a
  }

  ghost predicate InsertStep(a: Moment, b: Moment) {
    b.locks == a.locks && exists u, slots, k :: Inserted(a.pages, b.pages, u, slots, k)
  }

  ghost predicate Locked(l: Locks, i: int, p: Path, l': Locks) {
    i !in l && l' == l[i := p]
  }

  ghost predicate Unlocked(l: Locks, i: int, l': Locks) {
    i in l && l' == l - {i}
  }

  ghost predicate LockStep(a: Moment, b: Moment) {
    b.pages == a.pages && ((exists i, p :: Locked(a.locks, i, p, b.locks)) || exists i :: Unlocked(a.locks, i, b.locks))
  }

  /** Some prefixes went, none of them locked. */
  ghost predicate EvictStep(a: Moment, b: Moment) {
    && b.locks == a.locks
    && exists from, taken :: Removed(a.pages, b.pages, from, taken) && forall u :: u in from ==>
         RefCount(a.locks, u) == 0
  }

  ghost predicate CacheStep(a: Moment, b: Moment) {
    MatchStep(a, b) || InsertStep(a, b) || LockStep(a, b) || EvictStep(a, b)
  }

  /** What `InsertPrefix` promises is such a step, and so is what `Evict` promises. */
  lemma InsertIsStep(was: map<Path, Page>, c: map<Path, Page>, u: Path, slots: seq<Page>, k: nat, l: Locks)
    requires Inserted(was, c, u, slots, k)
    ensures CacheStep(Moment(was, l), Moment(c, l))
  {}

  lemma EvictIsStep(t: NodeTree, t': NodeTree, l: Locks, st: Stamps, log: EvictionLog<RadixTreeNode>)
    requires Evicting(t, t', l, st, log)
    ensures CacheStep(Moment(t.pages, l), Moment(t'.pages, l))
  {}

  /** No operation touches what is locked. */
  lemma StepKeeps(a: Moment, b: Moment)
    requires CacheStep(a, b)
    ensures Keeps(a.pages, a.locks, b.pages)
  {
    if InsertStep(a, b) {
      var u, slots, k :| Inserted(a.pages, b.pages, u, slots, k);
      InsertedKeeps(a.pages, b.pages, u, slots, k, a.locks);
    } else if EvictStep(a, b) {
      var from, taken :| Removed(a.pages, b.pages, from, taken) && forall u :: u in from ==> RefCount(a.locks, u) == 0;
      RemovedKeeps(a.pages, b.pages, a.locks, from, taken);
    }
  }

  /** As long as a lock on `u` is out, the slots matched by its handle are the same, whatever the cache
      is asked to do: match, insert, lock, unlock or evict, any number of times. */
  lemma {:induction false} HeldIndicesStay(run: seq<Moment>, i: int, u: Path)
    requires run != []
    requires forall k {:trigger run[k]} :: 0 <= k < |run| ==> i in run[k].locks && run[k].locks[i] == u
    requires forall k {:trigger run[k]} :: 0 <= k < |run| - 1 ==> CacheStep(run[k], run[k + 1])
    requires Cached(run[0].pages, u)
    ensures Cached(run[|run| - 1].pages, u)
    ensures Backing(run[|run| - 1].pages, u) == Backing(run[0].pages, u)
    decreases |run|
  {
    hide CacheStep;
    if |run| > 1 {
      var init := run[..|run| - 1];
      HeldIndicesStay(init, i, u);
      var k := |run| - 2;
      assert init[k] == run[k];
      StepKeeps(run[k], run[k + 1]);
      KeepsBacking(run[k].pages, run[k].locks, run[k + 1].pages, i);
    }
  }

  /** An insertion makes no leaf but its own node. */
  ghost predicate LeavesBut(t: NodeTree, t': NodeTree, node: RadixTreeNode) {
    forall n :: n in t'.paths && n != node && IsLeaf(t', n) ==> n in t.paths && IsLeaf(t, n)
  }

  lemma LeavesButFacts(t: NodeTree, mid: NodeTree, t': NodeTree, node: RadixTreeNode)
    ensures LeavesKept(t, mid) && LeavesBut(mid, t', node) ==> LeavesBut(t, t', node)
    ensures LeavesBut(t, t, node)
  {}

  lemma PlantedLeaves(t: NodeTree, leaf: RadixTreeNode, u: Path, c: NodeCut)
    requires Graftable(t, leaf, u, c) && c.up in t.kids && c.span != []
    ensures LeavesBut(t, Graft(t, leaf, u, c), leaf)
  {
    GraftCuts(t, leaf, u, c);
    GraftSets(t, leaf, u, c);
    hide Graft, Graftable, IsLeaf, Stretch;
    var t' := Graft(t, leaf, u, c);
    forall n | n in t'.paths && n != leaf && IsLeaf(t', n) ensures n in t.paths && IsLeaf(t, n) {
      LeafBefore(t, t', leaf, c.up, c.span[0], c, n);
    }
  }

  lemma LeafBefore(t: NodeTree, t': NodeTree, leaf: RadixTreeNode, up: RadixTreeNode, k: Page, c: NodeCut,
                   n: RadixTreeNode)
    requires up in t.kids && t'.cuts == t.cuts[leaf := c]
             && t'.kids == t.kids[up := t.kids[up][k := leaf]][leaf := map[]]
    requires n != leaf
    ensures IsLeaf(t', n) ==> IsLeaf(t, n)
  {
    if n == up {
      assert k in t'.kids[up];
    }
  }

  lemma PathsKeptFacts(t: NodeTree, t': NodeTree, t'': NodeTree)
    ensures Grown(t, t') ==> PathsKept(t, t')
    ensures (forall n :: n in t.paths ==> n in t'.paths && t'.paths[n] == t.paths[n]) ==> PathsKept(t, t')
    ensures PathsKept(t, t') && PathsKept(t', t'') ==> PathsKept(t, t'')
  {}

  /** A fresh leaf for the rest of an insertion, if there is a rest. */
  method HangRest(up: RadixTreeNode, key: seq<int>, value: seq<int>, ps: nat, born: int, ghost t: NodeTree,
                  ghost l: Locks, ghost u: Path, ghost slots: seq<Page>, ghost ev: int, ghost pr: int)
    returns (node: RadixTreeNode, ghost t': NodeTree)
    requires Linked(t, ps) && Counted(t, l) && Anchored(t, l) && Sizes(t.pages, l, ps, ev, pr)
    requires RestReady(t, up, u, slots, key, value, ps) && up in t.paths
    modifies up`children
    ensures Linked(t', ps) && Counted(t', l) && Anchored(t', l)
    ensures Sizes(t'.pages, l, ps, ev + |key|, pr)
    ensures Inserted(t.pages, t'.pages, u, slots, |t.paths[up]|)
    ensures node in t'.paths && t'.paths[node] == u && t'.root == t.root && PathsKept(t, t')
    ensures if |t.paths[up]| == |u| then t' == t else
            fresh(node) && t'.paths.Keys == t.paths.Keys + {node} && node.timestamp == born
            && node.mambaValue == None && node.mambaRefCount == 0
    ensures LeavesBut(t, t', node)
  {
    hide *;
    RestFacts(t, up, u, slots, key, value, ps);
    LinkedFacts(t, ps);
    BoundaryCached(t, up);
    if key != [] {
      ghost var c := NewCut(up, u, slots, |t.paths[up]|);
      node, t' := AddLeaf(up, key, value, ps, born, t, l, u, c);
      InsertedLeaf(t, l, node, u, c, slots);
      InsertSizes(t, l, node, u, c, ps, ev, pr);
      PathsKeptFacts(t, t', t');
      PlantedLeaves(t, node, u, c);
    } else {
      node, t' := up, t;
      LeavesButFacts(t, t, t, node);
      PathsKeptFacts(t, t', t');
      NothingInserted(t.pages, u, slots);
    }
  }

  /** The walk of an insertion, and what it leaves to be added. */
  method WalkToInsert(root: RadixTreeNode, ids: seq<int>, indices: seq<int>, ps: nat, tic: int, ghost t: NodeTree,
                      ghost l: Locks)
    returns (node: RadixTreeNode, cachedLen: nat, key: seq<int>, value: seq<int>, ghost mid: NodeTree)
    requires Linked(t, ps) && Counted(t, l) && Anchored(t, l) && t.root == root && ps > 0
    requires AlignDown(|ids|, ps) <= |ids| && AlignDown(|ids|, ps) <= |indices|
    modifies t.paths.Keys`key, t.paths.Keys`value, t.paths.Keys`parent, t.paths.Keys`children, t.paths.Keys`timestamp
    ensures Linked(mid, ps) && Counted(mid, l) && Anchored(mid, l)
    ensures mid.root == t.root && mid.pages == t.pages && Grown(t, mid) && fresh(mid.paths.Keys - t.paths.Keys)
    ensures node in mid.paths && cachedLen == Tokens(|mid.paths[node]|, ps)
    ensures RestReady(mid, node, Pages(ids, ps), NewSlots(ids, indices, ps), key, value, ps)
    ensures |key| == AlignDown(|ids|, ps) - cachedLen
    ensures Touched(old(StampsOf(t.paths.Keys)), StampsOf(mid.paths.Keys), mid, tic, mid.paths[node])
    ensures LeavesKept(t, mid) && Blank(mid.paths.Keys - t.paths.Keys)
  {
    hide *;
    var insertLen := AlignDown(|ids|, ps);
    node, cachedLen, mid := TreeWalk(root, ids[..insertLen], ps, tic, t, l);
    GrownFacts(t, mid);
    LinkedFacts(mid, ps);
    AtFacts(mid, node, ids[..insertLen], ps, cachedLen);
    IsReady(mid, node, ids, indices, ps, cachedLen);
    key, value := ids[cachedLen..insertLen], indices[cachedLen..insertLen];
  }

  /** The stamps after an insertion: the walk left its stamps, the new leaf came with its own. */
  lemma StampedInto(t: NodeTree, mid: NodeTree, t': NodeTree, st: Stamps, st': Stamps, u: Path, k: nat, tic: int,
                    born: int, node: RadixTreeNode, up: RadixTreeNode)
    requires WellFormed(t) && WellFormed(mid) && WellFormed(t') && t.paths.Keys == st.Keys && mid.root == t'.root
    requires k <= |u| && Touched(st, st', mid, tic, u[..k]) && t'.paths.Keys <= st'.Keys
    requires up in mid.paths && mid.paths[up] == u[..k] && Longest(mid.pages, u, k)
    requires node in t'.paths && t'.paths[node] == u && PathsKept(t, t') && PathsKept(mid, t')
    requires if k == |u| then t' == mid
             else t'.paths.Keys == mid.paths.Keys + {node} && node !in mid.paths && node in st' && st'[node] == born
    ensures Stamped(st, st', t', u, k, tic, born) && UsedTo(LastUse(t, st), LastUse(t', st'), u, k, tic, born)
  {
    hide *;
    NoneLonger(mid.pages, u, k);
    KeptAt(mid, t', up);
    KeptWithin(mid, t');
    IsStamped(st, mid, t', st', node, u, k, tic, born);
    InsertIsUse(t, mid, t', st, st', u, k, tic, born, node, up);
  }

  lemma NoneLonger(c: map<Path, Page>, u: Path, k: nat)
    requires Longest(c, u, k)
    ensures forall v :: IsPrefix(v, u) && |v| > k ==> v !in c
  {
    forall v | IsPrefix(v, u) && |v| > k ensures v !in c {
      assert v == u[..|v|];
    }
  }

  lemma KeptWithin(t: NodeTree, t': NodeTree)
    requires PathsKept(t, t')
    ensures t.paths.Keys <= t'.paths.Keys
  {}

  lemma KeptAt(t: NodeTree, t': NodeTree, n: RadixTreeNode)
    requires PathsKept(t, t') && n in t.paths
    ensures n in t'.paths && t'.paths[n] == t.paths[n]
  {}

  /** The stamps of the nodes of a walk do not change when a leaf is hung below. */
  lemma StampsWithin(st: Stamps, st1: Stamps, st': Stamps, mid: NodeTree, tic: int, end: Path)
    requires Touched(st, st1, mid, tic, end) && forall n :: n in mid.paths ==> n in st1 && n in st' && st'[n] == st1[n]
    ensures Touched(st, st', mid, tic, end)
  {}

  /** Hang the rest of an insertion into the tree `mid` that its walk through `t` left. */
  method HangStamped(up: RadixTreeNode, key: seq<int>, value: seq<int>, ps: nat, ghost tic: int, born: int,
                     ghost t: NodeTree, ghost mid: NodeTree, ghost l: Locks, ghost u: Path, ghost slots: seq<Page>,
                     ghost ev: int, ghost pr: int, ghost st: Stamps)
    returns (node: RadixTreeNode, ghost t': NodeTree)
    requires Linked(mid, ps) && Counted(mid, l) && Anchored(mid, l) && Sizes(mid.pages, l, ps, ev, pr)
    requires RestReady(mid, up, u, slots, key, value, ps) && up in mid.paths && |mid.paths[up]| <= |u|
    requires WellFormed(t) && Grown(t, mid) && t.paths.Keys == st.Keys && LeavesKept(t, mid)
    requires Blank(mid.paths.Keys - t.paths.Keys)
    requires Touched(st, StampsOf(mid.paths.Keys), mid, tic, u[..|mid.paths[up]|])
    modifies up`children
    ensures Linked(t', ps) && Counted(t', l) && Anchored(t', l)
    ensures Sizes(t'.pages, l, ps, ev + |key|, pr)
    ensures Inserted(mid.pages, t'.pages, u, slots, |mid.paths[up]|)
    ensures node in t'.paths && t'.paths[node] == u && t'.root == mid.root && PathsKept(t, t')
    ensures if |mid.paths[up]| == |u| then t' == mid else fresh(node) && t'.paths.Keys == mid.paths.Keys + {node}
    ensures LeavesBut(t, t', node) && Blank(t'.paths.Keys - t.paths.Keys)
    ensures Stamped(st, StampsOf(t'.paths.Keys), t', u, |mid.paths[up]|, tic, born)
    ensures UsedTo(LastUse(t, st), LastUse(t', StampsOf(t'.paths.Keys)), u, |mid.paths[up]|, tic, born)
  {
    hide *;
    RestFacts(mid, up, u, slots, key, value, ps);
    LinkedFacts(mid, ps);
    ghost var k, st1 := |mid.paths[up]|, StampsOf(mid.paths.Keys);
    node, t' := HangRest(up, key, value, ps, born, mid, l, u, slots, ev, pr);
    LinkedFacts(t', ps);
    PathsKeptFacts(t, mid, t');
    KeptWithin(mid, t');
    ghost var st' := StampsOf(t'.paths.Keys);
    StampsWithin(st, st1, st', mid, tic, u[..k]);
    StampedInto(t, mid, t', st, st', u, k, tic, born, node, up);
    LeavesButFacts(t, mid, t', node);
    BlankStill(t.paths.Keys, mid.paths.Keys, t'.paths.Keys, node);
  }

  /** An insertion into the tree: the walk, then the new leaf. `k` pages were cached already. */
  method InsertInto(root: RadixTreeNode, ids: seq<int>, indices: seq<int>, ps: nat, tic: int, born: int,
                    ghost t: NodeTree, ghost l: Locks, ghost ev: int, ghost pr: int, ghost st: Stamps)
    returns (node: RadixTreeNode, cachedLen: nat, added: nat, ghost k: nat, ghost mid: NodeTree, ghost t': NodeTree)
    requires Linked(t, ps) && Counted(t, l) && Anchored(t, l) && t.root == root && ps > 0
    requires AlignDown(|ids|, ps) <= |ids| && AlignDown(|ids|, ps) <= |indices| && Sizes(t.pages, l, ps, ev, pr)
    requires st == StampsOf(t.paths.Keys)
    modifies t.paths.Keys`key, t.paths.Keys`value, t.paths.Keys`parent, t.paths.Keys`children, t.paths.Keys`timestamp
    ensures Linked(t', ps) && Counted(t', l) && Anchored(t', l) && t'.root == t.root
            && fresh(t'.paths.Keys - t.paths.Keys)
    ensures Sizes(t'.pages, l, ps, ev + added, pr) && added == AlignDown(|ids|, ps) - cachedLen
    ensures Inserted(t.pages, t'.pages, Pages(ids, ps), NewSlots(ids, indices, ps), k) && cachedLen == Tokens(k, ps)
    ensures node in t'.paths && t'.paths[node] == Pages(ids, ps) && k <= |Pages(ids, ps)| && Grown(t, mid)
            && PathsKept(t, t')
    ensures if k == |Pages(ids, ps)| then t' == mid else t'.paths.Keys == mid.paths.Keys + {node}
    ensures Stamped(st, StampsOf(t'.paths.Keys), t', Pages(ids, ps), k, tic, born)
    ensures UsedTo(LastUse(t, st), LastUse(t', StampsOf(t'.paths.Keys)), Pages(ids, ps), k, tic, born)
    ensures LeavesBut(t, t', node) && Blank(t'.paths.Keys - t.paths.Keys)
  {
    hide *;
    LinkedFacts(t, ps);
    var up, key, value;
    up, cachedLen, key, value, mid := WalkToInsert(root, ids, indices, ps, tic, t, l);
    k, added := |mid.paths[up]|, |key|;
    ghost var u, slots := Pages(ids, ps), NewSlots(ids, indices, ps);
    RestFacts(mid, up, u, slots, key, value, ps);
    node, t' := HangStamped(up, key, value, ps, tic, born, t, mid, l, u, slots, ev, pr, st);
  }

  lemma BlankStill(was: set<RadixTreeNode>, mid: set<RadixTreeNode>, now: set<RadixTreeNode>, node: RadixTreeNode)
    requires Blank(mid - was) && (now == mid || now == mid + {node})
    requires now != mid ==> node.mambaValue == None && node.mambaRefCount == 0
    ensures Blank(now - was)
  {}

  lemma TokensSame(a: nat, b: nat, ps: nat)
    requires ps > 0 && Tokens(a, ps) == Tokens(b, ps)
    ensures a == b
  {
    if a < b {
      TokensLess(a, b, ps);
    } else if b < a {
      TokensLess(b, a, ps);
    }
  }

  lemma {:induction false} AlignTwice(n: nat, ps: nat)
    requires ps > 0
    ensures AlignDown(n, ps) <= n && AlignDown(AlignDown(n, ps), ps) == AlignDown(n, ps)
  {
    if n >= ps {
      AlignTwice(n - ps, ps);
    }
  }

  lemma UniformTail(u: seq<Page>, ps: nat, k: nat)
    requires Uniform(u, ps) && k <= |u|
    ensures Uniform(u[k..], ps)
  {}

  lemma PagesTail(x: seq<int>, ps: nat, k: nat)
    requires ps > 0 && |x| == Tokens(|Pages(x, ps)|, ps) && k <= |Pages(x, ps)|
    ensures Tokens(k, ps) <= |x| && Flat(Pages(x, ps)[k..]) == x[Tokens(k, ps)..]
    ensures Uniform(Pages(x, ps)[k..], ps) && |x[Tokens(k, ps)..]| == Tokens(|Pages(x, ps)| - k, ps)
    ensures k < |Pages(x, ps)| <==> Tokens(k, ps) != |x|
  {
    hide *;
    var u := Pages(x, ps);
    PagesUniform(x, ps);
    UniformTail(u, ps, k);
    PagesSplit(x, ps, |u|);
    assert u[..|u|] == u && x[..|x|] == x;
    FlatCut(u, ps, k);
    FlatLength(u[k..], ps);
  }

  // ---------------------------------------------------------------- evicting

  lemma EvictSizes(t: NodeTree, l: Locks, n: RadixTreeNode, ps: nat, ev: int, pr: int)
    requires Prunable(t, n) && Anchored(t, l) && n in t.cuts && n in t.paths && RefCount(l, t.paths[n]) == 0
             && NodeOk(t, n)
    ensures Sizes(t.pages, l, ps, ev, pr) <==> Sizes(Prune(t, n).pages, l, ps, ev - Tokens(|t.cuts[n].span|, ps), pr)
  {
    hide *;
    IdlePrune(t, l, n);
    TokensAdd(|Idle(Prune(t, n).pages, l)|, |t.cuts[n].span|, ps);
    SizesIff(t.pages, l, ps, ev, pr);
    SizesIff(Prune(t, n).pages, l, ps, ev - Tokens(|t.cuts[n].span|, ps), pr);
  }

  /** What the fields of an idle leaf look like; the assertions of the eviction loop follow. */
  lemma IdleLeafFacts(t: NodeTree, l: Locks, n: RadixTreeNode, ps: nat)
    requires Linked(t, ps) && Counted(t, l) && n in IdleLeaves(t, l)
    ensures Prunable(t, n) && NodeOk(t, n) && n in t.cuts && n in t.paths && RefCount(l, t.paths[n]) == 0
            && IsIdleLeaf(t, l, n)
    ensures n.refCount == 0 && n.children == map[] && n.parent != null && n != t.root
    ensures n.value == Flat(t.cuts[n].slots) && |n.key| == |n.value| == Tokens(|t.cuts[n].span|, ps) > 0
    ensures t.cuts[n].start <= |t.paths[n]|
  {
    assert NodeOk(t, n);
    NodeFields(t, n, ViewsOf(t.paths.Keys), ps);
    TokensLess(0, |t.cuts[n].span|, ps);
  }

  lemma ParentFacts(t: NodeTree, l: Locks, n: RadixTreeNode, ps: nat)
    requires Linked(t, ps) && Counted(t, l) && n in t.paths && t.root.refCount == 1
    ensures n.children == map[] && n.refCount == 0 <==> IsIdleLeaf(t, l, n)
  {
    NodeKids(t, n, ViewsOf(t.paths.Keys), ps);
  }

  lemma IsLruStep(t: NodeTree, l: Locks, n: RadixTreeNode, st: Stamps)
    requires Prunable(t, n) && NodeOk(t, n) && n in t.paths && n in st && IsIdleLeaf(t, l, n)
    requires forall m :: m in IdleLeaves(t, l) && m in st ==> st[n] <= st[m]
    ensures LruStep(t, n, Prune(t, n), l, st)
  {}

  lemma IdleLeavesAre(t: NodeTree, l: Locks)
    ensures forall n :: n in IdleLeaves(t, l) <==> n in t.paths && IsIdleLeaf(t, l, n)
  {}

  /** Evict the oldest of the idle leaves. */
  method EvictOne(heap: set<RadixTreeNode>, ps: nat, ghost t: NodeTree, ghost l: Locks, ghost st: Stamps)
    returns (node: RadixTreeNode, heap': set<RadixTreeNode>, ghost t': NodeTree)
    requires Linked(t, ps) && Counted(t, l) && Anchored(t, l) && t.root.refCount == 1
    requires heap != {} && heap == IdleLeaves(t, l) && t.paths.Keys <= st.Keys
    requires forall n :: n in t.paths ==> st[n] == n.timestamp
    modifies t.paths.Keys`children
    ensures Linked(t', ps) && Counted(t', l) && Anchored(t', l) && t'.root == t.root && t'.root in t'.paths
    ensures heap' == IdleLeaves(t', l) && t'.paths.Keys == t.paths.Keys - {node}
    ensures LruStep(t, node, t', l, st) && node in t.paths && node in t.cuts && node.value == Flat(t.cuts[node].slots)
    ensures |node.key| == |node.value| == Tokens(|t.cuts[node].span|, ps) > 0 && t.cuts[node].start <= |t.paths[node]|
    ensures forall ev, pr :: Sizes(t.pages, l, ps, ev, pr) <==> Sizes(t'.pages, l, ps, ev - |node.key|, pr)
  {
    hide *;
    IdleLeavesAre(t, l);
    node := PopOldest(heap);
    heap' := heap - {node};
    IdleLeafFacts(t, l, node, ps);
    assert node.refCount == 0 && node.children == map[] && node.parent != null;
    forall ev, pr ensures Sizes(t.pages, l, ps, ev, pr) <==> Sizes(Prune(t, node).pages, l, ps, ev - |node.key|, pr) {
      EvictSizes(t, l, node, ps, ev, pr);
    }
    PruneRoot(t, node);
    IsLruStep(t, l, node, st);
    IdleLeavesPrune(t, l, node);
    var parent;
    parent, t' := Unlink(node, ps, t, l);
    ParentFacts(t', l, parent, ps);
    if parent.children == map[] && parent.refCount == 0 {
      heap' := heap' + {parent};
    }
  }

  lemma SomethingToEvict(t: NodeTree, l: Locks, ps: nat, ev: int, pr: int)
    requires WellFormed(t) && Anchored(t, l) && Sizes(t.pages, l, ps, ev, pr) && ev > 0
    ensures IdleLeaves(t, l) != {}
  {
    SomeIdleLeaf(t, l);
  }

  type RadixLog = EvictionLog<RadixTreeNode>

  /** The tokens in the last node that was evicted. */
  ghost function LastTaken(log: RadixLog, ps: nat): nat
    requires log.victims != []
  {
    var i := |log.victims| - 1;
    if i < |log.trees| && log.victims[i] in log.trees[i].cuts
      then Tokens(|log.trees[i].cuts[log.victims[i]].span|, ps) else 0
  }

  /** At least `size` tokens are free, and without the last node it would have been fewer. */
  ghost predicate JustEnough(log: RadixLog, freed: nat, size: nat, ps: nat) {
    log.victims != [] && size <= freed < size + LastTaken(log, ps)
  }

  /** The next victim goes onto the log; if it was needed, no more than it was too much. */
  lemma LoggedFacts(t: NodeTree, t': NodeTree, l: Locks, st: Stamps, log: RadixLog, n: RadixTreeNode, t'': NodeTree,
                    ps: nat, size: nat)
    requires Evicting(t, t', l, st, log) && n in t'.cuts && n in t'.paths && t'.cuts[n].start <= |t'.paths[n]|
    requires |Flat(log.taken)| < size && |Flat(t'.cuts[n].slots)| == Tokens(|t'.cuts[n].span|, ps)
    ensures Flat(Logged(log, t', n, t'').taken) == Flat(log.taken) + Flat(t'.cuts[n].slots)
    ensures var log' := Logged(log, t', n, t'');
            |Flat(log'.taken)| < size || JustEnough(log', |Flat(log'.taken)|, size, ps)
  {
    FlatConcat(log.taken, t'.cuts[n].slots);
  }

  /** One round of the eviction loop, with its log. */
  method EvictNext(heap: set<RadixTreeNode>, size: nat, ps: nat, ghost t0: NodeTree, ghost t: NodeTree, ghost l: Locks,
                   ghost st: Stamps, ghost log: RadixLog, ghost ev: int, ghost pr: int)
    returns (slots: seq<int>, heap': set<RadixTreeNode>, ghost t': NodeTree, ghost log': RadixLog, ghost left: int)
    requires Linked(t, ps) && Counted(t, l) && Anchored(t, l) && t.root.refCount == 1
    requires Sizes(t.pages, l, ps, ev, pr) && ev > 0 && heap == IdleLeaves(t, l)
    requires t.paths.Keys <= st.Keys && forall n :: n in t.paths ==> st[n] == n.timestamp
    requires Evicting(t0, t, l, st, log) && |Flat(log.taken)| < size
    modifies t.paths.Keys`children
    ensures Linked(t', ps) && Counted(t', l) && Anchored(t', l) && t'.root == t.root && t'.paths.Keys <= t.paths.Keys
    ensures Sizes(t'.pages, l, ps, left, pr) && left == ev - |slots| && heap' == IdleLeaves(t', l) && |slots| > 0
    ensures Evicting(t0, t', l, st, log') && Flat(log'.taken) == Flat(log.taken) + slots
    ensures |Flat(log'.taken)| < size || JustEnough(log', |Flat(log'.taken)|, size, ps)
  {
    hide *;
    LinkedFacts(t, ps);
    SomethingToEvict(t, l, ps, ev, pr);
    var node;
    node, heap', t' := EvictOne(heap, ps, t, l, st);
    log' := Logged(log, t, node, t');
    EvictingStep(t0, t, l, st, log, node, t');
    LoggedFacts(t0, t, l, st, log, node, t', ps, size);
    slots := node.value;
    left := ev - |slots|;
  }

  /** Evict idle leaves, oldest first, until `size` tokens are free. */
  method EvictLeaves(root: RadixTreeNode, size: nat, ps: nat, ghost t: NodeTree, ghost l: Locks, ghost ev: int,
                     ghost pr: int)
    returns (evicted: seq<int>, ghost t': NodeTree, ghost log: RadixLog)
    requires Linked(t, ps) && Counted(t, l) && Anchored(t, l) && t.root == root && root.refCount == 1
    requires Sizes(t.pages, l, ps, ev, pr) && 0 < size <= ev
    modifies t.paths.Keys`children
    ensures Linked(t', ps) && Counted(t', l) && Anchored(t', l) && t'.root == root && t'.paths.Keys <= t.paths.Keys
    ensures Sizes(t'.pages, l, ps, ev - |evicted|, pr)
    ensures Evicting(t, t', l, old(StampsOf(t.paths.Keys)), log) && evicted == Flat(log.taken)
    ensures JustEnough(log, |evicted|, size, ps)
  {
    hide *;
    LinkedFacts(t, ps);
    ghost var st := StampsOf(t.paths.Keys);
    var nodes := AllNodes(root, ps, t);
    var heap := CollectIdleLeaves(nodes, ps, t, l);
    evicted, t', log := [], t, EmptyLog(t);
    ghost var left := ev;
    EvictingNone(t, l, st);
    FlatNone();
    while |evicted| < size
      invariant Linked(t', ps) && Counted(t', l) && Anchored(t', l) && t'.root == root && t'.paths.Keys <= t.paths.Keys
      invariant Sizes(t'.pages, l, ps, left, pr) && left == ev - |evicted| && heap == IdleLeaves(t', l)
      invariant Evicting(t, t', l, st, log) && evicted == Flat(log.taken)
      invariant |evicted| < size || JustEnough(log, |evicted|, size, ps)
      decreases size - |evicted|
    {
      var slots;
      slots, heap, t', log, left := EvictNext(heap, size, ps, t, t', l, st, log, left, pr);
      evicted := evicted + slots;
    }
  }

  lemma FlatNone()
    ensures Flat([]) == []
  {}

  /** The leaves without a reference, out of all nodes. */
  method CollectIdleLeaves(nodes: set<RadixTreeNode>, ps: nat, ghost t: NodeTree, ghost l: Locks)
    returns (leaves: set<RadixTreeNode>)
    requires Linked(t, ps) && Counted(t, l) && nodes == t.paths.Keys && t.root.refCount == 1
    ensures leaves == IdleLeaves(t, l)
  {
    leaves := set n | n in nodes && n.children == map[] && n.refCount == 0;
    forall n | n in nodes ensures n in leaves <==> n in IdleLeaves(t, l) {
      ParentFacts(t, l, n, ps);
    }
  }

  /** A walk is a use of the path it takes. */
  method WalkAndUse(root: RadixTreeNode, ids: seq<int>, ps: nat, tic: int, ghost t: NodeTree, ghost l: Locks,
                    ghost st: Stamps)
    returns (node: RadixTreeNode, prefixLen: nat, ghost t': NodeTree)
    requires Linked(t, ps) && Counted(t, l) && Anchored(t, l) && t.root == root && st == StampsOf(t.paths.Keys)
    modifies t.paths.Keys`key, t.paths.Keys`value, t.paths.Keys`parent, t.paths.Keys`children,
             t.paths.Keys`timestamp
    ensures ps > 0 && Linked(t', ps) && Counted(t', l) && Anchored(t', l)
    ensures Grown(t, t') && LeavesKept(t, t') && fresh(t'.paths.Keys - t.paths.Keys)
    ensures At(t', node, ids, ps, prefixLen) && node in t'.paths && Longest(t.pages, Pages(ids, ps), |t'.paths[node]|)
    ensures Touched(st, StampsOf(t'.paths.Keys), t', tic, t'.paths[node]) && Blank(t'.paths.Keys - t.paths.Keys)
    ensures Used(LastUse(t, st), LastUse(t', StampsOf(t'.paths.Keys)), t'.paths[node], tic)
  {
    hide *;
    LinkedFacts(t, ps);
    node, prefixLen, t' := TreeWalk(root, ids, ps, tic, t, l);
    LinkedFacts(t', ps);
    AtFacts(t', node, ids, ps, prefixLen);
    TouchIsUse(t, t', st, StampsOf(t'.paths.Keys), tic, node);
  }

  class RadixPrefixCache {
    const pageSize: nat
    var evictableSize: int
    var protectedSize: int
    var rootNode: RadixTreeNode
    ghost var tree: NodeTree
    ghost var locks: Locks

    ghost predicate Valid()
      reads this, tree.paths.Keys`key, tree.paths.Keys`value, tree.paths.Keys`parent, tree.paths.Keys`children,
            tree.paths.Keys`refCount, rootNode`refCount
    {
      && tree.root == rootNode && rootNode.refCount == 1
      && Linked(tree, pageSize) && Counted(tree, locks) && Anchored(tree, locks)
      && Sizes(tree.pages, locks, pageSize, evictableSize, protectedSize)
    }

    /** When each cached prefix was used last. */
    ghost function LastUses(): map<Path, int>
      reads this`tree, tree.paths.Keys`timestamp
    {
      LastUse(tree, StampsOf(tree.paths.Keys))
    }

    /** The stamps of the nodes. */
    ghost function NodeStamps(): Stamps
      reads this`tree, tree.paths.Keys`timestamp
    {
      StampsOf(tree.paths.Keys)
    }

    lemma StampsAre()
      ensures NodeStamps() == StampsOf(tree.paths.Keys) && LastUses() == LastUse(tree, NodeStamps())
    {}

    lemma LastUsesAre()
      requires Valid()
      ensures LastUses() == LastUse(tree, StampsOf(tree.paths.Keys)) && LastUses().Keys == tree.pages.Keys
    {
      UseDomain(tree, StampsOf(tree.paths.Keys));
    }

    lemma Facts()
      requires Valid()
      ensures tree.root == rootNode && rootNode in tree.paths && rootNode.refCount == 1 && pageSize > 0
      ensures Linked(tree, pageSize) && Counted(tree, locks) && Anchored(tree, locks) && WellFormed(tree)
      ensures Sizes(tree.pages, locks, pageSize, evictableSize, protectedSize) && [] !in tree.pages
    {
      NothingAtRoot(tree);
    }

    lemma IsValid(ev: int, pr: int)
      requires tree.root == rootNode && rootNode.refCount == 1
      requires Linked(tree, pageSize) && Counted(tree, locks) && Anchored(tree, locks)
      requires Sizes(tree.pages, locks, pageSize, ev, pr) && ev == evictableSize && pr == protectedSize
      ensures Valid()
    {}

    /** Every cached page has exactly `pageSize` slots. */
    lemma PageSizes(u: Path)
      requires Valid() && u in tree.pages
      ensures |tree.pages[u]| == pageSize
    {
      var n := tree.ends[u];
      assert EndOk(tree, u) && PageOk(tree, u) && NodeOk(tree, n);
      assert NodeLinked(ViewsOf(tree.paths.Keys), tree, n, pageSize);
    }

    lemma BackingSize(u: Path)
      requires Valid() && Cached(tree.pages, u)
      ensures |Flat(Backing(tree.pages, u))| == Tokens(|u|, pageSize)
    {
      var b := Backing(tree.pages, u);
      forall i | 0 <= i < |b| ensures |b[i]| == pageSize {
        assert IsPrefix(u[..i + 1], u);
        PageSizes(u[..i + 1]);
      }
      FlatLength(b, pageSize);
    }

    constructor (pageSize: nat, born: int)
      requires pageSize > 0
      ensures Valid() && fresh(tree.paths.Keys)
      ensures this.pageSize == pageSize && tree.pages == map[] && locks == map[]
      ensures evictableSize == protectedSize == 0
    {
      this.pageSize, evictableSize, protectedSize := pageSize, 0, 0;
      var node := NewRoot(born);
      rootNode, tree, locks := node, Bare(node), map[];
      new;
      hide *;
      BareTree(rootNode, pageSize);
      IsValid(0, 0);
    }

    /** Take or release the lock `ticket` on the handle's path. */
    method LockHandle(handle: RadixCacheHandle, unlock: bool, ghost ticket: int)
      requires Valid() && handle.node in tree.paths
      requires if unlock then ticket in locks && locks[ticket] == tree.paths[handle.node] else ticket !in locks
      modifies this`evictableSize, this`protectedSize, this`locks, (tree.paths.Keys - {rootNode})`refCount
      ensures Valid()
      ensures locks == if unlock then old(locks) - {ticket} else old(locks)[ticket := tree.paths[handle.node]]
    {
      hide *;
      Facts();
      ghost var p := tree.paths[handle.node];
      if unlock {
        var freed := UnpinPath(handle.node, pageSize, tree, locks, ticket);
        UnlockSizes(tree.pages, locks, ticket, p, pageSize, evictableSize, protectedSize);
        locks := locks - {ticket};
        evictableSize, protectedSize := evictableSize + freed, protectedSize - freed;
        IsValid(old(evictableSize) + freed, old(protectedSize) - freed);
      } else {
        var pinned := PinPath(handle.node, pageSize, tree, locks, ticket);
        SizesLock(tree.pages, locks, ticket, p, pageSize, evictableSize, protectedSize);
        locks := locks[ticket := p];
        evictableSize, protectedSize := evictableSize - pinned, protectedSize + pinned;
        IsValid(old(evictableSize) - pinned, old(protectedSize) + pinned);
      }
    }

    /** The longest cached whole-page prefix of `ids`; its root path counts as used at `tic`. */
    method MatchPrefix(ids: seq<int>, tic: int) returns (handle: RadixCacheHandle)
      requires Valid()
      modifies this`tree, tree.paths.Keys`key, tree.paths.Keys`value, tree.paths.Keys`parent, tree.paths.Keys`children,
               tree.paths.Keys`timestamp
      ensures Valid() && fresh(tree.paths.Keys - old(tree.paths.Keys))
      ensures Grown(old(tree), tree)
      ensures At(tree, handle.node, ids, pageSize, handle.cachedLen)
      ensures Longest(tree.pages, Pages(ids, pageSize), |tree.paths[handle.node]|)
      ensures Touched(old(StampsOf(tree.paths.Keys)), StampsOf(tree.paths.Keys), tree, tic, tree.paths[handle.node])
      ensures Used(old(LastUses()), LastUses(), tree.paths[handle.node], tic)
    {
      hide *;
      Facts();
      LastUsesAre();
      var node, prefixLen;
      node, prefixLen, tree := WalkAndUse(rootNode, ids, pageSize, tic, tree, locks, StampsOf(tree.paths.Keys));
      GrownFacts(old(tree), tree);
      handle := RadixCacheHandle(prefixLen, node);
      IsValid(evictableSize, protectedSize);
      LastUsesAre();
    }

    /** The slots of the matched prefix. */
    method GetMatchedIndices(handle: RadixCacheHandle) returns (indices: seq<int>)
      requires Valid() && handle.node in tree.paths
      ensures Cached(tree.pages, tree.paths[handle.node])
      ensures indices == Flat(Backing(tree.pages, tree.paths[handle.node]))
    {
      hide *;
      Facts();
      indices := MatchedIndices(handle.node, pageSize, tree);
    }

    /** Take over the tree that an insertion made, and count the tokens it added. */
    method Grow(ghost t: NodeTree, added: int)
      requires t.root == rootNode && rootNode.refCount == 1
      requires Linked(t, pageSize) && Counted(t, locks) && Anchored(t, locks)
      requires Sizes(t.pages, locks, pageSize, evictableSize + added, protectedSize)
      modifies this`tree, this`evictableSize
      ensures Valid() && tree == t && evictableSize == old(evictableSize) + added
    {
      hide *;
      tree := t;
      evictableSize := evictableSize + added;
      IsValid(old(evictableSize) + added, protectedSize);
    }

    /** Add the whole pages of `inputIds` that are not cached yet, with their slots; pages that are
        cached keep the slots they have. */
    method InsertPrefix(inputIds: seq<int>, indices: seq<int>, tic: int, born: int)
      returns (cachedLen: nat, handle: RadixCacheHandle, ghost k: nat, ghost mid: NodeTree)
      requires Valid() && (pageSize > 0 ==> AlignDown(|inputIds|, pageSize) <= |indices|)
      modifies this`tree, this`evictableSize, tree.paths.Keys`key, tree.paths.Keys`value, tree.paths.Keys`parent,
               tree.paths.Keys`children, tree.paths.Keys`timestamp
      ensures Valid() && fresh(tree.paths.Keys - old(tree.paths.Keys)) && tree.root == old(tree.root)
      ensures AlignDown(|inputIds|, pageSize) <= |inputIds|
      ensures Inserted(old(tree.pages), tree.pages, Pages(inputIds, pageSize), NewSlots(inputIds, indices, pageSize), k)
      ensures cachedLen == Tokens(k, pageSize) && handle.cachedLen == AlignDown(|inputIds|, pageSize)
      ensures handle.node in tree.paths && tree.paths[handle.node] == Pages(inputIds, pageSize)
      ensures k <= |Pages(inputIds, pageSize)| && Grown(old(tree), mid) && PathsKept(old(tree), tree)
      ensures if k == |Pages(inputIds, pageSize)| then tree == mid
              else tree.paths.Keys == mid.paths.Keys + {handle.node}
      ensures Stamped(old(StampsOf(tree.paths.Keys)), StampsOf(tree.paths.Keys), tree, Pages(inputIds, pageSize), k,
                      tic, born)
      ensures UsedTo(old(LastUses()), LastUses(), Pages(inputIds, pageSize), k, tic, born)
    {
      hide *;
      Facts();
      LastUsesAre();
      AlignTwice(|inputIds|, pageSize);
      var node, added;
      ghost var grown;
      node, cachedLen, added, k, mid, grown :=
        InsertInto(rootNode, inputIds, indices, pageSize, tic, born, tree, locks, evictableSize, protectedSize,
                   StampsOf(tree.paths.Keys));
      Grow(grown, added);
      LastUsesAre();
      handle := RadixCacheHandle(AlignDown(|inputIds|, pageSize), node);
    }

    /** Free at least `size` tokens: exactly the slots of the nodes that go, oldest idle leaf first. */
    method Evict(size: nat) returns (evicted: seq<int>, ghost log: RadixLog)
      requires Valid() && size <= evictableSize
      modifies this`tree, this`evictableSize, tree.paths.Keys`children
      ensures Valid() && tree.paths.Keys <= old(tree.paths.Keys)
      ensures Evicting(old(tree), tree, locks, old(StampsOf(tree.paths.Keys)), log)
      ensures evicted == Flat(log.taken) && evictableSize == old(evictableSize) - |evicted|
      ensures if size == 0 then log.victims == [] && evicted == [] else JustEnough(log, |evicted|, size, pageSize)
      ensures NoUse(old(LastUses()), LastUses())
    {
      hide *;
      Facts();
      LastUsesAre();
      ghost var t, st := tree, StampsOf(tree.paths.Keys);
      if size == 0 {
        EvictingNone(tree, locks, StampsOf(tree.paths.Keys));
        FlatNone();
        NoUseNone(LastUses());
        return [], EmptyLog(tree);
      }
      evicted, tree, log := EvictLeaves(rootNode, size, pageSize, tree, locks, evictableSize, protectedSize);
      evictableSize := evictableSize - |evicted|;
      IsValid(old(evictableSize) - |evicted|, protectedSize);
      Facts();
      LastUsesAre();
      EvictIsNoUse(t, tree, locks, st, log);
      SameUse(tree, st, StampsOf(tree.paths.Keys));
    }
  }
}
