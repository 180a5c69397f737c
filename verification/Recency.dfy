/** When each cached prefix was used last, as a plain map, and what the calls of a cache do to it. */
module Recency {
  import opened PageTree
  import opened PathLocks
  import opened Eviction
  import opened RadixNodes

  /** The last use of a cached prefix is the stamp of the node it lies in. */
  ghost function LastUse(t: NodeTree, st: Stamps): map<Path, int> {
    map u | u in t.ends && t.ends[u] in st :: st[t.ends[u]]
  }

  /** All prefixes of `p` that are cached now were used at `tic`, the others when they were used before. */
  ghost predicate Used(r: map<Path, int>, r': map<Path, int>, p: Path, tic: int) {
    forall u :: u in r' ==> if IsPrefix(u, p) then r'[u] == tic else u in r && r'[u] == r[u]
  }

  /** The stamps after `u` was inserted, whose first `k` pages were cached: `tic` on the way to them,
      `born` on the node of the others. */
  ghost predicate Stamped(st: Stamps, st': Stamps, t': NodeTree, u: Path, k: nat, tic: int, born: int)
    requires k <= |u|
  {
    forall n :: n in t'.cuts && n in t'.paths ==>
      n in st' && if IsPrefix(t'.paths[n], u[..k]) then st'[n] == tic
                  else if t'.paths[n] == u then st'[n] == born
                  else n in st && st'[n] == st[n]
  }

  lemma IsStamped(st: Stamps, mid: NodeTree, t': NodeTree, st': Stamps, node: RadixTreeNode, u: Path, k: nat, tic: int,
                  born: int)
    requires k <= |u| && WellFormed(mid) && WellFormed(t') && mid.root == t'.root && mid.paths.Keys <= st'.Keys
    requires Touched(st, st', mid, tic, u[..k]) && node in t'.paths && t'.paths[node] == u && PathsKept(mid, t')
    requires if k == |u| then t' == mid
             else t'.paths.Keys == mid.paths.Keys + {node} && node !in mid.paths && node in st' && st'[node] == born
    ensures Stamped(st, st', t', u, k, tic, born)
  {
    forall n | n in t'.cuts && n in t'.paths && n != node
      ensures n in mid.cuts && n in mid.paths && t'.paths[n] == mid.paths[n] && t'.paths[n] != u
    {
      assert n in t'.paths.Keys && n != t'.root;
      if t'.paths[n] == u {
        PathNamesNode(t', n, node);
      }
    }
    if k == |u| {
      assert u[..k] == u;
    }
  }

  /** All prefixes of the paths `ps` that are cached now were used at `tic`, the others when they were used
      before. */
  ghost predicate UsedAll(r: map<Path, int>, r': map<Path, int>, ps: set<Path>, tic: int) {
    forall u :: u in r' ==> if exists p :: p in ps && IsPrefix(u, p) then r'[u] == tic else u in r && r'[u] == r[u]
  }

  lemma UsedNone(r: map<Path, int>, tic: int)
    ensures UsedAll(r, r, {}, tic)
  {}

  lemma UsedMore(r0: map<Path, int>, r: map<Path, int>, r': map<Path, int>, ps: set<Path>, p: Path, tic: int)
    requires UsedAll(r0, r, ps, tic) && Used(r, r', p, tic)
    ensures UsedAll(r0, r', ps + {p}, tic)
  {
    forall u | u in r'
      ensures if exists q :: q in ps + {p} && IsPrefix(u, q) then r'[u] == tic else u in r0 && r'[u] == r0[u]
    {
      if IsPrefix(u, p) {
        assert p in ps + {p};
      } else if q :| q in ps && IsPrefix(u, q) {
        assert q in ps + {p} && r[u] == tic;
      }
    }
  }

  /** Nothing was used; some prefixes may be gone. */
  ghost predicate NoUse(r: map<Path, int>, r': map<Path, int>) {
    forall u :: u in r' ==> u in r && r'[u] == r[u]
  }

  lemma NoUseNone(r: map<Path, int>)
    ensures NoUse(r, r)
  {}

  // ---------------------------------------------------------------- nodes and the prefixes in them

  /** A prefix whose node was there before lay in that node before. */
  lemma SameEnd(t: NodeTree, t': NodeTree, u: Path)
    requires WellFormed(t) && WellFormed(t') && PathsKept(t, t') && u in t'.ends && t'.ends[u] in t.paths
    ensures u in t.ends && t.ends[u] == t'.ends[u]
  {
    var n := t'.ends[u];
    assert EndOk(t', u) && NodeOk(t', n);
    OnRootPath(t, n, u);
    var m := t.ends[u];
    assert EndOk(t, u);
    var v := t.paths[m];
    assert IsPrefix(v, t'.paths[n]) && t'.paths[m] == v;
    assert m in t'.cuts ==> NodeOk(t', m);
    assert m != t'.root;
    assert IsPrefix(v, v);
  }

  lemma EndInside(t: NodeTree, n: RadixTreeNode, u: Path)
    requires WellFormed(t) && n in t.paths && u in t.ends
    ensures t.ends[u] in t.paths && t.ends[u] in t.cuts
    ensures IsPrefix(u, t.paths[n]) <==> IsPrefix(t.paths[t.ends[u]], t.paths[n])
  {
    assert EndOk(t, u) && NodeOk(t, t.ends[u]);
    if IsPrefix(u, t.paths[n]) {
      OnRootPath(t, n, u);
    }
  }

  lemma UseDomain(t: NodeTree, st: Stamps)
    requires WellFormed(t) && t.paths.Keys <= st.Keys
    ensures LastUse(t, st).Keys == t.pages.Keys
  {
    forall u | u in t.ends ensures t.ends[u] in st {
      assert EndOk(t, u);
    }
  }

  lemma SameUse(t: NodeTree, st: Stamps, st': Stamps)
    requires WellFormed(t) && t.paths.Keys <= st.Keys && t.paths.Keys <= st'.Keys
    requires forall n :: n in t.paths ==> st'[n] == st[n]
    ensures LastUse(t, st') == LastUse(t, st)
  {
    forall u | u in t.ends ensures t.ends[u] in t.paths {
      assert EndOk(t, u);
    }
  }

  // ---------------------------------------------------------------- the calls

  /** To walk along a path is to use its prefixes, and no others. */
  lemma TouchIsUse(t: NodeTree, t': NodeTree, st: Stamps, st': Stamps, tic: int, n: RadixTreeNode)
    requires WellFormed(t) && WellFormed(t') && Grown(t, t') && t.paths.Keys == st.Keys && t'.paths.Keys <= st'.Keys
    requires n in t'.paths && Touched(st, st', t', tic, t'.paths[n])
    ensures Used(LastUse(t, st), LastUse(t', st'), t'.paths[n], tic)
    ensures LastUse(t', st').Keys == t'.pages.Keys == t.pages.Keys
  {
    UseDomain(t', st');
    forall u | u in LastUse(t', st')
      ensures if IsPrefix(u, t'.paths[n]) then LastUse(t', st')[u] == tic
              else u in LastUse(t, st) && LastUse(t', st')[u] == LastUse(t, st)[u]
    {
      EndInside(t', n, u);
      if !IsPrefix(u, t'.paths[n]) {
        SameEnd(t, t', u);
      }
    }
  }

  /** `u` was inserted when its first `k` pages were cached: they were used at `tic`, the rest is there
      since `born`, and all other prefixes were used when they were used before. */
  ghost predicate UsedTo(r: map<Path, int>, r': map<Path, int>, u: Path, k: nat, tic: int, born: int)
    requires k <= |u|
  {
    forall v :: v in r' ==>
      if IsPrefix(v, u[..k]) then r'[v] == tic else if IsPrefix(v, u) then r'[v] == born else v in r && r'[v] == r[v]
  }

  /** Inserted at one moment, all prefixes of a path are used then. */
  lemma UsedAtOnce(r: map<Path, int>, r': map<Path, int>, u: Path, k: nat, tic: int)
    requires k <= |u| && UsedTo(r, r', u, k, tic, tic)
    ensures Used(r, r', u, tic)
  {
    forall v | v in r' ensures IsPrefix(v, u[..k]) ==> IsPrefix(v, u) {}
  }

  /** A prefix of `u` that was not cached lies in the new node. */
  lemma NewEnd(mid: NodeTree, t': NodeTree, u: Path, k: nat, node: RadixTreeNode, v: Path)
    requires WellFormed(mid) && WellFormed(t') && k < |u| && node in t'.paths && t'.paths[node] == u
    requires t'.paths.Keys == mid.paths.Keys + {node} && PathsKept(mid, t')
    requires v in t'.ends && IsPrefix(v, u) && v !in mid.pages
    ensures t'.ends[v] == node
  {
    EndInside(t', node, v);
    var n := t'.ends[v];
    assert EndOk(t', v);
    if n != node {
      assert n in t'.paths.Keys && v != [];
      OnRootPath(mid, n, v);
    }
  }

  /** To insert a path is to use what was cached of it, and to put in the rest. */
  lemma InsertIsUse(t: NodeTree, mid: NodeTree, t': NodeTree, st: Stamps, st': Stamps, u: Path, k: nat, tic: int,
                    born: int, node: RadixTreeNode, up: RadixTreeNode)
    requires WellFormed(t) && WellFormed(mid) && WellFormed(t') && PathsKept(t, t') && t.paths.Keys == st.Keys
    requires t'.paths.Keys <= st'.Keys && k <= |u| && Stamped(st, st', t', u, k, tic, born)
    requires node in t'.paths && t'.paths[node] == u && up in t'.paths && t'.paths[up] == u[..k]
    requires if k == |u| then t' == mid else t'.paths.Keys == mid.paths.Keys + {node} && PathsKept(mid, t')
    requires forall v :: IsPrefix(v, u) && |v| > k ==> v !in mid.pages
    ensures LastUse(t', st').Keys == t'.pages.Keys
    ensures UsedTo(LastUse(t, st), LastUse(t', st'), u, k, tic, born)
  {
    hide WellFormed, PathsKept;
    UseDomain(t', st');
    var r, r' := LastUse(t, st), LastUse(t', st');
    forall v | v in r'
      ensures if IsPrefix(v, u[..k]) then r'[v] == tic else if IsPrefix(v, u) then r'[v] == born
              else v in r && r'[v] == r[v]
    {
      EndInside(t', up, v);
      EndInside(t', node, v);
      if !IsPrefix(v, u[..k]) && IsPrefix(v, u) {
        assert |v| > k;
        NewEnd(mid, t', u, k, node, v);
      } else if !IsPrefix(v, u) {
        SameEnd(t, t', v);
      }
    }
  }

  /** A walk along `path` at `now`: what it does to the tree, to the stamps, and to the last uses. */
  ghost predicate Walked(t: NodeTree, t': NodeTree, st: Stamps, st': Stamps, path: Path, now: int) {
    Grown(t, t') && Touched(st, st', t', now, path) && Used(LastUse(t, st), LastUse(t', st'), path, now)
  }

  lemma WalkedGrown(t: NodeTree, t': NodeTree, st: Stamps, st': Stamps, path: Path, now: int)
    requires Walked(t, t', st, st', path, now)
    ensures Grown(t, t') && t'.pages == t.pages
  {}

  /** What a walk used stays used when other prefixes go. */
  lemma UsedStill(t: NodeTree, t': NodeTree, st: Stamps, st': Stamps, r: map<Path, int>, path: Path, now: int)
    requires Walked(t, t', st, st', path, now)
    requires NoUse(LastUse(t', st'), r)
    ensures Used(LastUse(t, st), r, path, now)
  {}

  // ---------------------------------------------------------------- evictions

  lemma {:induction false} EndsShrink(trees: seq<NodeTree>, victims: seq<RadixTreeNode>, l: Locks, st: Stamps, i: nat)
    requires LruRun(trees, victims, l, st) && i < |trees|
    ensures forall u :: u in trees[i].ends ==> u in trees[0].ends && trees[0].ends[u] == trees[i].ends[u]
  {
    if i > 0 {
      EndsShrink(trees, victims, l, st, i - 1);
      EndsLess(trees[i - 1], victims[i - 1], trees[i], l, st);
      hide *;
    }
  }

  lemma EndsLess(t: NodeTree, n: RadixTreeNode, t': NodeTree, l: Locks, st: Stamps)
    requires LruStep(t, n, t', l, st)
    ensures forall u :: u in t'.ends ==> u in t.ends && t.ends[u] == t'.ends[u]
  {}

  /** An eviction leaves the last use of what stays as it is. */
  lemma EvictIsNoUse(t: NodeTree, t': NodeTree, l: Locks, st: Stamps, log: EvictionLog<RadixTreeNode>)
    requires WellFormed(t) && WellFormed(t') && Evicting(t, t', l, st, log) && t.paths.Keys <= st.Keys
    ensures LastUse(t', st).Keys == t'.pages.Keys
    ensures NoUse(LastUse(t, st), LastUse(t', st))
  {
    EndsShrink(log.trees, log.victims, l, st, |log.victims|);
    UseDomain(t', st);
    UseDomain(t, st);
  }
}
