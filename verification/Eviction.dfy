/** What evicting leaves one after another does to the prefix map, and why it cannot get stuck. */
module Eviction {
  import opened Finite
  import opened PageTree
  import opened PathLocks

  ghost predicate IsIdleLeaf<N>(t: Tree<N>, l: Locks, n: N) {
    IsLeaf(t, n) && n in t.paths && RefCount(l, t.paths[n]) == 0
  }

  ghost function IdleLeaves<N>(t: Tree<N>, l: Locks): set<N> {
    set n | n in t.paths && IsIdleLeaf(t, l, n)
  }

  /** Once a leaf is gone, the only node that can have become an idle leaf is its parent. */
  lemma IdleLeavesPrune<N>(t: Tree<N>, l: Locks, n: N)
    requires Prunable(t, n) && n in t.paths
    ensures var t', up := Prune(t, n), t.cuts[n].up;
            IdleLeaves(t', l) == IdleLeaves(t, l) - {n} + if IsIdleLeaf(t', l, up) then {up} else {}
  {
    var t', up := Prune(t, n), t.cuts[n].up;
    forall m | m in t'.paths && m != up ensures IsIdleLeaf(t', l, m) <==> IsIdleLeaf(t, l, m) {
      SameLeaf(t, l, n, m);
    }
    assert IsKid(t, up, t.cuts[n].span[0], n) && !IsLeaf(t, up);
    assert t'.paths.Keys == t.paths.Keys - {n};
    hide *;
    LeavesLess(t, t', l, n, up);
  }

  lemma SameLeaf<N>(t: Tree<N>, l: Locks, n: N, m: N)
    requires NodeOk(t, n) && t.cuts[n].up in t.kids && m in t.paths && m != n && m != t.cuts[n].up
    ensures IsIdleLeaf(Prune(t, n), l, m) <==> IsIdleLeaf(t, l, m)
  {}

  lemma LeavesLess<N>(t: Tree<N>, t': Tree<N>, l: Locks, n: N, up: N)
    requires t'.paths.Keys == t.paths.Keys - {n} && !IsLeaf(t, up)
    requires forall m :: m in t'.paths && m != up ==> (IsIdleLeaf(t', l, m) <==> IsIdleLeaf(t, l, m))
    ensures IdleLeaves(t', l) == IdleLeaves(t, l) - {n} + if IsIdleLeaf(t', l, up) then {up} else {}
  {
    forall m ensures m in t'.paths <==> m in t.paths && m != n {
      assert m in t'.paths.Keys <==> m in t.paths.Keys - {n};
    }
  }

  /** While some cached prefix is idle there is an idle leaf to evict. */
  lemma SomeIdleLeaf<N>(t: Tree<N>, l: Locks)
    requires WellFormed(t) && Anchored(t, l) && |Idle(t.pages, l)| > 0
    ensures IdleLeaves(t, l) != {}
  {
    var u := Pick(Idle(t.pages, l));
    assert EndOk(t, u);
    CountSpan(t, l, u);
    var m := IdleLeafBelow(t, l, t.ends[u]);
    assert m in IdleLeaves(t, l);
  }

  // ---------------------------------------------------------------- what leaves the prefix map

  /** From `was` to `c` exactly the prefixes `from` went, each once; `taken` are their slots. */
  ghost predicate Removed(was: map<Path, Page>, c: map<Path, Page>, from: seq<Path>, taken: seq<Page>) {
    && |from| == |taken|
    && (forall u :: u in c ==> u in was && c[u] == was[u])
    && (forall i, j :: 0 <= i < j < |from| ==> from[i] != from[j])
    && (forall i :: 0 <= i < |from| ==> from[i] in was && from[i] !in c && was[from[i]] == taken[i])
    && (forall u :: u in was && u !in c ==> u in from)
  }

  /** The prefixes of `p` longer than `k`, shortest first. */
  ghost function Rungs(p: Path, k: nat): (s: seq<Path>)
    requires k <= |p|
    ensures |s| == |p| - k && forall i :: 0 <= i < |s| ==> s[i] == p[..k + 1 + i] && |s[i]| == k + 1 + i
  {
    seq(|p| - k, i requires 0 <= i < |p| - k => p[..k + 1 + i])
  }

  lemma RungsAre(p: Path, k: nat)
    requires k <= |p|
    ensures forall u :: u in Rungs(p, k) <==> u in Stretch(p, k)
    ensures forall i, j :: 0 <= i < j < |Rungs(p, k)| ==> Rungs(p, k)[i] != Rungs(p, k)[j]
  {
    forall u | u in Stretch(p, k) ensures u in Rungs(p, k) {
      assert u == p[..|u|] == Rungs(p, k)[|u| - k - 1];
    }
    forall u | u in Rungs(p, k) ensures u in Stretch(p, k) {
      var i :| 0 <= i < |Rungs(p, k)| && Rungs(p, k)[i] == u;
    }
  }

  lemma RemovedNone(c: map<Path, Page>)
    ensures Removed(c, c, [], [])
  {}

  lemma RemovedMore(a: map<Path, Page>, b: map<Path, Page>, c: map<Path, Page>,
                    from: seq<Path>, taken: seq<Page>, more: seq<Path>, slots: seq<Page>)
    requires Removed(a, b, from, taken) && Removed(b, c, more, slots)
    ensures Removed(a, c, from + more, taken + slots)
  {
    var all, out := from + more, taken + slots;
    forall u | u in a && u !in c ensures u in all {
      assert u in b ==> u in more;
      assert u !in b ==> u in from;
    }
    forall i | 0 <= i < |all| ensures all[i] in a && all[i] !in c && a[all[i]] == out[i] {
      if i < |from| {
        assert all[i] == from[i] && out[i] == taken[i];
      } else {
        assert all[i] == more[i - |from|] && out[i] == slots[i - |from|];
      }
    }
    forall i, j | 0 <= i < j < |all| ensures all[i] != all[j] {
      assert i < |from| ==> all[i] == from[i] && all[i] !in b;
      assert j >= |from| ==> all[j] == more[j - |from|] && all[j] in b;
      assert i >= |from| ==> all[i] == more[i - |from|];
    }
  }

  lemma StretchRemoved(c: map<Path, Page>, p: Path, k: nat, slots: seq<Page>)
    requires k <= |p| == k + |slots| && c.Keys !! PathMap(p, k, slots).Keys
    ensures Removed(c + PathMap(p, k, slots), c, Rungs(p, k), slots)
  {
    var own, rungs := PathMap(p, k, slots), Rungs(p, k);
    RungsAre(p, k);
    PathMapKeys(p, k, slots);
    forall i | 0 <= i < |slots| ensures rungs[i] in own && own[rungs[i]] == slots[i] {
      RungSlot(p, k, slots, i);
    }
    hide *;
    RemovedOwn(c, own, rungs, slots);
  }

  lemma RungSlot(p: Path, k: nat, slots: seq<Page>, i: nat)
    requires k <= |p| == k + |slots| && i < |slots|
    ensures |Rungs(p, k)| == |slots| && Rungs(p, k)[i] in PathMap(p, k, slots)
    ensures PathMap(p, k, slots)[Rungs(p, k)[i]] == slots[i]
  {}

  lemma RemovedOwn(c: map<Path, Page>, own: map<Path, Page>, rungs: seq<Path>, slots: seq<Page>)
    requires c.Keys !! own.Keys && |rungs| == |slots| && (forall u :: u in own.Keys ==> u in rungs)
    requires forall i, j :: 0 <= i < j < |rungs| ==> rungs[i] != rungs[j]
    requires forall i :: 0 <= i < |rungs| ==> rungs[i] in own && own[rungs[i]] == slots[i]
    ensures Removed(c + own, c, rungs, slots)
  {
    assert forall u :: u in own ==> u in own.Keys && u !in c.Keys;
  }

  /** Removing a leaf removes the prefixes of its span, backed by its slots. */
  lemma PruneRemoves<N>(t: Tree<N>, n: N)
    requires Prunable(t, n) && n in t.paths
    ensures t.cuts[n].start <= |t.paths[n]|
    ensures Removed(t.pages, Prune(t, n).pages, Rungs(t.paths[n], t.cuts[n].start), t.cuts[n].slots)
  {
    assert |t.paths[n]| == t.cuts[n].start + |t.cuts[n].slots|;
    PruneKeys(t, n);
    hide *;
    PrunePages(t, n);
    StretchRemoved(Prune(t, n).pages, t.paths[n], t.cuts[n].start, t.cuts[n].slots);
  }

  lemma PruneUnlocked<N>(t: Tree<N>, l: Locks, n: N)
    requires Prunable(t, n) && Anchored(t, l) && n in t.paths && RefCount(l, t.paths[n]) == 0
    ensures t.cuts[n].start <= |t.paths[n]|
    ensures forall u :: u in Rungs(t.paths[n], t.cuts[n].start) ==> RefCount(l, u) == 0
  {
    RungsAre(t.paths[n], t.cuts[n].start);
    PruneUnheld(t, l, n);
  }

  // ---------------------------------------------------------------- least recently used

  /** `n` is an idle leaf of `t`, none of them is older, and `t'` is `t` without it. */
  ghost predicate LruStep<N>(t: Tree<N>, n: N, t': Tree<N>, l: Locks, st: map<N, int>) {
    && Prunable(t, n) && n in t.paths && n in st && IsIdleLeaf(t, l, n) && t' == Prune(t, n)
    && forall m :: m in IdleLeaves(t, l) && m in st ==> st[n] <= st[m]
  }

  /** The record of an eviction: the victims in order, the trees between them, and the prefixes that
      went with the slots that backed them. */
  datatype EvictionLog<N> = EvictionLog(trees: seq<Tree<N>>, victims: seq<N>, from: seq<Path>, taken: seq<Page>)

  ghost predicate LruRun<N>(trees: seq<Tree<N>>, victims: seq<N>, l: Locks, st: map<N, int>) {
    && |trees| == |victims| + 1
    && forall i :: 0 <= i < |victims| ==> LruStep(trees[i], victims[i], trees[i + 1], l, st)
  }

  /** Only nodes that no lock holds may go; the others keep their path. */
  ghost predicate NodesKept<N>(t: Tree<N>, t': Tree<N>, l: Locks) {
    && t'.root == t.root && t'.paths.Keys <= t.paths.Keys && (forall n :: n in t'.paths ==> t'.paths[n] == t.paths[n])
    && (forall n :: n in t.paths && n !in t'.paths ==> RefCount(l, t.paths[n]) == 0 && n in t.cuts)
  }

  lemma NodesKeptStep<N>(t: Tree<N>, t': Tree<N>, l: Locks, st: map<N, int>, n: N, t'': Tree<N>)
    requires NodesKept(t, t', l) && LruStep(t', n, t'', l, st) && n in t'.cuts && t'.cuts.Keys <= t.cuts.Keys
    ensures NodesKept(t, t'', l) && t''.cuts.Keys <= t.cuts.Keys
  {}

  /** The logged victims lead from `t` to `t'`, and what they held is exactly what went. */
  ghost predicate Evicting<N>(t: Tree<N>, t': Tree<N>, l: Locks, st: map<N, int>, log: EvictionLog<N>) {
    && LruRun(log.trees, log.victims, l, st) && log.trees[0] == t && log.trees[|log.victims|] == t'
    && NodesKept(t, t', l) && t'.cuts.Keys <= t.cuts.Keys
    && Removed(t.pages, t'.pages, log.from, log.taken) && forall u :: u in log.from ==> RefCount(l, u) == 0
  }

  ghost function EmptyLog<N>(t: Tree<N>): EvictionLog<N> {
    EvictionLog([t], [], [], [])
  }

  ghost function Logged<N>(log: EvictionLog<N>, t: Tree<N>, n: N, t': Tree<N>): EvictionLog<N>
    requires n in t.cuts && n in t.paths && t.cuts[n].start <= |t.paths[n]|
  {
    EvictionLog(log.trees + [t'], log.victims + [n], log.from + Rungs(t.paths[n], t.cuts[n].start),
                log.taken + t.cuts[n].slots)
  }

  lemma EvictingNone<N>(t: Tree<N>, l: Locks, st: map<N, int>)
    ensures Evicting(t, t, l, st, EmptyLog(t)) && EmptyLog(t).taken == [] && EmptyLog(t).victims == []
  {
    RemovedNone(t.pages);
  }

  lemma EvictingStep<N>(t: Tree<N>, t': Tree<N>, l: Locks, st: map<N, int>, log: EvictionLog<N>, n: N, t'': Tree<N>)
    requires Evicting(t, t', l, st, log) && LruStep(t', n, t'', l, st) && Anchored(t', l)
    requires n in t'.cuts && n in t'.paths && t'.cuts[n].start <= |t'.paths[n]|
    ensures Evicting(t, t'', l, st, Logged(log, t', n, t''))
  {
    PruneRemoves(t', n);
    PruneUnlocked(t', l, n);
    NodesKeptStep(t, t', l, st, n, t'');
    hide NodesKept, LruStep, RefCount, Removed, Anchored, Prune;
    LruMore(log.trees, log.victims, l, st, n, t'');
    RemovedMore(t.pages, t'.pages, t''.pages, log.from, log.taken, Rungs(t'.paths[n], t'.cuts[n].start),
                t'.cuts[n].slots);
  }

  lemma LruMore<N>(trees: seq<Tree<N>>, victims: seq<N>, l: Locks, st: map<N, int>, n: N, t: Tree<N>)
    requires LruRun(trees, victims, l, st) && LruStep(trees[|victims|], n, t, l, st)
    ensures LruRun(trees + [t], victims + [n], l, st)
  {
    hide LruStep;
    var ts, vs := trees + [t], victims + [n];
    forall i | 0 <= i < |vs| ensures LruStep(ts[i], vs[i], ts[i + 1], l, st) {
      assert i < |victims| ==> LruStep(trees[i], victims[i], trees[i + 1], l, st);
    }
  }

  // ---------------------------------------------------------------- locked prefixes stay

  /** Every pinned prefix is still backed by the same slots. */
  ghost predicate Keeps(c: map<Path, Page>, l: Locks, c': map<Path, Page>) {
    forall u {:trigger u in c} :: u in c && RefCount(l, u) > 0 ==> u in c' && c'[u] == c[u]
  }

  lemma RemovedKeeps(was: map<Path, Page>, c: map<Path, Page>, l: Locks, from: seq<Path>, taken: seq<Page>)
    requires Removed(was, c, from, taken) && forall u :: u in from ==> RefCount(l, u) == 0
    ensures Keeps(was, l, c)
  {}

  lemma AddedKeeps(c: map<Path, Page>, l: Locks, more: map<Path, Page>)
    requires c.Keys !! more.Keys
    ensures Keeps(c, l, c + more)
  {}

  lemma KeepsBacking(c: map<Path, Page>, l: Locks, c': map<Path, Page>, i: int)
    requires Keeps(c, l, c') && i in l && Cached(c, l[i])
    ensures Cached(c', l[i]) && Backing(c', l[i]) == Backing(c, l[i])
  {
    forall v | v != [] && IsPrefix(v, l[i]) ensures v in c && v in c' && c'[v] == c[v] {
      CountPositive(l, i, v);
    }
    var p := l[i];
    forall j | 0 <= j < |p| ensures Backing(c', p)[j] == Backing(c, p)[j] {
      assert IsPrefix(p[..j + 1], p);
    }
  }
}
