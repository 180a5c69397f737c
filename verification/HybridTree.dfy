/** The second currency of the hybrid tree: a snapshot per node, with its own lock count. Nodes whose
    snapshot was evicted are tombstones; they may only be internal. */
module HybridTree {
  import opened Finite
  import opened PageTree
  import opened PathLocks
  import opened RadixNodes

  datatype Snap = Snap(value: Option<int>, refs: int)
  type Snaps = map<RadixTreeNode, Snap>

  ghost function SnapsOf(ns: set<RadixTreeNode>): (s: Snaps)
    reads ns`mambaValue, ns`mambaRefCount
    ensures s.Keys == ns && forall n :: n in ns ==> s[n] == Snap(n.mambaValue, n.mambaRefCount)
  {
    map n | n in ns :: Snap(n.mambaValue, n.mambaRefCount)
  }

  ghost function LocksAt(l: Locks, p: Path): set<int> {
    set i | i in l && l[i] == p
  }

  /** A node's snapshot count is the number of locks on the node itself, and only a node with a live
      snapshot can be locked; the root has no snapshot and counts nothing. */
  ghost predicate SnapOk(t: NodeTree, l: Locks, s: Snaps, n: RadixTreeNode) {
    && n in s && n in t.paths
    && if n == t.root then s[n] == Snap(None, 0)
       else s[n].refs == |LocksAt(l, t.paths[n])| && (s[n].refs > 0 ==> s[n].value.Some?)
  }

  ghost predicate SnapsOk(t: NodeTree, l: Locks, s: Snaps) {
    && s.Keys == t.paths.Keys
    && forall n {:trigger SnapOk(t, l, s, n)} :: n in t.paths ==> SnapOk(t, l, s, n)
  }

  ghost predicate HasSnap(s: Snaps, n: RadixTreeNode) {
    n in s && s[n].value.Some?
  }

  /** Every leaf but those in `but` carries a live snapshot. */
  ghost predicate LeavesLive(t: NodeTree, s: Snaps, but: set<RadixTreeNode>) {
    forall n {:trigger HasSnap(s, n)} :: n in t.paths && IsLeaf(t, n) && n !in but ==> HasSnap(s, n)
  }

  /** Snapshots that can be evicted, and snapshots that are in use. */
  ghost function Spare(s: Snaps): set<RadixTreeNode> {
    set n | n in s && s[n].value.Some? && s[n].refs == 0
  }

  ghost function InUse(s: Snaps): set<RadixTreeNode> {
    set n | n in s && s[n].value.Some? && s[n].refs != 0
  }

  /** The two snapshot counters. */
  ghost predicate SnapSizes(s: Snaps, evictable: int, protectedSnaps: int) {
    evictable == |Spare(s)| && protectedSnaps == |InUse(s)|
  }

  // ---------------------------------------------------------------- walking and inserting

  /** `s'` is `s` with blank nodes added. */
  ghost predicate BlankAdded(s: Snaps, s': Snaps) {
    && s.Keys <= s'.Keys && (forall n :: n in s ==> s'[n] == s[n])
    && (forall n :: n in s' && n !in s ==> s'[n] == Snap(None, 0))
  }

  /** No lock is on the path of a node that was not there. */
  lemma NoLockAtNew(t: NodeTree, t': NodeTree, l: Locks, n: RadixTreeNode)
    requires Anchored(t, l) && WellFormed(t') && n in t'.paths && n !in t.paths
    requires forall m :: m in t.paths ==> m in t'.paths && t'.paths[m] == t.paths[m]
    ensures LocksAt(l, t'.paths[n]) == {}
  {
    forall i | i in l ensures l[i] != t'.paths[n] {
      var m :| m in t.paths && t.paths[m] == l[i];
      assert t'.paths[m] == l[i];
      if l[i] == t'.paths[n] {
        PathNamesNode(t', m, n);
      }
    }
  }

  lemma BlankSizes(s: Snaps, s': Snaps)
    requires BlankAdded(s, s')
    ensures Spare(s') == Spare(s) && InUse(s') == InUse(s)
  {}

  /** New nodes are blank: they change neither counts nor counters. */
  lemma BlankOk(t: NodeTree, t': NodeTree, l: Locks, s: Snaps, s': Snaps)
    requires SnapsOk(t, l, s) && Anchored(t, l) && WellFormed(t) && WellFormed(t') && t'.root == t.root
    requires BlankAdded(s, s') && s'.Keys == t'.paths.Keys
    requires forall m :: m in t.paths ==> m in t'.paths && t'.paths[m] == t.paths[m]
    ensures SnapsOk(t', l, s')
  {
    forall n | n in t'.paths ensures SnapOk(t', l, s', n) {
      if n in t.paths {
        assert SnapOk(t, l, s, n);
      } else {
        NoLockAtNew(t, t', l, n);
      }
    }
  }

  lemma LeavesStillLive(t: NodeTree, t': NodeTree, s: Snaps, s': Snaps, but: set<RadixTreeNode>)
    requires LeavesLive(t, s, {}) && BlankAdded(s, s')
    requires forall n :: n in t'.paths && IsLeaf(t', n) && n !in but ==> n in t.paths && IsLeaf(t, n)
    ensures LeavesLive(t', s', but)
  {
    forall n | n in t'.paths && IsLeaf(t', n) && n !in but ensures HasSnap(s', n) {
      assert HasSnap(s, n);
    }
  }

  // ---------------------------------------------------------------- donating and freeing

  /** A snapshot donated at a node that has none. */
  lemma DonateOk(t: NodeTree, l: Locks, s: Snaps, n: RadixTreeNode, v: int)
    requires SnapsOk(t, l, s) && LeavesLive(t, s, {n}) && n in t.paths && n != t.root && s[n].value == None
    ensures var s' := s[n := Snap(Some(v), s[n].refs)];
            && SnapsOk(t, l, s') && LeavesLive(t, s', {}) && s[n].refs == 0
            && Spare(s') == Spare(s) + {n} && n !in Spare(s) && InUse(s') == InUse(s)
  {
    var s' := s[n := Snap(Some(v), s[n].refs)];
    assert SnapOk(t, l, s, n);
    forall m | m in t.paths ensures SnapOk(t, l, s', m) {
      assert SnapOk(t, l, s, m);
    }
    forall m | m in t.paths && IsLeaf(t, m) ensures HasSnap(s', m) {
      assert m != n ==> HasSnap(s, m);
    }
  }

  /** A spare snapshot freed: its node becomes a tombstone. */
  lemma FreeOk(t: NodeTree, l: Locks, s: Snaps, n: RadixTreeNode, but: set<RadixTreeNode>)
    requires SnapsOk(t, l, s) && LeavesLive(t, s, but) && n in Spare(s)
    ensures var s' := s[n := Snap(None, 0)];
            && SnapsOk(t, l, s') && LeavesLive(t, s', but + {n}) && (IsLeaf(t, n) || LeavesLive(t, s', but))
            && Spare(s') == Spare(s) - {n} && InUse(s') == InUse(s) && n != t.root
  {
    var s' := s[n := Snap(None, 0)];
    assert SnapOk(t, l, s, n);
    forall m | m in t.paths ensures SnapOk(t, l, s', m) {
      assert SnapOk(t, l, s, m);
    }
    forall m | m in t.paths && IsLeaf(t, m) && m !in but && m != n ensures HasSnap(s', m) {
      assert HasSnap(s, m);
    }
  }

  // ---------------------------------------------------------------- locking

  lemma LockAt(l: Locks, i: int, p: Path, q: Path)
    requires i !in l
    ensures |LocksAt(l[i := p], q)| == |LocksAt(l, q)| + if p == q then 1 else 0
  {
    assert LocksAt(l[i := p], q) == LocksAt(l, q) + if p == q then {i} else {};
  }

  /** A lock on a node with a live snapshot counts there and nowhere else. */
  lemma LockSnap(t: NodeTree, l: Locks, s: Snaps, i: int, n: RadixTreeNode)
    requires WellFormed(t) && SnapsOk(t, l, s) && i !in l && n in t.paths && n in s && (n == t.root || s[n].value.Some?)
    ensures var s' := if n == t.root then s else s[n := Snap(s[n].value, s[n].refs + 1)];
            SnapsOk(t, l[i := t.paths[n]], s')
  {
    var l', s' := l[i := t.paths[n]], if n == t.root then s else s[n := Snap(s[n].value, s[n].refs + 1)];
    forall m | m in t.paths ensures SnapOk(t, l', s', m) {
      assert SnapOk(t, l, s, m);
      LockAt(l, i, t.paths[n], t.paths[m]);
      if t.paths[m] == t.paths[n] {
        PathNamesNode(t, m, n);
      }
    }
  }

  lemma UnlockSnap(t: NodeTree, l: Locks, s: Snaps, i: int, n: RadixTreeNode)
    requires WellFormed(t) && SnapsOk(t, l, s) && i in l && n in t.paths && n in s && l[i] == t.paths[n]
    ensures n != t.root ==> s[n].refs > 0 && s[n].value.Some?
    ensures n == t.root ==> s[n] == Snap(None, 0)
    ensures var s' := if n == t.root then s else s[n := Snap(s[n].value, s[n].refs - 1)];
            SnapsOk(t, l - {i}, s')
  {
    var l', s' := l - {i}, if n == t.root then s else s[n := Snap(s[n].value, s[n].refs - 1)];
    Relock(l, i);
    assert SnapOk(t, l, s, n);
    LockAt(l', i, l[i], t.paths[n]);
    forall m | m in t.paths ensures SnapOk(t, l', s', m) {
      assert SnapOk(t, l, s, m);
      LockAt(l', i, l[i], t.paths[m]);
      if t.paths[m] == t.paths[n] {
        PathNamesNode(t, m, n);
      }
    }
  }

  lemma SnapMoves(s: Snaps, n: RadixTreeNode, r: int)
    requires n in s && s[n].value.Some?
    ensures var s' := s[n := Snap(s[n].value, r)];
            && Spare(s') == (if r == 0 then Spare(s) + {n} else Spare(s) - {n})
            && InUse(s') == (if r == 0 then InUse(s) - {n} else InUse(s) + {n})
            && (n in Spare(s) <==> s[n].refs == 0) && (n in InUse(s) <==> s[n].refs != 0)
  {}

  /** A change of its count moves a live snapshot between the spare ones and those in use. */
  lemma SnapMoved(s: Snaps, n: RadixTreeNode, r: int)
    requires n in s && s[n].value.Some?
    ensures var s' := s[n := Snap(s[n].value, r)];
            && |Spare(s')| == |Spare(s)| + (if r == 0 then 1 else 0) - (if s[n].refs == 0 then 1 else 0)
            && |InUse(s')| == |InUse(s)| - (if r == 0 then 1 else 0) + (if s[n].refs == 0 then 1 else 0)
  {
    hide *;
    SnapMoves(s, n, r);
    SizeWith(Spare(s), n);
    SizeWith(InUse(s), n);
  }

  lemma SizeWith<T>(a: set<T>, x: T)
    ensures |a + {x}| == |a| + (if x in a then 0 else 1) && |a - {x}| == |a| - (if x in a then 1 else 0)
  {
    if x in a {
      assert a + {x} == a;
    } else {
      assert a - {x} == a;
    }
  }

  // ---------------------------------------------------------------- unlinking

  /** A node that ends below a leaf cannot be: a lock at or below a leaf is on the leaf. */
  lemma LeafLocked(t: NodeTree, l: Locks, s: Snaps, n: RadixTreeNode)
    requires WellFormed(t) && Anchored(t, l) && SnapsOk(t, l, s) && n in t.paths && n != t.root && IsLeaf(t, n)
    requires RefCount(l, t.paths[n]) > 0
    ensures n in s && s[n].refs > 0 && s[n].value.Some?
  {
    var i := Pick(Holders(l, t.paths[n]));
    var m :| m in t.paths && t.paths[m] == l[i];
    assert SnapOk(t, l, s, n);
    if |t.paths[m]| > |t.paths[n]| {
      assert t.paths[m][..|t.paths[m]|] == t.paths[m] && IsPrefix(t.paths[m], t.paths[m]);
      OnRootPath(t, m, t.paths[m]);
      KidOnPath(t, n, t.paths[m], |t.paths[m]|);
    }
    assert t.paths[m] == t.paths[n];
    assert i in LocksAt(l, t.paths[n]);
  }

  lemma NoRefsBelow(l: Locks, p: Path)
    requires RefCount(l, p) == 0
    ensures LocksAt(l, p) == {}
  {
    forall i | i in l ensures l[i] != p {
      assert l[i] == p ==> i in Holders(l, p);
    }
  }

  lemma BlankGone(s: Snaps, n: RadixTreeNode)
    requires n in s && s[n].value == None
    ensures Spare(s - {n}) == Spare(s) && InUse(s - {n}) == InUse(s)
  {}

  /** A tombstone leaf that goes takes no snapshot along; only its parent can have become a leaf. */
  lemma PruneSnaps(t: NodeTree, l: Locks, s: Snaps, n: RadixTreeNode)
    requires Prunable(t, n) && n in t.paths && n in t.cuts && SnapsOk(t, l, s) && LeavesLive(t, s, {n})
    requires RefCount(l, t.paths[n]) == 0 && n in s && s[n].value == None && n != t.root
    ensures SnapsOk(Prune(t, n), l, s - {n}) && LeavesLive(Prune(t, n), s - {n}, {t.cuts[n].up})
    ensures Spare(s - {n}) == Spare(s) && InUse(s - {n}) == InUse(s)
  {
    BlankGone(s, n);
    hide Spare, InUse;
    var t', s' := Prune(t, n), s - {n};
    forall m | m in t'.paths ensures SnapOk(t', l, s', m) {
      assert SnapOk(t, l, s, m);
    }
    forall m | m in t'.paths && IsLeaf(t', m) && m != t.cuts[n].up ensures HasSnap(s', m) {
      assert IsLeaf(t, m);
      assert HasSnap(s, m);
    }
  }
}
