/** Outstanding locks on paths. Each lock carries a ticket, so that two locks on the same path are
    two locks; the reference count of a boundary is the number of locks at or below it. */
module PathLocks {
  import opened Finite
  import opened PageTree

  type Locks = map<int, Path>

  ghost function Holders(l: Locks, u: Path): set<int> {
    set i | i in l && IsPrefix(u, l[i])
  }

  ghost function RefCount(l: Locks, u: Path): nat {
    |Holders(l, u)|
  }

  /** Every lock is held on the path of some node. */
  ghost predicate Anchored<N>(t: Tree<N>, l: Locks) {
    forall i :: i in l ==> exists n :: n in t.paths && t.paths[n] == l[i]
  }

  /** The cached prefixes that no lock holds, and those that some lock holds. */
  ghost function Idle(c: map<Path, Page>, l: Locks): set<Path> {
    set u | u in c && RefCount(l, u) == 0
  }

  ghost function Pinned(c: map<Path, Page>, l: Locks): set<Path> {
    set u | u in c && RefCount(l, u) > 0
  }

  lemma CountLock(l: Locks, i: int, p: Path, u: Path)
    requires i !in l
    ensures RefCount(l[i := p], u) == RefCount(l, u) + if IsPrefix(u, p) then 1 else 0
  {
    assert Holders(l[i := p], u) == Holders(l, u) + if IsPrefix(u, p) then {i} else {};
  }

  lemma Relock(l: Locks, i: int)
    requires i in l
    ensures (l - {i})[i := l[i]] == l
  {}

  lemma CountPositive(l: Locks, i: int, u: Path)
    requires i in l && IsPrefix(u, l[i])
    ensures RefCount(l, u) > 0
  {
    assert i in Holders(l, u);
  }

  /** A deeper boundary is held by no more locks: idle nodes are closed under descendants. */
  lemma CountMonotone(l: Locks, u: Path, v: Path)
    requires IsPrefix(u, v)
    ensures RefCount(l, v) <= RefCount(l, u)
  {
    forall i | i in Holders(l, v) ensures i in Holders(l, u) {
      assert l[i][..|u|] == l[i][..|v|][..|u|];
    }
    SubsetSize(Holders(l, v), Holders(l, u));
  }

  /** Every prefix inside a node is held by exactly the locks that hold the node. */
  lemma CountSpan<N>(t: Tree<N>, l: Locks, u: Path)
    requires WellFormed(t) && Anchored(t, l) && u in t.ends
    ensures t.ends[u] in t.paths && RefCount(l, u) == RefCount(l, t.paths[t.ends[u]])
  {
    assert EndOk(t, u);
    var p := t.paths[t.ends[u]];
    forall i | i in l && IsPrefix(u, l[i]) ensures IsPrefix(p, l[i]) {
      var n :| n in t.paths && t.paths[n] == l[i];
      OnRootPath(t, n, u);
    }
    forall i | i in l && IsPrefix(p, l[i]) ensures IsPrefix(u, l[i]) {}
    assert Holders(l, u) == Holders(l, p);
  }

  lemma CountSplit<N>(t: Tree<N>, l: Locks, n: N, k: nat, h: N)
    requires Splittable(t, n, k, h) && Anchored(t, l)
    ensures RefCount(l, Split(t, n, k, h).paths[h]) == RefCount(l, t.paths[n])
    ensures Anchored(Split(t, n, k, h), l)
  {
    var p, t' := t.paths[n][..t.cuts[n].start + k], Split(t, n, k, h);
    assert IsPrefix(p, t.paths[n]);
    CountSpan(t, l, p);
    forall i | i in l ensures exists m :: m in t'.paths && t'.paths[m] == l[i] {
      var m :| m in t.paths && t.paths[m] == l[i];
      assert m in t'.paths && t'.paths[m] == l[i];
    }
  }

  /** Nothing below an uncached boundary is locked. */
  lemma CountFresh<N>(t: Tree<N>, l: Locks, p: Path)
    requires WellFormed(t) && Anchored(t, l) && p != [] && p !in t.ends
    ensures RefCount(l, p) == 0
  {
    forall i | i in l ensures !IsPrefix(p, l[i]) {
      var m :| m in t.paths && t.paths[m] == l[i];
      if IsPrefix(p, l[i]) {
        OnRootPath(t, m, p);
      }
    }
    assert Holders(l, p) == {};
  }

  lemma CountGraft<N>(t: Tree<N>, l: Locks, n: N, p: Path, c: Cut<N>)
    requires Graftable(t, n, p, c) && Anchored(t, l)
    ensures RefCount(l, p) == 0 && Anchored(Graft(t, n, p, c), l)
  {
    assert p in Stretch(p, c.start);
    CountFresh(t, l, p);
    forall i | i in l ensures exists m :: m in Graft(t, n, p, c).paths && Graft(t, n, p, c).paths[m] == l[i] {
      var m :| m in t.paths && t.paths[m] == l[i];
      assert m in Graft(t, n, p, c).paths && Graft(t, n, p, c).paths[m] == l[i];
    }
  }

  lemma CountPrune<N>(t: Tree<N>, l: Locks, n: N)
    requires Prunable(t, n) && Anchored(t, l) && RefCount(l, t.paths[n]) == 0
    ensures Anchored(Prune(t, n), l)
  {
    forall i | i in l ensures exists m :: m in Prune(t, n).paths && Prune(t, n).paths[m] == l[i] {
      var m :| m in t.paths && t.paths[m] == l[i];
      if m == n { CountPositive(l, i, t.paths[n]); }
      assert m in Prune(t, n).paths && Prune(t, n).paths[m] == l[i];
    }
  }

  /** Idle and pinned prefixes together are all of them. */
  lemma IdleOrPinned(c: map<Path, Page>, l: Locks)
    ensures |Idle(c, l)| + |Pinned(c, l)| == |c|
  {
    assert c.Keys == Idle(c, l) + Pinned(c, l);
  }

  // ---------------------------------------------------------------- counting along a root path

  /** How many prefixes of `p` are idle. */
  ghost function IdleOn(c: map<Path, Page>, l: Locks, p: Path): nat {
    |Idle(c, l) * Stretch(p, 0)|
  }

  lemma ShorterPrefix(u: Path, up: Path, p: Path)
    requires IsPrefix(u, p) && IsPrefix(up, p)
    ensures IsPrefix(u, up) <==> |u| <= |up|
  {
    if |u| <= |up| {
      assert u == p[..|u|] == up[..|u|];
    }
  }

  lemma PrefixTrans(u: Path, up: Path, p: Path)
    requires IsPrefix(u, up) && IsPrefix(up, p)
    ensures IsPrefix(u, p) && |u| <= |up|
  {}

  lemma StretchCut(p: Path, up: Path)
    requires IsPrefix(up, p)
    ensures Stretch(p, 0) == Stretch(up, 0) + Stretch(p, |up|) && Stretch(up, 0) !! Stretch(p, |up|)
    ensures |Stretch(p, |up|)| == |p| - |up|
  {
    StretchSize(p, |up|);
    hide Stretch;
    forall u
      ensures u in Stretch(p, 0) <==> u in Stretch(up, 0) || u in Stretch(p, |up|)
      ensures u in Stretch(up, 0) ==> u !in Stretch(p, |up|)
    {
      hide IsPrefix;
      if IsPrefix(u, p) {
        ShorterPrefix(u, up, p);
      } else if IsPrefix(u, up) {
        PrefixTrans(u, up, p);
      }
    }
  }

  lemma SpanIdle<N>(t: Tree<N>, l: Locks, n: N)
    requires WellFormed(t) && Anchored(t, l) && NodeOk(t, n)
    ensures Idle(t.pages, l) * Stretch(t.paths[n], t.cuts[n].start) ==
              if RefCount(l, t.paths[n]) == 0 then Stretch(t.paths[n], t.cuts[n].start) else {}
  {
    forall u | u in Stretch(t.paths[n], t.cuts[n].start)
      ensures u in t.pages && RefCount(l, u) == RefCount(l, t.paths[n])
    {
      CountSpan(t, l, u);
    }
  }

  /** A set cut into two parts cuts every other set into two. */
  lemma TwoParts<T>(a: set<T>, whole: set<T>, b: set<T>, c: set<T>)
    requires whole == b + c && b !! c
    ensures |a * whole| == |a * b| + |a * c|
  {
    assert a * whole == a * b + a * c && a * b !! a * c;
  }

  lemma SpanLength<N>(t: Tree<N>, n: N)
    requires NodeOk(t, n)
    ensures t.cuts[n].up in t.paths && t.cuts[n].start == |t.paths[t.cuts[n].up]|
            && IsPrefix(t.paths[t.cuts[n].up], t.paths[n])
    ensures |t.cuts[n].span| == |t.paths[n]| - t.cuts[n].start
  {}

  /** A node's span is idle as a whole or not at all. */
  lemma IdleStep<N>(t: Tree<N>, l: Locks, n: N)
    requires WellFormed(t) && Anchored(t, l) && NodeOk(t, n)
    ensures IdleOn(t.pages, l, t.paths[n]) == IdleOn(t.pages, l, t.paths[t.cuts[n].up]) +
              if RefCount(l, t.paths[n]) == 0 then |t.cuts[n].span| else 0
  {
    SpanLength(t, n);
    SpanIdle(t, l, n);
    hide WellFormed, NodeOk, Anchored, RefCount, Idle, Stretch, IsPrefix;
    var p, up := t.paths[n], t.paths[t.cuts[n].up];
    StretchCut(p, up);
    TwoParts(Idle(t.pages, l), Stretch(p, 0), Stretch(up, 0), Stretch(p, |up|));
  }

  lemma SumOf<T>(whole: set<T>, a: set<T>, b: set<T>)
    requires a !! b && forall x :: x in whole <==> x in a || x in b
    ensures |whole| == |a| + |b|
  {
    assert whole == a + b;
  }

  /** Prefixes that no lock holds come and go on the idle side only. */
  lemma IdleMore(c: map<Path, Page>, c': map<Path, Page>, l: Locks, own: set<Path>)
    requires c'.Keys == c.Keys + own && c.Keys !! own
    requires forall u :: u in own ==> RefCount(l, u) == 0
    ensures |Idle(c', l)| == |Idle(c, l)| + |own| && |Pinned(c', l)| == |Pinned(c, l)|
  {
    hide RefCount;
    forall u
      ensures u in Idle(c', l) <==> u in Idle(c, l) || u in own
      ensures u in Pinned(c', l) <==> u in Pinned(c, l)
    {
      assert u in c' <==> u in c || u in own;
    }
    assert Idle(c, l) !! own;
    hide *;
    SumOf(Idle(c', l), Idle(c, l), own);
    assert Pinned(c', l) == Pinned(c, l);
  }

  lemma GraftUnheld<N>(t: Tree<N>, l: Locks, n: N, p: Path, c: Cut<N>)
    requires Graftable(t, n, p, c) && Anchored(t, l)
    ensures forall u :: u in Stretch(p, c.start) ==> u !in t.pages && RefCount(l, u) == 0
    ensures |Stretch(p, c.start)| == |c.span|
  {
    StretchSize(p, c.start);
    forall u | u in Stretch(p, c.start) ensures u !in t.pages && RefCount(l, u) == 0 {
      CountFresh(t, l, u);
    }
  }

  /** A new leaf is idle. */
  lemma IdleGraft<N>(t: Tree<N>, l: Locks, n: N, p: Path, c: Cut<N>)
    requires Graftable(t, n, p, c) && Anchored(t, l)
    ensures |Idle(Graft(t, n, p, c).pages, l)| == |Idle(t.pages, l)| + |c.span|
    ensures |Pinned(Graft(t, n, p, c).pages, l)| == |Pinned(t.pages, l)|
  {
    hide *;
    GraftKeys(t, n, p, c);
    GraftUnheld(t, l, n, p, c);
    IdleMore(t.pages, Graft(t, n, p, c).pages, l, Stretch(p, c.start));
  }

  lemma PruneUnheld<N>(t: Tree<N>, l: Locks, n: N)
    requires Prunable(t, n) && Anchored(t, l) && RefCount(l, t.paths[n]) == 0
    ensures forall u :: u in Stretch(t.paths[n], t.cuts[n].start) ==> u in t.pages && RefCount(l, u) == 0
    ensures |Stretch(t.paths[n], t.cuts[n].start)| == |t.cuts[n].span|
  {
    StretchSize(t.paths[n], t.cuts[n].start);
    forall u | u in Stretch(t.paths[n], t.cuts[n].start) ensures u in t.pages && RefCount(l, u) == 0 {
      CountSpan(t, l, u);
    }
  }

  /** A removed idle leaf leaves the idle prefixes. */
  lemma IdlePrune<N>(t: Tree<N>, l: Locks, n: N)
    requires Prunable(t, n) && Anchored(t, l) && RefCount(l, t.paths[n]) == 0
    ensures |Idle(Prune(t, n).pages, l)| == |Idle(t.pages, l)| - |t.cuts[n].span|
    ensures |Pinned(Prune(t, n).pages, l)| == |Pinned(t.pages, l)|
  {
    hide *;
    PruneKeys(t, n);
    PruneUnheld(t, l, n);
    IdleMore(Prune(t, n).pages, t.pages, l, Stretch(t.paths[n], t.cuts[n].start));
  }

  lemma NothingAtRoot<N>(t: Tree<N>)
    requires WellFormed(t)
    ensures [] !in t.pages
  {
    assert [] in t.ends ==> EndOk(t, []);
  }

  lemma Outside<T>(a: set<T>, rest: set<T>, b: set<T>)
    requires forall x :: x in rest <==> x in a && x !in b
    ensures |a| == |rest| + |a * b|
  {
    assert a == rest + a * b && rest !! a * b;
  }

  /** A lock on `p` moves the idle prefixes of `p` to the pinned ones. */
  lemma IdleLock(c: map<Path, Page>, l: Locks, i: int, p: Path)
    requires i !in l && [] !in c
    ensures |Idle(c, l)| == |Idle(c, l[i := p])| + IdleOn(c, l, p)
    ensures |Pinned(c, l[i := p])| == |Pinned(c, l)| + IdleOn(c, l, p)
  {
    IdleOrPinned(c, l);
    IdleOrPinned(c, l[i := p]);
    forall u ensures u in Idle(c, l[i := p]) <==> u in Idle(c, l) && u !in Stretch(p, 0) {
      CountLock(l, i, p, u);
    }
    hide Idle, Pinned, Stretch, RefCount;
    Outside(Idle(c, l), Idle(c, l[i := p]), Stretch(p, 0));
  }

  ghost function Below<N>(t: Tree<N>, p: Path): set<N> {
    set n | n in t.cuts && n in t.paths && IsPrefix(p, t.paths[n])
  }

  /** Below every idle node there is an idle leaf, so eviction never runs out of leaves early. */
  lemma {:induction false} IdleLeafBelow<N>(t: Tree<N>, l: Locks, n: N) returns (m: N)
    requires WellFormed(t) && n in t.cuts && n in t.paths && RefCount(l, t.paths[n]) == 0
    ensures IsLeaf(t, m) && m in t.paths && RefCount(l, t.paths[m]) == 0
    decreases |Below(t, t.paths[n])|
  {
    if IsLeaf(t, n) {
      m := n;
    } else {
      var k :| k in t.kids[n];
      var r := t.kids[n][k];
      assert KidsOk(t, n);
      assert NodeOk(t, r);
      CountMonotone(l, t.paths[n], t.paths[r]);
      assert n in Below(t, t.paths[n]) - Below(t, t.paths[r]);
      SubsetSize(Below(t, t.paths[r]), Below(t, t.paths[n]) - {n});
      m := IdleLeafBelow(t, l, r);
    }
  }

  /** The lock lengths of the tickets in `ids`, added up. */
  ghost function TotalHeld(l: Locks, ids: set<int>): nat
    requires ids <= l.Keys
  {
    if ids == {} then 0 else
      var i := Pick(ids);
      |l[i]| + TotalHeld(l, ids - {i})
  }

  ghost predicate Holds(l: Locks, ids: set<int>, u: Path) {
    Holders(l, u) * ids != {}
  }

  /** Prefixes held by the tickets in `ids` number at most those tickets' total length. */
  lemma {:induction false} HeldBound<N>(t: Tree<N>, l: Locks, ids: set<int>, us: set<Path>)
    requires WellFormed(t) && ids <= l.Keys && us <= t.pages.Keys
    requires forall u :: u in us ==> Holds(l, ids, u)
    ensures |us| <= TotalHeld(l, ids)
    decreases ids
  {
    if ids == {} {
      assert us == {};
    } else {
      var i := Pick(ids);
      var rest := us - Stretch(l[i], 0);
      forall u | u in rest ensures Holds(l, ids - {i}, u) {
        assert EndOk(t, u) && Holds(l, ids, u);
      }
      HeldBound(t, l, ids - {i}, rest);
      StretchSize(l[i], 0);
      SubsetSize(us, rest + Stretch(l[i], 0));
    }
  }

  /** The pinned part of the tree is the union of the locked root paths. */
  lemma PinnedBound<N>(t: Tree<N>, l: Locks)
    requires WellFormed(t)
    ensures |Pinned(t.pages, l)| <= TotalHeld(l, l.Keys)
  {
    forall u | u in Pinned(t.pages, l) ensures Holds(l, l.Keys, u) {
      assert Holders(l, u) * l.Keys == Holders(l, u);
    }
    HeldBound(t, l, l.Keys, Pinned(t.pages, l));
  }
}
