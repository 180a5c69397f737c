/** The mutable tree: nodes that point at their parent and their children, and what it means for
    them to represent a `Tree`. Both prefix caches are built on these nodes. */
module RadixNodes {
  import opened Finite
  import opened PageTree
  import opened Paging
  import opened PathLocks

  class RadixTreeNode {
    var children: map<Page, RadixTreeNode>
    var parent: RadixTreeNode?
    var refCount: int
    var timestamp: int
    var mambaValue: Option<int>
    var mambaRefCount: int
    var key: seq<int>
    var value: seq<int>

    constructor (stamp: int)
      ensures children == map[] && parent == null && refCount == 0 && timestamp == stamp
      ensures mambaValue == None && mambaRefCount == 0 && key == value == []
    {
      children, parent, refCount, timestamp := map[], null, 0, stamp;
      mambaValue, mambaRefCount := None, 0;
      key, value := [], [];
    }

    method SetParent(p: RadixTreeNode, ps: nat)
      requires p != this
      modifies this`parent, p`children
      ensures parent == p && p.children == old(p.children)[KeyFn(key, ps) := this]
    {
      parent := p;
      p.children := p.children[KeyFn(key, ps) := this];
    }

    /** Cut this node in two: the new node takes the head of the span, this node keeps the tail
        and everything that belongs to its end boundary. */
    method SplitAt(pos: nat, ps: nat) returns (head: RadixTreeNode)
      requires 0 < pos < |key| == |value| && parent != null && parent != this
      modifies this`key, this`value, this`parent, parent`children
      ensures fresh(head)
      ensures head.key == old(key)[..pos] && head.value == old(value)[..pos]
      ensures key == old(key)[pos..] && value == old(value)[pos..]
      ensures head.parent == old(parent) && parent == head
      ensures old(parent).children == old(parent.children)[KeyFn(head.key, ps) := head]
      ensures head.children == map[KeyFn(key, ps) := this]
      ensures head.refCount == refCount && head.timestamp == timestamp
      ensures head.mambaValue == None && head.mambaRefCount == 0
    {
      head := new RadixTreeNode(timestamp);
      head.key, head.value := key[..pos], value[..pos];
      head.SetParent(parent, ps);
      head.refCount := refCount;
      key, value := key[pos..], value[pos..];
      SetParent(head, ps);
    }
  }

  /** The shape fields of a node, read off the heap. */
  datatype View = View(key: seq<int>, value: seq<int>, parent: RadixTreeNode?, children: map<Page, RadixTreeNode>)
  type Views = map<RadixTreeNode, View>
  type NodeTree = Tree<RadixTreeNode>
  type NodeCut = Cut<RadixTreeNode>

  ghost function ViewsOf(ns: set<RadixTreeNode>): (vs: Views)
    reads ns`key, ns`value, ns`parent, ns`children
    ensures vs.Keys == ns
    ensures forall n :: n in ns ==> vs[n] == View(n.key, n.value, n.parent, n.children)
  {
    map n | n in ns :: View(n.key, n.value, n.parent, n.children)
  }

  ghost predicate PagedCut(c: NodeCut, ps: nat) {
    Uniform(c.span, ps) && Uniform(c.slots, ps)
  }

  ghost predicate NodeLinked(vs: Views, t: NodeTree, n: RadixTreeNode, ps: nat) {
    && n in t.cuts && n in vs && n in t.kids
    && PagedCut(t.cuts[n], ps)
    && vs[n] == View(Flat(t.cuts[n].span), Flat(t.cuts[n].slots), t.cuts[n].up, t.kids[n])
  }

  /** The nodes, with the fields in `vs`, represent the tree `t`. */
  ghost predicate Represents(vs: Views, t: NodeTree, ps: nat) {
    && ps > 0 && WellFormed(t) && vs.Keys == t.paths.Keys
    && vs[t.root].parent == null && vs[t.root].children == t.kids[t.root]
    && (forall n {:trigger NodeLinked(vs, t, n, ps)} :: n in t.cuts ==> NodeLinked(vs, t, n, ps))
  }

  ghost predicate Linked(t: NodeTree, ps: nat)
    reads t.paths.Keys`key, t.paths.Keys`value, t.paths.Keys`parent, t.paths.Keys`children
  {
    Represents(ViewsOf(t.paths.Keys), t, ps)
  }

  ghost predicate Counted(t: NodeTree, l: Locks)
    reads t.paths.Keys`refCount
  {
    forall n :: n in t.paths && n != t.root ==> n.refCount == RefCount(l, t.paths[n])
  }

  // ---------------------------------------------------------------- splitting

  ghost predicate SplitReady(vs: Views, t: NodeTree, ps: nat, n: RadixTreeNode, k: nat, h: RadixTreeNode) {
    Represents(vs, t, ps) && Splittable(t, n, k, h) && NodeLinked(vs, t, n, ps)
  }

  /** The fields after `SplitAt`: the tail, the parent and the new head. */
  ghost predicate SplitViews(vs: Views, vs': Views, t: NodeTree, ps: nat, n: RadixTreeNode, k: nat, h: RadixTreeNode)
    requires SplitReady(vs, t, ps, n, k, h)
  {
    var c := t.cuts[n];
    && vs'.Keys == vs.Keys + {h} && c.up in vs && c.up != n
    && vs'[n] == View(Flat(c.span[k..]), Flat(c.slots[k..]), h, vs[n].children)
    && vs'[c.up] == vs[c.up].(children := vs[c.up].children[c.span[0] := h])
    && vs'[h] == View(Flat(c.span[..k]), Flat(c.slots[..k]), c.up, map[c.span[k] := n])
    && (forall m :: m in vs && m != n && m != c.up ==> vs'[m] == vs[m])
  }

  lemma IsNodeLinked(vs: Views, t: NodeTree, n: RadixTreeNode, ps: nat)
    requires n in t.cuts && n in vs && n in t.kids && PagedCut(t.cuts[n], ps)
    requires vs[n] == View(Flat(t.cuts[n].span), Flat(t.cuts[n].slots), t.cuts[n].up, t.kids[n])
    ensures NodeLinked(vs, t, n, ps)
  {}

  lemma SplitViewsFacts(vs: Views, vs': Views, t: NodeTree, ps: nat, n: RadixTreeNode, k: nat, h: RadixTreeNode)
    requires SplitReady(vs, t, ps, n, k, h) && SplitViews(vs, vs', t, ps, n, k, h)
    ensures Represents(vs, t, ps) && n in t.cuts && k <= |t.cuts[n].span| == |t.cuts[n].slots| && h !in t.cuts
            && h !in t.kids
    ensures NodeOk(t, n) && 0 < k < |t.cuts[n].span| && t.cuts[n].up != h && n != h
    ensures var c := t.cuts[n];
            && vs'.Keys == vs.Keys + {h} && c.up in vs && c.up != n && c.up in t.kids && n in vs
            && vs'[n] == View(Flat(c.span[k..]), Flat(c.slots[k..]), h, vs[n].children)
            && vs'[c.up] == vs[c.up].(children := vs[c.up].children[c.span[0] := h])
            && vs'[h] == View(Flat(c.span[..k]), Flat(c.slots[..k]), c.up, map[c.span[k] := n])
            && (forall m :: m in vs && m != n && m != c.up ==> vs'[m] == vs[m])
  {}

  lemma SplitCuts(t: NodeTree, n: RadixTreeNode, k: nat, h: RadixTreeNode)
    requires NodeOk(t, n) && 0 < k < |t.cuts[n].span|
    ensures t.cuts[n].up in t.kids && k <= |t.cuts[n].slots|
    ensures var c, t' := t.cuts[n], Split(t, n, k, h);
            && t'.cuts == t.cuts[n := Cut(h, c.start + k, c.span[k..], c.slots[k..])][h :=
                   Cut(c.up, c.start, c.span[..k], c.slots[..k])]
            && t'.kids == t.kids[c.up := t.kids[c.up][c.span[0] := h]][h := map[c.span[k] := n]]
  {}

  lemma CutPaged(c: NodeCut, ps: nat, k: nat, c': NodeCut)
    requires PagedCut(c, ps) && k <= |c.span| && k <= |c.slots|
    requires (c'.span == c.span[k..] && c'.slots == c.slots[k..])
             || (c'.span == c.span[..k] && c'.slots == c.slots[..k])
    ensures PagedCut(c', ps)
  {
    UniformCut(c.span, ps, k);
    UniformCut(c.slots, ps, k);
  }

  lemma SplitNodeLinked(vs: Views, vs': Views, t: NodeTree, ps: nat, n: RadixTreeNode, k: nat, h: RadixTreeNode,
                        m: RadixTreeNode)
    requires SplitReady(vs, t, ps, n, k, h) && SplitViews(vs, vs', t, ps, n, k, h)
    requires m in Split(t, n, k, h).cuts
    ensures NodeLinked(vs', Split(t, n, k, h), m, ps)
  {
    hide *;
    SplitViewsFacts(vs, vs', t, ps, n, k, h);
    SplitCuts(t, n, k, h);
    NodeFields(t, n, vs, ps);
    var t' := Split(t, n, k, h);
    if m == h || m == n {
      CutPaged(t.cuts[n], ps, k, t'.cuts[m]);
    } else {
      NodeFields(t, m, vs, ps);
    }
    IsNodeLinked(vs', t', m, ps);
  }

  lemma UniformCut(s: seq<Page>, ps: nat, k: nat)
    requires Uniform(s, ps) && k <= |s|
    ensures Uniform(s[..k], ps) && Uniform(s[k..], ps)
  {}

  lemma SplitRepresents(vs: Views, vs': Views, t: NodeTree, ps: nat, n: RadixTreeNode, k: nat, h: RadixTreeNode)
    requires SplitReady(vs, t, ps, n, k, h) && SplitViews(vs, vs', t, ps, n, k, h)
    ensures Represents(vs', Split(t, n, k, h), ps)
  {
    SplitWellFormed(t, n, k, h);
    var t' := Split(t, n, k, h);
    forall m | m in t'.cuts ensures NodeLinked(vs', t', m, ps) {
      SplitNodeLinked(vs, vs', t, ps, n, k, h, m);
    }
  }

  /** What a split after `k` pages does to the token and slot arrays of a node. */
  lemma SplitArrays(c: NodeCut, ps: nat, k: nat)
    requires ps > 0 && PagedCut(c, ps) && 0 < k < |c.span| == |c.slots|
    ensures 0 < Tokens(k, ps) < |Flat(c.span)| == |Flat(c.slots)|
    ensures Flat(c.span)[..Tokens(k, ps)] == Flat(c.span[..k]) && Flat(c.span)[Tokens(k, ps)..] == Flat(c.span[k..])
    ensures Flat(c.slots)[..Tokens(k, ps)] == Flat(c.slots[..k]) && Flat(c.slots)[Tokens(k, ps)..] == Flat(c.slots[k..])
    ensures KeyFn(Flat(c.span[..k]), ps) == c.span[0] && KeyFn(Flat(c.span[k..]), ps) == c.span[k]
  {
    SpanCut(c.span, ps, k);
    SpanCut(c.slots, ps, k);
  }

  /** A node that is to be cut, and the node above it. */
  lemma CutFacts(vs: Views, t: NodeTree, n: RadixTreeNode, ps: nat, k: nat)
    requires Represents(vs, t, ps) && NodeOk(t, n) && 0 < k < |t.cuts[n].span|
    ensures n in t.cuts && n in t.paths && vs.Keys == t.paths.Keys && t.cuts[n].up in t.paths && t.cuts[n].up != n
    ensures vs[n].key == Flat(t.cuts[n].span) && vs[n].value == Flat(t.cuts[n].slots) && vs[n].parent == t.cuts[n].up
    ensures PagedCut(t.cuts[n], ps) && |t.cuts[n].span| == |t.cuts[n].slots| && ps > 0
  {
    assert NodeLinked(vs, t, n, ps);
    assert t.cuts[n].up in t.cuts ==> NodeOk(t, t.cuts[n].up);
  }

  lemma IsSplitReady(vs: Views, t: NodeTree, ps: nat, n: RadixTreeNode, k: nat, h: RadixTreeNode)
    requires Represents(vs, t, ps) && NodeOk(t, n) && 0 < k < |t.cuts[n].span| && h !in t.paths
    ensures SplitReady(vs, t, ps, n, k, h)
  {
    assert NodeLinked(vs, t, n, ps);
  }

  lemma IsSplitViews(vs: Views, vs': Views, t: NodeTree, ps: nat, n: RadixTreeNode, k: nat, h: RadixTreeNode)
    requires SplitReady(vs, t, ps, n, k, h) && n in t.cuts && 0 < k < |t.cuts[n].span| == |t.cuts[n].slots| && n in vs
    requires var c := t.cuts[n];
             && vs'.Keys == vs.Keys + {h} && c.up in vs && c.up != n
             && vs'[n] == View(Flat(c.span[k..]), Flat(c.slots[k..]), h, vs[n].children)
             && vs'[c.up] == vs[c.up].(children := vs[c.up].children[c.span[0] := h])
             && vs'[h] == View(Flat(c.span[..k]), Flat(c.slots[..k]), c.up, map[c.span[k] := n])
             && (forall m :: m in vs && m != n && m != c.up ==> vs'[m] == vs[m])
    ensures SplitViews(vs, vs', t, ps, n, k, h)
  {}

  /** `SplitAt` seen in the fields of the whole tree. */
  method CutNode(node: RadixTreeNode, pos: nat, ps: nat, ghost k: nat, ghost t: NodeTree)
    returns (head: RadixTreeNode)
    requires Linked(t, ps) && NodeOk(t, node) && 0 < k < |t.cuts[node].span| && pos == Tokens(k, ps)
    modifies t.paths.Keys`key, t.paths.Keys`value, t.paths.Keys`parent, t.paths.Keys`children
    ensures fresh(head) && SplitReady(old(ViewsOf(t.paths.Keys)), t, ps, node, k, head)
    ensures SplitViews(old(ViewsOf(t.paths.Keys)), ViewsOf(t.paths.Keys + {head}), t, ps, node, k, head)
    ensures head.timestamp == node.timestamp && head.mambaValue == None && head.mambaRefCount == 0
    ensures head.refCount == node.refCount
  {
    hide *;
    LinkedIs(t, ps);
    ghost var vs := ViewsOf(t.paths.Keys);
    CutFacts(vs, t, node, ps, k);
    ghost var c := t.cuts[node];
    SplitArrays(c, ps, k);
    head := node.SplitAt(pos, ps);
    IsSplitReady(vs, t, ps, node, k, head);
    IsSplitViews(vs, ViewsOf(t.paths.Keys + {head}), t, ps, node, k, head);
  }

  lemma LinkedIs(t: NodeTree, ps: nat)
    ensures Linked(t, ps) <==> Represents(ViewsOf(t.paths.Keys), t, ps)
  {}

  /** Cut `node` after `k` pages of its span, keeping the tree linked and counted. */
  method SplitNode(node: RadixTreeNode, pos: nat, ps: nat, ghost k: nat, ghost t: NodeTree, ghost l: Locks)
    returns (head: RadixTreeNode)
    requires Linked(t, ps) && Counted(t, l) && Anchored(t, l) && NodeOk(t, node) && 0 < k < |t.cuts[node].span|
    requires pos == Tokens(k, ps)
    modifies t.paths.Keys`key, t.paths.Keys`value, t.paths.Keys`parent, t.paths.Keys`children
    ensures fresh(head) && Linked(Split(t, node, k, head), ps)
    ensures Counted(Split(t, node, k, head), l) && Anchored(Split(t, node, k, head), l)
    ensures head.timestamp == node.timestamp && head.mambaValue == None && head.mambaRefCount == 0
  {
    hide *;
    ghost var vs := ViewsOf(t.paths.Keys);
    head := CutNode(node, pos, ps, k, t);
    SplitRepresents(vs, ViewsOf(t.paths.Keys + {head}), t, ps, node, k, head);
    SplitPaths(vs, t, ps, node, k, head);
    LinkedIs(Split(t, node, k, head), ps);
    CountSplit(t, l, node, k, head);
    SplitCounted(t, l, node, k, head);
  }

  lemma SplitPaths(vs: Views, t: NodeTree, ps: nat, n: RadixTreeNode, k: nat, h: RadixTreeNode)
    requires SplitReady(vs, t, ps, n, k, h)
    ensures Splittable(t, n, k, h) && n in t.cuts && n in t.paths && n != t.root && h !in t.paths
    ensures Split(t, n, k, h).paths.Keys == t.paths.Keys + {h}
  {}

  lemma SplitCounted(t: NodeTree, l: Locks, n: RadixTreeNode, k: nat, h: RadixTreeNode)
    requires Splittable(t, n, k, h) && n in t.paths && n != t.root && Counted(t, l) && h.refCount == n.refCount
    requires RefCount(l, Split(t, n, k, h).paths[h]) == RefCount(l, t.paths[n])
    ensures Counted(Split(t, n, k, h), l)
  {
    hide WellFormed, RefCount;
  }

  // ---------------------------------------------------------------- walking

  /** No prefix of `u` longer than `k` pages is cached. */
  ghost predicate Longest(c: map<Path, Page>, u: Path, k: nat) {
    forall j :: k < j <= |u| ==> u[..j] !in c
  }

  lemma KidAbsent<N>(t: Tree<N>, n: N, ids: seq<int>, ps: nat)
    requires ps > 0 && WellFormed(t) && n in t.paths && IsPrefix(t.paths[n], Pages(ids, ps))
    requires Tokens(|t.paths[n]|, ps) <= |ids|
    requires KeyFn(ids[Tokens(|t.paths[n]|, ps)..], ps) !in t.kids[n]
    ensures Longest(t.pages, Pages(ids, ps), |t.paths[n]|)
  {
    var u, k := Pages(ids, ps), |t.paths[n]|;
    PagesSplit(ids, ps, k);
    forall j | k < j <= |u| ensures u[..j] !in t.pages {
      assert u[k..][0] == KeyFn(ids[Tokens(k, ps)..], ps);
      if u[..j] in t.ends { KidOnPath(t, n, u, j); }
    }
  }

  /** How far the span of a node agrees with `u` from page `k` on. */
  lemma CommonFrom(span: seq<Page>, u: Path, k: nat)
    requires k <= |u|
    ensures var j := CommonLen(span, u[k..]);
            && j <= |span| && k + j <= |u| && (forall i :: 0 <= i < j ==> span[i] == u[k + i])
            && (j < |span| && k + j < |u| ==> span[j] != u[k + j])
            && (span != [] && k < |u| && span[0] == u[k] ==> 0 < j)
  {
    CommonLenIs(span, u[k..]);
    var j := CommonLen(span, u[k..]);
    forall i | 0 <= i < j ensures span[i] == u[k + i] {
      assert span[i] == span[..j][i] == u[k..][..j][i];
    }
  }

  /** One step of the walk into the child `m` of `n`, of which `j` pages match. */
  lemma KidStep<N>(t: Tree<N>, n: N, m: N, u: Path)
    requires WellFormed(t) && n in t.paths && IsPrefix(t.paths[n], u) && |t.paths[n]| < |u|
    requires NodeOk(t, m) && t.cuts[m].up == n && t.cuts[m].span[0] == u[|t.paths[n]|]
    ensures var k, j := |t.paths[n]|, CommonLen(t.cuts[m].span, u[|t.paths[n]|..]);
            && 0 < j <= |t.cuts[m].span| && k + j <= |u| && k + j <= |t.paths[m]|
            && t.paths[m][..k + j] == u[..k + j]
            && (j < |t.cuts[m].span| ==> Longest(t.pages, u, k + j))
  {
    var k, span := |t.paths[n]|, t.cuts[m].span;
    CommonFrom(span, u, k);
    var j := CommonLen(span, u[k..]);
    forall x | 0 <= x < k + j ensures t.paths[m][x] == u[x] {
      if k <= x { assert span[x - k] == u[k + (x - k)]; }
    }
    if j < |span| {
      forall i | k + j < i <= |u| ensures u[..i] !in t.pages {
        if u[..i] in t.ends { SameSpan(t, m, u, k + j, i); }
      }
    }
  }

  type Stamps = map<RadixTreeNode, int>

  ghost function StampsOf(ns: set<RadixTreeNode>): (st: Stamps)
    reads ns`timestamp
    ensures st.Keys == ns && forall n :: n in ns ==> st[n] == n.timestamp
  {
    map n | n in ns :: n.timestamp
  }

  /** A use of the root path of `end` at time `tic` stamps the nodes on it and no others. */
  ghost predicate Touched(st: Stamps, st': Stamps, t: NodeTree, tic: int, end: Path) {
    forall n :: n in t.cuts && n in t.paths ==>
      n in st' && if IsPrefix(t.paths[n], end) then st'[n] == tic else n in st && st'[n] == st[n]
  }

  /** What a walk leaves alone: the prefix map, the nodes it found and their boundaries. */
  ghost predicate Grown(t: NodeTree, t': NodeTree) {
    && t'.root == t.root && t'.pages == t.pages && t.paths.Keys <= t'.paths.Keys
    && (forall n :: n in t.paths ==> t'.paths[n] == t.paths[n])
  }

  ghost predicate PathsKept(t: NodeTree, t': NodeTree) {
    forall n :: n in t.paths ==> n in t'.paths && t'.paths[n] == t.paths[n]
  }

  /** A walk makes no leaves. */
  ghost predicate LeavesKept(t: NodeTree, t': NodeTree) {
    forall n :: n in t'.paths && IsLeaf(t', n) ==> n in t.paths && IsLeaf(t, n)
  }

  lemma LeavesSame(t: NodeTree)
    ensures LeavesKept(t, t)
  {}

  lemma SplitLeaves(t: NodeTree, n: RadixTreeNode, k: nat, h: RadixTreeNode)
    requires Splittable(t, n, k, h)
    ensures LeavesKept(t, Split(t, n, k, h))
  {
    var t' := Split(t, n, k, h);
    assert t.cuts[n].span[0] in t'.kids[t.cuts[n].up];
    assert t.cuts[n].span[k] in t'.kids[h];
  }

  ghost predicate TouchedBut(st: Stamps, st': Stamps, t: NodeTree, tic: int, end: Path, but: RadixTreeNode) {
    forall n :: n in t.cuts && n in t.paths && n != but ==>
      n in st' && if IsPrefix(t.paths[n], end) then st'[n] == tic else n in st && st'[n] == st[n]
  }

  lemma RootTouched(st: Stamps, t: NodeTree, tic: int)
    requires WellFormed(t) && t.paths.Keys <= st.Keys
    ensures Touched(st, st, t, tic, [])
  {
    forall n | n in t.cuts && n in t.paths ensures !IsPrefix(t.paths[n], []) {
      assert NodeOk(t, n);
    }
  }

  /** Stamping a child of the last stamped node extends the stamped root path by that child. */
  lemma StepTouched(st: Stamps, st': Stamps, st'': Stamps, t: NodeTree, tic: int, n: RadixTreeNode)
    requires WellFormed(t) && NodeOk(t, n) && n in st''
    requires TouchedBut(st, st', t, tic, t.paths[t.cuts[n].up], n)
    requires forall m :: m in st' && m != n ==> m in st'' && st''[m] == st'[m]
    requires st''[n] == tic
    ensures Touched(st, st'', t, tic, t.paths[n])
  {
    forall m | m in t.cuts && m in t.paths && m != n
      ensures IsPrefix(t.paths[m], t.paths[n]) <==> IsPrefix(t.paths[m], t.paths[t.cuts[n].up])
    {
      assert NodeOk(t, m);
      assert IsPrefix(t.paths[m], t.paths[m]);
    }
  }

  lemma NodeFields(t: NodeTree, n: RadixTreeNode, vs: Views, ps: nat)
    requires Represents(vs, t, ps) && n in t.cuts
    ensures NodeOk(t, n) && n in vs && PagedCut(t.cuts[n], ps)
    ensures n in t.kids && vs[n] == View(Flat(t.cuts[n].span), Flat(t.cuts[n].slots), t.cuts[n].up, t.kids[n])
    ensures |vs[n].key| == |vs[n].value| == Tokens(|t.cuts[n].span|, ps)
  {
    assert NodeLinked(vs, t, n, ps) && NodeOk(t, n);
    FlatLength(t.cuts[n].span, ps);
    FlatLength(t.cuts[n].slots, ps);
  }

  lemma NodeKids(t: NodeTree, n: RadixTreeNode, vs: Views, ps: nat)
    requires Represents(vs, t, ps) && n in t.paths
    ensures n in t.kids && n in vs && vs[n].children == t.kids[n] && KidsOk(t, n)
  {
    assert n in t.cuts ==> NodeLinked(vs, t, n, ps);
    assert KidsOk(t, n);
  }

  lemma TokenStep(span: seq<Page>, ids: seq<int>, ps: nat, k: nat)
    requires ps > 0 && Uniform(span, ps) && k <= |Pages(ids, ps)| && Tokens(k, ps) <= |ids|
    ensures var j := CommonLen(span, Pages(ids, ps)[k..]);
            && AlignDown(CommonLen(Flat(span), ids[Tokens(k, ps)..]), ps) == Tokens(j, ps)
            && k + j <= |Pages(ids, ps)| && Tokens(k + j, ps) == Tokens(k, ps) + Tokens(j, ps) <= |ids|
            && j <= |span| && (j < |span| ==> Tokens(j, ps) < |Flat(span)|) && |Flat(span)| == Tokens(|span|, ps)
            && (0 < j ==> 0 < Tokens(j, ps))
  {
    hide *;
    PagesSplit(ids, ps, k);
    AlignedMatch(span, ids[Tokens(k, ps)..], ps);
    CommonLenIs(span, Pages(ids, ps)[k..]);
    var j := CommonLen(span, Pages(ids, ps)[k..]);
    PagesSplit(ids, ps, k + j);
    TokensAdd(k, j, ps);
    FlatCut(span, ps, j);
  }

  lemma LinkedFacts(t: NodeTree, ps: nat)
    requires Linked(t, ps)
    ensures ps > 0 && WellFormed(t) && Represents(ViewsOf(t.paths.Keys), t, ps)
    ensures t.root in t.paths && t.paths[t.root] == []
  {}

  lemma WalkStart(t: NodeTree, ids: seq<int>, ps: nat)
    requires ps > 0
    ensures Grown(t, t) && IsPrefix([], Pages(ids, ps)) && Tokens(0, ps) == 0
  {}

  lemma FreshSplittable(t: NodeTree, n: RadixTreeNode, k: nat, h: RadixTreeNode)
    requires WellFormed(t) && NodeOk(t, n) && 0 < k < |t.cuts[n].span| && h !in t.paths
    ensures Splittable(t, n, k, h)
  {}

  lemma SplitShape(t: NodeTree, n: RadixTreeNode, k: nat, h: RadixTreeNode)
    requires NodeOk(t, n) && n in t.cuts && n in t.paths && k < |t.cuts[n].span| && h !in t.paths
    requires t.cuts[n].start + k <= |t.paths[n]|
    ensures Grown(t, Split(t, n, k, h)) && Split(t, n, k, h).paths.Keys == t.paths.Keys + {h}
    ensures Split(t, n, k, h).paths[h] == t.paths[n][..t.cuts[n].start + k]
    ensures Split(t, n, k, h).cuts.Keys == t.cuts.Keys + {h} && Split(t, n, k, h).cuts[h].up == t.cuts[n].up
  {
    hide NodeOk;
  }

  lemma SplitGrown(t: NodeTree, n: RadixTreeNode, k: nat, h: RadixTreeNode)
    requires Splittable(t, n, k, h)
    ensures Grown(t, Split(t, n, k, h)) && Split(t, n, k, h).paths.Keys == t.paths.Keys + {h}
    ensures Split(t, n, k, h).paths[h] == t.paths[n][..t.cuts[n].start + k]
    ensures Split(t, n, k, h).cuts.Keys == t.cuts.Keys + {h} && Split(t, n, k, h).cuts[h].up == t.cuts[n].up
    ensures WellFormed(Split(t, n, k, h)) && NodeOk(Split(t, n, k, h), h)
  {
    hide Split, WellFormed, Grown;
    SplitShape(t, n, k, h);
    SplitWellFormed(t, n, k, h);
    SplitTwoOk(t, n, k, h);
  }

  /** The child `m` met by the walk from `n`, and what a match of `j` of its pages means. */
  lemma WalkStep(t: NodeTree, vs: Views, ps: nat, n: RadixTreeNode, m: RadixTreeNode, ids: seq<int>)
    requires Represents(vs, t, ps) && n in t.paths && IsPrefix(t.paths[n], Pages(ids, ps))
    requires Tokens(|t.paths[n]|, ps) <= |ids|
    requires n in t.kids && KeyFn(ids[Tokens(|t.paths[n]|, ps)..], ps) in t.kids[n]
    requires t.kids[n][KeyFn(ids[Tokens(|t.paths[n]|, ps)..], ps)] == m
    ensures m in t.cuts && m in t.paths && m in vs && NodeOk(t, m) && t.cuts[m].up == n
    ensures |t.paths[n]| <= |Pages(ids, ps)| && t.cuts[m].start == |t.paths[n]|
    ensures Uniform(t.cuts[m].span, ps) && vs[m].key == Flat(t.cuts[m].span)
    ensures var u, k := Pages(ids, ps), |t.paths[n]|;
            SpanMet(t, m, u, k, CommonLen(t.cuts[m].span, u[k..]))
  {
    assert ps > 0 && WellFormed(t);
    hide *;
    var u, k := Pages(ids, ps), |t.paths[n]|;
    IsKidIs(t, n, KeyFn(ids[Tokens(k, ps)..], ps), m);
    KidCut(t, vs, ps, n, m, ids);
    KidStep(t, n, m, u);
    NodeFields(t, m, vs, ps);
    var j := CommonLen(t.cuts[m].span, u[k..]);
    PrefixTo(u, k + j);
    IsMet(t, m, u, k, j);
  }

  /** The span of `m`, which starts at depth `k`, agrees with `u` for `j` pages, no more. */
  ghost predicate SpanMet(t: NodeTree, m: RadixTreeNode, u: Path, k: nat, j: nat) {
    && m in t.cuts && m in t.paths && t.cuts[m].start == k && |t.paths[m]| == k + |t.cuts[m].span|
    && 0 < j <= |t.cuts[m].span| && k + j <= |u| && IsPrefix(t.paths[m][..k + j], u)
    && (j < |t.cuts[m].span| ==> Longest(t.pages, u, k + j))
  }

  lemma IsMet(t: NodeTree, m: RadixTreeNode, u: Path, k: nat, j: nat)
    requires m in t.cuts && m in t.paths && t.cuts[m].start == k && |t.paths[m]| == k + |t.cuts[m].span|
    requires 0 < j <= |t.cuts[m].span| && k + j <= |u| && IsPrefix(t.paths[m][..k + j], u)
    requires j < |t.cuts[m].span| ==> Longest(t.pages, u, k + j)
    ensures SpanMet(t, m, u, k, j)
  {}

  /** What that means for the walk: it goes on from `m`, or ends inside it. */
  lemma MetAt(t: NodeTree, m: RadixTreeNode, ids: seq<int>, ps: nat, k: nat, j: nat, len: nat)
    requires ps > 0 && SpanMet(t, m, Pages(ids, ps), k, j) && len == Tokens(k + j, ps) <= |ids|
    ensures m in t.cuts && m in t.paths && 0 < j <= |t.cuts[m].span| && t.cuts[m].start + j <= |t.paths[m]|
    ensures if j == |t.cuts[m].span| then At(t, m, ids, ps, len) else StopsIn(t, m, ids, ps, j, len)
  {
    if j == |t.cuts[m].span| {
      assert t.paths[m][..k + j] == t.paths[m];
    }
  }

  lemma IsKidIs(t: NodeTree, n: RadixTreeNode, k: Page, m: RadixTreeNode)
    ensures IsKid(t, n, k, m) <==> n in t.kids && k in t.kids[n] && t.kids[n][k] == m
  {}

  lemma PrefixTo(u: Path, k: nat)
    requires k <= |u|
    ensures IsPrefix(u[..k], u)
  {}

  lemma KidCut(t: NodeTree, vs: Views, ps: nat, n: RadixTreeNode, m: RadixTreeNode, ids: seq<int>)
    requires Represents(vs, t, ps) && n in t.paths && IsPrefix(t.paths[n], Pages(ids, ps))
    requires Tokens(|t.paths[n]|, ps) <= |ids|
    requires IsKid(t, n, KeyFn(ids[Tokens(|t.paths[n]|, ps)..], ps), m)
    ensures NodeOk(t, m) && m in t.cuts && m in t.paths && t.cuts[m].up == n && PagedCut(t.cuts[m], ps) && WellFormed(t)
            && ps > 0
    ensures t.cuts[m].start == |t.paths[n]| && |t.paths[m]| == t.cuts[m].start + |t.cuts[m].span|
    ensures Uniform(t.cuts[m].span, ps) && t.cuts[m].span != []
    ensures |t.paths[n]| < |Pages(ids, ps)| && t.cuts[m].span[0] == Pages(ids, ps)[|t.paths[n]|]
  {
    hide RefCount;
    assert KidsOk(t, n);
    NodeFields(t, m, vs, ps);
    FlatHead(t.cuts[m].span, ps);
    PagesSplit(ids, ps, |t.paths[n]|);
    assert Pages(ids, ps)[|t.paths[n]|..] != [];
  }

  lemma NodeTouched(st: Stamps, st': Stamps, st'': Stamps, t: NodeTree, tic: int, n: RadixTreeNode)
    requires WellFormed(t) && NodeOk(t, n) && n in st'' && st''[n] == tic
    requires Touched(st, st', t, tic, t.paths[t.cuts[n].up])
    requires forall m :: m in st' && m != n ==> m in st'' && st''[m] == st'[m]
    ensures Touched(st, st'', t, tic, t.paths[n])
  {
    StepTouched(st, st', st'', t, tic, n);
  }

  /** A walk that consumed every token has matched every whole page. */
  lemma AllMatched(t: NodeTree, n: RadixTreeNode, ids: seq<int>, ps: nat)
    requires ps > 0 && n in t.paths && IsPrefix(t.paths[n], Pages(ids, ps)) && Tokens(|t.paths[n]|, ps) >= |ids|
    ensures Longest(t.pages, Pages(ids, ps), |t.paths[n]|)
  {
    var u, k := Pages(ids, ps), |t.paths[n]|;
    PagesSplit(ids, ps, |u|);
    if k < |u| {
      TokensLess(k, |u|, ps);
    }
  }

  /** Stamping the head of a split extends the stamped root path by that head. */
  lemma SplitTouched(st: Stamps, st': Stamps, st'': Stamps, t: NodeTree, tic: int, n: RadixTreeNode, k: nat,
                     h: RadixTreeNode)
    requires Splittable(t, n, k, h) && Touched(st, st', t, tic, t.paths[t.cuts[n].up])
    requires h in st'' && st''[h] == tic && forall m :: m in st' ==> m in st'' && st''[m] == st'[m]
    ensures Touched(st, st'', Split(t, n, k, h), tic, t.paths[n][..t.cuts[n].start + k])
  {
    SplitGrown(t, n, k, h);
    assert t.cuts[n].up in t.paths;
    hide *;
    SplitBut(st, st', t, Split(t, n, k, h), tic, h, t.cuts[n].up);
    StepTouched(st, st', st'', Split(t, n, k, h), tic, h);
  }

  lemma SplitBut(st: Stamps, st': Stamps, t: NodeTree, t': NodeTree, tic: int, h: RadixTreeNode, up: RadixTreeNode)
    requires up in t.paths && Touched(st, st', t, tic, t.paths[up]) && Grown(t, t')
    requires t'.cuts.Keys == t.cuts.Keys + {h} && t'.paths.Keys == t.paths.Keys + {h}
    ensures up in t'.paths && TouchedBut(st, st', t', tic, t'.paths[up], h)
  {}

  /** The end of a walk that stops inside the span of `node`. */
  method SplitAndStamp(node: RadixTreeNode, pos: nat, ps: nat, ghost k: nat, tic: int, ghost t: NodeTree,
                       ghost l: Locks, ghost st: Stamps)
    returns (head: RadixTreeNode, ghost t': NodeTree)
    requires Linked(t, ps) && Counted(t, l) && Anchored(t, l) && NodeOk(t, node) && 0 < k < |t.cuts[node].span|
    requires pos == Tokens(k, ps)
    requires Touched(st, StampsOf(t.paths.Keys), t, tic, t.paths[t.cuts[node].up])
    modifies t.paths.Keys`key, t.paths.Keys`value, t.paths.Keys`parent, t.paths.Keys`children
    ensures fresh(head) && Linked(t', ps) && Counted(t', l) && Anchored(t', l)
    ensures Grown(t, t') && LeavesKept(t, t') && t'.paths.Keys == t.paths.Keys + {head}
    ensures t'.paths[head] == t.paths[node][..t.cuts[node].start + k]
    ensures Touched(st, StampsOf(t'.paths.Keys), t', tic, t'.paths[head])
    ensures head.mambaValue == None && head.mambaRefCount == 0
  {
    hide *;
    LinkedFacts(t, ps);
    ghost var was := StampsOf(t.paths.Keys);
    head := SplitNode(node, pos, ps, k, t, l);
    head.timestamp := tic;
    t' := Split(t, node, k, head);
    FreshSplittable(t, node, k, head);
    SplitGrown(t, node, k, head);
    SplitLeaves(t, node, k, head);
    SplitTouched(st, was, StampsOf(t'.paths.Keys), t, tic, node, k, head);
  }

  /** The walk stands at `node`, having matched `prefixLen` tokens of `ids`. */
  ghost predicate At(t: NodeTree, node: RadixTreeNode, ids: seq<int>, ps: nat, prefixLen: nat)
    requires ps > 0
  {
    node in t.paths && IsPrefix(t.paths[node], Pages(ids, ps)) && prefixLen == Tokens(|t.paths[node]|, ps) <= |ids|
  }

  /** The walk ends inside `m`, after `j` pages of its span and `len` tokens in all. */
  ghost predicate StopsIn(t: NodeTree, m: RadixTreeNode, ids: seq<int>, ps: nat, j: nat, len: nat)
    requires ps > 0 && m in t.cuts && m in t.paths && t.cuts[m].start + j <= |t.paths[m]|
  {
    && 0 < j < |t.cuts[m].span| && Longest(t.pages, Pages(ids, ps), |t.paths[m][..t.cuts[m].start + j]|)
    && IsPrefix(t.paths[m][..t.cuts[m].start + j], Pages(ids, ps))
    && len == Tokens(|t.paths[m][..t.cuts[m].start + j]|, ps) <= |ids|
  }

  lemma StopFacts(t: NodeTree, m: RadixTreeNode, ids: seq<int>, ps: nat, j: nat, len: nat)
    requires ps > 0 && m in t.cuts && m in t.paths && t.cuts[m].start + j <= |t.paths[m]|
             && StopsIn(t, m, ids, ps, j, len)
    ensures 0 < j < |t.cuts[m].span| && Longest(t.pages, Pages(ids, ps), |t.paths[m][..t.cuts[m].start + j]|)
    ensures IsPrefix(t.paths[m][..t.cuts[m].start + j], Pages(ids, ps))
    ensures len == Tokens(|t.paths[m][..t.cuts[m].start + j]|, ps) <= |ids|
  {}

  /** The match of a key, in tokens and in pages. */
  lemma KeyStep(key: seq<int>, span: seq<Page>, ids: seq<int>, ps: nat, k: nat, len: nat)
    requires ps > 0 && Uniform(span, ps) && key == Flat(span) && k <= |Pages(ids, ps)| && len == Tokens(k, ps) <= |ids|
    ensures var j := CommonLen(span, Pages(ids, ps)[k..]);
            var matched := AlignDown(CommonLen(key, ids[len..]), ps);
            && matched == Tokens(j, ps) && j <= |span| && (matched == |key| <==> j == |span|) && (0 < j ==> 0 < matched)
            && k + j <= |Pages(ids, ps)| && len + matched == Tokens(k + j, ps) <= |ids|
  {
    hide *;
    TokenStep(span, ids, ps, k);
  }

  /** Walk into `child`: match its key, stamp it, and split it where the input leaves it. */
  method WalkInto(child: RadixTreeNode, ids: seq<int>, prefixLen: nat, ps: nat, tic: int,
                  ghost up: RadixTreeNode, ghost t: NodeTree, ghost l: Locks, ghost st: Stamps)
    returns (node: RadixTreeNode, prefixLen': nat, ended: bool, ghost t': NodeTree)
    requires Linked(t, ps) && Counted(t, l) && Anchored(t, l) && Represents(ViewsOf(t.paths.Keys), t, ps)
    requires ps > 0 && WellFormed(t) && At(t, up, ids, ps, prefixLen) && prefixLen <= |ids| && up in t.paths
    requires up in t.kids && KeyFn(ids[prefixLen..], ps) in t.kids[up]
             && t.kids[up][KeyFn(ids[prefixLen..], ps)] == child
    requires Touched(st, StampsOf(t.paths.Keys), t, tic, t.paths[up])
    modifies t.paths.Keys`key, t.paths.Keys`value, t.paths.Keys`parent, t.paths.Keys`children,
             t.paths.Keys`timestamp
    ensures Linked(t', ps) && Counted(t', l) && Anchored(t', l) && Grown(t, t') && LeavesKept(t, t')
    ensures t' == t || (fresh(node) && t'.paths.Keys == t.paths.Keys + {node})
    ensures Blank(t'.paths.Keys - t.paths.Keys)
    ensures prefixLen < prefixLen' && At(t', node, ids, ps, prefixLen')
    ensures if ended then Longest(t.pages, Pages(ids, ps), |t'.paths[node]|) else t' == t
    ensures Touched(st, StampsOf(t'.paths.Keys), t', tic, t'.paths[node])
  {
    hide *;
    ghost var vs, was := ViewsOf(t.paths.Keys), StampsOf(t.paths.Keys);
    WalkStart(t, ids, ps);
    LeavesSame(t);
    AtFacts(t, up, ids, ps, prefixLen);
    WalkStep(t, vs, ps, up, child, ids);
    KeyStep(child.key, t.cuts[child].span, ids, ps, |t.paths[up]|, prefixLen);
    ghost var j := CommonLen(t.cuts[child].span, Pages(ids, ps)[|t.paths[up]|..]);
    var matchLen := AlignDown(CommonLen(child.key, ids[prefixLen..]), ps);
    prefixLen' := prefixLen + matchLen;
    MetAt(t, child, ids, ps, |t.paths[up]|, j, prefixLen');
    if matchLen != |child.key| {
      StopFacts(t, child, ids, ps, j, prefixLen');
      node, t' := SplitAndStamp(child, matchLen, ps, j, tic, t, l, st);
      IsAt(t', node, ids, ps, prefixLen');
      NewBlank(t, t', node);
      ended := true;
    } else {
      child.timestamp := tic;
      node, ended, t' := child, false, t;
      NoneBlank(t);
      NodeTouched(st, was, StampsOf(t.paths.Keys), t, tic, node);
    }
  }

  lemma IsAt(t: NodeTree, node: RadixTreeNode, ids: seq<int>, ps: nat, prefixLen: nat)
    requires ps > 0
    requires node in t.paths && IsPrefix(t.paths[node], Pages(ids, ps))
             && prefixLen == Tokens(|t.paths[node]|, ps) <= |ids|
    ensures At(t, node, ids, ps, prefixLen)
  {}

  lemma AtFacts(t: NodeTree, node: RadixTreeNode, ids: seq<int>, ps: nat, prefixLen: nat)
    requires ps > 0 && At(t, node, ids, ps, prefixLen)
    ensures node in t.paths && IsPrefix(t.paths[node], Pages(ids, ps))
            && prefixLen == Tokens(|t.paths[node]|, ps) <= |ids|
  {}

  lemma KidsAt(t: NodeTree, n: RadixTreeNode, ps: nat)
    requires Linked(t, ps) && n in t.paths
    ensures n in t.kids && n.children == t.kids[n] && WellFormed(t) && ps > 0
            && Represents(ViewsOf(t.paths.Keys), t, ps)
  {
    NodeKids(t, n, ViewsOf(t.paths.Keys), ps);
  }

  /** Nodes without a snapshot and without locks on one. */
  ghost predicate Blank(ns: set<RadixTreeNode>)
    reads ns`mambaValue, ns`mambaRefCount
  {
    forall n :: n in ns ==> n.mambaValue == None && n.mambaRefCount == 0
  }

  lemma NewBlank(t: NodeTree, t': NodeTree, n: RadixTreeNode)
    requires t'.paths.Keys == t.paths.Keys + {n} && n.mambaValue == None && n.mambaRefCount == 0
    ensures Blank(t'.paths.Keys - t.paths.Keys)
  {}

  lemma NoneBlank(t: NodeTree)
    ensures Blank(t.paths.Keys - t.paths.Keys)
  {}

  /** Match `ids` against the tree as far as whole pages go, splitting a node that matches in part. */
  method TreeWalk(root: RadixTreeNode, ids: seq<int>, ps: nat, tic: int, ghost t: NodeTree, ghost l: Locks)
    returns (node: RadixTreeNode, prefixLen: nat, ghost t': NodeTree)
    requires Linked(t, ps) && Counted(t, l) && Anchored(t, l) && t.root == root
    modifies t.paths.Keys`key, t.paths.Keys`value, t.paths.Keys`parent, t.paths.Keys`children,
             t.paths.Keys`timestamp
    ensures ps > 0 && Linked(t', ps) && Counted(t', l) && Anchored(t', l)
    ensures Grown(t, t') && LeavesKept(t, t') && fresh(t'.paths.Keys - t.paths.Keys)
    ensures At(t', node, ids, ps, prefixLen) && Longest(t.pages, Pages(ids, ps), |t'.paths[node]|)
    ensures Touched(old(StampsOf(t.paths.Keys)), StampsOf(t'.paths.Keys), t', tic, t'.paths[node])
    ensures Blank(t'.paths.Keys - t.paths.Keys)
  {
    hide *;
    LinkedFacts(t, ps);
    WalkStart(t, ids, ps);
    LeavesSame(t);
    NoneBlank(t);
    prefixLen, node, t' := 0, root, t;
    ghost var st := StampsOf(t.paths.Keys);
    RootTouched(st, t, tic);
    IsAt(t, node, ids, ps, prefixLen);
    while prefixLen < |ids|
      invariant t' == t && Linked(t, ps) && At(t, node, ids, ps, prefixLen) && node in t.paths
      invariant Touched(st, StampsOf(t.paths.Keys), t, tic, t.paths[node])
      decreases |ids| - prefixLen
    {
      KidsAt(t, node, ps);
      if KeyFn(ids[prefixLen..], ps) !in node.children {
        AtFacts(t, node, ids, ps, prefixLen);
        KidAbsent(t, node, ids, ps);
        return;
      }
      var ended: bool;
      node, prefixLen, ended, t' :=
        WalkInto(node.children[KeyFn(ids[prefixLen..], ps)], ids, prefixLen, ps, tic, node, t, l, st);
      AtFacts(t', node, ids, ps, prefixLen);
      if ended {
        return;
      }
    }
    AtFacts(t, node, ids, ps, prefixLen);
    AllMatched(t, node, ids, ps);
  }

  // ---------------------------------------------------------------- adding and removing leaves

  /** The fields after a new leaf has been hung below its parent. */
  ghost predicate GraftViews(vs: Views, vs': Views, n: RadixTreeNode, c: NodeCut) {
    && c.up in vs && c.span != [] && vs'.Keys == vs.Keys + {n}
    && vs'[n] == View(Flat(c.span), Flat(c.slots), c.up, map[])
    && vs'[c.up] == vs[c.up].(children := vs[c.up].children[c.span[0] := n])
    && (forall m :: m in vs && m != c.up ==> vs'[m] == vs[m])
  }

  lemma GraftViewsFacts(vs: Views, vs': Views, n: RadixTreeNode, c: NodeCut)
    requires GraftViews(vs, vs', n, c)
    ensures c.up in vs && c.span != [] && vs'.Keys == vs.Keys + {n}
    ensures vs'[n] == View(Flat(c.span), Flat(c.slots), c.up, map[])
    ensures vs'[c.up] == vs[c.up].(children := vs[c.up].children[c.span[0] := n])
    ensures forall m :: m in vs && m != c.up ==> vs'[m] == vs[m]
  {}

  lemma GraftCuts(t: NodeTree, n: RadixTreeNode, p: Path, c: NodeCut)
    requires Graftable(t, n, p, c)
    ensures c.up in t.kids && c.span != [] && n !in t.paths && c.up in t.paths
    ensures Graft(t, n, p, c).cuts == t.cuts[n := c]
            && Graft(t, n, p, c).kids == t.kids[c.up := t.kids[c.up][c.span[0] := n]][n := map[]]
  {}

  lemma GraftNodeLinked(vs: Views, vs': Views, t: NodeTree, ps: nat, n: RadixTreeNode, p: Path, c: NodeCut,
                        m: RadixTreeNode)
    requires Represents(vs, t, ps) && Graftable(t, n, p, c) && PagedCut(c, ps) && GraftViews(vs, vs', n, c)
    requires m in Graft(t, n, p, c).cuts
    ensures NodeLinked(vs', Graft(t, n, p, c), m, ps)
  {
    hide *;
    GraftViewsFacts(vs, vs', n, c);
    GraftCuts(t, n, p, c);
    if m != n {
      NodeFields(t, m, vs, ps);
    }
    IsNodeLinked(vs', Graft(t, n, p, c), m, ps);
  }

  lemma GraftRepresents(vs: Views, vs': Views, t: NodeTree, ps: nat, n: RadixTreeNode, p: Path, c: NodeCut)
    requires Represents(vs, t, ps) && Graftable(t, n, p, c) && PagedCut(c, ps) && GraftViews(vs, vs', n, c)
    ensures Represents(vs', Graft(t, n, p, c), ps)
  {
    GraftRoot(t, n, p, c);
    hide WellFormed, GraftSpot;
    GraftWellFormed(t, n, p, c);
    var t' := Graft(t, n, p, c);
    forall m | m in t'.cuts ensures NodeLinked(vs', t', m, ps) {
      GraftNodeLinked(vs, vs', t, ps, n, p, c, m);
    }
  }

  lemma GraftRoot(t: NodeTree, n: RadixTreeNode, p: Path, c: NodeCut)
    requires Graftable(t, n, p, c)
    ensures Graft(t, n, p, c).root == t.root && t.root in t.paths && t.root in t.kids && n != t.root
    ensures Graft(t, n, p, c).paths.Keys == t.paths.Keys + {n} && Graft(t, n, p, c).cuts.Keys == t.cuts.Keys + {n}
    ensures c.up in t.kids && c.up != n
  {}

  /** The fields after a leaf has been unlinked. */
  ghost predicate PruneViews(vs: Views, vs': Views, n: RadixTreeNode, c: NodeCut) {
    && c.up in vs && c.up != n && c.span != [] && vs'.Keys == vs.Keys - {n}
    && vs'[c.up] == vs[c.up].(children := vs[c.up].children - {c.span[0]})
    && (forall m :: m in vs' && m != c.up ==> vs'[m] == vs[m])
  }

  lemma PruneNodeLinked(vs: Views, vs': Views, t: NodeTree, ps: nat, n: RadixTreeNode, m: RadixTreeNode)
    requires Represents(vs, t, ps) && Prunable(t, n) && PruneViews(vs, vs', n, t.cuts[n])
    requires m in Prune(t, n).cuts
    ensures NodeLinked(vs', Prune(t, n), m, ps)
  {
    assert NodeLinked(vs, t, m, ps);
  }

  lemma PruneRepresents(vs: Views, vs': Views, t: NodeTree, ps: nat, n: RadixTreeNode)
    requires Represents(vs, t, ps) && Prunable(t, n) && PruneViews(vs, vs', n, t.cuts[n])
    ensures Represents(vs', Prune(t, n), ps)
  {
    PruneRoot(t, n);
    hide WellFormed;
    PruneWellFormed(t, n);
    var t' := Prune(t, n);
    forall m | m in t'.cuts ensures NodeLinked(vs', t', m, ps) {
      PruneNodeLinked(vs, vs', t, ps, n, m);
    }
  }

  lemma PruneRoot(t: NodeTree, n: RadixTreeNode)
    requires Prunable(t, n)
    ensures Prune(t, n).root == t.root && t.root in t.paths && t.root in t.kids && n != t.root && n in t.paths
    ensures Prune(t, n).paths.Keys == t.paths.Keys - {n} && Prune(t, n).cuts.Keys == t.cuts.Keys - {n}
    ensures t.cuts[n].up in t.paths && t.cuts[n].up in t.kids && t.cuts[n].up != n && t.cuts[n].span != []
  {}

  /** A fresh node below `up` with the given key and value. */
  method PlantLeaf(up: RadixTreeNode, key: seq<int>, value: seq<int>, ps: nat, stamp: int,
                   ghost ns: set<RadixTreeNode>, ghost c: NodeCut)
    returns (leaf: RadixTreeNode)
    requires up in ns && c.up == up && ps > 0 && PagedCut(c, ps) && c.span != []
    requires key == Flat(c.span) && value == Flat(c.slots)
    modifies up`children
    ensures fresh(leaf) && GraftViews(old(ViewsOf(ns)), ViewsOf(ns + {leaf}), leaf, c)
    ensures leaf.timestamp == stamp && leaf.mambaValue == None && leaf.mambaRefCount == 0 && leaf.refCount == 0
  {
    FlatHead(c.span, ps);
    leaf := new RadixTreeNode(stamp);
    leaf.key, leaf.value := key, value;
    leaf.SetParent(up, ps);
  }

  /** Hang a fresh leaf with the given span below `up`. */
  method AddLeaf(up: RadixTreeNode, key: seq<int>, value: seq<int>, ps: nat, stamp: int,
                 ghost t: NodeTree, ghost l: Locks, ghost p: Path, ghost c: NodeCut)
    returns (leaf: RadixTreeNode, ghost t': NodeTree)
    requires Linked(t, ps) && Counted(t, l) && Anchored(t, l) && up in t.paths && c.up == up && c.span != []
    requires GraftSpot(t, p, c)
    requires PagedCut(c, ps) && key == Flat(c.span) && value == Flat(c.slots)
    modifies up`children
    ensures fresh(leaf) && Graftable(t, leaf, p, c) && t' == Graft(t, leaf, p, c)
    ensures Linked(t', ps) && Counted(t', l) && Anchored(t', l)
    ensures leaf.timestamp == stamp && leaf.mambaValue == None && leaf.mambaRefCount == 0
  {
    hide WellFormed, Represents, RefCount, GraftSpot;
    LinkedFacts(t, ps);
    ghost var vs := ViewsOf(t.paths.Keys);
    leaf := PlantLeaf(up, key, value, ps, stamp, t.paths.Keys, c);
    GraftRoot(t, leaf, p, c);
    t' := Graft(t, leaf, p, c);
    GraftRepresents(vs, ViewsOf(t.paths.Keys + {leaf}), t, ps, leaf, p, c);
    CountGraft(t, l, leaf, p, c);
  }

  /** `del parent.children[...]` seen in the fields of the whole tree. */
  method DropChild(node: RadixTreeNode, ps: nat, ghost ns: set<RadixTreeNode>, ghost c: NodeCut)
    returns (parent: RadixTreeNode)
    requires node in ns && c.up in ns && c.up != node && ps > 0 && PagedCut(c, ps) && c.span != []
    requires node.key == Flat(c.span) && node.parent == c.up
    modifies c.up`children
    ensures parent == c.up && PruneViews(old(ViewsOf(ns)), ViewsOf(ns - {node}), node, c)
  {
    FlatHead(c.span, ps);
    parent := node.parent;
    parent.children := parent.children - {KeyFn(node.key, ps)};
  }

  /** Unlink the leaf `node` from its parent. */
  method Unlink(node: RadixTreeNode, ps: nat, ghost t: NodeTree, ghost l: Locks)
    returns (parent: RadixTreeNode, ghost t': NodeTree)
    requires Linked(t, ps) && Counted(t, l) && Anchored(t, l) && Prunable(t, node)
    requires RefCount(l, t.paths[node]) == 0
    modifies t.paths.Keys`children
    ensures parent == t.cuts[node].up && t' == Prune(t, node)
    ensures Linked(t', ps) && Counted(t', l) && Anchored(t', l)
  {
    PruneRoot(t, node);
    hide WellFormed, Represents, RefCount, Prunable;
    LinkedFacts(t, ps);
    ghost var vs := ViewsOf(t.paths.Keys);
    NodeFields(t, node, vs, ps);
    parent := DropChild(node, ps, t.paths.Keys, t.cuts[node]);
    t' := Prune(t, node);
    PruneRepresents(vs, ViewsOf(t.paths.Keys - {node}), t, ps, node);
    CountPrune(t, l, node);
  }

  // ---------------------------------------------------------------- locking a root path

  ghost predicate OnPath(u: Path, p: Path, lo: nat, hi: nat) {
    IsPrefix(u, p) && lo < |u| <= hi
  }

  type Counts = map<RadixTreeNode, int>

  ghost function CountsOf(ns: set<RadixTreeNode>): (cs: Counts)
    reads ns`refCount
    ensures cs.Keys == ns && forall n :: n in ns ==> cs[n] == n.refCount
  {
    map n | n in ns :: n.refCount
  }

  /** Reference counts with one more lock on the nodes of `p` between the depths `lo` and `hi`. */
  ghost predicate CountedPart(cs: Counts, t: NodeTree, l: Locks, p: Path, lo: nat, hi: nat) {
    forall n :: n in t.paths && n != t.root ==>
      n in cs && cs[n] == RefCount(l, t.paths[n]) + if OnPath(t.paths[n], p, lo, hi) then 1 else 0
  }

  /** Between two neighbouring boundaries of a root path there is just one node. */
  lemma OneNodeThere(t: NodeTree, n: RadixTreeNode, m: RadixTreeNode, p: Path)
    requires WellFormed(t) && NodeOk(t, n) && m in t.paths && m != t.root && IsPrefix(t.paths[n], p)
    requires OnPath(t.paths[m], p, t.cuts[n].start, |t.paths[n]|)
    ensures m == n
  {
    assert NodeOk(t, m);
    assert IsPrefix(t.paths[m], t.paths[m]);
    assert IsPrefix(t.paths[m], t.paths[n]);
  }

  lemma CountedStep(t: NodeTree, n: RadixTreeNode, p: Path, m: RadixTreeNode, hi: nat)
    requires WellFormed(t) && NodeOk(t, n) && m in t.paths && m != t.root && IsPrefix(t.paths[n], p)
             && |t.paths[n]| <= hi
    ensures OnPath(t.paths[m], p, t.cuts[n].start, hi) <==> m == n || OnPath(t.paths[m], p, |t.paths[n]|, hi)
    ensures m == n ==> !OnPath(t.paths[m], p, |t.paths[n]|, hi) && OnPath(t.paths[m], p, t.cuts[n].start, hi)
    ensures OnPath(t.paths[m], p, 0, |t.paths[n]|) <==> m == n || OnPath(t.paths[m], p, 0, t.cuts[n].start)
    ensures m == n ==> !OnPath(t.paths[m], p, 0, t.cuts[n].start) && OnPath(t.paths[m], p, 0, |t.paths[n]|)
  {
    if OnPath(t.paths[m], p, t.cuts[n].start, |t.paths[n]|) {
      OneNodeThere(t, n, m, p);
    }
  }

  lemma PinStep(cs: Counts, cs': Counts, t: NodeTree, l: Locks, p: Path, n: RadixTreeNode, hi: nat)
    requires WellFormed(t) && NodeOk(t, n) && n != t.root && IsPrefix(t.paths[n], p) && |t.paths[n]| <= hi
    requires CountedPart(cs, t, l, p, |t.paths[n]|, hi) && n in cs
    requires n in cs' && cs'[n] == cs[n] + 1 && forall m :: m in cs && m != n ==> m in cs' && cs'[m] == cs[m]
    ensures cs[n] == RefCount(l, t.paths[n]) && CountedPart(cs', t, l, p, t.cuts[n].start, hi)
  {
    assert n in t.cuts && n in t.paths;
    hide RefCount, WellFormed, NodeOk, OnPath;
    CountedStep(t, n, p, n, hi);
    forall m | m in t.paths && m != t.root
      ensures m in cs' && cs'[m] == RefCount(l, t.paths[m]) + if OnPath(t.paths[m], p, t.cuts[n].start, hi) then 1
              else 0
    {
      CountedStep(t, n, p, m, hi);
    }
  }

  lemma UnpinStep(cs: Counts, cs': Counts, t: NodeTree, l: Locks, p: Path, n: RadixTreeNode)
    requires WellFormed(t) && NodeOk(t, n) && n != t.root && IsPrefix(t.paths[n], p)
    requires CountedPart(cs, t, l, p, 0, |t.paths[n]|) && n in cs
    requires n in cs' && cs'[n] == cs[n] - 1 && forall m :: m in cs && m != n ==> m in cs' && cs'[m] == cs[m]
    ensures cs'[n] == RefCount(l, t.paths[n]) && CountedPart(cs', t, l, p, 0, t.cuts[n].start)
  {
    assert n in t.cuts && n in t.paths;
    hide RefCount, WellFormed, NodeOk, OnPath;
    CountedStep(t, n, p, n, |t.paths[n]|);
    forall m | m in t.paths && m != t.root
      ensures m in cs' && cs'[m] == RefCount(l, t.paths[m]) + if OnPath(t.paths[m], p, 0, t.cuts[n].start) then 1 else 0
    {
      CountedStep(t, n, p, m, |t.paths[n]|);
    }
  }

  /** Lock sets seen through `CountedPart`: an empty depth range, and the whole of a path. */
  lemma CountedNone(t: NodeTree, l: Locks, p: Path, lo: nat)
    ensures Counted(t, l) <==> CountedPart(CountsOf(t.paths.Keys), t, l, p, lo, lo)
  {
    hide RefCount;
    var cs := CountsOf(t.paths.Keys);
    assert forall n :: n in t.paths ==> cs[n] == n.refCount && !OnPath(t.paths[n], p, lo, lo);
  }

  lemma CountedWhole(t: NodeTree, l: Locks, i: int, p: Path)
    requires WellFormed(t) && i !in l
    ensures Counted(t, l[i := p]) <==> CountedPart(CountsOf(t.paths.Keys), t, l, p, 0, |p|)
  {
    var cs := CountsOf(t.paths.Keys);
    forall n | n in t.paths && n != t.root
      ensures RefCount(l[i := p], t.paths[n]) == RefCount(l, t.paths[n]) + if OnPath(t.paths[n], p, 0, |p|) then 1
              else 0
    {
      assert NodeOk(t, n);
      CountLock(l, i, p, t.paths[n]);
    }
    hide RefCount, OnPath, WellFormed;
    assert forall n :: n in t.paths ==> cs[n] == n.refCount;
  }

  lemma IdleOnRoot(t: NodeTree, l: Locks)
    ensures IdleOn(t.pages, l, []) == 0
  {
    assert Stretch([], 0) == {};
  }

  lemma AnchoredMore(t: NodeTree, l: Locks, i: int, n: RadixTreeNode)
    requires Anchored(t, l) && n in t.paths
    ensures Anchored(t, l[i := t.paths[n]])
  {}

  lemma AnchoredLess(t: NodeTree, l: Locks, i: int)
    requires Anchored(t, l)
    ensures Anchored(t, l - {i})
  {}

  /** The tokens pinned so far by a lock that has climbed from `p` to the node `n`. */
  ghost predicate PinnedSoFar(t: NodeTree, l: Locks, p: Path, n: RadixTreeNode, ps: nat, pinned: nat)
    requires n in t.paths
  {
    && IdleOn(t.pages, l, t.paths[n]) <= IdleOn(t.pages, l, p)
    && pinned == Tokens(IdleOn(t.pages, l, p) - IdleOn(t.pages, l, t.paths[n]), ps)
  }

  lemma PinnedNone(t: NodeTree, l: Locks, n: RadixTreeNode, ps: nat)
    requires n in t.paths
    ensures PinnedSoFar(t, l, t.paths[n], n, ps, 0) && IsPrefix(t.paths[n], t.paths[n])
  {}

  lemma PinnedAll(t: NodeTree, l: Locks, p: Path, n: RadixTreeNode, ps: nat, pinned: nat)
    requires n in t.paths && t.paths[n] == [] && PinnedSoFar(t, l, p, n, ps, pinned)
    ensures pinned == Tokens(IdleOn(t.pages, l, p), ps)
  {
    IdleOnRoot(t, l);
  }

  lemma TokensShift(a: nat, b: nat, c: nat, d: nat, ps: nat)
    requires b <= a && b == c + d
    ensures Tokens(a - c, ps) == Tokens(a - b, ps) + Tokens(d, ps)
  {
    TokensAdd(a - b, d, ps);
  }

  lemma PinnedStep(t: NodeTree, l: Locks, p: Path, n: RadixTreeNode, ps: nat, pinned: nat)
    requires WellFormed(t) && Anchored(t, l) && n in t.cuts && n in t.paths && t.cuts[n].up in t.paths
    requires NodeOk(t, n) && PinnedSoFar(t, l, p, n, ps, pinned)
    ensures PinnedSoFar(t, l, p, t.cuts[n].up, ps,
                        pinned + if RefCount(l, t.paths[n]) == 0 then Tokens(|t.cuts[n].span|, ps) else 0)
  {
    hide IdleOn, RefCount, NodeOk, WellFormed, Anchored, Tokens;
    IdleStep(t, l, n);
    TokensShift(IdleOn(t.pages, l, p), IdleOn(t.pages, l, t.paths[n]), IdleOn(t.pages, l, t.paths[t.cuts[n].up]),
                if RefCount(l, t.paths[n]) == 0 then |t.cuts[n].span| else 0, ps);
    TokensZero(ps);
  }

  lemma TokensZero(ps: nat)
    ensures Tokens(0, ps) == 0
  {}

  /** A lock on `p` that has climbed to `n`: the nodes below are counted, the others not yet. */
  ghost predicate Climbed(cs: Counts, t: NodeTree, l: Locks, p: Path, n: RadixTreeNode, ps: nat, pinned: nat) {
    && n in t.paths && IsPrefix(t.paths[n], p)
    && CountedPart(cs, t, l, p, |t.paths[n]|, |p|) && PinnedSoFar(t, l, p, n, ps, pinned)
  }

  /** An unlock of `p` that has climbed to `n`: the nodes below are no longer counted. */
  ghost predicate Released(cs: Counts, t: NodeTree, l: Locks, p: Path, n: RadixTreeNode, ps: nat, freed: nat) {
    && n in t.paths && IsPrefix(t.paths[n], p)
    && CountedPart(cs, t, l, p, 0, |t.paths[n]|) && PinnedSoFar(t, l, p, n, ps, freed)
  }

  lemma ClimbStep(cs: Counts, cs': Counts, t: NodeTree, l: Locks, p: Path, n: RadixTreeNode, ps: nat, pinned: nat)
    requires WellFormed(t) && Anchored(t, l) && n in t.cuts && n in t.paths && t.cuts[n].up in t.paths && n != t.root
    requires NodeOk(t, n) && Climbed(cs, t, l, p, n, ps, pinned) && n in cs
    requires n in cs' && cs'[n] == cs[n] + 1 && forall m :: m in cs && m != n ==> m in cs' && cs'[m] == cs[m]
    ensures Climbed(cs', t, l, p, t.cuts[n].up, ps,
                    pinned + if cs[n] == 0 then Tokens(|t.cuts[n].span|, ps) else 0)
    ensures cs[n] == RefCount(l, t.paths[n])
  {
    hide IdleOn, RefCount, WellFormed, Anchored, Tokens, PinnedSoFar, CountedPart;
    PinStep(cs, cs', t, l, p, n, |p|);
    PinnedStep(t, l, p, n, ps, pinned);
  }

  lemma ReleaseStep(cs: Counts, cs': Counts, t: NodeTree, l: Locks, p: Path, n: RadixTreeNode, ps: nat, freed: nat)
    requires WellFormed(t) && Anchored(t, l) && n in t.cuts && n in t.paths && t.cuts[n].up in t.paths && n != t.root
    requires NodeOk(t, n) && Released(cs, t, l, p, n, ps, freed) && n in cs
    requires n in cs' && cs'[n] == cs[n] - 1 && forall m :: m in cs && m != n ==> m in cs' && cs'[m] == cs[m]
    ensures Released(cs', t, l, p, t.cuts[n].up, ps,
                     freed + if cs'[n] == 0 then Tokens(|t.cuts[n].span|, ps) else 0)
    ensures cs'[n] == RefCount(l, t.paths[n])
  {
    hide IdleOn, RefCount, WellFormed, Anchored, Tokens, PinnedSoFar, CountedPart;
    UnpinStep(cs, cs', t, l, p, n);
    PinnedStep(t, l, p, n, ps, freed);
  }

  lemma NodeFacts(t: NodeTree, n: RadixTreeNode, ps: nat)
    requires Linked(t, ps) && n in t.paths
    ensures n.parent == null <==> n == t.root
    ensures n != t.root ==> n in t.cuts && NodeOk(t, n) && n.parent == t.cuts[n].up && n.parent in t.paths
    ensures n != t.root ==> |n.key| == |n.value| == Tokens(|t.cuts[n].span|, ps)
    ensures n != t.root ==> |t.paths[n.parent]| == t.cuts[n].start < |t.paths[n]|
    ensures n == t.root ==> t.paths[n] == []
  {
    if n != t.root {
      NodeFields(t, n, ViewsOf(t.paths.Keys), ps);
    }
  }

  /** One more reference on `cur`, on the way up. */
  method PinNode(cur: RadixTreeNode, ps: nat, ghost t: NodeTree, ghost l: Locks, ghost p: Path, ghost pinned: nat)
    returns (more: nat)
    requires Linked(t, ps) && Anchored(t, l) && cur in t.paths && cur != t.root
    requires Climbed(CountsOf(t.paths.Keys), t, l, p, cur, ps, pinned)
    modifies cur`refCount
    ensures cur in t.cuts && cur.parent == t.cuts[cur].up
    ensures Climbed(CountsOf(t.paths.Keys), t, l, p, t.cuts[cur].up, ps, pinned + more)
  {
    hide *;
    LinkedFacts(t, ps);
    NodeFacts(t, cur, ps);
    ghost var cs := CountsOf(t.paths.Keys);
    more := if cur.refCount == 0 then |cur.key| else 0;
    cur.refCount := cur.refCount + 1;
    ClimbStep(cs, CountsOf(t.paths.Keys), t, l, p, cur, ps, pinned);
  }

  /** One reference less on `cur`, on the way up. */
  method UnpinNode(cur: RadixTreeNode, ps: nat, ghost t: NodeTree, ghost l: Locks, ghost p: Path, ghost freed: nat)
    returns (more: nat)
    requires Linked(t, ps) && Anchored(t, l) && cur in t.paths && cur != t.root
    requires Released(CountsOf(t.paths.Keys), t, l, p, cur, ps, freed)
    modifies cur`refCount
    ensures cur.refCount >= 0
    ensures cur in t.cuts && cur.parent == t.cuts[cur].up
    ensures Released(CountsOf(t.paths.Keys), t, l, p, t.cuts[cur].up, ps, freed + more)
  {
    hide *;
    LinkedFacts(t, ps);
    NodeFacts(t, cur, ps);
    ghost var cs := CountsOf(t.paths.Keys);
    cur.refCount := cur.refCount - 1;
    more := if cur.refCount == 0 then |cur.key| else 0;
    ReleaseStep(cs, CountsOf(t.paths.Keys), t, l, p, cur, ps, freed);
  }

  lemma ClimbStart(t: NodeTree, l: Locks, n: RadixTreeNode, ps: nat)
    requires Counted(t, l) && n in t.paths
    ensures Climbed(CountsOf(t.paths.Keys), t, l, t.paths[n], n, ps, 0)
  {
    CountedNone(t, l, t.paths[n], |t.paths[n]|);
    PinnedNone(t, l, n, ps);
  }

  lemma ClimbEnd(t: NodeTree, l: Locks, i: int, node: RadixTreeNode, n: RadixTreeNode, ps: nat, pinned: nat)
    requires WellFormed(t) && Anchored(t, l) && i !in l && node in t.paths && n in t.paths && t.paths[n] == []
    requires Climbed(CountsOf(t.paths.Keys), t, l, t.paths[node], n, ps, pinned)
    ensures Counted(t, l[i := t.paths[node]]) && Anchored(t, l[i := t.paths[node]])
    ensures pinned == Tokens(IdleOn(t.pages, l, t.paths[node]), ps)
  {
    hide RefCount, WellFormed, Anchored, Counted, CountedPart;
    CountedWhole(t, l, i, t.paths[node]);
    AnchoredMore(t, l, i, node);
    PinnedAll(t, l, t.paths[node], n, ps, pinned);
  }

  lemma ReleaseStart(t: NodeTree, l: Locks, i: int, n: RadixTreeNode, ps: nat)
    requires WellFormed(t) && Anchored(t, l) && Counted(t, l) && n in t.paths && i in l && l[i] == t.paths[n]
    ensures Anchored(t, l - {i}) && Released(CountsOf(t.paths.Keys), t, l - {i}, t.paths[n], n, ps, 0)
  {
    assert (l - {i})[i := t.paths[n]] == l;
    hide RefCount, WellFormed, Anchored, Counted, CountedPart;
    AnchoredLess(t, l, i);
    CountedWhole(t, l - {i}, i, t.paths[n]);
    PinnedNone(t, l - {i}, n, ps);
  }

  lemma ReleaseEnd(t: NodeTree, l: Locks, p: Path, n: RadixTreeNode, ps: nat, freed: nat)
    requires n in t.paths && t.paths[n] == [] && Released(CountsOf(t.paths.Keys), t, l, p, n, ps, freed)
    ensures Counted(t, l) && freed == Tokens(IdleOn(t.pages, l, p), ps)
  {
    hide RefCount, Counted, CountedPart;
    CountedNone(t, l, p, 0);
    PinnedAll(t, l, p, n, ps, freed);
  }

  /** One more reference on every node from `node` to the root; returns how many tokens that pins. */
  method PinPath(node: RadixTreeNode, ps: nat, ghost t: NodeTree, ghost l: Locks, ghost i: int) returns (pinned: nat)
    requires Linked(t, ps) && Counted(t, l) && Anchored(t, l) && node in t.paths && i !in l
    modifies (t.paths.Keys - {t.root})`refCount
    ensures Counted(t, l[i := t.paths[node]]) && Anchored(t, l[i := t.paths[node]])
    ensures pinned == Tokens(IdleOn(t.pages, l, t.paths[node]), ps)
  {
    hide *;
    LinkedFacts(t, ps);
    NodeFacts(t, node, ps);
    ClimbStart(t, l, node, ps);
    pinned := 0;
    var cur := node;
    while cur.parent != null
      invariant Linked(t, ps) && cur in t.paths && Climbed(CountsOf(t.paths.Keys), t, l, t.paths[node], cur, ps, pinned)
      decreases |t.paths[cur]|
    {
      NodeFacts(t, cur, ps);
      var more := PinNode(cur, ps, t, l, t.paths[node], pinned);
      pinned := pinned + more;
      cur := cur.parent;
    }
    NodeFacts(t, cur, ps);
    ClimbEnd(t, l, i, node, cur, ps, pinned);
  }

  /** Drop the reference that the lock `i` holds on every node from `node` to the root; returns how
      many tokens that leaves idle. */
  method UnpinPath(node: RadixTreeNode, ps: nat, ghost t: NodeTree, ghost l: Locks, ghost i: int) returns (freed: nat)
    requires Linked(t, ps) && Counted(t, l) && Anchored(t, l) && node in t.paths && i in l && l[i] == t.paths[node]
    modifies (t.paths.Keys - {t.root})`refCount
    ensures Counted(t, l - {i}) && Anchored(t, l - {i})
    ensures freed == Tokens(IdleOn(t.pages, l - {i}, t.paths[node]), ps)
  {
    hide *;
    LinkedFacts(t, ps);
    ReleaseStart(t, l, i, node, ps);
    freed := 0;
    var cur := node;
    while cur.parent != null
      invariant Linked(t, ps) && cur in t.paths
      invariant Released(CountsOf(t.paths.Keys), t, l - {i}, t.paths[node], cur, ps, freed)
      decreases |t.paths[cur]|
    {
      NodeFacts(t, cur, ps);
      var more := UnpinNode(cur, ps, t, l - {i}, t.paths[node], freed);
      freed := freed + more;
      cur := cur.parent;
    }
    NodeFacts(t, cur, ps);
    ReleaseEnd(t, l - {i}, t.paths[node], cur, ps, freed);
  }
}
