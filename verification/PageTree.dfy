/** The radix tree as a value over nodes of any type. A path is a sequence of pages. `pages` is the
    plain prefix map the tree stands for: every cached prefix with the slots that back its last
    page. `ends`, `paths`, `cuts` and `kids` say how nodes cut that map: the node a prefix lies in,
    the boundary where a node ends, what the node itself holds, and the children below it by the
    first page of their span. */
module PageTree {
  type Page = seq<int>
  type Path = seq<Page>

  /** What a node adds below its parent, which ends at depth `start`: pages and their slots. */
  datatype Cut<N> = Cut(up: N, start: nat, span: seq<Page>, slots: seq<Page>)
  datatype Tree<N> = Tree(root: N, pages: map<Path, Page>, ends: map<Path, N>, paths: map<N, Path>,
                          cuts: map<N, Cut<N>>, kids: map<N, map<Page, N>>)

  ghost function Bare<N>(root: N): Tree<N> {
    Tree(root, map[], map[], map[root := []], map[], map[root := map[]])
  }

  ghost predicate IsPrefix(u: Path, p: Path) {
    u <= p
  }

  ghost predicate EndOk<N>(t: Tree<N>, u: Path) {
    u in t.ends && t.ends[u] in t.cuts && t.ends[u] in t.paths && t.cuts[t.ends[u]].start < |u|
    && IsPrefix(u, t.paths[t.ends[u]])
  }

  ghost predicate Joins(p: Path, up: Path, span: seq<Page>) {
    |p| == |up| + |span| && IsPrefix(up, p) && forall i :: 0 <= i < |span| ==> span[i] == p[|up| + i]
  }

  ghost predicate IsKid<N>(t: Tree<N>, n: N, k: Page, m: N) {
    n in t.kids && k in t.kids[n] && t.kids[n][k] == m
  }

  ghost predicate KidsOk<N>(t: Tree<N>, n: N) {
    n in t.kids && forall k {:trigger t.kids[n][k]} :: k in t.kids[n] ==>
      var m := t.kids[n][k];
      m in t.cuts && t.cuts[m].up == n && t.cuts[m].span != [] && t.cuts[m].span[0] == k
  }

  ghost predicate NodeOk<N>(t: Tree<N>, n: N) {
    && n in t.cuts && n in t.paths && t.cuts[n].up in t.paths
    && t.cuts[n].start == |t.paths[t.cuts[n].up]|
    && Joins(t.paths[n], t.paths[t.cuts[n].up], t.cuts[n].span)
    && 0 < |t.cuts[n].span| == |t.cuts[n].slots|
    && IsKid(t, t.cuts[n].up, t.cuts[n].span[0], n)
    && forall u {:trigger IsPrefix(u, t.paths[n])} :: t.cuts[n].start < |u| && IsPrefix(u, t.paths[n]) ==>
         u in t.ends && t.ends[u] == n
  }

  /** The page of `slots`, which follow the boundary at depth `k`, that backs the prefix `u`. */
  ghost function PageFor(slots: seq<Page>, k: nat, u: Path): Page {
    if k < |u| <= k + |slots| then slots[|u| - 1 - k] else []
  }

  ghost predicate PageOk<N>(t: Tree<N>, u: Path) {
    EndOk(t, u) ==>
      var c := t.cuts[t.ends[u]];
      u in t.pages && t.pages[u] == PageFor(c.slots, c.start, u)
  }

  ghost predicate DomainsOk<N>(t: Tree<N>) {
    && t.pages.Keys == t.ends.Keys && t.kids.Keys == t.paths.Keys == t.cuts.Keys + {t.root}
    && t.root !in t.cuts && t.paths[t.root] == []
  }

  ghost predicate WellFormed<N>(t: Tree<N>) {
    && DomainsOk(t)
    && (forall u {:trigger EndOk(t, u)} :: u in t.ends ==> EndOk(t, u))
    && (forall n {:trigger NodeOk(t, n)} :: n in t.cuts ==> NodeOk(t, n))
    && (forall u {:trigger PageOk(t, u)} :: u in t.ends ==> PageOk(t, u))
    && (forall n {:trigger KidsOk(t, n)} :: n in t.kids ==> KidsOk(t, n))
  }

  /** The prefixes of `p` longer than `k`. */
  ghost function Stretch(p: Path, k: nat): (s: set<Path>)
    ensures forall u :: u in s <==> k < |u| && IsPrefix(u, p)
    decreases |p|
  {
    if |p| <= k then {} else
      var init := p[..|p| - 1];
      assert forall u :: IsPrefix(u, p) && |u| < |p| ==> u == p[..|u|] == init[..|u|];
      assert forall u :: IsPrefix(u, init) ==> u == init[..|u|] == p[..|u|];
      assert forall u :: IsPrefix(u, p) && |u| == |p| ==> u == p;
      {p} + Stretch(init, k)
  }

  lemma {:induction false} StretchSize(p: Path, k: nat)
    requires k <= |p|
    ensures |Stretch(p, k)| == |p| - k
    decreases |p|
  {
    if k < |p| {
      StretchSize(p[..|p| - 1], k);
    }
  }

  /** Every non-empty prefix of a node is cached, and lies in a node of its root path. */
  lemma {:induction false} OnRootPath<N>(t: Tree<N>, n: N, u: Path)
    requires WellFormed(t) && n in t.paths && u != [] && IsPrefix(u, t.paths[n])
    ensures u in t.ends && t.ends[u] in t.paths && IsPrefix(t.paths[t.ends[u]], t.paths[n])
    decreases |t.paths[n]|
  {
    assert n in t.cuts ==> NodeOk(t, n);
    if |u| <= t.cuts[n].start {
      OnRootPath(t, t.cuts[n].up, u);
    }
  }

  /** Cached prefixes are closed under non-empty prefixes. */
  lemma Closed<N>(t: Tree<N>, u: Path, v: Path)
    requires WellFormed(t) && u in t.ends && v != [] && IsPrefix(v, u)
    ensures v in t.ends
  {
    assert EndOk(t, u);
    OnRootPath(t, t.ends[u], v);
  }

  /** A node is named by its path. */
  lemma PathNamesNode<N>(t: Tree<N>, n: N, m: N)
    requires WellFormed(t) && n in t.paths && m in t.paths && t.paths[n] == t.paths[m]
    ensures n == m
  {
    assert n in t.cuts ==> NodeOk(t, n);
    assert m in t.cuts ==> NodeOk(t, m);
    assert IsPrefix(t.paths[n], t.paths[n]) && IsPrefix(t.paths[m], t.paths[m]);
  }

  // ---------------------------------------------------------------- the walk

  /** A cached prefix that goes past the boundary `n` does so through a child of `n`. */
  lemma KidOnPath<N>(t: Tree<N>, n: N, u: Path, j: nat)
    requires WellFormed(t) && n in t.paths && IsPrefix(t.paths[n], u) && |t.paths[n]| < j <= |u|
    requires u[..j] in t.ends
    ensures u[|t.paths[n]|] in t.kids[n]
  {
    var p := t.paths[n];
    var v := u[..|p| + 1];
    assert IsPrefix(v, u[..j]);
    Closed(t, u[..j], v);
    var m := t.ends[v];
    assert EndOk(t, v) && NodeOk(t, m);
    assert n in t.cuts ==> NodeOk(t, n);
    assert IsPrefix(p, t.paths[m]) && IsPrefix(p, p);
    assert t.cuts[m].start == |p|;
    assert t.paths[t.cuts[m].up] == p;
    PathNamesNode(t, t.cuts[m].up, n);
    assert t.cuts[m].span[0] == t.paths[m][|p|] == v[|p|];
  }

  /** A cached prefix that agrees with `n` past its start goes on agreeing to the end of both. */
  lemma SameSpan<N>(t: Tree<N>, n: N, u: Path, m: nat, j: nat)
    requires WellFormed(t) && n in t.cuts && n in t.paths && t.cuts[n].start < m < |t.paths[n]| && m < j <= |u|
    requires t.paths[n][..m] == u[..m] && u[..j] in t.ends
    ensures t.paths[n][m] == u[m]
  {
    var v, w := u[..m + 1], u[..m];
    assert IsPrefix(v, u[..j]);
    Closed(t, u[..j], v);
    var r := t.ends[v];
    assert EndOk(t, v) && NodeOk(t, r) && NodeOk(t, n);
    assert t.paths[r][m] == v[m] == u[m];
    assert IsPrefix(w, t.paths[n]) && IsPrefix(w, t.paths[r]);
    var up := t.cuts[r].up;
    if t.cuts[r].start == m {
      assert t.paths[up] == w;
      assert up in t.cuts ==> NodeOk(t, up);
      assert IsPrefix(w, w);
    }
  }

  // ---------------------------------------------------------------- the three changes of shape

  /** Cut the node `n` after `k` pages of its span, with `h` for the head. */
  ghost function Split<N>(t: Tree<N>, n: N, k: nat, h: N): Tree<N>
    requires NodeOk(t, n) && k < |t.cuts[n].span|
  {
    var c := t.cuts[n];
    var p := t.paths[n][..c.start + k];
    Tree(t.root, t.pages,
         t.ends + (map u | u in Stretch(p, c.start) :: h),
         t.paths[h := p],
         t.cuts[n := Cut(h, c.start + k, c.span[k..], c.slots[k..])][h :=
                                                                     Cut(c.up, c.start, c.span[..k], c.slots[..k])],
         t.kids[c.up := t.kids[c.up][c.span[0] := h]][h := map[c.span[k] := n]])
  }

  /** The prefixes of `p` past `k`, each with its page of slots. */
  ghost function PathMap(p: Path, k: nat, slots: seq<Page>): map<Path, Page> {
    map u | u in Stretch(p, k) :: PageFor(slots, k, u)
  }

  /** Hang the new leaf `n`, which ends at `p`, below `c.up`. */
  ghost function Graft<N>(t: Tree<N>, n: N, p: Path, c: Cut<N>): Tree<N>
    requires c.up in t.kids && c.span != []
  {
    Tree(t.root, t.pages + PathMap(p, c.start, c.slots), t.ends + (map u | u in Stretch(p, c.start) :: n),
         t.paths[n := p], t.cuts[n := c], t.kids[c.up := t.kids[c.up][c.span[0] := n]][n := map[]])
  }

  ghost function Prune<N>(t: Tree<N>, n: N): Tree<N>
    requires NodeOk(t, n)
  {
    var c := t.cuts[n];
    var own := Stretch(t.paths[n], c.start);
    Tree(t.root, t.pages - own, t.ends - own, t.paths - {n}, t.cuts - {n},
         t.kids[c.up := t.kids[c.up] - {c.span[0]}] - {n})
  }

  ghost predicate IsLeaf<N>(t: Tree<N>, n: N) {
    n in t.cuts && n in t.kids && t.kids[n] == map[]
  }

  ghost predicate Splittable<N>(t: Tree<N>, n: N, k: nat, h: N) {
    WellFormed(t) && NodeOk(t, n) && 0 < k < |t.cuts[n].span| && h !in t.paths
  }

  lemma SplitJoins<N>(t: Tree<N>, n: N, k: nat, h: N)
    requires Splittable(t, n, k, h)
    ensures var c, p := t.cuts[n], t.paths[n][..t.cuts[n].start + k];
            Joins(p, t.paths[c.up], c.span[..k]) && Joins(t.paths[n], p, c.span[k..])
  {}

  lemma SplitEndOk<N>(t: Tree<N>, n: N, k: nat, h: N, u: Path)
    requires Splittable(t, n, k, h) && u in Split(t, n, k, h).ends
    ensures u in t.ends && EndOk(Split(t, n, k, h), u)
  {
    var p := t.paths[n][..t.cuts[n].start + k];
    assert IsPrefix(u, p) <==> IsPrefix(u, t.paths[n]) && |u| <= |p|;
    assert u in t.ends ==> EndOk(t, u);
  }

  lemma CutPage(slots: seq<Page>, start: nat, k: nat, u: Path)
    requires k <= |slots|
    ensures |u| <= start + k ==> PageFor(slots[..k], start, u) == PageFor(slots, start, u)
    ensures |u| > start + k ==> PageFor(slots[k..], start + k, u) == PageFor(slots, start, u)
  {}

  /** Which part of the slots backs the prefix `u` after a split. */
  lemma SplitCut<N>(t: Tree<N>, n: N, k: nat, h: N, u: Path)
    requires NodeOk(t, n) && 0 < k < |t.cuts[n].span| && h !in t.paths
    requires EndOk(t, u) && EndOk(Split(t, n, k, h), u)
    ensures var t', c := Split(t, n, k, h), t.cuts[n];
            var now := t'.cuts[t'.ends[u]];
            if t.ends[u] != n then now == t.cuts[t.ends[u]]
            else if |u| <= c.start + k then now.slots == c.slots[..k] && now.start == c.start
            else now.slots == c.slots[k..] && now.start == c.start + k
  {
    var p := t.paths[n][..t.cuts[n].start + k];
    hide PageOk, PageFor, IsKid;
    if u in Stretch(p, t.cuts[n].start) {
      assert IsPrefix(u, t.paths[n]);
    }
  }

  lemma SplitPage<N>(t: Tree<N>, n: N, k: nat, h: N, u: Path)
    requires NodeOk(t, n) && 0 < k < |t.cuts[n].span| && h !in t.paths
    requires EndOk(t, u) && PageOk(t, u) && EndOk(Split(t, n, k, h), u)
    ensures PageOk(Split(t, n, k, h), u)
  {
    var c := t.cuts[n];
    assert |c.span| == |c.slots| && Split(t, n, k, h).pages == t.pages;
    CutPage(c.slots, c.start, k, u);
    SplitCut(t, n, k, h, u);
    hide PageFor, NodeOk, Split, Stretch;
  }

  lemma SplitPageOk<N>(t: Tree<N>, n: N, k: nat, h: N, u: Path)
    requires Splittable(t, n, k, h) && u in t.ends && EndOk(Split(t, n, k, h), u)
    ensures PageOk(Split(t, n, k, h), u)
  {
    assert EndOk(t, u) && PageOk(t, u);
    hide *;
    SplitParts(t, n, k, h);
    SplitPage(t, n, k, h, u);
  }

  lemma SplitParts<N>(t: Tree<N>, n: N, k: nat, h: N)
    requires Splittable(t, n, k, h)
    ensures NodeOk(t, n) && n in t.cuts && 0 < k < |t.cuts[n].span| && h !in t.paths
  {}

  lemma SplitNodeEnds<N>(t: Tree<N>, n: N, k: nat, h: N, m: N, u: Path)
    requires Splittable(t, n, k, h) && NodeOk(t, m) && m != n && t.cuts[m].start < |u| && IsPrefix(u, t.paths[m])
    ensures u in Split(t, n, k, h).ends && Split(t, n, k, h).ends[u] == m
  {
    assert IsPrefix(u, t.paths[n][..t.cuts[n].start + k]) ==> IsPrefix(u, t.paths[n]);
  }

  lemma SplitOtherOk<N>(t: Tree<N>, n: N, k: nat, h: N, m: N)
    requires Splittable(t, n, k, h) && NodeOk(t, m) && m != n
    ensures NodeOk(Split(t, n, k, h), m)
  {
    var t' := Split(t, n, k, h);
    forall u | t.cuts[m].start < |u| && IsPrefix(u, t.paths[m]) ensures u in t'.ends && t'.ends[u] == m {
      SplitNodeEnds(t, n, k, h, m, u);
    }
  }

  lemma SplitTwoOk<N>(t: Tree<N>, n: N, k: nat, h: N)
    requires Splittable(t, n, k, h)
    ensures NodeOk(Split(t, n, k, h), n) && NodeOk(Split(t, n, k, h), h)
  {
    SplitJoins(t, n, k, h);
  }

  lemma SplitKidsOk<N>(t: Tree<N>, n: N, k: nat, h: N, m: N)
    requires Splittable(t, n, k, h) && m in Split(t, n, k, h).kids
    ensures KidsOk(Split(t, n, k, h), m)
  {
    assert m != h ==> KidsOk(t, m);
  }

  lemma SplitDomains<N>(t: Tree<N>, n: N, k: nat, h: N)
    requires Splittable(t, n, k, h)
    ensures DomainsOk(Split(t, n, k, h))
  {
    forall u | u in Split(t, n, k, h).ends ensures u in t.ends {
      SplitEndOk(t, n, k, h, u);
    }
  }

  /** A split leaves the prefix map as it is. */
  lemma SplitWellFormed<N>(t: Tree<N>, n: N, k: nat, h: N)
    requires Splittable(t, n, k, h)
    ensures WellFormed(Split(t, n, k, h)) && Split(t, n, k, h).pages == t.pages
  {
    var t' := Split(t, n, k, h);
    forall u | u in t'.ends ensures u in t.ends && EndOk(t', u) && PageOk(t', u) {
      SplitEndOk(t, n, k, h, u);
      SplitPageOk(t, n, k, h, u);
    }
    forall m | m in t'.cuts ensures NodeOk(t', m) {
      SplitTwoOk(t, n, k, h);
      if m != n && m != h {
        assert NodeOk(t, m);
        SplitOtherOk(t, n, k, h, m);
      }
    }
    forall m | m in t'.kids ensures KidsOk(t', m) {
      SplitKidsOk(t, n, k, h, m);
    }
    SplitDomains(t, n, k, h);
  }

  /** The boundary `p` can become a leaf that holds `c`. */
  ghost predicate GraftSpot<N>(t: Tree<N>, p: Path, c: Cut<N>) {
    && WellFormed(t) && c.up in t.paths && c.start == |t.paths[c.up]|
    && Joins(p, t.paths[c.up], c.span) && 0 < |c.span| == |c.slots|
    && c.span[0] !in t.kids[c.up]
    && forall u :: u in Stretch(p, c.start) ==> u !in t.ends
  }

  ghost predicate Graftable<N>(t: Tree<N>, n: N, p: Path, c: Cut<N>) {
    n !in t.paths && GraftSpot(t, p, c)
  }

  lemma SamePageOk<N>(t: Tree<N>, t': Tree<N>, u: Path)
    requires EndOk(t, u) && PageOk(t, u)
    requires u in t'.ends && t'.ends[u] == t.ends[u] && u in t'.pages && t'.pages[u] == t.pages[u]
    requires t.ends[u] in t'.cuts && t'.cuts[t.ends[u]] == t.cuts[t.ends[u]]
    requires t.ends[u] in t'.paths && t'.paths[t.ends[u]] == t.paths[t.ends[u]]
    ensures EndOk(t', u) && PageOk(t', u)
  {}

  lemma GraftEndOk<N>(t: Tree<N>, n: N, p: Path, c: Cut<N>, u: Path)
    requires Graftable(t, n, p, c) && u in Graft(t, n, p, c).ends
    ensures EndOk(Graft(t, n, p, c), u) && PageOk(Graft(t, n, p, c), u)
  {
    if u in t.ends {
      assert EndOk(t, u) && PageOk(t, u);
      SamePageOk(t, Graft(t, n, p, c), u);
    }
  }

  lemma GraftNodeOk<N>(t: Tree<N>, n: N, p: Path, c: Cut<N>, m: N)
    requires Graftable(t, n, p, c) && m in Graft(t, n, p, c).cuts
    ensures NodeOk(Graft(t, n, p, c), m)
  {
    if m == n {
      NewNodeOk(t, n, p, c);
    } else {
      assert NodeOk(t, m);
    }
  }

  lemma NewNodeOk<N>(t: Tree<N>, n: N, p: Path, c: Cut<N>)
    requires Graftable(t, n, p, c)
    ensures NodeOk(Graft(t, n, p, c), n)
  {}

  lemma GraftKidsOk<N>(t: Tree<N>, n: N, p: Path, c: Cut<N>, m: N)
    requires Graftable(t, n, p, c) && m in Graft(t, n, p, c).kids
    ensures KidsOk(Graft(t, n, p, c), m)
  {
    hide PageOk, EndOk, PathMap, NodeOk, Stretch;
    assert m != n ==> KidsOk(t, m);
  }

  lemma GraftSpotFacts<N>(t: Tree<N>, p: Path, c: Cut<N>)
    requires GraftSpot(t, p, c)
    ensures DomainsOk(t) && c.up in t.kids && c.span != [] && forall u :: u in Stretch(p, c.start) ==> u !in t.pages
  {}

  lemma GraftSets<N>(t: Tree<N>, n: N, p: Path, c: Cut<N>)
    requires c.up in t.kids && c.span != []
    ensures var t', own := Graft(t, n, p, c), Stretch(p, c.start);
            && t'.pages.Keys == t.pages.Keys + own && t'.ends.Keys == t.ends.Keys + own
            && t'.kids.Keys == t.kids.Keys + {n}
            && t'.paths == t.paths[n := p] && t'.cuts.Keys == t.cuts.Keys + {n} && t'.root == t.root
  {
    PathMapKeys(p, c.start, c.slots);
    hide Stretch, PathMap;
  }

  /** The domains after a change that adds the same to both sides. */
  lemma DomainsMore<N>(t: Tree<N>, t': Tree<N>, n: N, own: set<Path>)
    requires DomainsOk(t) && n !in t.paths && t'.root == t.root && t'.root in t'.paths
             && t'.paths[t'.root] == t.paths[t.root]
    requires t'.pages.Keys == t.pages.Keys + own && t'.ends.Keys == t.ends.Keys + own
    requires t'.kids.Keys == t.kids.Keys + {n} && t'.paths.Keys == t.paths.Keys + {n}
             && t'.cuts.Keys == t.cuts.Keys + {n}
    ensures DomainsOk(t')
  {}

  lemma GraftOuter<N>(t: Tree<N>, n: N, p: Path, c: Cut<N>)
    requires DomainsOk(t) && c.up in t.kids && c.span != [] && n !in t.paths
    ensures DomainsOk(Graft(t, n, p, c))
  {
    assert t.root in t.paths;
    hide *;
    GraftSets(t, n, p, c);
    assert t.paths[n := p].Keys == t.paths.Keys + {n};
    DomainsMore(t, Graft(t, n, p, c), n, Stretch(p, c.start));
  }

  lemma PathMapKeys(p: Path, k: nat, slots: seq<Page>)
    ensures PathMap(p, k, slots).Keys == Stretch(p, k)
  {}

  lemma GraftDomains<N>(t: Tree<N>, n: N, p: Path, c: Cut<N>)
    requires Graftable(t, n, p, c)
    ensures c.up in t.kids && c.span != []
    ensures DomainsOk(Graft(t, n, p, c)) && t.pages.Keys !! PathMap(p, c.start, c.slots).Keys
  {
    GraftSpotFacts(t, p, c);
    PathMapKeys(p, c.start, c.slots);
    hide *;
    GraftOuter(t, n, p, c);
  }

  lemma GraftKeys<N>(t: Tree<N>, n: N, p: Path, c: Cut<N>)
    requires Graftable(t, n, p, c)
    ensures c.up in t.kids && c.span != []
    ensures Graft(t, n, p, c).pages.Keys == t.pages.Keys + Stretch(p, c.start)
  {}

  /** A new leaf keeps every old slot and adds the prefixes of its own span. */
  lemma GraftWellFormed<N>(t: Tree<N>, n: N, p: Path, c: Cut<N>)
    requires Graftable(t, n, p, c)
    ensures WellFormed(Graft(t, n, p, c)) && t.pages.Keys !! PathMap(p, c.start, c.slots).Keys
  {
    var t' := Graft(t, n, p, c);
    forall u | u in t'.ends ensures EndOk(t', u) && PageOk(t', u) {
      GraftEndOk(t, n, p, c, u);
    }
    forall m | m in t'.cuts ensures NodeOk(t', m) {
      GraftNodeOk(t, n, p, c, m);
    }
    forall m | m in t'.kids ensures KidsOk(t', m) {
      GraftKidsOk(t, n, p, c, m);
    }
    GraftDomains(t, n, p, c);
  }

  ghost predicate Prunable<N>(t: Tree<N>, n: N) {
    WellFormed(t) && IsLeaf(t, n) && NodeOk(t, n)
  }

  lemma PruneEndOk<N>(t: Tree<N>, n: N, u: Path)
    requires Prunable(t, n) && u in Prune(t, n).ends
    ensures EndOk(Prune(t, n), u) && PageOk(Prune(t, n), u)
  {
    assert EndOk(t, u) && PageOk(t, u);
    SamePageOk(t, Prune(t, n), u);
  }

  lemma PruneNodeOk<N>(t: Tree<N>, n: N, m: N)
    requires Prunable(t, n) && m in Prune(t, n).cuts
    ensures NodeOk(Prune(t, n), m)
  {
    assert NodeOk(t, m);
  }

  lemma PruneKidsOk<N>(t: Tree<N>, n: N, m: N)
    requires Prunable(t, n) && m in Prune(t, n).kids
    ensures KidsOk(Prune(t, n), m)
  {
    assert KidsOk(t, m);
  }

  lemma PruneDomains<N>(t: Tree<N>, n: N)
    requires Prunable(t, n)
    ensures DomainsOk(Prune(t, n))
  {}

  lemma PruneWellFormed<N>(t: Tree<N>, n: N)
    requires Prunable(t, n)
    ensures WellFormed(Prune(t, n))
  {
    var t' := Prune(t, n);
    forall u | u in t'.ends ensures EndOk(t', u) && PageOk(t', u) {
      PruneEndOk(t, n, u);
    }
    forall m | m in t'.cuts ensures NodeOk(t', m) {
      PruneNodeOk(t, n, m);
    }
    forall m | m in t'.kids ensures KidsOk(t', m) {
      PruneKidsOk(t, n, m);
    }
    PruneDomains(t, n);
  }

  /** Removing a leaf removes exactly the prefixes of its own span. */
  lemma PrunePages<N>(t: Tree<N>, n: N)
    requires Prunable(t, n)
    ensures t.pages == Prune(t, n).pages + PathMap(t.paths[n], t.cuts[n].start, t.cuts[n].slots)
    ensures Prune(t, n).pages.Keys !! PathMap(t.paths[n], t.cuts[n].start, t.cuts[n].slots).Keys
  {
    var p, c := t.paths[n], t.cuts[n];
    var own, was := PathMap(p, c.start, c.slots), Prune(t, n).pages;
    PathMapKeys(p, c.start, c.slots);
    assert was == t.pages - own.Keys;
    forall u | u in own ensures u in t.pages && t.pages[u] == own[u] {
      PrunedPage(t, n, u);
    }
    hide *;
    assert t.pages == was + own;
  }

  lemma PrunedPage<N>(t: Tree<N>, n: N, u: Path)
    requires Prunable(t, n) && u in PathMap(t.paths[n], t.cuts[n].start, t.cuts[n].slots)
    ensures u in t.pages && t.pages[u] == PathMap(t.paths[n], t.cuts[n].start, t.cuts[n].slots)[u]
  {
    assert u in Stretch(t.paths[n], t.cuts[n].start) && IsPrefix(u, t.paths[n]);
    assert PageOk(t, u) && EndOk(t, u);
  }

  lemma PruneKeys<N>(t: Tree<N>, n: N)
    requires Prunable(t, n)
    ensures NodeOk(t, n) && n in t.cuts && n in t.paths
    ensures var own := Stretch(t.paths[n], t.cuts[n].start);
            t.pages.Keys == Prune(t, n).pages.Keys + own && Prune(t, n).pages.Keys !! own
  {
    var own := Stretch(t.paths[n], t.cuts[n].start);
    forall u | u in own ensures u in t.pages {}
  }

  // ---------------------------------------------------------------- matched indices

  ghost predicate Cached(c: map<Path, Page>, u: Path) {
    forall v {:trigger IsPrefix(v, u)} :: v != [] && IsPrefix(v, u) ==> v in c
  }

  lemma BoundaryCached<N>(t: Tree<N>, n: N)
    requires WellFormed(t) && n in t.paths
    ensures Cached(t.pages, t.paths[n])
  {
    forall v | v != [] && IsPrefix(v, t.paths[n]) ensures v in t.pages {
      OnRootPath(t, n, v);
    }
  }

  /** The slots that back the prefix `u`, page after page. */
  ghost function Backing(c: map<Path, Page>, u: Path): seq<Page>
    requires Cached(c, u)
  {
    seq(|u|, i requires 0 <= i < |u| => assert IsPrefix(u[..i + 1], u); c[u[..i + 1]])
  }

  /** A node's backing is its parent's followed by its own slots. */
  lemma BackingStep<N>(t: Tree<N>, n: N)
    requires WellFormed(t) && NodeOk(t, n)
    ensures Cached(t.pages, t.paths[n]) && Cached(t.pages, t.paths[t.cuts[n].up])
    ensures Backing(t.pages, t.paths[n]) == Backing(t.pages, t.paths[t.cuts[n].up]) + t.cuts[n].slots
  {
    var p, up := t.paths[n], t.paths[t.cuts[n].up];
    BoundaryCached(t, n);
    BoundaryCached(t, t.cuts[n].up);
    var whole, parts := Backing(t.pages, p), Backing(t.pages, up) + t.cuts[n].slots;
    forall i | 0 <= i < |p| ensures whole[i] == parts[i] {
      assert IsPrefix(p[..i + 1], p);
      if i < |up| {
        assert up[..i + 1] == p[..i + 1];
      } else {
        assert EndOk(t, p[..i + 1]) && PageOk(t, p[..i + 1]);
      }
    }
  }
}
