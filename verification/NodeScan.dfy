/** Reading the tree: every node of it, the oldest of some nodes, and the slots matched by a node. */
module NodeScan {
  import opened Finite
  import opened PageTree
  import opened Paging
  import opened RadixNodes

  ghost predicate FoundFrom(t: NodeTree, done: set<RadixTreeNode>, m: RadixTreeNode) {
    m in t.paths && (m != t.root ==> m in t.cuts && t.cuts[m].up in done)
  }

  ghost predicate KidsFound(t: NodeTree, met: set<RadixTreeNode>, m: RadixTreeNode) {
    m in t.kids && t.kids[m].Values <= met
  }

  /** A traversal has opened the nodes `done` and still has to open the nodes `todo`. */
  ghost predicate Scanning(t: NodeTree, done: set<RadixTreeNode>, todo: set<RadixTreeNode>) {
    && t.root in done + todo && done !! todo
    && (forall m {:trigger FoundFrom(t, done, m)} :: m in done + todo ==> FoundFrom(t, done, m))
    && (forall m {:trigger m in done} :: m in done ==> KidsFound(t, done + todo, m))
  }

  lemma ScanStart(t: NodeTree)
    requires WellFormed(t)
    ensures Scanning(t, {}, {t.root})
  {}

  lemma KidsBelow(t: NodeTree, n: RadixTreeNode)
    requires WellFormed(t) && n in t.paths
    ensures n in t.kids && t.root !in t.cuts
    ensures forall m :: m in t.kids[n].Values ==> m in t.cuts && m in t.paths && t.cuts[m].up == n
  {
    assert KidsOk(t, n);
    forall m | m in t.kids[n].Values ensures m in t.cuts && m in t.paths && t.cuts[m].up == n {
      assert NodeOk(t, m);
    }
  }

  lemma KidsUnmet(t: NodeTree, done: set<RadixTreeNode>, todo: set<RadixTreeNode>, n: RadixTreeNode)
    requires WellFormed(t) && Scanning(t, done, todo) && n in todo && n in t.paths
    ensures n in t.kids && t.kids[n].Values !! done + {n}
    ensures forall m :: m in t.kids[n].Values ==> FoundFrom(t, done + {n}, m)
  {
    hide WellFormed, KidsFound;
    KidsBelow(t, n);
    assert FoundFrom(t, done, n);
    forall m | m in t.kids[n].Values ensures m !in done {
      assert m in done + todo ==> FoundFrom(t, done, m);
    }
  }

  lemma ScanStep(t: NodeTree, done: set<RadixTreeNode>, todo: set<RadixTreeNode>, n: RadixTreeNode)
    requires WellFormed(t) && Scanning(t, done, todo) && n in todo
    ensures n in t.kids && Scanning(t, done + {n}, todo - {n} + t.kids[n].Values) && n in t.paths
    ensures |t.paths.Keys - (done + {n})| < |t.paths.Keys - done|
  {
    hide WellFormed;
    assert FoundFrom(t, done, n);
    KidsUnmet(t, done, todo, n);
    var done', todo' := done + {n}, todo - {n} + t.kids[n].Values;
    assert t.paths.Keys - done' == (t.paths.Keys - done) - {n};
    assert done' + todo' == (done + todo) + t.kids[n].Values;
    forall m | m in done + todo ensures FoundFrom(t, done', m) {
      assert FoundFrom(t, done, m);
    }
  }

  lemma {:induction false} ScanReached(t: NodeTree, done: set<RadixTreeNode>, n: RadixTreeNode)
    requires WellFormed(t) && Scanning(t, done, {}) && n in t.paths
    ensures n in done
    decreases |t.paths[n]|
  {
    if n != t.root {
      assert NodeOk(t, n);
      ScanReached(t, done, t.cuts[n].up);
      assert KidsFound(t, done + {}, t.cuts[n].up);
      assert IsKid(t, t.cuts[n].up, t.cuts[n].span[0], n);
    }
  }

  lemma ScanEnd(t: NodeTree, done: set<RadixTreeNode>)
    requires WellFormed(t) && Scanning(t, done, {})
    ensures done == t.paths.Keys
  {
    forall n | n in t.paths ensures n in done {
      ScanReached(t, done, n);
    }
    forall n | n in done ensures n in t.paths {
      assert FoundFrom(t, done, n);
    }
  }

  /** Every node that can be reached from the root. */
  method AllNodes(root: RadixTreeNode, ps: nat, ghost t: NodeTree) returns (nodes: set<RadixTreeNode>)
    requires Linked(t, ps) && t.root == root
    ensures nodes == t.paths.Keys
  {
    hide *;
    LinkedFacts(t, ps);
    ScanStart(t);
    nodes := {};
    var todo := {root};
    while todo != {}
      invariant Linked(t, ps) && Scanning(t, nodes, todo)
      decreases |t.paths.Keys - nodes|
    {
      var node :| node in todo;
      LinkedFacts(t, ps);
      ScanStep(t, nodes, todo, node);
      NodeKids(t, node, ViewsOf(t.paths.Keys), ps);
      nodes, todo := nodes + {node}, todo - {node} + node.children.Values;
    }
    ScanEnd(t, nodes);
  }

  lemma {:induction false} Oldest(st: Stamps, heap: set<RadixTreeNode>) returns (n: RadixTreeNode)
    requires heap != {} && heap <= st.Keys
    ensures n in heap && forall m :: m in heap ==> st[n] <= st[m]
    decreases heap
  {
    n := Pick(heap);
    if heap != {n} {
      var o := Oldest(st, heap - {n});
      if st[o] < st[n] { n := o; }
    }
  }

  /** The top of a heap ordered by timestamp. */
  method PopOldest(heap: set<RadixTreeNode>) returns (node: RadixTreeNode)
    requires heap != {}
    ensures node in heap && forall m :: m in heap ==> node.timestamp <= m.timestamp
  {
    ghost var n := Oldest(StampsOf(heap), heap);
    node :| node in heap && forall m :: m in heap ==> node.timestamp <= m.timestamp;
  }

  ghost predicate Collected(t: NodeTree, end: RadixTreeNode, cur: RadixTreeNode, indices: seq<int>) {
    && end in t.paths && cur in t.paths
    && Cached(t.pages, t.paths[end]) && Cached(t.pages, t.paths[cur])
    && Flat(Backing(t.pages, t.paths[end])) == Flat(Backing(t.pages, t.paths[cur])) + indices
  }

  lemma CollectStart(t: NodeTree, end: RadixTreeNode)
    requires WellFormed(t) && end in t.paths
    ensures Collected(t, end, end, [])
  {
    BoundaryCached(t, end);
  }

  lemma CollectStep(t: NodeTree, end: RadixTreeNode, cur: RadixTreeNode, indices: seq<int>)
    requires WellFormed(t) && Collected(t, end, cur, indices) && cur in t.cuts
    ensures Collected(t, end, t.cuts[cur].up, Flat(t.cuts[cur].slots) + indices)
  {
    assert NodeOk(t, cur);
    BackingStep(t, cur);
    FlatConcat(Backing(t.pages, t.paths[t.cuts[cur].up]), t.cuts[cur].slots);
  }

  lemma CollectEnd(t: NodeTree, end: RadixTreeNode, cur: RadixTreeNode, indices: seq<int>)
    requires Collected(t, end, cur, indices) && t.paths[cur] == []
    ensures Cached(t.pages, t.paths[end]) && indices == Flat(Backing(t.pages, t.paths[end]))
  {}

  /** The slots of every page on the root path of `end`, in order. */
  method MatchedIndices(end: RadixTreeNode, ps: nat, ghost t: NodeTree) returns (indices: seq<int>)
    requires Linked(t, ps) && end in t.paths
    ensures Cached(t.pages, t.paths[end]) && indices == Flat(Backing(t.pages, t.paths[end]))
  {
    hide *;
    LinkedFacts(t, ps);
    CollectStart(t, end);
    indices := [];
    var cur := end;
    while cur.parent != null
      invariant Linked(t, ps) && cur in t.paths && Collected(t, end, cur, indices)
      decreases |t.paths[cur]|
    {
      LinkedFacts(t, ps);
      NodeFacts(t, cur, ps);
      NodeFields(t, cur, ViewsOf(t.paths.Keys), ps);
      CollectStep(t, end, cur, indices);
      indices := cur.value + indices;
      cur := cur.parent;
    }
    NodeFacts(t, cur, ps);
    CollectEnd(t, end, cur, indices);
  }
}
