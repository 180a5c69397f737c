/** What the engine keeps about each live page-table row, and the arithmetic of admission. */
module EngineLedger {
  import opened Arith
  import opened Finite
  import opened Sorting
  import opened PageTree
  import opened Paging
  import opened PathLocks
  import opened Eviction
  import opened KvPool
  import opened RadixNodes
  import opened Requests
  import opened Prefill
  import opened SlotLedger

  /** The engine's view of its three owners of slots: pool, live rows, prefix tree. A refused row is
      live, but its admission failed and it has no slots of its own. */
  datatype Ledger = Ledger(jobs: Jobs, tree: NodeTree, locks: Locks, table: seq<seq<int>>, free: seq<int>,
                           alloc: map<int, seq<int>>, admitted: map<int, nat>, maxLen: nat, numSlots: nat,
                           refused: set<int>, surplus: multiset<int>)

  /** A live row holds a lock on the matched prefix of its prompt, at least as long as what it reuses. */
  ghost predicate Held(j: Job, p: Path, t: NodeTree, maxLen: nat) {
    && j.handle.node in t.paths && t.paths[j.handle.node] == p
    && IsPrefix(p, Pages(j.prompt, 1)) && j.cached <= |p| && |j.prompt| + Max(1, j.outputLen) <= maxLen
  }

  /** A row of the page table: the reused positions point at the tree's slots for the matched prefix,
      all others at the row's own allocation. */
  ghost predicate TableOk(r: seq<int>, p: Path, c: map<Path, Page>, cached: nat, own: seq<int>, maxLen: nat) {
    && |r| == maxLen && cached <= maxLen && r[cached..] == own
    && Cached(c, p) && cached <= |Flat(Backing(c, p))| && r[..cached] == Flat(Backing(c, p))[..cached]
  }

  ghost predicate RowOk(g: Ledger, row: int) {
    && row in g.jobs && row in g.locks && row in g.admitted && 0 <= row < |g.table| && |g.table[row]| == g.maxLen
    && Held(g.jobs[row], g.locks[row], g.tree, g.maxLen) && g.admitted[row] == g.jobs[row].cached
    && Cached(g.tree.pages, g.locks[row])
    && if row in g.refused then row !in g.alloc
       else && row in g.alloc
            && TableOk(g.table[row], g.locks[row], g.tree.pages, g.jobs[row].cached, g.alloc[row], g.maxLen)
  }

  ghost predicate Balanced(g: Ledger) {
    Shared(g.free, g.alloc, g.tree.pages, g.numSlots, g.surplus)
  }

  /** The slots are shared out, and the live rows are in order. */
  ghost predicate LedgerOk(g: Ledger, rows: set<int>) {
    && Balanced(g) && g.refused <= rows && g.alloc.Keys == rows - g.refused
    && forall row {:trigger RowOk(g, row)} :: row in rows ==> RowOk(g, row)
  }

  /** What has to stay for a row to stay in order. */
  ghost predicate Carries(g: Ledger, g': Ledger, row: int) {
    && row in g.jobs && row in g'.jobs && SameRequest(g.jobs[row], g'.jobs[row])
    && row in g.locks && row in g'.locks && g'.locks[row] == g.locks[row]
    && (row in g.refused <==> row in g'.refused) && (row in g.alloc <==> row in g'.alloc)
    && (row in g.alloc ==> g'.alloc[row] == g.alloc[row])
    && row in g.admitted && row in g'.admitted && g'.admitted[row] == g.admitted[row]
    && 0 <= row < |g.table| && row < |g'.table| && g'.table[row] == g.table[row] && g'.maxLen == g.maxLen
    && (g.jobs[row].handle.node in g.tree.paths ==>
          g.jobs[row].handle.node in g'.tree.paths
          && g'.tree.paths[g.jobs[row].handle.node] == g.tree.paths[g.jobs[row].handle.node])
  }

  lemma RowKept(g: Ledger, g': Ledger, row: int)
    requires RowOk(g, row) && Carries(g, g', row) && Keeps(g.tree.pages, g.locks, g'.tree.pages)
    ensures RowOk(g', row)
  {
    KeepsBacking(g.tree.pages, g.locks, g'.tree.pages, row);
  }

  lemma LedgerKept(g: Ledger, g': Ledger, rows: set<int>)
    requires LedgerOk(g, rows) && Balanced(g') && g'.refused <= rows && g'.alloc.Keys == rows - g'.refused
    requires Keeps(g.tree.pages, g.locks, g'.tree.pages)
    requires forall row {:trigger Carries(g, g', row)} :: row in rows ==> Carries(g, g', row)
    ensures LedgerOk(g', rows)
  {
    forall row | row in rows ensures RowOk(g', row) {
      assert RowOk(g, row) && Carries(g, g', row);
      RowKept(g, g', row);
    }
  }

  // ---------------------------------------------------------------- who holds a lock

  /** Tickets of locks that belong to no row. */
  ghost function Tickets(n: nat): (ts: set<int>)
    ensures forall i :: i in ts <==> 0 <= i + n && i < 0
  {
    if n == 0 then {} else Tickets(n - 1) + {0 - n}
  }

  /** The locks are those of `rows` and `strays` others. */
  ghost predicate Ticketed(l: Locks, rows: set<int>, strays: nat) {
    l.Keys == rows + Tickets(strays)
  }

  lemma NoTickets(l: Locks)
    requires l.Keys == {}
    ensures Ticketed(l, {}, 0)
  {}

  lemma RowNoTicket(l: Locks, rows: set<int>, strays: nat, row: int)
    requires Ticketed(l, rows, strays) && row >= 0 && row !in rows
    ensures row !in l
  {}

  lemma TicketedRow(l: Locks, rows: set<int>, strays: nat, row: int, p: Path)
    requires Ticketed(l, rows, strays)
    ensures Ticketed(l[row := p], rows + {row}, strays)
  {}

  lemma TicketedLess(l: Locks, rows: set<int>, strays: nat, row: int)
    requires Ticketed(l, rows, strays) && row >= 0
    ensures Ticketed(l - {row}, rows - {row}, strays)
  {}

  /** One more lock without a row. */
  lemma TicketedMore(l: Locks, rows: set<int>, strays: nat, p: Path)
    requires Ticketed(l, rows, strays) && forall r :: r in rows ==> r >= 0
    ensures 0 - strays - 1 !in l && Ticketed(l[0 - strays - 1 := p], rows, strays + 1)
  {}

  // ---------------------------------------------------------------- admission

  /** The slots held by rows in `rows`, when each has what it did not reuse of `m` positions. */
  ghost function TotalReused(admitted: map<int, nat>, rows: set<int>): nat
    requires rows <= admitted.Keys
  {
    if rows == {} then 0 else
      var r := Pick(rows);
      admitted[r] + TotalReused(admitted, rows - {r})
  }

  lemma {:induction false} TotalReusedLess(admitted: map<int, nat>, rows: set<int>, r: int)
    requires rows <= admitted.Keys && r in rows
    ensures TotalReused(admitted, rows) == admitted[r] + TotalReused(admitted, rows - {r})
    decreases rows
  {
    var p := Pick(rows);
    if p != r {
      TotalReusedLess(admitted, rows - {p}, r);
      assert rows - {p} - {r} == rows - {r} - {p};
      TotalReusedLess(admitted, rows - {r}, p);
    }
  }

  lemma {:induction false} AllocatedSize(alloc: map<int, seq<int>>, admitted: map<int, nat>, m: nat)
    requires alloc.Keys <= admitted.Keys
    requires forall r :: r in alloc ==> |alloc[r]| + admitted[r] == m
    ensures |Owned(alloc)| + TotalReused(admitted, alloc.Keys) == Tokens(|alloc|, m)
    decreases |alloc|
  {
    hide Owned, TotalReused;
    if alloc.Keys == {} {
      NoAlloc(alloc);
      NoneReused(admitted);
    } else {
      var j := Pick(alloc.Keys);
      var rest := alloc - {j};
      OwnedLess(alloc, j);
      AllocatedSize(rest, admitted, m);
      assert rest.Keys == alloc.Keys - {j} && alloc.Keys == rest.Keys + {j};
      TotalReusedLess(admitted, alloc.Keys, j);
      assert |alloc| == |rest| + 1;
    }
  }

  lemma NoneReused(admitted: map<int, nat>)
    ensures TotalReused(admitted, {}) == 0
  {}

  lemma {:induction false} HeldIsReused(l: Locks, admitted: map<int, nat>, rows: set<int>)
    requires rows <= l.Keys && rows <= admitted.Keys && forall r :: r in rows ==> |l[r]| <= admitted[r]
    ensures TotalHeld(l, rows) <= TotalReused(admitted, rows)
    decreases rows
  {
    if rows != {} {
      HeldIsReused(l, admitted, rows - {Pick(rows)});
    }
  }

  /** With a pool of `n` full rows, fewer than `n` live ones, and no lock longer than what its row
      reuses, the slots that are free or can be evicted are enough for one more row. */
  lemma AdmissionFits(free: seq<int>, alloc: map<int, seq<int>>, t: NodeTree, l: Locks, admitted: map<int, nat>,
                      numSlots: nat, n: nat, m: nat, row: int)
    requires WellFormed(t) && Conserved(free, alloc, t.pages, numSlots) && numSlots > Tokens(n, m)
    requires forall u :: u in t.pages ==> |t.pages[u]| == 1
    requires row !in alloc && |alloc| < n && l.Keys == alloc.Keys + {row} && l.Keys <= admitted.Keys
    requires forall r :: r in alloc ==> |alloc[r]| + admitted[r] == m
    requires forall r :: r in l ==> |l[r]| <= admitted[r]
    ensures m <= |free| + |Idle(t.pages, l)| + admitted[row]
  {
    PinnedBound(t, l);
    HeldIsReused(l, admitted, l.Keys);
    TotalReusedLess(admitted, l.Keys, row);
    assert l.Keys - {row} == alloc.Keys;
    AllocatedSize(alloc, admitted, m);
    hide WellFormed, Idle, Pinned, TotalHeld, TotalReused;
    IdleOrPinned(t.pages, l);
    OwnedSize(t.pages, 1);
    TokensIs(|t.pages|, 1);
    assert |Stock(free, alloc) + Owned(t.pages)| == |multiset(Range(1, numSlots))| == numSlots - 1;
    TokensIs(n, m);
    TokensIs(|alloc|, m);
    FewerRows(|alloc|, n, m);
  }

  lemma FewerRows(k: nat, n: nat, m: nat)
    requires k < n
    ensures k * m + m <= n * m
  {
    assert (n - k - 1) * m >= 0;
    assert n * m == k * m + m + (n - k - 1) * m;
  }

  lemma OneLock(c: map<Path, Page>, row: int, path: Path)
    requires Cached(c, path)
    ensures |Pinned(c, map[row := path])| >= |path|
  {
    var l: Locks := map[row := path];
    forall u | u in Stretch(path, 0) ensures u in Pinned(c, l) {
      CountPositive(l, row, u);
    }
    StretchSize(path, 0);
    SubsetSize(Stretch(path, 0), Pinned(c, l));
  }

  /** The bound on locks is needed, always: in a pool of just one row, with no live row, a prompt that is
      cached whole is refused. Its lock pins the slot of its last token, which it may not reuse. */
  lemma WholePromptMatchDoesNotFit(free: seq<int>, alloc: map<int, seq<int>>, t: NodeTree, row: int, path: Path,
                                   numSlots: nat, m: nat)
    requires Conserved(free, alloc, t.pages, numSlots) && numSlots == m + 1 && alloc.Keys == {}
    requires (forall u :: u in t.pages ==> |t.pages[u]| == 1) && Cached(t.pages, path)
    ensures m - (|path| - 1) > |free| + |Idle(t.pages, map[row := path])|
  {
    OneLock(t.pages, row, path);
    hide *;
    EmptyPool(free, alloc, t.pages, map[row := path], numSlots);
  }

  /** Without live rows all slots are free, idle or pinned. */
  lemma EmptyPool(free: seq<int>, alloc: map<int, seq<int>>, pages: map<Path, Page>, l: Locks, numSlots: nat)
    requires Conserved(free, alloc, pages, numSlots) && alloc.Keys == {} && forall u :: u in pages ==> |pages[u]| == 1
    ensures |free| + |Idle(pages, l)| + |Pinned(pages, l)| == numSlots - 1
  {
    NoAlloc(alloc);
    hide Idle, Pinned;
    IdleOrPinned(pages, l);
    OwnedSize(pages, 1);
    TokensIs(|pages|, 1);
    assert |Stock(free, alloc) + Owned(pages)| == |multiset(Range(1, numSlots))| == numSlots - 1;
  }

  lemma NoAlloc(alloc: map<int, seq<int>>)
    requires alloc.Keys == {}
    ensures Owned(alloc) == multiset{}
  {}
}
