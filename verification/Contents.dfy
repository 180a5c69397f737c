/** What the slots hold. A slot has the keys and values of one token, and they depend on all tokens before
    it: they are right for a text if they were computed from that token when all before it were right. */
module Contents {
  import opened Arith
  import opened Rosters
  import opened PageTree
  import opened Paging
  import opened Requests
  import opened Prefill
  import opened Forward
  import opened EngineLedger
  import opened Engine

  /** For each slot that was written, the text whose last token it stands for. */
  type Content = map<int, seq<int>>

  ghost predicate Right(m: Content, s: int, x: seq<int>) {
    s in m && m[s] == x
  }

  /** The slots of a row are right for the first `n` tokens of `h`. */
  ghost predicate Reads(m: Content, t: seq<int>, h: seq<int>, n: nat)
    requires n <= |t| && n <= |h|
  {
    forall p {:trigger t[p]} :: 0 <= p < n ==> Right(m, t[p], h[..p + 1])
  }

  /** The positions from `lo` to `hi` were computed, each from those before it. */
  ghost function Computed(m: Content, t: seq<int>, h: seq<int>, lo: nat, hi: nat): Content
    requires lo <= hi <= |t| && hi <= |h|
    decreases hi
  {
    if lo == hi then m else
      var m1 := Computed(m, t, h, lo, hi - 1);
      if Reads(m1, t, h, hi - 1) then m1[t[hi - 1] := h[..hi]] else m1 - {t[hi - 1]}
  }

  ghost predicate Same(m: Content, m': Content, s: int) {
    (s in m' <==> s in m) && (s in m ==> m'[s] == m[s])
  }

  lemma {:induction false} ComputedElsewhere(m: Content, t: seq<int>, h: seq<int>, lo: nat, hi: nat, s: int)
    requires lo <= hi <= |t| && hi <= |h| && forall p :: lo <= p < hi ==> t[p] != s
    ensures Same(m, Computed(m, t, h, lo, hi), s)
    decreases hi
  {
    if lo < hi {
      ComputedElsewhere(m, t, h, lo, hi - 1, s);
    }
  }

  /** The slots to be written are used for one position each. */
  ghost predicate OwnSlots(t: seq<int>, lo: nat, hi: nat)
    requires hi <= |t|
  {
    forall p, q :: lo <= p < hi && 0 <= q < hi && p != q ==> t[p] != t[q]
  }

  /** A row that reads right text writes right text; one that does not writes nothing right. */
  lemma {:induction false} ComputedIs(m: Content, t: seq<int>, h: seq<int>, lo: nat, hi: nat)
    requires lo <= hi <= |t| && hi <= |h| && OwnSlots(t, lo, hi)
    ensures Reads(Computed(m, t, h, lo, hi), t, h, hi) <==> Reads(m, t, h, lo)
    ensures !Reads(m, t, h, lo) ==> forall p :: lo <= p < hi ==> t[p] !in Computed(m, t, h, lo, hi)
    decreases hi
  {
    if lo < hi {
      ComputedIs(m, t, h, lo, hi - 1);
      var m1, m' := Computed(m, t, h, lo, hi - 1), Computed(m, t, h, lo, hi);
      forall p | 0 <= p < hi - 1 ensures Same(m1, m', t[p]) {}
      assert Reads(m', t, h, hi - 1) <==> Reads(m1, t, h, hi - 1);
      if Reads(m1, t, h, hi - 1) {
        assert Right(m', t[hi - 1], h[..hi]);
      } else if Reads(m', t, h, hi) {
        assert Reads(m', t, h, hi - 1);
      }
    }
  }

  /** Only the first tokens of the text matter. */
  lemma ReadsSame(m: Content, m': Content, t: seq<int>, h: seq<int>, h': seq<int>, n: nat)
    requires n <= |t| && n <= |h| && n <= |h'| && h[..n] == h'[..n]
    requires forall p :: 0 <= p < n ==> Same(m, m', t[p])
    ensures Reads(m', t, h', n) <==> Reads(m, t, h, n)
  {
    forall p | 0 <= p < n ensures Right(m', t[p], h'[..p + 1]) <==> Right(m, t[p], h[..p + 1]) {
      assert h[..p + 1] == h[..n][..p + 1] && h'[..p + 1] == h'[..n][..p + 1];
      assert Same(m, m', t[p]);
    }
  }

  // ---------------------------------------------------------------- a batch

  /** What a step computes for a row fits its entries in the table. */
  ghost predicate Feeds(table: seq<seq<int>>, jobs: Jobs, noted: Jobs, row: int) {
    && row in jobs && row in noted && 0 <= row < |table|
    && Fed(jobs[row]) <= Fed(noted[row]) <= |History(noted[row])| && Fed(noted[row]) <= |table[row]|
  }

  /** The slots after a batch has run. */
  ghost function Forwarded(m: Content, rows: seq<int>, table: seq<seq<int>>, jobs: Jobs, noted: Jobs): Content
    requires forall row :: row in jobs ==> Feeds(table, jobs, noted, row)
    requires forall r :: r in rows ==> r in jobs
  {
    if rows == [] then m else
      var n := |rows| - 1;
      assert rows[n] in rows;
      var row := rows[n];
      Computed(Forwarded(m, rows[..n], table, jobs, noted), table[row], History(noted[row]), Fed(jobs[row]),
               Fed(noted[row]))
  }

  /** The step does not write the slot for the row. */
  ghost predicate NotWritten(table: seq<seq<int>>, jobs: Jobs, noted: Jobs, row: int, s: int)
    requires Feeds(table, jobs, noted, row)
  {
    forall p :: Fed(jobs[row]) <= p < Fed(noted[row]) ==> table[row][p] != s
  }

  lemma {:induction false} ForwardedElsewhere(m: Content, rows: seq<int>, table: seq<seq<int>>, jobs: Jobs, noted: Jobs,
                                              s: int)
    requires forall row :: row in jobs ==> Feeds(table, jobs, noted, row)
    requires forall r :: r in rows ==> r in jobs
    requires forall r :: r in rows ==> NotWritten(table, jobs, noted, r, s)
    ensures Same(m, Forwarded(m, rows, table, jobs, noted), s)
  {
    if rows != [] {
      var n := |rows| - 1;
      ForwardedElsewhere(m, rows[..n], table, jobs, noted, s);
      assert rows[n] in rows;
      var row := rows[n];
      assert NotWritten(table, jobs, noted, row, s);
      ComputedElsewhere(Forwarded(m, rows[..n], table, jobs, noted), table[row], History(noted[row]), Fed(jobs[row]),
                        Fed(noted[row]), s);
    }
  }

  /** What a step writes no other row reads, nor another position of the row. */
  ghost predicate Separate(table: seq<seq<int>>, jobs: Jobs, noted: Jobs) {
    forall row {:trigger Feeds(table, jobs, noted, row)} :: row in jobs ==>
      && Feeds(table, jobs, noted, row) && OwnSlots(table[row], Fed(jobs[row]), |table[row]|)
      && forall other, p :: other in jobs && other != row && 0 <= p < |table[row]| ==>
           Feeds(table, jobs, noted, other) && NotWritten(table, jobs, noted, other, table[row][p])
  }

  /** A row reads right text after its part was computed exactly if it did before; else the part is wrong. */
  ghost predicate Carried(m: Content, m': Content, t: seq<int>, h: seq<int>, lo: nat, hi: nat)
    requires lo <= hi <= |t| && hi <= |h|
  {
    && (Reads(m', t, h, hi) <==> Reads(m, t, h, lo))
    && (!Reads(m, t, h, lo) ==> forall p :: lo <= p < hi ==> t[p] !in m')
  }

  lemma {:induction false} ForwardedRow(m: Content, rows: seq<int>, table: seq<seq<int>>, jobs: Jobs, noted: Jobs,
                                        i: nat)
    requires forall row :: row in jobs ==> Feeds(table, jobs, noted, row)
    requires Separate(table, jobs, noted) && Distinct(rows) && i < |rows|
    requires forall r :: r in rows ==> r in jobs
    ensures var row := rows[i];
            row in jobs && Feeds(table, jobs, noted, row)
            && Carried(m, Forwarded(m, rows, table, jobs, noted), table[row], History(noted[row]), Fed(jobs[row]),
                       Fed(noted[row]))
  {
    var n := |rows| - 1;
    var rest := rows[..n];
    assert rows[i] in rows && rows[n] in rows;
    var row, last := rows[i], rows[n];
    assert Feeds(table, jobs, noted, row) && Feeds(table, jobs, noted, last);
    var t, h, lo, hi := table[row], History(noted[row]), Fed(jobs[row]), Fed(noted[row]);
    var m1 := Forwarded(m, rest, table, jobs, noted);
    RestDistinct(rows);
    if i == n {
      forall p | 0 <= p < |t| ensures Same(m, m1, t[p]) {
        forall r | r in rest ensures NotWritten(table, jobs, noted, r, t[p]) {
          var k :| 0 <= k < n && rest[k] == r;
          assert rows[k] != rows[n];
        }
        ForwardedElsewhere(m, rest, table, jobs, noted, t[p]);
      }
      ReadsSame(m, m1, t, h, h, lo);
      ComputedIs(m1, t, h, lo, hi);
    } else {
      assert rest[i] == rows[i];
      ForwardedRow(m, rest, table, jobs, noted, i);
      var m' := Forwarded(m, rows, table, jobs, noted);
      assert rows[i] != rows[n];
      forall p | 0 <= p < |t| ensures Same(m1, m', t[p]) {
        assert NotWritten(table, jobs, noted, last, t[p]);
        ComputedElsewhere(m1, table[last], History(noted[last]), Fed(jobs[last]), Fed(noted[last]), t[p]);
      }
      ReadsSame(m1, m', t, h, h, hi);
    }
  }

  lemma RestDistinct(rows: seq<int>)
    requires Distinct(rows) && rows != []
    ensures Distinct(rows[..|rows| - 1])
  {
    var rest := rows[..|rows| - 1];
    forall i, j | 0 <= i < j < |rest| ensures rest[i] != rest[j] {
      assert rows[i] != rows[j];
    }
  }

  /** The same of every live row, in the batch or not. */
  lemma ForwardedAny(m: Content, rows: seq<int>, table: seq<seq<int>>, jobs: Jobs, noted: Jobs, row: int)
    requires forall r :: r in jobs ==> Feeds(table, jobs, noted, r)
    requires Separate(table, jobs, noted) && Distinct(rows) && row in jobs
    requires forall r :: r in rows ==> r in jobs
    requires row !in rows ==> Fed(noted[row]) == Fed(jobs[row])
    ensures Feeds(table, jobs, noted, row)
            && Carried(m, Forwarded(m, rows, table, jobs, noted), table[row], History(noted[row]), Fed(jobs[row]),
                       Fed(noted[row]))
    ensures forall p :: 0 <= p < |table[row]| && !(Fed(jobs[row]) <= p < Fed(noted[row])) ==>
              Same(m, Forwarded(m, rows, table, jobs, noted), table[row][p])
  {
    assert Feeds(table, jobs, noted, row);
    var t, h, lo, hi := table[row], History(noted[row]), Fed(jobs[row]), Fed(noted[row]);
    var m' := Forwarded(m, rows, table, jobs, noted);
    forall p | 0 <= p < |t| && !(lo <= p < hi) ensures Same(m, m', t[p]) {
      forall r | r in rows ensures NotWritten(table, jobs, noted, r, t[p]) {
        assert Feeds(table, jobs, noted, r);
      }
      ForwardedElsewhere(m, rows, table, jobs, noted, t[p]);
    }
    if row in rows {
      var i :| 0 <= i < |rows| && rows[i] == row;
      ForwardedRow(m, rows, table, jobs, noted, i);
    } else {
      ReadsSame(m, m', t, h, h, lo);
    }
  }

  // ---------------------------------------------------------------- what is known of the slots

  /** The slots are shared out among the live rows, the free list and the tree, each once. */
  ghost predicate InOrder(g: Ledger) {
    && LedgerOk(g, g.jobs.Keys) && g.refused == {} && g.surplus == multiset{}
    && [] !in g.tree.pages && forall u :: u in g.tree.pages ==> |g.tree.pages[u]| == 1
  }

  /** What is known of a live row: it reads right text unless it is one of `bad`, and the positions to
      come have not been written. */
  ghost predicate RowTold(g: Ledger, m: Content, bad: set<int>, row: int) {
    && row in g.jobs && 0 <= row < |g.table|
    && var t, j := g.table[row], g.jobs[row];
       && j.cached <= Fed(j) <= |History(j)| && Fed(j) <= |t|
       && (Reads(m, t, History(j), Fed(j)) <==> row !in bad)
       && forall p :: (if row in bad then j.cached else Fed(j)) <= p < |t| ==> t[p] !in m
  }

  /** The slots of the tree are right for their texts, but for those of the prefixes `raw`; the live rows
      read right text, but for those in `bad`. */
  ghost predicate Told(g: Ledger, m: Content, raw: set<Path>, bad: set<int>) {
    && raw <= g.tree.pages.Keys && bad <= g.jobs.Keys
    && (forall u {:trigger g.tree.pages[u]} :: u in g.tree.pages ==>
          |g.tree.pages[u]| == 1 && (Right(m, g.tree.pages[u][0], Flat(u)) <==> u !in raw))
    && forall row {:trigger RowTold(g, m, bad, row)} :: row in g.jobs ==> RowTold(g, m, bad, row)
  }

  lemma RowFits(g: Ledger, row: int)
    requires InOrder(g) && row in g.jobs
    ensures 0 <= row < |g.table| && |g.table[row]| == g.maxLen
            && |g.jobs[row].prompt| + Max(1, g.jobs[row].outputLen) <= g.maxLen
  {
    assert RowOk(g, row);
  }

  lemma {:induction false} FlatOnes(pages: seq<Page>)
    requires forall i :: 0 <= i < |pages| ==> |pages[i]| == 1
    ensures |Flat(pages)| == |pages| && forall i :: 0 <= i < |pages| ==> Flat(pages)[i] == pages[i][0]
  {
    if pages != [] {
      FlatOnes(pages[1..]);
      forall i | 0 <= i < |pages| ensures Flat(pages)[i] == pages[i][0] {
        assert i > 0 ==> pages[1..][i - 1] == pages[i];
      }
    }
  }

  lemma BackedAt(c: map<Path, Page>, path: Path, i: nat)
    requires Cached(c, path) && i < |path|
    ensures path[..i + 1] in c && Backing(c, path)[i] == c[path[..i + 1]] && |Backing(c, path)| == |path|
  {
    assert IsPrefix(path[..i + 1], path) && path[..i + 1] != [];
  }

  /** A reused position has the slot of the cached prefix that ends there. */
  lemma ReusedSlot(g: Ledger, row: int, q: nat)
    requires InOrder(g) && row in g.jobs && q < g.jobs[row].cached
    ensures row in g.locks && q < |g.locks[row]| && g.locks[row][..q + 1] in g.tree.pages
    ensures IsPrefix(g.locks[row], Pages(g.jobs[row].prompt, 1)) && 0 <= row < |g.table| && q < |g.table[row]|
            && g.tree.pages[g.locks[row][..q + 1]] == [g.table[row][q]]
  {
    assert RowOk(g, row);
    var c, path, t, a := g.tree.pages, g.locks[row], g.table[row], g.jobs[row].cached;
    assert TableOk(t, path, c, a, g.alloc[row], g.maxLen);
    hide RowOk, LedgerOk, TableOk, Held, Pages;
    var pages := Backing(c, path);
    forall i | 0 <= i < |path| ensures path[..i + 1] in c && |pages[i]| == 1 && pages[i] == c[path[..i + 1]] {
      BackedAt(c, path, i);
    }
    FlatOnes(pages);
    assert t[..a][q] == Flat(pages)[..a][q];
  }

  /** A prefix of the pages of a text, as a text. */
  lemma TextOf(x: seq<int>, u: Path)
    requires IsPrefix(u, Pages(x, 1))
    ensures |Pages(x, 1)| == |x| && |u| <= |x| && Flat(u) == x[..|u|]
  {
    OnePages(x);
    PagesSplit(x, 1, |u|);
    TokensIs(|u|, 1);
    assert Pages(x, 1)[..|u|] == u;
  }

  /** The step takes every live row at most to the end of its history, within its entries. */
  ghost predicate WithinRows(g: Ledger, noted: Jobs) {
    noted.Keys == g.jobs.Keys && forall row {:trigger noted[row]} :: row in g.jobs ==>
      && 0 <= row < |g.table| && |g.table[row]| == g.maxLen
      && g.jobs[row].cached <= Fed(g.jobs[row]) <= Fed(noted[row]) <= |History(noted[row])| <= g.maxLen
  }

  lemma RowAlone(g: Ledger, noted: Jobs, row: int)
    requires InOrder(g) && WithinRows(g, noted) && row in g.jobs
    ensures Feeds(g.table, g.jobs, noted, row) && OwnSlots(g.table[row], Fed(g.jobs[row]), |g.table[row]|)
    ensures forall u :: u in g.tree.pages ==> |g.tree.pages[u]| == 1
                                              && NotWritten(g.table, g.jobs, noted, row, g.tree.pages[u][0])
  {
    assert Fed(noted[row]) <= |History(noted[row])|;
    var t, lo := g.table[row], Fed(g.jobs[row]);
    forall p | lo <= p < |t|
      ensures forall q :: 0 <= q < |t| && q != p ==> t[q] != t[p]
      ensures forall u :: u in g.tree.pages ==> t[p] !in g.tree.pages[u]
    {
      Isolated(g, g.jobs.Keys, row, p);
      forall q | 0 <= q < |t| && q != p ensures t[q] != t[p] {
        if q < g.jobs[row].cached {
          ReusedSlot(g, row, q);
        }
      }
    }
    forall u | u in g.tree.pages
      ensures |g.tree.pages[u]| == 1 && NotWritten(g.table, g.jobs, noted, row, g.tree.pages[u][0]) {
      assert g.tree.pages[u] == [g.tree.pages[u][0]];
    }
  }

  lemma SeparateNow(g: Ledger, noted: Jobs)
    requires InOrder(g) && WithinRows(g, noted)
    ensures Separate(g.table, g.jobs, noted) && forall row :: row in g.jobs ==> Feeds(g.table, g.jobs, noted, row)
  {
    forall row | row in g.jobs
      ensures Feeds(g.table, g.jobs, noted, row) && OwnSlots(g.table[row], Fed(g.jobs[row]), |g.table[row]|)
    {
      RowAlone(g, noted, row);
    }
    forall row, other, p | row in g.jobs && other in g.jobs && other != row && 0 <= p < |g.table[row]|
      ensures NotWritten(g.table, g.jobs, noted, other, g.table[row][p])
    {
      assert Feeds(g.table, g.jobs, noted, other);
      forall q | Fed(g.jobs[other]) <= q < Fed(noted[other]) ensures g.table[other][q] != g.table[row][p] {
        IsolatedFrom(g, g.jobs.Keys, other, q, row);
      }
    }
  }

  // ---------------------------------------------------------------- a step

  /** A step took the live requests from `g.jobs` to `noted` in a batch of `rows`; then those of `gone` left and
      their histories went into the tree. */
  ghost predicate BatchRan(g: Ledger, g': Ledger, rows: seq<int>, noted: Jobs, gone: set<int>) {
    && GoesOn(g.jobs, noted) && gone <= noted.Keys && g'.jobs == noted - gone && g'.table == g.table
    && Distinct(rows) && (forall r :: r in rows ==> r in g.jobs)
    && (forall row {:trigger noted[row]} :: row in g.jobs && row !in rows ==>
          Fed(noted[row]) == Fed(g.jobs[row]))
    && (forall row {:trigger noted[row]} :: row in gone ==> Fed(noted[row]) == |History(noted[row])| - 1)
    && Adopted(g.tree.pages, g'.tree.pages, Histories(noted), g.table, gone)
  }

  /** A prefix that the step brought into the tree with the slot of a bad row, or with the slot of the last
      token of a history. */
  ghost predicate BroughtWrong(g: Ledger, g': Ledger, noted: Jobs, gone: set<int>, bad: set<int>, u: Path) {
    && u in g'.tree.pages && u !in g.tree.pages
    && exists row :: row in gone && FromRow(u, g'.tree.pages[u], Histories(noted), g.table, row)
                     && (row in bad || |u| == |History(noted[row])|)
  }

  ghost function RawAfter(g: Ledger, g': Ledger, noted: Jobs, gone: set<int>, raw: set<Path>,
                          bad: set<int>): set<Path> {
    set u | u in g'.tree.pages && (u in raw || BroughtWrong(g, g', noted, gone, bad, u))
  }

  lemma HistoryGrows(jobs: Jobs, noted: Jobs, row: int, n: nat)
    requires GoesOn(jobs, noted) && row in jobs && n <= |History(jobs[row])|
    ensures row in noted && History(jobs[row]) <= History(noted[row])
    ensures n <= |History(noted[row])| && History(noted[row])[..n] == History(jobs[row])[..n]
  {
    assert SameRequest(jobs[row], noted[row]) && jobs[row].out <= noted[row].out;
  }

  /** One live row over a step. */
  lemma StepRow(g: Ledger, noted: Jobs, m: Content, rows: seq<int>, raw: set<Path>, bad: set<int>, row: int)
    requires InOrder(g) && WithinRows(g, noted) && GoesOn(g.jobs, noted) && Told(g, m, raw, bad) && row in g.jobs
    requires Distinct(rows) && forall r :: r in rows ==> r in g.jobs
    requires row !in rows ==> Fed(noted[row]) == Fed(g.jobs[row])
    requires forall r :: r in g.jobs ==> Feeds(g.table, g.jobs, noted, r)
    ensures RowTold(g.(jobs := noted), Forwarded(m, rows, g.table, g.jobs, noted), bad, row)
  {
    assert Fed(noted[row]) <= |History(noted[row])|;
    assert RowTold(g, m, bad, row);
    SeparateNow(g, noted);
    ForwardedAny(m, rows, g.table, g.jobs, noted, row);
    var t, j, n, m' := g.table[row], g.jobs[row], noted[row], Forwarded(m, rows, g.table, g.jobs, noted);
    HistoryGrows(g.jobs, noted, row, Fed(j));
    ReadsSame(m, m, t, History(j), History(n), Fed(j));
    forall p | (if row in bad then j.cached else Fed(n)) <= p < |t| ensures t[p] !in m' {
      if !(Fed(j) <= p < Fed(n)) {
        assert Same(m, m', t[p]);
      }
    }
  }

  /** One prefix that stays in the tree over a step. */
  lemma StepPrefix(g: Ledger, noted: Jobs, m: Content, rows: seq<int>, u: Path)
    requires InOrder(g) && WithinRows(g, noted) && u in g.tree.pages
    requires forall r :: r in rows ==> r in g.jobs
    requires forall r :: r in g.jobs ==> Feeds(g.table, g.jobs, noted, r)
    ensures |g.tree.pages[u]| == 1 && Same(m, Forwarded(m, rows, g.table, g.jobs, noted), g.tree.pages[u][0])
  {
    forall r | r in rows ensures NotWritten(g.table, g.jobs, noted, r, g.tree.pages[u][0]) {
      RowAlone(g, noted, r);
    }
    ForwardedElsewhere(m, rows, g.table, g.jobs, noted, g.tree.pages[u][0]);
  }

  /** What a row reuses of its history is cached. */
  lemma ReusedCached(g: Ledger, row: int, h: seq<int>, u: Path)
    requires InOrder(g) && row in g.jobs && 0 < |u| <= g.jobs[row].cached && g.jobs[row].prompt <= h
    requires IsPrefix(u, Pages(h, 1))
    ensures u in g.tree.pages
  {
    ReusedSlot(g, row, |u| - 1);
    var path, prompt := g.locks[row], g.jobs[row].prompt;
    TextOf(h, u);
    TextOf(prompt, path);
    hide *;
    PrefixAt(prompt, path);
    PrefixAt(h, u);
    forall i | 0 <= i < |u| ensures u[i] == path[i] {
      assert h[i] == prompt[i];
    }
    assert u == path[..|u|];
  }

  lemma PrefixAt(x: seq<int>, u: Path)
    requires IsPrefix(u, Pages(x, 1))
    ensures |u| <= |x| && forall i :: 0 <= i < |u| ==> u[i] == [x[i]]
  {
    TextOf(x, u);
    forall i | 0 <= i < |u| ensures u[i] == [x[i]] {
      PageAt(x, i);
    }
  }

  /** One prefix that came with the row `row`: it is longer than what the row reused, so it is right if the
      row reads right text and it is not the whole history. */
  lemma BroughtPrefix(g: Ledger, g': Ledger, m': Content, noted: Jobs, gone: set<int>, bad: set<int>, row: int, u: Path)
    requires InOrder(g) && WithinRows(g, noted) && GoesOn(g.jobs, noted) && row in gone && gone <= noted.Keys
    requires Fed(noted[row]) == |History(noted[row])| - 1 && RowTold(g.(jobs := noted), m', bad, row)
    requires u in g'.tree.pages && u !in g.tree.pages
    requires FromRow(u, g'.tree.pages[u], Histories(noted), g.table, row)
    ensures g.jobs[row].cached < |u| <= |History(noted[row])| && Flat(u) == History(noted[row])[..|u|]
    ensures |g'.tree.pages[u]| == 1
    ensures Right(m', g'.tree.pages[u][0], Flat(u)) <==> row !in bad && |u| < |History(noted[row])|
  {
    var h, t, j := History(noted[row]), g.table[row], g.jobs[row];
    assert Histories(noted)[row] == h;
    TextOf(h, u);
    if |u| <= j.cached {
      ReusedCached(g, row, h, u);
    }
    assert g'.tree.pages[u] == [t[|u| - 1]];
    if row !in bad && |u| < |h| {
      assert Right(m', t[|u| - 1], h[..|u|]);
    }
  }

  /** A step: the slots it writes become right for the rows that read right text, and of what it brings
      into the tree exactly the last prefix of each history, and what bad rows bring, is wrong. */
  lemma StepTold(g: Ledger, g': Ledger, m: Content, rows: seq<int>, noted: Jobs, gone: set<int>, raw: set<Path>,
                 bad: set<int>)
    requires InOrder(g) && WithinRows(g, noted) && BatchRan(g, g', rows, noted, gone) && Told(g, m, raw, bad)
    requires forall r :: r in g.jobs ==> Feeds(g.table, g.jobs, noted, r)
    ensures Told(g', Forwarded(m, rows, g.table, g.jobs, noted), RawAfter(g, g', noted, gone, raw, bad), bad - gone)
  {
    var m', raw' := Forwarded(m, rows, g.table, g.jobs, noted), RawAfter(g, g', noted, gone, raw, bad);
    forall row | row in g.jobs ensures RowTold(g.(jobs := noted), m', bad, row) {
      assert noted[row] == noted[row];
      StepRow(g, noted, m, rows, raw, bad, row);
    }
    forall row | row in g'.jobs ensures RowTold(g', m', bad - gone, row) {
      StillTold(g, g', noted, gone, m', bad, row);
    }
    forall u | u in g'.tree.pages
      ensures |g'.tree.pages[u]| == 1 && (Right(m', g'.tree.pages[u][0], Flat(u)) <==> u !in raw')
    {
      StepPage(g, g', m, rows, noted, gone, raw, bad, u);
    }
  }

  lemma StillTold(g: Ledger, g': Ledger, noted: Jobs, gone: set<int>, m: Content, bad: set<int>, row: int)
    requires RowTold(g.(jobs := noted), m, bad, row) && g'.jobs == noted - gone && g'.table == g.table && row in g'.jobs
    ensures RowTold(g', m, bad - gone, row)
  {
    assert g'.jobs[row] == noted[row] && (row in bad <==> row in bad - gone);
  }

  lemma StepPage(g: Ledger, g': Ledger, m: Content, rows: seq<int>, noted: Jobs, gone: set<int>, raw: set<Path>,
                 bad: set<int>, u: Path)
    requires InOrder(g) && WithinRows(g, noted) && BatchRan(g, g', rows, noted, gone) && Told(g, m, raw, bad)
    requires forall r :: r in g.jobs ==> Feeds(g.table, g.jobs, noted, r)
    requires forall r :: r in g.jobs ==>
               RowTold(g.(jobs := noted), Forwarded(m, rows, g.table, g.jobs, noted), bad, r)
    requires u in g'.tree.pages
    ensures |g'.tree.pages[u]| == 1
    ensures Right(Forwarded(m, rows, g.table, g.jobs, noted), g'.tree.pages[u][0], Flat(u))
            <==> u !in RawAfter(g, g', noted, gone, raw, bad)
  {
    hide *;
    BatchRanIs(g, g', rows, noted, gone);
    var m' := Forwarded(m, rows, g.table, g.jobs, noted);
    RawAfterIs(g, g', noted, gone, raw, bad, u);
    AdoptedPage(g.tree.pages, g'.tree.pages, Histories(noted), g.table, gone, u);
    if u in g.tree.pages {
      StepPrefix(g, noted, m, rows, u);
      ToldPage(g, m, raw, bad, u);
      SameRight(m, m', g.tree.pages[u][0], Flat(u));
    } else {
      ToldPrefixes(g, m, raw, bad);
      forall row | row in gone && FromRow(u, g'.tree.pages[u], Histories(noted), g.table, row)
        ensures |g'.tree.pages[u]| == 1
        ensures Right(m', g'.tree.pages[u][0], Flat(u)) <==> row !in bad && |u| < |History(noted[row])|
        ensures |u| <= |History(noted[row])|
      {
        assert Fed(noted[row]) == |History(noted[row])| - 1;
        BroughtPrefix(g, g', m', noted, gone, bad, row, u);
      }
      BroughtIs(g, g', noted, gone, bad, u);
    }
  }

  lemma SameRight(m: Content, m': Content, s: int, x: seq<int>)
    requires Same(m, m', s)
    ensures Right(m', s, x) <==> Right(m, s, x)
  {}

  lemma BatchRanIs(g: Ledger, g': Ledger, rows: seq<int>, noted: Jobs, gone: set<int>)
    requires BatchRan(g, g', rows, noted, gone)
    ensures GoesOn(g.jobs, noted) && gone <= noted.Keys && noted.Keys == g.jobs.Keys
    ensures forall r :: r in rows ==> r in g.jobs
    ensures forall row {:trigger noted[row]} :: row in gone ==> Fed(noted[row]) == |History(noted[row])| - 1
    ensures Adopted(g.tree.pages, g'.tree.pages, Histories(noted), g.table, gone)
  {}

  lemma AdoptedPage(c: map<Path, Page>, c': map<Path, Page>, hist: map<int, seq<int>>, table: seq<seq<int>>,
                    rows: set<int>, u: Path)
    requires Adopted(c, c', hist, table, rows) && u in c'
    ensures if u in c then c'[u] == c[u] else exists row :: row in rows && FromRow(u, c'[u], hist, table, row)
  {}

  lemma ToldPage(g: Ledger, m: Content, raw: set<Path>, bad: set<int>, u: Path)
    requires Told(g, m, raw, bad) && u in g.tree.pages
    ensures |g.tree.pages[u]| == 1 && (Right(m, g.tree.pages[u][0], Flat(u)) <==> u !in raw)
  {}

  lemma ToldPrefixes(g: Ledger, m: Content, raw: set<Path>, bad: set<int>)
    requires Told(g, m, raw, bad)
    ensures raw <= g.tree.pages.Keys && bad <= g.jobs.Keys
  {}

  lemma RawAfterIs(g: Ledger, g': Ledger, noted: Jobs, gone: set<int>, raw: set<Path>, bad: set<int>, u: Path)
    requires u in g'.tree.pages
    ensures u in RawAfter(g, g', noted, gone, raw, bad) <==> u in raw || BroughtWrong(g, g', noted, gone, bad, u)
    ensures BroughtWrong(g, g', noted, gone, bad, u) ==> u !in g.tree.pages
  {}

  lemma BroughtIs(g: Ledger, g': Ledger, noted: Jobs, gone: set<int>, bad: set<int>, u: Path)
    requires u in g'.tree.pages && u !in g.tree.pages && gone <= noted.Keys
    ensures BroughtWrong(g, g', noted, gone, bad, u)
            <==> exists row :: row in gone && FromRow(u, g'.tree.pages[u], Histories(noted), g.table, row)
                               && (row in bad || |u| == |History(noted[row])|)
  {}

  // ---------------------------------------------------------------- a request that comes or goes

  /** A request joined on `row`: it reuses the slots of a cached prefix of its prompt; of the other prefixes
      some may have been evicted. */
  ghost predicate JoinedOn(g: Ledger, g': Ledger, row: int) {
    && row !in g.jobs && row in g'.jobs && g'.jobs == g.jobs[row := g'.jobs[row]]
    && g'.jobs[row].slices == [] && g'.jobs[row].out == [] && g'.jobs[row].cached <= |g'.jobs[row].prompt|
    && TableBut(g.table, g'.table, row) && g'.maxLen == g.maxLen
    && forall u {:trigger u in g'.tree.pages} :: u in g'.tree.pages ==>
         u in g.tree.pages && g'.tree.pages[u] == g.tree.pages[u]
  }

  /** The slots that a row does not reuse count as not written. */
  ghost function Blanked(m: Content, t: seq<int>, cached: nat): Content
    requires cached <= |t|
  {
    map s | s in m && s !in t[cached..] :: m[s]
  }

  /** The prompt reuses a wrong prefix. */
  ghost predicate ReadsWrong(raw: set<Path>, prompt: seq<int>, cached: nat) {
    exists u :: u in raw && 0 < |u| <= cached && IsPrefix(u, Pages(prompt, 1))
  }

  lemma BlankedElsewhere(m: Content, t: seq<int>, cached: nat, s: int)
    requires cached <= |t| && forall p :: cached <= p < |t| ==> t[p] != s
    ensures Same(m, Blanked(m, t, cached), s)
  {}

  lemma JoinedPage(g: Ledger, g': Ledger, m: Content, row: int, raw: set<Path>, bad: set<int>, u: Path)
    requires InOrder(g') && JoinedOn(g, g', row) && Told(g, m, raw, bad) && u in g'.tree.pages
    requires 0 <= row < |g'.table| && |g'.table[row]| == g'.maxLen && g'.jobs[row].cached <= g'.maxLen
    ensures |g'.tree.pages[u]| == 1
    ensures Right(Blanked(m, g'.table[row], g'.jobs[row].cached), g'.tree.pages[u][0], Flat(u))
            <==> u !in raw * g'.tree.pages.Keys
  {
    var t, a, s := g'.table[row], g'.jobs[row].cached, g'.tree.pages[u][0];
    ToldPage(g, m, raw, bad, u);
    forall p | a <= p < |t| ensures t[p] != s {
      Isolated(g', g'.jobs.Keys, row, p);
      assert s in g'.tree.pages[u];
    }
    BlankedElsewhere(m, t, a, s);
    SameRight(m, Blanked(m, t, a), s, Flat(u));
  }

  lemma OtherJoined(g: Ledger, g': Ledger, m: Content, row: int, raw: set<Path>, bad: set<int>, other: int)
    requires InOrder(g') && JoinedOn(g, g', row) && Told(g, m, raw, bad) && other in g.jobs
    requires 0 <= row < |g'.table| && |g'.table[row]| == g'.maxLen && g'.jobs[row].cached <= g'.maxLen
    ensures other in g'.jobs && other != row && forall bad' :: (other in bad' <==> other in bad) ==>
              RowTold(g', Blanked(m, g'.table[row], g'.jobs[row].cached), bad', other)
  {
    var t, a := g'.table[row], g'.jobs[row].cached;
    var m' := Blanked(m, t, a);
    assert RowTold(g, m, bad, other);
    var own := g'.table[other];
    assert g'.jobs[other] == g.jobs[other] && own == g.table[other];
    forall p | 0 <= p < |own| ensures Same(m, m', own[p]) {
      var s := own[p];
      forall q | a <= q < |t| ensures t[q] != s {
        IsolatedFrom(g', g'.jobs.Keys, row, q, other);
      }
      BlankedElsewhere(m, t, a, s);
    }
    var j := g.jobs[other];
    ReadsSame(m, m', own, History(j), History(j), Fed(j));
  }

  /** The new row reads right text exactly if none of the prefixes it reuses is wrong. */
  lemma NewReads(g: Ledger, row: int, m: Content, raw: set<Path>)
    requires InOrder(g) && row in g.jobs && g.jobs[row].cached <= |g.jobs[row].prompt|
    requires 0 <= row < |g.table| && |g.table[row]| == g.maxLen && g.jobs[row].cached <= g.maxLen
    requires forall u {:trigger g.tree.pages[u]} :: u in g.tree.pages ==>
               |g.tree.pages[u]| == 1 && (Right(m, g.tree.pages[u][0], Flat(u)) <==> u !in raw)
    requires raw <= g.tree.pages.Keys
    ensures Reads(m, g.table[row], g.jobs[row].prompt, g.jobs[row].cached)
            <==> !ReadsWrong(raw, g.jobs[row].prompt, g.jobs[row].cached)
  {
    var t, a, prompt := g.table[row], g.jobs[row].cached, g.jobs[row].prompt;
    OnePages(prompt);
    forall p | 0 <= p < a
      ensures var u := Pages(prompt, 1)[..p + 1];
              IsPrefix(u, Pages(prompt, 1)) && |u| == p + 1 && (Right(m, t[p], prompt[..p + 1]) <==> u !in raw)
    {
      ReusedAt(g, row, p);
      var u := Pages(prompt, 1)[..p + 1];
      assert g.tree.pages[u] == [t[p]];
    }
    if ReadsWrong(raw, prompt, a) {
      var u :| u in raw && 0 < |u| <= a && IsPrefix(u, Pages(prompt, 1));
      var p := |u| - 1;
      assert u == Pages(prompt, 1)[..p + 1];
      assert !Right(m, t[p], prompt[..p + 1]);
    } else {
      forall p | 0 <= p < a ensures Right(m, t[p], prompt[..p + 1]) {
        var u := Pages(prompt, 1)[..p + 1];
        assert IsPrefix(u, Pages(prompt, 1)) && |u| == p + 1;
      }
    }
  }

  lemma ReusedAt(g: Ledger, row: int, p: nat)
    requires InOrder(g) && row in g.jobs && p < g.jobs[row].cached
    ensures 0 <= row < |g.table| && p < |g.table[row]| && p < |Pages(g.jobs[row].prompt, 1)| && p < |g.jobs[row].prompt|
    ensures var u := Pages(g.jobs[row].prompt, 1)[..p + 1];
            && u in g.tree.pages && g.tree.pages[u] == [g.table[row][p]] && IsPrefix(u, Pages(g.jobs[row].prompt, 1))
            && |u| == p + 1 && Flat(u) == g.jobs[row].prompt[..p + 1]
  {
    ReusedSlot(g, row, p);
    var prompt, path := g.jobs[row].prompt, g.locks[row];
    var u := Pages(prompt, 1)[..p + 1];
    hide *;
    PrefixLong(path, Pages(prompt, 1), p + 1);
    TextOf(prompt, u);
  }

  lemma PrefixLong(path: Path, whole: Path, n: nat)
    requires IsPrefix(path, whole) && n <= |path|
    ensures n <= |whole| && path[..n] == whole[..n] && IsPrefix(whole[..n], whole)
  {}

  lemma NewTold(g: Ledger, m: Content, row: int, raw: set<Path>, bad: set<int>)
    requires row in g.jobs && 0 <= row < |g.table|
    requires var j := g.jobs[row];
             && j.slices == [] && j.out == [] && j.cached <= |j.prompt| && j.cached <= |g.table[row]|
             && (Reads(Blanked(m, g.table[row], j.cached), g.table[row], j.prompt, j.cached) <==> row !in bad)
    ensures RowTold(g, Blanked(m, g.table[row], g.jobs[row].cached), bad, row)
  {
    var t, j := g.table[row], g.jobs[row];
    assert History(j) == j.prompt && Fed(j) == j.cached;
    forall p | j.cached <= p < |t| ensures t[p] !in Blanked(m, t, j.cached) {
      assert t[j.cached..][p - j.cached] == t[p];
    }
  }

  lemma IsTold(g: Ledger, m: Content, raw: set<Path>, bad: set<int>)
    requires raw <= g.tree.pages.Keys && bad <= g.jobs.Keys
    requires forall u {:trigger g.tree.pages[u]} :: u in g.tree.pages ==>
               |g.tree.pages[u]| == 1 && (Right(m, g.tree.pages[u][0], Flat(u)) <==> u !in raw)
    requires forall row {:trigger RowTold(g, m, bad, row)} :: row in g.jobs ==> RowTold(g, m, bad, row)
    ensures Told(g, m, raw, bad)
  {}

  lemma JoinedIs(g: Ledger, g': Ledger, row: int)
    requires JoinedOn(g, g', row)
    ensures row !in g.jobs && row in g'.jobs && g'.jobs.Keys == g.jobs.Keys + {row}
    ensures var j := g'.jobs[row]; j.slices == [] && j.out == [] && j.cached <= |j.prompt|
  {}

  /** A request that joins: its own slots count as not written, and it reads right text exactly if nothing
      it reuses is wrong. */
  lemma JoinedTold(g: Ledger, g': Ledger, m: Content, row: int, raw: set<Path>, bad: set<int>)
    requires InOrder(g') && JoinedOn(g, g', row) && Told(g, m, raw, bad)
    requires 0 <= row < |g'.table| && |g'.table[row]| == g'.maxLen && g'.jobs[row].cached <= g'.maxLen
    ensures Told(g', Blanked(m, g'.table[row], g'.jobs[row].cached), raw * g'.tree.pages.Keys,
                 bad + if ReadsWrong(raw, g'.jobs[row].prompt, g'.jobs[row].cached) then {row} else {})
  {
    hide *;
    JoinedIs(g, g', row);
    var j := g'.jobs[row];
    var m', raw' := Blanked(m, g'.table[row], j.cached), raw * g'.tree.pages.Keys;
    var bad' := bad + if ReadsWrong(raw, j.prompt, j.cached) then {row} else {};
    ToldPrefixes(g, m, raw, bad);
    forall u | u in g'.tree.pages
      ensures |g'.tree.pages[u]| == 1 && (Right(m', g'.tree.pages[u][0], Flat(u)) <==> u !in raw')
    {
      JoinedPage(g, g', m, row, raw, bad, u);
    }
    NewReads(g', row, m', raw');
    StillWrong(g', row, raw);
    NewTold(g', m, row, raw', bad');
    forall other | other in g'.jobs ensures RowTold(g', m', bad', other) {
      if other != row {
        OtherJoined(g, g', m, row, raw, bad, other);
      }
    }
    IsTold(g', m', raw', bad');
  }

  /** What a row reuses has not been evicted. */
  lemma StillWrong(g: Ledger, row: int, raw: set<Path>)
    requires InOrder(g) && row in g.jobs
    ensures var j := g.jobs[row];
            ReadsWrong(raw * g.tree.pages.Keys, j.prompt, j.cached) <==> ReadsWrong(raw, j.prompt, j.cached)
  {
    var j := g.jobs[row];
    if ReadsWrong(raw, j.prompt, j.cached) {
      var u :| u in raw && 0 < |u| <= j.cached && IsPrefix(u, Pages(j.prompt, 1));
      ReusedCached(g, row, j.prompt, u);
      assert u in raw * g.tree.pages.Keys;
    }
  }

  lemma LeftTold(g: Ledger, g': Ledger, m: Content, row: int, raw: set<Path>, bad: set<int>)
    requires Told(g, m, raw, bad) && g'.jobs == g.jobs - {row} && g'.table == g.table && g'.tree == g.tree
    ensures Told(g', m, raw, bad - {row})
  {
    forall u | u in g'.tree.pages
      ensures |g'.tree.pages[u]| == 1 && (Right(m, g'.tree.pages[u][0], Flat(u)) <==> u !in raw) {
      ToldPage(g, m, raw, bad, u);
    }
    forall other | other in g'.jobs ensures RowTold(g', m, bad - {row}, other) {
      assert RowTold(g, m, bad, other) && g'.jobs[other] == g.jobs[other];
      assert other in bad - {row} <==> other in bad;
    }
  }
}
