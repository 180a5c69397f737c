/** Whole runs, and what their requests read: which cached prefixes have the right keys and values in their
    slots, and which requests reuse one that has not. */
module Reuse {
  import opened Arith
  import opened Finite
  import opened Rosters
  import opened PageTree
  import opened Paging
  import opened PathLocks
  import opened RadixNodes
  import opened Recency
  import opened RadixCache
  import opened Requests
  import opened Prefill
  import opened Decode
  import opened Scheduling
  import opened Stepping
  import opened Forward
  import opened Progress
  import opened EngineLedger
  import opened Engine
  import opened Runs
  import opened Contents

  /** What the slots hold, which cached prefixes are wrong, and which live rows read wrong text. */
  datatype Known = Known(holds: Content, raw: set<Path>, bad: set<int>)

  ghost predicate Holds(g: Ledger, k: Known) {
    Told(g, k.holds, k.raw, k.bad)
  }

  // ---------------------------------------------------------------- one event

  /** The request of the event has joined on `row`, with the longest cached prefix of its prompt that leaves
      a token to compute. */
  ghost predicate NewRow(e: Event, g: Ledger, g': Ledger, row: int)
    requires e.Add?
  {
    && JoinedOn(g, g', row) && 0 <= row < |g'.table| && |g'.table[row]| == g'.maxLen
    && g'.jobs[row].cached <= g'.maxLen && g'.jobs[row].prompt == e.prompt
    && exists path :: Matched(g.tree.pages, e.prompt, path) && g'.jobs[row].cached == Min(|path|, |e.prompt| - 1)
  }

  ghost function AfterJoin(g': Ledger, row: int, k: Known): Known
    requires row in g'.jobs && 0 <= row < |g'.table| && g'.jobs[row].cached <= |g'.table[row]|
  {
    var j := g'.jobs[row];
    Known(Blanked(k.holds, g'.table[row], j.cached), k.raw * g'.tree.pages.Keys,
          k.bad + if ReadsWrong(k.raw, j.prompt, j.cached) then {row} else {})
  }

  ghost predicate StepsTo(g: Ledger, g': Ledger, rows: seq<int>, noted: Jobs, gone: set<int>) {
    && WithinRows(g, noted) && BatchRan(g, g', rows, noted, gone)
    && forall r :: r in g.jobs ==> Feeds(g.table, g.jobs, noted, r)
  }

  ghost function AfterStep(g: Ledger, g': Ledger, rows: seq<int>, noted: Jobs, gone: set<int>, k: Known): Known
    requires StepsTo(g, g', rows, noted, gone)
  {
    Known(Forwarded(k.holds, rows, g.table, g.jobs, noted), RawAfter(g, g', noted, gone, k.raw, k.bad), k.bad - gone)
  }

  /** Nothing of what the slots are for has changed. */
  ghost predicate NothingNew(g: Ledger, g': Ledger) {
    g'.jobs == g.jobs && g'.table == g.table && g'.tree.pages == g.tree.pages
  }

  ghost predicate Leaves(g: Ledger, g': Ledger, row: int) {
    g'.jobs == g.jobs - {row} && g'.table == g.table && g'.tree == g.tree
  }

  /** What an event has done: nothing that matters here, or a request joined, or a batch ran, or a request
      was given up. */
  datatype Effect = Nothing | Joins(row: int) | Runs(rows: seq<int>, noted: Jobs, gone: set<int>) | Drops(row: int)

  /** What is known after an event. */
  ghost predicate Learned(e: Event, g: Ledger, g': Ledger, x: Effect, k: Known, k': Known) {
    match x
    case Nothing => NothingNew(g, g') && k' == k
    case Joins(row) => e.Add? && NewRow(e, g, g', row) && k' == AfterJoin(g', row, k)
    case Runs(rows, noted, gone) =>
      e.Advance? && StepsTo(g, g', rows, noted, gone) && k' == AfterStep(g, g', rows, noted, gone, k)
    case Drops(row) => e.Abort? && Leaves(g, g', row) && k' == k.(bad := k.bad - {row})
  }

  lemma NothingNewTold(g: Ledger, g': Ledger, k: Known)
    requires NothingNew(g, g') && Holds(g, k)
    ensures Holds(g', k)
  {
    LeftTold(g, g.(jobs := g.jobs - {-1}), k.holds, -1, k.raw, k.bad);
    forall u | u in g'.tree.pages
      ensures |g'.tree.pages[u]| == 1 && (Right(k.holds, g'.tree.pages[u][0], Flat(u)) <==> u !in k.raw) {
      ToldPage(g, k.holds, k.raw, k.bad, u);
    }
    forall row | row in g'.jobs ensures RowTold(g', k.holds, k.bad, row) {
      assert RowTold(g, k.holds, k.bad, row);
    }
  }

  /** What is known stays true. */
  lemma LearnedHolds(e: Event, g: Ledger, g': Ledger, x: Effect, k: Known, k': Known)
    requires InOrder(g) && InOrder(g') && Holds(g, k) && Learned(e, g, g', x, k, k')
    ensures Holds(g', k')
  {
    match x
    case Nothing => NothingNewTold(g, g', k);
    case Joins(row) => JoinedTold(g, g', k.holds, row, k.raw, k.bad);
    case Runs(rows, noted, gone) => StepTold(g, g', k.holds, rows, noted, gone, k.raw, k.bad);
    case Drops(row) => LeftTold(g, g', k.holds, row, k.raw, k.bad);
  }

  // ---------------------------------------------------------------- whole runs

  /** States between the events of a run, and what is known in each of them. */
  ghost predicate KnownRun(events: seq<Event>, run: seq<Ledger>, xs: seq<Effect>, known: seq<Known>) {
    && |run| == |known| == |events| + 1 && |xs| == |events| && (forall i :: 0 <= i < |run| ==> InOrder(run[i]))
    && forall i {:trigger LearnedAt(events, run, xs, known, i)} :: 0 <= i < |events| ==>
         LearnedAt(events, run, xs, known, i)
  }

  ghost predicate LearnedAt(events: seq<Event>, run: seq<Ledger>, xs: seq<Effect>, known: seq<Known>, i: nat)
    requires |run| == |known| == |events| + 1 && |xs| == |events| && i < |events|
  {
    Learned(events[i], run[i], run[i + 1], xs[i], known[i], known[i + 1])
  }

  lemma KnownSizes(events: seq<Event>, run: seq<Ledger>, xs: seq<Effect>, known: seq<Known>)
    requires KnownRun(events, run, xs, known)
    ensures |run| == |known| == |events| + 1 && |xs| == |events|
  {}

  lemma AtEffect(events: seq<Event>, run: seq<Ledger>, xs: seq<Effect>, known: seq<Known>, i: nat)
    requires KnownRun(events, run, xs, known) && i < |events|
    ensures |run| == |known| == |events| + 1 && |xs| == |events| && InOrder(run[i]) && InOrder(run[i + 1])
    ensures Learned(events[i], run[i], run[i + 1], xs[i], known[i], known[i + 1])
  {
    assert LearnedAt(events, run, xs, known, i);
  }

  /** At every point of a run in which nobody is refused, the cached prefixes with right slots are those that
      are not in `raw`, and the requests that read right text those not in `bad`. */
  lemma {:induction false} RunHolds(events: seq<Event>, run: seq<Ledger>, xs: seq<Effect>, known: seq<Known>, n: nat)
    requires KnownRun(events, run, xs, known) && Holds(run[0], known[0]) && n <= |events|
    ensures Holds(run[n], known[n])
  {
    hide *;
    KnownSizes(events, run, xs, known);
    if n > 0 {
      RunHolds(events, run, xs, known, n - 1);
      AtEffect(events, run, xs, known, n - 1);
      LearnedHolds(events[n - 1], run[n - 1], run[n], xs[n - 1], known[n - 1], known[n]);
    }
  }

  /** A request joined that reuses a wrong prefix. */
  ghost predicate JoinsWrong(g': Ledger, x: Effect, k: Known) {
    x.Joins? && x.row in g'.jobs && ReadsWrong(k.raw, g'.jobs[x.row].prompt, g'.jobs[x.row].cached)
  }

  lemma BadAfter(e: Event, g: Ledger, g': Ledger, x: Effect, k: Known, k': Known)
    requires Learned(e, g, g', x, k, k') && k.bad == {}
    ensures k'.bad == {} <==> !JoinsWrong(g', x, k)
  {}

  /** All requests of a run read right text, from beginning to end, if and only if none of them reuses a wrong
      prefix when it comes. */
  lemma {:induction false} SoundReuse(events: seq<Event>, run: seq<Ledger>, xs: seq<Effect>, known: seq<Known>, n: nat)
    requires KnownRun(events, run, xs, known) && known[0].bad == {} && n <= |events|
    ensures (forall i :: 0 <= i <= n ==> known[i].bad == {})
            <==> forall i :: 0 <= i < n ==> !JoinsWrong(run[i + 1], xs[i], known[i])
  {
    hide *;
    KnownSizes(events, run, xs, known);
    if n > 0 {
      SoundReuse(events, run, xs, known, n - 1);
      AtEffect(events, run, xs, known, n - 1);
      if known[n - 1].bad == {} {
        BadAfter(events[n - 1], run[n - 1], run[n], xs[n - 1], known[n - 1], known[n]);
      }
    }
  }

  /** `u` is the whole history of a request that ended with the event. */
  ghost predicate Ended(x: Effect, u: Path) {
    x.Runs? && exists row :: row in x.gone && row in x.noted && u == Pages(History(x.noted[row]), 1)
  }

  lemma WholeHistories(e: Event, g: Ledger, g': Ledger, x: Effect, k: Known, k': Known, u: Path)
    requires Learned(e, g, g', x, k, k') && k.bad == {} && u in k'.raw
    ensures u in k.raw || Ended(x, u)
  {
    if x.Runs? && u !in k.raw {
      var row :| row in x.gone && FromRow(u, g'.tree.pages[u], Histories(x.noted), g.table, row)
                 && |u| == |History(x.noted[row])|;
      OnePages(History(x.noted[row]));
      assert u == Pages(History(x.noted[row]), 1);
    }
  }

  /** As long as all requests read right text, the only wrong prefixes are whole histories of requests that
      have ended: of each of them the last token. */
  lemma {:induction false} OnlyLastTokens(events: seq<Event>, run: seq<Ledger>, xs: seq<Effect>, known: seq<Known>,
                                          n: nat, u: Path)
    requires KnownRun(events, run, xs, known) && known[0].raw == {} && n <= |events| && u in known[n].raw
    requires forall i :: 0 <= i <= n ==> known[i].bad == {}
    ensures exists i :: 0 <= i < n && Ended(xs[i], u)
  {
    hide *;
    KnownSizes(events, run, xs, known);
    if n > 0 {
      AtEffect(events, run, xs, known, n - 1);
      WholeHistories(events[n - 1], run[n - 1], run[n], xs[n - 1], known[n - 1], known[n], u);
      if u in known[n - 1].raw {
        OnlyLastTokens(events, run, xs, known, n - 1, u);
      }
    }
  }

  /** A request joins with a prompt that reuses all of the text `u`. */
  ghost predicate ReusesAll(g': Ledger, x: Effect, u: Path) {
    x.Joins? && x.row in g'.jobs && 0 < |u| <= g'.jobs[x.row].cached && IsPrefix(u, Pages(g'.jobs[x.row].prompt, 1))
  }

  lemma WrongIsReused(g': Ledger, x: Effect, k: Known)
    requires JoinsWrong(g', x, k)
    ensures exists u :: u in k.raw && ReusesAll(g', x, u)
  {
    var u :| u in k.raw && 0 < |u| <= g'.jobs[x.row].cached && IsPrefix(u, Pages(g'.jobs[x.row].prompt, 1));
    assert ReusesAll(g', x, u);
  }

  /** No prompt of the first `n` events goes on where an earlier answer ended. */
  ghost predicate NoneContinues(run: seq<Ledger>, xs: seq<Effect>, n: nat)
    requires |run| == |xs| + 1 && n <= |xs|
  {
    forall i, j, u {:trigger ReusesAll(run[i + 1], xs[i], u), Ended(xs[j], u)} :: 0 <= j < i < n && Ended(xs[j], u) ==>
      !ReusesAll(run[i + 1], xs[i], u)
  }

  lemma FewerContinue(run: seq<Ledger>, xs: seq<Effect>, n: nat)
    requires |run| == |xs| + 1 && n < |xs| && NoneContinues(run, xs, n + 1)
    ensures NoneContinues(run, xs, n)
    ensures forall j, u :: 0 <= j < n && Ended(xs[j], u) ==> !ReusesAll(run[n + 1], xs[n], u)
  {}

  /** Then all requests read right text, from beginning to end. */
  lemma {:induction false} FreshPrompts(events: seq<Event>, run: seq<Ledger>, xs: seq<Effect>, known: seq<Known>,
                                        n: nat)
    requires KnownRun(events, run, xs, known) && n <= |events| == |xs| && |run| == |xs| + 1 == |known|
    requires known[0].raw == {} && known[0].bad == {} && NoneContinues(run, xs, n)
    ensures forall i :: 0 <= i <= n ==> known[i].bad == {}
  {
    hide *;
    if n > 0 {
      FewerContinue(run, xs, n - 1);
      FreshPrompts(events, run, xs, known, n - 1);
      AtEffect(events, run, xs, known, n - 1);
      BadAfter(events[n - 1], run[n - 1], run[n], xs[n - 1], known[n - 1], known[n]);
      if JoinsWrong(run[n], xs[n - 1], known[n - 1]) {
        WrongIsReused(run[n], xs[n - 1], known[n - 1]);
        var u :| u in known[n - 1].raw && ReusesAll(run[n], xs[n - 1], u);
        OnlyLastTokens(events, run, xs, known, n - 1, u);
      }
    }
  }

  // ---------------------------------------------------------------- prompts that continue an answer

  /** A history that was not cached in full when its request ended is a wrong prefix from then on, unless a
      longer history that begins with it came with the same step. */
  lemma LastTokenWrong(g: Ledger, g': Ledger, rows: seq<int>, noted: Jobs, gone: set<int>, k: Known, row: int)
    requires StepsTo(g, g', rows, noted, gone) && row in gone
    requires Pages(History(noted[row]), 1) !in g.tree.pages && History(noted[row]) != []
    requires forall other :: other in gone && History(noted[row]) <= History(noted[other]) ==>
               |History(noted[other])| == |History(noted[row])|
    ensures Pages(History(noted[row]), 1) in AfterStep(g, g', rows, noted, gone, k).raw
  {
    var h := History(noted[row]);
    var u := Pages(h, 1);
    OnePages(h);
    BatchRanIs(g, g', rows, noted, gone);
    WholeIn(g.tree.pages, g'.tree.pages, Histories(noted), g.table, gone, row);
    AdoptedPage(g.tree.pages, g'.tree.pages, Histories(noted), g.table, gone, u);
    var from :| from in gone && FromRow(u, g'.tree.pages[u], Histories(noted), g.table, from);
    SameText(h, History(noted[from]));
    assert BroughtWrong(g, g', noted, gone, k.bad, u);
  }

  lemma WholeIn(c: map<Path, Page>, c': map<Path, Page>, hist: map<int, seq<int>>, table: seq<seq<int>>, rows: set<int>,
                row: int)
    requires Adopted(c, c', hist, table, rows) && row in rows && row in hist && Pages(hist[row], 1) != []
    ensures Pages(hist[row], 1) in c'
  {
    assert Cached(c', Pages(hist[row], 1)) && IsPrefix(Pages(hist[row], 1), Pages(hist[row], 1));
  }

  /** One text begins with another if its pages do. */
  lemma SameText(x: seq<int>, y: seq<int>)
    requires IsPrefix(Pages(x, 1), Pages(y, 1))
    ensures x <= y
  {
    OnePages(x);
    TextOf(y, Pages(x, 1));
    TextOf(x, Pages(x, 1));
    assert Pages(x, 1)[..|x|] == Pages(x, 1) && x[..|x|] == x;
  }

  lemma StaysWrong(e: Event, g: Ledger, g': Ledger, x: Effect, k: Known, k': Known, u: Path)
    requires Learned(e, g, g', x, k, k') && u in k.raw && u in g'.tree.pages
    ensures u in k'.raw
  {}

  lemma {:induction false} WrongAsLong(events: seq<Event>, run: seq<Ledger>, xs: seq<Effect>, known: seq<Known>,
                                       i: nat, n: nat, u: Path)
    requires KnownRun(events, run, xs, known) && i <= n <= |events| && u in known[i].raw
    requires forall j :: i <= j <= n ==> u in run[j].tree.pages
    ensures u in known[n].raw
  {
    hide *;
    KnownSizes(events, run, xs, known);
    if n > i {
      WrongAsLong(events, run, xs, known, i, n - 1, u);
      AtEffect(events, run, xs, known, n - 1);
      StaysWrong(events[n - 1], run[n - 1], run[n], xs[n - 1], known[n - 1], known[n], u);
    }
  }

  lemma ReusesWhole(e: Event, g: Ledger, g': Ledger, row: int, u: Path)
    requires e.Add? && NewRow(e, g, g', row) && u in g.tree.pages && u != []
    requires IsPrefix(u, Pages(e.prompt, 1)) && |u| < |e.prompt|
    ensures 0 < |u| <= g'.jobs[row].cached
  {
    var path :| Matched(g.tree.pages, e.prompt, path) && g'.jobs[row].cached == Min(|path|, |e.prompt| - 1);
    assert u == Pages(e.prompt, 1)[..|u|];
  }

  /** Whoever continues a cached prefix that is wrong reads wrong text: a prompt that goes on where an answer
      ended, as the next turn of a conversation does, is computed with a slot that nobody has written. */
  lemma FollowUpReadsWrong(events: seq<Event>, run: seq<Ledger>, xs: seq<Effect>, known: seq<Known>, i: nat, n: nat,
                           u: Path)
    requires KnownRun(events, run, xs, known) && i <= n < |events| && u in known[i].raw && u != []
    requires forall j :: i <= j <= n ==> u in run[j].tree.pages
    requires events[n].Add? && xs[n].Joins? && IsPrefix(u, Pages(events[n].prompt, 1)) && |u| < |events[n].prompt|
    ensures xs[n].row in known[n + 1].bad
  {
    AtEffect(events, run, xs, known, n);
    WrongAsLong(events, run, xs, known, i, n, u);
    ReusesWhole(events[n], run[n], run[n + 1], xs[n].row, u);
    assert ReadsWrong(known[n].raw, events[n].prompt, run[n + 1].jobs[xs[n].row].cached);
  }

  // ---------------------------------------------------------------- serving

  lemma IsInOrder(g: Ledger)
    requires Fit(g) && g.refused == {} && g.surplus == multiset{}
    ensures InOrder(g)
  {}

  lemma InOrderIs(g: Ledger)
    requires InOrder(g)
    ensures g.refused == {} && g.surplus == multiset{}
  {}

  /** What made room for a request took prefixes out of the tree, and put none in. */
  lemma RoomTakes(t0: NodeTree, t: NodeTree, t': NodeTree, st0: Stamps, st: Stamps, path: Path, now: int, l: Locks,
                  log: RadixLog, free: nat, need: nat)
    requires Walked(t0, t, st0, st, path, now) && MadeRoom(t, t', l, st, log, free, need)
    ensures forall u {:trigger u in t'.pages} :: u in t'.pages ==> u in t0.pages && t'.pages[u] == t0.pages[u]
  {
    WalkedGrown(t0, t, st0, st, path, now);
    if t' != t {
      EvictingRemoved(t, t', l, st, log);
    }
  }

  lemma JoinIsLearned(e: Event, g: Ledger, g': Ledger, freeRows: seq<int>, row: int, cachedLen: nat, path: Path,
                      k: Known)
    requires e.Add? && Joined(freeRows, g.jobs, g'.jobs, row, e.uid, e.prompt, e.outputLen, e.ignoreEos, cachedLen)
    requires Matched(g.tree.pages, e.prompt, path) && cachedLen == Min(|path|, |e.prompt| - 1) && e.prompt != []
    requires TableBut(g.table, g'.table, row) && g'.maxLen == g.maxLen && InOrder(g')
    requires forall u {:trigger u in g'.tree.pages} :: u in g'.tree.pages ==>
               u in g.tree.pages && g'.tree.pages[u] == g.tree.pages[u]
    ensures NewRow(e, g, g', row)
  {
    RowFits(g', row);
    hide InOrder, Matched;
  }

  lemma HistoryFits(j: Job, ext: int, eos: int, maxLen: nat)
    requires Fine(j, ext, eos) && |j.prompt| + Max(1, j.outputLen) <= maxLen
    ensures Fed(j) <= |History(j)| <= maxLen
  {}

  lemma StepWithin(g: Ledger, x: Inputs, rows: seq<Req>, noted: Jobs, ext: int, eos: int, k: Known)
    requires InOrder(g) && Holds(g, k) && FedExactly(x, rows, g.jobs, noted) && JobsFine(noted, ext, eos)
    ensures WithinRows(g, noted) && forall r :: r in g.jobs ==> Feeds(g.table, g.jobs, noted, r)
  {
    forall row | row in g.jobs
      ensures 0 <= row < |g.table| && |g.table[row]| == g.maxLen
      ensures g.jobs[row].cached <= Fed(g.jobs[row]) <= Fed(noted[row]) <= |History(noted[row])| <= g.maxLen
    {
      RowFits(g, row);
      assert RowTold(g, k.holds, k.bad, row);
      assert SameRequest(g.jobs[row], noted[row]) && Fine(noted[row], ext, eos);
      HistoryFits(noted[row], ext, eos, g.maxLen);
      if row in ReqRows(rows) {
        var i :| 0 <= i < |rows| && ReqRows(rows)[i] == row;
        assert rows[i] in rows && Between(rows[i].tableIdx, FedNow(g.jobs), FedNow(noted), noted);
      }
    }
  }

  lemma StepIsLearned(g: Ledger, g': Ledger, batch: Batch, sample: nat -> int, x: Inputs, mid: Jobs, noted: Jobs,
                      ext: int, eos: int, k: Known)
    requires InOrder(g) && Holds(g, k) && StepRel(batch, sample, g.jobs, mid, noted, ext)
    requires FedExactly(x, batch.reqs, g.jobs, noted) && JobsFine(noted, ext, eos)
    requires g'.jobs == noted - OverRows(noted, eos) && g'.table == g.table
    requires Adopted(g.tree.pages, g'.tree.pages, Histories(noted), g.table, OverRows(noted, eos))
    ensures StepsTo(g, g', ReqRows(batch.reqs), noted, OverRows(noted, eos))
  {
    hide *;
    StepWithin(g, x, batch.reqs, noted, ext, eos, k);
    FedRows(x, batch.reqs, g.jobs, noted);
    StepRows(batch, sample, g.jobs, mid, noted, ext);
    OverInside(noted, eos);
    forall row | row in OverRows(noted, eos) ensures Fed(noted[row]) == |History(noted[row])| - 1 {
      LastNotFed(noted, ext, eos, row);
    }
    HasRun(g, g', ReqRows(batch.reqs), noted, OverRows(noted, eos));
  }

  lemma FedRows(x: Inputs, reqs: seq<Req>, jobs: Jobs, noted: Jobs)
    requires FedExactly(x, reqs, jobs, noted)
    ensures GoesOn(jobs, noted) && forall r :: r in ReqRows(reqs) ==> r in jobs
    ensures forall row {:trigger noted[row]} :: row in jobs && row !in ReqRows(reqs) ==>
              row in noted && Fed(noted[row]) == Fed(jobs[row])
  {
    var rows := ReqRows(reqs);
    forall r | r in rows ensures r in jobs {
      var i :| 0 <= i < |rows| && rows[i] == r;
      assert reqs[i] in reqs && Between(reqs[i].tableIdx, FedNow(jobs), FedNow(noted), noted);
    }
  }

  lemma StepRows(batch: Batch, sample: nat -> int, jobs: Jobs, mid: Jobs, noted: Jobs, ext: int)
    requires StepRel(batch, sample, jobs, mid, noted, ext)
    ensures Distinct(ReqRows(batch.reqs))
  {}

  lemma HasRun(g: Ledger, g': Ledger, rows: seq<int>, noted: Jobs, gone: set<int>)
    requires WithinRows(g, noted) && forall r :: r in g.jobs ==> Feeds(g.table, g.jobs, noted, r)
    requires GoesOn(g.jobs, noted) && gone <= noted.Keys && g'.jobs == noted - gone && g'.table == g.table
    requires Distinct(rows) && forall r :: r in rows ==> r in g.jobs
    requires forall row {:trigger noted[row]} :: row in g.jobs && row !in rows ==>
               row in noted && Fed(noted[row]) == Fed(g.jobs[row])
    requires forall row {:trigger noted[row]} :: row in gone ==> Fed(noted[row]) == |History(noted[row])| - 1
    requires Adopted(g.tree.pages, g'.tree.pages, Histories(noted), g.table, gone)
    ensures StepsTo(g, g', rows, noted, gone)
  {}

  lemma NowInOrder(e: Engine)
    requires e.Sound() && e.surplus == multiset{}
    ensures e.refused == {} ==> InOrder(e.State())
  {
    hide *;
    e.StateIs();
    if e.refused == {} {
      FitNow(e);
      IsInOrder(e.State());
    }
  }

  lemma AddIsLearned(e: Event, g: Ledger, g': Ledger, freeRows: seq<int>, r: AddResult, row: int, cachedLen: nat,
                     path: Path, k: Known, x: Effect)
    requires e.Add? && e.prompt != [] && Matched(g.tree.pages, e.prompt, path) && InOrder(g')
    requires x == if r == NoFreeRow then Nothing else Joins(row)
    requires if r == NoFreeRow then TurnedAway(g, g', row, path)
             else && Joined(freeRows, g.jobs, g'.jobs, row, e.uid, e.prompt, e.outputLen, e.ignoreEos, cachedLen)
                  && cachedLen == Min(|path|, |e.prompt| - 1) && TableBut(g.table, g'.table, row)
                  && g'.maxLen == g.maxLen
                  && forall u {:trigger u in g'.tree.pages} :: u in g'.tree.pages ==>
                       u in g.tree.pages && g'.tree.pages[u] == g.tree.pages[u]
    ensures x.Joins? ==> NewRow(e, g, g', row)
    ensures Learned(e, g, g', x, k, if r == NoFreeRow then k else AfterJoin(g', row, k))
  {
    if r != NoFreeRow {
      JoinIsLearned(e, g, g', freeRows, row, cachedLen, path, k);
    }
  }

  method LearnAdd(e: Engine, event: Event, now: int, ghost whole: bool, ghost k: Known)
    returns (ghost x: Effect, ghost k': Known)
    requires e.Sound() && Proper(event, e.maxSeqLen) && event.Add? && (whole ==> InOrder(e.State()))
    modifies e, e.kv, e.scheduler`freeSlots, e.scheduler`jobs, e.scheduler.prefillManager`pendingList,
             e.cache`tree, e.cache`evictableSize, e.cache`protectedSize, e.cache`locks,
             e.cache.tree.paths.Keys`key, e.cache.tree.paths.Keys`value, e.cache.tree.paths.Keys`parent,
             e.cache.tree.paths.Keys`children, e.cache.tree.paths.Keys`timestamp, e.cache.tree.paths.Keys`refCount
    ensures e.Sound() && (whole && e.refused == {} ==> InOrder(e.State()))
    ensures whole && e.refused == {} ==> Learned(event, old(e.State()), e.State(), x, k, k')
    ensures fresh(e.cache.tree.paths.Keys - old(e.cache.tree.paths.Keys))
    ensures forall p :: p in e.scheduler.prefillManager.pendingList ==>
              fresh(p) || p in old(e.scheduler.prefillManager.pendingList)
    ensures old(e.scheduler.freeSlots) != [] ==>
              && x.Joins? && e.strays == old(e.strays) && x.row in e.scheduler.jobs
              && Joined(old(e.scheduler.freeSlots), old(e.scheduler.jobs), e.scheduler.jobs, x.row, event.uid,
                        event.prompt, event.outputLen, event.ignoreEos, e.scheduler.jobs[x.row].cached)
              && (AlwaysRoom(old(e.State()), e.scheduler.maxRunningReq, event.prompt) ==> e.refused == old(e.refused))
  {
    hide *;
    ghost var g, freeRows, st, free := e.State(), e.scheduler.freeSlots, e.cache.NodeStamps(), |e.kv.freeSlots|;
    e.StateIs();
    ProperIs(event, e.maxSeqLen);
    var r;
    ghost var row, cachedLen, path, room;
    r, row, cachedLen, path, room := e.AddRequest(event.uid, event.prompt, event.outputLen, event.ignoreEos, now);
    e.StateIs();
    x, k' := if r == NoFreeRow then Nothing else Joins(row), k;
    if r != NoFreeRow {
      JoinedFacts(freeRows, g.jobs, e.scheduler.jobs, row, event.uid, event.prompt, event.outputLen, event.ignoreEos,
                  cachedLen);
    }
    if whole && e.refused == {} {
      InOrderIs(g);
      NowInOrder(e);
      if r != NoFreeRow {
        ReuseFits(|event.prompt|, event.outputLen, |path|, cachedLen, e.maxSeqLen);
        RoomTakes(g.tree, room.tree, e.cache.tree, st, room.stamps, path, now, e.cache.locks, room.log, free,
                  e.maxSeqLen - cachedLen);
      }
      AddIsLearned(event, g, e.State(), freeRows, r, row, cachedLen, path, k, x);
      if r != NoFreeRow {
        NewRowFits(event, g, e.State(), row);
        k' := AfterJoin(e.State(), row, k);
      }
    }
  }

  lemma ReuseFits(n: nat, outputLen: int, matched: nat, cachedLen: nat, maxLen: nat)
    requires n + Max(1, outputLen) <= maxLen && cachedLen == Min(matched, n - 1)
    ensures cachedLen <= maxLen
  {}

  lemma NewRowFits(e: Event, g: Ledger, g': Ledger, row: int)
    requires e.Add? && NewRow(e, g, g', row)
    ensures row in g'.jobs && 0 <= row < |g'.table| && g'.jobs[row].cached <= |g'.table[row]|
  {}

  method LearnStep(e: Engine, sample: nat -> int, now: int, ghost whole: bool, ghost k: Known)
    returns (ghost x: Effect, ghost k': Known, ghost batch: Option<Batch>, ghost mid: Jobs)
    requires e.Sound() && (whole ==> InOrder(e.State()) && Holds(e.State(), k))
    modifies e, e.kv, e.scheduler`freeSlots, e.scheduler`jobs, e.scheduler.prefillManager`pendingList,
             (set p | p in e.scheduler.prefillManager.pendingList)`chunkedReq,
             e.scheduler.decodeManager`runningReqs, (set r | r in e.scheduler.decodeManager.runningReqs),
             e.cache`tree, e.cache`evictableSize, e.cache`protectedSize, e.cache`locks,
             e.cache.tree.paths.Keys`key, e.cache.tree.paths.Keys`value, e.cache.tree.paths.Keys`parent,
             e.cache.tree.paths.Keys`children, e.cache.tree.paths.Keys`timestamp, e.cache.tree.paths.Keys`refCount
    ensures e.strays == old(e.strays)
    ensures e.Sound() && (whole ==> InOrder(e.State()) && Learned(Advance, old(e.State()), e.State(), x, k, k'))
    ensures whole && batch.Some? ==>
              && x.Runs?
              && StepRel(batch.value, sample, old(e.scheduler.jobs), mid, x.noted, e.scheduler.maxExtendTokens)
              && JobsFine(x.noted, e.scheduler.maxExtendTokens, e.eos) && x.gone == OverRows(x.noted, e.eos)
              && e.scheduler.jobs == x.noted - x.gone
    ensures e.scheduler.maxExtendTokens > 0 && JobsFit(old(e.scheduler.jobs), e.scheduler.cacheBudget) ==>
              (batch == None <==> old(e.scheduler.jobs) == map[])
    ensures fresh(e.cache.tree.paths.Keys - old(e.cache.tree.paths.Keys))
    ensures forall p :: p in e.scheduler.prefillManager.pendingList ==> p in old(e.scheduler.prefillManager.pendingList)
    ensures forall r :: r in e.scheduler.decodeManager.runningReqs ==>
              fresh(r) || r in old(e.scheduler.decodeManager.runningReqs)
  {
    hide *;
    ghost var g, ext := e.State(), e.scheduler.maxExtendTokens;
    e.StateIs();
    var ran, finished, inputs;
    ghost var noted;
    ran, finished, inputs, mid, noted := e.Step(sample, now);
    batch := ran;
    e.StateIs();
    x, k' := Nothing, k;
    if whole {
      InOrderIs(g);
      NoneRefused(g.surplus, e.refused, e.surplus, e.scheduler.jobs.Keys);
      NowInOrder(e);
      NothingLearned(Advance, g, k);
    }
    if whole && batch.Some? {
      ghost var rows, gone := ReqRows(batch.value.reqs), OverRows(noted, e.eos);
      StepIsLearned(g, e.State(), batch.value, sample, inputs, mid, noted, ext, e.eos, k);
      x, k' := Runs(rows, noted, gone), AfterStep(g, e.State(), rows, noted, gone, k);
      IsLearned(Advance, g, e.State(), x, k, k');
    }
  }

  lemma NoneRefused(surplus0: multiset<int>, refused: set<int>, surplus: multiset<int>, live: set<int>)
    requires Accounted({}, surplus0, refused, surplus, live)
    ensures refused == {} && surplus == surplus0
  {}

  lemma IsLearned(e: Event, g: Ledger, g': Ledger, x: Effect, k: Known, k': Known)
    requires e.Advance? && x.Runs? && StepsTo(g, g', x.rows, x.noted, x.gone)
             && k' == AfterStep(g, g', x.rows, x.noted, x.gone, k)
    ensures Learned(e, g, g', x, k, k')
  {}

  lemma NothingLearned(e: Event, g: Ledger, k: Known)
    ensures Learned(e, g, g, Nothing, k, k)
  {}

  lemma AbortIsLearned(e: Event, g: Ledger, g': Ledger, row: Option<int>, k: Known)
    requires e.Abort? && (row == None ==> g' == g) && (row.Some? ==> GivenUp(g, g', row.value))
    ensures row.Some? ==> g'.surplus == g.surplus
    ensures Learned(e, g, g', if row == None then Nothing else Drops(row.value), k,
                    if row == None then k else k.(bad := k.bad - {row.value}))
  {}

  /** One event, and what is known after it. */
  method LearnOne(e: Engine, event: Event, sample: nat -> int, now: int, ghost whole: bool, ghost k: Known)
    returns (ghost x: Effect, ghost k': Known)
    requires e.Sound() && Proper(event, e.maxSeqLen) && (whole ==> InOrder(e.State()) && Holds(e.State(), k))
    modifies e, e.kv, e.scheduler`freeSlots, e.scheduler`jobs, e.scheduler.prefillManager`pendingList,
             (set p | p in e.scheduler.prefillManager.pendingList)`chunkedReq,
             e.scheduler.decodeManager`runningReqs, (set r | r in e.scheduler.decodeManager.runningReqs),
             e.cache`tree, e.cache`evictableSize, e.cache`protectedSize, e.cache`locks,
             e.cache.tree.paths.Keys`key, e.cache.tree.paths.Keys`value, e.cache.tree.paths.Keys`parent,
             e.cache.tree.paths.Keys`children, e.cache.tree.paths.Keys`timestamp, e.cache.tree.paths.Keys`refCount
    ensures e.Sound() && (whole && e.refused == {} ==> InOrder(e.State()))
    ensures whole && e.refused == {} ==> Learned(event, old(e.State()), e.State(), x, k, k')
    ensures fresh(e.cache.tree.paths.Keys - old(e.cache.tree.paths.Keys))
    ensures forall p :: p in e.scheduler.prefillManager.pendingList ==>
              fresh(p) || p in old(e.scheduler.prefillManager.pendingList)
    ensures forall r :: r in e.scheduler.decodeManager.runningReqs ==>
              fresh(r) || r in old(e.scheduler.decodeManager.runningReqs)
  {
    hide *;
    ghost var g := e.State();
    e.StateIs();
    match event
    case Add(uid, prompt, outputLen, ignoreEos) =>
      x, k' := LearnAdd(e, event, now, whole, k);
    case Advance =>
      ghost var batch, mid;
      x, k', batch, mid := LearnStep(e, sample, now, whole, k);
    case Abort(uid) =>
      var ok;
      ghost var row;
      ok, row := e.AbortRequest(uid);
      e.StateIs();
      x := if row == None then Nothing else Drops(row.value);
      k' := if row == None then k else k.(bad := k.bad - {row.value});
      AbortIsLearned(event, g, e.State(), row, k);
      if whole {
        InOrderIs(g);
        NowInOrder(e);
      }
  }

  /** The first `n` events as a run that has come to `g`. */
  ghost predicate KnownSoFar(events: seq<Event>, n: nat, run: seq<Ledger>, xs: seq<Effect>, known: seq<Known>,
                             g: Ledger)
    requires n <= |events|
  {
    KnownRun(events[..n], run, xs, known) && run[n] == g && Holds(g, known[n])
  }

  lemma StartKnown(events: seq<Event>, g: Ledger, k: Known)
    requires InOrder(g) && Holds(g, k)
    ensures KnownSoFar(events, 0, [g], [], [k], g)
  {}

  lemma IsKnownRun(events: seq<Event>, run: seq<Ledger>, xs: seq<Effect>, known: seq<Known>)
    requires |run| == |known| == |events| + 1 && |xs| == |events|
    requires forall i :: 0 <= i < |run| ==> InOrder(run[i])
    requires forall i {:trigger LearnedAt(events, run, xs, known, i)} :: 0 <= i < |events| ==>
               LearnedAt(events, run, xs, known, i)
    ensures KnownRun(events, run, xs, known)
  {}

  lemma LongerKnown(events: seq<Event>, run: seq<Ledger>, xs: seq<Effect>, known: seq<Known>, e: Event, g': Ledger,
                    x: Effect, k': Known)
    requires KnownRun(events, run, xs, known) && InOrder(g') && run != [] && known != []
    requires Learned(e, run[|run| - 1], g', x, known[|known| - 1], k')
    ensures KnownRun(events + [e], run + [g'], xs + [x], known + [k'])
  {
    hide *;
    KnownSizes(events, run, xs, known);
    AllInOrder(events, run, xs, known);
    forall i | 0 <= i < |events| + 1
      ensures LearnedAt(events + [e], run + [g'], xs + [x], known + [k'], i)
    {
      if i < |events| {
        AtEffect(events, run, xs, known, i);
      }
      IsLearnedAt(events + [e], run + [g'], xs + [x], known + [k'], i);
    }
    IsKnownRun(events + [e], run + [g'], xs + [x], known + [k']);
  }

  lemma IsLearnedAt(events: seq<Event>, run: seq<Ledger>, xs: seq<Effect>, known: seq<Known>, i: nat)
    requires |run| == |known| == |events| + 1 && |xs| == |events| && i < |events|
    requires Learned(events[i], run[i], run[i + 1], xs[i], known[i], known[i + 1])
    ensures LearnedAt(events, run, xs, known, i)
  {}

  lemma AllInOrder(events: seq<Event>, run: seq<Ledger>, xs: seq<Effect>, known: seq<Known>)
    requires KnownRun(events, run, xs, known)
    ensures |run| == |events| + 1 && forall i :: 0 <= i < |run| ==> InOrder(run[i])
  {}

  lemma MoreKnown(events: seq<Event>, n: nat, run: seq<Ledger>, xs: seq<Effect>, known: seq<Known>, g: Ledger,
                  g': Ledger, x: Effect, k': Known)
    requires n < |events| && KnownSoFar(events, n, run, xs, known, g) && InOrder(g')
    requires |known| == n + 1 && Learned(events[n], g, g', x, known[n], k')
    ensures KnownSoFar(events, n + 1, run + [g'], xs + [x], known + [k'], g')
  {
    hide Holds, Learned, InOrder, KnownRun;
    KnownSizes(events[..n], run, xs, known);
    AllInOrder(events[..n], run, xs, known);
    LearnedHolds(events[n], g, g', x, known[n], k');
    LongerKnown(events[..n], run, xs, known, events[n], g', x, k');
    assert events[..n + 1] == events[..n] + [events[n]];
  }

  lemma AllKnown(events: seq<Event>, run: seq<Ledger>, xs: seq<Effect>, known: seq<Known>, g: Ledger)
    requires KnownSoFar(events, |events|, run, xs, known, g)
    ensures KnownRun(events, run, xs, known) && |run| == |events| + 1 && run[|events|] == g
  {
    assert events[..|events|] == events;
  }

  ghost predicate NoneTurned(run: seq<Ledger>) {
    forall i :: 0 <= i < |run| ==> run[i].refused == {}
  }

  lemma NoneTurnedMore(run: seq<Ledger>, g: Ledger)
    ensures NoneTurned(run + [g]) <==> NoneTurned(run) && g.refused == {}
  {
    if NoneTurned(run + [g]) {
      assert (run + [g])[|run|] == g;
      assert forall i :: 0 <= i < |run| ==> (run + [g])[i] == run[i];
    }
  }

  /** The record of a run up to the event `n`; as long as no request was refused, it says what is known. */
  ghost predicate OnRecord(events: seq<Event>, n: nat, run: seq<Ledger>, xs: seq<Effect>, known: seq<Known>, g: Ledger)
    requires n <= |events|
  {
    && |run| == n + 1 == |known| && |xs| == n && run[n] == g
    && (NoneTurned(run) ==> KnownSoFar(events, n, run, xs, known, g))
  }

  lemma OnRecordIs(events: seq<Event>, n: nat, run: seq<Ledger>, xs: seq<Effect>, known: seq<Known>, g: Ledger)
    requires n <= |events| && OnRecord(events, n, run, xs, known, g)
    ensures |run| == n + 1 == |known| && |xs| == n && run[n] == g
    ensures NoneTurned(run) ==> InOrder(g) && Holds(g, known[n]) && KnownSoFar(events, n, run, xs, known, g)
  {}

  lemma StartRecord(events: seq<Event>, g: Ledger, k: Known)
    requires InOrder(g) && Holds(g, k)
    ensures OnRecord(events, 0, [g], [], [k], g)
  {
    StartKnown(events, g, k);
  }

  lemma MoreRecord(events: seq<Event>, n: nat, run: seq<Ledger>, xs: seq<Effect>, known: seq<Known>, g: Ledger,
                   g': Ledger, x: Effect, k': Known)
    requires n < |events| && OnRecord(events, n, run, xs, known, g)
    requires NoneTurned(run) && g'.refused == {} ==> InOrder(g') && Learned(events[n], g, g', x, known[n], k')
    ensures OnRecord(events, n + 1, run + [g'], xs + [x], known + [k'], g')
  {
    hide *;
    OnRecordIs(events, n, run, xs, known, g);
    NoneTurnedMore(run, g');
    if NoneTurned(run) && g'.refused == {} {
      MoreKnown(events, n, run, xs, known, g, g', x, k');
    }
    IsOnRecord(events, n + 1, run + [g'], xs + [x], known + [k'], g');
  }

  lemma IsOnRecord(events: seq<Event>, n: nat, run: seq<Ledger>, xs: seq<Effect>, known: seq<Known>, g: Ledger)
    requires n <= |events| && |run| == n + 1 == |known| && |xs| == n && run[n] == g
    requires NoneTurned(run) ==> KnownSoFar(events, n, run, xs, known, g)
    ensures OnRecord(events, n, run, xs, known, g)
  {}

  lemma WholeRecord(events: seq<Event>, run: seq<Ledger>, xs: seq<Effect>, known: seq<Known>, g: Ledger)
    requires OnRecord(events, |events|, run, xs, known, g) && NoneTurned(run) && Holds(run[0], known[0])
    ensures KnownRun(events, run, xs, known) && forall i :: 0 <= i <= |events| ==> Holds(run[i], known[i])
  {
    hide *;
    OnRecordIs(events, |events|, run, xs, known, g);
    AllKnown(events, run, xs, known, g);
    forall i | 0 <= i <= |events| ensures Holds(run[i], known[i]) {
      RunHolds(events, run, xs, known, i);
    }
  }

  /** Serve any sequence of events. As long as no request is refused, all that is known of the slots is exact
      between any two events: which cached prefixes are right, and which requests read right text. */
  method ServeKnown(e: Engine, events: seq<Event>, model: (nat, nat) -> int, clock: nat -> int, ghost k: Known)
    returns (ghost run: seq<Ledger>, ghost xs: seq<Effect>, ghost known: seq<Known>)
    requires e.Sound() && forall i :: 0 <= i < |events| ==> Proper(events[i], e.maxSeqLen)
    requires InOrder(e.State()) && Holds(e.State(), k)
    modifies e, e.kv, e.scheduler`freeSlots, e.scheduler`jobs, e.scheduler.prefillManager`pendingList,
             (set p | p in e.scheduler.prefillManager.pendingList)`chunkedReq,
             e.scheduler.decodeManager`runningReqs, (set r | r in e.scheduler.decodeManager.runningReqs),
             e.cache`tree, e.cache`evictableSize, e.cache`protectedSize, e.cache`locks,
             e.cache.tree.paths.Keys`key, e.cache.tree.paths.Keys`value, e.cache.tree.paths.Keys`parent,
             e.cache.tree.paths.Keys`children, e.cache.tree.paths.Keys`timestamp, e.cache.tree.paths.Keys`refCount
    ensures e.Sound() && |run| == |events| + 1 && run[0] == old(e.State()) && run[|events|] == e.State()
    ensures NoneTurned(run) ==>
              && KnownRun(events, run, xs, known) && known[0] == k
              && (forall i :: 0 <= i <= |events| ==> Holds(run[i], known[i]))
  {
    hide *;
    ghost var line, running := e.scheduler.prefillManager.pendingList, e.scheduler.decodeManager.runningReqs;
    ghost var start := e.State();
    run, xs, known := [start], [], [k];
    StartRecord(events, start, k);
    for i := 0 to |events|
      invariant e.Sound() && OnRecord(events, i, run, xs, known, e.State())
      invariant run != [] && known != [] && run[0] == start && known[0] == k
      invariant fresh(e.cache.tree.paths.Keys - old(e.cache.tree.paths.Keys))
      invariant forall p :: p in e.scheduler.prefillManager.pendingList ==> fresh(p) || p in line
      invariant forall r :: r in e.scheduler.decodeManager.runningReqs ==> fresh(r) || r in running
    {
      ghost var g := e.State();
      OnRecordIs(events, i, run, xs, known, g);
      ghost var x, k' := LearnOne(e, events[i], (n: nat) => model(i, n), clock(i), NoneTurned(run), known[i]);
      e.StateIs();
      MoreRecord(events, i, run, xs, known, g, e.State(), x, k');
      run, xs, known := run + [e.State()], xs + [x], known + [k'];
    }
    OnRecordIs(events, |events|, run, xs, known, e.State());
    if NoneTurned(run) {
      WholeRecord(events, run, xs, known, e.State());
    }
  }

  // ---------------------------------------------------------------- a run in which it happens

  lemma NothingKnown(g: Ledger)
    requires g.jobs == map[] && g.tree.pages == map[]
    ensures Holds(g, Known(map[], {}, {}))
  {}

  /** A request without output got the token or none. */
  lemma TokenOrNone(batch: Batch, jobs: Jobs, mid: Jobs, noted: Jobs, ext: int, row: int, tok: int)
    requires StepRel(batch, _ => tok, jobs, mid, noted, ext) && row in jobs && jobs[row].out == []
    ensures row in noted && (noted[row].out == [] || noted[row].out == [tok])
  {
    hide StepRel;
    var rows := ReqRows(batch.reqs);
    if row in rows {
      var i :| 0 <= i < |rows| && rows[i] == row;
      StepOf(batch, _ => tok, jobs, mid, noted, ext, i);
    } else {
      StillRow(batch, _ => tok, jobs, mid, noted, ext, row);
    }
  }

  /** The one request of a step that ends got its one token. */
  lemma OneToken(batch: Batch, jobs: Jobs, mid: Jobs, noted: Jobs, ext: int, eos: int, row: int, tok: int)
    requires StepRel(batch, _ => tok, jobs, mid, noted, ext) && row in jobs && row in OverRows(noted, eos)
    requires jobs[row].out == []
    ensures row in noted && noted[row].prompt == jobs[row].prompt && noted[row].out == [tok]
  {
    hide StepRel;
    StepGoesOn(batch, _ => tok, jobs, mid, noted, ext);
    TokenOrNone(batch, jobs, mid, noted, ext, row, tok);
  }

  /** The step with which the one request [7] ends, answered by 8. */
  lemma Answered(g: Ledger, g': Ledger, x: Effect, k: Known, k': Known, batch: Batch, mid: Jobs, freeRows: seq<int>,
                 row: int, eos: int)
    requires InOrder(g) && Learned(Advance, g, g', x, k, k') && x.Runs? && g.tree.pages == map[]
    requires Joined(freeRows, map[], g.jobs, row, 1, [7], 1, true, 0) && row in g.jobs
    requires StepRel(batch, _ => 8, g.jobs, mid, x.noted, 1) && JobsFine(g.jobs, 1, eos) && AtRest(g.jobs, eos)
    requires JobsFine(x.noted, 1, eos) && x.gone == OverRows(x.noted, eos) && g'.jobs == x.noted - x.gone
    requires JobsFine(g'.jobs, 1, eos) && AtRest(g'.jobs, eos)
    ensures g'.jobs == map[] && Pages([7, 8], 1) in k'.raw && Pages([7, 8], 1) in g'.tree.pages
    ensures Pages([7, 8, 9], 1) !in g'.tree.pages
  {
    hide *;
    OneShort(g.jobs, freeRows, row);
    LastStep(batch, _ => 8, g.jobs, mid, x.noted, g'.jobs, 1, eos);
    OneToken(batch, g.jobs, mid, x.noted, 1, eos, row, 8);
    assert forall r :: r in g.jobs.Keys <==> r == row;
    assert x.gone == {row};
    OnlyAnswer(g, g', x, k, k', row);
  }

  /** One request alone, of one token in and one token out. */
  lemma OneShort(jobs: Jobs, freeRows: seq<int>, row: int)
    requires Joined(freeRows, map[], jobs, row, 1, [7], 1, true, 0)
    ensures jobs != map[] && JobsFit(jobs, 10) && TotalNeed(jobs, 1) <= 1 && row in jobs && jobs[row].prompt == [7]
    ensures jobs[row].out == [] && jobs[row].outputLen == 1 && forall r :: r in jobs <==> r == row
  {
    Runs.OneShort(map[], jobs, freeRows, row, 1, 0);
  }

  lemma RunsIs(e: Event, g: Ledger, g': Ledger, x: Effect, k: Known, k': Known)
    requires Learned(e, g, g', x, k, k') && x.Runs?
    ensures StepsTo(g, g', x.rows, x.noted, x.gone) && k' == AfterStep(g, g', x.rows, x.noted, x.gone, k)
    ensures x.gone <= x.noted.Keys
  {}

  /** The first history that comes into an empty tree: it is wrong, and nothing else is there. */
  lemma FirstHistory(g: Ledger, g': Ledger, rows: seq<int>, noted: Jobs, k: Known, row: int)
    requires StepsTo(g, g', rows, noted, {row}) && row in noted && g.tree.pages == map[] && History(noted[row]) != []
    ensures var u := Pages(History(noted[row]), 1);
            u in AfterStep(g, g', rows, noted, {row}, k).raw && u in g'.tree.pages
    ensures forall u :: u in g'.tree.pages ==> IsPrefix(u, Pages(History(noted[row]), 1))
  {
    LastTokenWrong(g, g', rows, noted, {row}, k, row);
    BatchRanIs(g, g', rows, noted, {row});
    hide StepsTo, BatchRan, WithinRows, Pages;
    forall u | u in g'.tree.pages ensures IsPrefix(u, Pages(History(noted[row]), 1)) {
      AdoptedPage(g.tree.pages, g'.tree.pages, Histories(noted), g.table, {row}, u);
    }
    RawIn(g, g', rows, noted, {row}, k);
  }

  lemma RawIn(g: Ledger, g': Ledger, rows: seq<int>, noted: Jobs, gone: set<int>, k: Known)
    requires StepsTo(g, g', rows, noted, gone)
    ensures AfterStep(g, g', rows, noted, gone, k).raw <= g'.tree.pages.Keys
  {}

  lemma OnlyAnswer(g: Ledger, g': Ledger, x: Effect, k: Known, k': Known, row: int)
    requires Learned(Advance, g, g', x, k, k') && x.Runs? && g.tree.pages == map[] && x.gone == {row}
    requires row in x.noted && x.noted[row].prompt == [7] && x.noted[row].out == [8]
    ensures Pages([7, 8], 1) in k'.raw && Pages([7, 8], 1) in g'.tree.pages && Pages([7, 8, 9], 1) !in g'.tree.pages
  {
    AnswerIs(x.noted[row]);
    hide *;
    RunsIs(Advance, g, g', x, k, k');
    FirstHistory(g, g', x.rows, x.noted, k, row);
    OnePages([7, 8]);
    OnePages([7, 8, 9]);
    NoPrefix(Pages([7, 8, 9], 1), Pages([7, 8], 1));
  }

  lemma AnswerIs(j: Job)
    requires j.prompt == [7] && j.out == [8]
    ensures History(j) == [7, 8]
  {}

  lemma NoPrefix(u: Path, p: Path)
    requires |u| > |p|
    ensures !IsPrefix(u, p)
  {}

  lemma JoinedReadsWrong(e: Event, g: Ledger, g': Ledger, row: int, k: Known, k': Known, u: Path)
    requires e.Add? && Learned(e, g, g', Joins(row), k, k') && u in k.raw && u in g.tree.pages && u != []
    requires IsPrefix(u, Pages(e.prompt, 1)) && |u| < |e.prompt|
    ensures row in k'.bad
  {
    ReusesWhole(e, g, g', row, u);
    assert ReadsWrong(k.raw, e.prompt, g'.jobs[row].cached);
  }

  lemma NoneReused(e: Event, g: Ledger, g': Ledger, x: Effect, k: Known, k': Known)
    requires e.Add? && x.Joins? && Learned(e, g, g', x, k, k') && g.tree.pages == map[]
    ensures x.row in g'.jobs && g'.jobs[x.row].cached == 0 && g'.tree.pages == map[]
  {
    var path :| Matched(g.tree.pages, e.prompt, path) && g'.jobs[x.row].cached == Min(|path|, |e.prompt| - 1);
    if path != [] {
      PrefixIn(g.tree.pages, path);
    }
  }

  lemma Continues()
    ensures IsPrefix(Pages([7, 8], 1), Pages([7, 8, 9], 1)) && |Pages([7, 8], 1)| == 2
  {
    PagesOfPrefix([7, 8], [7, 8, 9]);
    OnePages([7, 8]);
  }

  lemma Small(uid: int, prompt: seq<int>)
    requires 0 < |prompt| <= 3
    ensures Proper(Add(uid, prompt, 1, true), 4)
  {}

  /** An engine that was asked [7]. */
  method FirstAsked(eos: int, born: int)
    returns (e: Engine, ghost k: Known, ghost freeRows: seq<int>, ghost row: int)
    ensures fresh(e) && fresh(e.scheduler) && fresh(e.scheduler.prefillManager) && fresh(e.scheduler.decodeManager)
    ensures fresh(e.cache) && fresh(e.kv) && fresh(e.cache.tree.paths.Keys)
    ensures fresh(set p | p in e.scheduler.prefillManager.pendingList)
            && fresh(set r | r in e.scheduler.decodeManager.runningReqs)
    ensures e.Sound() && e.strays == 0 && InOrder(e.State()) && Holds(e.State(), k) && e.cache.tree.pages == map[]
    ensures e.scheduler.maxRunningReq == 1 && e.scheduler.maxExtendTokens == 1 && e.scheduler.cacheBudget == 10
    ensures e.maxSeqLen == 4 && e.kv.numPages == 5 && e.eos == eos
    ensures Joined(freeRows, map[], e.scheduler.jobs, row, 1, [7], 1, true, 0) && row in e.scheduler.jobs
  {
    hide *;
    e := new Engine(1, 1, 4, 10, 4, eos, born);
    var first := Add(1, [7], 1, true);
    Small(1, [7]);
    e.ValidIs();
    e.StateIs();
    NowInOrder(e);
    ghost var g, k0 := e.State(), Known(map[], {}, {});
    NothingKnown(g);
    FreeRow(e);
    RoomInOneRow(e, [7]);
    freeRows := e.scheduler.freeSlots;
    ghost var x;
    x, k := LearnAdd(e, first, 0, true, k0);
    e.StateIs();
    row := x.row;
    LearnedHolds(first, g, e.State(), x, k0, k);
    NoneReused(first, g, e.State(), x, k0, k);
  }

  /** An engine that has answered the prompt [7] with 8. */
  method FirstTurn(eos: int, born: int) returns (e: Engine, ghost k: Known)
    ensures fresh(e) && fresh(e.scheduler) && fresh(e.scheduler.prefillManager) && fresh(e.scheduler.decodeManager)
    ensures fresh(e.cache) && fresh(e.kv) && fresh(e.cache.tree.paths.Keys)
    ensures fresh(set p | p in e.scheduler.prefillManager.pendingList)
    ensures e.Valid() && InOrder(e.State()) && Holds(e.State(), k) && e.scheduler.jobs == map[]
    ensures e.scheduler.maxRunningReq == 1 && e.maxSeqLen == 4 && e.kv.numPages == 5
    ensures Pages([7, 8], 1) in k.raw && Pages([7, 8], 1) in e.cache.tree.pages
    ensures Pages([7, 8, 9], 1) !in e.cache.tree.pages
  {
    hide *;
    ghost var k1, freeRows, row;
    e, k1, freeRows, row := FirstAsked(eos, born);
    e.StateIs();
    ghost var g := e.State();
    OneShort(e.scheduler.jobs, freeRows, row);
    e.RestAfter();
    e.JobsAre();
    ghost var x, batch, mid;
    x, k, batch, mid := LearnStep(e, _ => 8, 1, true, k1);
    e.StateIs();
    e.RestAfter();
    e.JobsAre();
    Answered(g, e.State(), x, k1, k, batch.value, mid, freeRows, row, eos);
    LearnedHolds(Advance, g, e.State(), x, k1, k);
    InOrderIs(e.State());
    e.ValidIs();
  }

  /** Two turns of a conversation. The prompt [7] was answered by 8; the next prompt [7, 8, 9] reuses the slot
      of the 8, which nobody has written. */
  method NextTurn(eos: int, born: int) returns (e: Engine, ghost k: Known, ghost row: int)
    ensures fresh(e) && e.Sound() && InOrder(e.State()) && Holds(e.State(), k)
    ensures row in e.scheduler.jobs && e.scheduler.jobs[row].prompt == [7, 8, 9] && row in k.bad
  {
    hide *;
    ghost var k2;
    e, k2 := FirstTurn(eos, born);
    var second := Add(2, [7, 8, 9], 1, true);
    Small(2, [7, 8, 9]);
    e.ValidIs();
    e.StateIs();
    FreeRow(e);
    RoomInOneRow(e, [7, 8, 9]);
    ghost var g2 := e.State();
    ghost var x, k3 := LearnAdd(e, second, 2, true, k2);
    e.StateIs();
    LearnedHolds(second, g2, e.State(), x, k2, k3);
    Continues();
    JoinedReadsWrong(second, g2, e.State(), x.row, k2, k3, Pages([7, 8], 1));
    k, row := k3, x.row;
    NewRowPrompt(second, g2, e.State(), x, k2, k3);
  }

  lemma NewRowPrompt(e: Event, g: Ledger, g': Ledger, x: Effect, k: Known, k': Known)
    requires e.Add? && x.Joins? && Learned(e, g, g', x, k, k')
    ensures x.row in g'.jobs && g'.jobs[x.row].prompt == e.prompt
  {}
}
