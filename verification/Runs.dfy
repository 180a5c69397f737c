/** Whole runs of the engine: requests that come, steps, aborts, in any order and number. */
module Runs {
  import opened Arith
  import opened Finite
  import opened PageTree
  import opened Paging
  import opened PathLocks
  import opened RadixNodes
  import opened Requests
  import opened Prefill
  import opened Decode
  import opened Scheduling
  import opened Stepping
  import opened Progress
  import opened SlotLedger
  import opened EngineLedger
  import opened Engine

  /** What a caller may do. */
  datatype Event = Add(uid: int, prompt: seq<int>, outputLen: int, ignoreEos: bool) | Advance | Abort(uid: int)

  /** The request has a prompt and fits its row of `m` positions. */
  predicate Proper(e: Event, m: nat) {
    e.Add? ==> e.prompt != [] && |e.prompt| + Max(1, e.outputLen) <= m
  }

  // ---------------------------------------------------------------- one event

  /** A request came. Without a free row only a lock on its match is left; else it is live, and refused
      exactly if what its match leaves does not fit the room there is. */
  ghost predicate AddTurn(e: Event, g: Ledger, g': Ledger, row: int, path: Path)
    requires e.Add?
  {
    && Matched(g.tree.pages, e.prompt, path) && row !in g.locks && g'.locks == g.locks[row := path]
    && g'.surplus == g.surplus
    && if row < 0 then g'.jobs == g.jobs && g'.refused == g.refused
       else && row !in g.jobs && g'.jobs.Keys == g.jobs.Keys + {row}
            && g'.refused == g.refused + if g.maxLen - Min(|path|, |e.prompt| - 1) <= Room(g, row, path) then {}
               else {row}
  }

  /** A step ran: requests may have ended, and no other lock is gone. */
  ghost predicate AdvanceTurn(g: Ledger, g': Ledger) {
    && g'.jobs.Keys <= g.jobs.Keys && g'.locks == g.locks - (g.jobs.Keys - g'.jobs.Keys)
    && Accounted(g.refused, g.surplus, g'.refused, g'.surplus, g'.jobs.Keys)
  }

  ghost predicate AbortTurn(e: Event, g: Ledger, g': Ledger)
    requires e.Abort?
  {
    if forall row :: row in g.jobs ==> g.jobs[row].uid != e.uid then g' == g
    else exists row :: row in g.jobs && g.jobs[row].uid == e.uid && GivenUp(g, g', row)
  }

  ghost predicate Turn(e: Event, g: Ledger, g': Ledger) {
    match e
    case Add(_, _, _, _) => exists row, path :: AddTurn(e, g, g', row, path)
    case Advance => AdvanceTurn(g, g')
    case Abort(_) => AbortTurn(e, g, g')
  }

  /** What every state of the engine satisfies. */
  ghost predicate Fit(g: Ledger) {
    && LedgerOk(g, g.jobs.Keys) && g.jobs.Keys <= g.locks.Keys && [] !in g.tree.pages
    && (forall u :: u in g.tree.pages ==> |g.tree.pages[u]| == 1)
    && (forall i :: i in g.locks && i !in g.jobs ==> i < 0) && forall i :: i in g.locks ==>
         Cached(g.tree.pages, g.locks[i])
  }

  /** `run` lists the states before the first event, between events, and after the last. */
  ghost predicate IsRun(events: seq<Event>, run: seq<Ledger>) {
    && |run| == |events| + 1 && (forall i :: 0 <= i < |run| ==> Fit(run[i]))
    && forall i :: 0 <= i < |events| ==> Turn(events[i], run[i], run[i + 1])
  }

  lemma AtTurn(events: seq<Event>, run: seq<Ledger>, i: nat)
    requires IsRun(events, run) && i < |events|
    ensures |run| == |events| + 1 && Fit(run[i]) && Fit(run[i + 1]) && Turn(events[i], run[i], run[i + 1])
  {}

  lemma RunLength(events: seq<Event>, run: seq<Ledger>)
    requires IsRun(events, run)
    ensures |run| == |events| + 1
  {}

  // ---------------------------------------------------------------- what runs keep

  /** In this event a step ended a request that had been refused. */
  ghost predicate Spoils(events: seq<Event>, run: seq<Ledger>, i: nat)
    requires |run| == |events| + 1 && i < |events|
  {
    events[i].Advance? && !(run[i].refused <= run[i + 1].jobs.Keys)
  }

  lemma TurnSurplus(e: Event, g: Ledger, g': Ledger)
    requires Turn(e, g, g')
    ensures Grows(g.surplus, g'.surplus, e.Advance? && !(g.refused <= g'.jobs.Keys))
  {}

  lemma SpoilsIs(events: seq<Event>, run: seq<Ledger>, i: nat)
    requires |run| == |events| + 1 && i < |events|
    ensures Spoils(events, run, i) <==> events[i].Advance? && !(run[i].refused <= run[i + 1].jobs.Keys)
  {}

  lemma GrowsOn(a: multiset<int>, b: multiset<int>, c: multiset<int>, hit: bool)
    requires a <= b && Grows(b, c, hit)
    ensures a <= c && (c == a <==> b == a && !hit)
  {}

  lemma SurplusOf(events: seq<Event>, run: seq<Ledger>, n: nat)
    requires IsRun(events, run) && n <= |events|
    ensures run[0].surplus <= run[n].surplus
    ensures run[n].surplus == run[0].surplus <==> forall i :: 0 <= i < n ==> !Spoils(events, run, i)
  {
    hide *;
    RunLength(events, run);
    for k := 0 to n
      invariant |run| == |events| + 1 && run[0].surplus <= run[k].surplus
      invariant run[k].surplus == run[0].surplus <==> forall i :: 0 <= i < k ==> !Spoils(events, run, i)
    {
      AtTurn(events, run, k);
      TurnSurplus(events[k], run[k], run[k + 1]);
      SpoilsIs(events, run, k);
      GrowsOn(run[0].surplus, run[k].surplus, run[k + 1].surplus, Spoils(events, run, k));
    }
  }

  /** Slots are conserved through a run if and only if no step of it ends a refused request, that is, if
      each refused request is aborted before the step it would end with. */
  lemma LawOfRuns(events: seq<Event>, run: seq<Ledger>)
    requires IsRun(events, run) && run[0].surplus == multiset{}
    ensures var g := run[|events|];
            Conserved(g.free, g.alloc, g.tree.pages, g.numSlots) <==>
              forall i :: 0 <= i < |events| ==> !Spoils(events, run, i)
  {
    var g := run[|events|];
    assert Fit(g);
    SurplusOf(events, run, |events|);
    hide Spoils, Fit;
    LedgerBalanced(g, g.jobs.Keys);
    BalancedFacts(g);
    ConservedWithout(g.free, g.alloc, g.tree.pages, g.numSlots, g.surplus);
  }

  /** Every request that came was admitted. */
  ghost predicate Smooth(events: seq<Event>, run: seq<Ledger>)
    requires |run| == |events| + 1
  {
    forall i :: 0 <= i < |events| && events[i].Add? ==>
      run[i + 1].refused <= run[i].refused && run[i + 1].jobs != run[i].jobs
  }

  /** Nobody is refused, no lock is left behind, no slot is given away twice. */
  ghost predicate Tidy(g: Ledger) {
    g.refused == {} && g.surplus == multiset{} && g.locks.Keys == g.jobs.Keys
  }

  lemma TidyTurn(e: Event, g: Ledger, g': Ledger)
    requires Turn(e, g, g') && Tidy(g) && (e.Add? ==> g'.refused <= g.refused && g'.jobs != g.jobs)
    ensures Tidy(g')
  {
    match e
    case Add(_, _, _, _) =>
      var row, path :| AddTurn(e, g, g', row, path);
    case Advance =>
    case Abort(_) =>
  }

  /** As long as all requests are admitted, everything stays tidy. */
  lemma {:induction false} SmoothRuns(events: seq<Event>, run: seq<Ledger>, n: nat)
    requires IsRun(events, run) && Smooth(events, run) && Tidy(run[0]) && n <= |events|
    ensures Tidy(run[n])
  {
    if n > 0 {
      SmoothRuns(events, run, n - 1);
      AtTurn(events, run, n - 1);
      hide IsRun, Turn, Fit;
      TidyTurn(events[n - 1], run[n - 1], run[n]);
    }
  }

  // ---------------------------------------------------------------- locks that are left behind

  lemma StrayTurn(e: Event, g: Ledger, g': Ledger, ticket: int)
    requires Turn(e, g, g') && Fit(g) && ticket < 0 && ticket in g.locks
    ensures ticket in g'.locks && g'.locks[ticket] == g.locks[ticket]
  {
    RowsInTable(g, g.jobs.Keys);
    assert ticket !in g.jobs;
    match e
    case Add(_, _, _, _) =>
      var row, path :| AddTurn(e, g, g', row, path);
    case Advance =>
    case Abort(_) =>
  }

  /** A lock without a row is never released. */
  lemma StraysStay(events: seq<Event>, run: seq<Ledger>, i: nat, n: nat, ticket: int)
    requires IsRun(events, run) && i <= n <= |events| && ticket < 0 && ticket in run[i].locks
    ensures ticket in run[n].locks && run[n].locks[ticket] == run[i].locks[ticket]
  {
    hide *;
    RunLength(events, run);
    for k := i to n
      invariant |run| == |events| + 1 && ticket in run[k].locks && run[k].locks[ticket] == run[i].locks[ticket]
    {
      AtTurn(events, run, k);
      StrayTurn(events[k], run[k], run[k + 1], ticket);
    }
  }

  /** Turning a request away takes room from the others unless all it matched was locked already. */
  lemma TurningAwayCosts(g: Ledger, g': Ledger, ticket: int, path: Path)
    requires Fit(g) && TurnedAway(g, g', ticket, path)
    ensures |g'.free| + |Idle(g'.tree.pages, g'.locks)|
              == |g.free| + |Idle(g.tree.pages, g.locks)| - IdleOn(g.tree.pages, g.locks, path)
    ensures Idle(g'.tree.pages, g'.locks) == Idle(g.tree.pages, g.locks)
            <==> forall u :: u in Stretch(path, 0) ==> u !in Idle(g.tree.pages, g.locks)
  {
    var c, l := g.tree.pages, g.locks;
    IdleLock(c, l, ticket, path);
    hide Fit, Idle, Stretch;
    if forall u :: u in Stretch(path, 0) ==> u !in Idle(c, l) {
      assert Idle(c, l) * Stretch(path, 0) == {};
      IdleShrinks(c, l, ticket, path);
    } else {
      var u :| u in Stretch(path, 0) && u in Idle(c, l);
      assert u in Idle(c, l) * Stretch(path, 0);
    }
  }

  lemma IdleShrinks(c: map<Path, Page>, l: Locks, i: int, p: Path)
    requires i !in l && [] !in c && Idle(c, l) * Stretch(p, 0) == {}
    ensures Idle(c, l[i := p]) == Idle(c, l)
  {
    forall u ensures u in Idle(c, l[i := p]) <==> u in Idle(c, l) {
      CountLock(l, i, p, u);
      if u in Idle(c, l) {
        assert u !in Stretch(p, 0);
      }
    }
  }

  lemma TwoLocks(c: map<Path, Page>, l: Locks, ticket: int, p: Path, row: int, q: Path)
    requires Cached(c, p) && Cached(c, q) && ticket in l && l[ticket] == p && row != ticket && !IsPrefix(p, q)
    ensures |Pinned(c, l[row := q])| > |q|
  {
    var l' := l[row := q];
    assert IsPrefix(p, p) && p != [];
    forall u | u in Stretch(q, 0) + {p} ensures u in Pinned(c, l') {
      if u == p {
        CountPositive(l', ticket, p);
      } else {
        CountPositive(l', row, u);
      }
    }
    StretchSize(q, 0);
    assert p !in Stretch(q, 0);
    SubsetSize(Stretch(q, 0) + {p}, Pinned(c, l'));
  }

  /** In a pool of just one full row, a lock left behind starves everybody else: whoever comes when nothing
      is live, with a prompt that does not begin with what the lock holds, is refused. */
  lemma StrayStarves(events: seq<Event>, run: seq<Ledger>, i: nat, ticket: int, k: nat, row: int, path: Path)
    requires IsRun(events, run) && i <= k < |events| && ticket < 0 && ticket in run[i].locks && events[k].Add?
    requires run[k].numSlots == run[k].maxLen + 1 && run[k].jobs == map[] && run[k].surplus == multiset{}
    requires row >= 0 && AddTurn(events[k], run[k], run[k + 1], row, path)
    requires !IsPrefix(run[i].locks[ticket], Pages(events[k].prompt, 1))
    ensures row in run[k + 1].refused
  {
    var g, p := run[k], run[i].locks[ticket];
    StraysStay(events, run, i, k, ticket);
    assert Fit(g);
    if IsPrefix(p, path) {
      assert IsPrefix(path, Pages(events[k].prompt, 1));
      assert IsPrefix(p, Pages(events[k].prompt, 1));
    }
    TwoLocks(g.tree.pages, g.locks, ticket, p, row, path);
    RoomWithout(g, row, path);
  }

  /** The room in an empty pool is what no lock pins. */
  lemma RoomWithout(g: Ledger, row: int, path: Path)
    requires Fit(g) && g.jobs == map[] && g.surplus == multiset{}
    ensures Room(g, row, path) + |Pinned(g.tree.pages, g.locks[row := path])| == g.numSlots - 1
  {
    LedgerBalanced(g, g.jobs.Keys);
    BalancedFacts(g);
    assert g.jobs.Keys == {} && g.alloc.Keys == {};
    hide *;
    RoomIs(g, row, path);
    ConservedWithout(g.free, g.alloc, g.tree.pages, g.numSlots, g.surplus);
    EmptyPool(g.free, g.alloc, g.tree.pages, g.locks[row := path], g.numSlots);
  }

  // ---------------------------------------------------------------- serving

  lemma HeldCached(t: NodeTree, l: Locks)
    requires WellFormed(t) && Anchored(t, l)
    ensures forall i :: i in l ==> Cached(t.pages, l[i])
  {
    forall i | i in l ensures Cached(t.pages, l[i]) {
      var n :| n in t.paths && t.paths[n] == l[i];
      BoundaryCached(t, n);
    }
  }

  lemma TicketsOnly(l: Locks, rows: set<int>, strays: nat)
    requires Ticketed(l, rows, strays)
    ensures rows <= l.Keys && forall i :: i in l && i !in rows ==> i < 0
  {}

  lemma IsFit(g: Ledger)
    requires LedgerOk(g, g.jobs.Keys) && g.jobs.Keys <= g.locks.Keys && [] !in g.tree.pages
    requires forall u :: u in g.tree.pages ==> |g.tree.pages[u]| == 1
    requires (forall i :: i in g.locks && i !in g.jobs ==> i < 0) && forall i :: i in g.locks ==>
               Cached(g.tree.pages, g.locks[i])
    ensures Fit(g)
  {}

  lemma FitNow(e: Engine)
    requires e.Sound()
    ensures Fit(e.State())
  {
    hide *;
    e.Facts();
    e.SharingFacts(e.scheduler.jobs.Keys);
    e.StateIs();
    e.cache.Facts();
    e.OneSlotPages();
    HeldCached(e.cache.tree, e.cache.locks);
    TicketsOnly(e.cache.locks, e.scheduler.jobs.Keys, e.strays);
    IsFit(e.State());
  }

  /** One event. */
  method ServeOne(e: Engine, event: Event, sample: nat -> int, now: int)
    requires e.Sound() && Proper(event, e.maxSeqLen)
    modifies e, e.kv, e.scheduler`freeSlots, e.scheduler`jobs, e.scheduler.prefillManager`pendingList,
             (set p | p in e.scheduler.prefillManager.pendingList)`chunkedReq,
             e.scheduler.decodeManager`runningReqs, (set r | r in e.scheduler.decodeManager.runningReqs),
             e.cache`tree, e.cache`evictableSize, e.cache`protectedSize, e.cache`locks,
             e.cache.tree.paths.Keys`key, e.cache.tree.paths.Keys`value, e.cache.tree.paths.Keys`parent,
             e.cache.tree.paths.Keys`children, e.cache.tree.paths.Keys`timestamp, e.cache.tree.paths.Keys`refCount
    ensures e.Sound() && Turn(event, old(e.State()), e.State())
    ensures fresh(e.cache.tree.paths.Keys - old(e.cache.tree.paths.Keys))
    ensures forall p :: p in e.scheduler.prefillManager.pendingList ==>
              fresh(p) || p in old(e.scheduler.prefillManager.pendingList)
    ensures forall r :: r in e.scheduler.decodeManager.runningReqs ==>
              fresh(r) || r in old(e.scheduler.decodeManager.runningReqs)
  {
    hide *;
    ghost var g := e.State();
    e.StateIs();
    match event
    case Add(uid, prompt, outputLen, ignoreEos) =>
      ProperIs(event, e.maxSeqLen);
      FitNow(e);
      FreeRowsIn(e);
      ghost var freeRows := e.scheduler.freeSlots;
      var r;
      ghost var row, cachedLen, path, room;
      r, row, cachedLen, path, room := e.AddRequest(uid, prompt, outputLen, ignoreEos, now);
      e.StateIs();
      IsAddTurn(event, g, e.State(), freeRows, r, row, cachedLen, path);
    case Advance =>
      var batch, finished, inputs;
      ghost var mid, noted;
      batch, finished, inputs, mid, noted := e.Step(sample, now);
      e.StateIs();
      OverInside(noted, e.eos);
      NoneOver(g);
      IsAdvanceTurn(g, e.State(), noted, if batch.Some? then OverRows(noted, e.eos) else {});
    case Abort(uid) =>
      var ok;
      ghost var row;
      ok, row := e.AbortRequest(uid);
      IsAbortTurn(event, g, e.State(), row);
  }

  lemma FreeRowsIn(e: Engine)
    requires e.Sound()
    ensures e.scheduler.freeSlots != [] ==> e.scheduler.freeSlots[0] >= 0
  {
    hide *;
    e.Facts();
    e.FreeRowsOk();
    if e.scheduler.freeSlots != [] {
      NextRow(e.scheduler.freeSlots, e.scheduler.jobs, e.scheduler.maxRunningReq);
    }
  }

  lemma IsAddTurn(e: Event, g: Ledger, g': Ledger, freeRows: seq<int>, r: AddResult, row: int, cachedLen: nat,
                  path: Path)
    requires e.Add? && Fit(g) && (freeRows != [] ==> freeRows[0] >= 0) && e.prompt != []
    requires Matched(g.tree.pages, e.prompt, path) && g'.locks == g.locks[row := path] && g'.surplus == g.surplus
    requires g'.refused == g.refused + if r == PoolExhausted then {row} else {}
    requires if r == NoFreeRow then TurnedAway(g, g', row, path)
             else && Joined(freeRows, g.jobs, g'.jobs, row, e.uid, e.prompt, e.outputLen, e.ignoreEos, cachedLen)
                  && cachedLen == Min(|path|, |e.prompt| - 1) && (r == PoolExhausted || r == Admitted(row))
                  && (r.Admitted? <==> g.maxLen - cachedLen <= Room(g, row, path))
    ensures Turn(e, g, g')
  {
    hide Matched, Room, LedgerOk, Pages;
    if r != NoFreeRow {
      JoinedFacts(freeRows, g.jobs, g'.jobs, row, e.uid, e.prompt, e.outputLen, e.ignoreEos, cachedLen);
    }
    assert AddTurn(e, g, g', row, path);
  }

  lemma OverInside(jobs: Jobs, eos: int)
    ensures OverRows(jobs, eos) <= jobs.Keys
  {}

  lemma NoneOver(g: Ledger)
    ensures g.jobs - {} == g.jobs && g.locks - {} == g.locks
  {}

  lemma IsAdvanceTurn(g: Ledger, g': Ledger, noted: Jobs, over: set<int>)
    requires noted.Keys == g.jobs.Keys && g'.jobs == noted - over && over <= noted.Keys && g'.locks == g.locks - over
    requires Accounted(g.refused, g.surplus, g'.refused, g'.surplus, g'.jobs.Keys)
    ensures Turn(Advance, g, g')
  {
    hide Accounted;
    assert g.jobs.Keys - g'.jobs.Keys == over;
  }

  lemma IsAbortTurn(e: Event, g: Ledger, g': Ledger, row: Option<int>)
    requires e.Abort? && (row == None <==> forall r :: r in g.jobs ==> g.jobs[r].uid != e.uid)
    requires row == None ==> g' == g
    requires row.Some? ==> row.value in g.jobs && g.jobs[row.value].uid == e.uid && GivenUp(g, g', row.value)
    ensures Turn(e, g, g')
  {
    hide GivenUp;
  }

  lemma ProperIs(e: Event, m: nat)
    ensures Proper(e, m) <==> (e.Add? ==> e.prompt != [] && |e.prompt| + Max(1, e.outputLen) <= m)
  {}

  /** Serve any sequence of events. Every state is in order; slots are conserved at the end if and only if
      no step ended a refused request; and if every request is admitted, everything stays as it should be. */
  method Serve(e: Engine, events: seq<Event>, model: (nat, nat) -> int, clock: nat -> int)
    returns (ghost run: seq<Ledger>)
    requires e.Sound() && forall i :: 0 <= i < |events| ==> Proper(events[i], e.maxSeqLen)
    modifies e, e.kv, e.scheduler`freeSlots, e.scheduler`jobs, e.scheduler.prefillManager`pendingList,
             (set p | p in e.scheduler.prefillManager.pendingList)`chunkedReq,
             e.scheduler.decodeManager`runningReqs, (set r | r in e.scheduler.decodeManager.runningReqs),
             e.cache`tree, e.cache`evictableSize, e.cache`protectedSize, e.cache`locks,
             e.cache.tree.paths.Keys`key, e.cache.tree.paths.Keys`value, e.cache.tree.paths.Keys`parent,
             e.cache.tree.paths.Keys`children, e.cache.tree.paths.Keys`timestamp, e.cache.tree.paths.Keys`refCount
    ensures e.Sound() && IsRun(events, run) && run[0] == old(e.State()) && run[|events|] == e.State()
    ensures old(e.surplus) == multiset{} ==>
              (Conserved(e.kv.freeSlots, e.kv.alloc, e.cache.tree.pages, e.kv.numPages) <==>
               forall i :: 0 <= i < |events| ==> !Spoils(events, run, i))
    ensures old(e.Valid()) && Smooth(events, run) ==> e.Valid()
  {
    hide *;
    ghost var line, running := e.scheduler.prefillManager.pendingList, e.scheduler.decodeManager.runningReqs;
    FitNow(e);
    ValidIsTidy(e);
    e.StateIs();
    run := [e.State()];
    StartRun(events, e.State());
    for i := 0 to |events|
      invariant e.Sound() && RunSoFar(events, i, run, e.State()) && |run| == i + 1 && run[0] == old(e.State())
      invariant fresh(e.cache.tree.paths.Keys - old(e.cache.tree.paths.Keys))
      invariant forall p :: p in e.scheduler.prefillManager.pendingList ==> fresh(p) || p in line
      invariant forall r :: r in e.scheduler.decodeManager.runningReqs ==> fresh(r) || r in running
    {
      ghost var g := e.State();
      ServeOne(e, events[i], (k: nat) => model(i, k), clock(i));
      FitNow(e);
      MoreOfRun(events, i, run, g, e.State());
      run := run + [e.State()];
    }
    WholeRun(events, run, e.State());
    e.StateIs();
    ValidIsTidy(e);
    if old(e.surplus) == multiset{} {
      LawOfRuns(events, run);
    }
    if old(e.Valid()) && Smooth(events, run) {
      SmoothRuns(events, run, |events|);
    }
  }

  lemma NoStrays(l: Locks, rows: set<int>, strays: nat)
    requires Ticketed(l, rows, strays) && forall r :: r in rows ==> r >= 0
    ensures l.Keys == rows <==> strays == 0
  {
    if strays > 0 {
      assert 0 - 1 in Tickets(strays);
    }
  }

  lemma TidyIs(g: Ledger)
    ensures Tidy(g) <==> g.refused == {} && g.surplus == multiset{} && g.locks.Keys == g.jobs.Keys
  {}

  lemma ValidIsTidy(e: Engine)
    requires e.Sound()
    ensures e.Valid() <==> Tidy(e.State())
  {
    hide *;
    e.Facts();
    e.SharingFacts(e.scheduler.jobs.Keys);
    e.StateIs();
    RowsInTable(e.State(), e.scheduler.jobs.Keys);
    NoStrays(e.cache.locks, e.scheduler.jobs.Keys, e.strays);
    TidyIs(e.State());
    e.ValidIs();
  }

  /** The first `n` events as a run that has come to `g`. */
  ghost predicate RunSoFar(events: seq<Event>, n: nat, run: seq<Ledger>, g: Ledger)
    requires n <= |events|
  {
    IsRun(events[..n], run) && run[n] == g
  }

  lemma StartRun(events: seq<Event>, g: Ledger)
    requires Fit(g)
    ensures RunSoFar(events, 0, [g], g)
  {}

  lemma MoreOfRun(events: seq<Event>, n: nat, run: seq<Ledger>, g: Ledger, g': Ledger)
    requires n < |events| && RunSoFar(events, n, run, g) && Turn(events[n], g, g') && Fit(g')
    ensures RunSoFar(events, n + 1, run + [g'], g')
  {
    hide Fit, Turn;
  }

  lemma WholeRun(events: seq<Event>, run: seq<Ledger>, g: Ledger)
    requires RunSoFar(events, |events|, run, g)
    ensures IsRun(events, run) && run[|events|] == g
  {
    assert events[..|events|] == events;
  }

  // ---------------------------------------------------------------- a run that gives a slot away twice

  lemma LastStep(batch: Batch, sample: nat -> int, jobs: Jobs, mid: Jobs, noted: Jobs, jobs': Jobs, ext: int, eos: int)
    requires ext > 0 && StepRel(batch, sample, jobs, mid, noted, ext) && JobsFine(jobs, ext, eos) && AtRest(jobs, eos)
    requires JobsFine(noted, ext, eos) && jobs' == noted - OverRows(noted, eos) && JobsFine(jobs', ext, eos)
             && AtRest(jobs', eos)
    requires TotalNeed(jobs, ext) <= 1
    ensures jobs' == map[] && OverRows(noted, eos) == jobs.Keys
    ensures forall row :: row in jobs ==> row in noted && noted[row].prompt == jobs[row].prompt
  {
    hide *;
    StepNeedsLess(batch, sample, jobs, mid, noted, ext, eos);
    NoNeed(jobs', ext, eos);
    StepKeys(batch, sample, jobs, mid, noted, ext);
    SamePrompts(jobs, noted);
    OverInside(noted, eos);
    assert |jobs'| == 0;
    assert jobs'.Keys == noted.Keys - OverRows(noted, eos) == {};
  }

  lemma SamePrompts(jobs: Jobs, jobs': Jobs)
    requires forall row :: row in jobs ==> row in jobs' && SameRequest(jobs[row], jobs'[row])
    ensures forall row :: row in jobs ==> row in jobs' && jobs'[row].prompt == jobs[row].prompt
  {}

  /** The prompts of the requests that ended are cached. */
  lemma PromptsCached(jobs: Jobs, noted: Jobs, c: map<Path, Page>, c': map<Path, Page>, table: seq<seq<int>>,
                      rows: set<int>)
    requires Adopted(c, c', Histories(noted), table, rows) && rows == jobs.Keys
    requires forall row :: row in jobs ==> row in noted && noted[row].prompt == jobs[row].prompt
    ensures forall row :: row in jobs ==> Cached(c', Pages(jobs[row].prompt, 1))
  {
    forall row | row in jobs ensures Cached(c', Pages(jobs[row].prompt, 1)) {
      var full := Histories(noted)[row];
      assert Cached(c', Pages(full, 1));
      PagesOfPrefix(jobs[row].prompt, full);
      PrefixCached(c', Pages(full, 1), Pages(jobs[row].prompt, 1));
    }
  }

  lemma PrefixCached(c: map<Path, Page>, u: Path, v: Path)
    requires Cached(c, u) && IsPrefix(v, u)
    ensures Cached(c, v)
  {
    forall w | w != [] && IsPrefix(w, v) ensures w in c {
      assert IsPrefix(w, u);
    }
  }

  /** A step with which all live requests end. */
  method RunLast(e: Engine, sample: nat -> int, now: int)
    requires e.Sound() && e.scheduler.maxExtendTokens > 0 && e.scheduler.jobs != map[]
    requires JobsFit(e.scheduler.jobs, e.scheduler.cacheBudget)
             && TotalNeed(e.scheduler.jobs, e.scheduler.maxExtendTokens) <= 1
    modifies e, e.kv, e.scheduler`freeSlots, e.scheduler`jobs, e.scheduler.prefillManager`pendingList,
             (set p | p in e.scheduler.prefillManager.pendingList)`chunkedReq,
             e.scheduler.decodeManager`runningReqs, (set r | r in e.scheduler.decodeManager.runningReqs),
             e.cache`tree, e.cache`evictableSize, e.cache`protectedSize, e.cache`locks,
             e.cache.tree.paths.Keys`key, e.cache.tree.paths.Keys`value, e.cache.tree.paths.Keys`parent,
             e.cache.tree.paths.Keys`children, e.cache.tree.paths.Keys`timestamp, e.cache.tree.paths.Keys`refCount
    ensures e.Sound() && e.scheduler.jobs == map[] && e.strays == old(e.strays)
    ensures Accounted(old(e.refused), old(e.surplus), e.refused, e.surplus, {})
    ensures forall row :: row in old(e.scheduler.jobs) ==>
              Cached(e.cache.tree.pages, Pages(old(e.scheduler.jobs)[row].prompt, 1))
    ensures fresh(e.cache.tree.paths.Keys - old(e.cache.tree.paths.Keys))
    ensures forall p :: p in e.scheduler.prefillManager.pendingList ==> p in old(e.scheduler.prefillManager.pendingList)
    ensures forall r :: r in e.scheduler.decodeManager.runningReqs ==>
              fresh(r) || r in old(e.scheduler.decodeManager.runningReqs)
  {
    hide *;
    ghost var jobs, ext, c := e.scheduler.jobs, e.scheduler.maxExtendTokens, e.cache.tree.pages;
    e.RestAfter();
    e.JobsAre();
    var batch, finished, inputs;
    ghost var mid, noted;
    batch, finished, inputs, mid, noted := e.Step(sample, now);
    e.RestAfter();
    e.JobsAre();
    LastStep(batch.value, sample, jobs, mid, noted, e.scheduler.jobs, ext, e.eos);
    PromptsCached(jobs, noted, c, e.cache.tree.pages, e.pageTable, jobs.Keys);
    assert e.scheduler.jobs.Keys == {};
  }

  lemma OneFits()
    ensures |[7]| + Max(1, 1) == 2
  {}

  /** One request alone, of one token in and one token out. */
  lemma OneShort(jobs: Jobs, jobs': Jobs, freeRows: seq<int>, row: int, uid: int, cached: nat)
    requires jobs == map[] && Joined(freeRows, jobs, jobs', row, uid, [7], 1, true, cached) && cached == 0
    ensures jobs' != map[] && JobsFit(jobs', 10) && TotalNeed(jobs', 1) <= 1 && row in jobs' && jobs'[row].prompt == [7]
            && jobs'[row].uid == uid
    ensures forall r :: r in jobs' <==> r == row
  {
    TotalNeedLess(jobs', row, 1);
    assert (jobs' - {row}).Keys == {};
  }

  lemma FreeRow(e: Engine)
    requires e.Sound() && e.scheduler.jobs == map[] && e.scheduler.maxRunningReq > 0
    ensures e.scheduler.freeSlots != []
  {
    hide *;
    e.Facts();
    e.FreeRowsOk();
    RowLeft(e.scheduler.freeSlots, e.scheduler.jobs, e.scheduler.maxRunningReq);
  }

  lemma RowLeft(freeRows: seq<int>, jobs: Jobs, n: nat)
    requires RowsOk(freeRows, jobs, n) && jobs == map[] && n > 0
    ensures freeRows != []
  {
    assert 0 in AllRows(n) - jobs.Keys;
    assert 0 in freeRows;
  }

  lemma AccountedNone(refused: set<int>, surplus: multiset<int>, surplus0: multiset<int>)
    requires Accounted({}, surplus0, refused, surplus, {})
    ensures refused == {} && surplus == surplus0
  {}

  lemma PrefixIn(c: map<Path, Page>, u: Path)
    requires Cached(c, u) && u != []
    ensures u in c
  {
    assert IsPrefix(u, u);
  }

  lemma RoomInOneRow(e: Engine, prompt: seq<int>)
    requires e.Valid() && e.scheduler.maxRunningReq == 1 && e.kv.numPages == e.maxSeqLen + 1
             && e.scheduler.freeSlots != []
    ensures Pages(prompt, 1) in e.cache.tree.pages ==> NeverRoom(e.State(), 1, prompt)
    ensures Pages(prompt, 1) !in e.cache.tree.pages ==> AlwaysRoom(e.State(), 1, prompt)
  {
    hide *;
    e.ValidIs();
    e.BeforeAdmission();
    ValidIsTidy(e);
    TidyIs(e.State());
    OneRowPool(e.State(), prompt);
    NeverIs(e.State(), prompt);
  }

  lemma NeverIs(g: Ledger, prompt: seq<int>)
    requires Tidy(g) && g.numSlots == g.maxLen + 1
    ensures NeverRoom(g, 1, prompt) <==> Pages(prompt, 1) in g.tree.pages
  {}

  /** An engine with one row of two positions that has answered the prompt [7] before. */
  method AnsweredOnce(eos: int, born: int) returns (e: Engine)
    ensures fresh(e) && fresh(e.scheduler) && fresh(e.scheduler.prefillManager) && fresh(e.scheduler.decodeManager)
    ensures fresh(e.cache) && fresh(e.kv) && fresh(e.cache.tree.paths.Keys)
    ensures fresh(set p | p in e.scheduler.prefillManager.pendingList)
            && fresh(set r | r in e.scheduler.decodeManager.runningReqs)
    ensures e.Valid() && e.scheduler.jobs == map[] && Pages([7], 1) in e.cache.tree.pages
    ensures e.scheduler.maxRunningReq == 1 && e.scheduler.maxExtendTokens == 1 && e.scheduler.cacheBudget == 10
    ensures e.maxSeqLen == 2 && e.kv.numPages == 3
  {
    hide *;
    e := new Engine(1, 1, 2, 10, 2, eos, born);
    e.ValidIs();
    FreeRow(e);
    RoomInOneRow(e, [7]);
    OneFits();
    ghost var freeRows := e.scheduler.freeSlots;
    var r;
    ghost var row, cachedLen, path, room;
    r, row, cachedLen, path, room := e.AddRequest(1, [7], 1, true, 0);
    MinIs(|path|, |[7]| - 1);
    OneShort(map[], e.scheduler.jobs, freeRows, row, 1, cachedLen);
    assert e.refused == {};
    RunLast(e, _ => 8, 1);
    AccountedNone(e.refused, e.surplus, multiset{});
    OnePages([7]);
    PrefixIn(e.cache.tree.pages, Pages([7], 1));
    e.ValidIs();
  }

  /** The law of slots does not survive every run, and aborting is the way out: the prompt is cached whole
      now, so the request that asks it again is refused. Aborted, it leaves no trace; left to the next
      step, it ends there, and with it the slots of its row are given away a second time. */
  method AskedAgain(eos: int, born: int, abort: bool) returns (e: Engine)
    ensures fresh(e) && e.Sound()
    ensures abort ==> e.Valid()
    ensures Conserved(e.kv.freeSlots, e.kv.alloc, e.cache.tree.pages, e.kv.numPages) <==> abort
  {
    hide *;
    e := AnsweredOnce(eos, born);
    e.ValidIs();
    FreeRow(e);
    RoomInOneRow(e, [7]);
    OneFits();
    ghost var freeRows := e.scheduler.freeSlots;
    var r;
    ghost var row, cachedLen, path, room;
    r, row, cachedLen, path, room := e.AddRequest(2, [7], 1, true, 2);
    MinIs(|path|, |[7]| - 1);
    OneShort(map[], e.scheduler.jobs, freeRows, row, 2, cachedLen);
    assert e.refused == {row};
    if abort {
      var ok;
      ghost var gone;
      ghost var g := e.State();
      e.StateIs();
      ok, gone := e.AbortRequest(2);
      e.StateIs();
      GivenUpFacts(g, e.State(), gone.value);
    } else {
      RunLast(e, _ => 9, 3);
      AccountedOne(row, e.refused, e.surplus);
    }
    e.ValidIs();
    e.Conserves();
  }

  lemma GivenUpFacts(g: Ledger, g': Ledger, row: int)
    requires GivenUp(g, g', row)
    ensures g'.refused == g.refused - {row} && g'.surplus == g.surplus
  {}

  lemma AccountedOne(row: int, refused: set<int>, surplus: multiset<int>)
    requires Accounted({row}, multiset{}, refused, surplus, {})
    ensures surplus != multiset{}
  {
    assert row in {row} && row !in {};
  }
}
