/** One prefill pass over the queue. */
module PrefillQueue {
  import opened Requests
  import opened Rosters
  import opened Finite
  import opened Prefill
  import opened Decode
  import opened Shares

  ghost function TotalExtend(rs: seq<Req>): int
    reads set r | r in rs
  {
    if rs == [] then 0 else TotalExtend(rs[..|rs| - 1]) + rs[|rs| - 1].ExtendLen()
  }

  /** The request of a step, and how the job in its row has moved. */
  ghost predicate GrantOk(r: Req, jobs: Jobs, jobs': Jobs, ext: int)
    reads r
  {
    && r.ExtendLen() <= ext && (r.chunked ==> r.ExtendLen() == ext)
    && r.tableIdx in jobs && r.tableIdx in jobs' && Queued(jobs[r.tableIdx])
    && Placed(r, jobs[r.tableIdx], jobs'[r.tableIdx])
  }

  /** The requests of one prefill step move the jobs in their rows and no others. */
  ghost predicate Granted(reqs: seq<Req>, jobs: Jobs, jobs': Jobs, ext: int)
    reads set r | r in reqs
  {
    && jobs'.Keys == jobs.Keys && Distinct(ReqRows(reqs))
    && (forall r {:trigger GrantOk(r, jobs, jobs', ext)} :: r in reqs ==> GrantOk(r, jobs, jobs', ext))
    && (forall row :: row in jobs && row !in ReqRows(reqs) ==> jobs'[row] == jobs[row])
  }

  lemma GrantedMore(reqs: seq<Req>, jobs: Jobs, jobs': Jobs, r: Req, jobs'': Jobs, ext: int)
    requires r.ExtendLen() <= ext && (r.chunked ==> r.ExtendLen() == ext)
    requires Granted(reqs, jobs, jobs', ext) && r.tableIdx in jobs && r.tableIdx in jobs' && Queued(jobs'[r.tableIdx])
    requires r.tableIdx in jobs'' && jobs'' == jobs'[r.tableIdx := jobs''[r.tableIdx]]
             && Placed(r, jobs'[r.tableIdx], jobs''[r.tableIdx])
    requires r.tableIdx !in ReqRows(reqs)
    ensures Granted(reqs + [r], jobs, jobs'', ext)
  {
    hide Placed, Queued;
    var rs := reqs + [r];
    assert ReqRows(rs) == ReqRows(reqs) + [r.tableIdx];
    forall q | q in rs ensures GrantOk(q, jobs, jobs'', ext) {
      if q in reqs {
        assert GrantOk(q, jobs, jobs', ext);
        var k :| 0 <= k < |reqs| && reqs[k] == q;
        assert ReqRows(reqs)[k] == q.tableIdx;
      }
    }
  }

  /** The queue in the middle of a pass: resumed chunk, passed over, still to come. */
  function Line(chunkedList: seq<PendingReq>, unadmitted: seq<PendingReq>, rest: seq<PendingReq>): seq<PendingReq> {
    chunkedList + unadmitted + rest
  }

  lemma FrontMoved<T>(front: seq<T>, rest: seq<T>)
    requires rest != []
    ensures var line := front + rest;
            && line[|front|] == rest[0] && line == (front + [rest[0]]) + rest[1..]
            && Without(line, |front|) == front + rest[1..]
  {
    assert rest == [rest[0]] + rest[1..];
    assert (front + rest)[..|front|] == front && (front + rest)[|front| + 1..] == rest[1..];
  }

  lemma LineMoved(chunkedList: seq<PendingReq>, unadmitted: seq<PendingReq>, rest: seq<PendingReq>)
    requires rest != []
    ensures var line, k := Line(chunkedList, unadmitted, rest), |chunkedList| + |unadmitted|;
            && k < |line| && line[k] == rest[0]
            && Line(chunkedList, unadmitted + [rest[0]], rest[1..]) == line
            && Moved(line, k, false) == Line(chunkedList, unadmitted, rest[1..])
            && (chunkedList == [] ==> Moved(line, k, true) == Line([rest[0]], unadmitted, rest[1..]))
            && (chunkedList == [] && unadmitted != [] ==> line[0] == unadmitted[0])
  {
    var front := chunkedList + unadmitted;
    FrontMoved(front, rest);
    assert front + [rest[0]] == chunkedList + (unadmitted + [rest[0]]);
    if chunkedList == [] {
      assert front == unadmitted;
      hide Without;
      assert [rest[0]] + (unadmitted + rest[1..]) == [rest[0]] + unadmitted + rest[1..];
    }
  }

  /** The part of a pass that the next admission leaves alone. */
  ghost predicate Settled(reqs: seq<Req>, unadmitted: seq<PendingReq>, rest: seq<PendingReq>, jobs: Jobs, jobs': Jobs,
                          ext: int)
    reads set r | r in reqs, set p | p in unadmitted, (set p | p in rest)`tableIdx
  {
    && Granted(reqs, jobs, jobs', ext) && (forall p :: p in unadmitted ==> p.chunkedReq == null)
    && (forall p :: p in rest ==> p.tableIdx !in ReqRows(reqs))
  }

  /** What holds in the middle of a pass with the budget `ext`. */
  ghost predicate Passing(adder: PrefillAdder, ext: int, reqs: seq<Req>, chunkedList: seq<PendingReq>,
                          unadmitted: seq<PendingReq>, rest: seq<PendingReq>, jobs: Jobs, jobs': Jobs)
    reads adder, set r | r in reqs,
          set p | p in Line(chunkedList, unadmitted, rest),
          set p | p in Line(chunkedList, unadmitted, rest) && p.chunkedReq != null :: p.chunkedReq
  {
    && adder.stepBudget == ext && adder.tokenBudget == ext - TotalExtend(reqs)
    && (reqs == [] ==> chunkedList == []) && (reqs != [] ==> 0 <= adder.tokenBudget < ext)
    && (chunkedList != [] ==> adder.tokenBudget == 0)
    && (reqs != [] ==> forall p :: p in rest ==> p.chunkedReq == null)
    && QueueOk(Line(chunkedList, unadmitted, rest), jobs') && Settled(reqs, unadmitted, rest, jobs, jobs', ext)
  }

  lemma PassingFacts(adder: PrefillAdder, ext: int, reqs: seq<Req>, chunkedList: seq<PendingReq>,
                     unadmitted: seq<PendingReq>, rest: seq<PendingReq>, jobs: Jobs, jobs': Jobs)
    requires Passing(adder, ext, reqs, chunkedList, unadmitted, rest, jobs, jobs') && rest != []
    ensures var line, k := Line(chunkedList, unadmitted, rest), |chunkedList| + |unadmitted|;
            && QueueOk(line, jobs') && k < |line| && line[k] == rest[0] && adder.tokenBudget <= adder.stepBudget == ext
            && (0 < k && adder.tokenBudget == ext ==> line[0].chunkedReq == null)
    ensures Settled(reqs, unadmitted, rest, jobs, jobs', ext) && adder.tokenBudget == ext - TotalExtend(reqs)
    ensures (reqs == [] ==> chunkedList == []) && (reqs != [] ==> 0 <= adder.tokenBudget < ext)
    ensures chunkedList != [] ==> adder.tokenBudget == 0
    ensures reqs == [] ==> adder.tokenBudget == ext
    ensures reqs != [] ==> forall p :: p in rest ==> p.chunkedReq == null
  {
    LineMoved(chunkedList, unadmitted, rest);
    var line, k := Line(chunkedList, unadmitted, rest), |chunkedList| + |unadmitted|;
    hide QueueOk, Granted, Line, Moved, TotalExtend;
    assert rest[0] in rest;
  }

  /** The next prompt is none of those that were passed over. */
  lemma NotPassedOver(chunkedList: seq<PendingReq>, unadmitted: seq<PendingReq>, rest: seq<PendingReq>, jobs: Jobs)
    requires rest != [] && QueueOk(Line(chunkedList, unadmitted, rest), jobs)
    ensures rest[0] !in unadmitted
  {
    var line, k := Line(chunkedList, unadmitted, rest), |chunkedList| + |unadmitted|;
    LineMoved(chunkedList, unadmitted, rest);
    QueueFacts(line, jobs, k);
    RowsApart(line, k, jobs);
    hide QueueOk;
    assert forall i :: 0 <= i < |unadmitted| ==> line[|chunkedList| + i] == unadmitted[i];
  }

  lemma StillPassing(adder: PrefillAdder, ext: int, reqs: seq<Req>, chunkedList: seq<PendingReq>,
                     unadmitted: seq<PendingReq>, rest: seq<PendingReq>, jobs: Jobs, jobs': Jobs)
    requires adder.stepBudget == ext && adder.tokenBudget == ext - TotalExtend(reqs) && rest != []
    requires (reqs == [] ==> chunkedList == []) && (reqs != [] ==> 0 <= adder.tokenBudget < ext)
    requires (chunkedList != [] ==> adder.tokenBudget == 0)
             && (reqs != [] ==> forall p :: p in rest ==> p.chunkedReq == null)
    requires QueueOk(Line(chunkedList, unadmitted, rest), jobs') && Settled(reqs, unadmitted, rest, jobs, jobs', ext)
    ensures Passing(adder, ext, reqs, chunkedList, unadmitted, rest, jobs, jobs')
    ensures rest[0].chunkedReq == null ==>
              Passing(adder, ext, reqs, chunkedList, unadmitted + [rest[0]], rest[1..], jobs, jobs')
  {
    LineMoved(chunkedList, unadmitted, rest);
  }

  /** `req` was granted to the prompt in front of the rest. */
  ghost predicate TookOne(req: Req, chunkedList: seq<PendingReq>, unadmitted: seq<PendingReq>, rest: seq<PendingReq>,
                          jobs: Jobs, jobs': Jobs)
    requires rest != []
    reads req, set p | p in Line(chunkedList, unadmitted, rest),
          set p | p in Line(chunkedList, unadmitted, rest) && p.chunkedReq != null :: p.chunkedReq
  {
    var row, k := rest[0].tableIdx, |chunkedList| + |unadmitted|;
    && req.tableIdx == row && row in jobs && row in jobs' && Queued(jobs[row]) && jobs' == jobs[row := jobs'[row]]
    && Placed(req, jobs[row], jobs'[row]) && k < |Line(chunkedList, unadmitted, rest)|
    && QueueOk(Moved(Line(chunkedList, unadmitted, rest), k, req.chunked), jobs')
    && forall p :: p in rest[1..] ==> p.tableIdx != row && p.chunkedReq == null
  }

  lemma NextPassing(adder: PrefillAdder, ext: int, reqs: seq<Req>, chunkedList: seq<PendingReq>,
                    unadmitted: seq<PendingReq>, rest: seq<PendingReq>, jobs: Jobs, jobs': Jobs, req: Req, jobs'': Jobs)
    requires rest != [] && adder.stepBudget == ext && chunkedList == [] && TotalExtend(reqs) >= 0
    requires adder.tokenBudget == ext - TotalExtend(reqs) - (req.deviceLen - req.cachedLen)
             && 0 <= adder.tokenBudget < ext
    requires (req.chunked ==> adder.tokenBudget == 0 && req.deviceLen - req.cachedLen == ext)
             && TookOne(req, chunkedList, unadmitted, rest, jobs', jobs'')
    requires Settled(reqs, unadmitted, rest, jobs, jobs', ext)
    ensures Passing(adder, ext, reqs + [req], if req.chunked then chunkedList + [rest[0]]
                    else chunkedList, unadmitted, rest[1..], jobs, jobs'')
  {
    hide *;
    TookRest(req, chunkedList, unadmitted, rest, jobs', jobs'');
    var rs, left := reqs + [req], if req.chunked then chunkedList + [rest[0]] else chunkedList;
    ExtendMore(reqs, req);
    TookLine(req, chunkedList, unadmitted, rest, jobs', jobs'');
    SettledMore(reqs, unadmitted, rest, jobs, jobs', req, jobs'', chunkedList, ext);
    IsPassing(adder, ext, rs, left, unadmitted, rest[1..], jobs, jobs'');
  }

  lemma ExtendMore(reqs: seq<Req>, req: Req)
    ensures TotalExtend(reqs + [req]) == TotalExtend(reqs) + req.ExtendLen()
    ensures req.ExtendLen() == req.deviceLen - req.cachedLen
  {
    var rs := reqs + [req];
    assert rs[..|reqs|] == reqs;
  }

  lemma IsPassing(adder: PrefillAdder, ext: int, reqs: seq<Req>, chunkedList: seq<PendingReq>,
                  unadmitted: seq<PendingReq>, rest: seq<PendingReq>, jobs: Jobs, jobs': Jobs)
    requires adder.stepBudget == ext && adder.tokenBudget == ext - TotalExtend(reqs)
    requires reqs != [] && 0 <= adder.tokenBudget < ext && (chunkedList != [] ==> adder.tokenBudget == 0)
    requires forall p :: p in rest ==> p.chunkedReq == null
    requires QueueOk(Line(chunkedList, unadmitted, rest), jobs') && Settled(reqs, unadmitted, rest, jobs, jobs', ext)
    ensures Passing(adder, ext, reqs, chunkedList, unadmitted, rest, jobs, jobs')
  {
    hide QueueOk, Settled, TotalExtend, Line;
  }

  lemma TookRest(req: Req, chunkedList: seq<PendingReq>, unadmitted: seq<PendingReq>, rest: seq<PendingReq>, jobs: Jobs,
                 jobs': Jobs)
    requires rest != [] && TookOne(req, chunkedList, unadmitted, rest, jobs, jobs')
    ensures forall p :: p in rest[1..] ==> p.chunkedReq == null
  {}

  lemma TookLine(req: Req, chunkedList: seq<PendingReq>, unadmitted: seq<PendingReq>, rest: seq<PendingReq>, jobs: Jobs,
                 jobs': Jobs)
    requires rest != [] && chunkedList == [] && TookOne(req, chunkedList, unadmitted, rest, jobs, jobs')
    ensures QueueOk(Line(if req.chunked then chunkedList + [rest[0]] else chunkedList, unadmitted, rest[1..]), jobs')
  {
    hide QueueOk;
    LineMoved(chunkedList, unadmitted, rest);
    assert chunkedList + [rest[0]] == [rest[0]];
  }

  lemma SettledMore(reqs: seq<Req>, unadmitted: seq<PendingReq>, rest: seq<PendingReq>, jobs: Jobs, jobs': Jobs,
                    req: Req, jobs'': Jobs, chunkedList: seq<PendingReq>, ext: int)
    requires req.ExtendLen() <= ext && (req.chunked ==> req.ExtendLen() == ext)
    requires rest != [] && Settled(reqs, unadmitted, rest, jobs, jobs', ext)
             && TookOne(req, chunkedList, unadmitted, rest, jobs', jobs'')
    ensures Settled(reqs + [req], unadmitted, rest[1..], jobs, jobs'', ext)
  {
    assert rest[0] in rest;
    GrantedMore(reqs, jobs, jobs', req, jobs'', ext);
    hide QueueOk, Granted, Placed, Queued, Line, Moved;
    assert ReqRows(reqs + [req]) == ReqRows(reqs) + [req.tableIdx];
    forall p | p in rest[1..] ensures p.tableIdx !in ReqRows(reqs + [req]) {
      assert p in rest;
    }
  }

  lemma RestApart(chunkedList: seq<PendingReq>, unadmitted: seq<PendingReq>, rest: seq<PendingReq>, jobs: Jobs)
    requires QueueOk(Line(chunkedList, unadmitted, rest), jobs) && rest != []
    ensures forall p :: p in rest[1..] ==> p.tableIdx != rest[0].tableIdx && p != rest[0] && p.chunkedReq == null
  {
    LineMoved(chunkedList, unadmitted, rest);
    var line, k := Line(chunkedList, unadmitted, rest), |chunkedList| + |unadmitted|;
    RowsApart(line, k, jobs);
    assert Without(line, k) == chunkedList + unadmitted + rest[1..];
    forall i | 0 <= i < |rest| - 1 ensures line[k + 1 + i] == rest[1..][i] {}
  }

  /** Offer the adder the prompt in front of the rest. */
  method TakeOne(adder: PrefillAdder, pr: PendingReq, ghost chunkedList: seq<PendingReq>,
                 ghost unadmitted: seq<PendingReq>, ghost rest: seq<PendingReq>, ghost jobs: Jobs)
    returns (req: Req?, ghost jobs': Jobs)
    requires rest != [] && rest[0] == pr && adder.tokenBudget <= adder.stepBudget
    requires var line, k := Line(chunkedList, unadmitted, rest), |chunkedList| + |unadmitted|;
             QueueOk(line, jobs) && k < |line| && line[k] == pr
             && (0 < k && adder.tokenBudget == adder.stepBudget ==> line[0].chunkedReq == null)
    modifies adder`tokenBudget, adder`reservedSize, adder`runningCount, pr`chunkedReq
    ensures var n := old(adder.Offer(pr));
            if n <= 0
            then req == null && jobs' == jobs && adder.tokenBudget == old(adder.tokenBudget)
                 && adder.reservedSize == old(adder.reservedSize) && adder.runningCount == old(adder.runningCount)
                 && pr.chunkedReq == old(pr.chunkedReq) && QueueOk(Line(chunkedList, unadmitted, rest), jobs)
            else req != null && fresh(req) && adder.tokenBudget == old(adder.tokenBudget) - n >= 0
                 && adder.reservedSize == old(adder.reservedSize)
                      + (if old(pr.chunkedReq) == null then Estimate(pr) else 0)
                 && adder.runningCount <= old(adder.runningCount) + 1 && n == req.deviceLen - req.cachedLen
                 && (req.chunked ==> adder.tokenBudget == 0 && (old(pr.chunkedReq) != null || n == adder.stepBudget))
                 && TookOne(req, chunkedList, unadmitted, rest, jobs, jobs')
  {
    hide *;
    RestApart(chunkedList, unadmitted, rest, jobs);
    Offered(adder, pr);
    req, jobs' := AdmitNext(adder, pr, Line(chunkedList, unadmitted, rest), |chunkedList| + |unadmitted|, jobs);
    if req != null {
      TookIs(req, chunkedList, unadmitted, rest, jobs, jobs');
    }
  }

  lemma TookIs(req: Req, chunkedList: seq<PendingReq>, unadmitted: seq<PendingReq>, rest: seq<PendingReq>, jobs: Jobs,
               jobs': Jobs)
    requires rest != [] && req.tableIdx == rest[0].tableIdx && rest[0].tableIdx in jobs
             && Queued(jobs[rest[0].tableIdx])
    requires rest[0].tableIdx in jobs' && jobs' == jobs[rest[0].tableIdx := jobs'[rest[0].tableIdx]]
    requires Placed(req, jobs[rest[0].tableIdx], jobs'[rest[0].tableIdx])
    requires |chunkedList| + |unadmitted| < |Line(chunkedList, unadmitted, rest)|
    requires QueueOk(Moved(Line(chunkedList, unadmitted, rest), |chunkedList| + |unadmitted|, req.chunked), jobs')
    requires forall p :: p in rest[1..] ==> p.tableIdx != rest[0].tableIdx && p.chunkedReq == null
    ensures TookOne(req, chunkedList, unadmitted, rest, jobs, jobs')
  {}

  lemma Offered(adder: PrefillAdder, pr: PendingReq)
    ensures adder.Offer(pr) > 0 ==> adder.Offer(pr) <= adder.tokenBudget
  {}

  // ---------------------------------------------------------------- the grants of a pass

  /** What the prompts in these rows ask for. */
  ghost function Asks(rows: seq<int>, jobs: Jobs): (asks: seq<Ask>)
    ensures |asks| == |rows| && forall i :: 0 <= i < |rows| && rows[i] in jobs ==> asks[i] == AskOf(jobs[rows[i]])
  {
    seq(|rows|, i requires 0 <= i < |rows| => if rows[i] in jobs then AskOf(jobs[rows[i]]) else Ask(0, false, 0))
  }

  lemma AskAt(rows: seq<int>, jobs: Jobs, i: nat)
    requires i < |rows| && rows[i] in jobs
    ensures Asks(rows, jobs)[i] == AskOf(jobs[rows[i]])
  {}

  /** What the adder offers a queued prompt is its share. */
  lemma OfferIsShare(adder: PrefillAdder, pr: PendingReq, jobs: Jobs)
    requires EntryOk(pr, jobs) && adder.runningCount < adder.maxRunningReq
    ensures pr.tableIdx in jobs && AskOf(jobs[pr.tableIdx]).rest > 0
    ensures var a := AskOf(jobs[pr.tableIdx]);
            && adder.Offer(pr) == Share(a, adder.stepBudget, adder.tokenBudget, adder.reservedSize, adder.cacheBudget)
            && adder.Offer(pr) >= 0 && (a.isNew <==> pr.chunkedReq == null) && a.footprint == Estimate(pr)
            && (pr.chunkedReq != null && adder.Offer(pr) == 0 ==> adder.tokenBudget <= 0)
  {}

  lemma TookFacts(req: Req, chunkedList: seq<PendingReq>, unadmitted: seq<PendingReq>, rest: seq<PendingReq>,
                  jobs: Jobs, jobs': Jobs, n: int)
    requires rest != [] && TookOne(req, chunkedList, unadmitted, rest, jobs, jobs')
             && n == req.deviceLen - req.cachedLen
    ensures var row := rest[0].tableIdx;
            && req.tableIdx == row && row in jobs && row in jobs' && jobs' == jobs[row := jobs'[row]]
            && Done(jobs'[row]) == Done(jobs[row]) + n && (req.chunked <==> n < AskOf(jobs[row]).rest)
  {}

  /** The first prompts of the queue have had their turn: `jobs` were the requests before the pass, and
      `jobs'` are they now. */
  ghost predicate Dealt(queue: seq<PendingReq>, rows: seq<int>, jobs: Jobs, jobs': Jobs, grants: seq<int>,
                        reqRows: seq<int>, chunkedList: seq<PendingReq>, unadmitted: seq<PendingReq>) {
    && |rows| == |queue| && |grants| <= |queue|
    && var n, asks := |grants|, Asks(rows, jobs);
    && reqRows == Picked(rows[..n], grants) && chunkedList == CutOff(queue[..n], asks[..n], grants)
    && unadmitted == Skipped(queue[..n], grants)
    && forall k :: 0 <= k < n ==>
         rows[k] in jobs && rows[k] in jobs' && Done(jobs'[rows[k]]) == Done(jobs[rows[k]]) + grants[k]
  }

  /** The grants so far are what each prompt is due, and the adder has kept count. */
  ghost predicate Counted(adder: PrefillAdder, asks: seq<Ask>, grants: seq<int>, ext: int, inflight: int)
    reads adder
  {
    && |grants| <= |asks| && adder.stepBudget == ext
    && Greedy(asks[..|grants|], grants, ext, inflight, adder.cacheBudget)
    && adder.tokenBudget == ext - Total(grants)
    && adder.reservedSize == inflight + Reserved(asks[..|grants|], grants)
  }

  lemma DealtStart(queue: seq<PendingReq>, rows: seq<int>, jobs: Jobs, adder: PrefillAdder)
    requires |rows| == |queue| && adder.tokenBudget == adder.stepBudget
    ensures Dealt(queue, rows, jobs, jobs, [], [], [], [])
    ensures Counted(adder, Asks(rows, jobs), [], adder.stepBudget, adder.reservedSize)
  {
    GreedyNone(adder.stepBudget, adder.reservedSize, adder.cacheBudget);
    assert Asks(rows, jobs)[..0] == [];
  }

  lemma DealtMore(queue: seq<PendingReq>, rows: seq<int>, jobs: Jobs, jobs1: Jobs, jobs': Jobs, grants: seq<int>,
                  reqRows: seq<int>, chunkedList: seq<PendingReq>, unadmitted: seq<PendingReq>, n: int)
    requires Dealt(queue, rows, jobs, jobs1, grants, reqRows, chunkedList, unadmitted) && |grants| < |queue|
    requires Distinct(rows) && rows[|grants|] in jobs && rows[|grants|] in jobs1
             && jobs1[rows[|grants|]] == jobs[rows[|grants|]]
    requires rows[|grants|] in jobs' && jobs' == jobs1[rows[|grants|] := jobs'[rows[|grants|]]]
    requires Done(jobs'[rows[|grants|]]) == Done(jobs1[rows[|grants|]]) + n && n >= 0
    ensures Dealt(queue, rows, jobs, jobs', grants + [n], reqRows + if n > 0 then [rows[|grants|]] else [],
                  chunkedList + (if 0 < n < AskOf(jobs[rows[|grants|]]).rest then [queue[|grants|]] else []),
                  unadmitted + if n > 0 then [] else [queue[|grants|]])
  {
    MovedMore(queue, rows, jobs, jobs1, jobs', grants, reqRows, chunkedList, unadmitted, n);
    AskAt(rows, jobs, |grants|);
    hide *;
    var i, asks, more := |grants|, Asks(rows, jobs), grants + [n];
    DealtFacts(queue, rows, jobs, jobs1, grants, reqRows, chunkedList, unadmitted);
    TakeMore(rows, i);
    TakeMore(queue, i);
    TakeMore(asks, i);
    PickedMore(rows[..i], asks[..i], grants, rows[i], asks[i], n);
    PickedMore(queue[..i], asks[..i], grants, queue[i], asks[i], n);
    IsDealt(queue, rows, jobs, jobs', more, reqRows + if n > 0 then [rows[i]] else [],
            chunkedList + (if 0 < n < AskOf(jobs[rows[i]]).rest then [queue[i]] else []),
            unadmitted + if n > 0 then [] else [queue[i]]);
  }

  lemma MovedMore(queue: seq<PendingReq>, rows: seq<int>, jobs: Jobs, jobs1: Jobs, jobs': Jobs, grants: seq<int>,
                  reqRows: seq<int>, chunkedList: seq<PendingReq>, unadmitted: seq<PendingReq>, n: int)
    requires Dealt(queue, rows, jobs, jobs1, grants, reqRows, chunkedList, unadmitted) && |grants| < |queue|
    requires Distinct(rows) && rows[|grants|] in jobs && rows[|grants|] in jobs1
             && jobs1[rows[|grants|]] == jobs[rows[|grants|]]
    requires rows[|grants|] in jobs' && jobs' == jobs1[rows[|grants|] := jobs'[rows[|grants|]]]
    requires Done(jobs'[rows[|grants|]]) == Done(jobs1[rows[|grants|]]) + n
    ensures forall k :: 0 <= k < |grants| + 1 ==>
              rows[k] in jobs && rows[k] in jobs' && Done(jobs'[rows[k]]) == Done(jobs[rows[k]]) + (grants + [n])[k]
  {
    hide Picked, CutOff, Skipped, Asks, Done;
    var i := |grants|;
    forall k | 0 <= k < i ensures rows[k] != rows[i] {}
  }

  lemma IsDealt(queue: seq<PendingReq>, rows: seq<int>, jobs: Jobs, jobs': Jobs, grants: seq<int>,
                reqRows: seq<int>, chunkedList: seq<PendingReq>, unadmitted: seq<PendingReq>)
    requires |rows| == |queue| && |grants| <= |queue|
    requires var n, asks := |grants|, Asks(rows, jobs);
             && reqRows == Picked(rows[..n], grants) && chunkedList == CutOff(queue[..n], asks[..n], grants)
             && unadmitted == Skipped(queue[..n], grants)
    requires forall k :: 0 <= k < |grants| ==>
               rows[k] in jobs && rows[k] in jobs' && Done(jobs'[rows[k]]) == Done(jobs[rows[k]]) + grants[k]
    ensures Dealt(queue, rows, jobs, jobs', grants, reqRows, chunkedList, unadmitted)
  {}

  lemma CountedMore(adder: PrefillAdder, asks: seq<Ask>, grants: seq<int>, ext: int, inflight: int, n: int, left: int,
                    reserved: int)
    requires |grants| < |asks| && adder.stepBudget == ext
    requires Greedy(asks[..|grants|], grants, ext, inflight, adder.cacheBudget)
    requires left == ext - Total(grants) && reserved == inflight + Reserved(asks[..|grants|], grants)
    requires n == Share(asks[|grants|], ext, left, reserved, adder.cacheBudget)
    requires adder.tokenBudget == left - n
    requires adder.reservedSize == reserved + if asks[|grants|].isNew && n > 0 then asks[|grants|].footprint else 0
    ensures Counted(adder, asks, grants + [n], ext, inflight)
  {
    hide *;
    var i, more := |grants|, grants + [n];
    GreedyMore(asks[..i], grants, ext, inflight, adder.cacheBudget, asks[i], n);
    assert asks[..|more|] == asks[..i] + [asks[i]];
    IsCounted(adder, asks, more, ext, inflight);
  }

  lemma IsCounted(adder: PrefillAdder, asks: seq<Ask>, grants: seq<int>, ext: int, inflight: int)
    requires |grants| <= |asks| && adder.stepBudget == ext
    requires Greedy(asks[..|grants|], grants, ext, inflight, adder.cacheBudget)
    requires adder.tokenBudget == ext - Total(grants)
             && adder.reservedSize == inflight + Reserved(asks[..|grants|], grants)
    ensures Counted(adder, asks, grants, ext, inflight)
  {}

  lemma CountedFacts(adder: PrefillAdder, asks: seq<Ask>, grants: seq<int>, ext: int, inflight: int)
    requires Counted(adder, asks, grants, ext, inflight)
    ensures |grants| <= |asks| && adder.stepBudget == ext
    ensures Greedy(asks[..|grants|], grants, ext, inflight, adder.cacheBudget)
    ensures adder.tokenBudget == ext - Total(grants)
            && adder.reservedSize == inflight + Reserved(asks[..|grants|], grants)
  {}

  /** What a pass over the prompts in `rows` does: they are granted `grants`, their jobs move by just
      that, and the requests of those that are granted something are in the batch, in this order. */
  ghost predicate Fair(rows: seq<int>, jobs: Jobs, jobs': Jobs, grants: seq<int>, reqRows: seq<int>, budget: int,
                       inflight: int, pool: int) {
    && Greedy(Asks(rows, jobs), grants, budget, inflight, pool) && |grants| == |rows|
    && reqRows == Picked(rows, grants)
    && forall k :: 0 <= k < |rows| ==>
         rows[k] in jobs && rows[k] in jobs' && Done(jobs'[rows[k]]) == Done(jobs[rows[k]]) + grants[k]
  }

  /** Those that the pass did not get to are granted nothing; they are passed over only when the budget is
      spent. */
  lemma DealtAll(adder: PrefillAdder, queue: seq<PendingReq>, rows: seq<int>, jobs: Jobs, jobs': Jobs,
                 grants: seq<int>, reqRows: seq<int>, chunkedList: seq<PendingReq>, unadmitted: seq<PendingReq>,
                 ext: int, inflight: int, all: seq<int>)
    requires |grants| <= |queue| && all == grants + Zeros(|queue| - |grants|)
    requires Dealt(queue, rows, jobs, jobs', grants, reqRows, chunkedList, unadmitted)
    requires Counted(adder, Asks(rows, jobs), grants, ext, inflight)
    requires |grants| < |queue| ==> adder.tokenBudget <= 0
    requires forall k :: |grants| <= k < |queue| ==>
               rows[k] in jobs && rows[k] in jobs' && jobs'[rows[k]] == jobs[rows[k]]
    ensures Fair(rows, jobs, jobs', all, reqRows, ext, inflight, adder.cacheBudget) && |rows| == |queue|
    ensures chunkedList == CutOff(queue, Asks(rows, jobs), all) && unadmitted + queue[|grants|..] == Skipped(queue, all)
  {
    DealtMoves(queue, rows, jobs, jobs', grants, reqRows, chunkedList, unadmitted);
    hide *;
    var asks := Asks(rows, jobs);
    CountedFacts(adder, asks, grants, ext, inflight);
    DealtFacts(queue, rows, jobs, jobs', grants, reqRows, chunkedList, unadmitted);
    GreedyEnd(asks, grants, all, ext, inflight, adder.cacheBudget);
    PickedEnd(rows, asks, grants, all);
    PickedEnd(queue, asks, grants, all);
    IsFair(rows, jobs, jobs', all, reqRows, ext, inflight, adder.cacheBudget);
  }

  lemma DealtFacts(queue: seq<PendingReq>, rows: seq<int>, jobs: Jobs, jobs': Jobs, grants: seq<int>,
                   reqRows: seq<int>, chunkedList: seq<PendingReq>, unadmitted: seq<PendingReq>)
    requires Dealt(queue, rows, jobs, jobs', grants, reqRows, chunkedList, unadmitted)
    ensures |rows| == |queue| && |grants| <= |queue|
    ensures var n, asks := |grants|, Asks(rows, jobs);
            && reqRows == Picked(rows[..n], grants) && chunkedList == CutOff(queue[..n], asks[..n], grants)
            && unadmitted == Skipped(queue[..n], grants)
  {}

  lemma DealtMoves(queue: seq<PendingReq>, rows: seq<int>, jobs: Jobs, jobs': Jobs, grants: seq<int>,
                   reqRows: seq<int>, chunkedList: seq<PendingReq>, unadmitted: seq<PendingReq>)
    requires Dealt(queue, rows, jobs, jobs', grants, reqRows, chunkedList, unadmitted)
    requires forall k :: |grants| <= k < |queue| ==>
               rows[k] in jobs && rows[k] in jobs' && jobs'[rows[k]] == jobs[rows[k]]
    ensures |rows| == |queue| >= |grants|
    ensures var all := grants + Zeros(|queue| - |grants|);
            forall k :: 0 <= k < |rows| ==>
              rows[k] in jobs && rows[k] in jobs' && Done(jobs'[rows[k]]) == Done(jobs[rows[k]]) + all[k]
  {
    hide Picked, CutOff, Skipped, Asks, Done;
  }

  lemma IsFair(rows: seq<int>, jobs: Jobs, jobs': Jobs, grants: seq<int>, reqRows: seq<int>, budget: int, inflight: int,
               pool: int)
    requires |grants| == |rows| && Greedy(Asks(rows, jobs), grants, budget, inflight, pool)
    requires reqRows == Picked(rows, grants)
    requires forall k :: 0 <= k < |rows| ==>
               rows[k] in jobs && rows[k] in jobs' && Done(jobs'[rows[k]]) == Done(jobs[rows[k]]) + grants[k]
    ensures Fair(rows, jobs, jobs', grants, reqRows, budget, inflight, pool)
  {}

  /** One queued prompt in the pass: admit it, pass it over, or (for a continuation) end the pass. */
  method PassOne(adder: PrefillAdder, ghost ext: int, pr: PendingReq, reqs: seq<Req>, chunkedList: seq<PendingReq>,
                 unadmitted: seq<PendingReq>, ghost rest: seq<PendingReq>, ghost jobs: Jobs, ghost jobs1: Jobs)
    returns (req: Req?, reqs': seq<Req>, chunkedList': seq<PendingReq>, unadmitted': seq<PendingReq>, stop: bool,
             ghost jobs': Jobs, ghost n: int)
    requires Passing(adder, ext, reqs, chunkedList, unadmitted, rest, jobs, jobs1) && rest != [] && rest[0] == pr
    requires adder.runningCount < adder.maxRunningReq && EntryOk(pr, jobs1)
    modifies adder`tokenBudget, adder`reservedSize, adder`runningCount, pr`chunkedReq
    ensures stop ==> Passing(adder, ext, reqs', chunkedList', unadmitted', rest, jobs, jobs')
    ensures !stop ==> Passing(adder, ext, reqs', chunkedList', unadmitted', rest[1..], jobs, jobs')
    ensures (req != null ==> fresh(req)) && reqs' == if req == null then reqs else reqs + [req]
    ensures adder.runningCount <= old(adder.runningCount) + if req == null then 0 else 1
    ensures pr.tableIdx in jobs1 && pr.tableIdx in jobs' && jobs' == jobs1[pr.tableIdx := jobs'[pr.tableIdx]]
    ensures var a := AskOf(jobs1[pr.tableIdx]);
            && n == Share(a, ext, old(adder.tokenBudget), old(adder.reservedSize), adder.cacheBudget) && n >= 0
            && (req != null <==> n > 0) && Done(jobs'[pr.tableIdx]) == Done(jobs1[pr.tableIdx]) + n
            && adder.tokenBudget == old(adder.tokenBudget) - n
            && adder.reservedSize == old(adder.reservedSize) + (if a.isNew && n > 0 then a.footprint else 0)
            && chunkedList' == chunkedList + (if 0 < n < a.rest then [pr] else [])
            && unadmitted' == unadmitted + (if n > 0 || stop then [] else [pr])
            && (stop ==> n == 0 && adder.tokenBudget <= 0) && (n == 0 ==> jobs' == jobs1)
    ensures req != null ==> req.tableIdx == pr.tableIdx
  {
    hide *;
    PassingFacts(adder, ext, reqs, chunkedList, unadmitted, rest, jobs, jobs1);
    NotPassedOver(chunkedList, unadmitted, rest, jobs1);
    OfferIsShare(adder, pr, jobs1);
    n := adder.Offer(pr);
    reqs', chunkedList', unadmitted', stop := reqs, chunkedList, unadmitted, false;
    var isContinuation := pr.chunkedReq != null;
    assert pr in rest;
    req, jobs' := TakeOne(adder, pr, chunkedList, unadmitted, rest, jobs1);
    if req != null {
      TookFacts(req, chunkedList, unadmitted, rest, jobs1, jobs', n);
      chunkedList' := if req.chunked then chunkedList + [pr] else chunkedList;
      reqs' := reqs + [req];
      NextPassing(adder, ext, reqs, chunkedList, unadmitted, rest, jobs, jobs1, req, jobs');
    } else {
      StillPassing(adder, ext, reqs, chunkedList, unadmitted, rest, jobs, jobs1);
      stop := isContinuation;
      unadmitted' := if isContinuation then unadmitted else unadmitted + [pr];
    }
  }

  lemma PassStart(adder: PrefillAdder, queue: seq<PendingReq>, jobs: Jobs)
    requires QueueOk(queue, jobs) && adder.tokenBudget == adder.stepBudget
    ensures Passing(adder, adder.stepBudget, [], [], [], queue, jobs, jobs)
    ensures forall p :: p in queue ==> EntryOk(p, jobs)
  {
    assert Line([], [], queue) == queue;
    assert forall p :: p in queue ==> EntryOk(p, jobs);
  }

  /** Whatever was left out of a step is still queued, the resumed chunk first. */
  lemma PassEnd(adder: PrefillAdder, ext: int, reqs: seq<Req>, chunkedList: seq<PendingReq>,
                unadmitted: seq<PendingReq>, rest: seq<PendingReq>, jobs: Jobs, jobs': Jobs)
    requires Passing(adder, ext, reqs, chunkedList, unadmitted, rest, jobs, jobs')
    ensures QueueOk(Line(chunkedList, unadmitted, rest), jobs') && Granted(reqs, jobs, jobs', ext)
    ensures reqs != [] ==> 0 < TotalExtend(reqs) <= ext
    ensures reqs == [] ==> jobs' == jobs
  {
    if reqs == [] {
      forall row | row in jobs ensures jobs'[row] == jobs[row] {
        assert row !in ReqRows(reqs);
      }
      assert jobs'.Keys == jobs.Keys && jobs' == jobs;
    }
  }

  /** The prompts that are still to come are as they were. */
  lemma RestUntouched(adder: PrefillAdder, ext: int, reqs: seq<Req>, chunkedList: seq<PendingReq>,
                      unadmitted: seq<PendingReq>, rest: seq<PendingReq>, jobs: Jobs, jobs': Jobs)
    requires Passing(adder, ext, reqs, chunkedList, unadmitted, rest, jobs, jobs')
    ensures forall p :: p in rest ==> EntryOk(p, jobs') && p.tableIdx in jobs && jobs'[p.tableIdx] == jobs[p.tableIdx]
  {
    var line := Line(chunkedList, unadmitted, rest);
    assert jobs'.Keys == jobs.Keys;
    forall p | p in rest ensures EntryOk(p, jobs') && p.tableIdx in jobs && jobs'[p.tableIdx] == jobs[p.tableIdx] {
      assert p in line && EntryOk(p, jobs');
      assert p.tableIdx in jobs'.Keys && p.tableIdx !in ReqRows(reqs);
    }
  }

  lemma QueueRows(queue: seq<PendingReq>, jobs: Jobs)
    requires QueueOk(queue, jobs)
    ensures Distinct(PendingRows(queue)) && Asking(Asks(PendingRows(queue), jobs))
    ensures forall row :: row in PendingRows(queue) <==> row in QueuedRows(jobs)
  {
    var rows := PendingRows(queue);
    forall i | 0 <= i < |rows| ensures Asks(rows, jobs)[i].rest > 0 {
      assert rows[i] in QueuedRows(jobs);
    }
  }

  lemma RowsMore(reqs: seq<Req>, req: Req)
    ensures ReqRows(reqs + [req]) == ReqRows(reqs) + [req.tableIdx] && ReqRows([]) == []
  {}

  /** One round of the pass over the queue, with its account. */
  method PassNext(adder: PrefillAdder, ghost ext: int, ghost queue: seq<PendingReq>, pr: PendingReq, reqs: seq<Req>,
                  chunkedList: seq<PendingReq>, unadmitted: seq<PendingReq>, ghost rows: seq<int>, ghost jobs: Jobs,
                  ghost jobs1: Jobs, ghost grants: seq<int>, ghost inflight: int)
    returns (reqs': seq<Req>, chunkedList': seq<PendingReq>, unadmitted': seq<PendingReq>, stop: bool,
             ghost jobs': Jobs, ghost grants': seq<int>)
    requires |grants| < |queue| == |rows| && queue[|grants|] == pr && rows[|grants|] == pr.tableIdx && Distinct(rows)
    requires Passing(adder, ext, reqs, chunkedList, unadmitted, queue[|grants|..], jobs, jobs1)
    requires Dealt(queue, rows, jobs, jobs1, grants, ReqRows(reqs), chunkedList, unadmitted)
    requires Counted(adder, Asks(rows, jobs), grants, ext, inflight) && adder.runningCount < adder.maxRunningReq
    modifies adder`tokenBudget, adder`reservedSize, adder`runningCount, pr`chunkedReq
    ensures |grants'| == if stop then |grants| else |grants| + 1
    ensures |reqs| <= |reqs'| <= |reqs| + if stop then 0 else 1
    ensures forall r :: r in reqs' ==> fresh(r) || r in reqs
    ensures adder.runningCount <= old(adder.runningCount) + |reqs'| - |reqs|
    ensures Passing(adder, ext, reqs', chunkedList', unadmitted', queue[|grants'|..], jobs, jobs')
    ensures Dealt(queue, rows, jobs, jobs', grants', ReqRows(reqs'), chunkedList', unadmitted')
    ensures Counted(adder, Asks(rows, jobs), grants', ext, inflight) && (stop ==> adder.tokenBudget <= 0)
  {
    hide *;
    ghost var i, asks, left0, reserved0 := |grants|, Asks(rows, jobs), adder.tokenBudget, adder.reservedSize;
    ghost var rest := queue[i..];
    assert rest[0] == pr && rest[1..] == queue[i + 1..] && pr in rest;
    RestUntouched(adder, ext, reqs, chunkedList, unadmitted, rest, jobs, jobs1);
    CountedFacts(adder, asks, grants, ext, inflight);
    var req: Req?;
    ghost var n;
    req, reqs', chunkedList', unadmitted', stop, jobs', n :=
      PassOne(adder, ext, pr, reqs, chunkedList, unadmitted, rest, jobs, jobs1);
    grants' := grants;
    if stop {
      assert chunkedList' == chunkedList && unadmitted' == unadmitted;
      IsCounted(adder, asks, grants, ext, inflight);
    } else {
      DealtMore(queue, rows, jobs, jobs1, jobs', grants, ReqRows(reqs), chunkedList, unadmitted, n);
      CountedMore(adder, asks, grants, ext, inflight, n, left0, reserved0);
      grants' := grants + [n];
      if req != null {
        RowsMore(reqs, req);
      } else {
        assert ReqRows(reqs) + [] == ReqRows(reqs);
      }
    }
  }

  /** The pass over the queue: who is granted a part of the step, and who stays, prompts cut short first,
      the others in the order in which they came. */
  method Pass(adder: PrefillAdder, queue: seq<PendingReq>, ghost running: nat, ghost jobs: Jobs)
    returns (reqs: seq<Req>, left: seq<PendingReq>, ghost jobs': Jobs, ghost grants: seq<int>)
    requires queue != [] && QueueOk(queue, jobs) && adder.tokenBudget == adder.stepBudget
    requires adder.runningCount == running && running + |queue| <= adder.maxRunningReq
    modifies adder`tokenBudget, adder`reservedSize, adder`runningCount, (set p | p in queue)`chunkedReq
    ensures QueueOk(left, jobs') && (forall p :: p in left ==> p in queue) && fresh(set r | r in reqs)
    ensures reqs == [] ==> jobs' == jobs
    ensures reqs != [] ==> Granted(reqs, jobs, jobs', adder.stepBudget) && 0 < TotalExtend(reqs) <= adder.stepBudget
    ensures Fair(old(PendingRows(queue)), jobs, jobs', grants, ReqRows(reqs), adder.stepBudget,
                 old(adder.reservedSize), adder.cacheBudget)
    ensures |grants| == |queue| == |old(PendingRows(queue))|
    ensures left == CutOff(queue, Asks(old(PendingRows(queue)), jobs), grants) + Skipped(queue, grants)
  {
    hide *;
    ghost var ext, inflight, rows := adder.stepBudget, adder.reservedSize, PendingRows(queue);
    ghost var asks := Asks(rows, jobs);
    var chunkedList, unadmitted, i, stop := [], [], 0, false;
    reqs, jobs', grants := [], jobs, [];
    PassStart(adder, queue, jobs);
    QueueRows(queue, jobs);
    DealtStart(queue, rows, jobs, adder);
    assert ReqRows(reqs) == [];
    while i < |queue| && !stop
      invariant |grants| == i <= |queue| && |reqs| <= i && adder.runningCount <= running + |reqs|
      invariant Passing(adder, ext, reqs, chunkedList, unadmitted, queue[i..], jobs, jobs') && fresh(set r | r in reqs)
      invariant Dealt(queue, rows, jobs, jobs', grants, ReqRows(reqs), chunkedList, unadmitted)
      invariant Counted(adder, asks, grants, ext, inflight) && (stop ==> adder.tokenBudget <= 0)
      decreases |queue| - i, !stop
    {
      assert adder.runningCount < adder.maxRunningReq;  // so the request cap never turns a prompt down
      reqs, chunkedList, unadmitted, stop, jobs', grants :=
        PassNext(adder, ext, queue, queue[i], reqs, chunkedList, unadmitted, rows, jobs, jobs', grants, inflight);
      i := if stop then i else i + 1;
    }
    PassEnd(adder, ext, reqs, chunkedList, unadmitted, queue[i..], jobs, jobs');
    RestUntouched(adder, ext, reqs, chunkedList, unadmitted, queue[i..], jobs, jobs');
    forall k | i <= k < |queue| ensures rows[k] in jobs && rows[k] in jobs' && jobs'[rows[k]] == jobs[rows[k]] {
      assert queue[k] in queue[i..];
    }
    ghost var all := grants + Zeros(|queue| - i);
    DealtAll(adder, queue, rows, jobs, jobs', grants, ReqRows(reqs), chunkedList, unadmitted, ext, inflight, all);
    LineIs(chunkedList, unadmitted, queue[i..]);
    left := chunkedList + unadmitted + queue[i..];
    assert left == chunkedList + (unadmitted + queue[i..]);
    grants := all;
    StayedWithin(queue, asks, grants);
  }

  class PrefillManager {
    const maxRunningReq: int
    const cacheBudget: int
    const decodeManager: DecodeManager
    var pendingList: seq<PendingReq>

    constructor (maxRunningReq: int, cacheBudget: int, decodeManager: DecodeManager)
      ensures this.maxRunningReq == maxRunningReq && this.cacheBudget == cacheBudget
      ensures this.decodeManager == decodeManager && pendingList == []
    {
      this.maxRunningReq, this.cacheBudget, this.decodeManager, pendingList :=
        maxRunningReq, cacheBudget, decodeManager, [];
    }

    method AddOneReq(pr: PendingReq)
      modifies this`pendingList
      ensures pendingList == old(pendingList) + [pr]
    {
      pendingList := pendingList + [pr];
    }

    /** The batch of one prefill step: each prompt in queue order gets its share, and the ones that stay
        are queued as before, the one that was cut short first. While every waiting and decoding request
        has a row of its own, the cap on running requests turns nobody down. */
    method ScheduleNextBatch(prefillBudget: int, ghost jobs: Jobs)
      returns (batch: Option<Batch>, ghost jobs': Jobs, ghost grants: seq<int>)
      requires QueueOk(pendingList, jobs) && |decodeManager.runningReqs| + |pendingList| <= maxRunningReq
      modifies this`pendingList, (set p | p in pendingList)`chunkedReq
      ensures QueueOk(pendingList, jobs') && forall p :: p in pendingList ==> p in old(pendingList)
      ensures |grants| == |old(pendingList)| == |old(PendingRows(pendingList))|
      ensures pendingList == CutOff(old(pendingList), Asks(old(PendingRows(pendingList)), jobs), grants)
                             + Skipped(old(pendingList), grants)
      ensures batch == None ==> jobs' == jobs && pendingList == old(pendingList)
      ensures old(pendingList) == [] ==> batch == None
      ensures batch.Some? ==>
                var reqs := batch.value.reqs;
                && batch.value.prefill && reqs != [] && Granted(reqs, jobs, jobs', prefillBudget)
                && fresh(set r | r in reqs)
                && 0 < TotalExtend(reqs) <= prefillBudget
      ensures Fair(old(PendingRows(pendingList)), jobs, jobs', grants,
                   if batch.Some? then ReqRows(batch.value.reqs) else [], prefillBudget,
                   Remaining(decodeManager.runningReqs)
                     + (decodeManager.pageSize - 1) * |decodeManager.runningReqs|, cacheBudget)
    {
      hide *;
      jobs' := jobs;
      if |pendingList| == 0 {
        NobodyAsks(pendingList, jobs, prefillBudget, Remaining(decodeManager.runningReqs)
                   + (decodeManager.pageSize - 1) * |decodeManager.runningReqs|, cacheBudget);
        return None, jobs, [];
      }
      var inflight := decodeManager.InflightTokens();
      var adder := new PrefillAdder(prefillBudget, inflight, maxRunningReq, cacheBudget, |decodeManager.runningReqs|);
      ghost var rows := PendingRows(pendingList);
      var reqs, left;
      reqs, left, jobs', grants := Pass(adder, pendingList, |decodeManager.runningReqs|, jobs);
      if |reqs| == 0 {
        NobodyMoved(pendingList, rows, jobs, jobs', grants, prefillBudget, inflight, cacheBudget);
        assert ReqRows(reqs) == [];
        return None, jobs, grants;
      }
      pendingList := left;
      return Some(Batch(reqs, true)), jobs', grants;
    }
  }

  lemma NobodyAsks(queue: seq<PendingReq>, jobs: Jobs, budget: int, inflight: int, pool: int)
    requires queue == []
    ensures Fair(PendingRows(queue), jobs, jobs, [], [], budget, inflight, pool) && PendingRows(queue) == []
    ensures CutOff(queue, Asks(PendingRows(queue), jobs), []) + Skipped(queue, []) == queue
  {
    GreedyNone(budget, inflight, pool);
  }

  /** A pass that grants nothing leaves the queue as it is. */
  lemma NobodyMoved(queue: seq<PendingReq>, rows: seq<int>, jobs: Jobs, jobs': Jobs, grants: seq<int>, budget: int,
                    inflight: int, pool: int)
    requires |rows| == |queue| && Fair(rows, jobs, jobs', grants, [], budget, inflight, pool)
    ensures |grants| == |queue| && CutOff(queue, Asks(rows, jobs), grants) + Skipped(queue, grants) == queue
  {
    PickedSome(rows, grants);
    AllSkipped(queue, Asks(rows, jobs), grants);
  }

  lemma LineIs(chunkedList: seq<PendingReq>, unadmitted: seq<PendingReq>, rest: seq<PendingReq>)
    ensures Line(chunkedList, unadmitted, rest) == chunkedList + unadmitted + rest
  {}
}
