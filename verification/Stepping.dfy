/** What a step does with the sampled tokens: every request whose prompt is complete gets one, and
    the requests that end with it are marked. */
module Stepping {
  import opened Arith
  import opened Rosters
  import opened Requests
  import opened Prefill
  import opened Decode
  import opened PrefillQueue
  import opened Scheduling

  /** The full token history kept for each request that has produced a token. */
  ghost predicate HistoryOk(fullIds: map<int, seq<int>>, jobs: Jobs) {
    && fullIds.Keys == DecodingRows(jobs)
    && forall row {:trigger fullIds[row]} :: row in fullIds ==> fullIds[row] == jobs[row].prompt + jobs[row].out
  }

  /** `jobs'` is `jobs` after the first `n` requests of the batch got their tokens. */
  ghost predicate Sampled(reqs: seq<Req>, n: nat, sample: nat -> int, jobs: Jobs, jobs': Jobs)
    requires n <= |reqs|
  {
    && jobs'.Keys == jobs.Keys
    && (forall i {:trigger reqs[i]} :: 0 <= i < n && !reqs[i].chunked ==>
          var row := reqs[i].tableIdx; row in jobs && jobs'[row] == Emit(jobs[row], sample(i)))
    && (forall row :: row in jobs && (forall i :: 0 <= i < n && !reqs[i].chunked ==> reqs[i].tableIdx != row) ==>
          jobs'[row] == jobs[row])
  }

  /** Give one request its token. */
  method NoteToken(req: Req, tok: int, prefill: bool, eos: int, fullIds: map<int, seq<int>>, ghost jobs: Jobs,
                   ghost ext: int)
    returns (fullIds': map<int, seq<int>>, ghost jobs': Jobs)
    requires ReqIs(req, jobs, eos) && JobsFine(jobs, ext, eos) && !Over(jobs[req.tableIdx], eos)
             && HistoryOk(fullIds, jobs)
    requires if prefill then InFlight(jobs[req.tableIdx]) && req.inputIds == jobs[req.tableIdx].prompt
             else Decoding(jobs[req.tableIdx])
    modifies req`inputIds, req`cachedLen, req`deviceLen, req`aborted
    ensures jobs' == jobs[req.tableIdx := Emit(jobs[req.tableIdx], tok)]
    ensures ReqIs(req, jobs', eos) && JobsFine(jobs', ext, eos) && HistoryOk(fullIds', jobs')
    ensures Decoding(jobs'[req.tableIdx])
  {
    hide *;
    ReqFacts(req, jobs, eos);
    ghost var row, j := req.tableIdx, jobs[req.tableIdx];
    EmitFacts(j, tok, eos);
    TokensSoFar(fullIds, jobs, row, prefill);
    BringsFacts(req, j, prefill);
    req.inputIds := if prefill then req.inputIds + [tok] else [tok];
    req.deviceLen := req.deviceLen + 1;
    fullIds' := if prefill then fullIds[req.tableIdx := req.inputIds]
                else fullIds[req.tableIdx := fullIds[req.tableIdx] + [tok]];
    if prefill && req.cachedLen > 0 {
      req.cachedLen := |req.inputIds| - 1;
    }
    if !req.ignoreEos && tok == eos {
      req.aborted := true;
    }
    if req.deviceLen >= req.maxDeviceLen {
      req.aborted := true;
    }
    jobs' := jobs[req.tableIdx := Emit(j, tok)];
    EmitFine(jobs, row, tok, ext, eos);
    HistoryNoted(fullIds, jobs, row, tok);
    BringsMore(req, j, tok, prefill);
    IsReq(req, jobs', eos);
  }

  lemma ReqFacts(r: Req, jobs: Jobs, eos: int)
    requires ReqIs(r, jobs, eos)
    ensures r.tableIdx in jobs && !r.chunked && Done(jobs[r.tableIdx]) == |jobs[r.tableIdx].prompt|
    ensures var j := jobs[r.tableIdx];
            && r.uid == j.uid && r.outputLen == j.outputLen && r.ignoreEos == j.ignoreEos && r.cacheHandle == j.handle
            && r.deviceLen == |j.prompt| + |j.out| && r.maxDeviceLen == |j.prompt| + Max(0, j.outputLen)
            && (r.aborted <==> Over(j, eos)) && Brings(r, j)
  {}

  lemma IsReq(r: Req, jobs: Jobs, eos: int)
    requires r.tableIdx in jobs && !r.chunked && Done(jobs[r.tableIdx]) == |jobs[r.tableIdx].prompt|
    requires var j := jobs[r.tableIdx];
             && r.uid == j.uid && r.outputLen == j.outputLen && r.ignoreEos == j.ignoreEos && r.cacheHandle == j.handle
             && r.deviceLen == |j.prompt| + |j.out| && r.maxDeviceLen == |j.prompt| + Max(0, j.outputLen)
             && (r.aborted <==> Over(j, eos)) && Brings(r, j)
    ensures ReqIs(r, jobs, eos)
  {}

  lemma BringsFacts(r: Req, j: Job, prefill: bool)
    requires Brings(r, j) && if prefill then InFlight(j) else Decoding(j)
    ensures if prefill then r.cachedLen == LastStart(j) >= 0
            else r.cachedLen == if LastStart(j) == 0 then 0 else |j.prompt|
  {}

  /** What the request brings to its next step once it has one more token. */
  lemma BringsMore(r: Req, j: Job, tok: int, prefill: bool)
    requires if prefill then InFlight(j) && r.inputIds == j.prompt + [tok] else Decoding(j) && r.inputIds == [tok]
    requires r.cachedLen == if LastStart(j) == 0 then 0 else |j.prompt|
    ensures Brings(r, Emit(j, tok))
  {}

  /** One more token. */
  lemma EmitFacts(j: Job, tok: int, eos: int)
    requires Done(j) == |j.prompt|
    ensures Emit(j, tok) == j.(out := j.out + [tok]) && Done(Emit(j, tok)) == |j.prompt| && Decoding(Emit(j, tok))
    ensures Over(Emit(j, tok), eos) <==> (!j.ignoreEos && tok == eos) || |j.out| + 1 >= Max(0, j.outputLen)
  {}

  lemma TokensSoFar(fullIds: map<int, seq<int>>, jobs: Jobs, row: int, prefill: bool)
    requires HistoryOk(fullIds, jobs) && row in jobs && if prefill then InFlight(jobs[row]) else Decoding(jobs[row])
    ensures if prefill then jobs[row].prompt + jobs[row].out == jobs[row].prompt
               else row in fullIds && fullIds[row] == jobs[row].prompt + jobs[row].out
  {}

  lemma HistoryNoted(fullIds: map<int, seq<int>>, jobs: Jobs, row: int, tok: int)
    requires HistoryOk(fullIds, jobs) && row in jobs && Done(jobs[row]) == |jobs[row].prompt|
    ensures HistoryOk(fullIds[row := jobs[row].prompt + jobs[row].out + [tok]], jobs[row := Emit(jobs[row], tok)])
  {
    var jobs' := jobs[row := Emit(jobs[row], tok)];
    assert DecodingRows(jobs') == DecodingRows(jobs) + {row};
    assert jobs[row].prompt + jobs[row].out + [tok] == jobs[row].prompt + (jobs[row].out + [tok]);
  }

  lemma EmitFine(jobs: Jobs, row: int, tok: int, ext: int, eos: int)
    requires JobsFine(jobs, ext, eos) && row in jobs && Done(jobs[row]) == |jobs[row].prompt| && !Over(jobs[row], eos)
    ensures JobsFine(jobs[row := Emit(jobs[row], tok)], ext, eos)
  {
    assert Fine(jobs[row], ext, eos);
    EmitOngoing(jobs[row], tok, eos);
    var j, j' := jobs[row], Emit(jobs[row], tok);
    forall i | 0 <= i < |j'.slices| ensures SliceOk(j'.slices, i, j'.cached, |j'.prompt|, ext) {
      assert SliceOk(j.slices, i, j.cached, |j.prompt|, ext);
    }
  }

  /** The first `n` requests of the batch have their tokens, the others are still to get theirs. */
  ghost predicate Noting(reqs: seq<Req>, n: nat, prefill: bool, jobs: Jobs, eos: int)
    requires n <= |reqs|
    reads set r | r in reqs
  {
    forall i {:trigger reqs[i]} :: 0 <= i < |reqs| && !reqs[i].chunked ==>
      && ReqIs(reqs[i], jobs, eos)
      && if i < n then Decoding(jobs[reqs[i].tableIdx])
         else !Over(jobs[reqs[i].tableIdx], eos)
              && if prefill then InFlight(jobs[reqs[i].tableIdx]) && reqs[i].inputIds == jobs[reqs[i].tableIdx].prompt
                 else Decoding(jobs[reqs[i].tableIdx])
  }

  lemma NotingStart(batch: Batch, running: seq<Req>, jobs: Jobs, eos: int)
    requires BatchOk(batch, running, jobs, eos) && RunningOk(running, jobs, eos)
    requires forall row {:trigger jobs[row]} :: row in DecodingRows(jobs) ==> !Over(jobs[row], eos)
    ensures Noting(batch.reqs, 0, batch.prefill, jobs, eos) && Sampled(batch.reqs, 0, i => 0, jobs, jobs)
  {
    var reqs := batch.reqs;
    forall i | 0 <= i < |reqs| && !reqs[i].chunked
      ensures ReqIs(reqs[i], jobs, eos) && !Over(jobs[reqs[i].tableIdx], eos)
      ensures if batch.prefill
                 then InFlight(jobs[reqs[i].tableIdx]) && reqs[i].inputIds == jobs[reqs[i].tableIdx].prompt
              else Decoding(jobs[reqs[i].tableIdx])
    {
      assert reqs[i] in Plain(reqs) && ReqIs(reqs[i], jobs, eos);
      if batch.prefill {
        assert reqs[i].tableIdx in InFlightRows(jobs);
      } else {
        assert reqs[i] in multiset(reqs) && reqs[i] in running;
        var k :| 0 <= k < |running| && running[k] == reqs[i];
        assert ReqRows(running)[k] in DecodingRows(jobs);
      }
    }
  }

  lemma SampledMore(reqs: seq<Req>, n: nat, sample: nat -> int, jobs: Jobs, jobs': Jobs, jobs'': Jobs)
    requires n < |reqs| && Distinct(ReqRows(reqs)) && Sampled(reqs, n, sample, jobs, jobs')
    requires if reqs[n].chunked then jobs'' == jobs'
             else reqs[n].tableIdx in jobs'
                  && jobs'' == jobs'[reqs[n].tableIdx := Emit(jobs'[reqs[n].tableIdx], sample(n))]
    ensures Sampled(reqs, n + 1, sample, jobs, jobs'')
  {
    var rows := ReqRows(reqs);
    assert forall i :: 0 <= i < |reqs| && i != n ==> rows[i] != rows[n];
  }

  lemma NotingMore(reqs: seq<Req>, n: nat, prefill: bool, jobs: Jobs, jobs': Jobs, eos: int)
    requires n < |reqs| && Distinct(ReqRows(reqs))
    requires forall i {:trigger reqs[i]} :: 0 <= i < |reqs| && i != n && !reqs[i].chunked ==>
      && ReqIs(reqs[i], jobs, eos)
      && if i < n then Decoding(jobs[reqs[i].tableIdx])
         else !Over(jobs[reqs[i].tableIdx], eos)
              && if prefill then InFlight(jobs[reqs[i].tableIdx]) && reqs[i].inputIds == jobs[reqs[i].tableIdx].prompt
                 else Decoding(jobs[reqs[i].tableIdx])
    requires reqs[n].chunked ==> jobs' == jobs
    requires !reqs[n].chunked ==>
               && reqs[n].tableIdx in jobs' && jobs' == jobs[reqs[n].tableIdx := jobs'[reqs[n].tableIdx]]
               && ReqIs(reqs[n], jobs', eos) && Decoding(jobs'[reqs[n].tableIdx])
    ensures Noting(reqs, n + 1, prefill, jobs', eos)
  {
    var rows := ReqRows(reqs);
    assert forall i :: 0 <= i < |reqs| && i != n ==> rows[i] != rows[n];
  }

  lemma SampledNone(reqs: seq<Req>, sample: nat -> int, jobs: Jobs)
    ensures Sampled(reqs, 0, sample, jobs, jobs)
  {}

  lemma BatchFacts(batch: Batch, running: seq<Req>, jobs: Jobs, eos: int)
    requires BatchOk(batch, running, jobs, eos)
    ensures Distinct(ReqRows(batch.reqs))
  {}

  /** The requests of `done` that ended with their token, in order. */
  ghost function EndedIn(done: seq<Req>): seq<Req>
    reads set r | r in done
  {
    if done == [] then [] else
      var n := |done| - 1;
      EndedIn(done[..n]) + if !done[n].chunked && done[n].aborted then [done[n]] else []
  }

  /** `finished` are the requests of `done` that ended with their token. */
  ghost predicate FinishedOf(finished: seq<Req>, done: seq<Req>)
    reads set r | r in done
  {
    && Distinct(finished) && finished == EndedIn(done) && (forall r :: r in finished ==> r in Plain(done) && r.aborted)
    && (forall r :: r in Plain(done) && r.aborted ==> r in finished)
  }

  lemma FinishedNone()
    ensures FinishedOf([], [])
  {}

  lemma FinishedAre(finished: seq<Req>, done: seq<Req>)
    requires FinishedOf(finished, done)
    ensures Distinct(finished) && forall r :: r in finished <==> r in Plain(done) && r.aborted
    ensures finished == EndedIn(done)
  {}

  lemma FinishedMore(finished: seq<Req>, done: seq<Req>, req: Req)
    requires FinishedOf(finished, done) && req !in done
    ensures FinishedOf(if !req.chunked && req.aborted then finished + [req] else finished, done + [req])
  {
    EndedMore(done, req);
    hide EndedIn;
  }

  lemma EndedMore(done: seq<Req>, req: Req)
    ensures EndedIn(done + [req]) == if !req.chunked && req.aborted then EndedIn(done) + [req] else EndedIn(done)
  {
    assert (done + [req])[..|done|] == done;
  }

  /** The rows of `rows` that are in `some`, in order. */
  ghost function Among(rows: seq<int>, some: set<int>): seq<int> {
    if rows == [] then [] else
      var n := |rows| - 1;
      Among(rows[..n], some) + if rows[n] in some then [rows[n]] else []
  }

  /** Who ended with a step, by row: the requests of the batch that are over, in the order of the batch. */
  lemma {:induction false} EndedRows(reqs: seq<Req>, n: nat, running: seq<Req>, jobs: Jobs, ext: int, eos: int)
    requires Noted(reqs, running, jobs, eos) && JobsFine(jobs, ext, eos) && n <= |reqs| && Distinct(ReqRows(reqs))
    ensures ReqRows(EndedIn(reqs[..n])) == Among(ReqRows(reqs)[..n], OverRows(jobs, eos))
  {
    if n > 0 {
      EndedRows(reqs, n - 1, running, jobs, ext, eos);
      assert reqs[..n][..n - 1] == reqs[..n - 1] && ReqRows(reqs)[..n][..n - 1] == ReqRows(reqs)[..n - 1];
      EndedRow(reqs, n - 1, running, jobs, ext, eos);
    }
  }

  lemma EndedRow(reqs: seq<Req>, i: nat, running: seq<Req>, jobs: Jobs, ext: int, eos: int)
    requires Noted(reqs, running, jobs, eos) && JobsFine(jobs, ext, eos) && i < |reqs| && Distinct(ReqRows(reqs))
    ensures !reqs[i].chunked && reqs[i].aborted <==> reqs[i].tableIdx in OverRows(jobs, eos)
  {
    var r := reqs[i];
    SteppedFacts(reqs, running, jobs, ext, eos, r);
    if r.chunked {
      forall q | q in Stepped(running, reqs) ensures q.tableIdx != r.tableIdx || !q.aborted {
        assert ReqIs(q, jobs, eos);
        if k :| 0 <= k < |reqs| && reqs[k] == q {
          assert k == i || ReqRows(reqs)[k] != ReqRows(reqs)[i];
        }
      }
      if r.tableIdx in OverRows(jobs, eos) {
        OverIsDecoding(jobs, ext, eos, r.tableIdx);
        var q :| q in Stepped(running, reqs) && q.tableIdx == r.tableIdx;
        SteppedFacts(reqs, running, jobs, ext, eos, q);
      }
    }
  }

  lemma Alone(reqs: seq<Req>, n: nat)
    requires n < |reqs| && Distinct(ReqRows(reqs))
    ensures reqs[n] !in reqs[..n] && reqs[..n + 1] == reqs[..n] + [reqs[n]]
    ensures forall i :: 0 <= i < |reqs| && i != n ==> reqs[i] != reqs[n]
  {
    var rows := ReqRows(reqs);
    assert forall i :: 0 <= i < |reqs| && i != n ==> rows[i] != rows[n];
  }

  lemma PlainPart(reqs: seq<Req>, n: nat)
    requires n < |reqs|
    ensures Plain([reqs[n]]) <= Plain(reqs)
  {}

  /** The request number `n` of the batch. */
  method NoteNext(batch: Batch, n: nat, tok: int, eos: int, finished: seq<Req>, fullIds: map<int, seq<int>>,
                  ghost jobs: Jobs, ghost ext: int)
    returns (finished': seq<Req>, fullIds': map<int, seq<int>>, ghost jobs': Jobs)
    requires n < |batch.reqs| && Distinct(ReqRows(batch.reqs)) && Noting(batch.reqs, n, batch.prefill, jobs, eos)
    requires JobsFine(jobs, ext, eos) && HistoryOk(fullIds, jobs) && FinishedOf(finished, batch.reqs[..n])
    modifies Plain([batch.reqs[n]])
    ensures Noting(batch.reqs, n + 1, batch.prefill, jobs', eos) && JobsFine(jobs', ext, eos)
            && HistoryOk(fullIds', jobs')
    ensures FinishedOf(finished', batch.reqs[..n + 1])
    ensures var r := batch.reqs[n];
            if r.chunked then jobs' == jobs
            else r.tableIdx in jobs && jobs' == jobs[r.tableIdx := Emit(jobs[r.tableIdx], tok)]
  {
    var req, reqs := batch.reqs[n], batch.reqs;
    finished', fullIds', jobs' := finished, fullIds, jobs;
    Alone(reqs, n);
    hide ReqIs, JobsFine, HistoryOk, Over, InFlight, Decoding, Distinct, FinishedOf;
    if !req.chunked {
      fullIds', jobs' := NoteToken(req, tok, batch.prefill, eos, fullIds, jobs, ext);
      finished' := if req.aborted then finished + [req] else finished;
    }
    NotingMore(reqs, n, batch.prefill, jobs, jobs', eos);
    FinishedMore(finished, reqs[..n], req);
  }

  /** Every complete request of the batch gets its token; `finished` are those that end with it. */
  method NoteTokens(batch: Batch, sample: nat -> int, eos: int, fullIds: map<int, seq<int>>, ghost running: seq<Req>,
                    ghost jobs: Jobs, ghost ext: int)
    returns (finished: seq<Req>, fullIds': map<int, seq<int>>, ghost jobs': Jobs)
    requires BatchOk(batch, running, jobs, eos) && RunningOk(running, jobs, eos) && JobsFine(jobs, ext, eos)
    requires forall row {:trigger jobs[row]} :: row in DecodingRows(jobs) ==> !Over(jobs[row], eos)
    requires HistoryOk(fullIds, jobs)
    modifies Plain(batch.reqs)
    ensures JobsFine(jobs', ext, eos) && HistoryOk(fullIds', jobs')
    ensures Sampled(batch.reqs, |batch.reqs|, sample, jobs, jobs')
    ensures Noting(batch.reqs, |batch.reqs|, batch.prefill, jobs', eos)
    ensures Distinct(finished) && forall r :: r in finished <==> r in Plain(batch.reqs) && r.aborted
    ensures finished == EndedIn(batch.reqs)
  {
    hide *;
    NotingStart(batch, running, jobs, eos);
    BatchFacts(batch, running, jobs, eos);
    SampledNone(batch.reqs, sample, jobs);
    FinishedNone();
    finished, fullIds', jobs' := [], fullIds, jobs;
    for i := 0 to |batch.reqs|
      invariant Noting(batch.reqs, i, batch.prefill, jobs', eos) && Sampled(batch.reqs, i, sample, jobs, jobs')
      invariant JobsFine(jobs', ext, eos) && HistoryOk(fullIds', jobs')
      invariant FinishedOf(finished, batch.reqs[..i])
    {
      ghost var was := jobs';
      PlainPart(batch.reqs, i);
      finished, fullIds', jobs' := NoteNext(batch, i, sample(i), eos, finished, fullIds', was, ext);
      SampledMore(batch.reqs, i, sample, jobs, was, jobs');
    }
    assert batch.reqs[..|batch.reqs|] == batch.reqs;
    FinishedAre(finished, batch.reqs);
  }

  /** The part of a batch that no step of its requests can change. */
  ghost predicate BatchShape(batch: Batch, running: seq<Req>, jobs: Jobs) {
    && Distinct(ReqRows(batch.reqs)) && Lists(ReqRows(running), DecodingRows(jobs))
    && if batch.prefill then InFlightRows(jobs) == RowsOf(Plain(batch.reqs))
       else InFlightRows(jobs) == {} && (set r | r in running) == Plain(batch.reqs)
  }

  lemma ShapeOf(batch: Batch, running: seq<Req>, jobs: Jobs, eos: int)
    requires BatchOk(batch, running, jobs, eos) && RunningOk(running, jobs, eos)
    ensures BatchShape(batch, running, jobs)
    ensures forall r :: r in running ==> ReqIs(r, jobs, eos)
    ensures forall r :: r in batch.reqs && r.chunked ==> !r.aborted
  {
    assert forall r :: r in running ==> ReqIs(r, jobs, eos);
    if batch.prefill {
      assert InFlightRows(jobs) == RowsOf(Plain(batch.reqs));
    } else {
      forall r ensures r in running <==> r in Plain(batch.reqs) {
        assert r in multiset(running) <==> r in multiset(batch.reqs);
      }
    }
  }

  lemma RowOfPlain(reqs: seq<Req>, n: nat)
    requires n < |reqs| && Distinct(ReqRows(reqs))
    ensures forall r :: r in reqs && r.tableIdx == reqs[n].tableIdx ==> r == reqs[n]
  {
    var rows := ReqRows(reqs);
    forall r | r in reqs && r.tableIdx == reqs[n].tableIdx ensures r == reqs[n] {
      var k :| 0 <= k < |reqs| && reqs[k] == r;
      assert rows[k] == rows[n];
    }
  }

  lemma ShapeApart(batch: Batch, running: seq<Req>, jobs: Jobs)
    requires BatchShape(batch, running, jobs)
    ensures Apart(Stepped(running, batch.reqs)) && Distinct(running)
    ensures RowsOf(Stepped(running, batch.reqs)) == DecodingRows(jobs) + InFlightRows(jobs)
  {
    var rows, all := ReqRows(running), Stepped(running, batch.reqs);
    forall r | r in running ensures r.tableIdx in DecodingRows(jobs) {
      var k :| 0 <= k < |running| && running[k] == r;
      assert rows[k] in rows;
    }
    forall row | row in DecodingRows(jobs) ensures row in RowsOf(all) {
      assert row in rows;
      var k :| 0 <= k < |rows| && rows[k] == row;
      assert running[k] in all;
    }
    forall a, b | a in all && b in all && a.tableIdx == b.tableIdx ensures a == b {
      if a in running && b in running {
        var i :| 0 <= i < |running| && running[i] == a;
        var k :| 0 <= k < |running| && running[k] == b;
        assert rows[i] == rows[k];
      } else if a in Plain(batch.reqs) && b in Plain(batch.reqs) {
        var i :| 0 <= i < |batch.reqs| && batch.reqs[i] == a;
        RowOfPlain(batch.reqs, i);
      }
    }
    forall i, k | 0 <= i < k < |running| ensures running[i] != running[k] {
      assert rows[i] != rows[k];
    }
  }

  lemma SampledRow(reqs: seq<Req>, jobs: Jobs, jobs': Jobs, sample: nat -> int, row: int)
    requires Sampled(reqs, |reqs|, sample, jobs, jobs') && row in jobs
    ensures row in jobs'
    ensures if row in RowsOf(Plain(reqs))
               then jobs'[row].out != [] && Done(jobs'[row]) == Done(jobs[row])
                    && jobs'[row].prompt == jobs[row].prompt
            else jobs'[row] == jobs[row]
  {
    if row in RowsOf(Plain(reqs)) {
      var r :| r in Plain(reqs) && r.tableIdx == row;
      var i :| 0 <= i < |reqs| && reqs[i] == r;
    }
  }

  lemma SampledKinds(jobs: Jobs, jobs': Jobs, rows: set<int>)
    requires jobs'.Keys == jobs.Keys && InFlightRows(jobs) <= rows <= DecodingRows(jobs) + InFlightRows(jobs)
    requires forall row :: row in rows ==>
               row in jobs && jobs'[row].out != [] && Done(jobs'[row]) == Done(jobs[row])
               && jobs'[row].prompt == jobs[row].prompt
    requires forall row :: row in jobs && row !in rows ==> jobs'[row] == jobs[row]
    ensures DecodingRows(jobs') == DecodingRows(jobs) + InFlightRows(jobs) && InFlightRows(jobs') == {}
    ensures QueuedRows(jobs') == QueuedRows(jobs) && forall row :: row in QueuedRows(jobs) ==>
              row in jobs' && jobs'[row] == jobs[row]
  {
    forall row ensures row in jobs <==> row in jobs' {
      assert row in jobs.Keys <==> row in jobs'.Keys;
    }
    forall row | row in jobs && row in jobs'
      ensures Decoding(jobs'[row]) <==> Decoding(jobs[row]) || InFlight(jobs[row])
      ensures !InFlight(jobs'[row]) && (Queued(jobs'[row]) <==> Queued(jobs[row]))
      ensures Queued(jobs[row]) ==> jobs'[row] == jobs[row]
    {
      assert InFlight(jobs[row]) ==> row in InFlightRows(jobs);
      assert row in rows ==> row in DecodingRows(jobs) + InFlightRows(jobs);
    }
  }

  lemma SampledRows(batch: Batch, running: seq<Req>, jobs: Jobs, jobs': Jobs, sample: nat -> int)
    requires BatchShape(batch, running, jobs) && Sampled(batch.reqs, |batch.reqs|, sample, jobs, jobs')
    ensures DecodingRows(jobs') == DecodingRows(jobs) + InFlightRows(jobs) && InFlightRows(jobs') == {}
    ensures QueuedRows(jobs') == QueuedRows(jobs) && forall row :: row in QueuedRows(jobs) ==>
              row in jobs' && jobs'[row] == jobs[row]
    ensures forall r :: r in running && r !in Plain(batch.reqs) ==>
              r.tableIdx in jobs && r.tableIdx in jobs' && jobs'[r.tableIdx] == jobs[r.tableIdx]
  {
    ShapeApart(batch, running, jobs);
    var reqs := batch.reqs;
    var rows := RowsOf(Plain(reqs));
    forall row | row in jobs
      ensures if row in rows
                 then jobs'[row].out != [] && Done(jobs'[row]) == Done(jobs[row])
                      && jobs'[row].prompt == jobs[row].prompt
              else jobs'[row] == jobs[row]
    {
      SampledRow(reqs, jobs, jobs', sample, row);
    }
    assert rows <= DecodingRows(jobs) + InFlightRows(jobs) <= jobs.Keys;
    SampledKinds(jobs, jobs', rows);
    forall r | r in running && r !in Plain(reqs) ensures r.tableIdx in jobs && jobs'[r.tableIdx] == jobs[r.tableIdx] {
      assert r in Stepped(running, reqs) && r.tableIdx in RowsOf(Stepped(running, reqs));
    }
  }

  /** After its tokens are noted, a batch is ready to be completed. */
  lemma NotedAfter(batch: Batch, running: seq<Req>, jobs: Jobs, jobs': Jobs, sample: nat -> int, eos: int)
    requires BatchShape(batch, running, jobs) && Sampled(batch.reqs, |batch.reqs|, sample, jobs, jobs')
    requires Noting(batch.reqs, |batch.reqs|, batch.prefill, jobs', eos)
    requires SatOut(Others(batch, running), CutShort(batch.reqs), jobs, eos)
    ensures Noted(batch.reqs, running, jobs', eos)
  {
    ShapeApart(batch, running, jobs);
    SampledRows(batch, running, jobs, jobs', sample);
    hide BatchShape, Sampled;
    forall r | r in Stepped(running, batch.reqs) ensures ReqIs(r, jobs', eos) {
      if r in Plain(batch.reqs) {
        var i :| 0 <= i < |batch.reqs| && batch.reqs[i] == r;
      } else {
        SatOutOne(batch, running, jobs, eos, r);
      }
    }
    forall r | r in running && r !in batch.reqs ensures !r.aborted {
      SatOutOne(batch, running, jobs, eos, r);
    }
    forall r | r in batch.reqs && r.chunked ensures !r.aborted {
      assert r in CutShort(batch.reqs);
    }
  }

  lemma SatOutOne(batch: Batch, running: seq<Req>, jobs: Jobs, eos: int, r: Req)
    requires SatOut(Others(batch, running), CutShort(batch.reqs), jobs, eos) && r in running && r !in Plain(batch.reqs)
    ensures ReqIs(r, jobs, eos) && !r.aborted
  {
    assert r in Others(batch, running);
  }

  // ---------------------------------------------------------------- a step as a relation on jobs

  /** The prompt tokens that a step extends. */
  ghost function TotalGrant(reqs: seq<Req>, jobs: Jobs, jobs': Jobs): int {
    if reqs == [] then 0 else
      var r := reqs[|reqs| - 1];
      TotalGrant(reqs[..|reqs| - 1], jobs, jobs') +
      if r.tableIdx in jobs && r.tableIdx in jobs' then Done(jobs'[r.tableIdx]) - Done(jobs[r.tableIdx]) else 0
  }

  ghost predicate RowGranted(r: Req, jobs: Jobs, jobs': Jobs, ext: int) {
    && r.tableIdx in jobs && r.tableIdx in jobs'
    && var j, j' := jobs[r.tableIdx], jobs'[r.tableIdx];
       && Queued(j) && Done(j) < Done(j') <= |j.prompt| && j' == Advance(j, Done(j')) && r.uid == j.uid
       && r.chunked == (Done(j') < |j.prompt|)
       && (if r.chunked then Done(j') - Done(j) == ext else Done(j') - Done(j) <= ext)
  }

  /** One slice for each request of a prefill batch, at most `ext` tokens in all; only a slice that
      ends its prompt may be shorter than the step. */
  ghost predicate Slices(reqs: seq<Req>, jobs: Jobs, jobs': Jobs, ext: int) {
    && jobs'.Keys == jobs.Keys && Distinct(ReqRows(reqs)) && reqs != [] && TotalGrant(reqs, jobs, jobs') <= ext
    && (forall r {:trigger RowGranted(r, jobs, jobs', ext)} :: r in reqs ==> RowGranted(r, jobs, jobs', ext))
    && (forall row :: row in jobs && row !in ReqRows(reqs) ==> jobs'[row] == jobs[row])
  }

  /** A decode batch holds every decoding request, once. */
  ghost predicate DecodeAll(reqs: seq<Req>, jobs: Jobs) {
    && Distinct(ReqRows(reqs)) && reqs != []
    && (forall r :: r in reqs ==> !r.chunked && r.tableIdx in DecodingRows(jobs) && r.uid == jobs[r.tableIdx].uid)
    && (forall row :: row in DecodingRows(jobs) ==> row in ReqRows(reqs))
  }

  /** One step: a prefill batch extends prompts, a decode batch takes every decoding request; then
      every complete request of the batch gets one token. */
  ghost predicate StepRel(batch: Batch, sample: nat -> int, jobs: Jobs, mid: Jobs, noted: Jobs, ext: int) {
    && (if batch.prefill then Slices(batch.reqs, jobs, mid, ext) else mid == jobs && DecodeAll(batch.reqs, jobs))
    && Sampled(batch.reqs, |batch.reqs|, sample, mid, noted)
  }

  lemma {:induction false} GrantIsExtend(reqs: seq<Req>, jobs: Jobs, jobs': Jobs, ext: int)
    requires forall r {:trigger GrantOk(r, jobs, jobs', ext)} :: r in reqs ==> GrantOk(r, jobs, jobs', ext)
    ensures TotalGrant(reqs, jobs, jobs') == TotalExtend(reqs)
  {
    if reqs != [] {
      var n := |reqs| - 1;
      assert GrantOk(reqs[n], jobs, jobs', ext);
      forall r | r in reqs[..n] ensures GrantOk(r, jobs, jobs', ext) {
        assert r in reqs;
      }
      GrantIsExtend(reqs[..n], jobs, jobs', ext);
    }
  }

  lemma GrantedSlices(reqs: seq<Req>, jobs: Jobs, jobs': Jobs, ext: int)
    requires Granted(reqs, jobs, jobs', ext) && 0 < TotalExtend(reqs) <= ext
    ensures Slices(reqs, jobs, jobs', ext)
  {
    assert forall r :: r in reqs ==> GrantOk(r, jobs, jobs', ext);
    GrantIsExtend(reqs, jobs, jobs', ext);
    forall r | r in reqs ensures RowGranted(r, jobs, jobs', ext) {
      assert GrantOk(r, jobs, jobs', ext);
    }
  }

  lemma DecodesAll(running: seq<Req>, jobs: Jobs, eos: int)
    requires RunningOk(running, jobs, eos) && SortByUid(running) != []
    ensures DecodeAll(SortByUid(running), jobs)
  {
    var reqs := SortByUid(running);
    SortKeeps(running);
    SortedRows(running, reqs);
    ListsSorted(ReqRows(running), ReqRows(reqs), DecodingRows(jobs));
    forall r | r in reqs
      ensures r in running && !r.chunked && r.tableIdx in DecodingRows(jobs) && r.uid == jobs[r.tableIdx].uid {
      assert r in multiset(reqs);
      assert r in running && ReqIs(r, jobs, eos);
      var k :| 0 <= k < |running| && running[k] == r;
      assert ReqRows(running)[k] in DecodingRows(jobs);
    }
  }

  /** What the scheduler's batch means for the jobs, before any token is sampled. */
  lemma ScheduledBatch(batch: Batch, running: seq<Req>, jobs: Jobs, mid: Jobs, ext: int, eos: int)
    requires BatchOk(batch, running, mid, eos) && RunningOk(running, jobs, eos) && batch.reqs != []
    requires if batch.prefill then Granted(batch.reqs, jobs, mid, ext) && 0 < TotalExtend(batch.reqs) <= ext
             else mid == jobs && batch.reqs == SortByUid(running)
    ensures if batch.prefill then Slices(batch.reqs, jobs, mid, ext) else mid == jobs && DecodeAll(batch.reqs, jobs)
  {
    if batch.prefill {
      GrantedSlices(batch.reqs, jobs, mid, ext);
    } else {
      DecodesAll(running, jobs, eos);
    }
  }

  lemma ScheduledJobs(batch: Batch, jobs: Jobs, mid: Jobs, ext: int, eos: int, fullIds: map<int, seq<int>>)
    requires if batch.prefill then Slices(batch.reqs, jobs, mid, ext) else mid == jobs
    requires AtRest(jobs, eos) && HistoryOk(fullIds, jobs) && DecodingRows(mid) == DecodingRows(jobs)
    ensures mid.Keys == jobs.Keys && forall row :: row in jobs ==> SameRequest(jobs[row], mid[row])
    ensures HistoryOk(fullIds, mid)
    ensures forall row {:trigger mid[row]} :: row in DecodingRows(mid) ==> !Over(mid[row], eos)
  {
    forall row | row in jobs
      ensures SameRequest(jobs[row], mid[row]) && mid[row].out == jobs[row].out && !Over(mid[row], eos) {
      assert !Over(jobs[row], eos);
      if batch.prefill && row in ReqRows(batch.reqs) {
        var k :| 0 <= k < |batch.reqs| && ReqRows(batch.reqs)[k] == row;
        assert RowGranted(batch.reqs[k], jobs, mid, ext);
      }
    }
  }

  lemma SameRows(running: seq<Req>, jobs: Jobs, mid: Jobs, eos: int)
    requires RunningOk(running, jobs, eos) && Lists(ReqRows(running), DecodingRows(mid))
    ensures DecodingRows(mid) == DecodingRows(jobs)
  {
    forall row ensures row in DecodingRows(mid) <==> row in DecodingRows(jobs) {
      assert row in DecodingRows(mid) <==> row in ReqRows(running);
      assert row in DecodingRows(jobs) <==> row in ReqRows(running);
    }
  }

  lemma RunningLists(running: seq<Req>, jobs: Jobs, eos: int)
    requires RunningOk(running, jobs, eos)
    ensures Lists(ReqRows(running), DecodingRows(jobs))
  {}

  /** The whole step, once the tokens are noted. */
  lemma StepDone(batch: Batch, sample: nat -> int, jobs: Jobs, mid: Jobs, noted: Jobs, ext: int)
    requires if batch.prefill then Slices(batch.reqs, jobs, mid, ext) else mid == jobs && DecodeAll(batch.reqs, jobs)
    requires Sampled(batch.reqs, |batch.reqs|, sample, mid, noted)
    requires mid.Keys == jobs.Keys && forall row :: row in jobs ==> SameRequest(jobs[row], mid[row])
    ensures StepRel(batch, sample, jobs, mid, noted, ext)
    ensures noted.Keys == jobs.Keys && forall row :: row in jobs ==> SameRequest(jobs[row], noted[row])
  {
    SampledSame(batch.reqs, sample, mid, noted);
  }

  lemma ChunksNotPlain(line: seq<PendingReq>, jobs: Jobs, reqs: seq<Req>)
    requires QueueOk(line, jobs)
    ensures forall p :: p in line && p.chunkedReq != null ==> p.chunkedReq !in Plain(reqs)
  {
    forall p | p in line && p.chunkedReq != null ensures p.chunkedReq !in Plain(reqs) {
      assert EntryOk(p, jobs);
    }
  }

  /** A step changes how far requests have got, not what they are. */
  lemma SampledSame(reqs: seq<Req>, sample: nat -> int, jobs: Jobs, jobs': Jobs)
    requires Sampled(reqs, |reqs|, sample, jobs, jobs')
    ensures forall row :: row in jobs ==> row in jobs' && SameRequest(jobs[row], jobs'[row])
  {
    forall row | row in jobs ensures row in jobs' && SameRequest(jobs[row], jobs'[row]) {
      if i :| 0 <= i < |reqs| && !reqs[i].chunked && reqs[i].tableIdx == row {
      }
    }
  }

  /** Which requests the tokens can touch. */
  lemma BatchFrame(batch: Batch, running: seq<Req>, jobs: Jobs)
    requires BatchShape(batch, running, jobs)
    ensures Plain(batch.reqs) <= set r | r in batch.reqs
    ensures !batch.prefill ==> Plain(batch.reqs) == set r | r in running
    ensures forall r :: r in batch.reqs && r.chunked ==> r !in Plain(batch.reqs)
  {}

  lemma SortedSame(running: seq<Req>)
    ensures forall r :: r in SortByUid(running) ==> r in running
  {
    SortKeeps(running);
    forall r | r in SortByUid(running) ensures r in running {
      assert r in multiset(SortByUid(running));
    }
  }

  /** A scheduled batch, before its tokens are noted. */
  lemma ScheduledFacts(batch: Batch, line: seq<PendingReq>, running: seq<Req>, jobs: Jobs, mid: Jobs, ext: int,
                       eos: int, fullIds: map<int, seq<int>>)
    requires BatchOk(batch, running, mid, eos) && RunningOk(running, jobs, eos) && RunningOk(running, mid, eos)
             && batch.reqs != []
    requires if batch.prefill then Granted(batch.reqs, jobs, mid, ext) && 0 < TotalExtend(batch.reqs) <= ext
             else mid == jobs && batch.reqs == SortByUid(running)
    requires QueueOk(line, mid) && AtRest(jobs, eos) && HistoryOk(fullIds, jobs)
    ensures if batch.prefill then Slices(batch.reqs, jobs, mid, ext) else mid == jobs && DecodeAll(batch.reqs, jobs)
    ensures mid.Keys == jobs.Keys && forall row :: row in jobs ==> SameRequest(jobs[row], mid[row])
    ensures HistoryOk(fullIds, mid) && forall row {:trigger mid[row]} :: row in DecodingRows(mid) ==>
              !Over(mid[row], eos)
    ensures forall p :: p in line && p.chunkedReq != null ==> p.chunkedReq !in Plain(batch.reqs)
    ensures Plain(batch.reqs) <= set r | r in batch.reqs
    ensures !batch.prefill ==> Plain(batch.reqs) == set r | r in running
    ensures !batch.prefill ==> forall r :: r in batch.reqs ==> r in running
  {
    hide *;
    RunningLists(running, mid, eos);
    SameRows(running, jobs, mid, eos);
    ScheduledBatch(batch, running, jobs, mid, ext, eos);
    ScheduledJobs(batch, jobs, mid, ext, eos, fullIds);
    ChunksNotPlain(line, mid, batch.reqs);
    ShapeOf(batch, running, mid, eos);
    BatchFrame(batch, running, mid);
    SortedSame(running);
  }

  /** The requests of the decode set and the cut prompts as they are before the step. */
  ghost predicate SatOut(rs: set<Req>, cut: set<Req>, jobs: Jobs, eos: int)
    reads rs, cut
  {
    && (forall r {:trigger ReqIs(r, jobs, eos)} :: r in rs ==> ReqIs(r, jobs, eos) && !r.aborted)
    && (forall r :: r in cut ==> !r.aborted)
  }

  ghost function Others(batch: Batch, running: seq<Req>): set<Req> {
    (set r | r in running) - Plain(batch.reqs)
  }

  ghost function CutShort(reqs: seq<Req>): set<Req> {
    set r | r in reqs && r.chunked
  }

  lemma SitsOut(batch: Batch, running: seq<Req>, jobs: Jobs, eos: int)
    requires BatchOk(batch, running, jobs, eos) && RunningOk(running, jobs, eos)
    requires forall row {:trigger jobs[row]} :: row in DecodingRows(jobs) ==> !Over(jobs[row], eos)
    ensures SatOut(Others(batch, running), CutShort(batch.reqs), jobs, eos)
    ensures Others(batch, running) !! Plain(batch.reqs) && CutShort(batch.reqs) !! Plain(batch.reqs)
  {
    forall r | r in running ensures ReqIs(r, jobs, eos) && !r.aborted {
      assert ReqIs(r, jobs, eos);
      var k :| 0 <= k < |running| && running[k] == r;
      assert ReqRows(running)[k] in DecodingRows(jobs);
      assert !Over(jobs[r.tableIdx], eos);
    }
  }

  /** The bookkeeping of a step: tokens noted, batch ready to be completed. */
  method NoteBatch(batch: Batch, sample: nat -> int, eos: int, fullIds: map<int, seq<int>>, ghost running: seq<Req>,
                   ghost jobs: Jobs, ghost ext: int)
    returns (finished: seq<Req>, fullIds': map<int, seq<int>>, ghost jobs': Jobs)
    requires BatchOk(batch, running, jobs, eos) && RunningOk(running, jobs, eos) && JobsFine(jobs, ext, eos)
    requires forall row {:trigger jobs[row]} :: row in DecodingRows(jobs) ==> !Over(jobs[row], eos)
    requires HistoryOk(fullIds, jobs)
    modifies Plain(batch.reqs)
    ensures JobsFine(jobs', ext, eos) && HistoryOk(fullIds', jobs') && Noted(batch.reqs, running, jobs', eos)
    ensures Sampled(batch.reqs, |batch.reqs|, sample, jobs, jobs')
    ensures QueuedRows(jobs') == QueuedRows(jobs) && forall row :: row in QueuedRows(jobs) ==>
              row in jobs' && jobs'[row] == jobs[row]
    ensures Distinct(finished) && forall r :: r in finished <==> r in Plain(batch.reqs) && r.aborted
    ensures ReqRows(finished) == Among(ReqRows(batch.reqs), OverRows(jobs', eos))
  {
    hide *;
    BatchFacts(batch, running, jobs, eos);
    ShapeOf(batch, running, jobs, eos);
    SitsOut(batch, running, jobs, eos);
    ghost var others, cut := Others(batch, running), CutShort(batch.reqs);
    assert SatOut(others, cut, jobs, eos);
    label Before:
    finished, fullIds', jobs' := NoteTokens(batch, sample, eos, fullIds, running, jobs, ext);
    assert forall r: Req :: r in others ==> r !in Plain(batch.reqs);
    assert forall r: Req :: r in others ==> old@Before(allocated(r));
    assert SatOut(others, cut, jobs, eos);
    SampledRows(batch, running, jobs, jobs', sample);
    NotedAfter(batch, running, jobs, jobs', sample, eos);
    EndedRows(batch.reqs, |batch.reqs|, running, jobs', ext, eos);
    assert batch.reqs[..|batch.reqs|] == batch.reqs && ReqRows(batch.reqs)[..|batch.reqs|] == ReqRows(batch.reqs);
  }
}
