/** Whole runs: how many steps the live requests still need, and the tokens a run collects. */
module Progress {
  import opened Arith
  import opened Finite
  import opened Rosters
  import opened Requests
  import opened Prefill
  import opened Decode
  import opened Scheduling
  import opened Stepping

  // ---------------------------------------------------------------- steps still needed

  /** The steps a live request still takes part in, at most. */
  ghost function Need(j: Job, ext: int): int
    requires ext > 0
  {
    if Queued(j) then CeilDiv(|j.prompt| - Done(j), ext) + Max(1, j.outputLen) - 1 else Max(1, j.outputLen) - |j.out|
  }

  ghost function TotalNeed(jobs: Jobs, ext: int): int
    requires ext > 0
  {
    if jobs.Keys == {} then 0 else
      var row := Pick(jobs.Keys);
      Need(jobs[row], ext) + TotalNeed(jobs - {row}, ext)
  }

  lemma {:induction false} TotalNeedLess(jobs: Jobs, row: int, ext: int)
    requires ext > 0 && row in jobs
    ensures TotalNeed(jobs, ext) == Need(jobs[row], ext) + TotalNeed(jobs - {row}, ext)
    decreases |jobs|
  {
    hide Need;
    var p := Pick(jobs.Keys);
    if p != row {
      TotalNeedLess(jobs - {p}, row, ext);
      assert jobs - {p} - {row} == jobs - {row} - {p};
      TotalNeedLess(jobs - {row}, p, ext);
    }
  }

  /** A live request needs at least one more step. */
  lemma NeedsOne(j: Job, ext: int, eos: int)
    requires ext > 0 && Fine(j, ext, eos)
    ensures Need(j, ext) >= 0 && (!InFlight(j) && !Over(j, eos) ==> Need(j, ext) >= 1)
  {}

  lemma {:induction false} NoNeed(jobs: Jobs, ext: int, eos: int)
    requires ext > 0 && JobsFine(jobs, ext, eos) && AtRest(jobs, eos)
    ensures TotalNeed(jobs, ext) >= |jobs|
    decreases |jobs|
  {
    if jobs.Keys != {} {
      var row := Pick(jobs.Keys);
      assert Fine(jobs[row], ext, eos) && !InFlight(jobs[row]) && !Over(jobs[row], eos);
      NeedsOne(jobs[row], ext, eos);
      LessJobs(jobs, row, ext, eos);
      NoNeed(jobs - {row}, ext, eos);
      assert jobs.Keys == (jobs - {row}).Keys + {row};
    }
  }

  /** Fewer requests that each need no more need no more in all. */
  lemma {:induction false} NeedsNoMore(jobs: Jobs, jobs': Jobs, ext: int)
    requires ext > 0 && jobs'.Keys <= jobs.Keys
    requires forall row {:trigger jobs[row]} :: row in jobs ==> Need(jobs[row], ext) >= 0
    requires forall row {:trigger jobs'[row]} :: row in jobs' ==> Need(jobs'[row], ext) <= Need(jobs[row], ext)
    ensures TotalNeed(jobs', ext) <= TotalNeed(jobs, ext)
    decreases |jobs|
  {
    hide Need;
    if jobs.Keys == {} {
      assert jobs' == jobs;
    } else {
      var row := Pick(jobs.Keys);
      assert Need(jobs[row], ext) >= 0;
      NeedsNoMore(jobs - {row}, jobs' - {row}, ext);
      if row in jobs' {
        TotalNeedLess(jobs', row, ext);
      } else {
        assert jobs' - {row} == jobs';
      }
    }
  }

  lemma NeedsLess(jobs: Jobs, jobs': Jobs, ext: int, row: int)
    requires ext > 0 && jobs'.Keys <= jobs.Keys && row in jobs
    requires forall r {:trigger jobs[r]} :: r in jobs ==> Need(jobs[r], ext) >= 0
    requires forall r {:trigger jobs'[r]} :: r in jobs' ==> Need(jobs'[r], ext) <= Need(jobs[r], ext)
    requires if row in jobs' then Need(jobs'[row], ext) < Need(jobs[row], ext) else Need(jobs[row], ext) >= 1
    ensures TotalNeed(jobs', ext) < TotalNeed(jobs, ext)
  {
    hide Need;
    NeedsNoMore(jobs - {row}, jobs' - {row}, ext);
    TotalNeedLess(jobs, row, ext);
    if row in jobs' {
      TotalNeedLess(jobs', row, ext);
    } else {
      assert jobs' - {row} == jobs';
    }
  }

  /** A row in the batch: its prompt was extended or complete, and if it is complete it got a token. */
  lemma RowTaken(batch: Batch, sample: nat -> int, jobs: Jobs, mid: Jobs, noted: Jobs, ext: int, row: int)
    returns (k: nat)
    requires StepRel(batch, sample, jobs, mid, noted, ext) && row in ReqRows(batch.reqs)
    ensures k < |batch.reqs| && row in jobs && row in mid && row in noted
    ensures if batch.prefill
               then RowGranted(batch.reqs[k], jobs, mid, ext)
            else mid == jobs && Decoding(jobs[row]) && !batch.reqs[k].chunked
    ensures batch.reqs[k].tableIdx == row
    ensures noted[row] == if batch.reqs[k].chunked then mid[row] else Emit(mid[row], sample(k))
  {
    var reqs := batch.reqs;
    k :| 0 <= k < |reqs| && ReqRows(reqs)[k] == row;
    assert reqs[k] in reqs;
    RowShared(reqs, k);
    if batch.prefill {
      assert RowGranted(reqs[k], jobs, mid, ext);
    }
  }

  lemma RowLeftAlone(batch: Batch, sample: nat -> int, jobs: Jobs, mid: Jobs, noted: Jobs, ext: int, row: int)
    requires StepRel(batch, sample, jobs, mid, noted, ext) && row in jobs && row !in ReqRows(batch.reqs)
    ensures row in noted && noted[row] == jobs[row]
  {
    var reqs := batch.reqs;
    forall i | 0 <= i < |reqs| ensures reqs[i].tableIdx != row {
      assert ReqRows(reqs)[i] == reqs[i].tableIdx;
    }
  }

  lemma LiveRow(jobs: Jobs, ext: int, eos: int, row: int)
    requires JobsFine(jobs, ext, eos) && AtRest(jobs, eos) && row in jobs
    ensures Fine(jobs[row], ext, eos) && !InFlight(jobs[row]) && !Over(jobs[row], eos)
  {}

  /** What a step does for the request in one row. */
  lemma RowStep(batch: Batch, sample: nat -> int, jobs: Jobs, mid: Jobs, noted: Jobs, ext: int, eos: int, row: int)
    requires ext > 0 && StepRel(batch, sample, jobs, mid, noted, ext) && JobsFine(jobs, ext, eos) && AtRest(jobs, eos)
             && row in jobs
    ensures row in noted
    ensures row !in ReqRows(batch.reqs) ==> noted[row] == jobs[row]
    ensures row in ReqRows(batch.reqs) ==> Need(noted[row], ext) == Need(jobs[row], ext) - 1
  {
    hide StepRel, JobsFine, AtRest, ReqRows, CeilDiv;
    LiveRow(jobs, ext, eos, row);
    if row in ReqRows(batch.reqs) {
      var k := RowTaken(batch, sample, jobs, mid, noted, ext, row);
      if batch.prefill {
        var j, j' := jobs[row], mid[row];
        CeilDivStep(|j.prompt| - Done(j), Done(j') - Done(j), ext);
        CeilDivNone(ext);
      }
    } else {
      RowLeftAlone(batch, sample, jobs, mid, noted, ext, row);
    }
  }

  lemma CeilDivNone(d: nat)
    requires d > 0
    ensures CeilDiv(0, d) == 0
  {}

  lemma RowShared(reqs: seq<Req>, k: nat)
    requires k < |reqs| && Distinct(ReqRows(reqs))
    ensures forall i :: 0 <= i < |reqs| && reqs[i].tableIdx == reqs[k].tableIdx ==> i == k
  {
    var rows := ReqRows(reqs);
    assert forall i :: 0 <= i < |reqs| && i != k ==> rows[i] != rows[k];
  }

  /** Every step brings the live requests closer to their end. */
  lemma StepNeedsLess(batch: Batch, sample: nat -> int, jobs: Jobs, mid: Jobs, noted: Jobs, ext: int, eos: int)
    requires ext > 0 && StepRel(batch, sample, jobs, mid, noted, ext) && JobsFine(jobs, ext, eos) && AtRest(jobs, eos)
    requires JobsFine(noted, ext, eos)
    ensures TotalNeed(noted - OverRows(noted, eos), ext) < TotalNeed(jobs, ext)
  {
    var jobs' := noted - OverRows(noted, eos);
    StepKeys(batch, sample, jobs, mid, noted, ext);
    forall row | row in jobs
      ensures Need(jobs[row], ext) >= 1 && (row in noted ==> Need(noted[row], ext) <= Need(jobs[row], ext))
    {
      assert Fine(jobs[row], ext, eos) && !InFlight(jobs[row]) && !Over(jobs[row], eos);
      NeedsOne(jobs[row], ext, eos);
      RowStep(batch, sample, jobs, mid, noted, ext, eos, row);
    }
    var row := ReqRows(batch.reqs)[0];
    assert row in ReqRows(batch.reqs);
    RowStep(batch, sample, jobs, mid, noted, ext, eos, row);
    hide Need, StepRel, JobsFine, AtRest, Over;
    NeedsLess(jobs, jobs', ext, row);
  }

  lemma StepKeys(batch: Batch, sample: nat -> int, jobs: Jobs, mid: Jobs, noted: Jobs, ext: int)
    requires StepRel(batch, sample, jobs, mid, noted, ext)
    ensures noted.Keys == jobs.Keys && batch.reqs != [] && ReqRows(batch.reqs) != [] && ReqRows(batch.reqs)[0] in jobs
    ensures forall row :: row in jobs ==> SameRequest(jobs[row], noted[row])
    ensures Distinct(ReqRows(batch.reqs))
  {
    var reqs := batch.reqs;
    assert reqs[0] in reqs;
    if batch.prefill {
      assert RowGranted(reqs[0], jobs, mid, ext);
      forall row | row in jobs ensures SameRequest(jobs[row], mid[row]) {
        if row in ReqRows(reqs) {
          var k :| 0 <= k < |reqs| && ReqRows(reqs)[k] == row;
          assert RowGranted(reqs[k], jobs, mid, ext);
        }
      }
    }
    SampledSame(reqs, sample, mid, noted);
  }

  // ---------------------------------------------------------------- the step budget of a run

  /** The default number of steps for a run over the queued prompts. */
  function Budget(line: seq<PendingReq>, ext: int): int {
    if line == [] then 0 else
      var pr := line[|line| - 1];
      Budget(line[..|line| - 1], ext) + CeilDiv(|pr.inputIds|, Max(1, ext)) + pr.outputLen
  }

  /** A run takes no steps on a negative budget. */
  function Allowed(budget: int): nat {
    if budget < 0 then 0 else budget
  }

  lemma AllowedIs(budget: int)
    ensures Allowed(budget) == if budget < 0 then 0 else budget
  {}

  lemma NeedWithinBudget(j: Job, ext: int)
    requires ext > 0 && Queued(j) && j.cached <= Done(j) && j.outputLen >= 0
    ensures Need(j, ext) <= CeilDiv(|j.prompt|, ext) + j.outputLen
  {
    CeilDivLess(|j.prompt| - Done(j), |j.prompt|, ext);
  }

  lemma {:induction false} BudgetCovers(line: seq<PendingReq>, jobs: Jobs, ext: int, eos: int)
    requires ext > 0 && JobsFine(jobs, ext, eos) && AtRest(jobs, eos) && Lists(PendingRows(line), jobs.Keys)
    requires forall p {:trigger EntryOk(p, jobs)} :: p in line ==> EntryOk(p, jobs)
    requires forall p :: p in line ==> p.outputLen >= 0
    ensures TotalNeed(jobs, ext) <= Budget(line, ext)
    decreases |line|
  {
    var rows := PendingRows(line);
    if line == [] {
      ListsSize(rows, jobs.Keys);
      assert jobs.Keys == {};
    } else {
      var n, pr := |line| - 1, line[|line| - 1];
      var init, row := line[..n], pr.tableIdx;
      assert pr in line && EntryOk(pr, jobs) && rows[n] == row;
      ListsLess(rows, jobs.Keys, n);
      assert Without(rows, n) == PendingRows(init);
      LessJobs(jobs, row, ext, eos);
      forall p | p in init ensures EntryOk(p, jobs - {row}) {
        var k :| 0 <= k < n && init[k] == p;
        assert line[k] == p && rows[k] == p.tableIdx && EntryOk(p, jobs);
      }
      BudgetCovers(init, jobs - {row}, ext, eos);
      TotalNeedLess(jobs, row, ext);
      assert Fine(jobs[row], ext, eos);
      StepsJoined(jobs[row], ext);
      NeedWithinBudget(jobs[row], ext);
    }
  }

  /** A negative output length is taken off the budget but not off the work: one prompt token and an
      output length of -1 give a budget of no steps for a prompt that has to be in one. */
  lemma NegativeOutputStarves(pr: PendingReq)
    requires |pr.inputIds| == 1 && pr.outputLen == -1 && pr.cachedLen == 0
    ensures Allowed(Budget([pr], 1)) < PrefillLeft(NewJob(pr), 1)
  {
    assert [pr][..0] == [];
  }

  /** The budget covers a prompt that is live alone, up to the cut: if its output length is negative, the
      part already done must save as many steps as the output length takes off. */
  ghost predicate CoversOne(pr: PendingReq, j: Job, ext: int)
    requires ext > 0
  {
    pr.outputLen >= 0 || CeilDiv(|pr.inputIds|, ext) - PrefillLeft(j, ext) >= -pr.outputLen
  }

  /** The queue holds one prompt, and the budget covers it. */
  ghost predicate CoveredAlone(line: seq<PendingReq>, jobs: Jobs, ext: int)
    reads line
  {
    ext > 0 && |line| == 1 && line[0].tableIdx in jobs && CoversOne(line[0], jobs[line[0].tableIdx], ext)
  }

  /** For one prompt alone the budget covers the work exactly under that condition; otherwise it is not
      even enough for the prompt. */
  lemma BudgetOfOne(line: seq<PendingReq>, jobs: Jobs, ext: int, eos: int)
    requires ext > 0 && |line| == 1 && JobsFine(jobs, ext, eos) && Lists(PendingRows(line), jobs.Keys)
             && EntryOk(line[0], jobs)
    ensures line[0].tableIdx in jobs
    ensures CoversOne(line[0], jobs[line[0].tableIdx], ext) <==> TotalNeed(jobs, ext) <= Budget(line, ext)
    ensures !CoversOne(line[0], jobs[line[0].tableIdx], ext) ==>
              PrefillLeft(jobs[line[0].tableIdx], ext) > Allowed(Budget(line, ext))
  {
    var pr, row := line[0], line[0].tableIdx;
    OnlyEntry(line, jobs, ext, eos);
    OneBudget(line, ext);
    hide *;
    OneNeed(jobs, row, ext);
    CoversOneIs(pr, jobs[row], ext);
    AllowedIs(Budget(line, ext));
  }

  lemma OnlyEntry(line: seq<PendingReq>, jobs: Jobs, ext: int, eos: int)
    requires ext > 0 && |line| == 1 && JobsFine(jobs, ext, eos) && Lists(PendingRows(line), jobs.Keys)
             && EntryOk(line[0], jobs)
    ensures var pr, row := line[0], line[0].tableIdx;
            && row in jobs && jobs.Keys == {row} && Queued(jobs[row]) && pr.outputLen == jobs[row].outputLen
            && pr.inputIds == jobs[row].prompt
            && PrefillLeft(jobs[row], ext) >= 1 && PrefillLeft(jobs[row], ext) <= CeilDiv(|jobs[row].prompt|, ext)
  {
    var row := line[0].tableIdx;
    assert PendingRows(line)[0] == row && Fine(jobs[row], ext, eos);
    forall r | r in jobs ensures r == row {
      assert r in PendingRows(line);
    }
    var j := jobs[row];
    StepsJoined(j, ext);
    CeilDivLess(|j.prompt| - Done(j), |j.prompt|, ext);
  }

  lemma OneNeed(jobs: Jobs, row: int, ext: int)
    requires ext > 0 && jobs.Keys == {row} && row in jobs && Queued(jobs[row])
    ensures TotalNeed(jobs, ext) == PrefillLeft(jobs[row], ext)
              + (if jobs[row].outputLen > 1 then jobs[row].outputLen - 1 else 0)
  {
    TotalNeedLess(jobs, row, ext);
    assert (jobs - {row}).Keys == {};
  }

  lemma OneBudget(line: seq<PendingReq>, ext: int)
    requires ext > 0 && |line| == 1
    ensures Budget(line, ext) == CeilDiv(|line[0].inputIds|, ext) + line[0].outputLen
  {
    assert line[..0] == [];
  }

  lemma CoversOneIs(pr: PendingReq, j: Job, ext: int)
    requires ext > 0
    ensures CoversOne(pr, j, ext)
            <==> pr.outputLen >= 0 || CeilDiv(|pr.inputIds|, ext) - PrefillLeft(j, ext) >= -pr.outputLen
  {}

  // ---------------------------------------------------------------- too few steps

  /** The prefill steps that a request still has to be in. */
  ghost function PrefillLeft(j: Job, ext: int): nat
    requires ext > 0
  {
    if Queued(j) then CeilDiv(|j.prompt| - Done(j), ext) else 0
  }

  /** After `steps` steps a prompt that needs more of them is still live, and has used up one at most in
      each. */
  ghost predicate Behind(jobs0: Jobs, jobs: Jobs, ext: int, steps: nat) {
    ext > 0 ==> forall row {:trigger jobs0[row]} :: row in jobs0 && PrefillLeft(jobs0[row], ext) > steps ==>
      row in jobs && PrefillLeft(jobs[row], ext) + steps >= PrefillLeft(jobs0[row], ext)
  }

  lemma BehindStart(jobs: Jobs, ext: int)
    ensures Behind(jobs, jobs, ext, 0)
  {}

  lemma BehindAt(jobs0: Jobs, jobs: Jobs, ext: int, steps: nat, row: int)
    requires Behind(jobs0, jobs, ext, steps) && ext > 0 && row in jobs0 && PrefillLeft(jobs0[row], ext) > steps
    ensures row in jobs
  {}

  lemma BehindLater(jobs0: Jobs, jobs: Jobs, ext: int, steps: nat, more: nat)
    requires Behind(jobs0, jobs, ext, steps) && steps <= more
    ensures Behind(jobs0, jobs, ext, more)
  {}

  lemma PrefillStep(batch: Batch, sample: nat -> int, jobs: Jobs, mid: Jobs, noted: Jobs, ext: int, eos: int, row: int)
    requires ext > 0 && StepRel(batch, sample, jobs, mid, noted, ext) && JobsFine(jobs, ext, eos) && AtRest(jobs, eos)
             && row in jobs
    ensures row in noted && PrefillLeft(noted[row], ext) + 1 >= PrefillLeft(jobs[row], ext)
  {
    hide StepRel, JobsFine, AtRest, ReqRows, CeilDiv;
    LiveRow(jobs, ext, eos, row);
    if row in ReqRows(batch.reqs) {
      var k := RowTaken(batch, sample, jobs, mid, noted, ext, row);
      if batch.prefill {
        var j, j' := jobs[row], mid[row];
        CeilDivStep(|j.prompt| - Done(j), Done(j') - Done(j), ext);
        CeilDivNone(ext);
      }
    } else {
      RowLeftAlone(batch, sample, jobs, mid, noted, ext, row);
    }
  }

  lemma BehindMore(batch: Batch, sample: nat -> int, jobs0: Jobs, jobs: Jobs, mid: Jobs, noted: Jobs, ext: int,
                   eos: int, steps: nat)
    requires Behind(jobs0, jobs, ext, steps) && StepRel(batch, sample, jobs, mid, noted, ext)
             && JobsFine(jobs, ext, eos)
    requires JobsFine(noted, ext, eos) && AtRest(jobs, eos)
    ensures Behind(jobs0, noted - OverRows(noted, eos), ext, steps + 1)
  {
    if ext > 0 {
      forall row | row in jobs0 && PrefillLeft(jobs0[row], ext) > steps + 1
        ensures row in noted && row !in OverRows(noted, eos)
        ensures PrefillLeft(noted[row], ext) + steps + 1 >= PrefillLeft(jobs0[row], ext)
      {
        PrefillStep(batch, sample, jobs, mid, noted, ext, eos, row);
        assert Fine(noted[row], ext, eos);
      }
    }
  }

  // ---------------------------------------------------------------- the tokens of a run

  ghost predicate UidsApart(jobs: Jobs) {
    forall a, b {:trigger jobs[a], jobs[b]} :: a in jobs && b in jobs && jobs[a].uid == jobs[b].uid ==> a == b
  }

  /** The output collected for the request in `row`: what it has produced so far, or all of it. */
  ghost predicate TrackedRow(jobs0: Jobs, jobs: Jobs, tokens: map<int, seq<int>>, row: int, eos: int)
    requires row in jobs0
  {
    var u := jobs0[row].uid;
    && u in tokens
    && if row in jobs then SameRequest(jobs0[row], jobs[row]) && tokens[u] == jobs[row].out
       else ExactOutput(jobs0[row].(out := tokens[u]), eos)
  }

  ghost predicate Tracks(jobs0: Jobs, rows: set<int>, jobs: Jobs, tokens: map<int, seq<int>>, eos: int) {
    && jobs.Keys <= jobs0.Keys && rows <= jobs0.Keys && UidsApart(jobs0)
    && (forall row {:trigger jobs[row]} :: row in jobs ==> SameRequest(jobs0[row], jobs[row]))
    && (forall row {:trigger jobs0[row]} :: row in rows ==> TrackedRow(jobs0, jobs, tokens, row, eos))
  }

  /** No two requests of the batch share a uid. */
  ghost predicate BatchApart(reqs: seq<Req>) {
    forall i, k :: 0 <= i < k < |reqs| ==> reqs[i].uid != reqs[k].uid
  }

  function Got(tokens: map<int, seq<int>>, uid: int): seq<int> {
    if uid in tokens then tokens[uid] else []
  }

  /** `tokens'` is `tokens` with the tokens of the first `n` requests of the batch. */
  ghost predicate Collected(reqs: seq<Req>, n: nat, sample: nat -> int, tokens: map<int, seq<int>>,
                            tokens': map<int, seq<int>>)
    requires n <= |reqs|
  {
    && tokens.Keys <= tokens'.Keys
    && (forall i {:trigger reqs[i]} :: 0 <= i < n && !reqs[i].chunked ==>
          reqs[i].uid in tokens' && tokens'[reqs[i].uid] == Got(tokens, reqs[i].uid) + [sample(i)])
    && (forall u :: u in tokens && (forall i :: 0 <= i < n && !reqs[i].chunked ==> reqs[i].uid != u) ==>
        tokens'[u] == tokens[u])
  }

  /** Append the token of every complete request of the batch to what its uid has got. */
  method Collect(reqs: seq<Req>, sample: nat -> int, tokens: map<int, seq<int>>) returns (tokens': map<int, seq<int>>)
    ensures BatchApart(reqs) ==> Collected(reqs, |reqs|, sample, tokens, tokens')
    ensures tokens.Keys <= tokens'.Keys
  {
    tokens' := tokens;
    for i := 0 to |reqs|
      invariant BatchApart(reqs) ==> Collected(reqs, i, sample, tokens, tokens')
      invariant BatchApart(reqs) ==> forall k :: i <= k < |reqs| ==>
                  Got(tokens', reqs[k].uid) == Got(tokens, reqs[k].uid)
      invariant tokens.Keys <= tokens'.Keys
    {
      if !reqs[i].chunked {
        tokens' := tokens'[reqs[i].uid := Got(tokens', reqs[i].uid) + [sample(i)]];
      }
    }
  }

  /** The requests of a batch are those of their rows. */
  lemma BatchUids(batch: Batch, sample: nat -> int, jobs: Jobs, mid: Jobs, noted: Jobs, ext: int)
    requires StepRel(batch, sample, jobs, mid, noted, ext) && UidsApart(jobs)
    ensures forall r :: r in batch.reqs ==> r.tableIdx in jobs && r.uid == jobs[r.tableIdx].uid
    ensures BatchApart(batch.reqs)
  {
    var reqs := batch.reqs;
    forall r | r in reqs ensures r.tableIdx in jobs && r.uid == jobs[r.tableIdx].uid {
      if batch.prefill { assert RowGranted(r, jobs, mid, ext); }
    }
    forall i, k | 0 <= i < k < |reqs| ensures reqs[i].uid != reqs[k].uid {
      assert reqs[i] in reqs && reqs[k] in reqs && ReqRows(reqs)[i] != ReqRows(reqs)[k];
    }
  }

  /** The token that a step gives to the request in `row`. */
  lemma SampledRow(batch: Batch, sample: nat -> int, jobs: Jobs, mid: Jobs, noted: Jobs, ext: int, i: nat)
    requires StepRel(batch, sample, jobs, mid, noted, ext) && i < |batch.reqs| && !batch.reqs[i].chunked
    requires batch.reqs[i].tableIdx in jobs
    ensures batch.reqs[i].tableIdx in noted
    ensures noted[batch.reqs[i].tableIdx].out == jobs[batch.reqs[i].tableIdx].out + [sample(i)]
  {
    OutSame(batch, sample, jobs, mid, noted, ext, batch.reqs[i].tableIdx);
  }

  lemma CollectedRow(batch: Batch, sample: nat -> int, jobs0: Jobs, jobs: Jobs, mid: Jobs, noted: Jobs, ext: int,
                     tokens: map<int, seq<int>>, tokens': map<int, seq<int>>, row: int)
    requires StepRel(batch, sample, jobs, mid, noted, ext) && UidsApart(jobs0) && UidsApart(jobs)
    requires Collected(batch.reqs, |batch.reqs|, sample, tokens, tokens') && row in jobs0 && jobs0[row].uid in tokens
    requires jobs.Keys <= jobs0.Keys && forall r {:trigger jobs[r]} :: r in jobs ==> SameRequest(jobs0[r], jobs[r])
    requires row in jobs ==> tokens[jobs0[row].uid] == jobs[row].out
    ensures jobs0[row].uid in tokens'
    ensures if row in jobs then row in noted && tokens'[jobs0[row].uid] == noted[row].out
            else tokens'[jobs0[row].uid] == tokens[jobs0[row].uid]
  {
    var reqs, u := batch.reqs, jobs0[row].uid;
    BatchUids(batch, sample, jobs, mid, noted, ext);
    if i :| row in jobs && 0 <= i < |reqs| && !reqs[i].chunked && reqs[i].tableIdx == row {
      SampledRow(batch, sample, jobs, mid, noted, ext, i);
      hide StepRel, UidsApart;
      assert reqs[i] in reqs;
      assert tokens'[reqs[i].uid] == tokens[u] + [sample(i)];
    } else {
      NotCollected(reqs, jobs0, jobs, row);
      if row in jobs {
        OutSame(batch, sample, jobs, mid, noted, ext, row);
      }
      hide StepRel, UidsApart;
    }
  }

  /** What a step and the collection of its tokens do for one row. */
  lemma TrackedStep(batch: Batch, sample: nat -> int, jobs0: Jobs, jobs: Jobs, mid: Jobs, noted: Jobs, ext: int,
                    eos: int, tokens: map<int, seq<int>>, tokens': map<int, seq<int>>, row: int)
    requires StepRel(batch, sample, jobs, mid, noted, ext) && JobsFine(noted, ext, eos) && UidsApart(jobs0)
             && UidsApart(jobs)
    requires Collected(batch.reqs, |batch.reqs|, sample, tokens, tokens') && row in jobs0
             && TrackedRow(jobs0, jobs, tokens, row, eos)
    requires jobs.Keys <= jobs0.Keys && forall r {:trigger jobs[r]} :: r in jobs ==> SameRequest(jobs0[r], jobs[r])
    ensures TrackedRow(jobs0, noted - OverRows(noted, eos), tokens', row, eos)
  {
    StepKeys(batch, sample, jobs, mid, noted, ext);
    hide StepRel, JobsFine, UidsApart, Collected, ExactOutput, Over;
    CollectedRow(batch, sample, jobs0, jobs, mid, noted, ext, tokens, tokens', row);
    if row in jobs {
      OverExact(jobs0[row], noted, ext, eos, row, tokens'[jobs0[row].uid]);
    }
  }

  lemma NotCollected(reqs: seq<Req>, jobs0: Jobs, jobs: Jobs, row: int)
    requires UidsApart(jobs0) && row in jobs0 && jobs.Keys <= jobs0.Keys
    requires forall r {:trigger jobs[r]} :: r in jobs ==> SameRequest(jobs0[r], jobs[r])
    requires forall r :: r in reqs ==> r.tableIdx in jobs && r.uid == jobs[r.tableIdx].uid
    requires row in jobs ==> forall i :: 0 <= i < |reqs| && !reqs[i].chunked ==> reqs[i].tableIdx != row
    ensures forall i :: 0 <= i < |reqs| && !reqs[i].chunked ==> reqs[i].uid != jobs0[row].uid
  {
    forall i | 0 <= i < |reqs| && !reqs[i].chunked ensures reqs[i].uid != jobs0[row].uid {
      assert reqs[i] in reqs;
      assert jobs0[reqs[i].tableIdx].uid == jobs[reqs[i].tableIdx].uid;
    }
  }

  lemma OverExact(j: Job, noted: Jobs, ext: int, eos: int, row: int, out: seq<int>)
    requires JobsFine(noted, ext, eos) && row in noted && SameRequest(j, noted[row]) && noted[row].out == out
    ensures Over(noted[row], eos) ==> ExactOutput(j.(out := out), eos)
  {
    assert Fine(noted[row], ext, eos);
  }

  /** Scheduling does not change outputs; only the tokens of the step do. */
  lemma OutSame(batch: Batch, sample: nat -> int, jobs: Jobs, mid: Jobs, noted: Jobs, ext: int, row: int)
    requires StepRel(batch, sample, jobs, mid, noted, ext) && row in jobs
    ensures row in mid && row in noted && mid[row].out == jobs[row].out
    ensures (forall i :: 0 <= i < |batch.reqs| && !batch.reqs[i].chunked ==> batch.reqs[i].tableIdx != row) ==>
              noted[row].out == jobs[row].out
  {
    var reqs := batch.reqs;
    if batch.prefill && row in ReqRows(reqs) {
      var k :| 0 <= k < |reqs| && ReqRows(reqs)[k] == row;
      assert RowGranted(reqs[k], jobs, mid, ext);
    }
  }

  lemma TracksStep(batch: Batch, sample: nat -> int, jobs0: Jobs, rows: set<int>, jobs: Jobs, mid: Jobs, noted: Jobs,
                   ext: int, eos: int, tokens: map<int, seq<int>>, tokens': map<int, seq<int>>)
    requires StepRel(batch, sample, jobs, mid, noted, ext) && JobsFine(noted, ext, eos)
    requires Tracks(jobs0, rows, jobs, tokens, eos) && Collected(batch.reqs, |batch.reqs|, sample, tokens, tokens')
    ensures Tracks(jobs0, rows, noted - OverRows(noted, eos), tokens', eos)
  {
    LiveUidsApart(jobs0, jobs);
    StepKeys(batch, sample, jobs, mid, noted, ext);
    forall row | row in rows ensures TrackedRow(jobs0, noted - OverRows(noted, eos), tokens', row, eos) {
      assert TrackedRow(jobs0, jobs, tokens, row, eos);
      TrackedStep(batch, sample, jobs0, jobs, mid, noted, ext, eos, tokens, tokens', row);
    }
  }

  lemma LiveUidsApart(jobs0: Jobs, jobs: Jobs)
    requires jobs.Keys <= jobs0.Keys && UidsApart(jobs0)
    requires forall row {:trigger jobs[row]} :: row in jobs ==> SameRequest(jobs0[row], jobs[row])
    ensures UidsApart(jobs)
  {
    forall a, b | a in jobs && b in jobs && jobs[a].uid == jobs[b].uid ensures a == b {
      assert jobs0[a].uid == jobs0[b].uid;
    }
  }

  // ---------------------------------------------------------------- the start and the end of a run

  /** Nothing collected yet. */
  method NoTokens(line: seq<PendingReq>) returns (tokens: map<int, seq<int>>)
    ensures forall u :: u in tokens ==> tokens[u] == []
    ensures forall p :: p in line ==> p.uid in tokens
  {
    tokens := map[];
    for i := 0 to |line|
      invariant forall u :: u in tokens ==> tokens[u] == []
      invariant forall k :: 0 <= k < i ==> line[k].uid in tokens
    {
      tokens := tokens[line[i].uid := []];
    }
  }

  lemma TracksStart(line: seq<PendingReq>, jobs: Jobs, tokens: map<int, seq<int>>, ext: int, eos: int)
    requires QueueOk(line, jobs) && JobsFine(jobs, ext, eos) && UidsApart(jobs)
    requires (forall u :: u in tokens ==> tokens[u] == []) && forall p :: p in line ==> p.uid in tokens
    ensures Tracks(jobs, QueuedRows(jobs), jobs, tokens, eos)
  {
    var rows := PendingRows(line);
    forall row | row in QueuedRows(jobs) ensures TrackedRow(jobs, jobs, tokens, row, eos) {
      assert row in rows;
      var k :| 0 <= k < |rows| && rows[k] == row;
      assert line[k] in line && EntryOk(line[k], jobs) && Fine(jobs[row], ext, eos);
    }
  }

  /** The uid and the row of each queued prompt, as they were when the run began. */
  datatype Entry = Entry(uid: int, row: int)

  ghost predicate EntriesOf(es: seq<Entry>, line: seq<PendingReq>, jobs: Jobs) {
    |es| == |line| && forall i {:trigger es[i]} :: 0 <= i < |line| ==>
      es[i].uid == line[i].uid && es[i].row in QueuedRows(jobs) && jobs[es[i].row].uid == es[i].uid
  }

  lemma QueueEntries(line: seq<PendingReq>, jobs: Jobs) returns (es: seq<Entry>)
    requires QueueOk(line, jobs)
    ensures EntriesOf(es, line, jobs) && forall i :: 0 <= i < |line| ==> es[i].row == line[i].tableIdx
  {
    var rows := PendingRows(line);
    es := seq(|line|, i requires 0 <= i < |line| => Entry(line[i].uid, rows[i]));
    forall i | 0 <= i < |line| ensures es[i].row in QueuedRows(jobs) && jobs[es[i].row].uid == es[i].uid {
      QueueFacts(line, jobs, i);
    }
  }

  /** The output of a run for the prompt in `row`: all it asked for, or what it has got so far. */
  ghost predicate Delivered(jobs0: Jobs, jobs: Jobs, row: int, out: seq<int>, eos: int) {
    && row in jobs0
    && if row in jobs then SameRequest(jobs0[row], jobs[row]) && out == jobs[row].out
       else ExactOutput(jobs0[row].(out := out), eos)
  }

  lemma DeliveredAll(es: seq<Entry>, line: seq<PendingReq>, jobs0: Jobs, jobs: Jobs, tokens: map<int, seq<int>>,
                     eos: int)
    requires EntriesOf(es, line, jobs0) && AllTracked(jobs0, jobs, tokens, eos)
    ensures forall i {:trigger es[i]} :: 0 <= i < |line| ==>
              line[i].uid in tokens
                && (UidsApart(jobs0) ==> Delivered(jobs0, jobs, es[i].row, tokens[line[i].uid], eos))
  {
    forall i | 0 <= i < |line|
      ensures line[i].uid in tokens
              && (UidsApart(jobs0) ==> Delivered(jobs0, jobs, es[i].row, tokens[line[i].uid], eos))
    {
      assert es[i].uid == line[i].uid && jobs0[es[i].row].uid == line[i].uid;
      if UidsApart(jobs0) {
        assert TrackedRow(jobs0, jobs, tokens, es[i].row, eos);
      }
    }
  }

  /** Every queued prompt has an entry for its uid; as long as uids are apart it is the prompt's own. */
  ghost predicate AllTracked(jobs0: Jobs, jobs: Jobs, tokens: map<int, seq<int>>, eos: int) {
    && (forall row {:trigger jobs0[row]} :: row in QueuedRows(jobs0) ==> row in jobs0 && jobs0[row].uid in tokens)
    && (UidsApart(jobs0) ==> Tracks(jobs0, QueuedRows(jobs0), jobs, tokens, eos))
  }

  /** What the whole run keeps: who is live, and how many steps they can still take. */
  ghost predicate Running(jobs0: Jobs, jobs: Jobs, tokens: map<int, seq<int>>, ext: int, eos: int, cacheBudget: int,
                          left: int, sure: bool) {
    && AllTracked(jobs0, jobs, tokens, eos) && JobsFine(jobs, ext, eos) && AtRest(jobs, eos)
    && (sure ==> ext > 0 && JobsFit(jobs, cacheBudget) && TotalNeed(jobs, ext) <= left)
  }

  /** Every request fits the pool alone. */
  ghost predicate JobsFit(jobs: Jobs, cacheBudget: int) {
    forall row {:trigger jobs[row]} :: row in jobs ==>
      |jobs[row].prompt| - jobs[row].cached + jobs[row].outputLen <= cacheBudget
  }

  lemma RunUids(batch: Batch, sample: nat -> int, jobs0: Jobs, jobs: Jobs, mid: Jobs, noted: Jobs, ext: int,
                tokens: map<int, seq<int>>, eos: int)
    requires AllTracked(jobs0, jobs, tokens, eos) && StepRel(batch, sample, jobs, mid, noted, ext)
    ensures UidsApart(jobs0) ==> BatchApart(batch.reqs)
  {
    if UidsApart(jobs0) {
      assert Tracks(jobs0, QueuedRows(jobs0), jobs, tokens, eos);
      hide *;
      TracksFacts(jobs0, QueuedRows(jobs0), jobs, tokens, eos);
      LiveUidsApart(jobs0, jobs);
      BatchUids(batch, sample, jobs, mid, noted, ext);
    }
  }

  lemma TracksFacts(jobs0: Jobs, rows: set<int>, jobs: Jobs, tokens: map<int, seq<int>>, eos: int)
    requires Tracks(jobs0, rows, jobs, tokens, eos)
    ensures jobs.Keys <= jobs0.Keys && UidsApart(jobs0)
    ensures forall row {:trigger jobs[row]} :: row in jobs ==> SameRequest(jobs0[row], jobs[row])
  {}

  lemma RunStep(batch: Batch, sample: nat -> int, jobs0: Jobs, jobs: Jobs, mid: Jobs, noted: Jobs, jobs': Jobs,
                ext: int, eos: int, cacheBudget: int, left: int, sure: bool, tokens: map<int, seq<int>>,
                tokens': map<int, seq<int>>)
    requires Running(jobs0, jobs, tokens, ext, eos, cacheBudget, left, sure)
    requires StepRel(batch, sample, jobs, mid, noted, ext) && JobsFine(noted, ext, eos)
             && jobs' == noted - OverRows(noted, eos)
    requires (BatchApart(batch.reqs) ==> Collected(batch.reqs, |batch.reqs|, sample, tokens, tokens'))
             && tokens.Keys <= tokens'.Keys
    requires AtRest(jobs', eos)
    ensures Running(jobs0, jobs', tokens', ext, eos, cacheBudget, left - 1, sure)
  {
    RunUids(batch, sample, jobs0, jobs, mid, noted, ext, tokens, eos);
    if UidsApart(jobs0) {
      TracksStep(batch, sample, jobs0, QueuedRows(jobs0), jobs, mid, noted, ext, eos, tokens, tokens');
    }
    StepKeys(batch, sample, jobs, mid, noted, ext);
    forall row | row in jobs' ensures Fine(jobs'[row], ext, eos) {
      assert Fine(noted[row], ext, eos);
    }
    if sure {
      StepNeedsLess(batch, sample, jobs, mid, noted, ext, eos);
      forall row | row in jobs' ensures |jobs'[row].prompt| - jobs'[row].cached + jobs'[row].outputLen <= cacheBudget {
        assert SameRequest(jobs[row], jobs'[row]);
      }
    }
  }

  lemma RunFacts(jobs0: Jobs, jobs: Jobs, tokens: map<int, seq<int>>, ext: int, eos: int, cacheBudget: int, left: int,
                 sure: bool)
    requires Running(jobs0, jobs, tokens, ext, eos, cacheBudget, left, sure)
    ensures AllTracked(jobs0, jobs, tokens, eos)
    ensures sure ==> ext > 0 && JobsFit(jobs, cacheBudget)
    ensures sure && left <= 0 ==> jobs == map[]
  {
    if sure {
      NoNeed(jobs, ext, eos);
      assert |jobs| == 0 ==> jobs.Keys == {};
    }
  }

  /** The conditions under which the default budget is enough. */
  ghost predicate Sure(line: seq<PendingReq>, running: seq<Req>, jobs: Jobs, ext: int, cacheBudget: int) {
    ext > 0 && running == [] && JobsFit(jobs, cacheBudget) && TotalNeed(jobs, ext) <= Budget(line, ext)
  }

  /** They hold in particular when no output length is negative. */
  lemma SureWithout(line: seq<PendingReq>, running: seq<Req>, jobs: Jobs, ext: int, eos: int, cacheBudget: int)
    requires ext > 0 && running == [] && JobsFit(jobs, cacheBudget) && forall p :: p in line ==> p.outputLen >= 0
    requires QueueOk(line, jobs) && RunningOk(running, jobs, eos) && JobsFine(jobs, ext, eos) && AtRest(jobs, eos)
    ensures Sure(line, running, jobs, ext, cacheBudget)
  {
    AllQueued(line, running, jobs, ext, eos);
    BudgetCovers(line, jobs, ext, eos);
  }

  /** For one prompt alone they come down to the output length. */
  lemma SureForOne(line: seq<PendingReq>, running: seq<Req>, jobs: Jobs, ext: int, eos: int, cacheBudget: int)
    requires ext > 0 && running == [] && JobsFit(jobs, cacheBudget) && |line| == 1
    requires QueueOk(line, jobs) && RunningOk(running, jobs, eos) && JobsFine(jobs, ext, eos) && AtRest(jobs, eos)
    ensures line[0].tableIdx in jobs
    ensures CoveredAlone(line, jobs, ext) <==> CoversOne(line[0], jobs[line[0].tableIdx], ext)
    ensures Sure(line, running, jobs, ext, cacheBudget) <==> CoversOne(line[0], jobs[line[0].tableIdx], ext)
    ensures !CoversOne(line[0], jobs[line[0].tableIdx], ext) ==>
              PrefillLeft(jobs[line[0].tableIdx], ext) > Allowed(Budget(line, ext))
  {
    AllQueued(line, running, jobs, ext, eos);
    assert EntryOk(line[0], jobs);
    hide *;
    BudgetOfOne(line, jobs, ext, eos);
    CoveredAloneIs(line, jobs, ext);
    SureIs(line, running, jobs, ext, cacheBudget);
  }

  lemma CoveredAloneIs(line: seq<PendingReq>, jobs: Jobs, ext: int)
    requires ext > 0 && |line| == 1 && line[0].tableIdx in jobs
    ensures CoveredAlone(line, jobs, ext) <==> CoversOne(line[0], jobs[line[0].tableIdx], ext)
  {}

  lemma SureIs(line: seq<PendingReq>, running: seq<Req>, jobs: Jobs, ext: int, cacheBudget: int)
    requires ext > 0
    ensures Sure(line, running, jobs, ext, cacheBudget) <==>
              running == [] && JobsFit(jobs, cacheBudget) && TotalNeed(jobs, ext) <= Budget(line, ext)
  {}

  lemma RunStart(line: seq<PendingReq>, running: seq<Req>, jobs: Jobs, tokens: map<int, seq<int>>, ext: int, eos: int,
                 cacheBudget: int, left: int, sure: bool)
    requires QueueOk(line, jobs) && RunningOk(running, jobs, eos) && JobsFine(jobs, ext, eos) && AtRest(jobs, eos)
    requires (forall u :: u in tokens ==> tokens[u] == []) && forall p :: p in line ==> p.uid in tokens
    requires sure ==> Sure(line, running, jobs, ext, cacheBudget) && left == Budget(line, ext) + |running|
    ensures Running(jobs, jobs, tokens, ext, eos, cacheBudget, left, sure)
  {
    if UidsApart(jobs) {
      TracksStart(line, jobs, tokens, ext, eos);
    }
    var rows := PendingRows(line);
    forall row | row in QueuedRows(jobs) ensures row in jobs && jobs[row].uid in tokens {
      assert row in rows;
      var k :| 0 <= k < |rows| && rows[k] == row;
      assert line[k] in line && EntryOk(line[k], jobs);
    }
  }

  lemma AllQueued(line: seq<PendingReq>, running: seq<Req>, jobs: Jobs, ext: int, eos: int)
    requires QueueOk(line, jobs) && running == [] && RunningOk(running, jobs, eos) && JobsFine(jobs, ext, eos)
             && AtRest(jobs, eos)
    ensures Lists(PendingRows(line), jobs.Keys)
    ensures forall p {:trigger EntryOk(p, jobs)} :: p in line ==> EntryOk(p, jobs)
  {
    ListsSize(ReqRows(running), DecodingRows(jobs));
    forall row | row in jobs ensures row in QueuedRows(jobs) {
      assert Fine(jobs[row], ext, eos) && !InFlight(jobs[row]);
      assert row !in DecodingRows(jobs);
    }
    assert QueuedRows(jobs) == jobs.Keys;
  }

  // ---------------------------------------------------------------- the rounds of a run

  /** What a step of a run has done: its batch, and the jobs after scheduling and after the tokens. */
  datatype Round = Round(batch: Batch, mid: Jobs, noted: Jobs)

  /** The tokens that the model gives in the step `s`. */
  function Sampler(model: (nat, nat) -> int, s: nat): nat -> int {
    (i: nat) => model(s, i)
  }

  ghost function After(jobs0: Jobs, rounds: seq<Round>, eos: int): Jobs {
    if rounds == [] then jobs0 else
      var noted := rounds[|rounds| - 1].noted;
      noted - OverRows(noted, eos)
  }

  ghost predicate RoundIs(jobs0: Jobs, rounds: seq<Round>, s: nat, model: (nat, nat) -> int, ext: int, eos: int)
    requires s < |rounds|
  {
    StepRel(rounds[s].batch, Sampler(model, s), After(jobs0, rounds[..s], eos), rounds[s].mid, rounds[s].noted, ext)
  }

  /** Steps from `jobs0` on, one after the other, with the tokens of the model. */
  ghost predicate AreRounds(jobs0: Jobs, rounds: seq<Round>, model: (nat, nat) -> int, ext: int, eos: int) {
    forall s {:trigger RoundIs(jobs0, rounds, s, model, ext, eos)} :: 0 <= s < |rounds| ==>
      RoundIs(jobs0, rounds, s, model, ext, eos)
  }

  lemma NoRounds(jobs0: Jobs, model: (nat, nat) -> int, ext: int, eos: int)
    ensures AreRounds(jobs0, [], model, ext, eos) && After(jobs0, [], eos) == jobs0
  {}

  lemma RoundsMore(jobs0: Jobs, rounds: seq<Round>, r: Round, model: (nat, nat) -> int, ext: int, eos: int)
    requires AreRounds(jobs0, rounds, model, ext, eos)
    requires StepRel(r.batch, Sampler(model, |rounds|), After(jobs0, rounds, eos), r.mid, r.noted, ext)
    ensures AreRounds(jobs0, rounds + [r], model, ext, eos)
    ensures After(jobs0, rounds + [r], eos) == r.noted - OverRows(r.noted, eos)
  {
    hide StepRel;
    var more := rounds + [r];
    forall s | 0 <= s < |more| ensures RoundIs(jobs0, more, s, model, ext, eos) {
      if s < |rounds| {
        assert RoundIs(jobs0, rounds, s, model, ext, eos) && more[..s] == rounds[..s];
      } else {
        assert more[..s] == rounds;
      }
    }
  }

  /** The output of the request in `row` as of the last round it was live in. */
  ghost function LastOut(jobs0: Jobs, rounds: seq<Round>, row: int): seq<int> {
    if rounds == [] then if row in jobs0 then jobs0[row].out else []
    else
      var n := |rounds| - 1;
      if row in rounds[n].noted then rounds[n].noted[row].out else LastOut(jobs0, rounds[..n], row)
  }

  /** As long as uids are apart, what was collected for a queued prompt is its output. */
  ghost predicate OutsAre(jobs0: Jobs, rounds: seq<Round>, tokens: map<int, seq<int>>) {
    UidsApart(jobs0) ==>
      forall row {:trigger jobs0[row]} :: row in QueuedRows(jobs0) ==>
        jobs0[row].uid in tokens && tokens[jobs0[row].uid] == LastOut(jobs0, rounds, row)
  }

  lemma OutsStart(jobs0: Jobs, tokens: map<int, seq<int>>, eos: int)
    requires AllTracked(jobs0, jobs0, tokens, eos)
    ensures OutsAre(jobs0, [], tokens)
  {
    if UidsApart(jobs0) {
      forall row | row in QueuedRows(jobs0)
        ensures jobs0[row].uid in tokens && tokens[jobs0[row].uid] == LastOut(jobs0, [], row)
      {
        assert TrackedRow(jobs0, jobs0, tokens, row, eos);
      }
    }
  }

  lemma OutsMore(jobs0: Jobs, rounds: seq<Round>, r: Round, sample: nat -> int, jobs: Jobs, ext: int, eos: int,
                 tokens: map<int, seq<int>>, tokens': map<int, seq<int>>)
    requires AllTracked(jobs0, jobs, tokens, eos) && OutsAre(jobs0, rounds, tokens)
    requires StepRel(r.batch, sample, jobs, r.mid, r.noted, ext)
    requires BatchApart(r.batch.reqs) ==> Collected(r.batch.reqs, |r.batch.reqs|, sample, tokens, tokens')
    ensures OutsAre(jobs0, rounds + [r], tokens')
  {
    if UidsApart(jobs0) {
      RunUids(r.batch, sample, jobs0, jobs, r.mid, r.noted, ext, tokens, eos);
      StepKeys(r.batch, sample, jobs, r.mid, r.noted, ext);
      TracksFacts(jobs0, QueuedRows(jobs0), jobs, tokens, eos);
      LiveUidsApart(jobs0, jobs);
      assert (rounds + [r])[..|rounds|] == rounds;
      forall row | row in QueuedRows(jobs0)
        ensures jobs0[row].uid in tokens' && tokens'[jobs0[row].uid] == LastOut(jobs0, rounds + [r], row)
      {
        assert TrackedRow(jobs0, jobs, tokens, row, eos);
        hide StepRel, Collected, UidsApart;
        CollectedRow(r.batch, sample, jobs0, jobs, r.mid, r.noted, ext, tokens, tokens', row);
      }
    }
  }

  lemma OutsAll(es: seq<Entry>, line: seq<PendingReq>, jobs0: Jobs, rounds: seq<Round>, tokens: map<int, seq<int>>)
    requires EntriesOf(es, line, jobs0) && OutsAre(jobs0, rounds, tokens) && UidsApart(jobs0)
    ensures forall i {:trigger es[i]} :: 0 <= i < |line| ==>
              line[i].uid in tokens && tokens[line[i].uid] == LastOut(jobs0, rounds, es[i].row)
  {
    forall i | 0 <= i < |line|
      ensures line[i].uid in tokens && tokens[line[i].uid] == LastOut(jobs0, rounds, es[i].row)
    {
      assert es[i].uid == line[i].uid && jobs0[es[i].row].uid == line[i].uid;
    }
  }
}
