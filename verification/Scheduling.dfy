/** The scheduler: page-table rows, and which requests run in each step. */
module Scheduling {
  import opened Sorting
  import opened Rosters
  import opened Finite
  import opened Requests
  import opened Prefill
  import opened Decode
  import opened PrefillQueue
  import opened Shares

  ghost function AllRows(n: nat): (rows: set<int>)
    ensures forall r :: r in rows <==> 0 <= r < n
    ensures |rows| == n
  {
    if n == 0 then {} else AllRows(n - 1) + {n - 1}
  }

  /** Free rows and rows of live requests share out all rows, with none twice. */
  ghost predicate RowsOk(freeSlots: seq<int>, jobs: Jobs, n: nat) {
    jobs.Keys <= AllRows(n) && Lists(freeSlots, AllRows(n) - jobs.Keys) && Sorted(freeSlots)
  }

  /** A request that can occur, with the output it may have. */
  ghost predicate Fine(j: Job, ext: int, eos: int) {
    JobOk(j, ext) && if Over(j, eos) then ExactOutput(j, eos) else Ongoing(j, eos)
  }

  ghost predicate JobsFine(jobs: Jobs, ext: int, eos: int) {
    forall row {:trigger jobs[row]} :: row in jobs ==> Fine(jobs[row], ext, eos)
  }

  /** Between steps no request is half way through one, and none is over. */
  ghost predicate AtRest(jobs: Jobs, eos: int) {
    forall row {:trigger jobs[row]} :: row in jobs ==> !InFlight(jobs[row]) && !Over(jobs[row], eos)
  }

  ghost function InFlightRows(jobs: Jobs): set<int> {
    set r | r in jobs && InFlight(jobs[r])
  }

  ghost function OverRows(jobs: Jobs, eos: int): set<int> {
    set r | r in jobs && Over(jobs[r], eos)
  }

  /** The requests of a batch whose prompt it completes. */
  ghost function Plain(reqs: seq<Req>): set<Req> {
    set r | r in reqs && !r.chunked
  }

  /** A batch that is about to run: its complete prompts are the requests in flight, or it is the
      decode set. */
  ghost predicate BatchOk(batch: Batch, running: seq<Req>, jobs: Jobs, eos: int)
    reads set r | r in batch.reqs
  {
    && Distinct(ReqRows(batch.reqs))
    && (forall r {:trigger ReqIs(r, jobs, eos)} :: r in Plain(batch.reqs) ==> ReqIs(r, jobs, eos))
    && (forall r :: r in batch.reqs && r.chunked ==> batch.prefill && !r.aborted)
    && if batch.prefill
       then && InFlightRows(jobs) == (set r | r in Plain(batch.reqs) :: r.tableIdx)
            && (forall r :: r in Plain(batch.reqs) ==> r.tableIdx in jobs && r.inputIds == jobs[r.tableIdx].prompt)
            && (forall r :: r in batch.reqs && r.chunked ==> r.tableIdx in QueuedRows(jobs))
       else InFlightRows(jobs) == {} && multiset(batch.reqs) == multiset(running)
  }

  lemma PhasesShareRows(jobs: Jobs)
    requires forall row {:trigger jobs[row]} :: row in jobs ==> Done(jobs[row]) <= |jobs[row].prompt|
    ensures jobs.Keys == QueuedRows(jobs) + DecodingRows(jobs) + InFlightRows(jobs)
    ensures QueuedRows(jobs) !! DecodingRows(jobs) && QueuedRows(jobs) + DecodingRows(jobs) !! InFlightRows(jobs)
  {
    forall row | row in jobs
      ensures row in QueuedRows(jobs) + DecodingRows(jobs) + InFlightRows(jobs)
      ensures row in QueuedRows(jobs) ==> row !in DecodingRows(jobs) && row !in InFlightRows(jobs)
      ensures row in DecodingRows(jobs) ==> row !in InFlightRows(jobs)
    {
      assert Done(jobs[row]) <= |jobs[row].prompt|;
    }
  }

  lemma RowsOkFacts(freeSlots: seq<int>, jobs: Jobs, n: nat)
    requires RowsOk(freeSlots, jobs, n)
    ensures jobs.Keys <= AllRows(n) && Lists(freeSlots, AllRows(n) - jobs.Keys)
  {}

  /** Free, queued, decoding and in-flight rows always add up to all of them. */
  lemma RowsAddUp(freeSlots: seq<int>, jobs: Jobs, n: nat, queued: seq<int>, running: seq<int>)
    requires RowsOk(freeSlots, jobs, n) && Lists(queued, QueuedRows(jobs)) && Lists(running, DecodingRows(jobs))
    requires forall row {:trigger jobs[row]} :: row in jobs ==> Done(jobs[row]) <= |jobs[row].prompt|
    ensures |freeSlots| + |queued| + |running| + |InFlightRows(jobs)| == n
  {
    hide *;
    PhasesShareRows(jobs);
    RowsOkFacts(freeSlots, jobs, n);
    ListsSize(freeSlots, AllRows(n) - jobs.Keys);
    ListsSize(queued, QueuedRows(jobs));
    ListsSize(running, DecodingRows(jobs));
    ThreeParts(AllRows(n), jobs.Keys, QueuedRows(jobs), DecodingRows(jobs), InFlightRows(jobs));
  }

  lemma ThreeParts(all: set<int>, some: set<int>, a: set<int>, b: set<int>, c: set<int>)
    requires some <= all && some == a + b + c && a !! b && a + b !! c
    ensures |all - some| + |a| + |b| + |c| == |all|
  {
    assert all == some + (all - some);
  }

  // ---------------------------------------------------------------- admission

  lemma AddedRow(freeSlots: seq<int>, jobs: Jobs, n: nat, j: Job)
    requires RowsOk(freeSlots, jobs, n) && freeSlots != []
    ensures freeSlots[0] in AllRows(n) && freeSlots[0] !in jobs
    ensures RowsOk(freeSlots[1..], jobs[freeSlots[0] := j], n)
  {
    var row := freeSlots[0];
    assert row in freeSlots;
    ListsLess(freeSlots, AllRows(n) - jobs.Keys, 0);
    assert Without(freeSlots, 0) == freeSlots[1..];
    assert AllRows(n) - jobs.Keys - {row} == AllRows(n) - jobs[row := j].Keys;
  }

  lemma FreedRows(freeSlots: seq<int>, freed: seq<int>, rows: set<int>, jobs: Jobs, n: nat)
    requires RowsOk(freeSlots, jobs, n) && Lists(freed, rows) && rows <= jobs.Keys
    ensures RowsOk(Sort(freeSlots + freed), jobs - rows, n)
  {
    ListsJoin(freeSlots, AllRows(n) - jobs.Keys, freed, rows);
    SortSorts(freeSlots + freed);
    ListsSorted(freeSlots + freed, Sort(freeSlots + freed), AllRows(n) - jobs.Keys + rows);
    assert AllRows(n) - jobs.Keys + rows == AllRows(n) - (jobs - rows).Keys;
  }

  /** A queue stays right when jobs change that it does not hold. */
  lemma QueueKept(line: seq<PendingReq>, jobs: Jobs, jobs': Jobs)
    requires QueueOk(line, jobs) && QueuedRows(jobs') == QueuedRows(jobs)
    requires forall row :: row in QueuedRows(jobs) ==> row in jobs' && jobs'[row] == jobs[row]
    ensures QueueOk(line, jobs')
  {
    forall p | p in line ensures EntryOk(p, jobs') {
      assert EntryOk(p, jobs);
    }
  }

  lemma RunningKept(rs: seq<Req>, jobs: Jobs, jobs': Jobs, eos: int)
    requires RunningOk(rs, jobs, eos) && DecodingRows(jobs') == DecodingRows(jobs)
    requires forall row :: row in DecodingRows(jobs) ==> row in jobs' && jobs'[row] == jobs[row]
    ensures RunningOk(rs, jobs', eos)
  {
    forall r | r in rs ensures ReqIs(r, jobs', eos) {
      assert ReqIs(r, jobs, eos);
      var k :| 0 <= k < |rs| && rs[k] == r;
      assert ReqRows(rs)[k] in DecodingRows(jobs);
    }
  }

  // ---------------------------------------------------------------- what a prefill step leads to

  lemma GrantedFine(reqs: seq<Req>, jobs: Jobs, jobs': Jobs, ext: int, eos: int)
    requires Granted(reqs, jobs, jobs', ext) && JobsFine(jobs, ext, eos)
    ensures JobsFine(jobs', ext, eos)
  {
    forall row | row in jobs' ensures Fine(jobs'[row], ext, eos) {
      assert Fine(jobs[row], ext, eos);
      if row in ReqRows(reqs) {
        var k :| 0 <= k < |reqs| && ReqRows(reqs)[k] == row;
        assert GrantOk(reqs[k], jobs, jobs', ext);
        AdvanceOk(jobs[row], reqs[k].deviceLen, ext);
      }
    }
  }

  lemma GrantedRow(reqs: seq<Req>, jobs: Jobs, jobs': Jobs, ext: int, eos: int, r: Req)
    requires Granted(reqs, jobs, jobs', ext) && JobsFine(jobs, ext, eos) && r in reqs
    ensures r.tableIdx in jobs && r.tableIdx in jobs' && r.tableIdx in ReqRows(reqs) && Queued(jobs[r.tableIdx])
    ensures if r.chunked then Queued(jobs'[r.tableIdx])
            else ReqIs(r, jobs', eos) && InFlight(jobs'[r.tableIdx]) && r.inputIds == jobs'[r.tableIdx].prompt
    ensures !r.aborted
  {
    var k :| 0 <= k < |reqs| && reqs[k] == r;
    assert ReqRows(reqs)[k] == r.tableIdx;
    assert GrantOk(r, jobs, jobs', ext);
    assert Fine(jobs[r.tableIdx], ext, eos);
    AdvanceOk(jobs[r.tableIdx], r.deviceLen, ext);
  }

  lemma GrantedBatch(reqs: seq<Req>, running: seq<Req>, jobs: Jobs, jobs': Jobs, ext: int, eos: int)
    requires Granted(reqs, jobs, jobs', ext) && JobsFine(jobs, ext, eos) && AtRest(jobs, eos)
    ensures BatchOk(Batch(reqs, true), running, jobs', eos)
    ensures DecodingRows(jobs') == DecodingRows(jobs)
    ensures forall row :: row in DecodingRows(jobs) ==> row in jobs' && jobs'[row] == jobs[row]
  {
    forall r | r in reqs
      ensures r.tableIdx in jobs && r.tableIdx in jobs' && Queued(jobs[r.tableIdx])
      ensures if r.chunked then Queued(jobs'[r.tableIdx])
              else ReqIs(r, jobs', eos) && InFlight(jobs'[r.tableIdx]) && r.inputIds == jobs'[r.tableIdx].prompt
      ensures !r.aborted
    {
      GrantedRow(reqs, jobs, jobs', ext, eos, r);
    }
    forall row | row in jobs' && row in ReqRows(reqs) ensures exists r :: r in reqs && r.tableIdx == row {
      var k :| 0 <= k < |reqs| && ReqRows(reqs)[k] == row;
      assert reqs[k] in reqs;
    }
    hide Granted, JobsFine, Over, Queued, InFlight, Decoding;
    BatchRows(reqs, jobs, jobs', ext, eos);
  }

  lemma BatchRows(reqs: seq<Req>, jobs: Jobs, jobs': Jobs, ext: int, eos: int)
    requires Granted(reqs, jobs, jobs', ext) && JobsFine(jobs, ext, eos) && AtRest(jobs, eos)
    ensures InFlightRows(jobs') == set r | r in Plain(reqs) :: r.tableIdx
    ensures DecodingRows(jobs') == DecodingRows(jobs)
    ensures forall row :: row in DecodingRows(jobs) ==> row in jobs' && jobs'[row] == jobs[row]
  {
    var plain := set r | r in Plain(reqs) :: r.tableIdx;
    forall row | row in jobs'
      ensures row in InFlightRows(jobs') <==> row in plain
      ensures row in DecodingRows(jobs') <==> row in DecodingRows(jobs)
      ensures row in DecodingRows(jobs) ==> jobs'[row] == jobs[row]
    {
      assert !InFlight(jobs[row]);
      if row in ReqRows(reqs) {
        var k :| 0 <= k < |reqs| && ReqRows(reqs)[k] == row;
        GrantedRow(reqs, jobs, jobs', ext, eos, reqs[k]);
        assert reqs[k].chunked ==> row !in plain by {
          forall r | r in Plain(reqs) ensures r.tableIdx != row || !reqs[k].chunked {
            var m :| 0 <= m < |reqs| && reqs[m] == r;
            assert ReqRows(reqs)[m] == r.tableIdx;
          }
        }
        assert !reqs[k].chunked ==> reqs[k] in Plain(reqs);
      } else {
        forall r | r in Plain(reqs) ensures r.tableIdx != row {
          GrantedRow(reqs, jobs, jobs', ext, eos, r);
        }
      }
    }
    forall r | r in Plain(reqs) ensures r.tableIdx in jobs' {
      GrantedRow(reqs, jobs, jobs', ext, eos, r);
    }
  }

  // ---------------------------------------------------------------- completing a step

  ghost function RowsOf(rs: set<Req>): set<int> {
    set r | r in rs :: r.tableIdx
  }

  ghost predicate Apart(rs: set<Req>) {
    forall a, b :: a in rs && b in rs && a.tableIdx == b.tableIdx ==> a == b
  }

  /** The requests that a step leaves in the decode set or takes out of it. */
  ghost function Stepped(running: seq<Req>, reqs: seq<Req>): set<Req> {
    (set r | r in running) + Plain(reqs)
  }

  /** A batch has run: every complete prompt has its token, and the jobs that decode are those of
      the decode set and of the batch. Those of the decode set that sat the step out are not over. */
  ghost predicate Noted(reqs: seq<Req>, running: seq<Req>, jobs: Jobs, eos: int)
    reads set r | r in reqs, set r | r in running
  {
    && Apart(Stepped(running, reqs)) && Distinct(running) && InFlightRows(jobs) == {}
    && RowsOf(Stepped(running, reqs)) == DecodingRows(jobs)
    && (forall r {:trigger ReqIs(r, jobs, eos)} :: r in Stepped(running, reqs) ==> ReqIs(r, jobs, eos))
    && (forall r :: r in running && r !in reqs ==> !r.aborted)
    && (forall r :: r in reqs && r.chunked ==> !r.aborted)
  }

  lemma DecodesUnlessOver(r: Req, jobs: Jobs, ext: int, eos: int)
    requires ReqIs(r, jobs, eos) && JobsFine(jobs, ext, eos) && Decoding(jobs[r.tableIdx])
    ensures r.CanDecode() <==> !r.aborted
    ensures r.aborted <==> r.tableIdx in OverRows(jobs, eos)
  {
    assert Fine(jobs[r.tableIdx], ext, eos);
  }

  lemma SteppedFacts(reqs: seq<Req>, running: seq<Req>, jobs: Jobs, ext: int, eos: int, r: Req)
    requires Noted(reqs, running, jobs, eos) && JobsFine(jobs, ext, eos)
    requires r in running || r in reqs
    ensures if r in Stepped(running, reqs)
            then ReqIs(r, jobs, eos) && r.tableIdx in DecodingRows(jobs) && r.tableIdx in jobs
                 && (r.CanDecode() <==> !r.aborted) && (r.aborted <==> r.tableIdx in OverRows(jobs, eos))
            else !r.CanDecode() && !r.aborted
  {
    if r in Stepped(running, reqs) {
      assert ReqIs(r, jobs, eos) && r.tableIdx in RowsOf(Stepped(running, reqs));
      DecodesUnlessOver(r, jobs, ext, eos);
    }
  }

  lemma OverDecodes(jobs: Jobs, eos: int)
    requires InFlightRows(jobs) == {}
    requires forall row {:trigger jobs[row]} :: row in jobs ==>
               Done(jobs[row]) <= |jobs[row].prompt| && (Queued(jobs[row]) ==> jobs[row].out == [])
    ensures OverRows(jobs, eos) <= DecodingRows(jobs)
    ensures DecodingRows(jobs - OverRows(jobs, eos)) == DecodingRows(jobs) - OverRows(jobs, eos)
    ensures QueuedRows(jobs - OverRows(jobs, eos)) == QueuedRows(jobs)
    ensures AtRest(jobs - OverRows(jobs, eos), eos)
  {
    forall row | row in jobs
      ensures row in OverRows(jobs, eos) ==> row in DecodingRows(jobs)
      ensures row in QueuedRows(jobs) ==> row !in OverRows(jobs, eos)
      ensures !InFlight(jobs[row])
    {
      assert Done(jobs[row]) <= |jobs[row].prompt|;
      assert row !in InFlightRows(jobs);
    }
  }

  /** The decode set after a step lists exactly the requests that are not over. */
  lemma KeptRunning(reqs: seq<Req>, running: seq<Req>, kept: seq<Req>, jobs: Jobs, ext: int, eos: int)
    requires Noted(reqs, running, jobs, eos) && JobsFine(jobs, ext, eos) && Distinct(kept)
    requires forall r :: r in kept <==> (r in running || r in reqs) && r.CanDecode()
    ensures RunningOk(kept, jobs - OverRows(jobs, eos), eos)
  {
    var jobs', rows := jobs - OverRows(jobs, eos), ReqRows(kept);
    forall r | r in kept
      ensures r in Stepped(running, reqs) && ReqIs(r, jobs', eos) && r.tableIdx in DecodingRows(jobs')
    {
      SteppedFacts(reqs, running, jobs, ext, eos, r);
    }
    forall row | row in DecodingRows(jobs') ensures row in rows {
      assert row in RowsOf(Stepped(running, reqs));
      var r :| r in Stepped(running, reqs) && r.tableIdx == row;
      SteppedFacts(reqs, running, jobs, ext, eos, r);
      var k :| 0 <= k < |kept| && kept[k] == r;
      assert rows[k] == row;
    }
    forall row | row in rows ensures row in DecodingRows(jobs') {
      var k :| 0 <= k < |rows| && rows[k] == row;
      assert kept[k] in kept;
    }
    forall i, k | 0 <= i < k < |rows| ensures rows[i] != rows[k] {
      assert kept[i] in kept && kept[k] in kept;
    }
  }

  /** Rows given back after a step: first those that left the decode set, then the rest of the batch. */
  ghost function LeftRows(running: seq<Req>, kept: seq<Req>): set<int> {
    set r | r in running && r !in kept :: r.tableIdx
  }

  ghost function AbortedRows(reqs: seq<Req>): set<int>
    reads set r | r in reqs
  {
    set r | r in reqs && r.aborted :: r.tableIdx
  }

  lemma FreedAreOver(reqs: seq<Req>, running: seq<Req>, kept: seq<Req>, jobs: Jobs, ext: int, eos: int)
    requires Noted(reqs, running, jobs, eos) && JobsFine(jobs, ext, eos)
    requires forall r :: r in kept <==> (r in running || r in reqs) && r.CanDecode()
    ensures LeftRows(running, kept) + AbortedRows(reqs) == OverRows(jobs, eos)
  {
    forall row ensures row in LeftRows(running, kept) + AbortedRows(reqs) <==> row in OverRows(jobs, eos) {
      if row in LeftRows(running, kept) {
        var r :| r in running && r !in kept && r.tableIdx == row;
        SteppedFacts(reqs, running, jobs, ext, eos, r);
      }
      if row in AbortedRows(reqs) {
        var r :| r in reqs && r.aborted && r.tableIdx == row;
        SteppedFacts(reqs, running, jobs, ext, eos, r);
      }
      if row in OverRows(jobs, eos) {
        OverIsDecoding(jobs, ext, eos, row);
        assert row in RowsOf(Stepped(running, reqs));
        var r :| r in Stepped(running, reqs) && r.tableIdx == row;
        SteppedFacts(reqs, running, jobs, ext, eos, r);
      }
    }
  }

  lemma OverIsDecoding(jobs: Jobs, ext: int, eos: int, row: int)
    requires JobsFine(jobs, ext, eos) && row in OverRows(jobs, eos)
    ensures row in DecodingRows(jobs)
  {
    assert Fine(jobs[row], ext, eos);
  }

  /** The rows of the requests that left the decode set. */
  method RowsLeft(running: seq<Req>, kept: seq<Req>) returns (freed: seq<int>)
    requires Distinct(running) && Apart(set r | r in running)
    ensures Lists(freed, LeftRows(running, kept))
  {
    freed := [];
    for i := 0 to |running|
      invariant Lists(freed, LeftRows(running[..i], kept))
    {
      assert running[..i + 1] == running[..i] + [running[i]];
      if running[i] !in kept {
        assert running[i].tableIdx !in LeftRows(running[..i], kept) by {
          forall r | r in running[..i] ensures r.tableIdx != running[i].tableIdx {
            var k :| 0 <= k < i && running[k] == r;
          }
        }
        ListsMore(freed, LeftRows(running[..i], kept), running[i].tableIdx);
        freed := freed + [running[i].tableIdx];
        assert LeftRows(running[..i + 1], kept) == LeftRows(running[..i], kept) + {running[i].tableIdx};
      } else {
        assert LeftRows(running[..i + 1], kept) == LeftRows(running[..i], kept);
      }
    }
    assert running[..|running|] == running;
  }

  /** Add the rows of aborted requests that are not among the freed ones yet. */
  method RowsAborted(reqs: seq<Req>, freed: seq<int>, ghost rows: set<int>) returns (freed': seq<int>)
    requires Lists(freed, rows)
    ensures Lists(freed', rows + AbortedRows(reqs))
  {
    freed' := freed;
    assert rows + AbortedRows([]) == rows;
    for i := 0 to |reqs|
      invariant Lists(freed', rows + AbortedRows(reqs[..i]))
    {
      assert reqs[..i + 1] == reqs[..i] + [reqs[i]];
      assert AbortedRows(reqs[..i + 1]) == AbortedRows(reqs[..i]) + if reqs[i].aborted then {reqs[i].tableIdx} else {};
      if reqs[i].aborted && reqs[i].tableIdx !in freed' {
        ListsMore(freed', rows + AbortedRows(reqs[..i]), reqs[i].tableIdx);
        freed' := freed' + [reqs[i].tableIdx];
        assert rows + AbortedRows(reqs[..i + 1]) == rows + AbortedRows(reqs[..i]) + {reqs[i].tableIdx};
      } else {
        assert rows + AbortedRows(reqs[..i + 1]) == rows + AbortedRows(reqs[..i]);
      }
    }
    assert reqs[..|reqs|] == reqs;
  }

  // ---------------------------------------------------------------- finding a request

  /** The first queued request with this uid, or the end of the queue. */
  function FindPending(line: seq<PendingReq>, uid: int): (i: nat)
    ensures i <= |line| && (i < |line| ==> line[i].uid == uid) && forall k :: 0 <= k < i ==> line[k].uid != uid
  {
    if line == [] || line[0].uid == uid then 0 else 1 + FindPending(line[1..], uid)
  }

  function FindRunning(rs: seq<Req>, uid: int): (i: nat)
    ensures i <= |rs| && (i < |rs| ==> rs[i].uid == uid) && forall k :: 0 <= k < i ==> rs[k].uid != uid
  {
    if rs == [] || rs[0].uid == uid then 0 else 1 + FindRunning(rs[1..], uid)
  }

  /** The row of the live request that `uid` means: a queued one before a decoding one. */
  ghost function TargetRow(line: seq<PendingReq>, running: seq<Req>, uid: int): Option<int>
    reads set p | p in line
  {
    var i, k := FindPending(line, uid), FindRunning(running, uid);
    if i < |line| then Some(line[i].tableIdx) else if k < |running| then Some(running[k].tableIdx) else None
  }

  lemma TargetIs(line: seq<PendingReq>, running: seq<Req>, uid: int)
    ensures var i, k := FindPending(line, uid), FindRunning(running, uid);
            TargetRow(line, running, uid) ==
              if i < |line| then Some(line[i].tableIdx) else if k < |running| then Some(running[k].tableIdx) else None
  {}

  /** A uid means nobody exactly if no live request has it. */
  lemma TargetNone(line: seq<PendingReq>, running: seq<Req>, jobs: Jobs, ext: int, eos: int, uid: int)
    requires QueueOk(line, jobs) && RunningOk(running, jobs, eos) && JobsFine(jobs, ext, eos) && AtRest(jobs, eos)
    ensures TargetRow(line, running, uid) == None <==> forall row :: row in jobs ==> jobs[row].uid != uid
  {
    var i, k := FindPending(line, uid), FindRunning(running, uid);
    if TargetRow(line, running, uid) == None {
      forall row | row in jobs ensures jobs[row].uid != uid {
        LiveSomewhere(line, running, jobs, ext, eos, row);
      }
    } else if i < |line| {
      assert EntryOk(line[i], jobs);
    } else {
      assert ReqIs(running[k], jobs, eos);
    }
  }

  /** A live request is in the queue or in the decode set. */
  lemma LiveSomewhere(line: seq<PendingReq>, running: seq<Req>, jobs: Jobs, ext: int, eos: int, row: int)
    requires QueueOk(line, jobs) && RunningOk(running, jobs, eos) && JobsFine(jobs, ext, eos) && AtRest(jobs, eos)
             && row in jobs
    ensures (exists i :: 0 <= i < |line| && line[i].uid == jobs[row].uid)
            || exists k :: 0 <= k < |running| && running[k].uid == jobs[row].uid
  {
    assert Fine(jobs[row], ext, eos);
    if Queued(jobs[row]) {
      assert row in QueuedRows(jobs) && row in PendingRows(line);
      var i :| 0 <= i < |line| && PendingRows(line)[i] == row;
      assert EntryOk(line[i], jobs);
    } else {
      assert row in DecodingRows(jobs) && row in ReqRows(running);
      var k :| 0 <= k < |running| && ReqRows(running)[k] == row;
      assert ReqIs(running[k], jobs, eos);
    }
  }

  lemma WithoutIn<T>(s: seq<T>, k: nat)
    requires k < |s|
    ensures forall x :: x in Without(s, k) ==> x in s
  {}

  lemma OneRow(row: int)
    ensures Lists([row], {row})
  {}

  lemma ChunkRow(line: seq<PendingReq>, jobs: Jobs, i: nat)
    requires QueueOk(line, jobs) && i < |line|
    ensures line[i].chunkedReq != null ==> line[i].chunkedReq.tableIdx == line[i].tableIdx
  {
    QueueFacts(line, jobs, i);
  }

  function NewJob(pr: PendingReq): Job {
    Job(pr.uid, pr.inputIds, pr.outputLen, pr.ignoreEos, pr.cachedLen, pr.cacheHandle, [], [])
  }

  lemma AddedRows(jobs: Jobs, row: int, j: Job)
    requires row !in jobs && Queued(j)
    ensures QueuedRows(jobs[row := j]) == QueuedRows(jobs) + {row} && DecodingRows(jobs[row := j]) == DecodingRows(jobs)
  {
    var jobs' := jobs[row := j];
    assert forall r :: r in jobs ==> r in jobs' && jobs'[r] == jobs[r];
    assert forall r :: r in jobs' && r != row ==> r in jobs;
  }

  lemma AddedOk(line: seq<PendingReq>, running: seq<Req>, jobs: Jobs, pr: PendingReq, ext: int, eos: int)
    requires QueueOk(line, jobs) && RunningOk(running, jobs, eos) && JobsFine(jobs, ext, eos) && AtRest(jobs, eos)
    requires pr.tableIdx !in jobs && pr.cachedLen < |pr.inputIds| && pr.chunkedReq == null
    ensures var jobs' := jobs[pr.tableIdx := NewJob(pr)];
            QueueOk(line + [pr], jobs') && RunningOk(running, jobs', eos) && JobsFine(jobs', ext, eos)
              && AtRest(jobs', eos)
  {
    var jobs' := jobs[pr.tableIdx := NewJob(pr)];
    AddedRows(jobs, pr.tableIdx, NewJob(pr));
    RunningKept(running, jobs, jobs', eos);
    assert PendingRows(line + [pr]) == PendingRows(line) + [pr.tableIdx];
    ListsMore(PendingRows(line), QueuedRows(jobs), pr.tableIdx);
    forall p | p in line + [pr] ensures EntryOk(p, jobs') {
      assert p in line ==> EntryOk(p, jobs);
    }
    forall row | row in jobs' ensures Fine(jobs'[row], ext, eos) && !InFlight(jobs'[row]) && !Over(jobs'[row], eos) {
      assert row != pr.tableIdx ==> Fine(jobs[row], ext, eos) && !InFlight(jobs[row]) && !Over(jobs[row], eos);
    }
  }

  lemma LessJobs(jobs: Jobs, row: int, ext: int, eos: int)
    requires JobsFine(jobs, ext, eos) && AtRest(jobs, eos) && row in jobs
    ensures JobsFine(jobs - {row}, ext, eos) && AtRest(jobs - {row}, eos)
    ensures QueuedRows(jobs - {row}) == QueuedRows(jobs) - {row}
            && DecodingRows(jobs - {row}) == DecodingRows(jobs) - {row}
  {
    forall r | r in jobs - {row} ensures Fine(jobs[r], ext, eos) && !InFlight(jobs[r]) && !Over(jobs[r], eos) {
      assert Fine(jobs[r], ext, eos);
    }
  }

  lemma AbortedPending(line: seq<PendingReq>, i: nat, running: seq<Req>, jobs: Jobs, ext: int, eos: int)
    requires QueueOk(line, jobs) && RunningOk(running, jobs, eos) && JobsFine(jobs, ext, eos) && AtRest(jobs, eos)
             && i < |line|
    ensures line[i].tableIdx in jobs && jobs[line[i].tableIdx].uid == line[i].uid
    ensures var jobs' := jobs - {line[i].tableIdx};
            QueueOk(Without(line, i), jobs') && RunningOk(running, jobs', eos) && JobsFine(jobs', ext, eos)
              && AtRest(jobs', eos)
  {
    var row := line[i].tableIdx;
    QueueFacts(line, jobs, i);
    RowsApart(line, i, jobs);
    LessJobs(jobs, row, ext, eos);
    MovedRows(line, i, false, jobs, jobs - {row});
    forall p | p in Without(line, i) ensures EntryOk(p, jobs - {row}) {
      assert EntryOk(p, jobs);
    }
    assert DecodingRows(jobs) - {row} == DecodingRows(jobs);
    RunningKept(running, jobs, jobs - {row}, eos);
  }

  lemma AbortedRunning(line: seq<PendingReq>, i: nat, running: seq<Req>, jobs: Jobs, ext: int, eos: int)
    requires QueueOk(line, jobs) && RunningOk(running, jobs, eos) && JobsFine(jobs, ext, eos) && AtRest(jobs, eos)
             && i < |running|
    ensures running[i].tableIdx in jobs && jobs[running[i].tableIdx].uid == running[i].uid
    ensures var jobs' := jobs - {running[i].tableIdx};
            QueueOk(line, jobs') && RunningOk(Without(running, i), jobs', eos) && JobsFine(jobs', ext, eos)
              && AtRest(jobs', eos)
  {
    var row, rows := running[i].tableIdx, ReqRows(running);
    assert ReqIs(running[i], jobs, eos) && rows[i] in rows;
    LessJobs(jobs, row, ext, eos);
    ListsLess(rows, DecodingRows(jobs), i);
    assert ReqRows(Without(running, i)) == Without(rows, i);
    forall r | r in Without(running, i) ensures ReqIs(r, jobs - {row}, eos) {
      var k :| 0 <= k < |running| && k != i && running[k] == r;
      assert ReqIs(r, jobs, eos) && rows[k] != rows[i];
    }
    assert QueuedRows(jobs) - {row} == QueuedRows(jobs);
    QueueKept(line, jobs, jobs - {row});
  }

  /** While a queued prompt that fits the pool alone is waiting, or something decodes, a step has work. */
  ghost predicate FitsAlone(line: seq<PendingReq>, cacheBudget: int) {
    forall p :: p in line ==> Estimate(p) <= cacheBudget
  }

  lemma NothingLive(running: seq<Req>, jobs: Jobs, ext: int, eos: int)
    requires QueueOk([], jobs) && running == [] && RunningOk(running, jobs, eos) && JobsFine(jobs, ext, eos)
             && AtRest(jobs, eos)
    ensures jobs == map[]
  {
    forall row | row in jobs ensures Done(jobs[row]) <= |jobs[row].prompt| && !InFlight(jobs[row]) {
      assert Fine(jobs[row], ext, eos);
    }
    PhasesShareRows(jobs);
    ListsSize(PendingRows([]), QueuedRows(jobs));
    ListsSize(ReqRows([]), DecodingRows(jobs));
    assert QueuedRows(jobs) == {} && DecodingRows(jobs) == {} && InFlightRows(jobs) == {};
  }

  lemma RestRows(jobs: Jobs, eos: int)
    requires AtRest(jobs, eos)
    ensures InFlightRows(jobs) == {}
  {
    forall row | row in jobs ensures row !in InFlightRows(jobs) {
      assert !InFlight(jobs[row]);
    }
  }

  lemma DecodeBatch(running: seq<Req>, jobs: Jobs, eos: int)
    requires RunningOk(running, jobs, eos) && AtRest(jobs, eos)
    ensures BatchOk(Batch(SortByUid(running), false), running, jobs, eos)
  {
    var sorted := SortByUid(running);
    RestRows(jobs, eos);
    SortKeeps(running);
    SortedRows(running, sorted);
    ListsSorted(ReqRows(running), ReqRows(sorted), DecodingRows(jobs));
    forall r | r in sorted ensures r in running && ReqIs(r, jobs, eos) {
      assert r in multiset(sorted);
      assert r in running && ReqIs(r, jobs, eos);
    }
  }

  lemma WithoutOne<T>(s: seq<T>, k: nat)
    requires k < |s|
    ensures multiset(s) == multiset(Without(s, k)) + multiset{s[k]}
  {
    assert s == s[..k] + [s[k]] + s[k + 1..];
  }

  lemma ReqRowsWithout(b: seq<Req>, k: nat)
    requires k < |b|
    ensures ReqRows(Without(b, k)) == Without(ReqRows(b), k)
  {}

  lemma {:induction false} SortedRows(a: seq<Req>, b: seq<Req>)
    requires multiset(a) == multiset(b)
    ensures multiset(ReqRows(a)) == multiset(ReqRows(b))
    decreases |a|
  {
    if a == [] {
      assert |multiset(b)| == 0;
      assert b == [];
    } else {
      var x := a[0];
      assert x in multiset(b);
      var k :| 0 <= k < |b| && b[k] == x;
      WithoutOne(a, 0);
      WithoutOne(b, k);
      assert multiset(Without(a, 0)) == multiset(a) - multiset{x} == multiset(Without(b, k));
      SortedRows(Without(a, 0), Without(b, k));
      ReqRowsWithout(a, 0);
      ReqRowsWithout(b, k);
      WithoutOne(ReqRows(a), 0);
      WithoutOne(ReqRows(b), k);
    }
  }

  lemma AllFree(n: nat, ext: int, eos: int)
    ensures RowsOk(Range(0, n), map[], n) && QueueOk([], map[]) && RunningOk([], map[], eos)
    ensures JobsFine(map[], ext, eos) && AtRest(map[], eos)
  {
    EveryRowFree(n);
    hide RowsOk, Range;
    assert PendingRows([]) == [] && ReqRows([]) == [];
  }

  lemma EveryRowFree(n: nat)
    ensures RowsOk(Range(0, n), map[], n)
  {
    var none: Jobs := map[];
    RangeLists(n);
    hide Range, AllRows, Lists, Sorted;
    assert AllRows(n) - none.Keys == AllRows(n);
  }

  lemma RangeHas(n: nat, x: int)
    ensures x in Range(0, n) <==> 0 <= x < n
  {
    var rows := Range(0, n);
    hide Range;
    if 0 <= x < n {
      assert rows[x] == x;
    }
  }

  lemma RangeGrows(n: nat)
    ensures Distinct(Range(0, n)) && Sorted(Range(0, n))
  {
    hide Range;
  }

  lemma RangeLists(n: nat)
    ensures Lists(Range(0, n), AllRows(n)) && Sorted(Range(0, n))
  {
    hide Range, AllRows, Distinct, Sorted;
    RangeGrows(n);
    forall x ensures x in Range(0, n) <==> x in AllRows(n) {
      RangeHas(n, x);
    }
  }

  lemma SomethingLive(running: seq<Req>, line: seq<PendingReq>, eos: int)
    requires QueueOk(line, map[]) && RunningOk(running, map[], eos)
    ensures line == [] && running == []
  {
    ListsSize(PendingRows(line), QueuedRows(map[]));
    ListsSize(ReqRows(running), DecodingRows(map[]));
    assert QueuedRows(map[]) == {} && DecodingRows(map[]) == {};
  }

  /** Waiting and decoding requests each have a row, so there are no more of them than rows. */
  lemma EnoughRows(freeSlots: seq<int>, jobs: Jobs, n: nat, line: seq<PendingReq>, running: seq<Req>, ext: int,
                   eos: int)
    requires RowsOk(freeSlots, jobs, n) && QueueOk(line, jobs) && RunningOk(running, jobs, eos)
             && JobsFine(jobs, ext, eos)
    ensures |running| + |line| <= n
  {
    forall row | row in jobs ensures Done(jobs[row]) <= |jobs[row].prompt| {
      assert Fine(jobs[row], ext, eos);
    }
    RowsAddUp(freeSlots, jobs, n, PendingRows(line), ReqRows(running));
  }

  lemma BeforeGrants(freeSlots: seq<int>, line: seq<PendingReq>, running: seq<Req>, jobs: Jobs, n: nat, ext: int,
                     eos: int, cacheBudget: int)
    requires RowsOk(freeSlots, jobs, n) && QueueOk(line, jobs) && RunningOk(running, jobs, eos)
             && JobsFine(jobs, ext, eos)
    ensures |running| + |line| <= n && (jobs == map[] ==> line == [] && running == [])
    ensures ext > 0 && FitsAlone(line, cacheBudget) && running == [] ==>
              (Prefills(jobs, ext, 0, cacheBudget) <==> line != [])
  {
    hide *;
    EnoughRows(freeSlots, jobs, n, line, running, ext, eos);
    if jobs == map[] {
      SomethingLive(running, line, eos);
    }
    if ext > 0 && FitsAlone(line, cacheBudget) && running == [] {
      FirstFits(line, jobs, ext, cacheBudget);
    }
  }

  lemma AfterGrants(reqs: seq<Req>, freeSlots: seq<int>, running: seq<Req>, jobs: Jobs, jobs': Jobs, n: nat, ext: int,
                    eos: int)
    requires Granted(reqs, jobs, jobs', ext) && JobsFine(jobs, ext, eos) && AtRest(jobs, eos)
    requires RowsOk(freeSlots, jobs, n) && RunningOk(running, jobs, eos)
    ensures JobsFine(jobs', ext, eos) && RowsOk(freeSlots, jobs', n) && BatchOk(Batch(reqs, true), running, jobs', eos)
    ensures RunningOk(running, jobs', eos)
  {
    hide *;
    GrantedFine(reqs, jobs, jobs', ext, eos);
    GrantedRowsOk(freeSlots, jobs, jobs', n, reqs, ext);
    GrantedBatch(reqs, running, jobs, jobs', ext, eos);
    RunningKept(running, jobs, jobs', eos);
  }

  /** A queued prompt can be granted a part of a step: one is resumed, or is covered by what the pool has
      left beside `inflight`. */
  ghost predicate Prefills(jobs: Jobs, ext: int, inflight: int, pool: int) {
    ext > 0 && exists row :: row in QueuedRows(jobs) && Grantable(AskOf(jobs[row]), inflight, pool)
  }

  /** Nothing can be prefilled, and nothing decodes. */
  ghost predicate NothingToDo(jobs: Jobs, ext: int, inflight: int, pool: int) {
    !Prefills(jobs, ext, inflight, pool) && DecodingRows(jobs) == {}
  }

  lemma NothingToDoIs(jobs: Jobs, ext: int, inflight: int, pool: int)
    ensures NothingToDo(jobs, ext, inflight, pool) <==> !Prefills(jobs, ext, inflight, pool) && DecodingRows(jobs) == {}
  {}

  lemma NoneRunning(running: seq<Req>, jobs: Jobs, eos: int)
    requires RunningOk(running, jobs, eos)
    ensures running == [] <==> DecodingRows(jobs) == {}
  {
    if running != [] {
      assert ReqRows(running)[0] in DecodingRows(jobs);
    } else {
      forall row ensures row !in DecodingRows(jobs) {
        assert row in ReqRows(running) <==> row in DecodingRows(jobs);
      }
    }
  }

  /** A pass over the queue: what each prompt is granted, and who stays, in which order. */
  ghost predicate Dealing(line: seq<PendingReq>, line': seq<PendingReq>, rows: seq<int>, jobs: Jobs, jobs': Jobs,
                          grants: seq<int>, reqRows: seq<int>, ext: int, inflight: int, pool: int) {
    && |line| == |rows| == |grants| && Fair(rows, jobs, jobs', grants, reqRows, ext, inflight, pool)
    && line' == CutOff(line, Asks(rows, jobs), grants) + Skipped(line, grants)
  }

  lemma IsDealing(line: seq<PendingReq>, line': seq<PendingReq>, rows: seq<int>, jobs: Jobs, jobs': Jobs,
                  grants: seq<int>, reqRows: seq<int>, ext: int, inflight: int, pool: int)
    requires |line| == |rows| == |grants| && Fair(rows, jobs, jobs', grants, reqRows, ext, inflight, pool)
    requires line' == CutOff(line, Asks(rows, jobs), grants) + Skipped(line, grants)
    ensures Dealing(line, line', rows, jobs, jobs', grants, reqRows, ext, inflight, pool)
  {}

  lemma FirstFits(line: seq<PendingReq>, jobs: Jobs, ext: int, pool: int)
    requires ext > 0 && FitsAlone(line, pool) && QueueOk(line, jobs)
    ensures Prefills(jobs, ext, 0, pool) <==> line != []
  {
    QueueRows(line, jobs);
    if line != [] {
      assert EntryOk(line[0], jobs) && PendingRows(line)[0] == line[0].tableIdx;
      assert Estimate(line[0]) <= pool;
      assert Grantable(AskOf(jobs[line[0].tableIdx]), 0, pool);
    } else {
      assert PendingRows(line) == [];
    }
  }

  /** A pass comes to a batch exactly if some queued prompt can be granted something. */
  lemma FairPrefills(line: seq<PendingReq>, rows: seq<int>, jobs: Jobs, jobs': Jobs, grants: seq<int>,
                     reqRows: seq<int>, ext: int, inflight: int, pool: int)
    requires (forall row :: row in rows <==> row in QueuedRows(jobs)) && Asking(Asks(rows, jobs))
    requires Fair(rows, jobs, jobs', grants, reqRows, ext, inflight, pool)
    ensures reqRows != [] <==> Prefills(jobs, ext, inflight, pool)
  {
    var asks := Asks(rows, jobs);
    SomeoneJoins(asks, grants, ext, inflight, pool);
    PickedSome(rows, grants);
    hide Greedy, Picked;
    forall i | 0 <= i < |rows|
      ensures rows[i] in QueuedRows(jobs) && rows[i] in jobs
      ensures asks[i] == AskOf(jobs[rows[i]])
    {
      var row := rows[i];
      assert row in rows && row in QueuedRows(jobs);
      AskAt(rows, jobs, i);
    }
    if Prefills(jobs, ext, inflight, pool) {
      var row :| row in QueuedRows(jobs) && Grantable(AskOf(jobs[row]), inflight, pool);
      assert row in rows;
      var i :| 0 <= i < |rows| && rows[i] == row;
      assert Grantable(asks[i], inflight, pool);
    }
    if i :| ext > 0 && 0 <= i < |asks| && Grantable(asks[i], inflight, pool) {
      var row := rows[i];
      assert row in QueuedRows(jobs) && Grantable(AskOf(jobs[row]), inflight, pool);
    }
  }

  lemma GrantedRowsOk(freeSlots: seq<int>, jobs: Jobs, jobs': Jobs, n: nat, reqs: seq<Req>, ext: int)
    requires RowsOk(freeSlots, jobs, n) && Granted(reqs, jobs, jobs', ext)
    ensures RowsOk(freeSlots, jobs', n)
  {}

  class Scheduler {
    const maxRunningReq: nat
    const maxExtendTokens: int
    const cacheBudget: int
    ghost const eos: int
    const decodeManager: DecodeManager
    const prefillManager: PrefillManager
    var freeSlots: seq<int>
    ghost var jobs: Jobs

    /** What holds at every moment, also between `Schedule` and `Complete`. */
    ghost predicate Midway()
      reads this, prefillManager, set p | p in prefillManager.pendingList,
            set p | p in prefillManager.pendingList && p.chunkedReq != null :: p.chunkedReq
    {
      && prefillManager.decodeManager == decodeManager && prefillManager.maxRunningReq == maxRunningReq
      && prefillManager.cacheBudget == cacheBudget
      && RowsOk(freeSlots, jobs, maxRunningReq) && QueueOk(prefillManager.pendingList, jobs)
      && JobsFine(jobs, maxExtendTokens, eos)
    }

    ghost predicate Valid()
      reads this, prefillManager, set p | p in prefillManager.pendingList,
            set p | p in prefillManager.pendingList && p.chunkedReq != null :: p.chunkedReq,
            decodeManager, set r | r in decodeManager.runningReqs
    {
      Midway() && RunningOk(decodeManager.runningReqs, jobs, eos) && AtRest(jobs, eos)
    }

    lemma Facts()
      requires Valid()
      ensures Midway() && RunningOk(decodeManager.runningReqs, jobs, eos) && AtRest(jobs, eos)
    {}

    lemma MidwayFacts()
      requires Midway()
      ensures prefillManager.decodeManager == decodeManager && prefillManager.maxRunningReq == maxRunningReq
      ensures prefillManager.cacheBudget == cacheBudget
      ensures RowsOk(freeSlots, jobs, maxRunningReq) && QueueOk(prefillManager.pendingList, jobs)
      ensures JobsFine(jobs, maxExtendTokens, eos)
    {}

    lemma IsMidway()
      requires prefillManager.decodeManager == decodeManager && prefillManager.maxRunningReq == maxRunningReq
      requires prefillManager.cacheBudget == cacheBudget
      requires RowsOk(freeSlots, jobs, maxRunningReq) && QueueOk(prefillManager.pendingList, jobs)
      requires JobsFine(jobs, maxExtendTokens, eos)
      ensures Midway()
    {}

    lemma IsValid()
      requires Midway() && RunningOk(decodeManager.runningReqs, jobs, eos) && AtRest(jobs, eos)
      ensures Valid()
    {}

    constructor (maxRunningReq: nat, maxExtendTokens: int, cacheBudget: int, pageSize: nat, ghost eos: int)
      ensures Valid() && fresh(prefillManager) && fresh(decodeManager) && jobs == map[]
      ensures this.maxRunningReq == maxRunningReq && this.maxExtendTokens == maxExtendTokens
      ensures this.cacheBudget == cacheBudget && this.eos == eos && decodeManager.pageSize == pageSize
      ensures prefillManager.pendingList == [] && decodeManager.runningReqs == []
    {
      this.maxRunningReq, this.maxExtendTokens, this.cacheBudget, this.eos :=
        maxRunningReq, maxExtendTokens, cacheBudget, eos;
      var d := new DecodeManager(pageSize);
      decodeManager := d;
      prefillManager := new PrefillManager(maxRunningReq, cacheBudget, d);
      freeSlots, jobs := Range(0, maxRunningReq), map[];
      new;
      hide *;
      AllFree(maxRunningReq, maxExtendTokens, eos);
      IsMidway();
      IsValid();
    }

    /** Queue a prompt on the lowest free row; `None` when the request cap is reached. */
    method Add(pending: PendingReq) returns (uid: Option<int>)
      requires Valid() && pending.chunkedReq == null && pending !in prefillManager.pendingList
      requires pending.cachedLen < |pending.inputIds|
      modifies this`freeSlots, this`jobs, prefillManager`pendingList, pending`tableIdx
      ensures Valid()
      ensures uid == if old(freeSlots) == [] then None else Some(pending.uid)
      ensures uid == None ==>
                freeSlots == old(freeSlots) && jobs == old(jobs)
                  && prefillManager.pendingList == old(prefillManager.pendingList)
      ensures uid.Some? ==>
                pending.tableIdx == old(freeSlots)[0] && pending.tableIdx !in old(jobs)
                  && freeSlots == old(freeSlots)[1..]
                            && jobs == old(jobs)[pending.tableIdx := NewJob(pending)]
                            && prefillManager.pendingList == old(prefillManager.pendingList) + [pending]
    {
      hide *;
      if freeSlots == [] {
        return None;
      }
      Facts();
      MidwayFacts();
      AddedRow(freeSlots, jobs, maxRunningReq, NewJob(pending));
      pending.tableIdx := freeSlots[0];
      freeSlots := freeSlots[1..];
      AddedOk(prefillManager.pendingList, decodeManager.runningReqs, jobs, pending, maxExtendTokens, eos);
      prefillManager.AddOneReq(pending);
      jobs := jobs[pending.tableIdx := NewJob(pending)];
      IsMidway();
      IsValid();
      return Some(pending.uid);
    }

    /** Drop the live request that `uid` means, and free its row. */
    method Abort(uid: int) returns (ok: bool, ghost row: Option<int>)
      requires Valid()
      modifies this`freeSlots, this`jobs, prefillManager`pendingList, decodeManager`runningReqs
      ensures Valid() && row == old(TargetRow(prefillManager.pendingList, decodeManager.runningReqs, uid))
              && ok == row.Some?
      ensures row == None ==> freeSlots == old(freeSlots) && jobs == old(jobs)
                              && prefillManager.pendingList == old(prefillManager.pendingList)
                              && decodeManager.runningReqs == old(decodeManager.runningReqs)
      ensures var line, running := old(prefillManager.pendingList), old(decodeManager.runningReqs);
              var i, k := FindPending(line, uid), FindRunning(running, uid);
              && prefillManager.pendingList == (if i < |line| then Without(line, i) else line)
              && decodeManager.runningReqs
                 == if i == |line| && k < |running| then Without(running, k) else running
      ensures row.Some? ==> row.value in old(jobs) && old(jobs)[row.value].uid == uid && jobs == old(jobs) - {row.value}
                            && freeSlots == Sort(old(freeSlots) + [row.value])
      ensures row == None <==> forall r :: r in old(jobs) ==> old(jobs)[r].uid != uid
      ensures forall p :: p in prefillManager.pendingList ==> p in old(prefillManager.pendingList)
      ensures forall r :: r in decodeManager.runningReqs ==> r in old(decodeManager.runningReqs)
    {
      hide *;
      row := TargetRow(prefillManager.pendingList, decodeManager.runningReqs, uid);
      TargetIs(prefillManager.pendingList, decodeManager.runningReqs, uid);
      Facts();
      MidwayFacts();
      TargetNone(prefillManager.pendingList, decodeManager.runningReqs, jobs, maxExtendTokens, eos, uid);
      var i := FindPending(prefillManager.pendingList, uid);
      if i < |prefillManager.pendingList| {
        var pr := prefillManager.pendingList[i];
        ChunkRow(prefillManager.pendingList, jobs, i);
        AbortedPending(prefillManager.pendingList, i, decodeManager.runningReqs, jobs, maxExtendTokens, eos);
        var tableIdx := if pr.chunkedReq != null then pr.chunkedReq.tableIdx else pr.tableIdx;
        OneRow(tableIdx);
        FreedRows(freeSlots, [tableIdx], {tableIdx}, jobs, maxRunningReq);
        WithoutIn(prefillManager.pendingList, i);
        prefillManager.pendingList := Without(prefillManager.pendingList, i);
        freeSlots, jobs := Sort(freeSlots + [tableIdx]), jobs - {tableIdx};
        IsMidway();
        IsValid();
        return true, row;
      }
      var req;
      ghost var at;
      ghost var running := decodeManager.runningReqs;
      req, at := decodeManager.AbortReq(uid);
      if req != null {
        assert FindRunning(running, uid) == at;
        WithoutIn(running, at);
        AbortedRunning(prefillManager.pendingList, at, running, jobs, maxExtendTokens, eos);
        OneRow(req.tableIdx);
        FreedRows(freeSlots, [req.tableIdx], {req.tableIdx}, jobs, maxRunningReq);
        freeSlots, jobs := Sort(freeSlots + [req.tableIdx]), jobs - {req.tableIdx};
        IsMidway();
        IsValid();
        return true, row;
      }
      return false, row;
    }

    /** A prefill batch, if a queued prompt can be granted a part of the step. */
    method SchedulePrefill() returns (batch: Option<Batch>, ghost grants: seq<int>)
      requires Valid()
      modifies this`jobs, prefillManager`pendingList, (set p | p in prefillManager.pendingList)`chunkedReq
      ensures Midway() && RunningOk(decodeManager.runningReqs, jobs, eos)
      ensures forall p :: p in prefillManager.pendingList ==> p in old(prefillManager.pendingList)
      ensures batch == None ==>
                Valid() && jobs == old(jobs) && prefillManager.pendingList == old(prefillManager.pendingList)
      ensures batch.Some? ==>
                && batch.value.prefill && batch.value.reqs != []
                && BatchOk(batch.value, decodeManager.runningReqs, jobs, eos)
                && Granted(batch.value.reqs, old(jobs), jobs, maxExtendTokens) && fresh(set r | r in batch.value.reqs)
                && 0 < TotalExtend(batch.value.reqs) <= maxExtendTokens && old(jobs) != map[]
      ensures batch.Some? <==> old(Prefills(jobs, maxExtendTokens, Inflight(jobs, decodeManager.pageSize), cacheBudget))
      ensures Dealing(old(prefillManager.pendingList), prefillManager.pendingList,
                      old(PendingRows(prefillManager.pendingList)),
                      old(jobs), jobs, grants, if batch.Some? then ReqRows(batch.value.reqs) else [], maxExtendTokens,
                      old(Inflight(jobs, decodeManager.pageSize)), cacheBudget)
    {
      hide *;
      Facts();
      MidwayFacts();
      ghost var line, running, was := prefillManager.pendingList, decodeManager.runningReqs, jobs;
      ghost var rows, inflight := PendingRows(line), Inflight(jobs, decodeManager.pageSize);
      BeforeGrants(freeSlots, line, running, jobs, maxRunningReq, maxExtendTokens, eos, cacheBudget);
      QueueRows(line, jobs);
      InflightIs(running, jobs, eos, decodeManager.pageSize);
      batch, jobs, grants := prefillManager.ScheduleNextBatch(maxExtendTokens, jobs);
      ghost var reqRows := if batch.Some? then ReqRows(batch.value.reqs) else [];
      IsDealing(line, prefillManager.pendingList, rows, was, jobs, grants, reqRows, maxExtendTokens, inflight,
                cacheBudget);
      FairPrefills(line, rows, was, jobs, grants, reqRows, maxExtendTokens, inflight, cacheBudget);
      if batch.Some? {
        AfterGrants(batch.value.reqs, freeSlots, running, was, jobs, maxRunningReq, maxExtendTokens, eos);
        IsMidway();
      } else {
        IsMidway();
        IsValid();
      }
    }

    /** The decode batch, if anything decodes. */
    method ScheduleDecode() returns (batch: Option<Batch>)
      requires Valid()
      ensures batch == None <==> decodeManager.runningReqs == []
      ensures batch.Some? ==>
                && !batch.value.prefill && batch.value.reqs != []
                && batch.value.reqs == SortByUid(decodeManager.runningReqs)
                && BatchOk(batch.value, decodeManager.runningReqs, jobs, eos) && jobs != map[]
      ensures batch == None && prefillManager.pendingList == [] ==> jobs == map[]
    {
      hide *;
      Facts();
      MidwayFacts();
      batch := decodeManager.ScheduleNextBatch();
      DecodeBatch(decodeManager.runningReqs, jobs, eos);
      BeforeGrants(freeSlots, prefillManager.pendingList, decodeManager.runningReqs, jobs, maxRunningReq,
                   maxExtendTokens, eos, cacheBudget);
      if batch == None && prefillManager.pendingList == [] {
        NothingLive(decodeManager.runningReqs, jobs, maxExtendTokens, eos);
      }
    }

    /** This step's batch: a prefill batch exactly if a queued prompt can be granted something, else the
        decode set. When every queued prompt fits the pool alone, there is no batch only when there is no
        request at all. */
    method Schedule() returns (batch: Option<Batch>, ghost grants: seq<int>)
      requires Valid()
      modifies this`jobs, prefillManager`pendingList, (set p | p in prefillManager.pendingList)`chunkedReq
      ensures Midway() && RunningOk(decodeManager.runningReqs, jobs, eos)
      ensures forall p :: p in prefillManager.pendingList ==> p in old(prefillManager.pendingList)
      ensures batch == None ==> Valid() && jobs == old(jobs)
      ensures batch.Some? ==> batch.value.reqs != [] && BatchOk(batch.value, decodeManager.runningReqs, jobs, eos)
      ensures batch.Some? && batch.value.prefill ==>
                && Granted(batch.value.reqs, old(jobs), jobs, maxExtendTokens) && fresh(set r | r in batch.value.reqs)
                && 0 < TotalExtend(batch.value.reqs) <= maxExtendTokens
      ensures batch.Some? && !batch.value.prefill ==>
                jobs == old(jobs) && batch.value.reqs == SortByUid(decodeManager.runningReqs)
      ensures maxExtendTokens > 0 && FitsAlone(old(prefillManager.pendingList), cacheBudget) ==>
                (batch == None <==> old(jobs) == map[])
      ensures batch.Some? && batch.value.prefill <==>
              old(Prefills(jobs, maxExtendTokens, Inflight(jobs, decodeManager.pageSize), cacheBudget))
      ensures batch == None <==>
              old(NothingToDo(jobs, maxExtendTokens, Inflight(jobs, decodeManager.pageSize), cacheBudget))
      ensures Dealing(old(prefillManager.pendingList), prefillManager.pendingList,
                      old(PendingRows(prefillManager.pendingList)), old(jobs), jobs, grants,
                      if batch.Some? && batch.value.prefill then ReqRows(batch.value.reqs) else [], maxExtendTokens,
                      old(Inflight(jobs, decodeManager.pageSize)), cacheBudget)
    {
      hide *;
      Facts();
      MidwayFacts();
      BeforeGrants(freeSlots, prefillManager.pendingList, decodeManager.runningReqs, jobs, maxRunningReq,
                   maxExtendTokens, eos, cacheBudget);
      InflightIs(decodeManager.runningReqs, jobs, eos, decodeManager.pageSize);
      NothingToDoIs(jobs, maxExtendTokens, Inflight(jobs, decodeManager.pageSize), cacheBudget);
      NoneRunning(decodeManager.runningReqs, jobs, eos);
      batch, grants := SchedulePrefill();
      if batch == None {
        batch := ScheduleDecode();
      }
    }

    /** A batch has run: requests that can go on form the decode set, the rows of those that are
        over are free again, each exactly once. */
    method Complete(batch: Batch)
      requires Midway() && Noted(batch.reqs, decodeManager.runningReqs, jobs, eos)
      modifies this`freeSlots, this`jobs, decodeManager`runningReqs
      ensures Valid() && jobs == old(jobs) - OverRows(old(jobs), eos)
      ensures forall r :: r in decodeManager.runningReqs ==> r in old(decodeManager.runningReqs) || r in batch.reqs
    {
      hide *;
      MidwayFacts();
      var before := decodeManager.runningReqs;
      NotedFacts(batch.reqs, before, jobs, maxExtendTokens, eos);
      decodeManager.FilterReqs(batch.reqs);
      var after := decodeManager.runningReqs;
      MergedAre(before, batch.reqs);
      DecodableAre(Merged(before, batch.reqs));
      var freed := RowsLeft(before, after);
      freed := RowsAborted(batch.reqs, freed, LeftRows(before, after));
      FreedAreOver(batch.reqs, before, after, jobs, maxExtendTokens, eos);
      KeptRunning(batch.reqs, before, after, jobs, maxExtendTokens, eos);
      FreedRows(freeSlots, freed, OverRows(jobs, eos), jobs, maxRunningReq);
      if freed != [] {
        freeSlots := Sort(freeSlots + freed);
      } else {
        NoneFreed(freeSlots, OverRows(jobs, eos), jobs, maxRunningReq);
      }
      CompletedJobs(prefillManager.pendingList, jobs, maxExtendTokens, eos);
      jobs := jobs - OverRows(jobs, eos);
      IsMidway();
      IsValid();
    }
  }

  lemma NotedFacts(reqs: seq<Req>, running: seq<Req>, jobs: Jobs, ext: int, eos: int)
    requires Noted(reqs, running, jobs, eos) && JobsFine(jobs, ext, eos)
    ensures Distinct(running) && Apart(set r | r in running) && OverRows(jobs, eos) <= jobs.Keys
            && InFlightRows(jobs) == {}
  {
    assert (set r | r in running) <= Stepped(running, reqs);
  }

  lemma NoneFreed(freeSlots: seq<int>, rows: set<int>, jobs: Jobs, n: nat)
    requires RowsOk(freeSlots, jobs, n) && Lists([], rows)
    ensures RowsOk(freeSlots, jobs - rows, n)
  {
    ListsSize([], rows);
    assert jobs - rows == jobs;
  }

  lemma CompletedJobs(line: seq<PendingReq>, jobs: Jobs, ext: int, eos: int)
    requires JobsFine(jobs, ext, eos) && QueueOk(line, jobs) && InFlightRows(jobs) == {}
    ensures JobsFine(jobs - OverRows(jobs, eos), ext, eos) && AtRest(jobs - OverRows(jobs, eos), eos)
    ensures QueueOk(line, jobs - OverRows(jobs, eos))
  {
    var jobs' := jobs - OverRows(jobs, eos);
    forall row | row in jobs
      ensures Done(jobs[row]) <= |jobs[row].prompt| && (Queued(jobs[row]) ==> jobs[row].out == [])
              && Fine(jobs[row], ext, eos)
    {
      assert Fine(jobs[row], ext, eos);
    }
    OverDecodes(jobs, eos);
    forall row | row in QueuedRows(jobs) ensures row in jobs' && jobs'[row] == jobs[row] {
      assert row in QueuedRows(jobs');
    }
    QueueKept(line, jobs, jobs');
  }
}
