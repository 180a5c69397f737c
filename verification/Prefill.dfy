/** Chunked-prefill admission: which prompts join this step, and with how many of their tokens. */
module Prefill {
  import opened Arith
  import opened Requests
  import opened Rosters
  import opened Finite
  import opened RadixCache

  type Jobs = map<int, Job>

  /** The pool footprint a queued prompt is charged for: what is left to compute, and its output. */
  function Estimate(pr: PendingReq): int {
    |pr.inputIds| - pr.cachedLen + pr.outputLen
  }

  function Resume(pr: PendingReq): int
    reads pr, pr.chunkedReq
  {
    if pr.chunkedReq == null then pr.cachedLen else pr.chunkedReq.deviceLen
  }

  /** How many tokens a prompt gets: the first in a step and a continuation may be cut to the budget,
      any other prompt comes whole or not at all. */
  function Grant(rest: int, budget: int, mayCut: bool): int {
    if mayCut then Min(budget, rest) else if rest > budget then 0 else rest
  }

  class PrefillAdder {
    var tokenBudget: int
    const stepBudget: int
    var reservedSize: int
    const maxRunningReq: int
    const cacheBudget: int
    var runningCount: int

    constructor (stepBudget: int, reservedSize: int, maxRunningReq: int, cacheBudget: int, runningCount: int)
      ensures tokenBudget == this.stepBudget == stepBudget && this.reservedSize == reservedSize
      ensures this.maxRunningReq == maxRunningReq && this.cacheBudget == cacheBudget
              && this.runningCount == runningCount
    {
      tokenBudget, this.stepBudget, this.reservedSize := stepBudget, stepBudget, reservedSize;
      this.maxRunningReq, this.cacheBudget, this.runningCount := maxRunningReq, cacheBudget, runningCount;
    }

    predicate Gates(pr: PendingReq)
      reads this`reservedSize, this`runningCount
    {
      runningCount < maxRunningReq && reservedSize + Estimate(pr) <= cacheBudget
    }

    /** From `reserved` and `running`, a fresh prompt's allocation leads to the state now. */
    ghost predicate Allocated(pr: PendingReq, reserved: int, running: int)
      reads this`reservedSize, this`runningCount
    {
      reservedSize == reserved + Estimate(pr) && runningCount == running + 1
    }

    /** Reserve a running slot and the pool footprint of a fresh prompt. */
    method TryAllocateOne(pr: PendingReq) returns (resource: Option<nat>)
      modifies this`reservedSize, this`runningCount
      ensures resource == if old(Gates(pr)) then Some(pr.cachedLen) else None
      ensures if resource.Some? then Allocated(pr, old(reservedSize), old(runningCount))
              else reservedSize == old(reservedSize) && runningCount == old(runningCount)
    {
      if runningCount >= maxRunningReq {
        return None;
      }
      var extendLen := |pr.inputIds| - pr.cachedLen;
      if reservedSize + (extendLen + pr.outputLen) > cacheBudget {
        return None;
      }
      reservedSize := reservedSize + (extendLen + pr.outputLen);
      runningCount := runningCount + 1;
      return Some(pr.cachedLen);
    }

    /** Whatever the state was before the prompt's allocation, it is back. */
    method UndoAllocation(pr: PendingReq)
      modifies this`reservedSize, this`runningCount
      ensures forall reserved, running :: old(Allocated(pr, reserved, running)) ==>
                reservedSize == reserved && runningCount == running
    {
      reservedSize := reservedSize - (|pr.inputIds| - pr.cachedLen + pr.outputLen);
      runningCount := runningCount - 1;
    }

    /** Build this step's request for the prompt tokens from `cachedLen` on, if any are granted. */
    method AddOneReq(pr: PendingReq, tableIdx: int, cachedLen: nat, cacheHandle: RadixCacheHandle, chunked: bool)
      returns (req: Req?)
      requires cachedLen < |pr.inputIds|
      modifies this`tokenBudget
      ensures var n := Grant(|pr.inputIds| - cachedLen, old(tokenBudget), chunked);
              if n <= 0 then req == null && tokenBudget == old(tokenBudget)
              else req != null && fresh(req) && tokenBudget == old(tokenBudget) - n
                   && req.inputIds == pr.inputIds[..cachedLen + n] && req.cachedLen == cachedLen
                   && req.deviceLen == cachedLen + n
                   && req.chunked == (cachedLen + n < |pr.inputIds|) && !req.aborted && req.tableIdx == tableIdx
                   && req.uid == pr.uid && req.outputLen == pr.outputLen && req.ignoreEos == pr.ignoreEos
                   && req.cacheHandle == cacheHandle && req.maxDeviceLen == req.deviceLen + Max(0, pr.outputLen)
    {
      var remainLen := |pr.inputIds| - cachedLen;
      var chunkSize;
      if chunked {
        chunkSize := Min(tokenBudget, remainLen);
        if chunkSize <= 0 {
          return null;
        }
      } else {
        if remainLen > tokenBudget {
          return null;
        }
        chunkSize := remainLen;
      }
      tokenBudget := tokenBudget - chunkSize;
      req := new Req(pr.inputIds[..cachedLen + chunkSize], tableIdx, cachedLen, pr.outputLen, pr.uid, pr.ignoreEos,
                     cacheHandle, chunkSize < remainLen);
    }

    /** Whether the adder takes `pr` as it stands, and with how many tokens. */
    function Offer(pr: PendingReq): int
      reads this, pr, pr.chunkedReq
    {
      if tokenBudget <= 0 then 0
      else if pr.chunkedReq != null then Grant(|pr.inputIds| - Resume(pr), tokenBudget, true)
      else if !Gates(pr) then 0
      else Grant(|pr.inputIds| - Resume(pr), tokenBudget, tokenBudget == stepBudget)
    }

    /** Admit `pr` or leave every reservation as it was. */
    method TryAddOne(pr: PendingReq) returns (req: Req?)
      requires 0 <= Resume(pr) < |pr.inputIds|
      requires pr.chunkedReq != null ==>
                 pr.chunkedReq.tableIdx == pr.tableIdx && pr.chunkedReq.cacheHandle == pr.cacheHandle
      modifies this`tokenBudget, this`reservedSize, this`runningCount
      ensures var n := old(Offer(pr));
              if n <= 0
              then req == null && tokenBudget == old(tokenBudget) && reservedSize == old(reservedSize)
                   && runningCount == old(runningCount)
              else req != null && fresh(req) && tokenBudget == old(tokenBudget) - n
                   && reservedSize == old(reservedSize) + (if pr.chunkedReq == null then Estimate(pr) else 0)
                   && runningCount == old(runningCount) + (if pr.chunkedReq == null then 1 else 0)
                   && req.inputIds == pr.inputIds[..Resume(pr) + n] && req.cachedLen == Resume(pr)
                   && req.deviceLen == Resume(pr) + n && req.chunked == (Resume(pr) + n < |pr.inputIds|) && !req.aborted
                   && req.tableIdx == pr.tableIdx && req.uid == pr.uid && req.outputLen == pr.outputLen
                   && req.ignoreEos == pr.ignoreEos && req.cacheHandle == pr.cacheHandle
                   && req.maxDeviceLen == req.deviceLen + Max(0, pr.outputLen)
    {
      if tokenBudget <= 0 {
        return null;
      }
      if pr.chunkedReq != null {
        var resumed := pr.chunkedReq;
        req := AddOneReq(pr, resumed.tableIdx, resumed.deviceLen, resumed.cacheHandle, true);
        return;
      }
      var resource := TryAllocateOne(pr);
      if resource == None {
        return null;
      }
      var firstInStep := tokenBudget == stepBudget;
      req := AddOneReq(pr, pr.tableIdx, resource.value, pr.cacheHandle, firstInStep);
      if req == null {
        ghost var reserved, running := old(reservedSize), old(runningCount);
        assert Allocated(pr, reserved, running);
        UndoAllocation(pr);
      }
    }
  }

  // ---------------------------------------------------------------- the queue

  ghost function QueuedRows(jobs: Jobs): set<int> {
    set r | r in jobs && Queued(jobs[r])
  }

  ghost predicate PendingIs(pr: PendingReq, j: Job)
    reads pr, pr.chunkedReq
  {
    && pr.uid == j.uid && pr.inputIds == j.prompt && pr.outputLen == j.outputLen && pr.ignoreEos == j.ignoreEos
    && pr.cachedLen == j.cached && pr.cacheHandle == j.handle && Queued(j)
    && (pr.chunkedReq == null <==> j.slices == [])
    && (pr.chunkedReq != null ==>
          var c := pr.chunkedReq;
          c.chunked && c.deviceLen == Done(j) && c.tableIdx == pr.tableIdx && c.cacheHandle == pr.cacheHandle)
  }

  ghost function PendingRows(line: seq<PendingReq>): (rows: seq<int>)
    reads set p | p in line
    ensures |rows| == |line| && forall i :: 0 <= i < |line| ==> rows[i] == line[i].tableIdx
  {
    seq(|line|, i requires 0 <= i < |line| reads (if 0 <= i < |line| then {line[i]} else {}) => line[i].tableIdx)
  }

  ghost predicate EntryOk(p: PendingReq, jobs: Jobs)
    reads p, p.chunkedReq
  {
    p.tableIdx in jobs && PendingIs(p, jobs[p.tableIdx])
  }

  /** The queue holds exactly the requests whose prompt is not fully scheduled, each once, and at
      most one of them, the first, is mid-prompt. */
  ghost predicate QueueOk(line: seq<PendingReq>, jobs: Jobs)
    reads set p | p in line, set p | p in line && p.chunkedReq != null :: p.chunkedReq
  {
    && Lists(PendingRows(line), QueuedRows(jobs))
    && (forall p {:trigger EntryOk(p, jobs)} :: p in line ==> EntryOk(p, jobs))
    && (forall i :: 0 < i < |line| ==> line[i].chunkedReq == null)
  }

  /** What this step's request says about the request it belongs to. */
  ghost predicate Placed(r: Req, j: Job, j': Job)
    reads r
  {
    && r.cachedLen == Done(j) < r.deviceLen <= |j.prompt| && j' == Advance(j, r.deviceLen)
    && r.inputIds == j.prompt[..r.deviceLen] && r.chunked == (r.deviceLen < |j.prompt|)
    && r.uid == j.uid && r.outputLen == j.outputLen && r.ignoreEos == j.ignoreEos && !r.aborted
    && r.maxDeviceLen == r.deviceLen + Max(0, j.outputLen) && r.cacheHandle == j.handle
  }

  /** The queue once `line[k]` was granted a part of its prompt, or all the rest of it. */
  function Moved(line: seq<PendingReq>, k: nat, chunked: bool): seq<PendingReq>
    requires k < |line|
  {
    if chunked then [line[k]] + Without(line, k) else Without(line, k)
  }

  lemma MovedRows(line: seq<PendingReq>, k: nat, chunked: bool, jobs: Jobs, jobs': Jobs)
    requires k < |line| && Lists(PendingRows(line), QueuedRows(jobs))
    requires QueuedRows(jobs') == if chunked then QueuedRows(jobs) else QueuedRows(jobs) - {line[k].tableIdx}
    ensures Lists(PendingRows(Moved(line, k, chunked)), QueuedRows(jobs'))
  {
    var rows := PendingRows(line);
    ListsLess(rows, QueuedRows(jobs), k);
    ListsToFront(rows, QueuedRows(jobs), k);
    assert PendingRows(Without(line, k)) == Without(rows, k);
    assert PendingRows([line[k]] + Without(line, k)) == [rows[k]] + Without(rows, k);
    assert !chunked ==> Moved(line, k, chunked) == Without(line, k);
  }

  lemma AdvancedRows(jobs: Jobs, row: int, end: nat)
    requires row in jobs && Queued(jobs[row]) && end <= |jobs[row].prompt|
    ensures var jobs' := jobs[row := Advance(jobs[row], end)];
            QueuedRows(jobs') == if end < |jobs[row].prompt| then QueuedRows(jobs) else QueuedRows(jobs) - {row}
  {}

  lemma MovedOk(line: seq<PendingReq>, k: nat, chunked: bool, jobs: Jobs, jobs': Jobs, j': Job)
    requires k < |line| && Lists(PendingRows(line), QueuedRows(jobs)) && jobs' == jobs[line[k].tableIdx := j']
    requires QueuedRows(jobs') == if chunked then QueuedRows(jobs) else QueuedRows(jobs) - {line[k].tableIdx}
    requires forall p {:trigger EntryOk(p, jobs)} :: p in line && p != line[k] ==> EntryOk(p, jobs)
    requires forall i :: 0 < i < |line| && i != k ==> line[i].chunkedReq == null
    requires chunked ==> PendingIs(line[k], j') && (0 < k ==> line[0].chunkedReq == null)
    ensures QueueOk(Moved(line, k, chunked), jobs')
  {
    MovedRows(line, k, chunked, jobs, jobs');
    RowsApart(line, k, jobs);
    hide PendingIs, Queued, PendingRows, Lists;
    forall p | p in Moved(line, k, chunked) ensures EntryOk(p, jobs') {
      assert p != line[k] ==> EntryOk(p, jobs);
    }
  }

  lemma RowsApart(line: seq<PendingReq>, k: nat, jobs: Jobs)
    requires k < |line| && Lists(PendingRows(line), QueuedRows(jobs))
    ensures line[k] !in Without(line, k) && forall p :: p in Without(line, k) ==>
              p in line && p.tableIdx != line[k].tableIdx
    ensures forall i :: 0 <= i < |line| && i != k ==> line[i] != line[k]
    ensures forall p :: p in line && p != line[k] ==> p.tableIdx != line[k].tableIdx
  {
    var rows := PendingRows(line);
    assert forall i :: 0 <= i < |line| && i != k ==> rows[i] != rows[k];
  }

  lemma QueueFacts(line: seq<PendingReq>, jobs: Jobs, k: nat)
    requires QueueOk(line, jobs) && k < |line|
    ensures Lists(PendingRows(line), QueuedRows(jobs)) && line[k].tableIdx in jobs
            && PendingIs(line[k], jobs[line[k].tableIdx])
    ensures Queued(jobs[line[k].tableIdx])
    ensures forall p {:trigger EntryOk(p, jobs)} :: p in line ==> EntryOk(p, jobs)
    ensures forall i :: 0 < i < |line| ==> line[i].chunkedReq == null
  {
    assert EntryOk(line[k], jobs);
  }

  /** Offer the adder the queued prompt `line[k]`. */
  method AdmitNext(adder: PrefillAdder, pr: PendingReq, ghost line: seq<PendingReq>, ghost k: nat, ghost jobs: Jobs)
    returns (req: Req?, ghost jobs': Jobs)
    requires QueueOk(line, jobs) && k < |line| && line[k] == pr
    requires adder.tokenBudget <= adder.stepBudget
    requires 0 < k && adder.tokenBudget == adder.stepBudget ==> line[0].chunkedReq == null
    modifies adder`tokenBudget, adder`reservedSize, adder`runningCount, pr`chunkedReq
    ensures var n := old(adder.Offer(pr));
            if n <= 0
            then req == null && jobs' == jobs && adder.tokenBudget == old(adder.tokenBudget)
                 && adder.reservedSize == old(adder.reservedSize) && adder.runningCount == old(adder.runningCount)
                 && pr.chunkedReq == old(pr.chunkedReq) && QueueOk(line, jobs)
            else req != null && fresh(req) && adder.tokenBudget == old(adder.tokenBudget) - n
                 && adder.reservedSize == old(adder.reservedSize)
                      + (if old(pr.chunkedReq) == null then Estimate(pr) else 0)
                 && adder.runningCount <= old(adder.runningCount) + 1 && n == req.deviceLen - req.cachedLen
                 && req.tableIdx == pr.tableIdx && pr.tableIdx in jobs && Queued(jobs[pr.tableIdx])
                 && 0 <= req.deviceLen
                 && jobs' == jobs[pr.tableIdx := Advance(jobs[pr.tableIdx], req.deviceLen)]
                 && Placed(req, jobs[pr.tableIdx], jobs'[pr.tableIdx])
                 && (req.chunked ==> adder.tokenBudget == 0 && (old(pr.chunkedReq) != null || n == adder.stepBudget))
                 && QueueOk(Moved(line, k, req.chunked), jobs')
  {
    QueueFacts(line, jobs, k);
    RowsApart(line, k, jobs);
    hide QueueOk, EntryOk, Lists, QueuedRows, JobOk;
    ghost var j := jobs[pr.tableIdx];
    ghost var rows := PendingRows(line);
    req := adder.TryAddOne(pr);
    jobs' := jobs;
    if req != null {
      pr.chunkedReq := if req.chunked then req else null;
      jobs' := jobs[pr.tableIdx := Advance(j, req.deviceLen)];
      AdvancedRows(jobs, pr.tableIdx, req.deviceLen);
      assert PendingRows(line) == rows;
      MovedOk(line, k, req.chunked, jobs, jobs', jobs'[pr.tableIdx]);
    }
  }
}
