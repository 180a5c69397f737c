/** The decode set: requests whose prompt is done, one token per step. */
module Decode {
  import opened Arith
  import opened Requests
  import opened Rosters
  import opened Finite
  import opened Prefill

  datatype Batch = Batch(reqs: seq<Req>, prefill: bool)

  /** The page-table rows of requests. */
  ghost function ReqRows(rs: seq<Req>): (rows: seq<int>)
    ensures |rows| == |rs| && forall i :: 0 <= i < |rs| ==> rows[i] == rs[i].tableIdx
  {
    seq(|rs|, i requires 0 <= i < |rs| => rs[i].tableIdx)
  }

  /** What a request whose prompt is complete brings to its next step. Its tokens: the prompt, also with
      the first token, but after that only the newest token. And what of it is taken to be cached: the
      prompt up to the part scheduled last, then, if there was any before that part, the whole prompt. */
  ghost predicate Brings(r: Req, j: Job)
    reads r`inputIds, r`cachedLen
  {
    && (if |j.out| <= 1 then r.inputIds == j.prompt + j.out else r.inputIds == [j.out[|j.out| - 1]])
    && (if j.out == [] || LastStart(j) == 0 then r.cachedLen == LastStart(j) else r.cachedLen == |j.prompt|)
  }

  /** The token that a decode step feeds is the newest one, and it is the only one to be computed if the
      prompt was not computed in one piece. */
  lemma DecodeFeeds(r: Req, jobs: Jobs, eos: int)
    requires ReqIs(r, jobs, eos) && Decoding(jobs[r.tableIdx])
    ensures r.inputIds != [] && var out := jobs[r.tableIdx].out; r.inputIds[|r.inputIds| - 1] == out[|out| - 1]
    ensures r.deviceLen - 1 == |jobs[r.tableIdx].prompt + jobs[r.tableIdx].out| - 1
    ensures |jobs[r.tableIdx].out| == 1 && LastStart(jobs[r.tableIdx]) > 0 ==> r.ExtendLen() == 1
  {}

  /** `r` is the request of the job in its row, as far as that job has got. */
  ghost predicate ReqIs(r: Req, jobs: Jobs, eos: int)
    reads r
  {
    && r.tableIdx in jobs && !r.chunked
    && var j := jobs[r.tableIdx];
       && r.uid == j.uid && r.outputLen == j.outputLen && r.ignoreEos == j.ignoreEos && r.cacheHandle == j.handle
       && Done(j) == |j.prompt| && r.deviceLen == |j.prompt| + |j.out|
       && r.maxDeviceLen == |j.prompt| + Max(0, j.outputLen)
       && (r.aborted <==> Over(j, eos)) && Brings(r, j)
  }

  ghost function DecodingRows(jobs: Jobs): set<int> {
    set r | r in jobs && Decoding(jobs[r])
  }

  ghost predicate RunningOk(rs: seq<Req>, jobs: Jobs, eos: int)
    reads set r | r in rs
  {
    && Lists(ReqRows(rs), DecodingRows(jobs))
    && (forall r {:trigger ReqIs(r, jobs, eos)} :: r in rs ==> ReqIs(r, jobs, eos))
  }

  // ---------------------------------------------------------------- ordered sets of requests

  function Merged(a: seq<Req>, b: seq<Req>): seq<Req> {
    if b == [] then a else
      var m := Merged(a, b[..|b| - 1]);
      if b[|b| - 1] in m then m else m + [b[|b| - 1]]
  }

  lemma {:induction false} MergedAre(a: seq<Req>, b: seq<Req>)
    requires Distinct(a)
    ensures Distinct(Merged(a, b)) && forall r :: r in Merged(a, b) <==> r in a || r in b
  {
    if b != [] {
      MergedAre(a, b[..|b| - 1]);
      assert b == b[..|b| - 1] + [b[|b| - 1]];
    }
  }

  ghost function Decodable(rs: seq<Req>): seq<Req>
    reads set r | r in rs
  {
    if rs == [] then [] else
      Decodable(rs[..|rs| - 1]) + if rs[|rs| - 1].CanDecode() then [rs[|rs| - 1]] else []
  }

  lemma {:induction false} DecodableAre(rs: seq<Req>)
    requires Distinct(rs)
    ensures Distinct(Decodable(rs)) && forall r :: r in Decodable(rs) <==> r in rs && r.CanDecode()
  {
    if rs != [] {
      DecodableAre(rs[..|rs| - 1]);
      assert rs == rs[..|rs| - 1] + [rs[|rs| - 1]];
      assert rs[|rs| - 1] !in rs[..|rs| - 1];
    }
  }

  function InsertReq(x: Req, s: seq<Req>): seq<Req> {
    if s == [] || x.uid <= s[0].uid then [x] + s else [s[0]] + InsertReq(x, s[1..])
  }

  function SortByUid(s: seq<Req>): seq<Req> {
    if s == [] then [] else InsertReq(s[0], SortByUid(s[1..]))
  }

  lemma {:induction false} InsertKeeps(x: Req, s: seq<Req>)
    ensures multiset(InsertReq(x, s)) == multiset(s) + multiset{x}
  {
    if s != [] && x.uid > s[0].uid {
      InsertKeeps(x, s[1..]);
      assert s == [s[0]] + s[1..];
    }
  }

  lemma {:induction false} SortKeeps(s: seq<Req>)
    ensures multiset(SortByUid(s)) == multiset(s)
  {
    if s != [] {
      SortKeeps(s[1..]);
      InsertKeeps(s[0], SortByUid(s[1..]));
      assert s == [s[0]] + s[1..];
    }
  }

  ghost predicate UidOrdered(s: seq<Req>) {
    forall i, k :: 0 <= i < k < |s| ==> s[i].uid <= s[k].uid
  }

  lemma {:induction false} InsertOrders(x: Req, s: seq<Req>)
    requires UidOrdered(s)
    ensures UidOrdered(InsertReq(x, s)) && InsertReq(x, s) != []
    ensures InsertReq(x, s)[0].uid == if s == [] || x.uid <= s[0].uid then x.uid else s[0].uid
  {
    if s != [] && x.uid > s[0].uid {
      InsertOrders(x, s[1..]);
    }
  }

  /** The decode batch is in uid order. */
  lemma {:induction false} SortOrders(s: seq<Req>)
    ensures UidOrdered(SortByUid(s))
  {
    if s != [] {
      SortOrders(s[1..]);
      InsertOrders(s[0], SortByUid(s[1..]));
    }
  }

  /** What the decode set still has to produce. */
  ghost function Remaining(rs: seq<Req>): int
    reads set r | r in rs
  {
    if rs == [] then 0 else Remaining(rs[..|rs| - 1]) + rs[|rs| - 1].RemainLen()
  }

  /** The tokens that the requests in `rows` may still produce. */
  ghost function Owed(jobs: Jobs, rows: set<int>): int
    requires rows <= jobs.Keys
  {
    if rows == {} then 0 else
      var row := Pick(rows);
      Max(0, jobs[row].outputLen) - |jobs[row].out| + Owed(jobs, rows - {row})
  }

  lemma {:induction false} OwedLess(jobs: Jobs, rows: set<int>, row: int)
    requires rows <= jobs.Keys && row in rows
    ensures Owed(jobs, rows) == Max(0, jobs[row].outputLen) - |jobs[row].out| + Owed(jobs, rows - {row})
    decreases |rows|
  {
    var p := Pick(rows);
    if p != row {
      OwedLess(jobs, rows - {p}, row);
      assert rows - {p} - {row} == rows - {row} - {p};
      OwedLess(jobs, rows - {row}, p);
    }
  }

  /** What the decode set still has to produce, summed up request by request, is what its rows owe. */
  lemma {:induction false} RemainingIsOwed(rs: seq<Req>, jobs: Jobs, rows: set<int>, eos: int)
    requires Lists(ReqRows(rs), rows) && rows <= jobs.Keys
    requires forall r {:trigger ReqIs(r, jobs, eos)} :: r in rs ==> ReqIs(r, jobs, eos)
    ensures Remaining(rs) == Owed(jobs, rows) && |rs| == |rows|
  {
    ListsSize(ReqRows(rs), rows);
    if rs != [] {
      var n := |rs| - 1;
      var row := rs[n].tableIdx;
      assert ReqRows(rs)[n] == row && row in ReqRows(rs) && ReqIs(rs[n], jobs, eos);
      assert ReqRows(rs[..n]) == ReqRows(rs)[..n] == Without(ReqRows(rs), n);
      ListsLess(ReqRows(rs), rows, n);
      forall r | r in rs[..n] ensures ReqIs(r, jobs, eos) {
        assert r in rs;
      }
      RemainingIsOwed(rs[..n], jobs, rows - {row}, eos);
      OwedLess(jobs, rows, row);
    } else {
      assert rows == {};
    }
  }

  /** The room that the decoding requests are counted with: what they owe, and the slack of their pages. */
  ghost function Inflight(jobs: Jobs, pageSize: nat): int {
    Owed(jobs, DecodingRows(jobs)) + (pageSize - 1) * |DecodingRows(jobs)|
  }

  lemma InflightIs(rs: seq<Req>, jobs: Jobs, eos: int, pageSize: nat)
    requires RunningOk(rs, jobs, eos)
    ensures Remaining(rs) + (pageSize - 1) * |rs| == Inflight(jobs, pageSize)
    ensures rs == [] ==> Inflight(jobs, pageSize) == 0
  {
    RemainingIsOwed(rs, jobs, DecodingRows(jobs), eos);
  }

  class DecodeManager {
    const pageSize: nat
    var runningReqs: seq<Req>

    constructor (pageSize: nat)
      ensures this.pageSize == pageSize && runningReqs == []
    {
      this.pageSize, runningReqs := pageSize, [];
    }

    /** Merge a batch that has just run into the decode set, then keep what can still decode. */
    method FilterReqs(reqs: seq<Req>)
      modifies this`runningReqs
      ensures runningReqs == Decodable(Merged(old(runningReqs), reqs))
    {
      var merged := runningReqs;
      for i := 0 to |reqs|
        invariant merged == Merged(runningReqs, reqs[..i])
      {
        assert reqs[..i + 1][..i] == reqs[..i];
        if reqs[i] !in merged {
          merged := merged + [reqs[i]];
        }
      }
      assert reqs[..|reqs|] == reqs;
      var kept := [];
      for i := 0 to |merged|
        invariant kept == Decodable(merged[..i])
      {
        assert merged[..i + 1][..i] == merged[..i];
        if merged[i].CanDecode() {
          kept := kept + [merged[i]];
        }
      }
      assert merged[..|merged|] == merged;
      runningReqs := kept;
    }

    /** Drop the first request with this uid. */
    method AbortReq(uid: int) returns (req: Req?, ghost at: nat)
      modifies this`runningReqs
      ensures req == null <==> forall r :: r in old(runningReqs) ==> r.uid != uid
      ensures req == null ==> runningReqs == old(runningReqs)
      ensures req != null ==> at < |old(runningReqs)| && old(runningReqs)[at] == req && req.uid == uid
                              && (forall k :: 0 <= k < at ==> old(runningReqs)[k].uid != uid)
                              && runningReqs == Without(old(runningReqs), at)
    {
      req, at := null, 0;
      for i := 0 to |runningReqs|
        invariant forall k :: 0 <= k < i ==> runningReqs[k].uid != uid
        invariant runningReqs == old(runningReqs) && req == null
      {
        if runningReqs[i].uid == uid {
          req, at := runningReqs[i], i;
          runningReqs := runningReqs[..i] + runningReqs[i + 1..];
          return;
        }
      }
    }

    /** Tokens the decode set may still need, with the slack its pages need. */
    method InflightTokens() returns (n: int)
      ensures n == Remaining(runningReqs) + (pageSize - 1) * |runningReqs|
    {
      n := 0;
      for i := 0 to |runningReqs|
        invariant n == Remaining(runningReqs[..i])
      {
        assert runningReqs[..i + 1][..i] == runningReqs[..i];
        n := n + runningReqs[i].RemainLen();
      }
      assert runningReqs[..|runningReqs|] == runningReqs;
      n := n + (pageSize - 1) * |runningReqs|;
    }

    /** The whole decode set in uid order. */
    method ScheduleNextBatch() returns (batch: Option<Batch>)
      ensures batch == None <==> runningReqs == []
      ensures batch.Some? ==>
                && !batch.value.prefill && batch.value.reqs != []
                && UidOrdered(batch.value.reqs) && multiset(batch.value.reqs) == multiset(runningReqs)
                && batch.value.reqs == SortByUid(runningReqs)
    {
      SortKeeps(runningReqs);
      SortOrders(runningReqs);
      assert |SortByUid(runningReqs)| == |multiset(runningReqs)|;
      batch := if runningReqs == [] then None else Some(Batch(SortByUid(runningReqs), false));
    }
  }
}
