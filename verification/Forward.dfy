/** What a step gives the model to compute: for every request of the batch the tokens of its history that
    follow those computed so far, each at its position. */
module Forward {
  import opened Requests
  import opened Prefill
  import opened Decode
  import opened PrefillQueue
  import opened Shares
  import opened Scheduling
  import opened Stepping

  datatype Inputs = Inputs(ids: seq<int>, positions: seq<int>, outLocs: seq<int>, extendLens: seq<int>)

  function History(j: Job): seq<int> {
    j.prompt + j.out
  }

  /** How much of its history a request found cached or was given to the model. */
  ghost function Fed(j: Job): nat {
    if j.out == [] then Done(j) else |j.prompt| + |j.out| - 1
  }

  /** The same once the model has run for `j`, before its token is noted. */
  ghost function Ahead(j: Job): nat {
    if j.out == [] then Done(j) else |j.prompt| + |j.out|
  }

  /** The part of the history of `row` between two numbers of tokens. */
  ghost predicate Between(row: int, from: map<int, nat>, to: map<int, nat>, jobs: Jobs) {
    row in jobs && row in from && row in to && from[row] < to[row] <= |History(jobs[row])|
  }

  ghost function FedNow(jobs: Jobs): map<int, nat> {
    map row | row in jobs :: Fed(jobs[row])
  }

  ghost function FedNext(jobs: Jobs): map<int, nat> {
    map row | row in jobs :: Ahead(jobs[row])
  }

  /** The positions from `lo` on and below `hi`. */
  function Span(lo: nat, hi: nat): seq<int>
    requires lo <= hi
  {
    seq(hi - lo, i => lo + i)
  }

  /** For each request in order, the tokens of its history from `from` to `to`, and their positions. */
  ghost function Stretches(reqs: seq<Req>, from: map<int, nat>, to: map<int, nat>, jobs: Jobs): (x: Inputs)
    requires forall r :: r in reqs ==> Between(r.tableIdx, from, to, jobs)
    ensures |x.ids| == |x.positions| && |x.extendLens| == |reqs|
  {
    if reqs == [] then Inputs([], [], [], []) else
      var n := |reqs| - 1;
      var r := reqs[n];
      assert r in reqs && Between(r.tableIdx, from, to, jobs);
      var x := Stretches(reqs[..n], from, to, jobs);
      var row := r.tableIdx;
      var at := Span(from[row], to[row]);
      Inputs(x.ids + History(jobs[row])[from[row]..to[row]], x.positions + at, x.outLocs + at, x.extendLens + [|at|])
  }

  /** The inputs of all requests together are as many as their lengths add up to. */
  lemma {:induction false} StretchesSize(reqs: seq<Req>, from: map<int, nat>, to: map<int, nat>, jobs: Jobs)
    requires forall r :: r in reqs ==> Between(r.tableIdx, from, to, jobs)
    ensures var x := Stretches(reqs, from, to, jobs);
            |x.ids| == |x.positions| == |x.outLocs| == Total(x.extendLens) && |x.extendLens| == |reqs|
  {
    if reqs != [] {
      var n := |reqs| - 1;
      var r := reqs[n];
      assert r in reqs && Between(r.tableIdx, from, to, jobs);
      StretchesSize(reqs[..n], from, to, jobs);
      var x, y := Stretches(reqs, from, to, jobs), Stretches(reqs[..n], from, to, jobs);
      assert x.extendLens[..n] == y.extendLens;
    }
  }

  lemma StretchesMore(reqs: seq<Req>, from: map<int, nat>, to: map<int, nat>, jobs: Jobs)
    requires reqs != [] && forall r :: r in reqs ==> Between(r.tableIdx, from, to, jobs)
    ensures var n, x := |reqs| - 1, Stretches(reqs, from, to, jobs);
            var y, row := Stretches(reqs[..n], from, to, jobs), reqs[n].tableIdx;
            && Between(row, from, to, jobs) && x.ids == y.ids + History(jobs[row])[from[row]..to[row]]
            && x.positions == y.positions + Span(from[row], to[row])
            && x.outLocs == y.outLocs + Span(from[row], to[row]) && x.extendLens == y.extendLens + [to[row] - from[row]]
  {
    assert reqs[|reqs| - 1] in reqs && Between(reqs[|reqs| - 1].tableIdx, from, to, jobs);
  }

  /** An input, given those of the requests before its own: `at` of them, and `len` after. */
  ghost predicate InputIs(x: Inputs, i: nat, t: nat, h: seq<int>, lo: nat) {
    && i <= |x.extendLens| && lo + t < |h|
    && var at := Total(x.extendLens[..i]) + t;
       && 0 <= at < |x.ids| == |x.positions| == |x.outLocs|
       && x.ids[at] == h[lo + t] && x.positions[at] == x.outLocs[at] == lo + t
  }

  lemma InputStays(y: Inputs, x: Inputs, i: nat, t: nat, h: seq<int>, lo: nat, ids: seq<int>, span: seq<int>, len: int)
    requires InputIs(y, i, t, h, lo) && |ids| == |span|
    requires x == Inputs(y.ids + ids, y.positions + span, y.outLocs + span, y.extendLens + [len])
    ensures InputIs(x, i, t, h, lo)
  {
    assert x.extendLens[..i] == y.extendLens[..i];
  }

  lemma InputNew(y: Inputs, x: Inputs, t: nat, h: seq<int>, lo: nat, hi: nat)
    requires lo + t < hi <= |h| && |y.ids| == |y.positions| == |y.outLocs| == Total(y.extendLens)
    requires x == Inputs(y.ids + h[lo..hi], y.positions + Span(lo, hi), y.outLocs + Span(lo, hi),
                         y.extendLens + [hi - lo])
    ensures InputIs(x, |y.extendLens|, t, h, lo)
  {
    assert x.extendLens[..|y.extendLens|] == y.extendLens;
    var at := |y.ids| + t;
    assert x.ids[at] == h[lo..hi][t] && x.positions[at] == Span(lo, hi)[t] == x.outLocs[at];
  }

  /** The inputs one by one: after those of the requests before it, the request `i` has the tokens of its
      history from `from` on, each with its position. */
  lemma {:induction false} StretchAt(reqs: seq<Req>, from: map<int, nat>, to: map<int, nat>, jobs: Jobs, i: nat, t: nat)
    requires forall r :: r in reqs ==> Between(r.tableIdx, from, to, jobs)
    requires i < |reqs| && Between(reqs[i].tableIdx, from, to, jobs)
    requires t < to[reqs[i].tableIdx] - from[reqs[i].tableIdx]
    ensures var x, row := Stretches(reqs, from, to, jobs), reqs[i].tableIdx;
            && |x.extendLens| == |reqs| && x.extendLens[i] == to[row] - from[row]
            && InputIs(x, i, t, History(jobs[row]), from[row])
  {
    StretchLens(reqs, from, to, jobs, i);
    StretchInput(reqs, from, to, jobs, i, t);
  }

  lemma {:induction false} StretchInput(reqs: seq<Req>, from: map<int, nat>, to: map<int, nat>, jobs: Jobs, i: nat,
                                        t: nat)
    requires forall r :: r in reqs ==> Between(r.tableIdx, from, to, jobs)
    requires i < |reqs| && Between(reqs[i].tableIdx, from, to, jobs)
    requires t < to[reqs[i].tableIdx] - from[reqs[i].tableIdx]
    ensures InputIs(Stretches(reqs, from, to, jobs), i, t, History(jobs[reqs[i].tableIdx]), from[reqs[i].tableIdx])
  {
    hide *;
    var n, row := |reqs| - 1, reqs[i].tableIdx;
    BetweenIs(row, from, to, jobs);
    StretchesMore(reqs, from, to, jobs);
    StretchesSize(reqs[..n], from, to, jobs);
    var x, y := Stretches(reqs, from, to, jobs), Stretches(reqs[..n], from, to, jobs);
    var last := reqs[n].tableIdx;
    BetweenIs(last, from, to, jobs);
    if i < n {
      StretchInput(reqs[..n], from, to, jobs, i, t);
      InputStays(y, x, i, t, History(jobs[row]), from[row], History(jobs[last])[from[last]..to[last]],
                 Span(from[last], to[last]), to[last] - from[last]);
    } else {
      InputNew(y, x, t, History(jobs[row]), from[row], to[row]);
    }
  }

  lemma BetweenIs(row: int, from: map<int, nat>, to: map<int, nat>, jobs: Jobs)
    requires Between(row, from, to, jobs)
    ensures row in jobs && row in from && row in to && from[row] < to[row] <= |History(jobs[row])|
    ensures |Span(from[row], to[row])| == to[row] - from[row]
  {}

  lemma {:induction false} StretchLens(reqs: seq<Req>, from: map<int, nat>, to: map<int, nat>, jobs: Jobs, i: nat)
    requires forall r :: r in reqs ==> Between(r.tableIdx, from, to, jobs)
    requires i < |reqs| && Between(reqs[i].tableIdx, from, to, jobs)
    ensures var x, row := Stretches(reqs, from, to, jobs), reqs[i].tableIdx;
            |x.extendLens| == |reqs| && x.extendLens[i] == to[row] - from[row]
  {
    StretchesMore(reqs, from, to, jobs);
    if i < |reqs| - 1 {
      StretchLens(reqs[..|reqs| - 1], from, to, jobs, i);
    }
  }

  /** A request of a batch as it is when its inputs are collected: a part of its prompt, or its newest token. */
  ghost predicate Feedable(r: Req, prefill: bool, from: map<int, nat>, to: map<int, nat>, jobs: Jobs)
    reads r
  {
    && Between(r.tableIdx, from, to, jobs)
    && var lo, hi, h := from[r.tableIdx], to[r.tableIdx], History(jobs[r.tableIdx]);
       if prefill then r.cachedLen == lo && r.deviceLen == hi <= |r.inputIds| && r.inputIds[..hi] == h[..hi]
       else r.deviceLen == hi == lo + 1 && r.inputIds != [] && r.inputIds[|r.inputIds| - 1] == h[lo]
  }

  lemma FeedableFacts(r: Req, prefill: bool, from: map<int, nat>, to: map<int, nat>, jobs: Jobs)
    requires Feedable(r, prefill, from, to, jobs)
    ensures Between(r.tableIdx, from, to, jobs)
    ensures var lo, hi, h := from[r.tableIdx], to[r.tableIdx], History(jobs[r.tableIdx]);
            if prefill then r.cachedLen == lo && r.deviceLen == hi <= |r.inputIds| && r.inputIds[..hi] == h[..hi]
            else r.deviceLen == hi == lo + 1 && r.inputIds != [] && r.inputIds[|r.inputIds| - 1] == h[lo]
  {}

  /** The slice of one prompt, token by token. */
  method FeedPrompt(r: Req, x: Inputs, ghost h: seq<int>, ghost lo: nat, ghost hi: nat) returns (x': Inputs)
    requires r.cachedLen == lo < hi == r.deviceLen <= |r.inputIds| && hi <= |h| && r.inputIds[..hi] == h[..hi]
    ensures x' == Inputs(x.ids + h[lo..hi], x.positions + Span(lo, hi), x.outLocs + Span(lo, hi),
                         x.extendLens + [hi - lo])
  {
    var ext, start, ids, t := r.ExtendLen(), r.cachedLen, r.inputIds, 0;
    x' := x;
    while t < ext
      invariant 0 <= t <= ext
      invariant x' == Inputs(x.ids + h[lo..lo + t], x.positions + Span(lo, lo + t), x.outLocs + Span(lo, lo + t),
                             x.extendLens)
    {
      var pos := start + t;
      assert ids[pos] == ids[..hi][pos] && h[lo..lo + t + 1] == h[lo..lo + t] + [h[pos]];
      assert Span(lo, lo + t + 1) == Span(lo, lo + t) + [pos];
      x' := Inputs(x'.ids + [ids[pos]], x'.positions + [pos], x'.outLocs + [pos], x'.extendLens);
      t := t + 1;
    }
    x' := x'.(extendLens := x'.extendLens + [ext]);
  }

  /** What one request adds to the inputs. */
  method FeedRequest(r: Req, prefill: bool, x: Inputs, ghost from: map<int, nat>, ghost to: map<int, nat>,
                     ghost jobs: Jobs)
    returns (x': Inputs)
    requires Feedable(r, prefill, from, to, jobs)
    ensures var row := r.tableIdx;
            && Between(row, from, to, jobs)
            && x' == Inputs(x.ids + History(jobs[row])[from[row]..to[row]], x.positions + Span(from[row], to[row]),
                            x.outLocs + Span(from[row], to[row]), x.extendLens + [to[row] - from[row]])
  {
    ghost var row := r.tableIdx;
    ghost var lo, hi, h := from[row], to[row], History(jobs[row]);
    if prefill {
      x' := FeedPrompt(r, x, h, lo, hi);
    } else {
      var pos, last := r.deviceLen - 1, r.inputIds[|r.inputIds| - 1];
      assert h[lo..hi] == [last] && Span(lo, hi) == [pos];
      x' := Inputs(x.ids + [last], x.positions + [pos], x.outLocs + [pos], x.extendLens + [1]);
    }
  }

  lemma StretchesNone(from: map<int, nat>, to: map<int, nat>, jobs: Jobs)
    ensures Stretches([], from, to, jobs) == Inputs([], [], [], [])
  {}

  /** The inputs of one forward pass. */
  method ForwardInputs(batch: Batch, ghost from: map<int, nat>, ghost to: map<int, nat>, ghost jobs: Jobs)
    returns (x: Inputs)
    requires forall r :: r in batch.reqs ==> Feedable(r, batch.prefill, from, to, jobs)
    ensures forall r :: r in batch.reqs ==> Between(r.tableIdx, from, to, jobs)
    ensures x == Stretches(batch.reqs, from, to, jobs)
  {
    hide *;
    ghost var reqs := batch.reqs;
    forall r | r in reqs ensures Between(r.tableIdx, from, to, jobs) {
      FeedableFacts(r, batch.prefill, from, to, jobs);
    }
    x := Inputs([], [], [], []);
    StretchesNone(from, to, jobs);
    for i := 0 to |batch.reqs|
      invariant x == Stretches(reqs[..i], from, to, jobs)
    {
      assert reqs[..i + 1][..i] == reqs[..i];
      StretchesMore(reqs[..i + 1], from, to, jobs);
      x := FeedRequest(batch.reqs[i], batch.prefill, x, from, to, jobs);
    }
    assert reqs[..|reqs|] == reqs;
  }

  // ---------------------------------------------------------------- what a step feeds

  lemma GrantedFeeds(r: Req, jobs: Jobs, mid: Jobs, ext: int)
    requires GrantOk(r, jobs, mid, ext) && JobOk(jobs[r.tableIdx], ext)
    ensures Feedable(r, true, FedNow(jobs), FedNext(mid), mid)
  {}

  lemma DecodingFeeds(r: Req, jobs: Jobs, eos: int)
    requires ReqIs(r, jobs, eos) && Decoding(jobs[r.tableIdx])
    ensures Feedable(r, false, FedNow(jobs), FedNext(jobs), jobs)
  {
    DecodeFeeds(r, jobs, eos);
    var j := jobs[r.tableIdx];
    assert History(j)[|j.prompt| + |j.out| - 1] == j.out[|j.out| - 1];
  }

  /** One step of one request: a part of its prompt or one more token, and a token if the prompt is complete. */
  lemma StepOf(batch: Batch, sample: nat -> int, jobs: Jobs, mid: Jobs, noted: Jobs, ext: int, i: nat)
    requires StepRel(batch, sample, jobs, mid, noted, ext) && i < |batch.reqs|
    ensures var row := batch.reqs[i].tableIdx;
            && row in jobs && row in mid && row in noted
            && (if batch.prefill then RowGranted(batch.reqs[i], jobs, mid, ext)
                else mid[row] == jobs[row] && Decoding(jobs[row]) && !batch.reqs[i].chunked)
            && noted[row] == if batch.reqs[i].chunked then mid[row] else Emit(mid[row], sample(i))
  {
    var r := batch.reqs[i];
    assert r in batch.reqs;
    if batch.prefill {
      assert RowGranted(r, jobs, mid, ext);
    } else {
      assert r.tableIdx in DecodingRows(jobs);
    }
    if r.chunked {
      forall k | 0 <= k < |batch.reqs| && !batch.reqs[k].chunked ensures batch.reqs[k].tableIdx != r.tableIdx {
        assert ReqRows(batch.reqs)[k] != ReqRows(batch.reqs)[i];
      }
    }
  }

  /** What the model was given is what the request is ahead by. */
  lemma FedAhead(j: Job, m: Job, n: Job, chunked: bool, tok: int)
    requires n == if chunked then m else Emit(m, tok)
    requires || (Queued(j) && j.out == [] && Done(j) < Done(m) <= |j.prompt| && m == Advance(j, Done(m))
                 && chunked == (Done(m) < |j.prompt|))
             || (m == j && Decoding(j) && !chunked)
    ensures Fed(j) < Fed(n) == Ahead(m) <= |History(m)| <= |History(n)| && History(n)[..Fed(n)] == History(m)[..Fed(n)]
  {}

  /** Over a whole step. */
  lemma FedAfter(batch: Batch, sample: nat -> int, jobs: Jobs, mid: Jobs, noted: Jobs, ext: int, eos: int, r: Req)
    requires StepRel(batch, sample, jobs, mid, noted, ext) && JobsFine(jobs, ext, eos) && r in batch.reqs
    ensures r.tableIdx in jobs && r.tableIdx in mid && r.tableIdx in noted
    ensures var j, m, n := jobs[r.tableIdx], mid[r.tableIdx], noted[r.tableIdx];
            && Fed(j) < Fed(n) == Ahead(m) <= |History(m)| <= |History(n)|
            && History(n)[..Fed(n)] == History(m)[..Fed(n)]
  {
    hide StepRel;
    var i :| 0 <= i < |batch.reqs| && batch.reqs[i] == r;
    StepOf(batch, sample, jobs, mid, noted, ext, i);
    var j := jobs[r.tableIdx];
    assert Fine(j, ext, eos);
    FedAhead(j, mid[r.tableIdx], noted[r.tableIdx], r.chunked, sample(i));
  }

  lemma {:induction false} SameStretches(reqs: seq<Req>, from: map<int, nat>, to: map<int, nat>, to': map<int, nat>,
                                         jobs: Jobs, jobs': Jobs)
    requires forall r :: r in reqs ==> Between(r.tableIdx, from, to, jobs) && Between(r.tableIdx, from, to', jobs')
    requires forall r :: r in reqs ==> SameStretch(r.tableIdx, to, to', jobs, jobs')
    ensures Stretches(reqs, from, to, jobs) == Stretches(reqs, from, to', jobs')
  {
    if reqs != [] {
      var n := |reqs| - 1;
      var r := reqs[n];
      assert r in reqs && Between(r.tableIdx, from, to, jobs) && SameStretch(r.tableIdx, to, to', jobs, jobs');
      var row := r.tableIdx;
      SameStretches(reqs[..n], from, to, to', jobs, jobs');
      assert History(jobs[row])[from[row]..to[row]] == History(jobs[row])[..to[row]][from[row]..];
      assert History(jobs'[row])[from[row]..to[row]] == History(jobs'[row])[..to[row]][from[row]..];
    }
  }

  ghost predicate SameStretch(row: int, to: map<int, nat>, to': map<int, nat>, jobs: Jobs, jobs': Jobs) {
    && row in to && row in to' && to[row] == to'[row] && row in jobs && row in jobs'
    && to[row] <= |History(jobs[row])| && to[row] <= |History(jobs'[row])|
    && History(jobs[row])[..to[row]] == History(jobs'[row])[..to[row]]
  }

  /** Every history continues. */
  ghost predicate GoesOn(jobs: Jobs, noted: Jobs) {
    noted.Keys == jobs.Keys && forall row {:trigger noted[row]} :: row in jobs ==>
      SameRequest(jobs[row], noted[row]) && jobs[row].out <= noted[row].out
  }

  /** `x` is what the model is given in a step that takes the requests from `jobs` to `noted`: for every
      request of the batch the tokens of its history that come next, and nothing for the others. */
  ghost predicate FedExactly(x: Inputs, reqs: seq<Req>, jobs: Jobs, noted: Jobs) {
    && (forall r :: r in reqs ==> Between(r.tableIdx, FedNow(jobs), FedNow(noted), noted))
    && x == Stretches(reqs, FedNow(jobs), FedNow(noted), noted)
    && (forall row {:trigger noted[row]} :: row in jobs && row !in ReqRows(reqs) ==>
          row in noted && Fed(noted[row]) == Fed(jobs[row]))
    && GoesOn(jobs, noted)
  }

  /** The batch is ready for the forward pass. */
  lemma BatchFeeds(batch: Batch, running: seq<Req>, jobs: Jobs, mid: Jobs, ext: int, eos: int)
    requires RunningOk(running, jobs, eos) && JobsFine(jobs, ext, eos)
    requires if batch.prefill then Granted(batch.reqs, jobs, mid, ext)
             else mid == jobs && batch.reqs == SortByUid(running)
    ensures forall r :: r in batch.reqs ==> Feedable(r, batch.prefill, FedNow(jobs), FedNext(mid), mid)
  {
    forall r | r in batch.reqs ensures Feedable(r, batch.prefill, FedNow(jobs), FedNext(mid), mid) {
      if batch.prefill {
        assert GrantOk(r, jobs, mid, ext);
        assert Fine(jobs[r.tableIdx], ext, eos);
        GrantedFeeds(r, jobs, mid, ext);
      } else {
        SortKeeps(running);
        assert r in multiset(batch.reqs);
        assert r in running && ReqIs(r, jobs, eos);
        var k :| 0 <= k < |running| && running[k] == r;
        assert ReqRows(running)[k] in DecodingRows(jobs);
        DecodingFeeds(r, jobs, eos);
      }
    }
  }

  /** The inputs of a step continue every history where the steps before it stopped. */
  lemma StepFeeds(x: Inputs, batch: Batch, sample: nat -> int, jobs: Jobs, mid: Jobs, noted: Jobs, ext: int, eos: int)
    requires StepRel(batch, sample, jobs, mid, noted, ext) && JobsFine(jobs, ext, eos)
    requires forall r :: r in batch.reqs ==> Between(r.tableIdx, FedNow(jobs), FedNext(mid), mid)
    requires x == Stretches(batch.reqs, FedNow(jobs), FedNext(mid), mid)
    ensures FedExactly(x, batch.reqs, jobs, noted)
  {
    forall r | r in batch.reqs
      ensures Between(r.tableIdx, FedNow(jobs), FedNow(noted), noted)
      ensures SameStretch(r.tableIdx, FedNext(mid), FedNow(noted), mid, noted)
    {
      FedAfter(batch, sample, jobs, mid, noted, ext, eos, r);
    }
    SameStretches(batch.reqs, FedNow(jobs), FedNext(mid), FedNow(noted), mid, noted);
    StepGoesOn(batch, sample, jobs, mid, noted, ext);
    forall row | row in jobs && row !in ReqRows(batch.reqs) ensures row in noted && noted[row] == jobs[row] {
      StillRow(batch, sample, jobs, mid, noted, ext, row);
    }
  }

  lemma StepGoesOn(batch: Batch, sample: nat -> int, jobs: Jobs, mid: Jobs, noted: Jobs, ext: int)
    requires StepRel(batch, sample, jobs, mid, noted, ext)
    ensures GoesOn(jobs, noted)
  {
    assert noted.Keys == jobs.Keys;
    hide StepRel;
    var rows := ReqRows(batch.reqs);
    forall row | row in jobs
      ensures row in noted && SameRequest(jobs[row], noted[row]) && jobs[row].out <= noted[row].out
    {
      if row !in rows {
        StillRow(batch, sample, jobs, mid, noted, ext, row);
      } else {
        var i :| 0 <= i < |rows| && rows[i] == row;
        StepOf(batch, sample, jobs, mid, noted, ext, i);
      }
    }
  }

  lemma StillRow(batch: Batch, sample: nat -> int, jobs: Jobs, mid: Jobs, noted: Jobs, ext: int, row: int)
    requires StepRel(batch, sample, jobs, mid, noted, ext) && row in jobs && row !in ReqRows(batch.reqs)
    ensures row in noted && noted[row] == jobs[row]
  {
    forall i | 0 <= i < |batch.reqs| ensures batch.reqs[i].tableIdx != row {
      assert ReqRows(batch.reqs)[i] == batch.reqs[i].tableIdx;
    }
    assert mid[row] == jobs[row];
  }

  /** A request that is over has given all of its history to the model but the last token. */
  lemma LastNotFed(jobs: Jobs, ext: int, eos: int, row: int)
    requires JobsFine(jobs, ext, eos) && row in OverRows(jobs, eos)
    ensures row in jobs && Fed(jobs[row]) == |History(jobs[row])| - 1
  {
    assert Fine(jobs[row], ext, eos);
  }
}
