/** Requests as the engine and the scheduler pass them around, and the life of one request as a
    value: its prompt, the slices of the prompt that were scheduled, the tokens it has produced. */
module Requests {
  import opened Arith
  import opened RadixCache

  /** A request in one step. `chunked` marks the part of a prompt that is not its end. */
  class Req {
    const tableIdx: int
    const outputLen: int
    const uid: int
    const ignoreEos: bool
    const cacheHandle: RadixCacheHandle
    const chunked: bool
    const maxDeviceLen: int
    var inputIds: seq<int>
    var cachedLen: int
    var deviceLen: int
    var aborted: bool

    constructor (inputIds: seq<int>, tableIdx: int, cachedLen: int, outputLen: int, uid: int, ignoreEos: bool,
                 cacheHandle: RadixCacheHandle, chunked: bool)
      ensures this.inputIds == inputIds && this.tableIdx == tableIdx && this.cachedLen == cachedLen
      ensures this.outputLen == outputLen && this.uid == uid && this.ignoreEos == ignoreEos
      ensures this.cacheHandle == cacheHandle && this.chunked == chunked && !aborted
      ensures deviceLen == |inputIds| && maxDeviceLen == |inputIds| + Max(0, outputLen)
    {
      this.inputIds, this.tableIdx, this.cachedLen := inputIds, tableIdx, cachedLen;
      this.outputLen, this.uid, this.ignoreEos := outputLen, uid, ignoreEos;
      this.cacheHandle, this.chunked, aborted := cacheHandle, chunked, false;
      deviceLen, maxDeviceLen := |inputIds|, |inputIds| + Max(0, outputLen);
    }

    function RemainLen(): int
      reads this`deviceLen
    {
      maxDeviceLen - deviceLen
    }

    function ExtendLen(): int
      reads this`deviceLen, this`cachedLen
    {
      deviceLen - cachedLen
    }

    predicate CanDecode()
      reads this`deviceLen, this`aborted
    {
      !chunked && RemainLen() > 0 && !aborted
    }
  }

  /** A queued prompt. Once part of it has been scheduled, `chunkedReq` says how far. */
  class PendingReq {
    const uid: int
    const inputIds: seq<int>
    const outputLen: int
    const ignoreEos: bool
    const cachedLen: nat
    const cacheHandle: RadixCacheHandle
    var tableIdx: int
    var chunkedReq: Req?

    constructor (uid: int, inputIds: seq<int>, outputLen: int, ignoreEos: bool, cachedLen: nat,
                 cacheHandle: RadixCacheHandle)
      ensures this.uid == uid && this.inputIds == inputIds && this.outputLen == outputLen && this.ignoreEos == ignoreEos
      ensures this.cachedLen == cachedLen && this.cacheHandle == cacheHandle && chunkedReq == null
    {
      this.uid, this.inputIds, this.outputLen, this.ignoreEos := uid, inputIds, outputLen, ignoreEos;
      this.cachedLen, this.cacheHandle, tableIdx, chunkedReq := cachedLen, cacheHandle, 0, null;
    }
  }

  // ---------------------------------------------------------------- the life of a request

  datatype Slice = Slice(start: nat, end: nat)

  /** One request: `cached` prompt tokens were reused at admission through `handle`, `slices` of the
      rest have been scheduled, and `out` has been generated. */
  datatype Job = Job(uid: int, prompt: seq<int>, outputLen: int, ignoreEos: bool, cached: nat, handle: RadixCacheHandle,
                     slices: seq<Slice>, out: seq<int>)

  /** How far the prompt has been scheduled. */
  function Done(j: Job): nat {
    if j.slices == [] then j.cached else j.slices[|j.slices| - 1].end
  }

  /** Where the part of the prompt that was scheduled last began. */
  function LastStart(j: Job): nat {
    if j.slices == [] then j.cached else j.slices[|j.slices| - 1].start
  }

  ghost predicate Queued(j: Job) {
    Done(j) < |j.prompt|
  }

  ghost predicate InFlight(j: Job) {
    Done(j) == |j.prompt| && j.out == []
  }

  ghost predicate Decoding(j: Job) {
    Done(j) == |j.prompt| && j.out != []
  }

  /** Where the slice `i` has to start: where the one before it ended, the first at `from`. */
  function Frontier(slices: seq<Slice>, from: nat, i: nat): nat
    requires i <= |slices|
  {
    if i == 0 then from else slices[i - 1].end
  }

  /** The slice `i` starts at the frontier; it takes the whole step unless it ends the prompt. */
  ghost predicate SliceOk(slices: seq<Slice>, i: nat, from: nat, promptLen: nat, ext: int)
    requires i < |slices|
  {
    && slices[i].start == Frontier(slices, from, i) < slices[i].end
    && if slices[i].end == promptLen then slices[i].end - slices[i].start <= ext
          else slices[i].end - slices[i].start == ext
  }

  /** A request that can occur when at most `ext` prompt tokens are scheduled in a step: its slices
      tile the prompt, all but the last are full, and it has produced tokens only after its prompt. */
  ghost predicate JobOk(j: Job, ext: int) {
    && j.cached < |j.prompt| && Done(j) <= |j.prompt|
    && (forall i {:trigger SliceOk(j.slices, i, j.cached, |j.prompt|, ext)} :: 0 <= i < |j.slices| ==>
          SliceOk(j.slices, i, j.cached, |j.prompt|, ext))
    && (Queued(j) ==> j.out == [])
  }

  /** The request before its last slice was scheduled. */
  function Retract(j: Job): Job
    requires j.slices != []
  {
    j.(slices := j.slices[..|j.slices| - 1], out := [])
  }

  lemma RetractOk(j: Job, ext: int)
    requires JobOk(j, ext) && j.slices != []
    ensures var s := j.slices[|j.slices| - 1];
            && JobOk(Retract(j), ext) && Done(Retract(j)) == s.start < s.end == Done(j)
            && (if s.end == |j.prompt| then s.end - s.start <= ext else s.end - s.start == ext)
  {
    var i, n := Retract(j), |j.slices| - 1;
    assert SliceOk(j.slices, n, j.cached, |j.prompt|, ext);
    forall k | 0 <= k < |i.slices| ensures SliceOk(i.slices, k, i.cached, |i.prompt|, ext) {
      assert SliceOk(j.slices, k, j.cached, |j.prompt|, ext);
    }
  }

  function Advance(j: Job, end: nat): Job {
    j.(slices := j.slices + [Slice(Done(j), end)])
  }

  function Emit(j: Job, tok: int): Job {
    j.(out := j.out + [tok])
  }

  /** The parts of a request that never change. */
  ghost predicate SameRequest(j: Job, j': Job) {
    && j'.uid == j.uid && j'.prompt == j.prompt && j'.outputLen == j.outputLen && j'.ignoreEos == j.ignoreEos
    && j'.cached == j.cached && j'.handle == j.handle
  }

  lemma AdvanceOk(j: Job, end: nat, ext: int)
    requires JobOk(j, ext) && Queued(j) && Done(j) < end <= |j.prompt|
    requires if end == |j.prompt| then end - Done(j) <= ext else end - Done(j) == ext
    ensures JobOk(Advance(j, end), ext) && Done(Advance(j, end)) == end
  {
    var j' := Advance(j, end);
    forall i | 0 <= i < |j'.slices| ensures SliceOk(j'.slices, i, j'.cached, |j'.prompt|, ext) {
      assert i < |j.slices| ==> SliceOk(j.slices, i, j.cached, |j.prompt|, ext);
    }
  }

  /** The prompt tokens in the slices, in order. */
  function Covered(prompt: seq<int>, slices: seq<Slice>): seq<int> {
    if slices == [] then []
    else
      var s := slices[|slices| - 1];
      Covered(prompt, slices[..|slices| - 1]) + (if s.start <= s.end <= |prompt| then prompt[s.start..s.end] else [])
  }

  /** The slices cover the uncached prompt exactly, with no gap and no overlap. */
  lemma {:induction false} SlicesCover(j: Job, ext: int)
    requires JobOk(j, ext)
    ensures j.cached <= Done(j) && Covered(j.prompt, j.slices) == j.prompt[j.cached..Done(j)]
    decreases |j.slices|
  {
    if j.slices != [] {
      var s := j.slices[|j.slices| - 1];
      RetractOk(j, ext);
      SlicesCover(Retract(j), ext);
      assert j.prompt[j.cached..s.end] == j.prompt[j.cached..s.start] + j.prompt[s.start..s.end];
    }
  }

  function CeilDiv(n: nat, d: nat): nat
    requires d > 0
  {
    if n == 0 then 0 else if n <= d then 1 else 1 + CeilDiv(n - d, d)
  }

  lemma {:induction false} CeilDivLess(n: nat, m: nat, d: nat)
    requires 0 < d && n <= m
    ensures CeilDiv(n, d) <= CeilDiv(m, d)
  {
    if n > d {
      CeilDivLess(n - d, m - d, d);
    }
  }

  /** A slice of the rest takes one step off the steps the rest needs. */
  lemma CeilDivStep(n: nat, k: nat, d: nat)
    requires 0 < k <= n && 0 < d && (if k == n then k <= d else k == d)
    ensures CeilDiv(n, d) == 1 + CeilDiv(n - k, d)
  {}

  /** A prompt is in as many prefill steps as its uncached part needs, and no more. */
  lemma {:induction false} StepsJoined(j: Job, ext: int)
    requires ext > 0 && JobOk(j, ext)
    ensures j.cached <= Done(j)
    ensures |j.slices| + CeilDiv(|j.prompt| - Done(j), ext) == CeilDiv(|j.prompt| - j.cached, ext)
    decreases |j.slices|
  {
    if j.slices != [] {
      var s := j.slices[|j.slices| - 1];
      RetractOk(j, ext);
      hide JobOk;
      StepsJoined(Retract(j), ext);
      CeilDivStep(|j.prompt| - s.start, s.end - s.start, ext);
    }
  }

  // ---------------------------------------------------------------- when a request is over

  /** The last token was an end-of-sequence that counts, or the output has its full length. */
  predicate Over(j: Job, eos: int) {
    j.out != [] && ((!j.ignoreEos && j.out[|j.out| - 1] == eos) || |j.out| >= Max(0, j.outputLen))
  }

  /** The tokens a request ends with: as many as it asked for, at least one, or fewer that stop at
      the first end-of-sequence token that counts. */
  ghost predicate ExactOutput(j: Job, eos: int) {
    && 1 <= |j.out| <= Max(1, j.outputLen)
    && (forall i :: 0 <= i < |j.out| - 1 ==> j.ignoreEos || j.out[i] != eos)
    && (|j.out| == Max(1, j.outputLen) || (!j.ignoreEos && j.out[|j.out| - 1] == eos))
  }

  /** Output so far of a request that is not over. */
  ghost predicate Ongoing(j: Job, eos: int) {
    && (j.out == [] || |j.out| < j.outputLen)
    && (forall i :: 0 <= i < |j.out| ==> j.ignoreEos || j.out[i] != eos)
  }

  lemma EmitOngoing(j: Job, tok: int, eos: int)
    requires Ongoing(j, eos)
    ensures if Over(Emit(j, tok), eos) then ExactOutput(Emit(j, tok), eos) else Ongoing(Emit(j, tok), eos)
  {}
}
