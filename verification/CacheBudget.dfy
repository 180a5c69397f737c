/** Splitting the VRAM between the expert cache and the KV pool. Ratios are reals: the rounding of
    floating point is not part of the model. */
module CacheBudget {
  import opened Arith
  import opened Finite

  datatype KvShape = KvShape(numLayers: int, numKvHeads: int, headDim: int, dtypeBytes: int)
  datatype MoeShape = MoeShape(intermediate: int, hidden: int, dtypeBytes: int)

  datatype Budget = Budget(budgetBytes: int, moeCacheBytes: int, kvBytes: int, moeCacheSize: int, kvNumPages: int,
                           kvIsFloored: bool)

  datatype PlanArgs = PlanArgs(totalVram: int, memoryRatio: real, kvReserveTokens: int, numExperts: int,
                               numMoeLayers: int, moe: MoeShape, kv: KvShape, minMoeCacheSize: Option<int>,
                               moeFraction: Option<real>, bytesPerSlotOverride: Option<int>)

  function BytesPerKvToken(kv: KvShape): (bytes: Option<int>)
    ensures bytes.Some? ==> bytes.value > 0
  {
    if kv.numLayers <= 0 || kv.numKvHeads <= 0 || kv.headDim <= 0 || kv.dtypeBytes <= 0 then None
    else
      TimesPositive(kv.numLayers, kv.numKvHeads);
      TimesPositive(kv.numLayers * kv.numKvHeads, kv.headDim);
      TimesPositive(kv.numLayers * kv.numKvHeads * kv.headDim, kv.dtypeBytes);
      Some(2 * (kv.numLayers * kv.numKvHeads * kv.headDim * kv.dtypeBytes))
  }

  function BytesPerExpertSlot(moe: MoeShape): (bytes: Option<int>)
    ensures bytes.Some? ==> bytes.value > 0
  {
    if moe.intermediate <= 0 || moe.hidden <= 0 || moe.dtypeBytes <= 0 then None
    else
      var down := moe.hidden * moe.intermediate;
      TimesPositive(moe.hidden, moe.intermediate);
      var both := 2 * down + down;
      TimesPositive(both, moe.dtypeBytes);
      Some(both * moe.dtypeBytes)
  }

  function BytesPerSlot(moe: MoeShape, override: Option<int>): (bytes: Option<int>)
    ensures bytes.Some? ==> bytes.value > 0
  {
    if override == None then BytesPerExpertSlot(moe)
    else if override.value <= 0 then None
    else override
  }

  lemma TimesPositive(a: int, b: int)
    requires a > 0 && b > 0
    ensures a * b > 0
  {}

  // ---------------------------------------------------------------- the automatic split

  ghost predicate ArgsOk(a: PlanArgs) {
    && 0.0 < a.memoryRatio <= 1.0 && a.totalVram > 0 && a.kvReserveTokens > 0 && a.numExperts > 0 && a.numMoeLayers > 0
    && (a.moeFraction.Some? ==> 0.0 < a.moeFraction.value <= 1.0)
    && BytesPerSlot(a.moe, a.bytesPerSlotOverride).Some? && BytesPerKvToken(a.kv).Some?
  }

  /** Conversion to an integer drops the fraction. */
  function Truncated(x: real): int {
    if x >= 0.0 then x.Floor else -((-x).Floor)
  }

  function Addressable(totalVram: int, memoryRatio: real): int {
    Truncated(totalVram as real * memoryRatio)
  }

  function MinSlots(a: PlanArgs): int {
    if a.minMoeCacheSize.Some? then a.minMoeCacheSize.value else a.numExperts
  }

  /** The bytes the expert cache may use: what the KV floor leaves, capped by the operator's fraction. */
  function MoeAvailable(a: PlanArgs, budget: int, bytesPerToken: int): int {
    var left := budget - a.kvReserveTokens * bytesPerToken;
    if a.moeFraction.Some? then Min(left, Truncated(budget as real * a.moeFraction.value)) else left
  }

  /** The KV floor first, then the expert cache, then what is left over to the KV pool. */
  function PlanCacheBudget(a: PlanArgs): Option<Budget> {
    if a.memoryRatio <= 0.0 || a.memoryRatio > 1.0 || a.totalVram <= 0 || a.kvReserveTokens <= 0 then None
    else if a.numExperts <= 0 || a.numMoeLayers <= 0 then None
    else if a.moeFraction.Some? && (a.moeFraction.value <= 0.0 || a.moeFraction.value > 1.0) then None
    else
      var budget := Addressable(a.totalVram, a.memoryRatio);
      var bytesPerSlot := BytesPerSlot(a.moe, a.bytesPerSlotOverride);
      var bytesPerToken := BytesPerKvToken(a.kv);
      if bytesPerSlot == None || bytesPerToken == None then None
      else if budget < a.kvReserveTokens * bytesPerToken.value + MinSlots(a) * bytesPerSlot.value then None
      else
        var slots := Max(MinSlots(a), MoeAvailable(a, budget, bytesPerToken.value) / bytesPerSlot.value);
        var kvBytes := budget - slots * bytesPerSlot.value;
        var pages := Max(a.kvReserveTokens, kvBytes / bytesPerToken.value);
        Some(Budget(budget, slots * bytesPerSlot.value, kvBytes, slots, pages, pages == a.kvReserveTokens))
  }

  lemma DivAtLeast(x: int, d: int, n: int)
    requires d > 0 && x >= n * d
    ensures x / d >= n
  {
    DivBounds(x, d);
    OneMoreTimes(x / d, d);
    if x / d < n {
      TimesOrdered(x / d + 1, n, d);
    }
  }

  /** Slots of `perSlot` bytes first, at least `minSlots` of them, then tokens of `perToken` bytes. */
  ghost predicate Split(budget: int, reserve: int, perToken: int, minSlots: int, perSlot: int, available: int,
                        b: Budget)
    requires perToken > 0 && perSlot > 0
  {
    && b.budgetBytes == budget && b.moeCacheSize == Max(minSlots, available / perSlot)
    && b.moeCacheBytes == b.moeCacheSize * perSlot
    && b.kvBytes == budget - b.moeCacheBytes && b.kvNumPages == Max(reserve, b.kvBytes / perToken)
  }

  lemma SlotsFit(available: int, minSlots: int, perSlot: int, room: int)
    requires perSlot > 0 && minSlots * perSlot <= room && available <= room
    ensures var slots := Max(minSlots, available / perSlot);
            && slots * perSlot <= room && (slots + 1) * perSlot > available
            && (slots > minSlots ==> slots * perSlot <= available)
  {
    DivBounds(available, perSlot);
    OneMoreTimes(available / perSlot, perSlot);
    TimesOrdered(available / perSlot + 1, Max(minSlots, available / perSlot) + 1, perSlot);
  }

  lemma PagesFit(kvBytes: int, reserve: int, perToken: int)
    requires perToken > 0 && reserve * perToken <= kvBytes
    ensures var pages := Max(reserve, kvBytes / perToken);
            pages == kvBytes / perToken >= reserve && pages * perToken <= kvBytes < (pages + 1) * perToken
  {
    DivBounds(kvBytes, perToken);
    OneMoreTimes(kvBytes / perToken, perToken);
    DivAtLeast(kvBytes, perToken, reserve);
  }

  lemma SplitFits(budget: int, reserve: int, perToken: int, minSlots: int, perSlot: int, available: int, b: Budget)
    requires perToken > 0 && perSlot > 0 && budget >= reserve * perToken + minSlots * perSlot
             && available <= budget - reserve * perToken
    requires Split(budget, reserve, perToken, minSlots, perSlot, available, b)
    ensures b.moeCacheBytes + b.kvBytes == budget && b.moeCacheSize >= minSlots && b.kvNumPages >= reserve
    ensures b.kvNumPages * perToken <= b.kvBytes < (b.kvNumPages + 1) * perToken
    ensures (b.moeCacheSize + 1) * perSlot > available && (b.moeCacheSize > minSlots ==> b.moeCacheBytes <= available)
  {
    SlotsFit(available, minSlots, perSlot, budget - reserve * perToken);
    PagesFit(b.kvBytes, reserve, perToken);
  }

  lemma PlanIsSplit(a: PlanArgs, b: Budget)
    requires PlanCacheBudget(a) == Some(b)
    ensures BytesPerKvToken(a.kv).Some? && BytesPerSlot(a.moe, a.bytesPerSlotOverride).Some?
    ensures var perToken, perSlot := BytesPerKvToken(a.kv).value, BytesPerSlot(a.moe, a.bytesPerSlotOverride).value;
            var available := MoeAvailable(a, b.budgetBytes, perToken);
            && perToken > 0 && perSlot > 0 && b.budgetBytes >= a.kvReserveTokens * perToken + MinSlots(a) * perSlot
            && available <= b.budgetBytes - a.kvReserveTokens * perToken
            && Split(b.budgetBytes, a.kvReserveTokens, perToken, MinSlots(a), perSlot, available, b)
  {}

  /** `n` slots go into what the KV reserve leaves of the budget and into the operator's share of it. */
  ghost predicate SlotsAllowed(a: PlanArgs, budget: int, perToken: int, perSlot: int, n: int) {
    && n * perSlot + a.kvReserveTokens * perToken <= budget
    && (a.moeFraction.Some? ==> (n * perSlot) as real <= budget as real * a.moeFraction.value)
  }

  /** Bytes are whole: they fit a real bound if and only if they fit its whole part. */
  lemma WholePart(n: int, x: real)
    requires x >= 0.0
    ensures n as real <= x <==> n <= Truncated(x)
  {}

  lemma AllowedIs(a: PlanArgs, budget: int, perToken: int, perSlot: int, n: int)
    requires budget >= 0 && (a.moeFraction.Some? ==> a.moeFraction.value > 0.0)
    ensures SlotsAllowed(a, budget, perToken, perSlot, n) <==> n * perSlot <= MoeAvailable(a, budget, perToken)
  {
    if a.moeFraction.Some? {
      assert budget as real * a.moeFraction.value >= 0.0;
      WholePart(n * perSlot, budget as real * a.moeFraction.value);
    }
  }

  /** The budget is the whole part of the share of the memory that may be used. */
  lemma AddressableIs(totalVram: int, memoryRatio: real)
    requires totalVram > 0 && memoryRatio > 0.0
    ensures var bytes := Addressable(totalVram, memoryRatio);
            0 <= bytes && bytes as real <= totalVram as real * memoryRatio < (bytes + 1) as real
  {
    assert totalVram as real * memoryRatio >= 0.0;
  }

  /** What a plan promises, whenever there is one: all that may be used is shared out; the expert cache
      has its minimum and the KV pool its reserve; the pages fit the KV bytes, and no further page would;
      and the expert cache has the most slots allowed, or its minimum where that is more. */
  lemma PlanFits(a: PlanArgs, b: Budget)
    requires PlanCacheBudget(a) == Some(b)
    ensures BytesPerKvToken(a.kv).Some? && BytesPerSlot(a.moe, a.bytesPerSlotOverride).Some?
    ensures b.budgetBytes == Addressable(a.totalVram, a.memoryRatio) == b.moeCacheBytes + b.kvBytes
    ensures b.moeCacheSize >= MinSlots(a) && b.kvNumPages >= a.kvReserveTokens
            && (b.kvIsFloored <==> b.kvNumPages == a.kvReserveTokens)
    ensures var perToken, perSlot := BytesPerKvToken(a.kv).value, BytesPerSlot(a.moe, a.bytesPerSlotOverride).value;
            && b.moeCacheBytes == b.moeCacheSize * perSlot
            && b.kvNumPages * perToken <= b.kvBytes < (b.kvNumPages + 1) * perToken
            && !SlotsAllowed(a, b.budgetBytes, perToken, perSlot, b.moeCacheSize + 1)
            && (b.moeCacheSize > MinSlots(a) ==>
                  SlotsAllowed(a, b.budgetBytes, perToken, perSlot, b.moeCacheSize))
  {
    PlanIsSplit(a, b);
    PlanArgsOk(a, b);
    hide *;
    var perToken, perSlot := BytesPerKvToken(a.kv).value, BytesPerSlot(a.moe, a.bytesPerSlotOverride).value;
    SplitBytes(b.budgetBytes, a.kvReserveTokens, perToken, MinSlots(a), perSlot,
               MoeAvailable(a, b.budgetBytes, perToken), b);
    SplitFits(b.budgetBytes, a.kvReserveTokens, perToken, MinSlots(a), perSlot,
              MoeAvailable(a, b.budgetBytes, perToken), b);
    AllowedIs(a, b.budgetBytes, perToken, perSlot, b.moeCacheSize);
    AllowedIs(a, b.budgetBytes, perToken, perSlot, b.moeCacheSize + 1);
  }

  lemma SplitBytes(budget: int, reserve: int, perToken: int, minSlots: int, perSlot: int, available: int, b: Budget)
    requires perToken > 0 && perSlot > 0 && Split(budget, reserve, perToken, minSlots, perSlot, available, b)
    ensures b.moeCacheBytes == b.moeCacheSize * perSlot
  {}

  lemma PlanArgsOk(a: PlanArgs, b: Budget)
    requires PlanCacheBudget(a) == Some(b)
    ensures b.budgetBytes == Addressable(a.totalVram, a.memoryRatio) >= 0
            && (a.moeFraction.Some? ==> a.moeFraction.value > 0.0)
    ensures b.kvIsFloored <==> b.kvNumPages == a.kvReserveTokens
  {
    AddressableIs(a.totalVram, a.memoryRatio);
  }

  /** There is a plan exactly if the arguments make sense and the budget covers both minimums. */
  lemma PlanExists(a: PlanArgs)
    ensures PlanCacheBudget(a).Some? <==>
            ArgsOk(a) && Addressable(a.totalVram, a.memoryRatio) >=
              a.kvReserveTokens * BytesPerKvToken(a.kv).value + MinSlots(a)
                * BytesPerSlot(a.moe, a.bytesPerSlotOverride).value
  {}

  // ---------------------------------------------------------------- the pinned split

  datatype PinnedArgs = PinnedArgs(totalVram: Option<int>, memoryRatio: real, moeCacheSize: int, kv: KvShape,
                                   moe: MoeShape, bytesPerSlotOverride: Option<int>, requestedPages: int,
                                   reservedPages: int)

  /** The pages granted, and whether the request was capped. */
  datatype Granted = Granted(pages: int, capped: bool)

  function PinnedMoeBytes(a: PinnedArgs): Option<int> {
    if a.moeCacheSize <= 0 then Some(0)
    else
      var perSlot := BytesPerSlot(a.moe, a.bytesPerSlotOverride);
      if perSlot == None then None else Some(a.moeCacheSize * perSlot.value)
  }

  function CheckPinnedKvFit(a: PinnedArgs): Option<Granted> {
    if a.totalVram == None then Some(Granted(a.requestedPages, false))
    else if a.memoryRatio <= 0.0 || a.memoryRatio > 1.0 || a.requestedPages <= 0 || a.reservedPages < 0 then None
    else
      var budget := Addressable(a.totalVram.value, a.memoryRatio);
      var moeBytes := PinnedMoeBytes(a);
      var perToken := BytesPerKvToken(a.kv);
      if moeBytes == None || perToken == None then None
      else
        var fit := Max(0, budget - moeBytes.value) / perToken.value - a.reservedPages;
        if fit <= 0 then None
        else if fit >= a.requestedPages then Some(Granted(a.requestedPages, false))
        else Some(Granted(fit, true))
  }

  /** Pages are granted exactly if nothing is known of the device, or the arguments make sense and one page
      fits. */
  lemma GrantExists(a: PinnedArgs)
    ensures a.totalVram == None ==> CheckPinnedKvFit(a) == Some(Granted(a.requestedPages, false))
    ensures CheckPinnedKvFit(a).Some? <==>
            a.totalVram == None ||
            (0.0 < a.memoryRatio <= 1.0 && a.requestedPages > 0 && a.reservedPages >= 0 && PinnedMoeBytes(a).Some?
             && BytesPerKvToken(a.kv).Some?
             && (a.reservedPages + 1) * BytesPerKvToken(a.kv).value
                <= Addressable(a.totalVram.value, a.memoryRatio) - PinnedMoeBytes(a).value)
  {
    if a.totalVram.Some? && 0.0 < a.memoryRatio <= 1.0 && a.requestedPages > 0 && a.reservedPages >= 0
       && PinnedMoeBytes(a).Some? && BytesPerKvToken(a.kv).Some? {
      var room, perToken := Addressable(a.totalVram.value, a.memoryRatio) - PinnedMoeBytes(a).value,
      BytesPerKvToken(a.kv).value;
      var fit := Max(0, room) / perToken - a.reservedPages;
      FitBounds(room, perToken, a.reservedPages, fit);
      if fit > 0 {
        TimesOrdered(a.reservedPages + 1, fit + a.reservedPages, perToken);
      }
    }
  }

  lemma FitBounds(room: int, perToken: int, reserved: int, fit: int)
    requires perToken > 0 && fit == Max(0, room) / perToken - reserved && reserved >= 0
    ensures fit > 0 ==> (fit + reserved) * perToken <= room < (fit + reserved + 1) * perToken
    ensures fit <= 0 ==> room < (reserved + 1) * perToken
  {
    DivBounds(Max(0, room), perToken);
    OneMoreTimes(fit + reserved, perToken);
    if fit <= 0 {
      TimesOrdered(fit + reserved + 1, reserved + 1, perToken);
    } else {
      TimesOrdered(1, fit + reserved, perToken);
    }
  }

  /** With a device to measure, what is granted fits together with the reserved pages and the pinned
      expert cache; a capped grant is the largest that fits; and nothing is granted only if not even one
      page fits. */
  lemma PinnedFits(a: PinnedArgs)
    requires a.totalVram.Some? && 0.0 < a.memoryRatio <= 1.0 && a.requestedPages > 0 && a.reservedPages >= 0
    requires PinnedMoeBytes(a).Some? && BytesPerKvToken(a.kv).Some?
    ensures var room, perToken := Addressable(a.totalVram.value, a.memoryRatio) - PinnedMoeBytes(a).value,
              BytesPerKvToken(a.kv).value;
            match CheckPinnedKvFit(a)
            case None => room < (a.reservedPages + 1) * perToken
            case Some(g) =>
              && 0 < g.pages <= a.requestedPages && (g.pages + a.reservedPages) * perToken <= room
              && (g.capped <==> g.pages < a.requestedPages)
              && (g.capped ==> room < (g.pages + a.reservedPages + 1) * perToken)
  {
    var room, perToken := Addressable(a.totalVram.value, a.memoryRatio) - PinnedMoeBytes(a).value,
    BytesPerKvToken(a.kv).value;
    var fit := Max(0, room) / perToken - a.reservedPages;
    FitBounds(room, perToken, a.reservedPages, fit);
    if fit >= a.requestedPages {
      TimesOrdered(a.requestedPages + a.reservedPages, fit + a.reservedPages, perToken);
    }
  }
}
