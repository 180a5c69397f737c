/** The expert pool of the offloaded model: whole-layer and routed placement, the staged copy plan, and
    the device rows. */
module OffloadCache {
  import opened Arith
  import opened Finite
  import opened Rosters
  import opened Sorting
  import opened ExpertPool

  type Row = seq<int>

  /** A bank: per layer one host row for each expert, and the device rows, one for each slot. */
  datatype Bank = Bank(host: seq<seq<Row>>, cache: array<Row>)

  // ---------------------------------------------------------------- flat ids

  lemma FlatIn(layer: nat, layers: nat, e: nat, n: nat)
    requires layer < layers && e < n
    ensures 0 <= layer * n + e < layers * n
  {
    OneMoreTimes(layer, n);
    TimesOrdered(layer + 1, layers, n);
  }

  lemma FlatOut(layer: nat, e: nat, n: nat)
    requires e < n
    ensures (layer * n + e) / n == layer && (layer * n + e) % n == e
  {
    DivUnique(layer * n + e, n, layer, e);
  }

  lemma FlatBack(id: nat, layers: nat, n: nat)
    requires n > 0 && id < layers * n
    ensures id / n < layers && id % n < n && id == (id / n) * n + id % n
  {
    var q := id / n;
    DivBounds(id, n);
    if q >= layers {
      TimesOrdered(layers, q, n);
    }
  }

  /** The flat ids of the experts `es` of a layer whose ids start at `base`. */
  ghost function Flats(base: int, es: seq<int>): set<int> {
    set e | e in es :: base + e
  }

  // ---------------------------------------------------------------- scanning

  /** The slot of least usage, the first of them. */
  method LruVictim(usage: array<int>) returns (v: int)
    requires usage.Length > 0
    ensures IsVictim(usage[..], v)
  {
    v := 0;
    for s := 1 to usage.Length
      invariant 0 <= v < s && forall i :: 0 <= i < s ==> usage[v] < usage[i] || (usage[v] == usage[i] && v <= i)
    {
      if usage[s] < usage[v] {
        v := s;
      }
    }
  }

  /** The first empty slot, or the number of slots if there is none. */
  method FirstFree(idOfSlot: array<int>) returns (v: nat)
    ensures v <= idOfSlot.Length && (v < idOfSlot.Length ==> idOfSlot[v] == -1)
    ensures forall s :: 0 <= s < v ==> idOfSlot[s] != -1
  {
    v := 0;
    while v < idOfSlot.Length && idOfSlot[v] != -1
      invariant v <= idOfSlot.Length && forall s :: 0 <= s < v ==> idOfSlot[s] != -1
    {
      v := v + 1;
    }
  }

  /** The routed experts, each once. */
  method Dedupe(flat: seq<int>) returns (seen: seq<int>)
    ensures Distinct(seen) && forall e :: e in seen <==> e in flat
  {
    seen := [];
    for i := 0 to |flat|
      invariant Distinct(seen) && forall e :: e in seen <==> e in flat[..i]
    {
      assert flat[..i + 1] == flat[..i] + [flat[i]];
      if flat[i] !in seen {
        seen := seen + [flat[i]];
      }
    }
    assert flat[..|flat|] == flat;
  }

  /** The experts of `es` that are in no slot. */
  ghost predicate AreMissing(missing: seq<int>, slotForId: seq<int>, base: int, es: seq<int>) {
    && Distinct(missing)
    && forall e :: e in missing <==> e in es && 0 <= base + e < |slotForId| && slotForId[base + e] == -1
  }

  lemma SortedSnoc(s: seq<int>, x: int)
    requires Sorted(s) && forall y :: y in s ==> y <= x
    ensures Sorted(s + [x])
  {
    forall i | 0 <= i < |s| ensures s[i] <= x {
      assert s[i] in s;
    }
  }

  method FindMissing(slotForId: array<int>, base: int, es: seq<int>) returns (missing: seq<int>)
    requires Distinct(es) && forall e :: e in es ==> 0 <= base + e < slotForId.Length
    ensures AreMissing(missing, slotForId[..], base, es) && (Sorted(es) ==> Sorted(missing))
  {
    missing := [];
    for i := 0 to |es|
      invariant AreMissing(missing, slotForId[..], base, es[..i]) && (Sorted(es) ==> Sorted(missing))
    {
      assert es[..i + 1] == es[..i] + [es[i]] && es[i] in es;
      assert es[i] !in es[..i];
      if slotForId[base + es[i]] == -1 {
        if Sorted(es) {
          assert forall e :: e in missing ==> e in es[..i];
          SortedSnoc(missing, es[i]);
        }
        missing := missing + [es[i]];
      }
    }
    assert es[..|es|] == es;
  }

  lemma SortedMissing(missing: seq<int>, slotForId: seq<int>, base: int, es: seq<int>)
    requires AreMissing(missing, slotForId, base, es)
    ensures AreMissing(Sort(missing), slotForId, base, es)
  {
    SortSorts(missing);
    ListsSorted(missing, Sort(missing), set e | e in missing);
  }

  // ---------------------------------------------------------------- one step of placement

  /** Hits are stamped. */
  method StampHits(slotForId: array<int>, usage: array<int>, base: int, es: seq<int>, step: int, ghost ids: seq<int>,
                   ghost h: History, ghost now: set<int>)
    returns (ghost done: set<int>)
    requires slotForId != usage && step == |h| + 1 && now == Flats(base, es)
    requires AtRest(Pool(slotForId[..], ids, usage[..]), h) && forall e :: e in es ==> 0 <= base + e < slotForId.Length
    modifies usage
    ensures Turn(Pool(slotForId[..], ids, usage[..]), h, now, done)
            && Settled(Pool(slotForId[..], ids, usage[..]), now, done)
  {
    done := {};
    OpenTurn(Pool(slotForId[..], ids, usage[..]), h, now);
    assert forall j :: 0 <= j < |es| ==> es[j] in es;
    for i := 0 to |es|
      invariant Turn(Pool(slotForId[..], ids, usage[..]), h, now, done)
      invariant forall j :: 0 <= j < i && slotForId[base + es[j]] != -1 ==> base + es[j] in done
    {
      hide Turn, AtRest;
      var slot := slotForId[base + es[i]];
      if slot != -1 {
        ghost var was := usage[..];
        assert es[i] in es;
        StampHit(Pool(slotForId[..], ids, was), h, now, done, base + es[i]);
        usage[slot] := step;
        assert usage[..] == was[slot := step];
        done := done + {base + es[i]};
      }
    }
    hide *;
    HitsSettled(Pool(slotForId[..], ids, usage[..]), base, es, now, done);
  }

  lemma HitsSettled(p: Pool, base: int, es: seq<int>, now: set<int>, done: set<int>)
    requires now == Flats(base, es)
    requires forall j :: 0 <= j < |es| ==>
               0 <= base + es[j] < |p.slotForId| && (p.slotForId[base + es[j]] != -1 ==> base + es[j] in done)
    ensures Settled(p, now, done)
  {
    forall id | id in now && Resident(p, id) ensures id in done {
      var e :| e in es && base + e == id;
      var j :| 0 <= j < |es| && es[j] == e;
    }
  }

  /** The state of a placement that has placed `num` of the missing experts. */
  ghost predicate Placing(was: seq<int>, p: Pool, evict: seq<int>, src: seq<int>, num: int, h: History, now: set<int>,
                          done: set<int>, missing: seq<int>, base: int, numExperts: nat)
  {
    && Turn(p, h, now, done) && Settled(p, now, done)
    && 0 <= num <= |missing| <= |now| && num <= |evict| == |src| && |done| + (|missing| - num) == |now|
    && (forall j {:trigger missing[j]} :: 0 <= j < |missing| ==>
        base + missing[j] in now && 0 <= missing[j] < numExperts)
    && (forall j {:trigger missing[j]} :: num <= j < |missing| ==> !Resident(p, base + missing[j]))
    && Plan(was, p.idOfSlot, evict[..num], src[..num], base, numExperts, now) && src[..num] == missing[..num]
  }

  lemma PlacingStarts(p: Pool, evict: seq<int>, src: seq<int>, h: History, now: set<int>, done: set<int>,
                      missing: seq<int>, base: int, numExperts: nat, es: seq<int>)
    requires Turn(p, h, now, done) && Settled(p, now, done) && now == Flats(base, es) && |evict| == |src|
    requires AreMissing(missing, p.slotForId, base, es) && forall e :: e in es ==> 0 <= e < numExperts
    ensures Placing(p.idOfSlot, p, evict, src, 0, h, now, done, missing, base, numExperts) && |missing| <= |now|
  {
    PlanNone(p.idOfSlot, base, numExperts, now);
    MissingCount(p, h, now, done, missing, base, es);
    assert evict[..0] == src[..0] == missing[..0] == [];
    forall j | 0 <= j < |missing|
      ensures base + missing[j] in now && 0 <= missing[j] < numExperts && !Resident(p, base + missing[j]) {
      assert missing[j] in missing;
    }
  }

  lemma MissingCount(p: Pool, h: History, now: set<int>, done: set<int>, missing: seq<int>, base: int, es: seq<int>)
    requires Turn(p, h, now, done) && Settled(p, now, done) && now == Flats(base, es)
             && AreMissing(missing, p.slotForId, base, es)
    ensures |done| + |missing| == |now|
  {
    FlatsSize(base, missing);
    forall id ensures id in Flats(base, missing) <==> id in now && id !in done {
      FlatsHas(base, missing, id);
      FlatsHas(base, es, id);
    }
    assert now == done + Flats(base, missing) && done !! Flats(base, missing);
  }

  lemma FlatsHas(base: int, es: seq<int>, id: int)
    ensures id in Flats(base, es) <==> id - base in es
  {
    assert id - base in es ==> base + (id - base) in Flats(base, es);
  }

  lemma FlatsSize(base: int, es: seq<int>)
    requires Distinct(es)
    ensures |Flats(base, es)| == |es|
  {
    var ids := seq(|es|, i requires 0 <= i < |es| => base + es[i]);
    forall id ensures id in ids <==> id in Flats(base, es) {
      if id in Flats(base, es) {
        FlatsHas(base, es, id);
        var i :| 0 <= i < |es| && es[i] == id - base;
        assert ids[i] == id;
      }
      if id in ids {
        var i :| 0 <= i < |ids| && ids[i] == id;
        assert es[i] in es;
      }
    }
    ListsSize(ids, Flats(base, es));
  }

  /** A layer has no more than its experts. */
  lemma {:induction false} FewExperts(es: seq<int>, n: nat)
    requires Distinct(es) && forall e :: e in es ==> 0 <= e < n
    ensures |es| <= n
    decreases n
  {
    if es == [] {
    } else if k :| 0 <= k < |es| && es[k] == n - 1 {
      assert es[0] in es;
      ListsLess(es, (set e | e in es), k);
      var rest := Without(es, k);
      assert forall e :: e in rest ==> e in es && e != n - 1;
      FewExperts(rest, n - 1);
    } else {
      assert es[0] in es && forall e :: e in es ==> e != n - 1;
      FewExperts(es, n - 1);
    }
  }

  lemma PlacingNext(was: seq<int>, p: Pool, evict: seq<int>, src: seq<int>, num: int, h: History, now: set<int>,
                    done: set<int>, missing: seq<int>, base: int, numExperts: nat, v: int)
    requires Placing(was, p, evict, src, num, h, now, done, missing, base, numExperts) && num < |missing|
    requires IsVictim(p.usage, v) && |now| <= |p.idOfSlot| <= |evict| && Distinct(missing)
    ensures 0 <= v < |p.idOfSlot| && p.idOfSlot[v] < |p.slotForId| && num < |evict| == |src|
            && 0 <= base + missing[num] < |p.slotForId|
    ensures |p.usage| == |p.idOfSlot|
    ensures Placing(was, Placed(p, base + missing[num], v, |h| + 1), evict[num := v], src[num := missing[num]], num + 1,
                    h, now, done + {base + missing[num]}, missing, base, numExperts)
  {
    var e := missing[num];
    var id := base + e;
    PlaceMiss(p, h, now, done, id, v);
    forall i | 0 <= i < |src[..num]| ensures base + src[..num][i] in now {
      assert src[..num][i] == missing[..num][i] == missing[i];
    }
    PlanMore(was, p.idOfSlot, evict[..num], src[..num], base, numExperts, now, v, e);
    var evict', src' := evict[num := v], src[num := e];
    assert evict'[..num + 1] == evict[..num] + [v] && src'[..num + 1] == src[..num] + [e];
    assert missing[..num + 1] == missing[..num] + [e];
    var q := Placed(p, id, v, |h| + 1);
    forall j | num + 1 <= j < |missing| ensures !Resident(q, base + missing[j]) {
      assert missing[j] != e && base + missing[j] in now;
    }
  }

  lemma PlacingFacts(was: seq<int>, p: Pool, evict: seq<int>, src: seq<int>, num: int, h: History, now: set<int>,
                     done: set<int>, missing: seq<int>, base: int, numExperts: nat)
    requires Placing(was, p, evict, src, num, h, now, done, missing, base, numExperts)
    ensures Turn(p, h, now, done) && 0 <= num <= |missing| <= |now|
    ensures Plan(was, p.idOfSlot, evict[..num], src[..num], base, numExperts, now)
  {}

  lemma PlacingEnds(was: seq<int>, p: Pool, evict: seq<int>, src: seq<int>, num: int, h: History, now: set<int>,
                    done: set<int>, missing: seq<int>, base: int, numExperts: nat)
    requires Placing(was, p, evict, src, num, h, now, done, missing, base, numExperts) && num == |missing|
    ensures AtRest(p, h + [now]) && (forall id :: id in now ==> Resident(p, id))
    ensures Plan(was, p.idOfSlot, evict[..num], src[..num], base, numExperts, now) && src[..num] == missing
    ensures InverseMaps(p)
  {
    SubsetAll(done, now);
    CloseTurn(p, h, now);
    assert missing[..num] == missing;
  }

  /** The missing expert `expert` takes the slot `victim`; the pair is staged. */
  method TakeSlot(victim: int, expert: int, base: int, step: int, num: int, slotForId: array<int>, idOfSlot: array<int>,
                  usage: array<int>, evictSlots: array<int>, srcIndices: array<int>)
    requires slotForId != idOfSlot && slotForId != usage && slotForId != evictSlots && slotForId != srcIndices
    requires idOfSlot != usage && idOfSlot != evictSlots && idOfSlot != srcIndices
    requires usage != evictSlots && usage != srcIndices && evictSlots != srcIndices
    requires 0 <= victim < idOfSlot.Length == usage.Length && idOfSlot[victim] < slotForId.Length
             && 0 <= base + expert < slotForId.Length
    requires 0 <= num < evictSlots.Length == srcIndices.Length && step >= 0
    modifies slotForId, idOfSlot, usage, evictSlots, srcIndices
    ensures Pool(slotForId[..], idOfSlot[..], usage[..])
              == Placed(old(Pool(slotForId[..], idOfSlot[..], usage[..])), base + expert, victim, step)
    ensures evictSlots[..] == old(evictSlots[..])[num := victim] && srcIndices[..] == old(srcIndices[..])[num := expert]
  {
    var oldId := idOfSlot[victim];
    if oldId >= 0 {
      slotForId[oldId] := -1;
    }
    idOfSlot[victim] := base + expert;
    slotForId[base + expert] := victim;
    usage[victim] := step;
    evictSlots[num] := victim;
    srcIndices[num] := expert;
  }

  // ---------------------------------------------------------------- loops over the arrays

  /** The missing experts take slots one after another: an empty slot first when a whole layer is
      placed, otherwise the slot of least usage. */
  method PlaceMissing(missing: seq<int>, base: int, step: int, freeFirst: bool, slotForId: array<int>,
                      idOfSlot: array<int>, usage: array<int>, evictSlots: array<int>, srcIndices: array<int>,
                      ghost was: seq<int>, ghost h: History, ghost now: set<int>, ghost done0: set<int>,
                      ghost numExperts: nat)
    returns (num: int, ghost done: set<int>)
    requires slotForId != idOfSlot && slotForId != usage && slotForId != evictSlots && slotForId != srcIndices
    requires idOfSlot != usage && idOfSlot != evictSlots && idOfSlot != srcIndices
    requires usage != evictSlots && usage != srcIndices && evictSlots != srcIndices
    requires |now| <= idOfSlot.Length <= evictSlots.Length && Distinct(missing) && step == |h| + 1
    requires Placing(was, Pool(slotForId[..], idOfSlot[..], usage[..]), evictSlots[..], srcIndices[..], 0, h, now,
                     done0, missing, base, numExperts)
    modifies slotForId, idOfSlot, usage, evictSlots, srcIndices
    ensures num == |missing|
    ensures Placing(was, Pool(slotForId[..], idOfSlot[..], usage[..]), evictSlots[..], srcIndices[..], num, h, now,
                    done, missing, base, numExperts)
  {
    hide *;
    num, done := 0, done0;
    PlacingFacts(was, Pool(slotForId[..], idOfSlot[..], usage[..]), evictSlots[..], srcIndices[..], num, h, now, done,
                 missing, base, numExperts);
    while num < |missing|
      invariant 0 <= num <= |missing|
      invariant Placing(was, Pool(slotForId[..], idOfSlot[..], usage[..]), evictSlots[..], srcIndices[..], num, h, now,
                        done, missing, base, numExperts)
    {
      ghost var p := Pool(slotForId[..], idOfSlot[..], usage[..]);
      PlacingFacts(was, p, evictSlots[..], srcIndices[..], num, h, now, done, missing, base, numExperts);
      var victim := PickVictim(freeFirst, slotForId, idOfSlot, usage, h, now, done);
      PlacingNext(was, p, evictSlots[..], srcIndices[..], num, h, now, done, missing, base, numExperts, victim);
      assert num < evictSlots.Length;
      TakeSlot(victim, missing[num], base, step, num, slotForId, idOfSlot, usage, evictSlots, srcIndices);
      done := done + {base + missing[num]};
      num := num + 1;
    }
  }

  method PickVictim(freeFirst: bool, slotForId: array<int>, idOfSlot: array<int>, usage: array<int>, ghost h: History,
                    ghost now: set<int>, ghost done: set<int>)
    returns (victim: int)
    requires Turn(Pool(slotForId[..], idOfSlot[..], usage[..]), h, now, done) && idOfSlot.Length > 0
    ensures IsVictim(usage[..], victim)
  {
    if freeFirst {
      victim := FirstFree(idOfSlot);
      if victim < idOfSlot.Length {
        FreeIsVictim(Pool(slotForId[..], idOfSlot[..], usage[..]), h, now, done, victim);
        return;
      }
    }
    victim := LruVictim(usage);
  }

  ghost predicate InRange(ids: seq<int>, n: int) {
    forall s :: 0 <= s < |ids| ==> ids[s] == -1 || 0 <= ids[s] < n
  }

  /** Derive `slotForId` from `idOfSlot` again. */
  method ResyncSlots(slotForId: array<int>, idOfSlot: array<int>, numLayers: nat, numExperts: nat)
    requires slotForId != idOfSlot && numExperts > 0 && slotForId.Length == numLayers * numExperts
             && InRange(idOfSlot[..], slotForId.Length)
    requires forall s, r :: 0 <= s < r < idOfSlot.Length && idOfSlot[s] != -1 ==> idOfSlot[s] != idOfSlot[r]
    modifies slotForId
    ensures InverseMaps(Pool(slotForId[..], idOfSlot[..], []))
  {
    var resynced := new int[slotForId.Length](_ => -1);
    for s := 0 to idOfSlot.Length
      invariant fresh(resynced) && slotForId.Length == resynced.Length
      invariant forall id :: 0 <= id < resynced.Length ==>
        if resynced[id] == -1 then forall k :: 0 <= k < s ==> idOfSlot[k] != id
        else 0 <= resynced[id] < s && idOfSlot[resynced[id]] == id
    {
      if idOfSlot[s] >= 0 {
        assert idOfSlot[s] < slotForId.Length;
        FlatBack(idOfSlot[s], numLayers, numExperts);
        resynced[(idOfSlot[s] / numExperts) * numExperts + idOfSlot[s] % numExperts] := s;
      }
    }
    forall id | 0 <= id < slotForId.Length {
      slotForId[id] := resynced[id];
    }
    ghost var p := Pool(slotForId[..], idOfSlot[..], []);
    forall id | 0 <= id < |p.slotForId| ensures IdOk(p, id) {
      assert p.slotForId[id] == resynced[id];
    }
    forall s | 0 <= s < |p.idOfSlot| ensures SlotOk(p, s) {
      assert p.idOfSlot[s] == idOfSlot[s];
      if idOfSlot[s] != -1 {
        assert p.slotForId[idOfSlot[s]] == resynced[idOfSlot[s]];
      }
    }
  }

  lemma InverseDistinct(p: Pool)
    requires InverseMaps(p)
    ensures InRange(p.idOfSlot, |p.slotForId|)
    ensures forall s, r :: 0 <= s < r < |p.idOfSlot| && p.idOfSlot[s] != -1 ==> p.idOfSlot[s] != p.idOfSlot[r]
  {
    forall s | 0 <= s < |p.idOfSlot|
      ensures p.idOfSlot[s] == -1 || (0 <= p.idOfSlot[s] < |p.slotForId| && p.slotForId[p.idOfSlot[s]] == s)
    {
      assert SlotOk(p, s);
    }
  }

  /** Deriving `slotForId` again from maps that are inverse to each other changes nothing. */
  method Resync(slotForId: array<int>, idOfSlot: array<int>, numLayers: nat, numExperts: nat, ghost p: Pool)
    requires slotForId != idOfSlot && numExperts > 0 && slotForId.Length == numLayers * numExperts
    requires InverseMaps(p) && p.slotForId == slotForId[..] && p.idOfSlot == idOfSlot[..]
    modifies slotForId
    ensures slotForId[..] == old(slotForId[..])
  {
    InverseDistinct(p);
    var q := Pool(slotForId[..], idOfSlot[..], []);
    InverseAlone(p, q);
    assert forall s :: 0 <= s < idOfSlot.Length ==> idOfSlot[s] == p.idOfSlot[s];
    hide *;
    ResyncSlots(slotForId, idOfSlot, numLayers, numExperts);
    InverseUnique(q, slotForId[..]);
  }

  lemma InverseAlone(p: Pool, q: Pool)
    requires InverseMaps(p) && q.slotForId == p.slotForId && q.idOfSlot == p.idOfSlot
    ensures InverseMaps(q)
  {
    forall id | 0 <= id < |q.slotForId| ensures IdOk(q, id) {
      assert IdOk(p, id);
    }
    forall s | 0 <= s < |q.idOfSlot| ensures SlotOk(q, s) {
      assert SlotOk(p, s);
    }
  }

  lemma FewNow(base: int, es: seq<int>, n: nat)
    requires Distinct(es) && forall e :: e in es ==> 0 <= e < n
    ensures |Flats(base, es)| <= n
  {
    FlatsSize(base, es);
    FewExperts(es, n);
  }

  /** What the placement of the experts `es` of a layer leaves behind, `p` being the pool before. */
  ghost predicate PlacedAll(p: Pool, q: Pool, evict: seq<int>, src: seq<int>, h: History, base: int, es: seq<int>,
                            numExperts: nat) {
    && AtRest(q, h + [Flats(base, es)]) && (forall id :: id in Flats(base, es) ==> Resident(q, id))
    && AreMissing(src, p.slotForId, base, es) && Sorted(src)
    && Plan(p.idOfSlot, q.idOfSlot, evict, src, base, numExperts, Flats(base, es))
  }

  lemma IsPlacedAll(p: Pool, q: Pool, evict: seq<int>, src: seq<int>, h: History, base: int, es: seq<int>,
                    numExperts: nat, usage: seq<int>)
    requires AtRest(q, h + [Flats(base, es)]) && forall id :: id in Flats(base, es) ==> Resident(q, id)
    requires AreMissing(src, p.slotForId, base, es) && Sorted(src)
    requires Plan(p.idOfSlot, q.idOfSlot, evict, src, base, numExperts, Flats(base, es))
    ensures PlacedAll(p, q, evict, src, h, base, es, numExperts)
  {}

  /** Place the experts `es` of a layer: hits are stamped, misses take slots and are staged. */
  method PlaceExperts(base: nat, es: seq<int>, whole: bool, step: int, numLayers: nat, numExperts: nat,
                      slotForId: array<int>, idOfSlot: array<int>, usage: array<int>, evictSlots: array<int>,
                      srcIndices: array<int>, ghost h: History)
    returns (num: int)
    requires slotForId != idOfSlot && slotForId != usage && slotForId != evictSlots && slotForId != srcIndices
    requires idOfSlot != usage && idOfSlot != evictSlots && idOfSlot != srcIndices
    requires usage != evictSlots && usage != srcIndices && evictSlots != srcIndices
    requires AtRest(Pool(slotForId[..], idOfSlot[..], usage[..]), h) && step == |h| + 1 && (whole ==> Sorted(es))
             && Distinct(es)
    requires forall e :: e in es ==> 0 <= e < numExperts && base + e < slotForId.Length
    requires 0 < numExperts <= idOfSlot.Length <= evictSlots.Length == srcIndices.Length
             && slotForId.Length == numLayers * numExperts
    modifies slotForId, idOfSlot, usage, evictSlots, srcIndices
    ensures 0 <= num <= evictSlots.Length
    ensures PlacedAll(old(Pool(slotForId[..], idOfSlot[..], usage[..])), Pool(slotForId[..], idOfSlot[..], usage[..]),
                      evictSlots[..num], srcIndices[..num], h, base, es, numExperts)
  {
    hide *;
    ghost var p, now := Pool(slotForId[..], idOfSlot[..], usage[..]), Flats(base, es);
    var done := StampHits(slotForId, usage, base, es, step, p.idOfSlot, h, now);
    ghost var q := Pool(slotForId[..], idOfSlot[..], usage[..]);
    var missing := FindMissing(slotForId, base, es);
    if !whole {
      SortedMissing(missing, slotForId[..], base, es);
      SortSorts(missing);
      missing := Sort(missing);
    }
    FewNow(base, es, numExperts);
    PlacingStarts(q, evictSlots[..], srcIndices[..], h, now, done, missing, base, numExperts, es);
    MissingDistinct(missing, slotForId[..], base, es);
    num, done := PlaceMissing(missing, base, step, whole, slotForId, idOfSlot, usage, evictSlots, srcIndices,
                              p.idOfSlot, h, now, done, numExperts);
    q := Pool(slotForId[..], idOfSlot[..], usage[..]);
    PlacingFacts(p.idOfSlot, q, evictSlots[..], srcIndices[..], num, h, now, done, missing, base, numExperts);
    PlacingEnds(p.idOfSlot, q, evictSlots[..], srcIndices[..], num, h, now, done, missing, base, numExperts);
    Resync(slotForId, idOfSlot, numLayers, numExperts, q);
    IsPlacedAll(p, q, evictSlots[..num], srcIndices[..num], h, base, es, numExperts, []);
  }

  lemma MissingDistinct(missing: seq<int>, slotForId: seq<int>, base: int, es: seq<int>)
    requires AreMissing(missing, slotForId, base, es)
    ensures Distinct(missing)
  {}

  // ---------------------------------------------------------------- device rows

  /** The host row of the expert with the flat id `id`. */
  ghost function HostRow(host: seq<seq<Row>>, id: int, numExperts: nat): Row {
    if numExperts > 0 && 0 <= id / numExperts < |host| && 0 <= id % numExperts < |host[id / numExperts]|
      then host[id / numExperts][id % numExperts] else []
  }

  /** Every slot that holds an expert, but those in `but`, holds that expert's host row. */
  ghost predicate Loaded(cache: seq<Row>, host: seq<seq<Row>>, ids: seq<int>, numExperts: nat, but: seq<int>) {
    |cache| == |ids| && forall s :: 0 <= s < |ids| && ids[s] != -1 && s !in but ==>
      cache[s] == HostRow(host, ids[s], numExperts)
  }

  /** Placement leaves the rows of all slots but the staged ones right. */
  lemma PlacedLoaded(cache: seq<Row>, host: seq<seq<Row>>, was: seq<int>, ids: seq<int>, evict: seq<int>, src: seq<int>,
                     base: int, numExperts: nat, now: set<int>)
    requires Loaded(cache, host, was, numExperts, []) && Plan(was, ids, evict, src, base, numExperts, now)
    ensures Loaded(cache, host, ids, numExperts, evict)
  {}

  /** The staged pairs fit the slots. */
  ghost predicate Staged(ids: seq<int>, evict: seq<int>, src: seq<int>, layer: int, numExperts: nat) {
    |evict| == |src| && forall i {:trigger evict[i]} {:trigger src[i]} :: 0 <= i < |evict| ==>
      0 <= evict[i] < |ids| && 0 <= src[i] < numExperts && ids[evict[i]] == layer * numExperts + src[i]
  }

  lemma PlanStaged(was: seq<int>, ids: seq<int>, evict: seq<int>, src: seq<int>, layer: int, numExperts: nat,
                   now: set<int>)
    requires Plan(was, ids, evict, src, layer * numExperts, numExperts, now)
    ensures Staged(ids, evict, src, layer, numExperts)
  {
    forall i | 0 <= i < |evict|
      ensures 0 <= evict[i] < |ids| && 0 <= src[i] < numExperts && ids[evict[i]] == layer * numExperts + src[i]
    {}
  }

  /** Copy the staged host rows of a layer into their slots. */
  method CopyRows(cache: array<Row>, rows: seq<Row>, evict: seq<int>, src: seq<int>)
    requires |evict| == |src| && forall i :: 0 <= i < |evict| ==> 0 <= evict[i] < cache.Length && 0 <= src[i] < |rows|
    requires forall i, j :: 0 <= i < j < |evict| && evict[i] == evict[j] ==> src[i] == src[j]
    modifies cache
    ensures forall s :: 0 <= s < cache.Length && s !in evict ==> cache[s] == old(cache[s])
    ensures forall i :: 0 <= i < |evict| ==> cache[evict[i]] == rows[src[i]]
  {
    for k := 0 to |evict|
      invariant forall s :: 0 <= s < cache.Length && s !in evict ==> cache[s] == old(cache[s])
      invariant forall i :: 0 <= i < k ==> cache[evict[i]] == rows[src[i]]
    {
      cache[evict[k]] := rows[src[k]];
    }
  }

  lemma CopiedLoaded(was: seq<Row>, cache: seq<Row>, host: seq<seq<Row>>, ids: seq<int>, evict: seq<int>, src: seq<int>,
                     layer: int, numExperts: nat)
    requires Loaded(was, host, ids, numExperts, evict) && Staged(ids, evict, src, layer, numExperts) && |cache| == |was|
    requires 0 <= layer < |host| && |host[layer]| == numExperts
    requires forall s :: 0 <= s < |cache| && s !in evict ==> cache[s] == was[s]
    requires forall i :: 0 <= i < |evict| ==> cache[evict[i]] == host[layer][src[i]]
    ensures Loaded(cache, host, ids, numExperts, [])
  {
    forall s | 0 <= s < |ids| && ids[s] != -1 ensures cache[s] == HostRow(host, ids[s], numExperts) {
      if s in evict {
        var i :| 0 <= i < |evict| && evict[i] == s;
        FlatOut(layer, src[i], numExperts);
      }
    }
  }

  ghost predicate BankFits(b: Bank, numLayers: nat, numExperts: nat, cacheSize: nat) {
    |b.host| == numLayers && b.cache.Length == cacheSize && forall l :: 0 <= l < |b.host| ==> |b.host[l]| == numExperts
  }

  /** The banks fit the pool, and no two share their device rows. */
  ghost predicate BanksFit(banks: seq<Bank>, numLayers: nat, numExperts: nat, cacheSize: nat) {
    && (forall k {:trigger banks[k]} :: 0 <= k < |banks| ==> BankFits(banks[k], numLayers, numExperts, cacheSize))
    && forall j, k :: 0 <= j < k < |banks| ==> banks[j].cache != banks[k].cache
  }

  ghost function Caches(banks: seq<Bank>): set<array<Row>> {
    set b | b in banks :: b.cache
  }

  ghost predicate AllLoaded(banks: seq<Bank>, ids: seq<int>, numExperts: nat, but: seq<int>)
    reads Caches(banks)
  {
    forall k {:trigger banks[k]} :: 0 <= k < |banks| ==> Loaded(banks[k].cache[..], banks[k].host, ids, numExperts, but)
  }

  /** Copy the staged rows of all banks. */
  method CopyBanks(banks: seq<Bank>, layer: int, evict: seq<int>, src: seq<int>, ghost ids: seq<int>,
                   ghost numLayers: nat, ghost numExperts: nat)
    requires BanksFit(banks, numLayers, numExperts, |ids|) && 0 <= layer < numLayers
             && Staged(ids, evict, src, layer, numExperts)
    modifies Caches(banks)
    ensures old(AllLoaded(banks, ids, numExperts, evict)) ==> AllLoaded(banks, ids, numExperts, [])
  {
    for k := 0 to |banks|
      invariant old(AllLoaded(banks, ids, numExperts, evict)) ==>
        forall j {:trigger banks[j]} :: 0 <= j < k ==> Loaded(banks[j].cache[..], banks[j].host, ids, numExperts, [])
      invariant forall j {:trigger banks[j]} :: k <= j < |banks| ==> banks[j].cache[..] == old(banks[j].cache[..])
    {
      var b := banks[k];
      ghost var before := b.cache[..];
      CopyRows(b.cache, b.host[layer], evict, src);
      if old(AllLoaded(banks, ids, numExperts, evict)) {
        CopiedLoaded(before, b.cache[..], b.host, ids, evict, src, layer, numExperts);
      }
    }
  }

  function Hosts(banks: seq<Bank>): (sources: seq<seq<seq<Row>>>)
    ensures |sources| == |banks| && forall k {:trigger sources[k]} :: 0 <= k < |banks| ==> sources[k] == banks[k].host
  {
    seq(|banks|, k requires 0 <= k < |banks| => banks[k].host)
  }

  /** The arrays of an empty pool of `n` slots. */
  method EmptySlots(n: nat)
    returns (idOfSlot: array<int>, usage: array<int>, evictSlots: array<int>, srcIndices: array<int>)
    ensures fresh(idOfSlot) && fresh(usage) && fresh(evictSlots) && fresh(srcIndices)
    ensures idOfSlot.Length == usage.Length == evictSlots.Length == srcIndices.Length == n
    ensures idOfSlot != usage && idOfSlot != evictSlots && idOfSlot != srcIndices
    ensures usage != evictSlots && usage != srcIndices && evictSlots != srcIndices
    ensures forall s :: 0 <= s < n ==> idOfSlot[s] == -1 && usage[s] == 0
  {
    idOfSlot, usage := new int[n](_ => -1), new int[n](_ => 0);
    evictSlots, srcIndices := new int[n], new int[n];
  }

  lemma HostsFit(banks: seq<Bank>, numLayers: nat, numExperts: nat, cacheSize: nat)
    requires BanksFit(banks, numLayers, numExperts, cacheSize)
    ensures forall k {:trigger Hosts(banks)[k]} :: 0 <= k < |Hosts(banks)| ==>
              |Hosts(banks)[k]| == numLayers && forall l :: 0 <= l < |Hosts(banks)[k]| ==>
                |Hosts(banks)[k][l]| == numExperts
  {}

  ghost predicate SameHosts(banks: seq<Bank>, was: seq<Bank>) {
    |banks| == |was| && forall k {:trigger banks[k]} :: 0 <= k < |banks| ==> banks[k].host == was[k].host
  }

  /** Device rows for host banks, one pool of slots for each. */
  method AttachBanks(sources: seq<seq<seq<Row>>>, numLayers: nat, cacheSize: nat, ghost numExperts: nat)
    returns (banks: seq<Bank>)
    requires forall k {:trigger sources[k]} :: 0 <= k < |sources| ==>
      |sources[k]| == numLayers && forall l :: 0 <= l < |sources[k]| ==> |sources[k][l]| == numExperts
    ensures |banks| == |sources| && forall k {:trigger banks[k]} :: 0 <= k < |banks| ==>
              banks[k].host == sources[k] && fresh(banks[k].cache)
    ensures BanksFit(banks, numLayers, numExperts, cacheSize)
  {
    banks := [];
    for k := 0 to |sources|
      invariant |banks| == k && forall j {:trigger banks[j]} :: 0 <= j < k ==>
                  banks[j].host == sources[j] && fresh(banks[j].cache)
      invariant BanksFit(banks, numLayers, numExperts, cacheSize)
    {
      var cache := new Row[cacheSize](_ => []);
      banks := banks + [Bank(sources[k], cache)];
    }
  }

  class OffloadMoeCache {
    const numLayers: nat
    const numExperts: nat
    /** The bank names of the quantization format. */
    const bankSchema: seq<string>
    var cacheSize: nat
    /** One entry per flat id, layer after layer. */
    var slotForId: array<int>
    var idOfSlot: array<int>
    var usage: array<int>
    var step: int
    var evictSlots: array<int>
    var srcIndices: array<int>
    var numIndices: int
    var pendingSrcLayer: Option<int>
    var banks: seq<Bank>
    ghost var history: History

    ghost predicate Wired()
      reads this
    {
      && 0 < numExperts <= cacheSize && slotForId.Length == numLayers * numExperts
      && idOfSlot.Length == usage.Length == cacheSize <= evictSlots.Length == srcIndices.Length
      && slotForId != idOfSlot && slotForId != usage && slotForId != evictSlots && slotForId != srcIndices
      && idOfSlot != usage && idOfSlot != evictSlots && idOfSlot != srcIndices
      && usage != evictSlots && usage != srcIndices && evictSlots != srcIndices
      && BanksFit(banks, numLayers, numExperts, cacheSize)
      && (pendingSrcLayer.Some? ==> 0 <= numIndices <= evictSlots.Length && 0 <= pendingSrcLayer.value < numLayers)
    }

    ghost function State(): Pool
      reads this, slotForId, idOfSlot, usage
    {
      Pool(slotForId[..], idOfSlot[..], usage[..])
    }

    /** The two maps are inverse, and the pool is the LRU pool of its history. */
    ghost predicate Valid()
      reads this, slotForId, idOfSlot, usage
    {
      Wired() && AtRest(State(), history) && step == |history|
    }

    /** The slots that a copy is due for. */
    ghost function Due(): seq<int>
      requires Wired()
      reads this, evictSlots
    {
      if pendingSrcLayer.Some? then evictSlots[..numIndices] else []
    }

    /** The staged pairs fit the slots, and every other owned slot equals its host row in every bank. */
    ghost predicate Coherent()
      requires Wired()
      reads this, idOfSlot, evictSlots, srcIndices, Caches(banks)
    {
      && (pendingSrcLayer.Some? ==>
           Staged(idOfSlot[..], evictSlots[..numIndices], srcIndices[..numIndices], pendingSrcLayer.value, numExperts))
      && AllLoaded(banks, idOfSlot[..], numExperts, Due())
    }

    constructor (numLayers: nat, numExperts: nat, cacheSize: nat, bankSchema: seq<string>)
      requires 0 < numExperts <= cacheSize
      ensures Valid() && Coherent() && history == [] && pendingSrcLayer == None && banks == []
      ensures this.numLayers == numLayers && this.numExperts == numExperts && this.cacheSize == cacheSize
      ensures this.bankSchema == bankSchema
      ensures forall id :: !Resident(State(), id)
      ensures fresh(slotForId) && fresh(idOfSlot) && fresh(usage) && fresh(evictSlots) && fresh(srcIndices)
    {
      this.numLayers, this.numExperts, this.cacheSize, this.bankSchema := numLayers, numExperts, cacheSize, bankSchema;
      slotForId := new int[numLayers * numExperts](_ => -1);
      idOfSlot := new int[cacheSize](_ => -1);
      usage := new int[cacheSize](_ => 0);
      evictSlots := new int[cacheSize];
      srcIndices := new int[cacheSize];
      step, numIndices, pendingSrcLayer, banks, history := 0, 0, None, [], [];
      new;
      EmptyPool(numLayers * numExperts, cacheSize);
      assert State() == Pool(seq(numLayers * numExperts, i => -1), seq(cacheSize, s => -1), seq(cacheSize, s => 0));
    }

    /** What a placement of the experts `es` of a layer promises: all of them are resident, the missing
        ones are staged in order, the step is on record, and only the staged slots changed hands. */
    ghost predicate Placement(p: Pool, h: History, layerId: nat, es: seq<int>)
      requires Wired()
      reads this, slotForId, idOfSlot, usage, evictSlots, srcIndices
    {
      && history == h + [Flats(layerId * numExperts, es)] && pendingSrcLayer == Some(layerId)
      && PlacedAll(p, State(), evictSlots[..numIndices], srcIndices[..numIndices], h, layerId * numExperts, es,
                   numExperts)
    }

    method Place(layerId: int, es: seq<int>, whole: bool)
      requires Valid() && 0 <= layerId < numLayers && Distinct(es) && forall e :: e in es ==> 0 <= e < numExperts
      requires whole ==> Sorted(es)
      modifies this`step, this`numIndices, this`pendingSrcLayer, this`history, slotForId, idOfSlot, usage, evictSlots,
               srcIndices
      ensures Valid() && Placement(old(State()), old(history), layerId, es)
      ensures old(pendingSrcLayer == None && Coherent()) ==> Coherent()
    {
      ghost var p, h, coherent := State(), history, pendingSrcLayer == None && Coherent();
      var base := layerId * numExperts;
      forall e | e in es ensures 0 <= base + e < slotForId.Length {
        FlatIn(layerId, numLayers, e, numExperts);
      }
      step := step + 1;
      numIndices := PlaceExperts(base, es, whole, step, numLayers, numExperts, slotForId, idOfSlot, usage, evictSlots,
                                 srcIndices, h);
      pendingSrcLayer := Some(layerId);
      history := h + [Flats(base, es)];
      ghost var evict, src, now := evictSlots[..numIndices], srcIndices[..numIndices], Flats(base, es);
      PlanStaged(p.idOfSlot, idOfSlot[..], evict, src, layerId, numExperts, now);
      if coherent {
        forall k {:trigger banks[k]} | 0 <= k < |banks|
          ensures Loaded(banks[k].cache[..], banks[k].host, idOfSlot[..], numExperts, evict) {
          PlacedLoaded(banks[k].cache[..], banks[k].host, p.idOfSlot, idOfSlot[..], evict, src, base, numExperts, now);
        }
      }
    }

    /** Make a whole layer resident for a prefill. */
    method MaterializeLayer(layerId: int) returns (ok: bool)
      requires Valid()
      modifies this`step, this`numIndices, this`pendingSrcLayer, this`history, slotForId, idOfSlot, usage, evictSlots,
               srcIndices
      ensures Valid() && (ok <==> 0 <= layerId < numLayers)
      ensures ok ==> Placement(old(State()), old(history), layerId, Range(0, numExperts))
      ensures !ok ==> State() == old(State()) && history == old(history) && pendingSrcLayer == old(pendingSrcLayer)
      ensures old(pendingSrcLayer == None && Coherent()) ==> Coherent()
    {
      ok := 0 <= layerId < numLayers;
      if ok {
        Place(layerId, Range(0, numExperts), true);
      }
    }

    /** Make the routed experts of a layer resident for a decode step. */
    method EnsureExperts(layerId: int, expertIds: seq<int>) returns (ok: bool, ghost seen: seq<int>)
      requires Valid() && 0 <= layerId < numLayers && forall e :: e in expertIds ==> 0 <= e < numExperts
      modifies this`step, this`numIndices, this`pendingSrcLayer, this`history, slotForId, idOfSlot, usage, evictSlots,
               srcIndices
      ensures Valid() && (ok <==> banks == [] || cacheSize >= 2)
      ensures ok ==> Distinct(seen) && (forall e :: e in seen <==> e in expertIds)
                     && Placement(old(State()), old(history), layerId, seen)
      ensures !ok ==> State() == old(State()) && history == old(history) && pendingSrcLayer == old(pendingSrcLayer)
      ensures old(pendingSrcLayer == None && Coherent()) ==> Coherent()
    {
      seen := [];
      ok := banks == [] || cacheSize >= 2;
      if ok {
        var once := Dedupe(expertIds);
        seen := once;
        Place(layerId, once, false);
      }
    }

    /** Copy what is staged: from then on every owned slot equals its host row in every bank. */
    method CopyMissing() returns (ok: bool)
      requires Valid() && Coherent()
      modifies this`pendingSrcLayer, Caches(banks)
      ensures Valid() && Coherent() && (ok <==> banks != []) && (ok ==> pendingSrcLayer == None)
      ensures ok ==> AllLoaded(banks, idOfSlot[..], numExperts, [])
      ensures !ok ==> pendingSrcLayer == old(pendingSrcLayer)
    {
      ok := banks != [];
      if ok && pendingSrcLayer.Some? {
        CopyBanks(banks, pendingSrcLayer.value, evictSlots[..numIndices], srcIndices[..numIndices], idOfSlot[..],
                  numLayers, numExperts);
        pendingSrcLayer := None;
      }
    }

    /** Attach host banks, in the order of the schema. They are refused when their names are not those of
        the schema, or when one of them has the wrong number of layers. */
    method SetBankSources(sources: map<string, seq<seq<Row>>>) returns (ok: bool)
      requires Valid()
      requires forall b :: b in sources ==> forall l :: 0 <= l < |sources[b]| ==> |sources[b][l]| == numExperts
      modifies this`banks
      ensures Valid()
      ensures ok <==> sources.Keys == (set b | b in bankSchema) && forall b :: b in sources ==>
                |sources[b]| == numLayers
      ensures sources.Keys != (set b | b in bankSchema) ==> banks == old(banks)
      ensures sources.Keys == (set b | b in bankSchema) ==>
                && |banks| <= |bankSchema|
                && (forall k {:trigger banks[k]} :: 0 <= k < |banks| ==>
                     bankSchema[k] in sources && banks[k].host == sources[bankSchema[k]])
                && if ok then |banks| == |bankSchema|
                   else |banks| < |bankSchema| && bankSchema[|banks|] in sources
                        && |sources[bankSchema[|banks|]]| != numLayers
      ensures fresh(Caches(banks) - old(Caches(banks)))
      ensures (forall s :: 0 <= s < idOfSlot.Length ==> idOfSlot[s] == -1) && pendingSrcLayer == None ==> Coherent()
    {
      if sources.Keys != set b | b in bankSchema {
        return false;
      }
      assert forall k :: 0 <= k < |bankSchema| ==> bankSchema[k] in sources.Keys;
      var fit := 0;
      while fit < |bankSchema| && |sources[bankSchema[fit]]| == numLayers
        invariant 0 <= fit <= |bankSchema|
        invariant forall k {:trigger bankSchema[k]} :: 0 <= k < fit ==> |sources[bankSchema[k]]| == numLayers
      {
        fit := fit + 1;
      }
      ok := fit == |bankSchema|;
      var perBank := seq(fit, k requires 0 <= k < fit => sources[bankSchema[k]]);
      banks := AttachBanks(perBank, numLayers, cacheSize, numExperts);
    }

    /** Forget every mapping and start over with a pool of another size. */
    method Rebuild(newSize: nat) returns (ok: bool)
      requires Valid()
      modifies this`cacheSize, this`idOfSlot, this`usage, this`evictSlots, this`srcIndices, this`pendingSrcLayer,
               this`banks,
               this`step, this`history, slotForId
      ensures Valid() && (ok <==> newSize >= numExperts)
      ensures ok ==> cacheSize == newSize && history == [] && pendingSrcLayer == None && Coherent()
                     && forall id :: !Resident(State(), id)
      ensures ok ==> SameHosts(banks, old(banks))
      ensures ok ==> fresh(idOfSlot) && fresh(usage) && fresh(evictSlots) && fresh(srcIndices) && fresh(Caches(banks))
      ensures !ok ==>
                cacheSize == old(cacheSize) && banks == old(banks) && history == old(history) && State() == old(State())
      ensures !ok ==>
                idOfSlot == old(idOfSlot) && usage == old(usage) && evictSlots == old(evictSlots)
                  && srcIndices == old(srcIndices)
      ensures !ok ==> pendingSrcLayer == old(pendingSrcLayer) && (old(Coherent()) ==> Coherent())
    {
      hide *;
      WiredFacts();
      ok := newSize >= numExperts;
      if ok {
        Resize(newSize);
        ClearSlots();
      }
    }

    lemma WiredFacts()
      requires Valid()
      ensures Wired() && 0 < numExperts
    {}

    /** Empty slots and device rows in the new number. */
    method Resize(newSize: nat)
      requires Wired() && newSize >= numExperts
      modifies this`cacheSize, this`idOfSlot, this`usage, this`evictSlots, this`srcIndices, this`pendingSrcLayer,
               this`banks
      ensures Wired() && cacheSize == newSize && pendingSrcLayer == None && idOfSlot.Length == usage.Length == newSize
      ensures forall s :: 0 <= s < newSize ==> idOfSlot[s] == -1 && usage[s] == 0
      ensures SameHosts(banks, old(banks))
      ensures fresh(idOfSlot) && fresh(usage) && fresh(evictSlots) && fresh(srcIndices) && fresh(Caches(banks))
    {
      hide BankFits, BanksFit;
      HostsFit(banks, numLayers, numExperts, cacheSize);
      var attached := AttachBanks(Hosts(banks), numLayers, newSize, numExperts);
      cacheSize, pendingSrcLayer, banks := newSize, None, attached;
      idOfSlot, usage, evictSlots, srcIndices := EmptySlots(newSize);
    }

    /** Forget every mapping. */
    method Reset()
      requires Valid()
      modifies this`numIndices, this`pendingSrcLayer, this`step, this`history, slotForId, idOfSlot, usage, Caches(banks)
      ensures Valid() && Coherent() && history == [] && pendingSrcLayer == None && forall id :: !Resident(State(), id)
    {
      hide AtRest, Resident, Loaded, Staged, HostRow;
      forall s | 0 <= s < idOfSlot.Length {
        idOfSlot[s] := -1;
      }
      forall s | 0 <= s < usage.Length {
        usage[s] := 0;
      }
      numIndices, pendingSrcLayer := 0, None;
      ZeroBanks(banks);
      ClearSlots();
    }

    method ClearSlots()
      requires Wired() && pendingSrcLayer == None && forall s :: 0 <= s < cacheSize ==>
                 idOfSlot[s] == -1 && usage[s] == 0
      modifies this`step, this`history, slotForId
      ensures Valid() && Coherent() && history == [] && forall id :: !Resident(State(), id)
    {
      forall id | 0 <= id < slotForId.Length {
        slotForId[id] := -1;
      }
      step, history := 0, [];
      EmptyPool(slotForId.Length, cacheSize);
      assert State() == Pool(seq(slotForId.Length, i => -1), seq(cacheSize, s => -1), seq(cacheSize, s => 0));
    }
  }

  /** Zeroed device rows. */
  method ZeroBanks(banks: seq<Bank>)
    modifies Caches(banks)
  {
    for k := 0 to |banks| {
      forall s | 0 <= s < banks[k].cache.Length {
        banks[k].cache[s] := [];
      }
    }
  }
}
