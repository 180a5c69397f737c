/** The expert slot pool as a value: which slot holds which expert, when each slot was last used, and
    why evicting the oldest slot keeps exactly the most recently used experts resident. */
module ExpertPool {
  import opened Finite

  /** The experts touched in each step since the last reset; an expert is named by its flat id. */
  type History = seq<set<int>>

  /** `slotForId` maps a flat id to its slot, `idOfSlot` a slot to its id; -1 stands for none. */
  datatype Pool = Pool(slotForId: seq<int>, idOfSlot: seq<int>, usage: seq<int>)

  /** The last step in which `id` was touched, 0 if there is none. */
  ghost function LastTouch(h: History, id: int): (t: nat)
    ensures t <= |h| && (t > 0 ==> id in h[t - 1]) && forall i :: t <= i < |h| ==> id !in h[i]
  {
    if h == [] then 0 else if id in h[|h| - 1] then |h| else LastTouch(h[..|h| - 1], id)
  }

  /** The ids touched after step `t`. */
  ghost function TouchedAfter(h: History, t: nat): (ids: set<int>)
    ensures forall id :: id in ids <==> exists i :: t <= i < |h| && id in h[i]
    decreases |h| - t
  {
    if t >= |h| then {} else h[t] + TouchedAfter(h, t + 1)
  }

  lemma LastTouchMore(h: History, now: set<int>, id: int)
    ensures LastTouch(h + [now], id) == if id in now then |h| + 1 else LastTouch(h, id)
  {
    assert (h + [now])[..|h|] == h;
  }

  lemma TouchedIs(h: History, t: nat, id: int)
    ensures id in TouchedAfter(h, t) <==> LastTouch(h, id) > t
  {
    if LastTouch(h, id) > t {
      assert id in h[LastTouch(h, id) - 1];
    }
  }

  // ---------------------------------------------------------------- the two maps

  ghost predicate Resident(p: Pool, id: int) {
    0 <= id < |p.slotForId| && p.slotForId[id] != -1
  }

  ghost predicate IdOk(p: Pool, id: int)
    requires 0 <= id < |p.slotForId|
  {
    var s := p.slotForId[id];
    s == -1 || (0 <= s < |p.idOfSlot| && p.idOfSlot[s] == id)
  }

  ghost predicate SlotOk(p: Pool, s: int)
    requires 0 <= s < |p.idOfSlot|
  {
    var id := p.idOfSlot[s];
    id == -1 || (0 <= id < |p.slotForId| && p.slotForId[id] == s)
  }

  /** The two maps are inverse to each other. */
  ghost predicate InverseMaps(p: Pool) {
    && (forall id {:trigger IdOk(p, id)} :: 0 <= id < |p.slotForId| ==> IdOk(p, id))
    && (forall s {:trigger SlotOk(p, s)} :: 0 <= s < |p.idOfSlot| ==> SlotOk(p, s))
  }

  /** The slots say all there is to say: deriving `slotForId` from them again changes nothing. */
  lemma InverseUnique(p: Pool, slots: seq<int>)
    requires InverseMaps(p) && InverseMaps(p.(slotForId := slots)) && |slots| == |p.slotForId|
    ensures slots == p.slotForId
  {
    var q := p.(slotForId := slots);
    forall id | 0 <= id < |slots| ensures slots[id] == p.slotForId[id] {
      assert IdOk(p, id) && IdOk(q, id);
      if p.slotForId[id] != -1 {
        assert SlotOk(q, p.slotForId[id]);
      }
      if slots[id] != -1 {
        assert SlotOk(p, slots[id]);
      }
    }
  }

  ghost function Owned(ids: seq<int>, n: nat): set<int>
    requires n <= |ids|
  {
    set s | 0 <= s < n :: ids[s]
  }

  /** Full slots hold as many experts as there are slots. */
  lemma {:induction false} OwnedSize(p: Pool, n: nat)
    requires InverseMaps(p) && n <= |p.idOfSlot| && forall s :: 0 <= s < n ==> p.idOfSlot[s] != -1
    ensures |Owned(p.idOfSlot, n)| == n
  {
    if n > 0 {
      OwnedSize(p, n - 1);
      var id := p.idOfSlot[n - 1];
      assert SlotOk(p, n - 1);
      forall s | 0 <= s < n - 1 ensures p.idOfSlot[s] != id {
        assert SlotOk(p, s);
      }
      assert Owned(p.idOfSlot, n) == Owned(p.idOfSlot, n - 1) + {id};
    }
  }

  // ---------------------------------------------------------------- one step

  /** A slot carries the time of the last touch of its expert; an empty slot carries 0. */
  ghost predicate SlotTimed(p: Pool, h: History, done: set<int>, s: int)
    requires 0 <= s < |p.idOfSlot| == |p.usage|
  {
    var id := p.idOfSlot[s];
    if id == -1 then p.usage[s] == 0
    else p.usage[s] == (if id in done then |h| + 1 else LastTouch(h, id)) && p.usage[s] > 0
  }

  /** No slot is older than an expert that is not resident. */
  ghost predicate Outlived(p: Pool, h: History, id: int) {
    forall s :: 0 <= s < |p.usage| ==> p.usage[s] >= LastTouch(h, id)
  }

  /** In the step after `h`, which touches the ids `now`, the ids `done` have been placed and stamped. */
  ghost predicate Turn(p: Pool, h: History, now: set<int>, done: set<int>) {
    && InverseMaps(p) && |p.usage| == |p.idOfSlot|
    && (forall s {:trigger SlotTimed(p, h, done, s)} :: 0 <= s < |p.idOfSlot| ==> SlotTimed(p, h, done, s))
    && (forall id {:trigger Outlived(p, h, id)} :: !Resident(p, id) && id !in now ==> Outlived(p, h, id))
    && done <= now && (forall id :: id in now ==> 0 <= id < |p.slotForId|)
    && (forall id :: id in done ==> Resident(p, id))
  }

  /** The pool between two steps. */
  ghost predicate AtRest(p: Pool, h: History) {
    Turn(p, h, {}, {})
  }

  /** All experts of this step that are resident have been stamped. */
  ghost predicate Settled(p: Pool, now: set<int>, done: set<int>) {
    forall id :: id in now && Resident(p, id) ==> id in done
  }

  /** The choice of the source: least usage, and the least slot among equals. */
  ghost predicate IsVictim(usage: seq<int>, v: int) {
    0 <= v < |usage| && forall s :: 0 <= s < |usage| ==> usage[v] < usage[s] || (usage[v] == usage[s] && v <= s)
  }

  lemma OpenTurn(p: Pool, h: History, now: set<int>)
    requires AtRest(p, h) && forall id :: id in now ==> 0 <= id < |p.slotForId|
    ensures Turn(p, h, now, {})
  {}

  /** A hit keeps its slot and is stamped. */
  lemma StampHit(p: Pool, h: History, now: set<int>, done: set<int>, id: int)
    requires Turn(p, h, now, done) && id in now && Resident(p, id)
    ensures 0 <= p.slotForId[id] < |p.usage|
    ensures Turn(p.(usage := p.usage[p.slotForId[id] := |h| + 1]), h, now, done + {id})
  {
    assert IdOk(p, id);
    var v := p.slotForId[id];
    var p', done' := p.(usage := p.usage[v := |h| + 1]), done + {id};
    forall i | 0 <= i < |p'.slotForId| ensures IdOk(p', i) {
      assert IdOk(p, i);
    }
    forall s | 0 <= s < |p'.idOfSlot| ensures SlotOk(p', s) && SlotTimed(p', h, done', s) {
      assert SlotOk(p, s) && SlotTimed(p, h, done, s);
    }
    forall i | !Resident(p', i) && i !in now ensures Outlived(p', h, i) {
      assert !Resident(p, i) && Outlived(p, h, i);
    }
    assert forall i :: i in done' ==> Resident(p, i) && Resident(p', i);
  }

  /** As long as some expert of the step is missing, the oldest slot belongs to none of them. */
  lemma VictimElsewhere(p: Pool, h: History, now: set<int>, done: set<int>, v: int)
    requires Turn(p, h, now, done) && Settled(p, now, done) && |done| < |p.idOfSlot| && IsVictim(p.usage, v)
    ensures p.idOfSlot[v] !in now
  {
    assert SlotOk(p, v) && SlotTimed(p, h, done, v);
    if p.idOfSlot[v] in done {
      forall s | 0 <= s < |p.idOfSlot| ensures p.idOfSlot[s] != -1 && p.idOfSlot[s] in done {
        assert SlotTimed(p, h, done, s);
      }
      OwnedSize(p, |p.idOfSlot|);
      SubsetSize(Owned(p.idOfSlot, |p.idOfSlot|), done);
    }
    assert p.idOfSlot[v] in now ==> Resident(p, p.idOfSlot[v]);
  }

  /** The pool after the missing `id` took the slot `v`. */
  ghost function Placed(p: Pool, id: int, v: int, step: nat): Pool
    requires 0 <= v < |p.idOfSlot| == |p.usage| && 0 <= id < |p.slotForId| && p.idOfSlot[v] < |p.slotForId|
  {
    var slots := if p.idOfSlot[v] >= 0 then p.slotForId[p.idOfSlot[v] := -1] else p.slotForId;
    Pool(slots[id := v], p.idOfSlot[v := id], p.usage[v := step])
  }

  lemma PlacedInverse(p: Pool, id: int, v: int, step: nat)
    requires InverseMaps(p) && |p.usage| == |p.idOfSlot| && 0 <= v < |p.idOfSlot| && 0 <= id < |p.slotForId|
             && !Resident(p, id)
    ensures p.idOfSlot[v] < |p.slotForId| && InverseMaps(Placed(p, id, v, step))
    ensures forall i :: Resident(Placed(p, id, v, step), i) <==> i == id || (Resident(p, i) && i != p.idOfSlot[v])
  {
    assert SlotOk(p, v) && IdOk(p, id);
    var q := Placed(p, id, v, step);
    forall i | 0 <= i < |q.slotForId| ensures IdOk(q, i) {
      assert IdOk(p, i);
      assert p.slotForId[i] == v ==> p.idOfSlot[v] == i;
    }
    forall s | 0 <= s < |q.idOfSlot| ensures SlotOk(q, s) {
      assert SlotOk(p, s);
    }
  }

  /** A miss takes the oldest slot: the step goes on, and what is not resident is still outlived. */
  lemma PlaceMiss(p: Pool, h: History, now: set<int>, done: set<int>, id: int, v: int)
    requires Turn(p, h, now, done) && Settled(p, now, done) && |done| < |p.idOfSlot| && IsVictim(p.usage, v)
    requires id in now && !Resident(p, id)
    ensures 0 <= v < |p.idOfSlot| && p.idOfSlot[v] < |p.slotForId| && p.idOfSlot[v] !in now && id !in done
    ensures Turn(Placed(p, id, v, |h| + 1), h, now, done + {id}) && Settled(Placed(p, id, v, |h| + 1), now, done + {id})
    ensures forall i :: i in now && i != id ==> (Resident(Placed(p, id, v, |h| + 1), i) <==> Resident(p, i))
  {
    VictimElsewhere(p, h, now, done, v);
    PlacedInverse(p, id, v, |h| + 1);
    var q, done' := Placed(p, id, v, |h| + 1), done + {id};
    assert SlotTimed(p, h, done, v);
    forall s | 0 <= s < |q.idOfSlot| ensures SlotTimed(q, h, done', s) {
      assert SlotTimed(p, h, done, s) && SlotOk(p, s) && SlotOk(q, s);
    }
    forall i | !Resident(q, i) && i !in now ensures Outlived(q, h, i) {
      if Resident(p, i) {
        assert i == p.idOfSlot[v] && p.usage[v] == LastTouch(h, i);
      } else {
        assert Outlived(p, h, i);
      }
    }
  }

  /** A free slot, where there is one, is what the oldest slot would be anyway. */
  lemma FreeIsVictim(p: Pool, h: History, now: set<int>, done: set<int>, v: int)
    requires Turn(p, h, now, done) && 0 <= v < |p.idOfSlot| && p.idOfSlot[v] == -1
    requires forall s :: 0 <= s < v ==> p.idOfSlot[s] != -1
    ensures IsVictim(p.usage, v)
  {
    assert SlotTimed(p, h, done, v);
    forall s | 0 <= s < |p.usage| ensures p.usage[v] < p.usage[s] || (p.usage[v] == p.usage[s] && v <= s) {
      assert SlotTimed(p, h, done, s);
    }
  }

  /** When all of them are placed the step is over, and on record. */
  lemma CloseTurn(p: Pool, h: History, now: set<int>)
    requires Turn(p, h, now, now)
    ensures AtRest(p, h + [now])
  {
    var h' := h + [now];
    forall s | 0 <= s < |p.idOfSlot| ensures SlotTimed(p, h', {}, s) {
      assert SlotTimed(p, h, now, s);
      LastTouchMore(h, now, p.idOfSlot[s]);
    }
    forall id | !Resident(p, id) ensures Outlived(p, h', id) {
      LastTouchMore(h, now, id);
      assert id !in now;
      assert Outlived(p, h, id);
    }
  }

  // ---------------------------------------------------------------- least recently used, over whole runs

  lemma EmptyPool(ids: nat, slots: nat)
    ensures AtRest(Pool(seq(ids, i => -1), seq(slots, s => -1), seq(slots, s => 0)), [])
  {}

  /** Every resident expert was touched at least as recently as every one that is not resident, and no
      slot stands empty as long as an expert that was ever touched is not resident. */
  lemma ResidentsAreRecent(p: Pool, h: History, id: int, s: int)
    requires AtRest(p, h) && !Resident(p, id) && 0 <= s < |p.idOfSlot|
    ensures p.idOfSlot[s] != -1 ==> LastTouch(h, p.idOfSlot[s]) >= LastTouch(h, id)
    ensures LastTouch(h, id) > 0 ==> p.idOfSlot[s] != -1
  {
    assert Outlived(p, h, id) && SlotTimed(p, h, {}, s);
  }

  /** If the experts touched after step `t` are no more than the slots, all of them are resident. */
  lemma RecentAreResident(p: Pool, h: History, t: nat)
    requires AtRest(p, h) && |TouchedAfter(h, t)| <= |p.idOfSlot|
    ensures forall id :: id in TouchedAfter(h, t) ==> Resident(p, id)
  {
    forall id | id in TouchedAfter(h, t) ensures Resident(p, id) {
      TouchedIs(h, t, id);
      if !Resident(p, id) {
        forall s | 0 <= s < |p.idOfSlot| ensures p.idOfSlot[s] != -1 && p.idOfSlot[s] in TouchedAfter(h, t) - {id} {
          ResidentsAreRecent(p, h, id, s);
          TouchedIs(h, t, p.idOfSlot[s]);
          assert SlotOk(p, s);
        }
        OwnedSize(p, |p.idOfSlot|);
        SubsetSize(Owned(p.idOfSlot, |p.idOfSlot|), TouchedAfter(h, t) - {id});
      }
    }
  }

  // ---------------------------------------------------------------- the copy plan

  /** The staged pairs of a step that touches `now`: the slots that changed hands since `was`, each with
      the host row of its new expert. None of them held an expert of the step. */
  ghost predicate Plan(was: seq<int>, ids: seq<int>, evict: seq<int>, src: seq<int>, base: int, numExperts: nat,
                       now: set<int>) {
    && |evict| == |src| && |was| == |ids|
    && (forall i {:trigger evict[i]} :: 0 <= i < |evict| ==>
         0 <= evict[i] < |ids| && 0 <= src[i] < numExperts && ids[evict[i]] == base + src[i] && was[evict[i]] !in now)
    && (forall s {:trigger ids[s]} :: 0 <= s < |ids| && ids[s] != was[s] ==> s in evict)
  }

  lemma PlanNone(ids: seq<int>, base: int, numExperts: nat, now: set<int>)
    ensures Plan(ids, ids, [], [], base, numExperts, now)
  {}

  /** The slot taken next is none of the staged ones. */
  lemma PlanMore(was: seq<int>, ids: seq<int>, evict: seq<int>, src: seq<int>, base: int, numExperts: nat,
                 now: set<int>, v: int, e: int)
    requires Plan(was, ids, evict, src, base, numExperts, now) && 0 <= v < |ids| && ids[v] !in now
             && 0 <= e < numExperts
    requires forall i :: 0 <= i < |src| ==> base + src[i] in now
    ensures Plan(was, ids[v := base + e], evict + [v], src + [e], base, numExperts, now)
    ensures v !in evict
  {
    var ids', evict', src' := ids[v := base + e], evict + [v], src + [e];
    forall i | 0 <= i < |evict| ensures evict[i] != v {
      assert base + src[i] in now;
    }
    assert was[v] == ids[v];
    forall i | 0 <= i < |evict'|
      ensures 0 <= evict'[i] < |ids'| && 0 <= src'[i] < numExperts && ids'[evict'[i]] == base + src'[i]
              && was[evict'[i]] !in now
    {
      assert i < |evict| ==> evict'[i] == evict[i] && src'[i] == src[i];
    }
    forall s | 0 <= s < |ids'| && ids'[s] != was[s] ensures s in evict' {
      if s != v {
        assert ids[s] == ids'[s];
        assert s in evict;
      } else {
        assert evict'[|evict|] == v;
      }
    }
  }

  /** A hit keeps its slot through the whole step. */
  lemma HitStays(p: Pool, q: Pool, evict: seq<int>, src: seq<int>, base: int, numExperts: nat, now: set<int>, id: int)
    requires InverseMaps(p) && InverseMaps(q) && |q.slotForId| == |p.slotForId|
    requires Plan(p.idOfSlot, q.idOfSlot, evict, src, base, numExperts, now) && id in now && Resident(p, id)
    ensures q.slotForId[id] == p.slotForId[id]
  {
    assert IdOk(p, id);
    var s := p.slotForId[id];
    assert SlotOk(q, s);
    assert forall i :: 0 <= i < |evict| ==> evict[i] != s;
  }
}
