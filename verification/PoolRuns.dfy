/** Whole runs of the expert pool: placements with their copies, rebuilds, resets, in any order and number. */
module PoolRuns {
  import opened Finite
  import opened Sorting
  import opened ExpertPool
  import opened OffloadCache

  /** What the engine does with the pool; each placement is followed by its copy. */
  datatype PoolEvent = Materialize(layer: int) | Ensure(layer: int, experts: seq<int>) | Rebuild(size: nat) | Reset

  ghost predicate Proper(e: PoolEvent, numLayers: nat, numExperts: nat) {
    e.Ensure? ==> 0 <= e.layer < numLayers && forall x :: x in e.experts ==> 0 <= x < numExperts
  }

  /** The pool is in order and no copy is due. */
  ghost predicate Ready(c: OffloadMoeCache)
    reads c, c.slotForId, c.idOfSlot, c.usage, c.evictSlots, c.srcIndices, Caches(c.banks)
  {
    c.Valid() && c.Coherent() && c.pendingSrcLayer == None && c.banks != []
  }

  lemma ReadyFacts(c: OffloadMoeCache)
    requires Ready(c)
    ensures c.Valid() && c.Coherent() && c.pendingSrcLayer == None && c.banks != []
    ensures AllLoaded(c.banks, c.idOfSlot[..], c.numExperts, [])
  {}

  lemma IsReady(c: OffloadMoeCache)
    requires c.Valid() && c.Coherent() && c.pendingSrcLayer == None && c.banks != []
    ensures Ready(c)
  {}

  /** The size of the pool, and the experts touched in each step since it was last emptied. */
  datatype Record = Record(size: nat, history: History)

  /** What an event adds to the record of a pool with banks: a placement touches its experts once, unless it
      is refused; a rebuild that is large enough and a reset start over. */
  ghost function Recorded(r: Record, e: PoolEvent, numLayers: nat, numExperts: nat): Record {
    match e
    case Materialize(layer) =>
      if 0 <= layer < numLayers then r.(history := r.history + [Flats(layer * numExperts, Range(0, numExperts))]) else r
    case Ensure(layer, experts) =>
      if r.size >= 2 then r.(history := r.history + [Flats(layer * numExperts, experts)]) else r
    case Rebuild(size) => if size >= numExperts then Record(size, []) else r
    case Reset => r.(history := [])
  }

  ghost function RecordedAll(r: Record, events: seq<PoolEvent>, numLayers: nat, numExperts: nat): Record {
    if events == [] then r else
      var n := |events| - 1;
      Recorded(RecordedAll(r, events[..n], numLayers, numExperts), events[n], numLayers, numExperts)
  }

  ghost function RecordOf(c: OffloadMoeCache): Record
    reads c
  {
    Record(c.cacheSize, c.history)
  }

  lemma RecordIs(c: OffloadMoeCache)
    ensures RecordOf(c) == Record(c.cacheSize, c.history)
  {}

  lemma PlacedHistory(c: OffloadMoeCache, p: Pool, h: History, layer: nat, es: seq<int>)
    requires c.Wired() && c.Placement(p, h, layer, es)
    ensures c.history == h + [Flats(layer * c.numExperts, es)]
  {}

  lemma SameFlats(base: int, seen: seq<int>, experts: seq<int>)
    requires forall e :: e in seen <==> e in experts
    ensures Flats(base, seen) == Flats(base, experts)
  {}

  lemma RecordedIs(r: Record, e: PoolEvent, numLayers: nat, numExperts: nat)
    ensures e.Materialize? ==>
              Recorded(r, e, numLayers, numExperts) ==
              if 0 <= e.layer < numLayers
              then Record(r.size, r.history + [Flats(e.layer * numExperts, Range(0, numExperts))]) else r
    ensures e.Ensure? ==>
              Recorded(r, e, numLayers, numExperts) ==
              if r.size >= 2 then Record(r.size, r.history + [Flats(e.layer * numExperts, e.experts)]) else r
    ensures e.Rebuild? ==> Recorded(r, e, numLayers, numExperts) == if e.size >= numExperts then Record(e.size, [])
            else r
    ensures e.Reset? ==> Recorded(r, e, numLayers, numExperts) == Record(r.size, [])
  {}

  method ServeEvent(c: OffloadMoeCache, e: PoolEvent)
    requires Ready(c) && Proper(e, c.numLayers, c.numExperts)
    modifies c, c.slotForId, c.idOfSlot, c.usage, c.evictSlots, c.srcIndices, Caches(c.banks)
    ensures Ready(c) && c.slotForId == old(c.slotForId)
    ensures c.idOfSlot == old(c.idOfSlot) || fresh(c.idOfSlot)
    ensures c.usage == old(c.usage) || fresh(c.usage)
    ensures c.evictSlots == old(c.evictSlots) || fresh(c.evictSlots)
    ensures c.srcIndices == old(c.srcIndices) || fresh(c.srcIndices)
    ensures c.banks == old(c.banks) || fresh(Caches(c.banks))
    ensures RecordOf(c) == Recorded(old(RecordOf(c)), e, c.numLayers, c.numExperts)
  {
    hide *;
    ReadyFacts(c);
    ghost var p, h := c.State(), c.history;
    RecordIs(c);
    RecordedIs(RecordOf(c), e, c.numLayers, c.numExperts);
    match e {
      case Materialize(layer) =>
        var placed := c.MaterializeLayer(layer);
        if placed {
          c.WiredFacts();
          PlacedHistory(c, p, h, layer, Range(0, c.numExperts));
        }
        var copied := c.CopyMissing();
      case Ensure(layer, experts) =>
        ProperIs(e, c.numLayers, c.numExperts);
        var placed;
        ghost var seen;
        placed, seen := c.EnsureExperts(layer, experts);
        if placed {
          c.WiredFacts();
          PlacedHistory(c, p, h, layer, seen);
          SameFlats(layer * c.numExperts, seen, experts);
        }
        var copied := c.CopyMissing();
      case Rebuild(size) =>
        ghost var was := c.banks;
        var rebuilt := c.Rebuild(size);
        if rebuilt {
          HostsSize(c.banks, was);
        }
      case Reset =>
        c.Reset();
    }
    IsReady(c);
    RecordIs(c);
  }

  lemma ProperIs(e: PoolEvent, numLayers: nat, numExperts: nat)
    requires Proper(e, numLayers, numExperts) && e.Ensure?
    ensures 0 <= e.layer < numLayers && forall x :: x in e.experts ==> 0 <= x < numExperts
  {}

  lemma HostsSize(banks: seq<Bank>, was: seq<Bank>)
    requires SameHosts(banks, was)
    ensures |banks| == |was|
  {}

  lemma ReadyPool(c: OffloadMoeCache)
    requires Ready(c)
    ensures AtRest(c.State(), c.history)
  {}

  lemma RecordedMore(r: Record, events: seq<PoolEvent>, n: nat, numLayers: nat, numExperts: nat)
    requires n < |events|
    ensures RecordedAll(r, events[..n + 1], numLayers, numExperts)
            == Recorded(RecordedAll(r, events[..n], numLayers, numExperts), events[n], numLayers, numExperts)
    ensures RecordedAll(r, [], numLayers, numExperts) == r && events[..|events|] == events && events[..0] == []
  {
    assert events[..n + 1][..n] == events[..n];
  }

  lemma RecordedNone(r: Record, events: seq<PoolEvent>, numLayers: nat, numExperts: nat)
    ensures RecordedAll(r, events[..0], numLayers, numExperts) == r && events[..|events|] == events
  {}

  /** Serve any sequence of events: after each of them the slots and their inverse map agree, and every
      expert in a slot is the one its host bank holds, in every bank. The pool has the size the events gave
      it, and it is the pool that keeps the experts touched last, of all that these events touched. */
  method ServePool(c: OffloadMoeCache, events: seq<PoolEvent>)
    requires Ready(c) && forall i :: 0 <= i < |events| ==> Proper(events[i], c.numLayers, c.numExperts)
    modifies c, c.slotForId, c.idOfSlot, c.usage, c.evictSlots, c.srcIndices, Caches(c.banks)
    ensures Ready(c) && AllLoaded(c.banks, c.idOfSlot[..], c.numExperts, [])
    ensures RecordOf(c) == RecordedAll(old(RecordOf(c)), events, c.numLayers, c.numExperts)
            && AtRest(c.State(), RecordOf(c).history)
  {
    hide *;
    ghost var slots, usage, evict, src, banks := c.idOfSlot, c.usage, c.evictSlots, c.srcIndices, c.banks;
    ghost var r := RecordOf(c);
    RecordedNone(r, events, c.numLayers, c.numExperts);
    for i := 0 to |events|
      invariant RecordOf(c) == RecordedAll(r, events[..i], c.numLayers, c.numExperts)
      invariant Ready(c) && c.slotForId == old(c.slotForId)
      invariant (c.idOfSlot == slots || fresh(c.idOfSlot)) && (c.usage == usage || fresh(c.usage))
      invariant (c.evictSlots == evict || fresh(c.evictSlots)) && (c.srcIndices == src || fresh(c.srcIndices))
      invariant c.banks == banks || fresh(Caches(c.banks))
    {
      RecordedMore(r, events, i, c.numLayers, c.numExperts);
      ServeEvent(c, events[i]);
    }
    ReadyFacts(c);
    ReadyPool(c);
    RecordIs(c);
  }
}
