/** Streaming expert tensors into per-layer banks: each bank is packed as soon as its last part arrives.
    The quantized formats differ in their components and in how a complete bank is packed; both are
    parameters here. */
module BankStream {
  import opened Finite
  import opened Rosters

  datatype Proj = Gate | Up | Down
  datatype BankName = GateUp | DownOnly
  datatype BankKey = BankKey(layer: int, name: BankName)
  datatype Part = Part(expert: int, proj: Proj, component: nat)

  /** What the name of a tensor says; a name that is no expert key says nothing. */
  datatype Info = Info(layer: int, part: Part)
  datatype Item<T> = Item(info: Option<Info>, tensor: T)

  datatype Config = Config(numLayers: nat, numExperts: nat, components: nat)
  datatype StreamError =
    UnexpectedKey | UnexpectedLayer | UnexpectedExpert | AlreadyFinalized | DuplicateComponent | NotPacked | MissingBank
  datatype Result<B> = Ok(gateUp: seq<B>, down: seq<B>) | Err(error: StreamError)

  type Packer<!T, !B> = (BankKey, map<Part, T>) -> Option<B>

  function NameOf(p: Proj): BankName {
    if p == Down then DownOnly else GateUp
  }

  function KeyOf(i: Info): BankKey {
    BankKey(i.layer, NameOf(i.part.proj))
  }

  predicate HasExpert<T>(parts: map<Part, T>, e: int) {
    exists p | p in parts.Keys :: p.expert == e
  }

  /** The parts are those of the experts 0..numExperts - 1, and each of them has every projection of the
      bank with every component. */
  predicate IsComplete<T>(parts: map<Part, T>, name: BankName, c: Config) {
    && (forall p | p in parts.Keys :: 0 <= p.expert < c.numExperts)
    && (forall e | 0 <= e < c.numExperts :: HasExpert(parts, e))
    && forall e, k | 0 <= e < c.numExperts && 0 <= k < c.components ::
         if name == GateUp then Part(e, Gate, k) in parts && Part(e, Up, k) in parts else Part(e, Down, k) in parts
  }

  // ---------------------------------------------------------------- grouping everything first

  ghost predicate ItemOk<T>(x: Item<T>, c: Config) {
    && x.info.Some? && 0 <= x.info.value.layer < c.numLayers
    && 0 <= x.info.value.part.expert < c.numExperts && x.info.value.part.component < c.components
  }

  /** All parts of one bank, collected from the whole stream. */
  ghost function Collected<T>(items: seq<Item<T>>, k: BankKey): map<Part, T> {
    if items == [] then map[] else
      var x := items[|items| - 1];
      var c := Collected(items[..|items| - 1], k);
      if x.info.Some? && KeyOf(x.info.value) == k then c[x.info.value.part := x.tensor] else c
  }

  ghost predicate NoneTwice<T>(items: seq<Item<T>>) {
    forall i, j :: 0 <= i < j < |items| ==> items[i].info != items[j].info
  }

  ghost predicate BankIn(k: BankKey, c: Config) {
    0 <= k.layer < c.numLayers
  }

  /** A stream with no key out of range, none twice, none missing, and all banks packable. */
  ghost predicate Accepted<T, B>(items: seq<Item<T>>, c: Config, pack: Packer<T, B>) {
    && (forall i :: 0 <= i < |items| ==> ItemOk(items[i], c)) && NoneTwice(items)
    && forall k {:trigger BankIn(k, c)} :: BankIn(k, c) ==>
         Collected(items, k) != map[] && IsComplete(Collected(items, k), k.name, c)
           && pack(k, Collected(items, k)).Some?
  }

  // ---------------------------------------------------------------- packing as soon as possible

  /** What the streamer holds after the items `seen`: complete banks are packed and nothing of them is
      buffered; of the others exactly the parts seen so far are. */
  ghost predicate Streamed<T, B>(buf: map<BankKey, map<Part, T>>, done: map<BankKey, B>, seen: seq<Item<T>>, c: Config,
                                 pack: Packer<T, B>) {
    && (forall i :: 0 <= i < |seen| ==> ItemOk(seen[i], c)) && NoneTwice(seen)
    && (forall k {:trigger k in done} :: k in done <==>
         BankIn(k, c) && Collected(seen, k) != map[] && IsComplete(Collected(seen, k), k.name, c))
    && (forall k {:trigger k in done} :: k in done ==> pack(k, Collected(seen, k)) == Some(done[k]))
    && (forall k {:trigger k in buf} :: k in buf <==> Collected(seen, k) != map[] && k !in done)
    && (forall k {:trigger k in buf} :: k in buf ==> buf[k] == Collected(seen, k))
  }

  /** A part is collected exactly if an item brought it. */
  lemma {:induction false} CollectedHas<T>(items: seq<Item<T>>, k: BankKey, p: Part)
    requires NoneTwice(items)
    ensures p in Collected(items, k)
            <==> exists i :: 0 <= i < |items| && items[i].info == Some(Info(k.layer, p)) && NameOf(p.proj) == k.name
    ensures forall i :: 0 <= i < |items| && items[i].info == Some(Info(k.layer, p)) && NameOf(p.proj) == k.name ==>
              p in Collected(items, k) && Collected(items, k)[p] == items[i].tensor
  {
    if items != [] {
      var rest := items[..|items| - 1];
      CollectedHas(rest, k, p);
      assert forall i :: 0 <= i < |rest| ==> rest[i] == items[i];
      var x := items[|items| - 1];
      if p in Collected(items, k) && p in Collected(rest, k) {
        var i :| 0 <= i < |rest| && rest[i].info == Some(Info(k.layer, p)) && NameOf(p.proj) == k.name;
        assert items[i].info == Some(Info(k.layer, p));
      }
    }
  }

  lemma CollectedMore<T>(seen: seq<Item<T>>, x: Item<T>, k: BankKey)
    ensures Collected(seen + [x], k) ==
            if x.info.Some? && KeyOf(x.info.value) == k then Collected(seen, k)[x.info.value.part := x.tensor]
               else Collected(seen, k)
  {
    assert (seen + [x])[..|seen|] == seen;
  }

  /** A part of a complete bank cannot come again. */
  lemma CompleteHas<T>(parts: map<Part, T>, c: Config, i: Info)
    requires IsComplete(parts, NameOf(i.part.proj), c) && 0 <= i.part.expert < c.numExperts
             && i.part.component < c.components
    ensures i.part in parts
  {
    assert i.part == Part(i.part.expert, i.part.proj, i.part.component);
  }

  lemma Twice<T>(seen: seq<Item<T>>, x: Item<T>, i: Info)
    requires x.info == Some(i) && NoneTwice(seen) && i.part in Collected(seen, KeyOf(i))
    ensures !NoneTwice(seen + [x])
  {
    CollectedHas(seen, KeyOf(i), i.part);
    var j :| 0 <= j < |seen| && seen[j].info == Some(i);
    assert (seen + [x])[j].info == (seen + [x])[|seen|].info;
  }

  lemma NotTwice<T>(seen: seq<Item<T>>, x: Item<T>, i: Info)
    requires x.info == Some(i) && NoneTwice(seen) && i.part !in Collected(seen, KeyOf(i))
    ensures NoneTwice(seen + [x])
  {
    CollectedHas(seen, KeyOf(i), i.part);
  }

  /** A stream that began with `seen` cannot be accepted any more. */
  ghost predicate Doomed<T, B>(seen: seq<Item<T>>, c: Config, pack: Packer<T, B>) {
    || (exists i :: 0 <= i < |seen| && !ItemOk(seen[i], c)) || !NoneTwice(seen)
    || exists k {:trigger BankIn(k, c)} ::
         BankIn(k, c) && IsComplete(Collected(seen, k), k.name, c) && pack(k, Collected(seen, k)) == None
  }

  lemma {:induction false} CompleteStays<T>(seen: seq<Item<T>>, rest: seq<Item<T>>, k: BankKey, c: Config)
    requires NoneTwice(seen + rest) && forall i :: 0 <= i < |seen + rest| ==> ItemOk((seen + rest)[i], c)
    requires IsComplete(Collected(seen, k), k.name, c)
    ensures Collected(seen + rest, k) == Collected(seen, k)
  {
    if rest == [] {
      assert seen + rest == seen;
    } else {
      var x, init := rest[|rest| - 1], seen + rest[..|rest| - 1];
      assert seen + rest == init + [x] && (seen + rest)[|init|] == x;
      assert forall i :: 0 <= i < |init| ==> init[i] == (seen + rest)[i];
      CompleteStays(seen, rest[..|rest| - 1], k, c);
      CollectedMore(init, x, k);
      CompleteOnce(init, x, k, c);
    }
  }

  lemma CompleteOnce<T>(init: seq<Item<T>>, x: Item<T>, k: BankKey, c: Config)
    requires NoneTwice(init) && NoneTwice(init + [x]) && ItemOk(x, c) && IsComplete(Collected(init, k), k.name, c)
    ensures KeyOf(x.info.value) != k
  {
    if KeyOf(x.info.value) == k {
      CompleteHas(Collected(init, k), c, x.info.value);
      Twice(init, x, x.info.value);
    }
  }

  lemma DoomedStays<T, B>(seen: seq<Item<T>>, rest: seq<Item<T>>, c: Config, pack: Packer<T, B>)
    requires Doomed(seen, c, pack)
    ensures !Accepted(seen + rest, c, pack)
  {
    if Accepted(seen + rest, c, pack) {
      assert forall i :: 0 <= i < |seen| ==> seen[i] == (seen + rest)[i];
      var k :| BankIn(k, c) && IsComplete(Collected(seen, k), k.name, c) && pack(k, Collected(seen, k)) == None;
      CompleteStays(seen, rest, k, c);
    }
  }

  // ---------------------------------------------------------------- what is wrong with a stream

  /** Nothing is wrong with `seen` so far. */
  ghost predicate Clean<T, B>(seen: seq<Item<T>>, c: Config, pack: Packer<T, B>) {
    && (forall i :: 0 <= i < |seen| ==> ItemOk(seen[i], c)) && NoneTwice(seen)
    && forall k {:trigger BankIn(k, c)} :: BankIn(k, c) ==>
         Collected(seen, k) == map[] || !IsComplete(Collected(seen, k), k.name, c) || pack(k, Collected(seen, k)).Some?
  }

  /** What is wrong with the item that follows `seen`. */
  ghost predicate Fault<T, B>(seen: seq<Item<T>>, x: Item<T>, c: Config, pack: Packer<T, B>, e: StreamError) {
    match e
    case UnexpectedKey => x.info == None || x.info.value.part.component >= c.components
    case UnexpectedLayer => x.info.Some? && x.info.value.part.component < c.components
                            && !(0 <= x.info.value.layer < c.numLayers)
    case UnexpectedExpert => x.info.Some? && x.info.value.part.component < c.components
                             && 0 <= x.info.value.layer < c.numLayers
                             && !(0 <= x.info.value.part.expert < c.numExperts)
    case AlreadyFinalized => ItemOk(x, c)
      && IsComplete(Collected(seen, KeyOf(x.info.value)), KeyOf(x.info.value).name, c)
                             && x.info.value.part in Collected(seen, KeyOf(x.info.value))
    case DuplicateComponent =>
      ItemOk(x, c) && !IsComplete(Collected(seen, KeyOf(x.info.value)), KeyOf(x.info.value).name, c)
      && x.info.value.part in Collected(seen, KeyOf(x.info.value))
    case NotPacked => ItemOk(x, c) && x.info.value.part !in Collected(seen, KeyOf(x.info.value))
                      && var k := KeyOf(x.info.value);
                         IsComplete(Collected(seen + [x], k), k.name, c) && pack(k, Collected(seen + [x], k)) == None
    case MissingBank => false
  }

  /** The stream ends with a bank that lacks a part. */
  ghost predicate Lacks<T>(items: seq<Item<T>>, c: Config, k: BankKey) {
    BankIn(k, c) && (Collected(items, k) == map[] || !IsComplete(Collected(items, k), k.name, c))
  }

  lemma StreamedClean<T, B>(buf: map<BankKey, map<Part, T>>, done: map<BankKey, B>, seen: seq<Item<T>>, c: Config,
                            pack: Packer<T, B>)
    requires Streamed(buf, done, seen, c, pack)
    ensures Clean(seen, c, pack)
  {
    hide Collected, IsComplete, NoneTwice, ItemOk;
    forall k | BankIn(k, c) && Collected(seen, k) != map[] && IsComplete(Collected(seen, k), k.name, c)
      ensures pack(k, Collected(seen, k)).Some? {
      assert k in done;
    }
  }

  /** A faulty item makes every continuation unacceptable. */
  lemma FaultDooms<T, B>(seen: seq<Item<T>>, x: Item<T>, c: Config, pack: Packer<T, B>, e: StreamError)
    requires Clean(seen, c, pack) && Fault(seen, x, c, pack, e)
    ensures Doomed(seen + [x], c, pack)
  {
    assert (seen + [x])[|seen|] == x;
    if e == AlreadyFinalized || e == DuplicateComponent {
      Twice(seen, x, x.info.value);
    } else if e == NotPacked {
      assert BankIn(KeyOf(x.info.value), c);
    }
  }

  /** One item of the stream. */
  method StreamOne<T, B>(buf: map<BankKey, map<Part, T>>, done: map<BankKey, B>, x: Item<T>, c: Config,
                         pack: Packer<T, B>, ghost seen: seq<Item<T>>)
    returns (buf': map<BankKey, map<Part, T>>, done': map<BankKey, B>, error: Option<StreamError>)
    requires Streamed(buf, done, seen, c, pack)
    ensures error == None ==> Streamed(buf', done', seen + [x], c, pack)
    ensures error.Some? ==> Fault(seen, x, c, pack, error.value)
  {
    buf', done', error := buf, done, None;
    if x.info == None || x.info.value.part.component >= c.components {
      return buf, done, Some(UnexpectedKey);
    }
    var i := x.info.value;
    if !(0 <= i.layer < c.numLayers) {
      return buf, done, Some(UnexpectedLayer);
    }
    if !(0 <= i.part.expert < c.numExperts) {
      return buf, done, Some(UnexpectedExpert);
    }
    var key := KeyOf(i);
    if key in done {
      CompleteHas(Collected(seen, key), c, i);
      return buf, done, Some(AlreadyFinalized);
    }
    var parts := if key in buf then buf[key] else map[];
    ItemIn(x, i, c);
    PartsSoFar(buf, done, seen, c, pack, key);
    if i.part in parts {
      return buf, done, Some(DuplicateComponent);
    }
    parts := parts[i.part := x.tensor];
    buf' := buf[key := parts];
    NotTwice(seen, x, i);
    OneMore(seen, x, i, parts);
    if IsComplete(parts, key.name, c) {
      var bank := pack(key, parts);
      if bank == None {
        return buf', done, Some(NotPacked);
      }
      done', buf' := done[key := bank.value], buf' - {key};
    }
    hide *;
    StreamedMore(buf, done, seen, x, c, pack, key, parts, buf', done');
  }

  lemma PartsSoFar<T, B>(buf: map<BankKey, map<Part, T>>, done: map<BankKey, B>, seen: seq<Item<T>>, c: Config,
                         pack: Packer<T, B>, k: BankKey)
    requires Streamed(buf, done, seen, c, pack) && k !in done && BankIn(k, c)
    ensures (if k in buf then buf[k] else map[]) == Collected(seen, k)
    ensures Collected(seen, k) == map[] || !IsComplete(Collected(seen, k), k.name, c)
  {}

  lemma ItemIn<T>(x: Item<T>, i: Info, c: Config)
    requires x.info == Some(i) && i.part.component < c.components && 0 <= i.layer < c.numLayers
             && 0 <= i.part.expert < c.numExperts
    ensures ItemOk(x, c) && BankIn(KeyOf(i), c)
  {}

  lemma OneMore<T>(seen: seq<Item<T>>, x: Item<T>, i: Info, parts: map<Part, T>)
    requires x.info == Some(i) && parts == Collected(seen, KeyOf(i))[i.part := x.tensor]
    ensures parts != map[] && forall k :: Collected(seen + [x], k) == if k == KeyOf(i) then parts
            else Collected(seen, k)
  {
    assert i.part in parts;
    forall k ensures Collected(seen + [x], k) == if k == KeyOf(i) then parts else Collected(seen, k) {
      CollectedMore(seen, x, k);
    }
  }

  /** After one more part: its bank is buffered, or packed if it is complete. */
  lemma StreamedMore<T, B>(buf: map<BankKey, map<Part, T>>, done: map<BankKey, B>, seen: seq<Item<T>>, x: Item<T>,
                           c: Config, pack: Packer<T, B>, key: BankKey, parts: map<Part, T>,
                           buf': map<BankKey, map<Part, T>>, done': map<BankKey, B>)
    requires Streamed(buf, done, seen, c, pack) && ItemOk(x, c) && NoneTwice(seen + [x]) && BankIn(key, c)
             && key !in done && parts != map[]
    requires forall k :: Collected(seen + [x], k) == if k == key then parts else Collected(seen, k)
    requires if IsComplete(parts, key.name, c)
             then pack(key, parts).Some? && done' == done[key := pack(key, parts).value]
                  && buf' == buf[key := parts] - {key}
             else done' == done && buf' == buf[key := parts]
    ensures Streamed(buf', done', seen + [x], c, pack)
  {
    hide Collected, IsComplete, NoneTwice, ItemOk, BankIn;
  }

  /** Stream all items into banks. An error names the first thing that is wrong. */
  method StreamBanks<T, B>(items: seq<Item<T>>, c: Config, pack: Packer<T, B>) returns (r: Result<B>, ghost at: nat)
    ensures r.Ok? <==> Accepted(items, c, pack)
    ensures at <= |items| && Clean(items[..at], c, pack)
    ensures r.Err? ==> if at < |items| then Fault(items[..at], items[at], c, pack, r.error)
                       else r.error == MissingBank && exists k :: Lacks(items, c, k)
    ensures r.Ok? ==> |r.gateUp| == |r.down| == c.numLayers
    ensures r.Ok? ==> forall l :: 0 <= l < c.numLayers ==>
              && pack(BankKey(l, GateUp), Collected(items, BankKey(l, GateUp))) == Some(r.gateUp[l])
              && pack(BankKey(l, DownOnly), Collected(items, BankKey(l, DownOnly))) == Some(r.down[l])
  {
    var buf: map<BankKey, map<Part, T>>, done: map<BankKey, B> := map[], map[];
    for n := 0 to |items|
      invariant Streamed(buf, done, items[..n], c, pack)
    {
      var error;
      assert items[..n + 1] == items[..n] + [items[n]];
      StreamedClean(buf, done, items[..n], c, pack);
      buf, done, error := StreamOne(buf, done, items[n], c, pack, items[..n]);
      if error.Some? {
        FaultDooms(items[..n], items[n], c, pack, error.value);
        DoomedStays(items[..n + 1], items[n + 1..], c, pack);
        assert items[..n + 1] + items[n + 1..] == items;
        return Err(error.value), n;
      }
    }
    assert items[..|items|] == items;
    StreamedClean(buf, done, items, c, pack);
    r := Assemble(done, c);
    at := |items|;
    if r.Ok? {
      AllBanks(buf, done, items, c, pack);
      BanksAre(buf, done, items, c, pack);
    } else {
      NotAll(buf, done, items, c, pack);
    }
  }

  /** The two banks of every layer, in order. */
  method Assemble<B>(done: map<BankKey, B>, c: Config) returns (r: Result<B>)
    ensures r.Ok? <==> forall l :: 0 <= l < c.numLayers ==> BankKey(l, GateUp) in done && BankKey(l, DownOnly) in done
    ensures r.Ok? ==> |r.gateUp| == |r.down| == c.numLayers
    ensures r.Err? ==> r.error == MissingBank
    ensures r.Ok? ==> forall l :: 0 <= l < c.numLayers ==>
              && BankKey(l, GateUp) in done && done[BankKey(l, GateUp)] == r.gateUp[l]
              && BankKey(l, DownOnly) in done && done[BankKey(l, DownOnly)] == r.down[l]
  {
    var gateUp, down := [], [];
    for l := 0 to c.numLayers
      invariant |gateUp| == |down| == l
      invariant forall m :: 0 <= m < l ==> BankKey(m, GateUp) in done && done[BankKey(m, GateUp)] == gateUp[m]
      invariant forall m :: 0 <= m < l ==> BankKey(m, DownOnly) in done && done[BankKey(m, DownOnly)] == down[m]
    {
      if BankKey(l, GateUp) !in done || BankKey(l, DownOnly) !in done {
        return Err(MissingBank);
      }
      gateUp, down := gateUp + [done[BankKey(l, GateUp)]], down + [done[BankKey(l, DownOnly)]];
    }
    r := Ok(gateUp, down);
  }

  lemma BanksAre<T, B>(buf: map<BankKey, map<Part, T>>, done: map<BankKey, B>, items: seq<Item<T>>, c: Config,
                       pack: Packer<T, B>)
    requires Streamed(buf, done, items, c, pack)
    ensures forall k :: k in done ==> pack(k, Collected(items, k)) == Some(done[k])
  {}

  lemma NotAll<T, B>(buf: map<BankKey, map<Part, T>>, done: map<BankKey, B>, items: seq<Item<T>>, c: Config,
                     pack: Packer<T, B>)
    requires Streamed(buf, done, items, c, pack)
    requires !(forall l :: 0 <= l < c.numLayers ==> BankKey(l, GateUp) in done && BankKey(l, DownOnly) in done)
    ensures !Accepted(items, c, pack) && exists k :: Lacks(items, c, k)
  {
    var l :| 0 <= l < c.numLayers && !(BankKey(l, GateUp) in done && BankKey(l, DownOnly) in done);
    var k := if BankKey(l, GateUp) in done then BankKey(l, DownOnly) else BankKey(l, GateUp);
    assert BankIn(k, c);
    assert Lacks(items, c, k);
  }

  lemma AllBanks<T, B>(buf: map<BankKey, map<Part, T>>, done: map<BankKey, B>, items: seq<Item<T>>, c: Config,
                       pack: Packer<T, B>)
    requires Streamed(buf, done, items, c, pack)
    requires forall l :: 0 <= l < c.numLayers ==> BankKey(l, GateUp) in done && BankKey(l, DownOnly) in done
    ensures Accepted(items, c, pack)
  {
    hide *;
    StreamedItems(buf, done, items, c, pack);
    forall k | BankIn(k, c)
      ensures Collected(items, k) != map[] && IsComplete(Collected(items, k), k.name, c)
              && pack(k, Collected(items, k)).Some?
    {
      InBoth(done, c, k);
      StreamedBank(buf, done, items, c, pack, k);
    }
    IsAccepted(items, c, pack);
  }

  lemma InBoth<B>(done: map<BankKey, B>, c: Config, k: BankKey)
    requires BankIn(k, c) && forall l :: 0 <= l < c.numLayers ==>
               BankKey(l, GateUp) in done && BankKey(l, DownOnly) in done
    ensures k in done
  {
    match k
    case BankKey(l, GateUp) =>
    case BankKey(l, DownOnly) =>
  }

  lemma IsAccepted<T, B>(items: seq<Item<T>>, c: Config, pack: Packer<T, B>)
    requires (forall i :: 0 <= i < |items| ==> ItemOk(items[i], c)) && NoneTwice(items)
    requires forall k {:trigger BankIn(k, c)} :: BankIn(k, c) ==>
               Collected(items, k) != map[] && IsComplete(Collected(items, k), k.name, c)
                 && pack(k, Collected(items, k)).Some?
    ensures Accepted(items, c, pack)
  {}

  lemma StreamedItems<T, B>(buf: map<BankKey, map<Part, T>>, done: map<BankKey, B>, items: seq<Item<T>>, c: Config,
                            pack: Packer<T, B>)
    requires Streamed(buf, done, items, c, pack)
    ensures (forall i :: 0 <= i < |items| ==> ItemOk(items[i], c)) && NoneTwice(items)
  {}

  lemma StreamedBank<T, B>(buf: map<BankKey, map<Part, T>>, done: map<BankKey, B>, items: seq<Item<T>>, c: Config,
                           pack: Packer<T, B>, k: BankKey)
    requires Streamed(buf, done, items, c, pack) && k in done
    ensures Collected(items, k) != map[] && IsComplete(Collected(items, k), k.name, c)
            && pack(k, Collected(items, k)) == Some(done[k])
  {}

  /** Nothing complete waits in the buffer, and nothing that is packed already. */
  lemma BufferIsLean<T, B>(buf: map<BankKey, map<Part, T>>, done: map<BankKey, B>, seen: seq<Item<T>>, c: Config,
                           pack: Packer<T, B>, k: BankKey)
    requires Streamed(buf, done, seen, c, pack) && k in buf
    ensures k !in done && BankIn(k, c) && !IsComplete(buf[k], k.name, c)
  {
    var p := Pick(Collected(seen, k).Keys);
    CollectedHas(seen, k, p);
  }

  // ---------------------------------------------------------------- any order will do

  lemma CollectedFrom<T>(a: seq<Item<T>>, b: seq<Item<T>>, k: BankKey, p: Part)
    requires NoneTwice(a) && NoneTwice(b) && forall x :: x in a <==> x in b
    ensures p in Collected(a, k) ==> p in Collected(b, k) && Collected(b, k)[p] == Collected(a, k)[p]
  {
    CollectedHas(a, k, p);
    CollectedHas(b, k, p);
    if p in Collected(a, k) {
      var i :| 0 <= i < |a| && a[i].info == Some(Info(k.layer, p)) && NameOf(p.proj) == k.name;
      assert a[i] in b;
      var j :| 0 <= j < |b| && b[j] == a[i];
      assert b[j].info == Some(Info(k.layer, p));
    }
  }

  lemma PermutedOnce<T>(a: seq<Item<T>>, b: seq<Item<T>>)
    requires NoneTwice(a) && multiset(a) == multiset(b)
    ensures NoneTwice(b) && forall x :: x in a <==> x in b
  {
    forall x ensures x in a <==> x in b {
      assert x in multiset(a) <==> x in a;
      assert x in multiset(b) <==> x in b;
    }
    DistinctOnce(a);
    DistinctOnce(b);
    forall i, j | 0 <= i < j < |b| ensures b[i].info != b[j].info {
      assert b[i] in a && b[j] in a;
      var i' :| 0 <= i' < |a| && a[i'] == b[i];
      var j' :| 0 <= j' < |a| && a[j'] == b[j];
    }
  }

  /** Every order of an accepted stream is accepted and yields the same banks. */
  lemma AnyOrder<T, B>(a: seq<Item<T>>, b: seq<Item<T>>, c: Config, pack: Packer<T, B>)
    requires Accepted(a, c, pack) && multiset(a) == multiset(b)
    ensures Accepted(b, c, pack) && forall k :: Collected(b, k) == Collected(a, k)
  {
    PermutedOnce(a, b);
    forall k ensures Collected(b, k) == Collected(a, k) {
      forall p ensures p in Collected(a, k) <==> p in Collected(b, k)
               ensures p in Collected(a, k) ==> Collected(b, k)[p] == Collected(a, k)[p] {
        CollectedFrom(a, b, k, p);
        CollectedFrom(b, a, k, p);
      }
    }
    forall i | 0 <= i < |b| ensures ItemOk(b[i], c) {
      assert b[i] in a;
    }
  }
}
