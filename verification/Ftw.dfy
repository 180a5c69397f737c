/** The FTW archive: one flat blob of tensor bytes, and an index that says where each tensor lies. */
module Ftw {
  import opened Finite

  const ALIGNMENT := 8

  type Bytes = seq<bv8>

  /** A tensor: its type, its shape, and its raw storage. */
  datatype Tensor = Tensor(dtype: string, shape: seq<nat>, raw: Bytes)
  datatype Named = Named(name: string, tensor: Tensor)
  datatype Entry = Entry(name: string, dtype: string, shape: seq<nat>, offset: nat, nbytes: nat)

  function Zeros(n: nat): (b: Bytes)
    ensures |b| == n
  {
    seq(n, i => 0)
  }

  /** The bytes up to the next multiple of the alignment. */
  function Padding(offset: nat): (pad: nat)
    ensures pad < ALIGNMENT && (offset + pad) % ALIGNMENT == 0
  {
    (0 - offset) % ALIGNMENT
  }

  /** Setting a key of an insertion-ordered dictionary: a key that is there keeps its place. */
  function SetEntry(index: seq<Entry>, e: Entry): seq<Entry> {
    if index == [] then [e]
    else if index[0].name == e.name then [e] + index[1..]
    else [index[0]] + SetEntry(index[1..], e)
  }

  // ---------------------------------------------------------------- what an archive stands for

  /** The same for the tensors themselves: what a dictionary holds after `items` were put in. */
  ghost function SetTensor(d: seq<Named>, x: Named): seq<Named> {
    if d == [] then [x]
    else if d[0].name == x.name then [x] + d[1..]
    else [d[0]] + SetTensor(d[1..], x)
  }

  ghost function AsDict(items: seq<Named>): seq<Named> {
    if items == [] then [] else SetTensor(AsDict(items[..|items| - 1]), items[|items| - 1])
  }

  ghost predicate Inside(e: Entry, blob: Bytes) {
    e.offset + e.nbytes <= |blob| && e.offset % ALIGNMENT == 0
  }

  ghost predicate AllInside(index: seq<Entry>, blob: Bytes) {
    forall i :: 0 <= i < |index| ==> Inside(index[i], blob)
  }

  /** The regions of two entries do not overlap. */
  ghost predicate Apart(a: Entry, b: Entry) {
    a.offset + a.nbytes <= b.offset || b.offset + b.nbytes <= a.offset
  }

  ghost predicate AllApart(index: seq<Entry>) {
    forall i, j :: 0 <= i < j < |index| ==> Apart(index[i], index[j])
  }

  /** The regions follow each other in index order. */
  ghost predicate InOrder(index: seq<Entry>) {
    forall i, j :: 0 <= i < j < |index| ==> index[i].offset + index[i].nbytes <= index[j].offset
  }

  function Slice(e: Entry, blob: Bytes): Named
    requires e.offset + e.nbytes <= |blob|
  {
    Named(e.name, Tensor(e.dtype, e.shape, blob[e.offset..e.offset + e.nbytes]))
  }

  ghost function Slices(index: seq<Entry>, blob: Bytes): seq<Named>
    requires AllInside(index, blob)
  {
    seq(|index|, i requires 0 <= i < |index| => Slice(index[i], blob))
  }

  ghost function TotalBytes(items: seq<Named>): nat {
    if items == [] then 0 else TotalBytes(items[..|items| - 1]) + |items[|items| - 1].tensor.raw|
  }

  ghost predicate NamesDiffer(items: seq<Named>) {
    forall i, j :: 0 <= i < j < |items| ==> items[i].name != items[j].name
  }

  // ---------------------------------------------------------------- one tensor more

  lemma {:induction false} SetInside(index: seq<Entry>, blob: Bytes, more: Bytes, e: Entry)
    requires AllInside(index, blob) && Inside(e, blob + more)
    ensures AllInside(SetEntry(index, e), blob + more)
  {
    if index != [] {
      assert AllInside(index[1..], blob) && Inside(index[0], blob);
      SetInside(index[1..], blob, more, e);
    }
  }

  /** The new entry lies past all others. */
  lemma {:induction false} SetApart(index: seq<Entry>, blob: Bytes, e: Entry)
    requires AllInside(index, blob) && AllApart(index) && e.offset >= |blob|
    ensures AllApart(SetEntry(index, e))
    ensures forall x :: x in SetEntry(index, e) ==> x == e || x in index
  {
    if index != [] {
      var rest := index[1..];
      assert AllInside(rest, blob) && AllApart(rest);
      SetApart(rest, blob, e);
      var index' := SetEntry(index, e);
      forall i | 0 < i < |index'| ensures Apart(index'[0], index'[i]) {
        assert index'[i] in index'[1..];
        if index'[i] != e {
          var k :| 0 <= k < |rest| && rest[k] == index'[i];
          assert rest[k] == index[k + 1] && Inside(index[k + 1], blob) && Apart(index[0], index[k + 1]);
        } else {
          assert Inside(index[0], blob);
        }
      }
      assert forall i :: 0 < i < |index'| ==> index'[i] == index'[1..][i - 1];
    }
  }

  lemma SlicesCons(x: Entry, rest: seq<Entry>, blob: Bytes)
    requires Inside(x, blob) && AllInside(rest, blob)
    ensures AllInside([x] + rest, blob) && Slices([x] + rest, blob) == [Slice(x, blob)] + Slices(rest, blob)
  {}

  lemma SlicesGrown(index: seq<Entry>, blob: Bytes, more: Bytes)
    requires AllInside(index, blob)
    ensures AllInside(index, blob + more) && Slices(index, blob + more) == Slices(index, blob)
  {
    forall i | 0 <= i < |index|
      ensures Inside(index[i], blob + more) && Slice(index[i], blob + more) == Slice(index[i], blob) {
      assert Inside(index[i], blob);
    }
  }

  lemma InsideParts(x: Entry, rest: seq<Entry>, blob: Bytes)
    requires AllInside([x] + rest, blob)
    ensures Inside(x, blob) && AllInside(rest, blob)
  {
    assert ([x] + rest)[0] == x && forall i :: 0 <= i < |rest| ==> rest[i] == ([x] + rest)[i + 1];
  }

  lemma SetEntryIs(x: Entry, rest: seq<Entry>, e: Entry)
    ensures SetEntry([x] + rest, e) == if x.name == e.name then [e] + rest else [x] + SetEntry(rest, e)
  {
    assert ([x] + rest)[1..] == rest;
  }

  lemma SetTensorIs(x: Named, rest: seq<Named>, e: Named)
    ensures SetTensor([x] + rest, e) == if x.name == e.name then [e] + rest else [x] + SetTensor(rest, e)
  {
    assert ([x] + rest)[1..] == rest;
  }

  /** Reading after one more tensor was written gives the dictionary with that tensor set. */
  lemma {:induction false} SetSlices(index: seq<Entry>, blob: Bytes, more: Bytes, e: Entry)
    requires AllInside(index, blob) && Inside(e, blob + more)
    ensures AllInside(SetEntry(index, e), blob + more)
    ensures Slices(SetEntry(index, e), blob + more) == SetTensor(Slices(index, blob), Slice(e, blob + more))
  {
    SetInside(index, blob, more, e);
    if index != [] {
      var x, rest := index[0], index[1..];
      assert index == [x] + rest;
      InsideParts(x, rest, blob);
      SlicesGrown(index, blob, more);
      InsideParts(x, rest, blob + more);
      SetSlices(rest, blob, more, e);
      SlicesCons(x, rest, blob);
      SlicesGrown([x], blob, more);
      SlicesGrown(rest, blob, more);
      SetEntryIs(x, rest, e);
      SetTensorIs(Slice(x, blob), Slices(rest, blob), Slice(e, blob + more));
      SlicesCons(e, rest, blob + more);
      SlicesCons(x, SetEntry(rest, e), blob + more);
      assert Slices([x], blob)[0] == Slices([x], blob + more)[0];
      hide Slices, SetEntry, SetTensor, AllInside, Inside;
    }
  }

  lemma {:induction false} SetNew(d: seq<Named>, x: Named)
    requires forall i :: 0 <= i < |d| ==> d[i].name != x.name
    ensures SetTensor(d, x) == d + [x]
  {
    if d != [] {
      assert forall i :: 0 <= i < |d[1..]| ==> d[1..][i] == d[i + 1];
      SetNew(d[1..], x);
    }
  }

  /** Tensors of different names are a dictionary as they stand. */
  lemma {:induction false} DistinctAsDict(items: seq<Named>)
    requires NamesDiffer(items)
    ensures AsDict(items) == items
  {
    if items != [] {
      var rest := items[..|items| - 1];
      assert forall i :: 0 <= i < |rest| ==> rest[i] == items[i];
      DistinctAsDict(rest);
      SetNew(rest, items[|items| - 1]);
      assert items == rest + [items[|items| - 1]];
    }
  }

  lemma TotalMore(items: seq<Named>, n: nat)
    requires n < |items|
    ensures TotalBytes(items[..n + 1]) == TotalBytes(items[..n]) + |items[n].tensor.raw|
    ensures AsDict(items[..n + 1]) == SetTensor(AsDict(items[..n]), items[n])
  {
    assert items[..n + 1][..n] == items[..n];
  }

  /** The state of a write: index and blob stand for the items written so far. */
  ghost predicate Written(index: seq<Entry>, blob: Bytes, items: seq<Named>) {
    && AllInside(index, blob) && AllApart(index) && Slices(index, blob) == AsDict(items)
    && TotalBytes(items) <= |blob| <= TotalBytes(items) + (ALIGNMENT - 1) * |items|
    && (TotalBytes(items) == 0 ==> blob == [])
    && (NamesDiffer(items) ==> InOrder(index))
  }

  lemma {:induction false} SetNewEntry(index: seq<Entry>, e: Entry)
    requires forall i :: 0 <= i < |index| ==> index[i].name != e.name
    ensures SetEntry(index, e) == index + [e]
  {
    if index != [] {
      assert forall i :: 0 <= i < |index[1..]| ==> index[1..][i] == index[i + 1];
      SetNewEntry(index[1..], e);
    }
  }

  lemma StaysInOrder(index: seq<Entry>, blob: Bytes, items: seq<Named>, x: Named, e: Entry)
    requires AllInside(index, blob) && Slices(index, blob) == AsDict(items) && (NamesDiffer(items) ==> InOrder(index))
    requires NamesDiffer(items + [x]) && e.name == x.name && e.offset >= |blob|
    ensures InOrder(SetEntry(index, e))
  {
    forall i | 0 <= i < |items| ensures items[i] == (items + [x])[i] && items[i].name != x.name {
      assert (items + [x])[|items|] == x;
    }
    DistinctAsDict(items);
    forall i | 0 <= i < |index| ensures index[i].name != e.name && index[i].offset + index[i].nbytes <= e.offset {
      assert Slices(index, blob)[i].name == index[i].name && Inside(index[i], blob);
    }
    SetNewEntry(index, e);
  }

  lemma WrittenFacts(index: seq<Entry>, blob: Bytes, items: seq<Named>)
    requires Written(index, blob, items)
    ensures AllInside(index, blob) && AllApart(index) && Slices(index, blob) == AsDict(items)
    ensures TotalBytes(items) <= |blob| <= TotalBytes(items) + (ALIGNMENT - 1) * |items|
    ensures (TotalBytes(items) == 0 ==> blob == []) && (NamesDiffer(items) ==> InOrder(index))
  {}

  lemma IsWritten(index: seq<Entry>, blob: Bytes, items: seq<Named>)
    requires AllInside(index, blob) && AllApart(index) && Slices(index, blob) == AsDict(items)
    requires TotalBytes(items) <= |blob| <= TotalBytes(items) + (ALIGNMENT - 1) * |items|
    requires (TotalBytes(items) == 0 ==> blob == []) && (NamesDiffer(items) ==> InOrder(index))
    ensures Written(index, blob, items)
  {}

  /** The entry of a tensor leads back to it. */
  lemma EntryLeadsBack(blob: Bytes, pad: Bytes, x: Named, e: Entry)
    requires |pad| == Padding(|blob|)
    requires e == Entry(x.name, x.tensor.dtype, x.tensor.shape, |blob| + |pad|, |x.tensor.raw|)
    ensures Inside(e, blob + (pad + x.tensor.raw)) && Slice(e, blob + (pad + x.tensor.raw)) == x
    ensures |pad| < ALIGNMENT && (blob == [] ==> pad == [])
  {
    assert blob + (pad + x.tensor.raw) == blob + pad + x.tensor.raw;
  }

  lemma NamesDifferLess(items: seq<Named>, n: nat)
    requires n < |items| && NamesDiffer(items[..n + 1])
    ensures NamesDiffer(items[..n] + [items[n]])
  {
    assert items[..n + 1] == items[..n] + [items[n]];
  }

  lemma WriteStep(index: seq<Entry>, blob: Bytes, items: seq<Named>, n: nat, e: Entry, pad: Bytes)
    requires n < |items| && Written(index, blob, items[..n]) && |pad| == Padding(|blob|)
    requires e == Entry(items[n].name, items[n].tensor.dtype, items[n].tensor.shape, |blob| + |pad|,
                        |items[n].tensor.raw|)
    ensures Written(SetEntry(index, e), blob + pad + items[n].tensor.raw, items[..n + 1])
  {
    hide *;
    var raw := items[n].tensor.raw;
    WrittenFacts(index, blob, items[..n]);
    TotalMore(items, n);
    EntryLeadsBack(blob, pad, items[n], e);
    assert blob + pad + raw == blob + (pad + raw);
    SetSlices(index, blob, pad + raw, e);
    SetApart(index, blob, e);
    if NamesDiffer(items[..n + 1]) {
      NamesDifferLess(items, n);
      StaysInOrder(index, blob, items[..n], items[n], e);
    }
    IsWritten(SetEntry(index, e), blob + pad + raw, items[..n + 1]);
  }

  /** The archive directory: the index file and the blob file. */
  class FtwArchive {
    var index: seq<Entry>
    var blob: Bytes

    /** Write all tensors, replacing what the archive held. */
    method Write(items: seq<Named>)
      modifies this
      ensures Written(index, blob, items)
    {
      index, blob := [], [];
      for n := 0 to |items|
        invariant Written(index, blob, items[..n])
      {
        var pad := Zeros(Padding(|blob|));
        var e := Entry(items[n].name, items[n].tensor.dtype, items[n].tensor.shape, |blob| + |pad|,
                       |items[n].tensor.raw|);
        WriteStep(index, blob, items, n, e, pad);
        index, blob := SetEntry(index, e), blob + pad + items[n].tensor.raw;
      }
      assert items[..|items|] == items;
    }

    /** Read all tensors in index order. An empty blob cannot be mapped. */
    method Read() returns (tensors: Option<seq<Named>>)
      requires AllInside(index, blob)
      ensures tensors == if blob == [] then None else Some(Slices(index, blob))
    {
      if blob == [] {
        return None;
      }
      var out: seq<Named> := [];
      for i := 0 to |index|
        invariant |out| == i && forall j :: 0 <= j < i ==> Inside(index[j], blob) && out[j] == Slice(index[j], blob)
      {
        assert Inside(index[i], blob);
        out := out + [Slice(index[i], blob)];
      }
      assert out == Slices(index, blob);
      tensors := Some(out);
    }
  }

  /** Writing and reading back: the tensors of a dictionary come back as they were, in order; the read
      works if and only if there is at least one byte. */
  lemma ReadsBack(index: seq<Entry>, blob: Bytes, items: seq<Named>)
    requires Written(index, blob, items)
    ensures blob != [] <==> TotalBytes(items) > 0
    ensures Slices(index, blob) == AsDict(items)
            && (NamesDiffer(items) ==> Slices(index, blob) == items && InOrder(index))
  {
    if NamesDiffer(items) {
      DistinctAsDict(items);
    }
  }
}
