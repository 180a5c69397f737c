/** Sequences that list the members of a set, each once. */
module Rosters {
  ghost predicate Distinct<T>(s: seq<T>) {
    forall i, j :: 0 <= i < j < |s| ==> s[i] != s[j]
  }

  ghost predicate Lists(s: seq<int>, ids: set<int>) {
    Distinct(s) && forall x :: x in s <==> x in ids
  }

  lemma {:induction false} DistinctSize<T>(s: seq<T>)
    requires Distinct(s)
    ensures |set x | x in s| == |s|
  {
    if s != [] {
      var n := |s| - 1;
      DistinctSize(s[..n]);
      assert (set x | x in s) == (set x | x in s[..n]) + {s[n]} && s[n] !in s[..n];
    } else {
      assert (set x | x in s) == {};
    }
  }

  lemma {:induction false} ListsSize(s: seq<int>, ids: set<int>)
    requires Lists(s, ids)
    ensures |s| == |ids|
  {
    if s == [] {
      forall x ensures x !in ids { assert x in ids <==> x in s; }
      assert ids == {};
    } else {
      var x, rest := s[|s| - 1], s[..|s| - 1];
      assert s == rest + [x];
      ListsSize(rest, ids - {x});
    }
  }

  lemma ListsJoin(a: seq<int>, x: set<int>, b: seq<int>, y: set<int>)
    requires Lists(a, x) && Lists(b, y) && x !! y
    ensures Lists(a + b, x + y)
  {
    var s := a + b;
    forall i, j | 0 <= i < j < |s| ensures s[i] != s[j] {
      assert i < |a| ==> s[i] == a[i] && a[i] in a;
      assert j >= |a| ==> s[j] == b[j - |a|] && b[j - |a|] in b;
    }
  }

  lemma ListsMore(a: seq<int>, ids: set<int>, x: int)
    requires Lists(a, ids) && x !in ids
    ensures Lists(a + [x], ids + {x})
  {}

  lemma {:induction false} DistinctOnce<T>(s: seq<T>)
    ensures Distinct(s) <==> forall x :: multiset(s)[x] <= 1
  {
    if s != [] {
      var y, rest := s[|s| - 1], s[..|s| - 1];
      assert s == rest + [y];
      DistinctOnce(rest);
      if Distinct(s) {
        assert forall i, j :: 0 <= i < j < |rest| ==> rest[i] == s[i] && rest[j] == s[j];
        assert y !in rest;
      }
      if forall x :: multiset(s)[x] <= 1 {
        assert multiset(s)[y] == multiset(rest)[y] + 1;
        assert y !in multiset(rest);
        forall x ensures multiset(rest)[x] <= 1 {
          assert multiset(s)[x] >= multiset(rest)[x];
        }
        assert forall i :: 0 <= i < |rest| ==> rest[i] != y;
      }
    }
  }

  lemma ListsSorted(a: seq<int>, b: seq<int>, ids: set<int>)
    requires Lists(a, ids) && multiset(a) == multiset(b)
    ensures Lists(b, ids)
  {
    DistinctOnce(a);
    DistinctOnce(b);
    forall x ensures x in b <==> x in ids {
      assert x in multiset(a) <==> x in a;
      assert x in multiset(b) <==> x in b;
    }
  }

  function Without<T>(s: seq<T>, k: nat): seq<T>
    requires k < |s|
  {
    s[..k] + s[k + 1..]
  }

  lemma ListsLess(s: seq<int>, ids: set<int>, k: nat)
    requires Lists(s, ids) && k < |s|
    ensures Lists(Without(s, k), ids - {s[k]})
  {
    var r := Without(s, k);
    forall x ensures x in r <==> x in ids - {s[k]} {
      if x in s && x != s[k] {
        var i :| 0 <= i < |s| && s[i] == x;
        assert r[if i < k then i else i - 1] == x;
      }
      if x in r {
        var i :| 0 <= i < |r| && r[i] == x;
        assert s[if i < k then i else i + 1] == x;
      }
    }
    forall i, j | 0 <= i < j < |r| ensures r[i] != r[j] {
      assert s[if i < k then i else i + 1] == r[i] && s[if j < k then j else j + 1] == r[j];
    }
  }

  lemma ListsToFront(s: seq<int>, ids: set<int>, k: nat)
    requires Lists(s, ids) && k < |s|
    ensures Lists([s[k]] + Without(s, k), ids)
  {
    var x := s[k];
    assert x in s;
    assert x in ids;
    ListsLess(s, ids, k);
    assert Lists([s[k]], {s[k]});
    ListsJoin([s[k]], {s[k]}, Without(s, k), ids - {s[k]});
    assert {s[k]} + (ids - {s[k]}) == ids;
  }
}
