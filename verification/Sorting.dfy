/** Sorting integers, as the free lists are kept. */
module Sorting {
  ghost predicate Sorted(s: seq<int>) {
    forall i, j :: 0 <= i < j < |s| ==> s[i] <= s[j]
  }

  function Insert(x: int, s: seq<int>): seq<int> {
    if s == [] || x <= s[0] then [x] + s else [s[0]] + Insert(x, s[1..])
  }

  function Sort(s: seq<int>): seq<int> {
    if s == [] then [] else Insert(s[0], Sort(s[1..]))
  }

  lemma ConsSorted(a: int, s: seq<int>)
    requires Sorted(s) && (s == [] || a <= s[0])
    ensures Sorted([a] + s)
  {}

  lemma {:induction false} InsertSorts(x: int, s: seq<int>)
    requires Sorted(s)
    ensures Sorted(Insert(x, s)) && multiset(Insert(x, s)) == multiset(s) + multiset{x}
    ensures Insert(x, s) != [] && Insert(x, s)[0] == if s == [] || x <= s[0] then x else s[0]
  {
    if s == [] || x <= s[0] {
      ConsSorted(x, s);
    } else {
      assert Sorted(s[1..]);
      InsertSorts(x, s[1..]);
      hide Sorted;
      ConsSorted(s[0], Insert(x, s[1..]));
      assert s == [s[0]] + s[1..];
    }
  }

  lemma {:induction false} SortSorts(s: seq<int>)
    ensures Sorted(Sort(s)) && multiset(Sort(s)) == multiset(s)
  {
    if s != [] {
      SortSorts(s[1..]);
      InsertSorts(s[0], Sort(s[1..]));
      assert s == [s[0]] + s[1..];
    }
  }

  function Range(lo: int, hi: int): (s: seq<int>)
    requires lo <= hi
    ensures |s| == hi - lo && forall i :: 0 <= i < |s| ==> s[i] == lo + i
    decreases hi - lo
  {
    if lo == hi then [] else [lo] + Range(lo + 1, hi)
  }
}
