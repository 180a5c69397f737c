/** Token arrays seen as pages, and the common-prefix comparison the tree walks rely on. */
module Paging {
  import opened Arith
  import opened PageTree

  /** `n` rounded down to a whole number of pages. */
  function AlignDown(n: nat, ps: nat): nat
    requires ps > 0
  {
    if n < ps then 0 else ps + AlignDown(n - ps, ps)
  }

  /** The tokens in `k` pages. */
  function Tokens(k: nat, ps: nat): nat {
    if k == 0 then 0 else ps + Tokens(k - 1, ps)
  }

  lemma {:induction false} TokensIs(k: nat, ps: nat)
    ensures Tokens(k, ps) == k * ps
  {
    if k > 0 {
      TokensIs(k - 1, ps);
    }
  }

  lemma {:induction false} TokensAdd(a: nat, b: nat, ps: nat)
    ensures Tokens(a + b, ps) == Tokens(a, ps) + Tokens(b, ps)
  {
    if b > 0 {
      TokensAdd(a, b - 1, ps);
    }
  }

  lemma {:induction false} TokensLess(a: nat, b: nat, ps: nat)
    requires ps > 0 && a < b
    ensures Tokens(a, ps) < Tokens(b, ps)
  {
    if a + 1 < b {
      TokensLess(a, b - 1, ps);
    }
  }

  lemma {:induction false} AlignDownIs(n: nat, ps: nat)
    requires ps > 0
    ensures AlignDown(n, ps) == (n / ps) * ps <= n
  {
    if n < ps {
      DivUnique(n, ps, 0, n);
    } else {
      AlignDownIs(n - ps, ps);
      DivStep(n, ps);
    }
  }

  lemma DivStep(n: nat, ps: nat)
    requires 0 < ps <= n
    ensures (n / ps) * ps == ((n - ps) / ps) * ps + ps
  {
    var q := (n - ps) / ps;
    OneMoreTimes(q, ps);
    DivUnique(n, ps, q + 1, (n - ps) % ps);
  }

  /** Children are looked up by the first page of the key; a shorter rest finds nothing. */
  function KeyFn(x: seq<int>, ps: nat): Page {
    if |x| < ps then x else x[..ps]
  }

  /** Index of the first difference, or the shorter length. */
  function CommonLen<T(==)>(x: seq<T>, y: seq<T>): nat {
    if x == [] || y == [] || x[0] != y[0] then 0 else 1 + CommonLen(x[1..], y[1..])
  }

  lemma {:induction false} CommonLenIs<T>(x: seq<T>, y: seq<T>)
    ensures CommonLen(x, y) <= |x| && CommonLen(x, y) <= |y|
    ensures x[..CommonLen(x, y)] == y[..CommonLen(x, y)]
    ensures CommonLen(x, y) < |x| && CommonLen(x, y) < |y| ==> x[CommonLen(x, y)] != y[CommonLen(x, y)]
  {
    if x != [] && y != [] && x[0] == y[0] {
      CommonLenIs(x[1..], y[1..]);
      var n := CommonLen(x[1..], y[1..]);
      assert x[..1 + n] == [x[0]] + x[1..][..n] && y[..1 + n] == [y[0]] + y[1..][..n];
    }
  }

  /** The whole pages of `ids`; a partial last page is dropped. */
  function Pages(ids: seq<int>, ps: nat): seq<Page>
    requires ps > 0
  {
    if |ids| < ps then [] else [ids[..ps]] + Pages(ids[ps..], ps)
  }

  function Flat(pages: seq<Page>): seq<int> {
    if pages == [] then [] else pages[0] + Flat(pages[1..])
  }

  predicate Uniform(pages: seq<Page>, ps: nat) {
    forall i :: 0 <= i < |pages| ==> |pages[i]| == ps
  }

  lemma {:induction false} FlatConcat(a: seq<Page>, b: seq<Page>)
    ensures Flat(a + b) == Flat(a) + Flat(b)
  {
    if a == [] {
      assert a + b == b;
    } else {
      FlatConcat(a[1..], b);
      assert (a + b)[0] == a[0] && (a + b)[1..] == a[1..] + b;
      assert Flat(a + b) == a[0] + Flat(a[1..] + b);
      assert a[0] + (Flat(a[1..]) + Flat(b)) == (a[0] + Flat(a[1..])) + Flat(b);
    }
  }

  lemma {:induction false} FlatLength(a: seq<Page>, ps: nat)
    requires Uniform(a, ps)
    ensures |Flat(a)| == Tokens(|a|, ps)
  {
    if a != [] {
      FlatLength(a[1..], ps);
    }
  }

  /** The first page of a non-empty uniform span is its first `ps` tokens. */
  lemma FlatHead(a: seq<Page>, ps: nat)
    requires Uniform(a, ps) && a != []
    ensures |Flat(a)| >= ps && Flat(a)[..ps] == a[0]
  {}

  /** A uniform span cut after `k` pages is cut after `Tokens(k, ps)` tokens. */
  lemma FlatCut(a: seq<Page>, ps: nat, k: nat)
    requires ps > 0 && Uniform(a, ps) && k <= |a|
    ensures Tokens(k, ps) <= |Flat(a)| == Tokens(|a|, ps)
    ensures 0 < k ==> 0 < Tokens(k, ps)
    ensures k < |a| ==> Tokens(k, ps) < |Flat(a)|
    ensures Flat(a)[..Tokens(k, ps)] == Flat(a[..k]) && Flat(a)[Tokens(k, ps)..] == Flat(a[k..])
  {
    assert a == a[..k] + a[k..];
    FlatConcat(a[..k], a[k..]);
    FlatLength(a[..k], ps);
    FlatLength(a[k..], ps);
    FlatLength(a, ps);
  }

  /** The first `k` pages are the first `Tokens(k, ps)` tokens, and the rest pages up the rest. */
  lemma {:induction false} PagesSplit(ids: seq<int>, ps: nat, k: nat)
    requires ps > 0 && k <= |Pages(ids, ps)|
    ensures Tokens(k, ps) <= |ids|
    ensures Flat(Pages(ids, ps)[..k]) == ids[..Tokens(k, ps)]
    ensures Pages(ids[Tokens(k, ps)..], ps) == Pages(ids, ps)[k..]
    ensures Pages(ids[..Tokens(k, ps)], ps) == Pages(ids, ps)[..k]
  {
    if k == 0 {
      assert ids[0..] == ids;
    } else {
      var rest := ids[ps..];
      PagesSplit(rest, ps, k - 1);
      assert Pages(ids, ps)[..k] == [ids[..ps]] + Pages(rest, ps)[..k - 1];
      assert ids[Tokens(k, ps)..] == rest[Tokens(k - 1, ps)..];
      assert ids[..Tokens(k, ps)] == ids[..ps] + rest[..Tokens(k - 1, ps)];
      assert ids[..Tokens(k, ps)][ps..] == rest[..Tokens(k - 1, ps)];
    }
  }

  lemma {:induction false} PagesUniform(ids: seq<int>, ps: nat)
    requires ps > 0
    ensures Uniform(Pages(ids, ps), ps)
    ensures Tokens(|Pages(ids, ps)|, ps) == AlignDown(|ids|, ps)
  {
    if |ids| >= ps {
      PagesUniform(ids[ps..], ps);
    }
  }

  lemma FirstPageDiffers(kp: seq<Page>, rest: seq<int>, ps: nat)
    requires ps > 0 && Uniform(kp, ps)
    requires kp == [] || |rest| < ps || kp[0] != rest[..ps]
    ensures CommonLen(Flat(kp), rest) < ps
  {
    var n := CommonLen(Flat(kp), rest);
    CommonLenIs(Flat(kp), rest);
    if kp != [] && |rest| >= ps {
      var i :| 0 <= i < ps && kp[0][i] != rest[i];
      assert Flat(kp)[i] == kp[0][i];
      assert n > i ==> Flat(kp)[..n][i] == rest[..n][i];
    }
  }

  /** A uniform span and its cut, as token arrays with their child-lookup pages. */
  lemma SpanCut(span: seq<Page>, ps: nat, k: nat)
    requires ps > 0 && Uniform(span, ps) && 0 < k < |span|
    ensures 0 < Tokens(k, ps) < |Flat(span)| == Tokens(|span|, ps)
    ensures Flat(span)[..Tokens(k, ps)] == Flat(span[..k]) && Flat(span)[Tokens(k, ps)..] == Flat(span[k..])
    ensures KeyFn(Flat(span[..k]), ps) == span[0] && KeyFn(Flat(span[k..]), ps) == span[k]
  {
    FlatCut(span, ps, k);
    FlatHead(span[..k], ps);
    FlatHead(span[k..], ps);
  }

  /** Comparing tokens and rounding down to a page is comparing pages. */
  lemma {:induction false} AlignedMatch(kp: seq<Page>, rest: seq<int>, ps: nat)
    requires ps > 0 && Uniform(kp, ps)
    ensures AlignDown(CommonLen(Flat(kp), rest), ps) == Tokens(CommonLen(kp, Pages(rest, ps)), ps)
  {
    if kp == [] || |rest| < ps || kp[0] != rest[..ps] {
      FirstPageDiffers(kp, rest, ps);
    } else {
      AlignedMatch(kp[1..], rest[ps..], ps);
      CommonShift(kp[0], Flat(kp[1..]), rest[ps..]);
      assert rest == kp[0] + rest[ps..];
      AlignedStep(kp, rest, ps);
    }
  }

  lemma AlignedStep(kp: seq<Page>, rest: seq<int>, ps: nat)
    requires 0 < ps <= |rest| && kp != [] && kp[0] == rest[..ps]
    ensures CommonLen(kp, Pages(rest, ps)) == 1 + CommonLen(kp[1..], Pages(rest[ps..], ps))
  {
    assert Pages(rest, ps)[1..] == Pages(rest[ps..], ps);
  }

  lemma {:induction false} CommonShift(a: seq<int>, x: seq<int>, y: seq<int>)
    ensures CommonLen(a + x, a + y) == |a| + CommonLen(x, y)
  {
    if a == [] {
      assert a + x == x && a + y == y;
    } else {
      CommonShift(a[1..], x, y);
      assert (a + x)[1..] == a[1..] + x && (a + y)[1..] == a[1..] + y;
    }
  }
}
