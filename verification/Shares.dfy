/** Who gets how much of a prefill step, over values: what each queued prompt asks for, in queue order,
    and the tokens it is granted. */
module Shares {
  import opened Requests

  /** `rest` prompt tokens are still to be computed. A fresh prompt also reserves its footprint in the
      pool; one that is resumed has done so. */
  datatype Ask = Ask(rest: int, isNew: bool, footprint: int)

  function AskOf(j: Job): Ask {
    Ask(|j.prompt| - Done(j), j.slices == [], |j.prompt| - j.cached + j.outputLen)
  }

  ghost function Total(xs: seq<int>): int {
    if xs == [] then 0 else Total(xs[..|xs| - 1]) + xs[|xs| - 1]
  }

  /** What the fresh prompts that were granted something have reserved. */
  ghost function Reserved(asks: seq<Ask>, grants: seq<int>): int
    requires |asks| == |grants|
  {
    if asks == [] then 0 else
      var n := |asks| - 1;
      Reserved(asks[..n], grants[..n]) + if asks[n].isNew && grants[n] > 0 then asks[n].footprint else 0
  }

  /** What a prompt gets when `left` tokens of the budget are left and `reserved` of the pool is taken. */
  ghost function Share(a: Ask, budget: int, left: int, reserved: int, pool: int): int {
    if left <= 0 || (a.isNew && reserved + a.footprint > pool) then 0
    else if a.rest <= left then a.rest
    else if !a.isNew || left == budget then left
    else 0
  }

  ghost predicate ShareAt(asks: seq<Ask>, grants: seq<int>, budget: int, inflight: int, pool: int, i: nat)
    requires i < |asks| == |grants|
  {
    grants[i] == Share(asks[i], budget, budget - Total(grants[..i]), inflight + Reserved(asks[..i], grants[..i]), pool)
  }

  /** Each prompt in turn gets what the ones before it leave. */
  ghost predicate Greedy(asks: seq<Ask>, grants: seq<int>, budget: int, inflight: int, pool: int) {
    && |grants| == |asks|
    && forall i {:trigger ShareAt(asks, grants, budget, inflight, pool, i)} :: 0 <= i < |asks| ==>
         ShareAt(asks, grants, budget, inflight, pool, i)
  }

  lemma GreedyNone(budget: int, inflight: int, pool: int)
    ensures Greedy([], [], budget, inflight, pool) && Total([]) == 0 && Reserved([], []) == 0
  {}

  lemma ShareStill(asks: seq<Ask>, grants: seq<int>, budget: int, inflight: int, pool: int, a: Ask, n: int, i: nat)
    requires i < |asks| == |grants| && ShareAt(asks, grants, budget, inflight, pool, i)
    ensures ShareAt(asks + [a], grants + [n], budget, inflight, pool, i)
  {
    assert (asks + [a])[..i] == asks[..i] && (grants + [n])[..i] == grants[..i];
  }

  lemma TotalPlus(xs: seq<int>, n: int)
    ensures Total(xs + [n]) == Total(xs) + n
  {
    assert (xs + [n])[..|xs|] == xs;
  }

  lemma ReservedPlus(asks: seq<Ask>, grants: seq<int>, a: Ask, n: int)
    requires |asks| == |grants|
    ensures Reserved(asks + [a], grants + [n]) == Reserved(asks, grants) + if a.isNew && n > 0 then a.footprint else 0
  {
    assert (asks + [a])[..|asks|] == asks && (grants + [n])[..|asks|] == grants;
  }

  lemma ShareNow(asks: seq<Ask>, grants: seq<int>, budget: int, inflight: int, pool: int, a: Ask, n: int)
    requires |asks| == |grants|
    requires n == Share(a, budget, budget - Total(grants), inflight + Reserved(asks, grants), pool)
    ensures ShareAt(asks + [a], grants + [n], budget, inflight, pool, |asks|)
  {
    hide Share, Total, Reserved;
    assert (asks + [a])[..|asks|] == asks && (grants + [n])[..|asks|] == grants;
  }

  lemma GreedyMore(asks: seq<Ask>, grants: seq<int>, budget: int, inflight: int, pool: int, a: Ask, n: int)
    requires Greedy(asks, grants, budget, inflight, pool)
    requires n == Share(a, budget, budget - Total(grants), inflight + Reserved(asks, grants), pool)
    ensures Greedy(asks + [a], grants + [n], budget, inflight, pool)
    ensures Total(grants + [n]) == Total(grants) + n
    ensures Reserved(asks + [a], grants + [n]) == Reserved(asks, grants) + if a.isNew && n > 0 then a.footprint else 0
  {
    hide ShareAt, Share, Total, Reserved;
    TotalPlus(grants, n);
    ReservedPlus(asks, grants, a, n);
    ShareNow(asks, grants, budget, inflight, pool, a, n);
    forall i | 0 <= i < |asks| ensures ShareAt(asks + [a], grants + [n], budget, inflight, pool, i) {
      ShareStill(asks, grants, budget, inflight, pool, a, n, i);
    }
  }

  ghost function Zeros(n: nat): (zs: seq<int>)
    ensures |zs| == n && forall i :: 0 <= i < n ==> zs[i] == 0
  {
    seq(n, _ => 0)
  }

  /** Once the budget is spent, nobody gets anything. */
  lemma {:induction false} GreedyRest(asks: seq<Ask>, grants: seq<int>, budget: int, inflight: int, pool: int,
                                      more: seq<Ask>)
    requires Greedy(asks, grants, budget, inflight, pool) && (more != [] ==> budget - Total(grants) <= 0)
    ensures Greedy(asks + more, grants + Zeros(|more|), budget, inflight, pool)
    decreases |more|
  {
    hide Greedy, Total;
    if more == [] {
      assert asks + more == asks && grants + Zeros(0) == grants;
    } else {
      GreedyMore(asks, grants, budget, inflight, pool, more[0], 0);
      GreedyRest(asks + [more[0]], grants + [0], budget, inflight, pool, more[1..]);
      assert asks + [more[0]] + more[1..] == asks + more;
      assert grants + [0] + Zeros(|more| - 1) == grants + Zeros(|more|);
    }
  }

  // ---------------------------------------------------------------- what the grants amount to

  /** Everybody asks for something. */
  ghost predicate Asking(asks: seq<Ask>) {
    forall i :: 0 <= i < |asks| ==> asks[i].rest > 0
  }

  lemma {:induction false} TotalSpent(asks: seq<Ask>, grants: seq<int>, budget: int, inflight: int, pool: int, n: nat)
    requires Greedy(asks, grants, budget, inflight, pool) && Asking(asks) && n <= |asks|
    ensures 0 <= Total(grants[..n]) && (budget >= 0 ==> Total(grants[..n]) <= budget)
    ensures budget < 0 ==> Total(grants[..n]) == 0
    ensures forall i :: 0 <= i < n ==> 0 <= grants[i] <= asks[i].rest && grants[i] <= Total(grants[..n])
    ensures Total(grants[..n]) == 0 <==> forall i :: 0 <= i < n ==> grants[i] == 0
  {
    if n > 0 {
      TotalSpent(asks, grants, budget, inflight, pool, n - 1);
      assert ShareAt(asks, grants, budget, inflight, pool, n - 1);
      TotalTo(grants, n - 1);
      hide Total, Reserved;
    } else {
      assert grants[..0] == [];
    }
  }

  lemma TotalTo(xs: seq<int>, n: nat)
    requires n < |xs|
    ensures Total(xs[..n + 1]) == Total(xs[..n]) + xs[n]
  {
    assert xs[..n + 1][..n] == xs[..n];
  }

  lemma ReservedTo(asks: seq<Ask>, grants: seq<int>, n: nat)
    requires n < |asks| == |grants|
    ensures Reserved(asks[..n + 1], grants[..n + 1])
         == Reserved(asks[..n], grants[..n]) + if asks[n].isNew && grants[n] > 0 then asks[n].footprint else 0
  {
    assert asks[..n + 1][..n] == asks[..n] && grants[..n + 1][..n] == grants[..n];
  }

  /** A prompt is granted something only within the budget; all its rest, unless the budget is used up
      on it, and then it is resumed or the first. */
  lemma ShareIs(asks: seq<Ask>, grants: seq<int>, budget: int, inflight: int, pool: int, i: nat)
    requires Greedy(asks, grants, budget, inflight, pool) && Asking(asks) && i < |asks|
    ensures var before := Total(grants[..i]);
            && 0 <= before
            && (grants[i] == 0 || grants[i] == asks[i].rest
                || (before + grants[i] == budget && (!asks[i].isNew || before == 0)))
  {
    TotalSpent(asks, grants, budget, inflight, pool, i);
    assert ShareAt(asks, grants, budget, inflight, pool, i);
    hide Total, Reserved;
  }

  /** A prompt that comes after another was granted something joins the step exactly if what is left of
      the budget covers it whole and what is left of the pool covers its footprint. */
  lemma LaterJoins(asks: seq<Ask>, grants: seq<int>, budget: int, inflight: int, pool: int, i: nat)
    requires Greedy(asks, grants, budget, inflight, pool) && Asking(asks) && i < |asks| && asks[i].isNew
    requires exists k :: 0 <= k < i && grants[k] > 0
    ensures grants[i] > 0 <==>
              && Total(grants[..i]) + asks[i].rest <= budget
              && inflight + Reserved(asks[..i], grants[..i]) + asks[i].footprint <= pool
    ensures grants[i] > 0 ==> grants[i] == asks[i].rest
  {
    TotalSpent(asks, grants, budget, inflight, pool, i);
    assert ShareAt(asks, grants, budget, inflight, pool, i);
    hide Total, Reserved;
  }

  /** The first prompt gets what it asks for, up to the budget, exactly if it is resumed or fits into
      what the pool has left. */
  lemma HeadJoins(asks: seq<Ask>, grants: seq<int>, budget: int, inflight: int, pool: int)
    requires Greedy(asks, grants, budget, inflight, pool) && Asking(asks) && asks != []
    ensures grants[0] > 0 <==> budget > 0 && (!asks[0].isNew || inflight + asks[0].footprint <= pool)
    ensures grants[0] > 0 ==> grants[0] == if asks[0].rest <= budget then asks[0].rest else budget
  {
    assert ShareAt(asks, grants, budget, inflight, pool, 0);
    assert grants[..0] == [] && asks[..0] == [];
  }

  ghost predicate Grantable(a: Ask, inflight: int, pool: int) {
    !a.isNew || inflight + a.footprint <= pool
  }

  lemma {:induction false} NoneReserved(asks: seq<Ask>, grants: seq<int>, n: nat)
    requires n <= |asks| == |grants| && forall i :: 0 <= i < n ==> grants[i] == 0
    ensures Reserved(asks[..n], grants[..n]) == 0 && Total(grants[..n]) == 0
  {
    if n > 0 {
      NoneReserved(asks, grants, n - 1);
      TotalTo(grants, n - 1);
      ReservedTo(asks, grants, n - 1);
    }
  }

  /** Somebody is granted something exactly if there is a budget and somebody is resumed or fits into what
      the pool has left. */
  lemma SomeoneJoins(asks: seq<Ask>, grants: seq<int>, budget: int, inflight: int, pool: int)
    requires Greedy(asks, grants, budget, inflight, pool) && Asking(asks)
    ensures (exists i :: 0 <= i < |grants| && grants[i] > 0) <==>
            budget > 0 && exists i :: 0 <= i < |asks| && Grantable(asks[i], inflight, pool)
  {
    TotalSpent(asks, grants, budget, inflight, pool, |asks|);
    if forall i :: 0 <= i < |grants| ==> grants[i] == 0 {
      forall i | 0 <= i < |asks| ensures budget <= 0 || !Grantable(asks[i], inflight, pool) {
        NoneReserved(asks, grants, i);
        assert ShareAt(asks, grants, budget, inflight, pool, i);
      }
    } else {
      var i := FirstGrant(grants);
      NoneReserved(asks, grants, i);
      assert ShareAt(asks, grants, budget, inflight, pool, i);
      assert Grantable(asks[i], inflight, pool);
      assert budget > 0;
    }
  }

  ghost function FirstGrant(grants: seq<int>): (i: nat)
    requires exists k :: 0 <= k < |grants| && grants[k] != 0
    ensures i < |grants| && grants[i] != 0 && forall k :: 0 <= k < i ==> grants[k] == 0
  {
    if grants[0] != 0 then 0 else
      var k :| 0 <= k < |grants| && grants[k] != 0;
      assert grants[1..][k - 1] == grants[k];
      1 + FirstGrant(grants[1..])
  }

  /** What the fresh prompts of a step reserve stays within the pool, on top of what is in flight. */
  lemma {:induction false} PoolKept(asks: seq<Ask>, grants: seq<int>, budget: int, inflight: int, pool: int, n: nat)
    requires Greedy(asks, grants, budget, inflight, pool) && n <= |asks|
    requires exists i :: 0 <= i < n && asks[i].isNew && grants[i] > 0
    ensures inflight + Reserved(asks[..n], grants[..n]) <= pool
  {
    var m := n - 1;
    ReservedTo(asks, grants, m);
    assert ShareAt(asks, grants, budget, inflight, pool, m);
    hide Total, Reserved;
    if !(asks[m].isNew && grants[m] > 0) {
      PoolKept(asks, grants, budget, inflight, pool, m);
    }
  }

  // ---------------------------------------------------------------- who is in the batch and who stays

  /** Those that were granted something, in order. */
  ghost function Picked<T>(xs: seq<T>, grants: seq<int>): seq<T>
    requires |xs| == |grants|
  {
    if xs == [] then [] else
      var n := |xs| - 1;
      Picked(xs[..n], grants[..n]) + if grants[n] > 0 then [xs[n]] else []
  }

  /** Those that were granted a part of what they asked for. */
  ghost function CutOff<T>(xs: seq<T>, asks: seq<Ask>, grants: seq<int>): seq<T>
    requires |xs| == |asks| == |grants|
  {
    if xs == [] then [] else
      var n := |xs| - 1;
      CutOff(xs[..n], asks[..n], grants[..n]) + if 0 < grants[n] < asks[n].rest then [xs[n]] else []
  }

  /** Those that were granted nothing. */
  ghost function Skipped<T>(xs: seq<T>, grants: seq<int>): seq<T>
    requires |xs| == |grants|
  {
    if xs == [] then [] else
      var n := |xs| - 1;
      Skipped(xs[..n], grants[..n]) + if grants[n] > 0 then [] else [xs[n]]
  }

  lemma PickedMore<T>(xs: seq<T>, asks: seq<Ask>, grants: seq<int>, x: T, a: Ask, n: int)
    requires |xs| == |asks| == |grants|
    ensures Picked(xs + [x], grants + [n]) == Picked(xs, grants) + if n > 0 then [x] else []
    ensures CutOff(xs + [x], asks + [a], grants + [n])
         == CutOff(xs, asks, grants) + if 0 < n < a.rest then [x] else []
    ensures Skipped(xs + [x], grants + [n]) == Skipped(xs, grants) + if n > 0 then [] else [x]
  {
    var m := |xs|;
    assert (xs + [x])[..m] == xs && (asks + [a])[..m] == asks && (grants + [n])[..m] == grants;
  }

  lemma {:induction false} PickedRest<T>(xs: seq<T>, asks: seq<Ask>, grants: seq<int>, more: seq<T>, others: seq<Ask>)
    requires |xs| == |asks| == |grants| && |more| == |others|
    ensures Picked(xs + more, grants + Zeros(|more|)) == Picked(xs, grants)
    ensures CutOff(xs + more, asks + others, grants + Zeros(|more|)) == CutOff(xs, asks, grants)
    ensures Skipped(xs + more, grants + Zeros(|more|)) == Skipped(xs, grants) + more
    decreases |more|
  {
    if more == [] {
      assert xs + more == xs && asks + others == asks && grants + Zeros(0) == grants;
    } else {
      PickedMore(xs, asks, grants, more[0], others[0], 0);
      hide Picked, CutOff, Skipped;
      PickedRest(xs + [more[0]], asks + [others[0]], grants + [0], more[1..], others[1..]);
      assert xs + [more[0]] + more[1..] == xs + more && asks + [others[0]] + others[1..] == asks + others;
      assert grants + [0] + Zeros(|more| - 1) == grants + Zeros(|more|) && [more[0]] + more[1..] == more;
    }
  }

  lemma TakeMore<T>(s: seq<T>, i: nat)
    requires i < |s|
    ensures s[..i + 1] == s[..i] + [s[i]]
  {}

  lemma TakeDrop<T>(s: seq<T>, i: nat)
    requires i <= |s|
    ensures s[..i] + s[i..] == s
  {}

  /** A pass that ends early grants nothing to the rest. */
  lemma PickedEnd<T>(xs: seq<T>, asks: seq<Ask>, grants: seq<int>, all: seq<int>)
    requires |grants| <= |xs| == |asks| && all == grants + Zeros(|xs| - |grants|)
    ensures Picked(xs, all) == Picked(xs[..|grants|], grants)
    ensures CutOff(xs, asks, all) == CutOff(xs[..|grants|], asks[..|grants|], grants)
    ensures Skipped(xs, all) == Skipped(xs[..|grants|], grants) + xs[|grants|..]
  {
    hide *;
    var i := |grants|;
    TakeDrop(xs, i);
    TakeDrop(asks, i);
    PickedRest(xs[..i], asks[..i], grants, xs[i..], asks[i..]);
  }

  lemma GreedyEnd(asks: seq<Ask>, grants: seq<int>, all: seq<int>, budget: int, inflight: int, pool: int)
    requires |grants| <= |asks| && all == grants + Zeros(|asks| - |grants|)
    requires Greedy(asks[..|grants|], grants, budget, inflight, pool)
    requires |grants| < |asks| ==> budget - Total(grants) <= 0
    ensures Greedy(asks, all, budget, inflight, pool)
  {
    hide *;
    var i := |grants|;
    TakeDrop(asks, i);
    GreedyRest(asks[..i], grants, budget, inflight, pool, asks[i..]);
  }

  lemma {:induction false} PickedSome<T>(xs: seq<T>, grants: seq<int>)
    requires |xs| == |grants|
    ensures Picked(xs, grants) == [] <==> forall i :: 0 <= i < |grants| ==> grants[i] <= 0
    ensures forall x :: x in Picked(xs, grants) ==> x in xs
  {
    if xs != [] {
      var n := |xs| - 1;
      PickedSome(xs[..n], grants[..n]);
      forall i | 0 <= i < n ensures grants[..n][i] == grants[i] {}
    }
  }

  lemma {:induction false} StayedWithin<T>(xs: seq<T>, asks: seq<Ask>, grants: seq<int>)
    requires |xs| == |asks| == |grants|
    ensures forall x :: x in CutOff(xs, asks, grants) || x in Skipped(xs, grants) ==> x in xs
  {
    if xs != [] {
      var n := |xs| - 1;
      StayedWithin(xs[..n], asks[..n], grants[..n]);
      assert CutOff(xs, asks, grants)
          == CutOff(xs[..n], asks[..n], grants[..n]) + if 0 < grants[n] < asks[n].rest then [xs[n]] else [];
      assert Skipped(xs, grants) == Skipped(xs[..n], grants[..n]) + if grants[n] > 0 then [] else [xs[n]];
      hide CutOff, Skipped;
    }
  }

  lemma {:induction false} AllSkipped<T>(xs: seq<T>, asks: seq<Ask>, grants: seq<int>)
    requires |xs| == |asks| == |grants| && forall i :: 0 <= i < |grants| ==> grants[i] <= 0
    ensures CutOff(xs, asks, grants) == [] && Skipped(xs, grants) == xs
  {
    if xs != [] {
      var n := |xs| - 1;
      AllSkipped(xs[..n], asks[..n], grants[..n]);
      assert xs[..n] + [xs[n]] == xs;
    }
  }

  /** Of distinct ones, those are picked that were granted something. */
  lemma {:induction false} PickedAt<T>(xs: seq<T>, grants: seq<int>, i: nat)
    requires i < |xs| == |grants| && forall k :: 0 <= k < |xs| && k != i ==> xs[k] != xs[i]
    ensures xs[i] in Picked(xs, grants) <==> grants[i] > 0
  {
    var n := |xs| - 1;
    if i == n {
      PickedSome(xs[..n], grants[..n]);
    } else {
      PickedAt(xs[..n], grants[..n], i);
    }
  }
}
