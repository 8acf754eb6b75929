/** The mergeable log-spaced histogram, over exact reals: bucket i ends at 0.1 * 1.1^i, the last one
    takes everything above. */
module Histogram {
  import opened Counts

  const BASE := 0.1
  const GROWTH := 1.1
  const LAST: nat := 200

  function Upper(i: nat): (u: real)
    ensures u >= BASE
    decreases i, 0
  {
    if i == 0 then BASE else Upper(i - 1) * GROWTH
  }

  /** The bucket of a value that no bucket before i can hold. */
  function BucketFrom(x: real, i: nat): (b: nat)
    requires i <= LAST && (i > 0 ==> x > Upper(i - 1))
    ensures i <= b <= LAST
    ensures b < LAST ==> x <= Upper(b)
    ensures b > 0 ==> x > Upper(b - 1)
    decreases LAST - i, 1
  {
    if i == LAST || x <= Upper(i) then i else BucketFrom(x, i + 1)
  }

  /** The first bucket whose end reaches the value, or the last one. */
  function Bucket(x: real): (b: nat)
    ensures b <= LAST
    ensures b < LAST ==> x <= Upper(b)
    ensures b > 0 ==> x > Upper(b - 1)
  {
    BucketFrom(x, 0)
  }

  lemma {:induction false} UpperGrows(i: nat, j: nat)
    requires i <= j
    ensures Upper(i) <= Upper(j)
    decreases j
  {
    if i < j { UpperGrows(i, j - 1); }
  }

  lemma BucketGrows(x: real, y: real)
    requires x <= y
    ensures Bucket(x) <= Bucket(y)
  {
    hide Upper, BucketFrom;
    if Bucket(y) < Bucket(x) { UpperGrows(Bucket(y), Bucket(x) - 1); }
  }

  // ---------------------------------------------------------------- the histogram of observations

  datatype Hist = Hist(counts: map<nat, nat>, n: nat, sum: real, max: real)

  const NONE := Hist(map[], 0, 0.0, 0.0)

  function Larger(x: real, y: real): real { if x >= y then x else y }

  /** A negative observation counts as zero. */
  function Clamp(x: real): real { if x < 0.0 then 0.0 else x }

  function Add(h: Hist, x: real): Hist {
    var y := Clamp(x);
    Hist(h.counts[Bucket(y) := Count(h.counts, Bucket(y)) + 1], h.n + 1, h.sum + y, Larger(h.max, y))
  }

  function Join(h: Hist, o: Hist): Hist {
    if o.n == 0 then h else Hist(Plus(h.counts, o.counts), h.n + o.n, h.sum + o.sum, Larger(h.max, o.max))
  }

  /** What a histogram holds after these observations. */
  function Of(obs: seq<real>): Hist
    decreases |obs|
  {
    if obs == [] then NONE else Add(Of(obs[..|obs| - 1]), obs[|obs| - 1])
  }

  /** How many observations satisfy p. */
  function Tally(obs: seq<real>, p: real -> bool): (n: nat)
    ensures n <= |obs|
    decreases |obs|
  {
    if obs == [] then 0 else Tally(obs[..|obs| - 1], p) + if p(obs[|obs| - 1]) then 1 else 0
  }

  function In(b: nat): real -> bool { x => Bucket(Clamp(x)) == b }

  function Before(b: nat): real -> bool { x => Bucket(Clamp(x)) < b }

  function Under(v: real): real -> bool { x => Clamp(x) < v }

  function AtMost(v: real): real -> bool { x => Clamp(x) <= v }

  function Sum(obs: seq<real>): real
    decreases |obs|
  {
    if obs == [] then 0.0
    else
      var last := obs[|obs| - 1];
      Sum(obs[..|obs| - 1]) + if last > 0.0 then last else 0.0
  }

  predicate IsMax(obs: seq<real>, m: real) {
    && (forall i | 0 <= i < |obs| :: Clamp(obs[i]) <= m)
    && if obs == [] then m == 0.0 else exists i :: 0 <= i < |obs| && Clamp(obs[i]) == m
  }

  /** The number, the sum and the maximum are those of the observations... */
  lemma {:induction false} HistogramTotals(obs: seq<real>)
    ensures Of(obs).n == |obs| && Of(obs).sum == Sum(obs) && IsMax(obs, Of(obs).max)
    decreases |obs|
  {
    if obs != [] {
      hide Bucket, IsMax, Tally;
      var init, last := obs[..|obs| - 1], obs[|obs| - 1];
      HistogramTotals(init);
      MaxGrows(init, last, Of(init).max);
      assert obs == init + [last];
    }
  }

  /** ... and so are the counts. */
  lemma {:induction false} HistogramCounts(obs: seq<real>)
    ensures forall b: nat :: Count(Of(obs).counts, b) == Tally(obs, In(b))
    ensures forall b | b in Of(obs).counts :: b <= LAST && Of(obs).counts[b] > 0
    decreases |obs|
  {
    if obs != [] {
      hide Bucket, IsMax, Tally;
      var init, last := obs[..|obs| - 1], obs[|obs| - 1];
      HistogramCounts(init);
      assert obs == init + [last];
      forall b: nat ensures Count(Of(obs).counts, b) == Tally(obs, In(b)) {
        TallyOne(init, last, In(b));
      }
    } else {
      forall b: nat ensures Tally(obs, In(b)) == 0 {}
    }
  }

  lemma TallyOne(obs: seq<real>, x: real, p: real -> bool)
    ensures Tally(obs + [x], p) == Tally(obs, p) + if p(x) then 1 else 0
  {
    assert (obs + [x])[..|obs|] == obs;
  }

  lemma MaxGrows(obs: seq<real>, x: real, m: real)
    requires IsMax(obs, m)
    ensures IsMax(obs + [x], Larger(m, Clamp(x)))
  {
    var all := obs + [x];
    assert all[|obs|] == x;
    if obs != [] && m > Clamp(x) {
      var i :| 0 <= i < |obs| && Clamp(obs[i]) == m;
      assert all[i] == obs[i];
    }
  }

  /** Merging the histograms of two agents gives the histogram of all their observations. */
  lemma {:induction false} MergeIsConcatenation(a: seq<real>, b: seq<real>)
    ensures Join(Of(a), Of(b)) == Of(a + b)
    decreases |b|
  {
    hide Bucket, BucketFrom;
    if b == [] {
      assert a + b == a;
    } else {
      var init, last := b[..|b| - 1], b[|b| - 1];
      MergeIsConcatenation(a, init);
      HistogramTotals(init);
      HistogramTotals(a);
      assert (a + b)[..|a + b| - 1] == a + init;
      JoinAdds(Of(a), Of(init), last);
    }
  }

  lemma JoinAdds(h: Hist, o: Hist, x: real)
    requires h.max >= 0.0 && (o.n == 0 ==> o == NONE)
    ensures Join(h, Add(o, x)) == Add(Join(h, o), x)
  {
    hide Bucket, Plus;
    PlusAdds(h.counts, o.counts, Bucket(Clamp(x)), 1);
    PlusNothing(h.counts);
  }

  lemma AddCommutes(h: Hist, x: real, y: real)
    ensures Add(Add(h, x), y) == Add(Add(h, y), x)
  {
    hide Bucket;
    var b, c := Bucket(Clamp(x)), Bucket(Clamp(y));
    BumpsCommute(h.counts, b, c);
  }

  lemma BumpsCommute(counts: map<nat, nat>, b: nat, c: nat)
    ensures
      var one, other := counts[b := Count(counts, b) + 1], counts[c := Count(counts, c) + 1];
      one[c := Count(one, c) + 1] == other[b := Count(other, b) + 1]
  {
  }

  lemma {:induction false} MoveLast(a: seq<real>, x: real, b: seq<real>)
    ensures Of(a + [x] + b) == Add(Of(a + b), x)
    decreases |b|
  {
    hide Add;
    if b == [] {
      assert (a + [x] + b)[..|a|] == a && a + b == a && (a + [x] + b)[|a|] == x;
    } else {
      var init, last := b[..|b| - 1], b[|b| - 1];
      MoveLast(a, x, init);
      assert (a + [x] + b)[..|a + [x] + b| - 1] == a + [x] + init;
      assert (a + b)[..|a + b| - 1] == a + init;
      AddCommutes(Of(a + init), x, last);
    }
  }

  /** A histogram does not remember the order of its observations. */
  lemma {:induction false} OrderDoesNotMatter(a: seq<real>, b: seq<real>)
    requires multiset(a) == multiset(b)
    ensures Of(a) == Of(b)
    decreases |a|
  {
    if a == [] {
      assert |multiset(b)| == 0;
    } else {
      hide Of;
      var init, x := a[..|a| - 1], a[|a| - 1];
      assert a == init + [x];
      assert x in multiset(b);
      var i :| 0 <= i < |b| && b[i] == x;
      var left, right := b[..i], b[i + 1..];
      assert b == left + [x] + right;
      assert multiset(left + right) == multiset(b) - multiset{x} == multiset(init);
      OrderDoesNotMatter(init, left + right);
      MoveLast(left, x, right);
      MoveLast(init, x, []);
      assert init + [x] + [] == a && init + [] == init;
    }
  }

  // ---------------------------------------------------------------- counts up to a bucket

  function Seen(counts: map<nat, nat>, k: nat): nat {
    if k == 0 then 0 else Seen(counts, k - 1) + Count(counts, k - 1)
  }

  lemma {:induction false} SeenIsTally(obs: seq<real>, k: nat)
    ensures Seen(Of(obs).counts, k) == Tally(obs, Before(k))
    decreases k
  {
    hide Of, Tally, Bucket, BucketFrom;
    if k == 0 {
      TallyNone(obs, Before(0));
    } else {
      SeenIsTally(obs, k - 1);
      HistogramCounts(obs);
      TallyOneMore(obs, k - 1);
    }
  }

  lemma {:induction false} TallyNone(obs: seq<real>, p: real -> bool)
    requires forall x :: !p(x)
    ensures Tally(obs, p) == 0
    decreases |obs|
  {
    if obs != [] { TallyNone(obs[..|obs| - 1], p); }
  }

  lemma {:induction false} TallyOneMore(obs: seq<real>, b: nat)
    ensures Tally(obs, Before(b + 1)) == Tally(obs, Before(b)) + Tally(obs, In(b))
    decreases |obs|
  {
    hide Bucket, BucketFrom;
    if obs != [] { TallyOneMore(obs[..|obs| - 1], b); }
  }

  lemma {:induction false} TallyGrows(obs: seq<real>, p: real -> bool, q: real -> bool)
    requires forall x :: p(x) ==> q(x)
    ensures Tally(obs, p) <= Tally(obs, q)
    decreases |obs|
  {
    if obs != [] { TallyGrows(obs[..|obs| - 1], p, q); }
  }

  lemma {:induction false} TallyAll(obs: seq<real>, p: real -> bool)
    requires forall x :: p(x)
    ensures Tally(obs, p) == |obs|
    decreases |obs|
  {
    if obs != [] { TallyAll(obs[..|obs| - 1], p); }
  }

  /** The counts always add up to the number of observations. */
  lemma CountsAddUp(obs: seq<real>)
    ensures Seen(Of(obs).counts, LAST + 1) == Of(obs).n == |obs|
  {
    SeenIsTally(obs, LAST + 1);
    TallyAll(obs, Before(LAST + 1));
    HistogramTotals(obs);
  }

  // ---------------------------------------------------------------- quantiles

  function Ceiling(x: real): int { -(-x).Floor }

  /** The nearest rank of a quantile. */
  function Target(q: real, n: nat): (t: nat)
    requires q >= 0.0
    ensures t >= 1 && (q <= 1.0 && n > 0 ==> t <= n)
  {
    RankInRange(q, n);
    if Ceiling(q * n as real) == 0 then 1 else Ceiling(q * n as real)
  }

  lemma RankInRange(q: real, n: nat)
    requires q >= 0.0
    ensures Ceiling(q * n as real) >= 0 && (q <= 1.0 ==> Ceiling(q * n as real) <= n)
  {
    var x := q * n as real;
    assert x >= 0.0;
    if q <= 1.0 { assert x <= n as real; }
  }

  /** v is the t-th smallest observation. */
  predicate IsRank(obs: seq<real>, t: nat, v: real) {
    Tally(obs, Under(v)) < t <= Tally(obs, AtMost(v)) && exists i :: 0 <= i < |obs| && Clamp(obs[i]) == v
  }

  /** k is the first bucket up to which t observations have been seen. */
  predicate Reaches(counts: map<nat, nat>, t: nat, k: nat) { Seen(counts, k) < t <= Seen(counts, k + 1) }

  lemma RankLiesInBucket(obs: seq<real>, t: nat, v: real, k: nat)
    requires IsRank(obs, t, v) && Reaches(Of(obs).counts, t, k)
    ensures Bucket(v) == k
  {
    hide Bucket, BucketFrom;
    SeenIsTally(obs, k);
    SeenIsTally(obs, k + 1);
    if Bucket(v) > k {
      forall x ensures Before(k + 1)(x) ==> Under(v)(x) {
        if v <= Clamp(x) { BucketGrows(v, Clamp(x)); }
      }
      TallyGrows(obs, Before(k + 1), Under(v));
    } else if Bucket(v) < k {
      forall x ensures AtMost(v)(x) ==> Before(k)(x) {
        if Clamp(x) <= v { BucketGrows(Clamp(x), v); }
      }
      TallyGrows(obs, AtMost(v), Before(k));
    }
  }

  function FirstReach(counts: map<nat, nat>, t: nat, k: nat): (r: nat)
    requires k <= LAST + 1
    ensures k <= r <= LAST + 1
    ensures Seen(counts, k) < t && r <= LAST ==> Reaches(counts, t, r)
    ensures Seen(counts, k) < t && r > LAST ==> Seen(counts, LAST + 1) < t
    decreases LAST + 1 - k
  {
    if k > LAST || Seen(counts, k + 1) >= t then k else FirstReach(counts, t, k + 1)
  }

  /** The end of the bucket that holds the nearest rank, but never above the largest observation. */
  function QuantileOf(h: Hist, q: real): real
    requires q >= 0.0
  {
    var k := FirstReach(h.counts, Target(q, h.n), 0);
    if k <= LAST && Upper(k) <= h.max then Upper(k) else h.max
  }

  /** A quantile is at most 10% above the observation of its rank (or 0.1), never above the largest
      one, and never below the observation unless that lies beyond the last bucket. */
  lemma QuantileBounds(obs: seq<real>, q: real, v: real)
    requires obs != [] && 0.0 <= q <= 1.0 && IsRank(obs, Target(q, |obs|), v)
    ensures
      var w := QuantileOf(Of(obs), q);
      && w == (if Upper(Bucket(v)) <= Of(obs).max then Upper(Bucket(v)) else Of(obs).max)
      && w <= Larger(GROWTH * v, BASE) && w <= Of(obs).max
      && (v <= w <==> v <= Upper(LAST))
  {
    hide Bucket, Upper, Of, Tally, Seen, Target, FirstReach;
    var t := Target(q, |obs|);
    CountsAddUp(obs);
    FirstReachIsReached(obs, t);
    var k := FirstReach(Of(obs).counts, t, 0);
    RankLiesInBucket(obs, t, v, k);
    HistogramTotals(obs);
    UpperSteps(k);
    if k < LAST { UpperGrows(k, LAST); }
  }

  lemma UpperSteps(k: nat)
    ensures Upper(0) == BASE && (k > 0 ==> Upper(k) == Upper(k - 1) * GROWTH)
  {
  }

  lemma FirstReachIsReached(obs: seq<real>, t: nat)
    requires 1 <= t <= |obs|
    ensures
      var k := FirstReach(Of(obs).counts, t, 0);
      k <= LAST && Reaches(Of(obs).counts, t, k)
  {
    CountsAddUp(obs);
    assert Seen(Of(obs).counts, 0) == 0;
  }

  lemma {:induction false} LargestBelow(obs: seq<real>, v: real) returns (u: real)
    requires Tally(obs, Under(v)) > 0
    ensures u < v && exists i :: 0 <= i < |obs| && Clamp(obs[i]) == u
    ensures forall i | 0 <= i < |obs| && Clamp(obs[i]) < v :: Clamp(obs[i]) <= u
    decreases |obs|
  {
    var init, last := obs[..|obs| - 1], Clamp(obs[|obs| - 1]);
    if Tally(init, Under(v)) == 0 {
      NoneUnder(init, v);
      u := last;
    } else {
      var w := LargestBelow(init, v);
      var i :| 0 <= i < |init| && Clamp(init[i]) == w;
      assert Clamp(obs[i]) == w;
      u := if w < last < v then last else w;
    }
  }

  lemma {:induction false} NoneUnder(obs: seq<real>, v: real)
    requires Tally(obs, Under(v)) == 0
    ensures forall i | 0 <= i < |obs| :: Clamp(obs[i]) >= v
    decreases |obs|
  {
    if obs != [] { NoneUnder(obs[..|obs| - 1], v); }
  }

  lemma {:induction false} SameTally(obs: seq<real>, p: real -> bool, q: real -> bool)
    requires forall i | 0 <= i < |obs| :: p(obs[i]) == q(obs[i])
    ensures Tally(obs, p) == Tally(obs, q)
    decreases |obs|
  {
    if obs != [] { SameTally(obs[..|obs| - 1], p, q); }
  }

  /** Every rank has its observation. */
  lemma RankExists(obs: seq<real>, t: nat)
    requires 1 <= t <= |obs|
    ensures exists v :: IsRank(obs, t, v)
  {
    HistogramTotals(obs);
    var m := Of(obs).max;
    SameTally(obs, AtMost(m), x => true);
    TallyAll(obs, x => true);
    var v := Descend(obs, t, m);
  }

  lemma {:induction false} Descend(obs: seq<real>, t: nat, m: real) returns (v: real)
    requires t >= 1 && t <= Tally(obs, AtMost(m)) && exists i :: 0 <= i < |obs| && Clamp(obs[i]) == m
    ensures IsRank(obs, t, v)
    decreases Tally(obs, Under(m))
  {
    if Tally(obs, Under(m)) < t {
      v := m;
    } else {
      var u := LargestBelow(obs, m);
      SameTally(obs, Under(m), AtMost(u));
      StrictlyFewer(obs, u);
      v := Descend(obs, t, u);
    }
  }

  lemma {:induction false} StrictlyFewer(obs: seq<real>, u: real)
    requires exists i :: 0 <= i < |obs| && Clamp(obs[i]) == u
    ensures Tally(obs, Under(u)) < Tally(obs, AtMost(u))
    decreases |obs|
  {
    var init, last := obs[..|obs| - 1], Clamp(obs[|obs| - 1]);
    TallyGrows(init, Under(u), AtMost(u));
    if last != u {
      var i :| 0 <= i < |obs| && Clamp(obs[i]) == u;
      assert Clamp(init[i]) == u;
      StrictlyFewer(init, u);
    }
  }

  /** What an answered quantile says of the observations: at least the asked share of them is at most the
      answer, exactly when that share fits the last bucket; and the answer is at most 10% above an
      observation (or 0.1) with less than the share below it. */
  lemma QuantileCoversItsShare(obs: seq<real>, q: real)
    requires obs != [] && 0.0 <= q <= 1.0
    ensures
      var w, share := QuantileOf(Of(obs), q), q * |obs| as real;
      && (share <= Tally(obs, AtMost(w)) as real <==> share <= Tally(obs, AtMost(Upper(LAST))) as real)
      && exists v :: (exists i :: 0 <= i < |obs| && Clamp(obs[i]) == v)
                     && (Tally(obs, Under(v)) == 0 || (Tally(obs, Under(v)) as real) < share)
                     && w <= Larger(GROWTH * v, BASE)
  {
    hide Of, Tally, Upper, QuantileOf, Bucket, Target, IsRank;
    var w, t := QuantileOf(Of(obs), q), Target(q, |obs|);
    TargetIsTheShare(q, |obs|);
    RankExists(obs, t);
    var v :| IsRank(obs, t, v);
    QuantileBounds(obs, q, v);
    BucketsEnd(obs, q);
    RankCovers(obs, t, q * |obs| as real, v, w, Upper(LAST));
  }

  lemma RankCovers(obs: seq<real>, t: nat, share: real, v: real, w: real, end: real)
    requires IsRank(obs, t, v) && share <= t as real && (t == 1 || (t - 1) as real < share)
    requires w <= end && (v <= w <==> v <= end)
    ensures share <= Tally(obs, AtMost(w)) as real <==> share <= Tally(obs, AtMost(end)) as real
    ensures Tally(obs, Under(v)) == 0 || (Tally(obs, Under(v)) as real) < share
    ensures exists i :: 0 <= i < |obs| && Clamp(obs[i]) == v
  {
    var under, upTo := Tally(obs, Under(v)), Tally(obs, AtMost(v));
    assert under < t <= upTo;
    TallyGrows(obs, AtMost(w), AtMost(end));
    if v <= end {
      TallyGrows(obs, AtMost(v), AtMost(w));
    } else {
      TallyGrows(obs, AtMost(end), Under(v));
      if t == 1 {
        assert Tally(obs, AtMost(end)) == 0;
      }
    }
  }

  /** The rank is the least whole number that is at least the share, and at least 1. */
  lemma TargetIsTheShare(q: real, n: nat)
    requires 0.0 <= q <= 1.0 && n > 0
    ensures
      var t, share := Target(q, n), q * n as real;
      1 <= t && share <= t as real && (t == 1 || (t - 1) as real < share)
  {
    var x := q * n as real;
    assert x >= 0.0;
  }

  lemma BucketsEnd(obs: seq<real>, q: real)
    requires obs != [] && 0.0 <= q <= 1.0
    ensures QuantileOf(Of(obs), q) <= Upper(LAST)
  {
    hide Upper, Of, Target, FirstReach;
    FirstReachIsReached(obs, Target(q, |obs|));
    HistogramTotals(obs);
    UpperGrows(FirstReach(Of(obs).counts, Target(q, |obs|), 0), LAST);
  }

  // ---------------------------------------------------------------- the program's object

  class Histogram {
    var counts: map<nat, nat>
    var n: nat
    var sumMS: real
    var maxMS: real

    constructor ()
      ensures Snapshot() == NONE
    {
      counts, n, sumMS, maxMS := map[], 0, 0.0, 0.0;
    }

    function Snapshot(): Hist
      reads this
    {
      Hist(counts, n, sumMS, maxMS)
    }

    method Observe(x: real)
      modifies this
      ensures Snapshot() == Add(old(Snapshot()), x)
    {
      hide Bucket;
      var ms := x;
      if ms < 0.0 { ms := 0.0; }
      var b := Bucket(ms);
      counts := counts[b := Count(counts, b) + 1];
      n := n + 1;
      sumMS := sumMS + ms;
      maxMS := Larger(maxMS, ms);
    }

    method Merge(o: Hist)
      modifies this
      ensures Snapshot() == Join(old(Snapshot()), o)
    {
      if o.n == 0 {
        return;
      }
      counts := AddCounts(counts, o.counts);
      n, sumMS, maxMS := n + o.n, sumMS + o.sum, Larger(maxMS, o.max);
    }

    method SortedKeys() returns (keys: seq<nat>)
      requires forall k | k in counts :: k <= LAST
      ensures Sorted(counts, keys)
    {
      keys := [];
      for b := 0 to LAST + 1
        invariant forall i | 0 <= i < |keys| :: keys[i] in counts && keys[i] < b
        invariant forall i, j | 0 <= i < j < |keys| :: keys[i] < keys[j]
        invariant forall k | k in counts && k < b :: k in keys
      {
        if b in counts { keys := keys + [b]; }
      }
    }

    method Quantile(q: real) returns (v: real, ok: bool)
      requires q >= 0.0 && forall k | k in counts :: k <= LAST
      ensures ok == (n > 0)
      ensures v == if ok then QuantileOf(Snapshot(), q) else 0.0
    {
      if n == 0 {
        return 0.0, false;
      }
      hide Target, Upper, Seen, FirstReach, Bucket, Sorted;
      var target := Target(q, n);
      SeenNone(counts);
      var keys := SortedKeys();
      var seen := 0;
      ghost var next := 0;
      for i := 0 to |keys|
        invariant next == NextKey(keys, i)
        invariant next <= LAST + 1 && seen == Seen(counts, next) && seen < target
        invariant FirstReach(counts, target, 0) == FirstReach(counts, target, next)
      {
        var k := keys[i];
        NothingBetween(counts, keys, i);
        ReachSkips(counts, target, next, k);
        ReachOne(counts, target, k);
        seen := seen + counts[k];
        if seen >= target {
          return if Upper(k) <= maxMS then Upper(k) else maxMS, true;
        }
        next := k + 1;
      }
      NothingBetween(counts, keys, |keys|);
      ReachSkips(counts, target, next, LAST + 1);
      ReachNone(counts, target);
      return maxMS, true;
    }
  }

  /** The keys of a map of counts in ascending order. */
  predicate Sorted(counts: map<nat, nat>, keys: seq<nat>) {
    && (forall i | 0 <= i < |keys| :: keys[i] in counts && keys[i] <= LAST)
    && (forall i, j | 0 <= i < j < |keys| :: keys[i] < keys[j])
    && (forall k | k in counts :: k in keys)
  }

  function NextKey(keys: seq<nat>, i: nat): nat
    requires i <= |keys|
  {
    if i == 0 then 0 else keys[i - 1] + 1
  }

  /** Between two keys that follow each other nothing is counted. */
  lemma NothingBetween(counts: map<nat, nat>, keys: seq<nat>, i: nat)
    requires Sorted(counts, keys) && i <= |keys|
    ensures NextKey(keys, i) <= if i < |keys| then keys[i] else LAST + 1
    ensures i < |keys| ==> keys[i] in counts && keys[i] <= LAST
    ensures forall k | NextKey(keys, i) <= k < (if i < |keys| then keys[i] else LAST + 1) :: k !in counts
  {
    forall k | k in counts ensures k < NextKey(keys, i) || (i < |keys| && keys[i] <= k) {
      var j :| 0 <= j < |keys| && keys[j] == k;
      if j < i - 1 { assert keys[j] < keys[i - 1]; }
    }
  }

  lemma SeenNone(counts: map<nat, nat>)
    ensures Seen(counts, 0) == 0
  {
  }

  lemma ReachNone(counts: map<nat, nat>, t: nat)
    ensures FirstReach(counts, t, LAST + 1) == LAST + 1
  {
  }

  lemma ReachOne(counts: map<nat, nat>, t: nat, k: nat)
    requires k <= LAST
    ensures Seen(counts, k + 1) == Seen(counts, k) + Count(counts, k)
    ensures FirstReach(counts, t, k) == if Seen(counts, k + 1) >= t then k else FirstReach(counts, t, k + 1)
  {
  }

  /** Empty buckets reach nothing. */
  lemma {:induction false} ReachSkips(counts: map<nat, nat>, t: nat, a: nat, b: nat)
    requires a <= b <= LAST + 1 && Seen(counts, a) < t && forall k | a <= k < b :: k !in counts
    ensures Seen(counts, b) == Seen(counts, a) && FirstReach(counts, t, b) == FirstReach(counts, t, a)
    decreases b - a
  {
    if a < b { ReachSkips(counts, t, a + 1, b); }
  }
}
