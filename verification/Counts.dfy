/** Maps of counters. */
module Counts {

  function Count<K(==)>(counts: map<K, nat>, k: K): nat { if k in counts then counts[k] else 0 }

  function Plus<K>(a: map<K, nat>, b: map<K, nat>): map<K, nat> {
    map k | k in a.Keys + b.Keys :: Count(a, k) + Count(b, k)
  }

  lemma PlusAdds<K>(a: map<K, nat>, b: map<K, nat>, k: K, v: nat)
    ensures Plus(a, b[k := Count(b, k) + v]) == Plus(a, b)[k := Count(Plus(a, b), k) + v]
  {
    var left, right := Plus(a, b[k := Count(b, k) + v]), Plus(a, b)[k := Count(Plus(a, b), k) + v];
    assert left.Keys == a.Keys + b.Keys + {k} == right.Keys;
    assert forall j | j in left.Keys :: left[j] == right[j];
    assert left == right;
  }

  lemma PlusNothing<K>(a: map<K, nat>)
    ensures Plus(a, map[]) == a
  {
  }

  /** Adds one map of counts to another, key by key in any order. */
  method AddCounts<K(==)>(counts: map<K, nat>, more: map<K, nat>) returns (sum: map<K, nat>)
    ensures sum == Plus(counts, more)
  {
    sum := counts;
    var todo := more.Keys;
    ghost var joined: map<K, nat> := map[];
    PlusNothing(counts);
    while todo != {}
      invariant todo <= more.Keys && joined.Keys == more.Keys - todo
      invariant forall k | k in joined :: joined[k] == more[k]
      invariant sum == Plus(counts, joined)
      decreases |todo|
    {
      hide Plus;
      var k :| k in todo;
      PlusAdds(counts, joined, k, more[k]);
      sum := sum[k := Count(sum, k) + more[k]];
      joined := joined[k := more[k]];
      todo := todo - {k};
    }
    assert joined == more;
  }

  /** All counters together, in any order. */
  ghost function Total<K(!new)>(m: map<K, nat>): nat {
    if m == map[] then 0
    else
      var k :| k in m;
      m[k] + Total(m - {k})
  }

  lemma Fewer<K, V>(m: map<K, V>, k: K)
    requires k in m
    ensures |m - {k}| < |m|
  {
    assert m.Keys == (m - {k}).Keys + {k};
  }

  lemma {:induction false} AnyFirst<K(!new)>(m: map<K, nat>, k: K)
    requires k in m
    ensures Total(m) == m[k] + Total(m - {k})
    decreases |m|
  {
    var j :| j in m && Total(m) == m[j] + Total(m - {j});
    if j != k {
      Fewer(m, j);
      Fewer(m, k);
      AnyFirst(m - {j}, k);
      AnyFirst(m - {k}, j);
      assert m - {j} - {k} == m - {k} - {j};
    }
  }

  lemma TotalSet<K(!new)>(m: map<K, nat>, k: K, v: nat)
    ensures Total(m[k := v]) == Total(m) - Count(m, k) + v
  {
    AnyFirst(m[k := v], k);
    if k in m {
      AnyFirst(m, k);
      assert m[k := v] - {k} == m - {k};
    } else {
      assert m[k := v] - {k} == m;
    }
  }

  lemma TotalNone<K(!new)>()
    ensures Total<K>(map[]) == 0
  {
  }

  lemma PutBack<K>(b: map<K, nat>, k: K)
    requires k in b
    ensures Count(b - {k}, k) == 0 && (b - {k})[k := b[k]] == b
  {
  }

  lemma {:induction false} TotalPlus<K(!new)>(a: map<K, nat>, b: map<K, nat>)
    ensures Total(Plus(a, b)) == Total(a) + Total(b)
    decreases |b|
  {
    hide Plus, Total, Count;
    if b == map[] {
      assert Plus(a, map[]) == a by { PlusNothing(a); }
      TotalNone<K>();
      assert Total(b) == 0;
    } else {
      var k :| k in b;
      var rest, v := b - {k}, b[k];
      Fewer(b, k);
      AnyFirst(b, k);
      PutBack(b, k);
      TotalPlus(a, rest);
      PlusAdds(a, rest, k, v);
      TotalSet(Plus(a, rest), k, Count(Plus(a, rest), k) + v);
    }
  }
}
