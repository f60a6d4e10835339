/** Small shared vocabulary: an optional value, and totals over finite maps. */
module Foundations {

  datatype Option<+T> = None | Some(value: T)

  function Min(a: int, b: int): int { if a <= b then a else b }

  function Max(a: int, b: int): int { if a >= b then a else b }

  /** The sum of all values of a finite map. */
  ghost function Total<K>(m: map<K, nat>): nat
    decreases |m|
  {
    if m == map[] then 0
    else
      var k :| k in m;
      assert |m - {k}| < |m| by { RemoveSize(m, k); }
      m[k] + Total(m - {k})
  }

  lemma RemoveSize<K, V>(m: map<K, V>, k: K)
    requires k in m
    ensures |m - {k}| == |m| - 1
  {
    assert (m - {k}).Keys == m.Keys - {k};
    assert |(m - {k}).Keys| == |m.Keys| - 1;
  }

  /** Any key may be taken out first: the choice inside Total does not matter. */
  lemma {:induction false} TotalRemove<K>(m: map<K, nat>, k: K)
    requires k in m
    ensures Total(m) == m[k] + Total(m - {k})
    decreases |m|
  {
    var c :| c in m && Total(m) == m[c] + Total(m - {c});
    if c != k {
      RemoveSize(m, c);
      RemoveSize(m, k);
      TotalRemove(m - {c}, k);
      TotalRemove(m - {k}, c);
      assert m - {c} - {k} == m - {k} - {c};
    }
  }

  lemma TotalUpdate<K>(m: map<K, nat>, k: K, v: nat)
    ensures k in m ==> Total(m[k := v]) == Total(m) - m[k] + v
    ensures k !in m ==> Total(m[k := v]) == Total(m) + v
  {
    var m' := m[k := v];
    TotalRemove(m', k);
    if k in m {
      TotalRemove(m, k);
      assert m' - {k} == m - {k};
    } else {
      assert m' - {k} == m;
    }
  }

  /** Pointwise: if every key of `small` is matched by its own key of `large`
      carrying at least as much, the totals compare. `owner` names the key of
      `small` that a key of `large` may answer for, so no key answers twice. */
  lemma {:induction false} TotalInjects<K, L>(small: map<K, nat>, large: map<L, nat>, owner: L -> K)
    requires forall k | k in small :: exists l :: l in large && owner(l) == k && small[k] <= large[l]
    ensures Total(small) <= Total(large)
    decreases |small|
  {
    if small != map[] {
      var k :| k in small;
      var l :| l in large && owner(l) == k && small[k] <= large[l];
      RemoveSize(small, k);
      var rest, pool := small - {k}, large - {l};
      forall j | j in rest ensures exists i :: i in pool && owner(i) == j && rest[j] <= pool[i] {
        var i :| i in large && owner(i) == j && small[j] <= large[i];
        assert i in pool;
      }
      TotalInjects(rest, pool, owner);
      TotalRemove(small, k);
      TotalRemove(large, l);
    }
  }
}
