/** Byte strings and the one slicing operation everything reads with. */
module Bytes {
  import opened Foundations

  type Byte = b: int | 0 <= b < 256

  function Clamp(i: int, n: nat): (r: nat)
    ensures r <= n
  {
    if i < 0 then 0 else if i > n then n else i
  }

  /** The bytes of `s` at positions `lo` up to `hi`, as far as `s` has them. */
  function Clip<T>(s: seq<T>, lo: int, hi: int): (r: seq<T>)
    ensures |r| == Max(0, Clamp(hi, |s|) - Clamp(lo, |s|))
  {
    if lo < hi then s[Clamp(lo, |s|)..Clamp(hi, |s|)] else []
  }

  lemma ClipAt<T>(s: seq<T>, lo: int, hi: int, i: nat)
    requires i < |Clip(s, lo, hi)|
    ensures Clip(s, lo, hi)[i] == s[Clamp(lo, |s|) + i]
  {
  }

  lemma ClipConcat<T>(a: seq<T>, b: seq<T>, lo: int, hi: int)
    ensures Clip(a + b, lo, hi) == Clip(a, lo, hi) + Clip(b, lo - |a|, hi - |a|)
  {
    hide Clip;
    var whole, left, right := Clip(a + b, lo, hi), Clip(a, lo, hi), Clip(b, lo - |a|, hi - |a|);
    assert |whole| == |left + right|;
    forall i | 0 <= i < |whole| ensures whole[i] == (left + right)[i] {
      ClipAt(a + b, lo, hi, i);
      if i < |left| { ClipAt(a, lo, hi, i); } else { ClipAt(b, lo - |a|, hi - |a|, i - |left|); }
    }
  }

  /** A slice that falls inside the middle piece. */
  lemma ClipMiddle<T>(a: seq<T>, b: seq<T>, c: seq<T>, lo: nat, hi: int)
    requires hi <= |b| || c == []
    ensures Clip(a + b + c, |a| + lo, |a| + hi) == Clip(b, lo, hi)
  {
    hide Clip;
    ClipConcat(a + b, c, |a| + lo, |a| + hi);
    ClipConcat(a, b, |a| + lo, |a| + hi);
    assert Clip(a, |a| + lo, |a| + hi) == [];
    assert Clip(c, |a| + lo - |a + b|, |a| + hi - |a + b|) == [];
  }

  lemma ClipClip<T>(s: seq<T>, lo: nat, hi: int, a: nat, b: int)
    ensures Clip(Clip(s, lo, hi), a, b) == Clip(s, lo + a, Min(hi, lo + b))
  {
    hide Clip;
    var outer, inner, direct := Clip(s, lo, hi), Clip(Clip(s, lo, hi), a, b), Clip(s, lo + a, Min(hi, lo + b));
    assert |inner| == |direct|;
    forall i | 0 <= i < |inner| ensures inner[i] == direct[i] {
      ClipAt(outer, a, b, i);
      ClipAt(s, lo, hi, a + i);
      ClipAt(s, lo + a, Min(hi, lo + b), i);
    }
  }

  lemma ClipJoin<T>(s: seq<T>, lo: int, mid: int, hi: int)
    requires lo <= mid <= hi
    ensures Clip(s, lo, mid) + Clip(s, mid, hi) == Clip(s, lo, hi)
  {
    hide Clip;
    var left, right, whole := Clip(s, lo, mid), Clip(s, mid, hi), Clip(s, lo, hi);
    assert |left + right| == |whole|;
    forall i | 0 <= i < |whole| ensures (left + right)[i] == whole[i] {
      ClipAt(s, lo, hi, i);
      if i < |left| { ClipAt(s, lo, mid, i); } else { ClipAt(s, mid, hi, i - |left|); }
    }
  }

  /** Beyond the end there is nothing to read. */
  lemma ClipPast<T>(s: seq<T>, lo: int, hi: int, beyond: int)
    requires hi >= |s| && beyond >= |s|
    ensures Clip(s, lo, hi) == Clip(s, lo, beyond)
  {
  }

  lemma ClipAll<T>(s: seq<T>, hi: int)
    requires |s| <= hi
    ensures Clip(s, 0, hi) == s
  {
  }
}
