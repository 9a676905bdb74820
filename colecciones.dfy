/** Extremes of finite collections and closed integer intervals. The extremes
    give a meaning to two ORM idioms: `.first()` on an unordered queryset (Django
    then orders by primary key, so the lowest key wins) and
    `order_by('-campo').first()` (the row with the largest value). */
module Colecciones {

  ghost function MinNat(s: set<nat>): (m: nat)
    requires s != {}
    ensures m in s
    ensures forall y :: y in s ==> m <= y
  {
    assert |s| != 0;
    var x :| x in s;
    if s == {x} then x
    else
      assert forall y :: y in s ==> y == x || y in s - {x};
      var m' := MinNat(s - {x});
      if x < m' then x else m'
  }

  /** The largest value of a non-empty finite map. */
  ghost function MaxValor(v: map<nat, int>): (m: int)
    requires v.Keys != {}
    ensures m in v.Values
    ensures forall k :: k in v ==> v[k] <= m
    decreases v.Keys
  {
    assert |v.Keys| != 0;
    var x :| x in v.Keys;
    if v.Keys == {x} then v[x]
    else
      var r := v - {x};
      assert r.Keys == v.Keys - {x};
      var m' := MaxValor(r);
      assert forall k :: k in v ==> k == x || k in r;
      if v[x] > m' then v[x] else m'
  }

  /** Membership in the closed interval [lo, hi]. */
  predicate EnIntervalo(lo: int, hi: int, n: int) {
    lo <= n <= hi
  }

  /** The number of integers in [lo, hi]: Python's len(range(lo, hi + 1)). */
  function Cantidad(lo: int, hi: int): nat {
    if hi < lo then 0 else hi - lo + 1
  }

  /** The integers of [lo, hi] form a set of Cantidad(lo, hi) elements. */
  lemma {:induction false} IntervaloCardinal(lo: int, hi: int)
    ensures |set n: int | lo <= n <= hi && EnIntervalo(lo, hi, n)| == Cantidad(lo, hi)
    decreases hi - lo
  {
    if hi < lo {
      assert (set n: int | lo <= n <= hi && EnIntervalo(lo, hi, n)) == {};
    } else {
      var h := hi - 1;
      IntervaloCardinal(lo, h);
      assert (set n: int | lo <= n <= hi && EnIntervalo(lo, hi, n)) == (set n: int | lo <= n <= h && EnIntervalo(lo, h, n)) + {hi};
    }
  }
}
