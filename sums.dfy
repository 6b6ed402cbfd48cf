/** Sums of dictionary values, and the renormalisation `{k: v / s for k, v in d.items()}`.
    A Python dict iterates its keys in insertion order; here that order is an explicit
    sequence of keys next to the map. */
module Sums {

  /** `sum(d.values())` for a dict `m` whose keys, in insertion order, are `keys`. */
  function SumOver<K>(keys: seq<K>, m: map<K, real>): real
    requires forall k :: k in keys ==> k in m
  {
    if keys == [] then 0.0 else m[keys[0]] + SumOver(keys[1..], m)
  }

  /** `{k: v / s for k, v in m.items()}`. */
  function Scale<K>(m: map<K, real>, s: real): (r: map<K, real>)
    requires s != 0.0
    ensures r.Keys == m.Keys
    ensures forall k :: k in r ==> r[k] == m[k] / s
  {
    map k | k in m :: m[k] / s
  }

  predicate NonNegativeOver<K>(keys: seq<K>, m: map<K, real>)
    requires forall k :: k in keys ==> k in m
  {
    forall i :: 0 <= i < |keys| ==> m[keys[i]] >= 0.0
  }

  lemma DivSelf(t: real)
    requires t != 0.0
    ensures t / t == 1.0
  {
  }

  lemma DivBounds(x: real, t: real)
    requires 0.0 <= x <= t && t > 0.0
    ensures 0.0 <= x / t <= 1.0
  {
  }

  lemma DivCancel(c: real, n: real)
    requires c > 0.0 && n > 0.0
    ensures c / (c * n) == 1.0 / n
  {
  }

  /** Dividing every value by `s` divides the sum by `s`. */
  lemma {:induction false} SumScaled<K>(keys: seq<K>, m: map<K, real>, s: real)
    requires s != 0.0
    requires forall k :: k in keys ==> k in m
    ensures SumOver(keys, Scale(m, s)) == SumOver(keys, m) / s
  {
    if keys != [] {
      SumScaled(keys[1..], m, s);
    }
  }

  /** Renormalising by a positive total gives values that sum to 1. */
  lemma SumNormalised<K>(keys: seq<K>, m: map<K, real>)
    requires forall k :: k in keys ==> k in m
    requires SumOver(keys, m) > 0.0
    ensures SumOver(keys, Scale(m, SumOver(keys, m))) == 1.0
  {
    var t := SumOver(keys, m);
    SumScaled(keys, m, t);
    DivSelf(t);
  }

  /** A non-negative sum is at least each of its terms. */
  lemma {:induction false} TermAtMostSum<K>(keys: seq<K>, m: map<K, real>, i: nat)
    requires forall k :: k in keys ==> k in m
    requires NonNegativeOver(keys, m)
    requires i < |keys|
    ensures 0.0 <= m[keys[i]] <= SumOver(keys, m)
  {
    SumNonNegative(keys[1..], m);
    if i > 0 {
      TermAtMostSum(keys[1..], m, i - 1);
    }
  }

  lemma {:induction false} SumNonNegative<K>(keys: seq<K>, m: map<K, real>)
    requires forall k :: k in keys ==> k in m
    requires NonNegativeOver(keys, m)
    ensures SumOver(keys, m) >= 0.0
  {
    if keys != [] {
      SumNonNegative(keys[1..], m);
    }
  }

  /** Dividing non-negative values by their positive sum gives a distribution:
      values in [0, 1] that sum to 1. */
  lemma Shares<K>(keys: seq<K>, m: map<K, real>)
    requires forall k :: k in m <==> k in keys
    requires NonNegativeOver(keys, m)
    requires SumOver(keys, m) > 0.0
    ensures var r := Scale(m, SumOver(keys, m));
      && SumOver(keys, r) == 1.0
      && forall k :: k in r ==> 0.0 <= r[k] <= 1.0
  {
    var t := SumOver(keys, m);
    var r := Scale(m, t);
    SumNormalised(keys, m);
    forall k | k in r ensures 0.0 <= r[k] <= 1.0 {
      var i :| 0 <= i < |keys| && keys[i] == k;
      TermAtMostSum(keys, m, i);
      DivBounds(m[k], t);
    }
  }

  /** A sum of `|keys|` equal terms `c`. */
  lemma {:induction false} ConstantSum<K>(keys: seq<K>, m: map<K, real>, c: real)
    requires forall k :: k in keys ==> k in m && m[k] == c
    ensures SumOver(keys, m) == c * |keys| as real
  {
    if keys != [] {
      ConstantSum(keys[1..], m, c);
    }
  }

  /** Renormalising equal positive values over `n` keys gives 1/n to each. */
  lemma Uniform<K>(keys: seq<K>, m: map<K, real>, c: real)
    requires keys != []
    requires c > 0.0
    requires forall k :: k in m <==> k in keys
    requires forall k :: k in m ==> m[k] == c
    ensures SumOver(keys, m) > 0.0
    ensures var r := Scale(m, SumOver(keys, m));
      && SumOver(keys, r) == 1.0
      && forall k :: k in r ==> r[k] == 1.0 / |keys| as real
  {
    var n := |keys| as real;
    ConstantSum(keys, m, c);
    var t := SumOver(keys, m);
    assert t == c * n;
    SumNormalised(keys, m);
    DivCancel(c, n);
    var r := Scale(m, t);
    forall k | k in r ensures r[k] == 1.0 / n {
      assert r[k] == c / t;
    }
  }

  /** A sum of terms each at most its bound is at most the sum of the bounds. */
  lemma {:induction false} SumMonotone<K>(keys: seq<K>, m: map<K, real>, bound: map<K, real>)
    requires forall k :: k in keys ==> k in m && k in bound && m[k] <= bound[k]
    ensures SumOver(keys, m) <= SumOver(keys, bound)
  {
    if keys != [] {
      SumMonotone(keys[1..], m, bound);
    }
  }
}
