/** Elementwise combination of curves that already share one grid:
    zero-initialised sums, the mean along axis 0, and a sum over a finite
    map that does not depend on the order in which the map is walked. */
module Curves {

  function Zeros(n: nat): (r: seq<real>)
    ensures |r| == n
    ensures forall j :: 0 <= j < n ==> r[j] == 0.0
  {
    seq(n, _ => 0.0)
  }

  /** `a + b` on two arrays of one shape. */
  function Add(a: seq<real>, b: seq<real>): (r: seq<real>)
    requires |a| == |b|
    ensures |r| == |a|
    ensures forall j :: 0 <= j < |a| ==> r[j] == a[j] + b[j]
  {
    seq(|a|, j requires 0 <= j < |a| => a[j] + b[j])
  }

  /** `a / d` for a non-zero scalar `d`. */
  function Divide(a: seq<real>, d: real): (r: seq<real>)
    requires d != 0.0
    ensures |r| == |a|
    ensures forall j :: 0 <= j < |a| ==> r[j] == a[j] / d
  {
    seq(|a|, j requires 0 <= j < |a| => a[j] / d)
  }

  predicate AllOfLength(cs: seq<seq<real>>, n: nat) {
    forall i :: 0 <= i < |cs| ==> |cs[i]| == n
  }

  predicate Uniform<K>(m: map<K, seq<real>>, n: nat) {
    forall k | k in m :: |m[k]| == n
  }

  /** Elementwise sum of a list of curves, accumulated from a zero curve. */
  function SumSeq(cs: seq<seq<real>>, n: nat): (r: seq<real>)
    requires AllOfLength(cs, n)
    ensures |r| == n
  {
    if |cs| == 0 then Zeros(n) else Add(SumSeq(cs[..|cs| - 1], n), cs[|cs| - 1])
  }

  /** `np.mean(cs, axis=0)`. */
  function Mean(cs: seq<seq<real>>, n: nat): (r: seq<real>)
    requires |cs| > 0 && AllOfLength(cs, n)
    ensures |r| == n
  {
    Divide(SumSeq(cs, n), |cs| as real)
  }

  ghost function Pick<K>(s: set<K>): (x: K)
    requires s != {}
    ensures x in s
  {
    var x :| x in s; x
  }

  /** The elementwise sum of the curves stored in `m`, walked in an arbitrary order. */
  ghost function SumMap<K>(m: map<K, seq<real>>, n: nat): (r: seq<real>)
    requires Uniform(m, n)
    ensures |r| == n
    decreases |m|
  {
    if m.Keys == {} then Zeros(n)
    else
      var k := Pick(m.Keys);
      assert (m - {k}).Keys == m.Keys - {k};
      Add(m[k], SumMap(m - {k}, n))
  }

  lemma AddCommutes(a: seq<real>, b: seq<real>)
    requires |a| == |b|
    ensures Add(a, b) == Add(b, a)
  {
  }

  lemma AddSwap(a: seq<real>, b: seq<real>, c: seq<real>)
    requires |a| == |b| == |c|
    ensures Add(a, Add(b, c)) == Add(b, Add(a, c))
  {
  }

  lemma AddZeros(a: seq<real>)
    ensures Add(Zeros(|a|), a) == a
  {
  }

  /** The sum over a map may start with ANY of its entries: the result does
      not depend on the order of summation. */
  lemma {:induction false} SumMapRemove<K>(m: map<K, seq<real>>, n: nat, k: K)
    requires Uniform(m, n) && k in m
    ensures SumMap(m, n) == Add(m[k], SumMap(m - {k}, n))
    decreases |m|
  {
    var k0 := Pick(m.Keys);
    if k0 != k {
      assert (m - {k0}).Keys == m.Keys - {k0};
      assert (m - {k}).Keys == m.Keys - {k};
      assert m - {k0} - {k} == m - {k} - {k0};
      SumMapRemove(m - {k0}, n, k);
      SumMapRemove(m - {k}, n, k0);
      AddSwap(m[k0], m[k], SumMap(m - {k0} - {k}, n));
    }
  }

  /** Adding one new entry adds its curve to the sum. */
  lemma SumMapInsert<K>(m: map<K, seq<real>>, n: nat, k: K, v: seq<real>)
    requires Uniform(m, n) && k !in m && |v| == n
    ensures Uniform(m[k := v], n)
    ensures SumMap(m[k := v], n) == Add(v, SumMap(m, n))
  {
    SumMapRemove(m[k := v], n, k);
    assert m[k := v] - {k} == m;
  }

  /** A list of curves and a map holding the same curves: they sum alike. */
  ghost predicate SumsAgree<K>(cs: seq<seq<real>>, m: map<K, seq<real>>, n: nat) {
    AllOfLength(cs, n) && Uniform(m, n) && |cs| == |m| && SumSeq(cs, n) == SumMap(m, n)
  }

  /** Appending a curve to the list while adding it to the map under a new key keeps them in step. */
  lemma SumsAgreeAppend<K>(cs: seq<seq<real>>, m: map<K, seq<real>>, n: nat, k: K, v: seq<real>)
    requires SumsAgree(cs, m, n) && k !in m && |v| == n
    ensures SumsAgree(cs + [v], m[k := v], n)
  {
    SumMapInsert(m, n, k, v);
    var grown := cs + [v];
    assert grown[..|grown| - 1] == cs;
    AddCommutes(v, SumSeq(cs, n));
  }

  /** The mean of the list is the map's sum divided by its size. */
  lemma MeanOfAgreeingSums<K>(cs: seq<seq<real>>, m: map<K, seq<real>>, n: nat)
    requires SumsAgree(cs, m, n)
    ensures AllOfLength(cs, n)
    ensures |cs| > 0 ==> Mean(cs, n) == Divide(SumMap(m, n), |m| as real)
  {
  }

  /** A grid index where every summand is zero stays zero. */
  lemma {:induction false} SumMapZeroAt<K>(m: map<K, seq<real>>, n: nat, j: nat)
    requires Uniform(m, n) && j < n
    requires forall k | k in m :: m[k][j] == 0.0
    ensures SumMap(m, n)[j] == 0.0
    decreases |m|
  {
    if m.Keys != {} {
      var k := Pick(m.Keys);
      assert (m - {k}).Keys == m.Keys - {k};
      SumMapZeroAt(m - {k}, n, j);
    }
  }

  /** `x` added to itself `n` times. */
  function Repeated(n: nat, x: real): real {
    if n == 0 then 0.0 else x + Repeated(n - 1, x)
  }

  lemma {:induction false} RepeatedIsProduct(n: nat, x: real)
    ensures Repeated(n, x) == (n as real) * x
  {
    if n > 0 {
      RepeatedIsProduct(n - 1, x);
    }
  }

  /** When every entry holds the same curve `c`, each entry of the sum is `c[j]` added `|m|` times. */
  lemma {:induction false} SumMapConstant<K>(m: map<K, seq<real>>, c: seq<real>, j: nat)
    requires forall k | k in m :: m[k] == c
    requires j < |c|
    ensures Uniform(m, |c|)
    ensures SumMap(m, |c|)[j] == Repeated(|m|, c[j])
    decreases |m|
  {
    if m.Keys == {} {
      assert |m| == 0;
    } else {
      var k := Pick(m.Keys);
      var rest := m - {k};
      assert rest.Keys == m.Keys - {k};
      SumMapConstant(rest, c, j);
      assert |m| == |rest| + 1;
    }
  }

  /** Averaging copies of one curve gives that curve back: each entry has weight 1/|m|. */
  lemma MeanOfEqualCurves<K>(m: map<K, seq<real>>, c: seq<real>)
    requires |m| > 0
    requires forall k | k in m :: m[k] == c
    ensures Uniform(m, |c|)
    ensures Divide(SumMap(m, |c|), |m| as real) == c
  {
    assert Uniform(m, |c|);
    var r := Divide(SumMap(m, |c|), |m| as real);
    forall j | 0 <= j < |c| ensures r[j] == c[j] {
      MeanOfEqualCurvesAt(m, c, j);
    }
  }

  lemma MeanOfEqualCurvesAt<K>(m: map<K, seq<real>>, c: seq<real>, j: nat)
    requires |m| > 0 && j < |c|
    requires forall k | k in m :: m[k] == c
    ensures Uniform(m, |c|)
    ensures SumMap(m, |c|)[j] / (|m| as real) == c[j]
  {
    SumMapConstant(m, c, j);
    RepeatedOverCount(|m|, c[j]);
  }

  lemma RepeatedOverCount(n: nat, x: real)
    requires n > 0
    ensures Repeated(n, x) / (n as real) == x
  {
    RepeatedIsProduct(n, x);
    CancelFactor(n as real, x, Repeated(n, x));
  }

  lemma CancelFactor(size: real, x: real, y: real)
    requires size > 0.0 && y == size * x
    ensures y / size == x
  {
  }
}
