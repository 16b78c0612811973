/** The sample statistics a region keeps over its objective values, with exact reals. */
module Statistics {

  function Sum(v: seq<real>): real {
    if v == [] then 0.0 else Sum(v[..|v| - 1]) + v[|v| - 1]
  }

  function Mean(v: seq<real>): real
    requires v != []
  {
    Sum(v) / |v| as real
  }

  function Square(x: real): real {
    x * x
  }

  /** The sum of the squared distances to `c`. */
  function SquaredDeviation(v: seq<real>, c: real): real {
    if v == [] then 0.0 else SquaredDeviation(v[..|v| - 1], c) + Square(v[|v| - 1] - c)
  }

  /** `q` added up `k` times. */
  function Times(k: nat, q: real): real {
    if k == 0 then 0.0 else Times(k - 1, q) + q
  }

  /** `s` is the sample standard deviation of `v`: zero for one value, otherwise the
      non-negative root of the squared deviation about the mean over n - 1. */
  ghost predicate IsStandardDeviation(v: seq<real>, s: real)
    requires v != []
  {
    && s >= 0.0
    && (|v| == 1 ==> s == 0.0)
    && (|v| > 1 ==> Times(|v| - 1, Square(s)) == SquaredDeviation(v, Mean(v)))
  }

  // ----- products

  function Product(a: real, b: real): real {
    a * b
  }

  lemma ProductOfSum(a: real, b: real, c: real)
    ensures Product(a, b + c) == Product(a, b) + Product(a, c)
    ensures Product(a, 0.0) == 0.0
  {
  }

  lemma SquareOfSum(y: real, e: real)
    ensures Square(y + e) == Square(y) + 2.0 * Product(e, y) + Square(e)
    ensures Square(-e) == Square(e)
  {
  }

  lemma SquareNonNegative(y: real)
    ensures Square(y) >= 0.0
    ensures Square(0.0) == 0.0
  {
  }

  lemma {:induction false} TimesIsProduct(k: nat, q: real)
    ensures Times(k, q) == Product(k as real, q)
  {
    if k > 0 {
      TimesIsProduct(k - 1, q);
      var r := (k - 1) as real;
      assert (r + 1.0) * q == r * q + q;
    }
  }

  lemma {:induction false} TimesMonotone(j: nat, k: nat, q: real)
    requires j <= k && q >= 0.0
    ensures 0.0 <= Times(j, q) <= Times(k, q)
  {
    if j < k {
      TimesMonotone(j, k - 1, q);
    } else if j > 0 {
      TimesMonotone(j - 1, j - 1, q);
    }
  }

  lemma Quotient(a: real, b: real, c: real)
    requires b > 0.0
    ensures a == c / b <==> Product(b, a) == c
  {
  }

  lemma TotalOfMean(v: seq<real>)
    requires v != []
    ensures Times(|v|, Mean(v)) == Sum(v)
  {
    TimesIsProduct(|v|, Mean(v));
    Quotient(Mean(v), |v| as real, Sum(v));
  }

  // ----- moving the centre

  /** Moving the centre from `d` to `d - e`. */
  lemma {:induction false} Recentre(v: seq<real>, d: real, e: real)
    ensures SquaredDeviation(v, d - e)
         == SquaredDeviation(v, d) + 2.0 * Product(e, Sum(v) - Times(|v|, d)) + Times(|v|, Square(e))
  {
    hide Square, Product;
    if v == [] {
      ProductOfSum(e, 0.0, 0.0);
    } else {
      var init, y := v[..|v| - 1], v[|v| - 1] - d;
      Recentre(init, d, e);
      SquareOfSum(y, e);
      assert v[|v| - 1] - (d - e) == y + e;
      var u := Sum(init) - Times(|init|, d);
      ProductOfSum(e, u, y);
      assert Sum(v) - Times(|v|, d) == u + y;
    }
  }

  /** Squared deviation about any centre is the one about the mean plus n times the squared offset. */
  lemma ParallelAxis(v: seq<real>, c: real, mu: real)
    requires Times(|v|, mu) == Sum(v)
    ensures SquaredDeviation(v, c) == SquaredDeviation(v, mu) + Times(|v|, Square(c - mu))
  {
    hide Square, Product;
    Recentre(v, mu, mu - c);
    assert mu - (mu - c) == c && mu - c == -(c - mu);
    SquareOfSum(0.0, c - mu);
    ProductOfSum(mu - c, 0.0, 0.0);
  }

  /** The mean is the centre with the least squared deviation. */
  lemma MeanMinimises(v: seq<real>, c: real)
    requires v != []
    ensures SquaredDeviation(v, Mean(v)) <= SquaredDeviation(v, c)
  {
    hide Square, Mean;
    TotalOfMean(v);
    ParallelAxis(v, c, Mean(v));
    SquareNonNegative(c - Mean(v));
    TimesMonotone(0, |v|, Square(c - Mean(v)));
  }

  // ----- the running summary

  /** Count, mean and squared deviation about the mean, updated one value at a time. */
  datatype Moments = Moments(n: nat, mean: real, squared: real) {

    function Add(x: real): Moments {
      var d := x - mean;
      var m := n as real + 1.0;
      Moments(n + 1, mean + d / m, squared + n as real * d * d / m)
    }
  }

  const NO_MOMENTS := Moments(0, 0.0, 0.0)

  /** The running summary agrees with the statistics of the whole list. */
  ghost predicate Summarises(m: Moments, v: seq<real>) {
    && m.n == |v|
    && (v == [] ==> m.mean == 0.0 && m.squared == 0.0)
    && (v != [] ==> m.mean == Mean(v) && m.squared == SquaredDeviation(v, Mean(v)))
  }

  lemma Appended(v: seq<real>, x: real, c: real)
    ensures Sum(v + [x]) == Sum(v) + x
    ensures SquaredDeviation(v + [x], c) == SquaredDeviation(v, c) + Square(x - c)
  {
    hide Square;
    assert (v + [x])[..|v|] == v;
  }

  /** Moving the centre by `o`, the (n + 1)-th part of `d`, and adding a value at distance `d`. */
  lemma MovedSquares(n: real, d: real, o: real)
    requires n >= 0.0 && (n + 1.0) * o == d
    ensures Product(n, Square(o)) + Square(d - o) == n * d * d / (n + 1.0)
  {
    assert d - o == n * o;
    var g := n * (o * o) + (n * o) * (n * o);
    assert g == n * o * ((n + 1.0) * o);
    assert (n + 1.0) * (n * o * d) == n * d * ((n + 1.0) * o);
    Quotient(g, n + 1.0, n * d * d);
  }

  lemma MovedMean(n: real, mu: real, o: real, x: real, s: real)
    requires n >= 0.0 && n * mu == s && (n + 1.0) * o == x - mu
    ensures mu + o == (s + x) / (n + 1.0)
  {
    assert (n + 1.0) * (mu + o) == n * mu + mu + (n + 1.0) * o;
    Quotient(mu + o, n + 1.0, s + x);
  }

  lemma MeanOfAppended(v: seq<real>, x: real, o: real)
    requires v != [] && o == (x - Mean(v)) / (|v| as real + 1.0)
    ensures Mean(v + [x]) == Mean(v) + o
  {
    var n := |v| as real;
    Quotient(Mean(v), n, Sum(v));
    Quotient(o, n + 1.0, x - Mean(v));
    MovedMean(n, Mean(v), o, x, Sum(v));
    Appended(v, x, 0.0);
    assert |v + [x]| as real == n + 1.0;
  }

  lemma SquaresOfAppended(v: seq<real>, x: real, o: real)
    requires v != [] && o == (x - Mean(v)) / (|v| as real + 1.0)
    ensures SquaredDeviation(v + [x], Mean(v) + o)
         == SquaredDeviation(v, Mean(v)) + Product(|v| as real, Square(o)) + Square(x - Mean(v) - o)
  {
    hide Square, Product, Mean;
    var mu := Mean(v);
    TotalOfMean(v);
    ParallelAxis(v, mu + o, mu);
    assert mu + o - mu == o && x - (mu + o) == x - mu - o;
    TimesIsProduct(|v|, Square(o));
    Appended(v, x, mu + o);
  }

  lemma SquaredOfAdd(m: Moments, x: real, o: real)
    requires o == (x - m.mean) / (m.n as real + 1.0)
    ensures m.Add(x) == Moments(m.n + 1, m.mean + o, m.squared + Product(m.n as real, Square(o)) + Square(x - m.mean - o))
  {
    var n, d := m.n as real, x - m.mean;
    Quotient(o, n + 1.0, d);
    MovedSquares(n, d, o);
  }

  lemma FirstValue(x: real)
    ensures NO_MOMENTS.Add(x) == Moments(1, x, 0.0)
    ensures Mean([x]) == x && SquaredDeviation([x], x) == 0.0
  {
    Appended([], x, x);
    assert [] + [x] == [x];
  }

  /** One running update is one value appended: mean and squared deviation stay exact. */
  lemma AddKeepsSummary(m: Moments, v: seq<real>, x: real)
    requires Summarises(m, v)
    ensures Summarises(m.Add(x), v + [x])
  {
    if v == [] {
      FirstValue(x);
      assert m == NO_MOMENTS && v + [x] == [x];
    } else {
      hide Square, Product, Mean;
      var o := (x - m.mean) / (|v| as real + 1.0);
      MeanOfAppended(v, x, o);
      SquaresOfAppended(v, x, o);
      SquaredOfAdd(m, x, o);
    }
  }
}
