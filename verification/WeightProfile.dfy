/** Correlations and weights of `refit_ai_weight_profile.py` over exact reals: no rounding, and
    `** 0.5` is a given function that returns the positive root of the variances it is applied to. */
module WeightProfile {

  type Row = map<string, real>

  // ---------- Sums ----------

  function Sum(xs: seq<real>): real {
    if xs == [] then 0.0 else xs[0] + Sum(xs[1..])
  }

  function Dot(a: seq<real>, b: seq<real>): real
    requires |a| == |b|
  {
    if a == [] then 0.0 else a[0] * b[0] + Dot(a[1..], b[1..])
  }

  function Mean(xs: seq<real>): real
    requires xs != []
  {
    Sum(xs) / (|xs| as real)
  }

  function Deviations(xs: seq<real>, m: real): seq<real> {
    seq(|xs|, k requires 0 <= k < |xs| => xs[k] - m)
  }

  function Covariance(xs: seq<real>, ys: seq<real>): real
    requires |xs| == |ys| > 0
  {
    Dot(Deviations(xs, Mean(xs)), Deviations(ys, Mean(ys))) / (|xs| as real)
  }

  function Variance(xs: seq<real>): real
    requires xs != []
  {
    Covariance(xs, xs)
  }

  // ---------- Cauchy-Schwarz ----------

  lemma Square(x: real)
    ensures x * x >= 0.0
  {
  }

  lemma PositiveProduct(x: real, y: real)
    requires x > 0.0 && y > 0.0
    ensures x * y > 0.0
  {
  }

  lemma LargerSquare(u: real, v: real)
    requires u > v >= 0.0
    ensures u * u > v * v
  {
    PositiveProduct(u - v, u + v);
    assert (u - v) * (u + v) == u * u - v * v;
  }

  lemma BoundFromSquares(u: real, v: real)
    requires v >= 0.0 && u * u <= v * v
    ensures -v <= u <= v
  {
    assert (-u) * (-u) == u * u;
    if u > v { LargerSquare(u, v); }
    if -u > v { LargerSquare(-u, v); }
  }

  lemma Products(x: real, p: real, q: real)
    requires x >= 0.0 && p >= q
    ensures x * p >= x * q
  {
    assert x * (p - q) >= 0.0;
  }

  /** The step of the induction: if c*c <= a*b then 2xyc <= x*x*b + y*y*a. */
  lemma MixedTerm(x: real, y: real, a: real, b: real, c: real)
    requires a >= 0.0 && b >= 0.0 && c * c <= a * b
    ensures 2.0 * (x * y) * c <= x * x * b + y * y * a
  {
    var p, q, z := x * x * b, y * y * a, x * y;
    Square(x);
    Square(y);
    Products(x * x, b, 0.0);
    Products(y * y, a, 0.0);
    Square(z);
    Products(z * z, a * b, c * c);
    assert p * q == (z * z) * (a * b) by {
      assert p * q == (x * x * b) * (y * y * a);
      assert z * z == (x * x) * (y * y);
    }
    Square(p - q);
    assert (p + q) * (p + q) == (p - q) * (p - q) + 4.0 * (p * q);
    var u := 2.0 * z * c;
    assert u * u == 4.0 * ((z * z) * (c * c));
    BoundFromSquares(u, p + q);
  }

  lemma {:induction false} DotSelf(a: seq<real>)
    ensures Dot(a, a) >= 0.0
  {
    if a == [] {
    } else {
      DotSelf(a[1..]);
      Square(a[0]);
    }
  }

  /** The square of an inner product is at most the product of the two norms squared. */
  lemma {:induction false} CauchySchwarz(a: seq<real>, b: seq<real>)
    requires |a| == |b|
    ensures Dot(a, b) * Dot(a, b) <= Dot(a, a) * Dot(b, b)
  {
    if a == [] {
    } else {
      var x, y := a[0], b[0];
      var A, B, C := Dot(a[1..], a[1..]), Dot(b[1..], b[1..]), Dot(a[1..], b[1..]);
      CauchySchwarz(a[1..], b[1..]);
      DotSelf(a[1..]);
      DotSelf(b[1..]);
      OneMoreTerm(x, y, A, B, C, Dot(a, b), Dot(a, a), Dot(b, b));
    }
  }

  lemma OneMoreTerm(x: real, y: real, a: real, b: real, c: real, d: real, e: real, f: real)
    requires a >= 0.0 && b >= 0.0 && c * c <= a * b
    requires d == x * y + c && e == x * x + a && f == y * y + b
    ensures d * d <= e * f
  {
    MixedTerm(x, y, a, b, c);
    Expand(x, y, a, b, c);
  }

  lemma Expand(x: real, y: real, a: real, b: real, c: real)
    ensures (x * x + a) * (y * y + b) - (x * y + c) * (x * y + c) ==
            (a * b - c * c) + (x * x * b + y * y * a - 2.0 * (x * y) * c)
  {
    assert (x * x + a) * (y * y + b) == (x * x) * (y * y) + x * x * b + a * (y * y) + a * b;
    assert (x * y + c) * (x * y + c) == (x * y) * (x * y) + 2.0 * (x * y) * c + c * c;
    assert (x * y) * (x * y) == (x * x) * (y * y);
  }

  /** Squared covariance never exceeds the product of the variances. */
  lemma CovarianceBound(xs: seq<real>, ys: seq<real>)
    requires |xs| == |ys| > 0
    ensures Covariance(xs, ys) * Covariance(xs, ys) <= Variance(xs) * Variance(ys)
    ensures Variance(xs) >= 0.0
  {
    BoundFor(xs, ys, Covariance(xs, ys), Variance(xs), Variance(ys));
  }

  lemma BoundFor(xs: seq<real>, ys: seq<real>, c: real, v: real, w: real)
    requires |xs| == |ys| > 0 && c == Covariance(xs, ys) && v == Variance(xs) && w == Variance(ys)
    ensures c * c <= v * w && v >= 0.0
  {
    var dx, dy, n := Deviations(xs, Mean(xs)), Deviations(ys, Mean(ys)), |xs| as real;
    VarianceOver(xs, n);
    VarianceOver(ys, n);
    MeanProducts(dx, dy, n, c, v, w);
  }

  lemma VarianceOver(xs: seq<real>, n: real)
    requires xs != [] && n == |xs| as real
    ensures Variance(xs) == Dot(Deviations(xs, Mean(xs)), Deviations(xs, Mean(xs))) / n
  {
  }

  lemma MeanProducts(dx: seq<real>, dy: seq<real>, n: real, c: real, v: real, w: real)
    requires |dx| == |dy| && n > 0.0 && c == Dot(dx, dy) / n && v == Dot(dx, dx) / n && w == Dot(dy, dy) / n
    ensures c * c <= v * w && v >= 0.0
  {
    CauchySchwarz(dx, dy);
    DotSelf(dx);
    ScaledBound(Dot(dx, dy), Dot(dx, dx), Dot(dy, dy), n, c, v, w);
  }

  lemma ScaledBound(p: real, a: real, b: real, n: real, c: real, v: real, w: real)
    requires n > 0.0 && p * p <= a * b && a >= 0.0
    requires c == p / n && v == a / n && w == b / n
    ensures c * c <= v * w && v >= 0.0
  {
    Scale(p, a, b, n);
    assert c * c == (p / n) * (p / n) && v * w == (a / n) * (b / n);
  }

  lemma Scale(c: real, a: real, b: real, n: real)
    requires n > 0.0 && c * c <= a * b
    ensures (c / n) * (c / n) <= (a / n) * (b / n)
  {
    var i := 1.0 / n;
    assert c / n == c * i && a / n == a * i && b / n == b * i;
    Square(i);
    Products(i * i, a * b, c * c);
    assert (c * i) * (c * i) == (i * i) * (c * c);
    assert (a * i) * (b * i) == (i * i) * (a * b);
  }

  // ---------- `_corr` ----------

  /** The values of one column on the rows that have both it and the target. */
  function Column(rows: seq<Row>, feature: string, target: string, wanted: string): (xs: seq<real>)
    requires wanted == feature || wanted == target
  {
    if rows == [] then []
    else
      var front, last := Column(rows[..|rows| - 1], feature, target, wanted), rows[|rows| - 1];
      if feature in last && target in last then front + [last[wanted]] else front
  }

  lemma ColumnsAlign(rows: seq<Row>, feature: string, target: string)
    ensures |Column(rows, feature, target, feature)| == |Column(rows, feature, target, target)|
  {
  }

  const MIN_PAIRS := 8

  /** `root` is the square root at v. */
  predicate IsRoot(root: real -> real, v: real) {
    v > 0.0 ==> root(v) > 0.0 && root(v) * root(v) == v
  }

  function Correlation(xs: seq<real>, ys: seq<real>, root: real -> real): real
    requires |xs| == |ys|
    requires |xs| > 0 ==> IsRoot(root, Variance(xs)) && IsRoot(root, Variance(ys))
  {
    if |xs| < MIN_PAIRS then 0.0
    else
      var vx, vy := Variance(xs), Variance(ys);
      if vx <= 0.0 || vy <= 0.0 then 0.0
      else
        PositiveProduct(root(vx), root(vy));
        Covariance(xs, ys) / (root(vx) * root(vy))
  }

  lemma SquareOfProduct(p: real, q: real, v: real, w: real)
    requires p * p == v && q * q == w
    ensures (p * q) * (p * q) == v * w
  {
    assert (p * q) * (p * q) == (p * p) * (q * q);
  }

  lemma BoundedQuotient(c: real, s: real)
    requires s > 0.0 && -s <= c <= s
    ensures -1.0 <= c / s <= 1.0
  {
  }

  /** A number over the product of two positive ones, bounded by their squares. */
  lemma QuotientInRange(c: real, p: real, q: real, v: real, w: real)
    requires p > 0.0 && q > 0.0 && p * p == v && q * q == w && c * c <= v * w
    ensures p * q > 0.0 && -1.0 <= c / (p * q) <= 1.0
  {
    PositiveProduct(p, q);
    SquareOfProduct(p, q, v, w);
    BoundFromSquares(c, p * q);
    BoundedQuotient(c, p * q);
  }

  lemma QuotientForm(xs: seq<real>, ys: seq<real>, root: real -> real, c: real, p: real, q: real)
    requires |xs| == |ys| >= MIN_PAIRS && Variance(xs) > 0.0 && Variance(ys) > 0.0
    requires IsRoot(root, Variance(xs)) && IsRoot(root, Variance(ys))
    requires c == Covariance(xs, ys) && p == root(Variance(xs)) && q == root(Variance(ys))
    ensures p * q > 0.0 && Correlation(xs, ys, root) == c / (p * q)
  {
    PositiveProduct(p, q);
  }

  lemma RangeFor(xs: seq<real>, ys: seq<real>, root: real -> real, r: real, c: real, p: real, q: real)
    requires |xs| == |ys| >= MIN_PAIRS && Variance(xs) > 0.0 && Variance(ys) > 0.0
    requires IsRoot(root, Variance(xs)) && IsRoot(root, Variance(ys))
    requires c == Covariance(xs, ys) && p == root(Variance(xs)) && q == root(Variance(ys))
    requires r == Correlation(xs, ys, root)
    ensures -1.0 <= r <= 1.0
  {
    CovarianceBound(xs, ys);
    QuotientForm(xs, ys, root, c, p, q);
    QuotientInRange(c, p, q, Variance(xs), Variance(ys));
  }

  /** A correlation lies between -1 and 1. */
  lemma CorrelationInRange(xs: seq<real>, ys: seq<real>, root: real -> real)
    requires |xs| == |ys|
    requires |xs| > 0 ==> IsRoot(root, Variance(xs)) && IsRoot(root, Variance(ys))
    ensures -1.0 <= Correlation(xs, ys, root) <= 1.0
  {
    if |xs| >= MIN_PAIRS && Variance(xs) > 0.0 && Variance(ys) > 0.0 {
      RangeFor(xs, ys, root, Correlation(xs, ys, root), Covariance(xs, ys), root(Variance(xs)), root(Variance(ys)));
    }
  }

  /** The extreme is reached: a column correlates with itself at exactly 1. */
  lemma SelfCorrelation(xs: seq<real>, root: real -> real)
    requires |xs| >= MIN_PAIRS && Variance(xs) > 0.0 && IsRoot(root, Variance(xs))
    ensures Correlation(xs, xs, root) == 1.0
  {
    var v := Variance(xs);
    assert Covariance(xs, xs) == v && root(v) * root(v) == v;
    assert v / v == 1.0;
  }

  lemma {:induction false} DotSymmetric(a: seq<real>, b: seq<real>)
    requires |a| == |b|
    ensures Dot(a, b) == Dot(b, a)
  {
    if a == [] {
    } else {
      DotSymmetric(a[1..], b[1..]);
    }
  }

  /** Correlation does not depend on which column is the target. */
  lemma CorrelationIsSymmetric(xs: seq<real>, ys: seq<real>, root: real -> real)
    requires |xs| == |ys|
    requires |xs| > 0 ==> IsRoot(root, Variance(xs)) && IsRoot(root, Variance(ys))
    ensures Correlation(xs, ys, root) == Correlation(ys, xs, root)
  {
    if |xs| >= MIN_PAIRS {
      DotSymmetric(Deviations(xs, Mean(xs)), Deviations(ys, Mean(ys)));
      assert root(Variance(xs)) * root(Variance(ys)) == root(Variance(ys)) * root(Variance(xs));
    }
  }

  function Negated(xs: seq<real>): seq<real> {
    seq(|xs|, k requires 0 <= k < |xs| => -xs[k])
  }

  lemma {:induction false} SumNegated(xs: seq<real>)
    ensures Sum(Negated(xs)) == -Sum(xs)
  {
    if xs == [] {
    } else {
      assert Negated(xs)[1..] == Negated(xs[1..]);
      SumNegated(xs[1..]);
    }
  }

  lemma {:induction false} DotNegated(a: seq<real>, b: seq<real>)
    requires |a| == |b|
    ensures Dot(a, Negated(b)) == -Dot(a, b) && Dot(Negated(a), Negated(b)) == Dot(a, b)
  {
    if a == [] {
    } else {
      assert Negated(a)[1..] == Negated(a[1..]) && Negated(b)[1..] == Negated(b[1..]);
      DotNegated(a[1..], b[1..]);
      assert a[0] * -b[0] == -(a[0] * b[0]) && (-a[0]) * -b[0] == a[0] * b[0];
    }
  }

  lemma QuotientNegated(s: real, n: real)
    requires n != 0.0
    ensures (-s) / n == -(s / n)
  {
  }

  lemma DeviationsNegated(ys: seq<real>)
    requires ys != []
    ensures Deviations(Negated(ys), Mean(Negated(ys))) == Negated(Deviations(ys, Mean(ys)))
  {
    SumNegated(ys);
    QuotientNegated(Sum(ys), |ys| as real);
    assert Mean(Negated(ys)) == -Mean(ys);
  }

  lemma NegatedMoments(xs: seq<real>, ys: seq<real>)
    requires |xs| == |ys| > 0
    ensures Variance(Negated(ys)) == Variance(ys) && Covariance(xs, Negated(ys)) == -Covariance(xs, ys)
  {
    var dx, dy := Deviations(xs, Mean(xs)), Deviations(ys, Mean(ys));
    DeviationsNegated(ys);
    DotNegated(dx, dy);
    DotNegated(dy, dy);
    QuotientNegated(Dot(dx, dy), |xs| as real);
  }

  /** Reversing a column reverses the correlation. */
  lemma NegationFlips(xs: seq<real>, ys: seq<real>, root: real -> real)
    requires |xs| == |ys|
    requires |xs| > 0 ==> IsRoot(root, Variance(xs)) && IsRoot(root, Variance(ys))
    requires |xs| > 0 ==> IsRoot(root, Variance(Negated(ys)))
    ensures Correlation(xs, Negated(ys), root) == -Correlation(xs, ys, root)
  {
    if |xs| >= MIN_PAIRS { NegatedMoments(xs, ys); }
  }

  ghost predicate RootsFor(rows: seq<Row>, feature: string, target: string, root: real -> real) {
    var xs, ys := Column(rows, feature, target, feature), Column(rows, feature, target, target);
    (|xs| > 0 ==> IsRoot(root, Variance(xs))) && (|ys| > 0 ==> IsRoot(root, Variance(ys)))
  }

  function CorrelationOf(rows: seq<Row>, feature: string, target: string, root: real -> real): real
    requires RootsFor(rows, feature, target, root)
  {
    ColumnsAlign(rows, feature, target);
    Correlation(Column(rows, feature, target, feature), Column(rows, feature, target, target), root)
  }

  /** `_corr`: the loop that collects the pairs, then the quotient. */
  method Corr(rows: seq<Row>, feature: string, target: string, root: real -> real) returns (r: real)
    requires RootsFor(rows, feature, target, root)
    ensures r == CorrelationOf(rows, feature, target, root) && -1.0 <= r <= 1.0
  {
    var xs: seq<real>, ys: seq<real> := [], [];
    for i := 0 to |rows|
      invariant xs == Column(rows[..i], feature, target, feature) && ys == Column(rows[..i], feature, target, target)
    {
      var row := rows[i];
      assert rows[..i + 1][..i] == rows[..i];
      if feature in row && target in row {
        xs := xs + [row[feature]];
        ys := ys + [row[target]];
      }
    }
    assert rows[..|rows|] == rows;
    ColumnsAlign(rows, feature, target);
    CorrelationInRange(xs, ys, root);
    r := Correlation(xs, ys, root);
  }

  // ---------- What a correlation measures ----------

  function Shifted(xs: seq<real>, s: real): seq<real> {
    seq(|xs|, k requires 0 <= k < |xs| => xs[k] + s)
  }

  lemma {:induction false} SumShifted(xs: seq<real>, s: real)
    ensures Sum(Shifted(xs, s)) == Sum(xs) + s * (|xs| as real)
  {
    if xs == [] {
    } else {
      assert Shifted(xs, s)[1..] == Shifted(xs[1..], s);
      SumShifted(xs[1..], s);
      assert |xs| as real == 1.0 + (|xs[1..]| as real);
      Distribute(1.0, |xs[1..]| as real, s);
    }
  }

  lemma MeanRestores(total: real, n: real)
    requires n != 0.0
    ensures (total / n) * n == total
  {
  }

  /** Deviations from the mean sum to zero, and from nothing else: this is what makes it the mean. */
  lemma DeviationsSumToZeroIff(xs: seq<real>, m: real)
    requires xs != []
    ensures Sum(Deviations(xs, m)) == 0.0 <==> m == Mean(xs)
  {
    var n := |xs| as real;
    assert Deviations(xs, m) == Shifted(xs, -m);
    SumShifted(xs, -m);
    MeanRestores(Sum(xs), n);
    ZeroBalance(Sum(xs), m, Mean(xs), n);
  }

  lemma ZeroBalance(total: real, m: real, mean: real, n: real)
    requires n > 0.0 && mean * n == total
    ensures total + (-m) * n == 0.0 <==> m == mean
  {
    assert total + (-m) * n == (mean - m) * n;
    if m < mean { PositiveProduct(mean - m, n); }
    if mean < m { PositiveProduct(m - mean, n); assert (mean - m) * n == -((m - mean) * n); }
  }

  lemma ShiftedDeviations(xs: seq<real>, s: real)
    requires xs != []
    ensures Deviations(Shifted(xs, s), Mean(Shifted(xs, s))) == Deviations(xs, Mean(xs))
  {
    DeviationsSumToZeroIff(Shifted(xs, s), Mean(xs) + s);
    assert Deviations(Shifted(xs, s), Mean(xs) + s) == Deviations(xs, Mean(xs));
    DeviationsSumToZeroIff(xs, Mean(xs));
  }

  /** Correlation does not depend on where a column has its zero. */
  lemma CorrelationIgnoresShift(xs: seq<real>, ys: seq<real>, s: real, root: real -> real)
    requires |xs| == |ys|
    requires |xs| > 0 ==> IsRoot(root, Variance(xs)) && IsRoot(root, Variance(ys))
    ensures |xs| > 0 ==> Variance(Shifted(xs, s)) == Variance(xs)
    ensures Correlation(Shifted(xs, s), ys, root) == Correlation(xs, ys, root)
  {
    if |xs| > 0 { ShiftedDeviations(xs, s); }
  }

  /** With fewer than eight pairs, or a column without spread, it is 0. */
  lemma NoCorrelation(xs: seq<real>, ys: seq<real>, root: real -> real)
    requires |xs| == |ys|
    requires |xs| > 0 ==> IsRoot(root, Variance(xs)) && IsRoot(root, Variance(ys))
    ensures |xs| < 8 || Variance(xs) == 0.0 || Variance(ys) == 0.0 ==> Correlation(xs, ys, root) == 0.0
  {
  }

  // ---------- Weights ----------

  type Weights = map<string, real>

  const TINY := 0.000000001
  const FLOOR := 0.05

  ghost predicate Distinct(keys: seq<string>) {
    forall i, j :: 0 <= i < j < |keys| ==> keys[i] != keys[j]
  }

  ghost predicate KeysOf(keys: seq<string>, m: Weights) {
    Distinct(keys) && forall k :: k in keys <==> k in m
  }

  function Total(keys: seq<string>, m: Weights): real
    requires forall k :: k in keys ==> k in m
  {
    if keys == [] then 0.0 else m[keys[0]] + Total(keys[1..], m)
  }

  /** `max(0.0, raw.get(k, 0.0))`. */
  function Clipped(raw: Weights, k: string): real {
    if k in raw && raw[k] > 0.0 then raw[k] else 0.0
  }

  function ClippedAll(keys: seq<string>, raw: Weights): Weights {
    map k | k in keys :: Clipped(raw, k)
  }

  function EffectiveFloor(keys: seq<string>, floor: real): real {
    if floor * (|keys| as real) >= 1.0 then 0.0 else floor
  }

  /** The floor plus a proportional part of what the floors leave. */
  function Shares(keys: seq<string>, clipped: Weights, total: real, f: real, spread: real): Weights
    requires total != 0.0 && forall k :: k in keys ==> k in clipped
  {
    map k | k in keys :: f + (clipped[k] / total) * spread
  }

  /** What the floors leave to share. */
  function Spread(keys: seq<string>, floor: real): real {
    1.0 - EffectiveFloor(keys, floor) * (|keys| as real)
  }

  /** `_normalize_weights`, before rounding; `keys` lists the keys of `defaults` in order. */
  function Normalized(keys: seq<string>, raw: Weights, defaults: Weights, floor: real): Weights
    requires KeysOf(keys, defaults) && floor >= 0.0
  {
    var clipped := ClippedAll(keys, raw);
    var total := Total(keys, clipped);
    if total <= TINY then defaults
    else
      var shares := Shares(keys, clipped, total, EffectiveFloor(keys, floor), Spread(keys, floor));
      SharesSumToOne(keys, clipped, floor);
      map k | k in keys :: shares[k] / Total(keys, shares)
  }

  lemma Distribute(x: real, y: real, c: real)
    ensures (x + y) * c == x * c + y * c && c * (x + y) == c * x + c * y
  {
  }

  lemma {:induction false} TotalOfShares(part: seq<string>, clipped: Weights, shares: Weights, f: real, c: real)
    requires forall k :: k in part ==> k in clipped && k in shares && shares[k] == f + clipped[k] * c
    ensures Total(part, shares) == f * (|part| as real) + Total(part, clipped) * c
  {
    if part == [] {
    } else {
      TotalOfShares(part[1..], clipped, shares, f, c);
      Distribute(clipped[part[0]], Total(part[1..], clipped), c);
      Distribute(1.0, |part[1..]| as real, f);
      assert |part| as real == 1.0 + (|part[1..]| as real);
    }
  }

  lemma Reassociate(x: real, t: real, s: real)
    requires t != 0.0
    ensures (x / t) * s == x * (s / t) && t * (s / t) == s
  {
    var i := 1.0 / t;
    assert x / t == x * i && s / t == s * i && t * i == 1.0;
    assert (x * i) * s == x * (s * i);
    assert t * (s * i) == (t * i) * s;
  }

  lemma ShareAtRate(x: real, total: real, f: real, spread: real, c: real)
    requires total != 0.0 && c == spread / total
    ensures f + (x / total) * spread == f + x * c
  {
    Reassociate(x, total, spread);
  }

  lemma SharesAtRate(keys: seq<string>, clipped: Weights, total: real, f: real, spread: real, c: real)
    requires total != 0.0 && c == spread / total && forall k :: k in keys ==> k in clipped
    ensures forall k :: k in keys ==> Shares(keys, clipped, total, f, spread)[k] == f + clipped[k] * c
  {
    forall k | k in keys ensures Shares(keys, clipped, total, f, spread)[k] == f + clipped[k] * c {
      ShareAtRate(clipped[k], total, f, spread, c);
    }
  }

  lemma RateRestores(total: real, spread: real, c: real)
    requires total != 0.0 && c == spread / total
    ensures total * c == spread
  {
    Reassociate(1.0, total, spread);
  }

  lemma TotalAtRate(keys: seq<string>, clipped: Weights, shares: Weights, f: real, c: real, spread: real)
    requires forall k :: k in keys ==> k in clipped && k in shares && shares[k] == f + clipped[k] * c
    requires Total(keys, clipped) * c == spread
    ensures Total(keys, shares) == f * (|keys| as real) + spread
  {
    TotalOfShares(keys, clipped, shares, f, c);
  }

  lemma TotalIsFloorsPlusSpread(keys: seq<string>, clipped: Weights, total: real, f: real, spread: real)
    requires total != 0.0 && (forall k :: k in keys ==> k in clipped) && total == Total(keys, clipped)
    ensures Total(keys, Shares(keys, clipped, total, f, spread)) == f * (|keys| as real) + spread
  {
    var c := spread / total;
    SharesAtRate(keys, clipped, total, f, spread, c);
    RateRestores(total, spread, c);
    TotalAtRate(keys, clipped, Shares(keys, clipped, total, f, spread), f, c, spread);
  }

  lemma SharesSum(keys: seq<string>, clipped: Weights, total: real, f: real, spread: real)
    requires total != 0.0 && (forall k :: k in keys ==> k in clipped) && total == Total(keys, clipped)
    requires spread == 1.0 - f * (|keys| as real)
    ensures Total(keys, Shares(keys, clipped, total, f, spread)) == 1.0
  {
    TotalIsFloorsPlusSpread(keys, clipped, total, f, spread);
  }

  /** Before the final division the shares already sum to exactly 1. */
  lemma SharesSumToOne(keys: seq<string>, clipped: Weights, floor: real)
    requires (forall k :: k in keys ==> k in clipped) && Total(keys, clipped) > TINY
    ensures var total, f, spread := Total(keys, clipped), EffectiveFloor(keys, floor), Spread(keys, floor);
            Total(keys, Shares(keys, clipped, total, f, spread)) == 1.0
  {
    SharesSum(keys, clipped, Total(keys, clipped), EffectiveFloor(keys, floor), Spread(keys, floor));
  }

  lemma FloorLeavesSpread(keys: seq<string>, floor: real)
    requires floor >= 0.0
    ensures EffectiveFloor(keys, floor) >= 0.0 && Spread(keys, floor) > 0.0
  {
    var n := |keys| as real;
    if floor * n >= 1.0 {
      assert EffectiveFloor(keys, floor) == 0.0 && 0.0 * n == 0.0;
    } else {
      assert EffectiveFloor(keys, floor) == floor;
    }
  }

  lemma QuotientOrder(x: real, y: real, t: real, s: real)
    requires t > 0.0 && s > 0.0
    ensures (x / t) * s <= (y / t) * s <==> x <= y
    ensures x >= 0.0 ==> (x / t) * s >= 0.0
  {
    Reassociate(x, t, s);
    Reassociate(y, t, s);
    var c := s / t;
    assert c > 0.0;
    if x <= y { Products(c, y, x); } else { PositiveProduct(c, x - y); Distribute(x, -y, c); }
  }

  lemma ShareOrder(keys: seq<string>, clipped: Weights, total: real, f: real, spread: real, k: string, l: string)
    requires total > 0.0 && spread > 0.0 && k in keys && l in keys
    requires forall j :: j in keys ==> j in clipped && clipped[j] >= 0.0
    ensures var w := Shares(keys, clipped, total, f, spread); w[k] >= f && (w[k] <= w[l] <==> clipped[k] <= clipped[l])
  {
    QuotientOrder(clipped[k], clipped[l], total, spread);
  }

  lemma NormalizedIsShares(keys: seq<string>, raw: Weights, defaults: Weights, floor: real)
    requires KeysOf(keys, defaults) && floor >= 0.0 && Total(keys, ClippedAll(keys, raw)) > TINY
    ensures var clipped := ClippedAll(keys, raw);
            var shares := Shares(keys, clipped, Total(keys, clipped), EffectiveFloor(keys, floor), Spread(keys, floor));
            Normalized(keys, raw, defaults, floor) == shares && Total(keys, shares) == 1.0
  {
    var clipped := ClippedAll(keys, raw);
    var shares := Shares(keys, clipped, Total(keys, clipped), EffectiveFloor(keys, floor), Spread(keys, floor));
    SharesSumToOne(keys, clipped, floor);
    UnitDivision(keys, shares, 1.0);
  }

  lemma UnitDivision(keys: seq<string>, shares: Weights, one: real)
    requires one == 1.0 && shares.Keys == set k | k in keys
    ensures (map k | k in keys :: shares[k] / one) == shares
  {
  }

  /** A distribution over `keys` with a floor, in the order of `guide`. */
  ghost predicate OrderedDistribution(keys: seq<string>, w: Weights, floor: real, guide: Weights) {
    && (forall k :: k in keys ==> k in w && k in guide)
    && Total(keys, w) == 1.0
    && (forall k :: k in keys ==> w[k] >= floor >= 0.0)
    && (forall k, l :: k in keys && l in keys ==> (w[k] <= w[l] <==> guide[k] <= guide[l]))
  }

  /** Main result for the weights: they have the default keys and, unless the raw values leave
      nothing to share, they sum to exactly 1, each is at least the floor (0 if the floors alone
      would fill the whole), and they order the features as the clipped raw values do. */
  lemma NormalizedWeights(keys: seq<string>, raw: Weights, defaults: Weights, floor: real)
    requires KeysOf(keys, defaults) && floor >= 0.0
    ensures var w, clipped := Normalized(keys, raw, defaults, floor), ClippedAll(keys, raw);
            && w.Keys == defaults.Keys
            && (Total(keys, clipped) <= TINY ==> w == defaults)
            && (Total(keys, clipped) > TINY ==> OrderedDistribution(keys, w, EffectiveFloor(keys, floor), clipped))
  {
    if Total(keys, ClippedAll(keys, raw)) > TINY {
      NormalizedIsShares(keys, raw, defaults, floor);
      FloorLeavesSpread(keys, floor);
      var w, clipped := Normalized(keys, raw, defaults, floor), ClippedAll(keys, raw);
      forall k, l | k in keys && l in keys
        ensures w[k] >= EffectiveFloor(keys, floor) && (w[k] <= w[l] <==> clipped[k] <= clipped[l])
      {
        ShareOrder(keys, clipped, Total(keys, clipped), EffectiveFloor(keys, floor), Spread(keys, floor), k, l);
      }
    }
  }

  /** `guide` holds the positive values of `raw`, and 0 for the others and the missing ones. */
  ghost predicate PositiveParts(keys: seq<string>, raw: Weights, guide: Weights) {
    forall k :: k in keys ==>
      && k in guide
      && (k in raw && raw[k] > 0.0 ==> guide[k] == raw[k])
      && (k !in raw || raw[k] <= 0.0 ==> guide[k] == 0.0)
  }

  lemma ClippingKeepsPositive(keys: seq<string>, raw: Weights)
    ensures PositiveParts(keys, raw, ClippedAll(keys, raw))
  {
  }

  lemma ShareOfZero(x: real, total: real, f: real, spread: real)
    requires total > 0.0 && spread > 0.0 && x >= 0.0
    ensures f + (x / total) * spread == f <==> x == 0.0
    ensures x > 0.0 ==> f + (x / total) * spread > f
  {
    Reassociate(x, total, spread);
    var c := spread / total;
    if x > 0.0 { PositiveProduct(x, c); }
  }

  /** A feature whose raw value is missing or not positive gets exactly the floor; every other gets more. */
  lemma OnlyPositiveEarns(keys: seq<string>, raw: Weights, defaults: Weights, floor: real, k: string)
    requires KeysOf(keys, defaults) && floor >= 0.0 && k in keys && Total(keys, ClippedAll(keys, raw)) > TINY
    ensures var w, f := Normalized(keys, raw, defaults, floor), EffectiveFloor(keys, floor);
            k in w && if k in raw && raw[k] > 0.0 then w[k] > f else w[k] == f
  {
    NormalizedIsShares(keys, raw, defaults, floor);
    FloorLeavesSpread(keys, floor);
    ClippingKeepsPositive(keys, raw);
    var clipped := ClippedAll(keys, raw);
    ShareOfZero(clipped[k], Total(keys, clipped), EffectiveFloor(keys, floor), Spread(keys, floor));
  }

  // ---------- The final rounding ----------

  const HALF_UNIT := 0.0000005

  /** What is used of rounding to six digits: it is monotone and moves a number by at most half a unit
      of the last digit. */
  ghost predicate IsRounding(rounded: real -> real) {
    && (forall x, y :: x <= y ==> rounded(x) <= rounded(y))
    && (forall x :: x - HALF_UNIT <= rounded(x) <= x + HALF_UNIT)
  }

  function Rounded(keys: seq<string>, w: Weights, rounded: real -> real): Weights
    requires forall k :: k in keys ==> k in w
  {
    map k | k in keys :: rounded(w[k])
  }

  lemma {:induction false} RoundedTotal(part: seq<string>, w: Weights, r: Weights, rounded: real -> real)
    requires IsRounding(rounded) && forall k :: k in part ==> k in w && k in r && r[k] == rounded(w[k])
    ensures var slack := HALF_UNIT * (|part| as real);
            Total(part, w) - slack <= Total(part, r) <= Total(part, w) + slack
  {
    if part == [] {
    } else {
      RoundedTotal(part[1..], w, r, rounded);
      assert |part| as real == 1.0 + (|part[1..]| as real);
      assert r[part[0]] == rounded(w[part[0]]);
    }
  }

  /** After rounding the weights still follow the guide, are still at least a floor that has six digits
      itself, and sum to 1 up to half a unit of the last digit for each of them. */
  lemma RoundedWeights(keys: seq<string>, w: Weights, floor: real, guide: Weights, rounded: real -> real)
    requires OrderedDistribution(keys, w, floor, guide) && IsRounding(rounded) && rounded(floor) == floor
    ensures var r, slack := Rounded(keys, w, rounded), HALF_UNIT * (|keys| as real);
            && 1.0 - slack <= Total(keys, r) <= 1.0 + slack
            && (forall k :: k in keys ==> r[k] >= floor)
            && (forall k, l :: k in keys && l in keys && guide[k] <= guide[l] ==> r[k] <= r[l])
  {
    RoundedTotal(keys, w, Rounded(keys, w, rounded), rounded);
    forall k | k in keys ensures rounded(w[k]) >= floor {
      assert rounded(floor) <= rounded(w[k]);
    }
  }

  // ---------- `_derive_weights` ----------

  const TARGET := "target"

  /** The clipped correlations; all zero when there are too few rows. */
  function Correlations(rows: seq<Row>, keys: seq<string>, minRows: int, root: real -> real): Weights
    requires forall k :: k in keys ==> RootsFor(rows, k, TARGET, root)
  {
    map k | k in keys :: if |rows| < minRows then 0.0 else PositivePart(CorrelationOf(rows, k, TARGET, root))
  }

  function PositivePart(x: real): real { if x < 0.0 then 0.0 else x }

  /** The weights, before rounding. */
  function Derived(rows: seq<Row>, keys: seq<string>, defaults: Weights, minRows: int, root: real -> real): Weights
    requires KeysOf(keys, defaults) && forall k :: k in keys ==> RootsFor(rows, k, TARGET, root)
  {
    if |rows| < minRows then defaults else Normalized(keys, Correlations(rows, keys, minRows, root), defaults, FLOOR)
  }

  lemma CorrelationsInRange(rows: seq<Row>, keys: seq<string>, minRows: int, root: real -> real)
    requires forall k :: k in keys ==> RootsFor(rows, k, TARGET, root)
    ensures var c := Correlations(rows, keys, minRows, root);
            (forall k :: k in keys ==> 0.0 <= c[k] <= 1.0) && ClippedAll(keys, c) == c
  {
    var c := Correlations(rows, keys, minRows, root);
    forall k | k in keys ensures 0.0 <= c[k] <= 1.0 {
      ColumnsAlign(rows, k, TARGET);
      CorrelationInRange(Column(rows, k, TARGET, k), Column(rows, k, TARGET, TARGET), root);
    }
  }

  /** With enough rows a positive correlation stands as it is and any other counts as 0; with too few
      rows all are 0. */
  lemma CorrelationsClip(rows: seq<Row>, keys: seq<string>, minRows: int, root: real -> real, k: string)
    requires (forall j :: j in keys ==> RootsFor(rows, j, TARGET, root)) && k in keys
    ensures var c, corr := Correlations(rows, keys, minRows, root), CorrelationOf(rows, k, "target", root);
            && (|rows| >= minRows && corr > 0.0 ==> c[k] == corr)
            && (|rows| < minRows || corr <= 0.0 ==> c[k] == 0.0)
  {
  }

  /** When there is something to share, a feature whose correlation with the target is not positive gets
      exactly the floor, and every other gets more. */
  lemma OnlyPositiveCorrelationEarns(rows: seq<Row>, keys: seq<string>, defaults: Weights, minRows: int,
                                     root: real -> real, k: string)
    requires KeysOf(keys, defaults) && (forall j :: j in keys ==> RootsFor(rows, j, TARGET, root)) && k in keys
    requires |rows| >= minRows && Total(keys, Correlations(rows, keys, minRows, root)) > TINY
    ensures var w, f := Derived(rows, keys, defaults, minRows, root), if |keys| < 20 then 0.05 else 0.0;
            k in w && if CorrelationOf(rows, k, "target", root) > 0.0 then w[k] > f else w[k] == f
  {
    var c := Correlations(rows, keys, minRows, root);
    CorrelationsClip(rows, keys, minRows, root, k);
    CorrelationsInRange(rows, keys, minRows, root);
    FloorOfDerived(keys);
    OnlyPositiveEarns(keys, c, defaults, FLOOR, k);
  }

  lemma FloorOfDerived(keys: seq<string>)
    ensures EffectiveFloor(keys, FLOOR) == if |keys| < 20 then FLOOR else 0.0
  {
  }

  /** Derived weights either are the defaults, or form a distribution with floor 0.05 (0 from twenty
      features on) ordered as the correlations, each of which lies in [0, 1]. */
  lemma DerivedWeights(rows: seq<Row>, keys: seq<string>, defaults: Weights, minRows: int, root: real -> real)
    requires KeysOf(keys, defaults) && forall k :: k in keys ==> RootsFor(rows, k, TARGET, root)
    ensures var c, w := Correlations(rows, keys, minRows, root), Derived(rows, keys, defaults, minRows, root);
            && w.Keys == defaults.Keys
            && (forall k :: k in keys ==> 0.0 <= c[k] <= 1.0)
            && (forall k :: k in keys ==>
                  var corr := CorrelationOf(rows, k, "target", root);
                  c[k] == if |rows| >= minRows && corr > 0.0 then corr else 0.0)
            && (|rows| < minRows || Total(keys, c) <= 0.000000001 ==> w == defaults)
            && (|rows| >= minRows && Total(keys, c) > 0.000000001 ==>
                  OrderedDistribution(keys, w, if |keys| < 20 then 0.05 else 0.0, c))
  {
    CorrelationsInRange(rows, keys, minRows, root);
    FloorOfDerived(keys);
    NormalizedWeights(keys, Correlations(rows, keys, minRows, root), defaults, FLOOR);
    forall k | k in keys
      ensures var corr := CorrelationOf(rows, k, "target", root);
              Correlations(rows, keys, minRows, root)[k] == if |rows| >= minRows && corr > 0.0 then corr else 0.0
    {
      CorrelationsClip(rows, keys, minRows, root, k);
    }
  }
}
