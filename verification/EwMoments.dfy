/** Exponentially weighted moments and the clamped regression slope they give. */
module Regression {
  import opened RealMath

  function Pow(b: real, k: nat): real { if k == 0 then 1.0 else b * Pow(b, k - 1) }

  /** The weight of a sample that `age` later samples have followed. */
  function Weight(alpha: real, age: nat): real { alpha * Pow(1.0 - alpha, age) }

  function Term(alpha: real, age: nat, v: real): real { Weight(alpha, age) * v }

  /** The batch definition: the weighted sum of the first k of the values, ages counted from the last one. */
  function WeightedSum(alpha: real, s: seq<real>, k: nat): real
    requires k <= |s|
  {
    if k == 0 then 0.0 else WeightedSum(alpha, s, k - 1) + Term(alpha, |s| - k, s[k - 1])
  }

  function Decay(alpha: real, old': real, v: real): real { (1.0 - alpha) * old' + alpha * v }

  lemma {:induction false} OlderByOne(alpha: real, s: seq<real>, v: real, k: nat)
    requires k <= |s|
    ensures WeightedSum(alpha, s + [v], k) == (1.0 - alpha) * WeightedSum(alpha, s, k)
  {
    hide Term;
    if k > 0 {
      var longer, a := s + [v], 1.0 - alpha;
      assert WeightedSum(alpha, longer, k) == WeightedSum(alpha, longer, k - 1) + Term(alpha, |longer| - k,
                                                                                       longer[k - 1]);
      assert WeightedSum(alpha, s, k) == WeightedSum(alpha, s, k - 1) + Term(alpha, |s| - k, s[k - 1]);
      hide WeightedSum;
      OlderByOne(alpha, s, v, k - 1);
      AgedTerm(alpha, |s| - k, s[k - 1]);
      ScaleSum(a, WeightedSum(alpha, s, k - 1), Term(alpha, |s| - k, s[k - 1]),
               WeightedSum(alpha, longer, k - 1), Term(alpha, |longer| - k, longer[k - 1]), WeightedSum(alpha, s, k));
    }
  }

  lemma ScaleSum(a: real, b: real, c: real, b': real, c': real, sum: real)
    requires b' == a * b && c' == a * c && sum == b + c
    ensures b' + c' == a * sum
  {
    assert a * (b + c) == a * b + a * c;
  }

  lemma AgedTerm(alpha: real, age: nat, v: real)
    ensures Term(alpha, age + 1, v) == (1.0 - alpha) * Term(alpha, age, v)
  {
    var p := Pow(1.0 - alpha, age);
    assert Pow(1.0 - alpha, age + 1) == (1.0 - alpha) * p;
    hide Pow;
    assert (alpha * ((1.0 - alpha) * p)) * v == (1.0 - alpha) * ((alpha * p) * v);
  }

  lemma Distribute(a: real, b: real, c: real)
    ensures a * (b + c) == a * b + a * c
  {
  }

  /** One streaming step is the batch sum with one more value. */
  lemma DecayIsBatch(alpha: real, s: seq<real>, v: real)
    ensures Decay(alpha, WeightedSum(alpha, s, |s|), v) == WeightedSum(alpha, s + [v], |s| + 1)
  {
    OlderByOne(alpha, s, v, |s|);
    NewestTerm(alpha, v);
    assert (s + [v])[|s|] == v;
    assert WeightedSum(alpha, s + [v], |s| + 1) == WeightedSum(alpha, s + [v], |s|) + Term(alpha, 0, v);
    hide Term, WeightedSum;
  }

  lemma NewestTerm(alpha: real, v: real)
    ensures Term(alpha, 0, v) == alpha * v
  {
  }

  type Samples = seq<(real, real)>

  function Product(p: (real, real)): real { p.0 * p.1 }

  function Square(v: real): real { v * v }

  function Products(samples: Samples): (r: seq<real>)
    ensures |r| == |samples| && forall i :: 0 <= i < |r| ==> r[i] == Product(samples[i])
  {
    seq(|samples|, i requires 0 <= i < |samples| => Product(samples[i]))
  }

  function Squares(samples: Samples): (r: seq<real>)
    ensures |r| == |samples| && forall i :: 0 <= i < |r| ==> r[i] == Square(samples[i].0)
  {
    seq(|samples|, i requires 0 <= i < |samples| => Square(samples[i].0))
  }

  function Covariance(alpha: real, samples: Samples): real { WeightedSum(alpha, Products(samples), |samples|) }

  function Variance(alpha: real, samples: Samples): real { WeightedSum(alpha, Squares(samples), |samples|) }

  function Clamp(v: real): real { Max(-3.0, Min(3.0, v)) }

  class EwMoments {
    const alpha: real
    var cov: real
    var variance: real
    var n: nat
    ghost var samples: Samples

    /** The accumulators are the batch moments of everything seen. */
    ghost predicate Valid()
      reads this
    {
      n == |samples| && cov == Covariance(alpha, samples) && variance == Variance(alpha, samples)
    }

    constructor (alpha: real)
      ensures Valid() && this.alpha == alpha && samples == []
    {
      this.alpha := alpha;
      cov, variance, n, samples := 0.0, 0.0, 0, [];
    }

    method Update(x: real, y: real)
      requires Valid()
      modifies this
      ensures Valid() && samples == old(samples) + [(x, y)]
    {
      hide Decay, WeightedSum, Product, Square;
      cov := Decay(alpha, cov, Product((x, y)));
      variance := Decay(alpha, variance, Square(x));
      n := n + 1;
      DecayIsBatch(alpha, Products(samples), Product((x, y)));
      DecayIsBatch(alpha, Squares(samples), Square(x));
      assert Products(samples + [(x, y)]) == Products(samples) + [Product((x, y))];
      assert Squares(samples + [(x, y)]) == Squares(samples) + [Square(x)];
      samples := samples + [(x, y)];
    }

    /** Unit slope until there is evidence. */
    function Beta(): real
      reads this
    {
      if n < 30 || variance <= 0.000000000000000001 then 1.0 else Clamp(cov / variance)
    }

    /** The default, exactly until thirty samples with any spread at all have been seen. */
    lemma UnitUntilEvidence()
      requires Valid() && (|samples| < 30 || Variance(alpha, samples) <= 0.000000000000000001)
      ensures Beta() == 1.0
    {
      hide Variance, Covariance;
    }

    /** Once there is evidence, no slope in [-3, 3] has a smaller weighted squared error. */
    lemma BetaIsLeastSquares(b: real)
      requires Valid() && 30 <= n && 0.000000000000000001 < variance && -3.0 <= b <= 3.0
      ensures -3.0 <= Beta() <= 3.0
      ensures Loss(alpha, samples, Beta()) <= Loss(alpha, samples, b)
    {
      hide Loss, Covariance, Variance;
      LeastSquares(alpha, samples, cov / variance, b);
    }
  }

  // ----- the regression it solves

  function Targets(samples: Samples): (r: seq<real>)
    ensures |r| == |samples| && forall i :: 0 <= i < |r| ==> r[i] == Square(samples[i].1)
  {
    seq(|samples|, i requires 0 <= i < |samples| => Square(samples[i].1))
  }

  function SquaredResidual(p: (real, real), b: real): real { (p.1 - b * p.0) * (p.1 - b * p.0) }

  function Residuals(samples: Samples, b: real): (r: seq<real>)
    ensures |r| == |samples| && forall i :: 0 <= i < |r| ==> r[i] == SquaredResidual(samples[i], b)
  {
    seq(|samples|, i requires 0 <= i < |samples| => SquaredResidual(samples[i], b))
  }

  /** The exponentially weighted squared error of predicting y by b times x. */
  function Loss(alpha: real, samples: Samples, b: real): real { WeightedSum(alpha, Residuals(samples, b), |samples|) }

  function Quadratic(yy: real, xy: real, xx: real, b: real): real { yy - 2.0 * b * xy + b * b * xx }

  lemma ExpandResidual(p: (real, real), b: real, alpha: real, age: nat)
    ensures Term(alpha, age, SquaredResidual(p, b))
            == Quadratic(Term(alpha, age, Square(p.1)), Term(alpha, age, Product(p)), Term(alpha, age, Square(p.0)), b)
  {
    var x, y, w := p.0, p.1, Weight(alpha, age);
    hide Weight;
    assert SquaredResidual(p, b) == y * y - 2.0 * b * (x * y) + b * b * (x * x);
    ScaleThree(w, y * y, 2.0 * b * (x * y), b * b * (x * x));
    assert w * (2.0 * b * (x * y)) == 2.0 * b * (w * (x * y));
    assert w * (b * b * (x * x)) == b * b * (w * (x * x));
  }

  lemma ScaleThree(w: real, a: real, b: real, c: real)
    ensures w * (a - b + c) == w * a - w * b + w * c
  {
  }

  lemma QuadraticAdds(yy: real, xy: real, xx: real, yy': real, xy': real, xx': real, b: real)
    ensures Quadratic(yy, xy, xx, b) + Quadratic(yy', xy', xx', b) == Quadratic(yy + yy', xy + xy', xx + xx', b)
  {
    Distribute(2.0 * b, xy, xy');
    Distribute(b * b, xx, xx');
  }

  lemma {:induction false} LossUpTo(alpha: real, samples: Samples, b: real, k: nat)
    requires k <= |samples|
    ensures WeightedSum(alpha, Residuals(samples, b), k)
            == Quadratic(WeightedSum(alpha, Targets(samples), k), WeightedSum(alpha, Products(samples), k),
                         WeightedSum(alpha, Squares(samples), k), b)
  {
    hide Term, Quadratic, SquaredResidual, Square, Product;
    if k > 0 {
      LossUpTo(alpha, samples, b, k - 1);
      var age, p := |samples| - k, samples[k - 1];
      ExpandResidual(p, b, alpha, age);
      QuadraticAdds(WeightedSum(alpha, Targets(samples), k - 1), WeightedSum(alpha, Products(samples), k - 1),
                    WeightedSum(alpha, Squares(samples), k - 1), Term(alpha, age, Square(p.1)), Term(alpha, age,
                                                                                                     Product(p)),
                    Term(alpha, age, Square(p.0)), b);
    } else {
      QuadraticZero(b);
    }
  }

  lemma QuadraticZero(b: real)
    ensures Quadratic(0.0, 0.0, 0.0, b) == 0.0
  {
  }

  lemma LossIsQuadratic(alpha: real, samples: Samples, b: real)
    ensures Loss(alpha, samples, b)
            == Quadratic(WeightedSum(alpha, Targets(samples), |samples|), Covariance(alpha, samples),
                         Variance(alpha, samples), b)
  {
    LossUpTo(alpha, samples, b, |samples|);
    hide WeightedSum, Quadratic;
  }

  lemma LeastSquares(alpha: real, samples: Samples, vertex: real, b: real)
    requires 0.0 < Variance(alpha, samples) && vertex * Variance(alpha, samples) == Covariance(alpha, samples)
    requires -3.0 <= b <= 3.0
    ensures Loss(alpha, samples, Clamp(vertex)) <= Loss(alpha, samples, b)
  {
    hide Loss, Covariance, Variance, Quadratic, Clamp, WeightedSum;
    LossIsQuadratic(alpha, samples, b);
    LossIsQuadratic(alpha, samples, Clamp(vertex));
    ClampMinimises(Variance(alpha, samples), Covariance(alpha, samples), vertex, b,
                   WeightedSum(alpha, Targets(samples), |samples|));
  }

  /** A parabola opening upwards is least at the point of the interval nearest to its vertex. */
  lemma ClampMinimises(xx: real, xy: real, vertex: real, b: real, yy: real)
    requires xx > 0.0 && vertex * xx == xy && -3.0 <= b <= 3.0
    ensures Quadratic(yy, xy, xx, Clamp(vertex)) <= Quadratic(yy, xy, xx, b)
  {
    var c := Clamp(vertex);
    var d := (b - c) * (b + c - 2.0 * vertex);
    if b > c {
      NonnegativeProduct(b - c, b + c - 2.0 * vertex);
    } else if b < c {
      NonnegativeProduct(c - b, 2.0 * vertex - b - c);
      assert d == (c - b) * (2.0 * vertex - b - c);
    }
    NonnegativeProduct(xx, d);
    hide Clamp;
    QuadraticGap(yy, xy, xx, vertex, b, c);
  }

  lemma QuadraticGap(yy: real, xy: real, xx: real, vertex: real, b: real, c: real)
    requires vertex * xx == xy
    ensures Quadratic(yy, xy, xx, b) - Quadratic(yy, xy, xx, c) == xx * ((b - c) * (b + c - 2.0 * vertex))
  {
    assert (b - c) * (b + c - 2.0 * vertex) == b * b - c * c - 2.0 * (b - c) * vertex;
    assert xx * (b * b - c * c - 2.0 * (b - c) * vertex) == b * b * xx - c * c * xx - 2.0 * (b - c) * (vertex * xx);
  }
}
