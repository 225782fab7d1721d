/** `mcnamee_stenger_3(n)` of quadpy/ncube/_mcnamee_stenger.py: the
    fully symmetric degree-3 formula for the cube `[-1, 1]^n`, built from the
    cube moments `I0 = 2^n` and `I2 = 2^n / 3`, a centre weight `A0` and a
    weight `A1` on the `2n` points `+-u e_i`. */
module McNameeStenger {
  import opened RealSums

  function Pow2(n: nat): (p: nat)
    ensures p > 0
  {
    if n == 0 then 1 else 2 * Pow2(n - 1)
  }

  /** The rational quantities computed in order: `I0`, `I2`, `u2`, `A1`, `A0`. */
  datatype Coefficients = Coefficients(i0: real, i2: real, u2: real, a1: real, a0: real)

  /** The cube moments `I0 = 2^n` and `I2 = I0 / 3`; then `u2` is `1/3`
      whatever the dimension, `A1` is `I0 / 2`, `A1` puts the second moment
      `I2` on the pair of points `+-u e_i` (`2 A1 u2 == I2`), and the centre
      weight is `A0 = (1 - n) 2^n`. */
  function Coefficients3(n: nat): (c: Coefficients)
    ensures c.i0 == Pow2(n) as real && c.i2 == c.i0 / 3.0
    ensures c.u2 == 1.0 / 3.0
    ensures 2.0 * c.a1 == c.i0
    ensures 2.0 * c.a1 * c.u2 == c.i2
    ensures c.a0 == (1.0 - n as real) * Pow2(n) as real
  {
    var i0 := Pow2(n) as real;
    var i2 := i0 / 3.0;
    var u2 := i2 / i0;
    OneThird(i0);
    assert i2 / (2.0 * u2) == i2 / (2.0 / 3.0);
    Coefficients(i0, i2, u2, i2 / (2.0 * u2), (1.0 - n as real) * i0)
  }

  lemma OneThird(p: real)
    requires p > 0.0
    ensures (p / 3.0) / p == 1.0 / 3.0
  {
  }

  /** The centre weight `A0 = (1 - n) I0` vanishes exactly in one dimension
      and is negative from two dimensions on. */
  lemma CentreWeightSign(n: nat)
    ensures Coefficients3(n).a0 == 0.0 <==> n == 1
    ensures n >= 2 ==> Coefficients3(n).a0 < 0.0
    ensures n == 0 ==> Coefficients3(n).a0 == 1.0
  {
    var p := Pow2(n) as real;
    if n >= 2 {
      assert (1.0 - n as real) < 0.0;
      assert (1.0 - n as real) * p < 0.0;
    }
  }

  /** The weight `I0 / (2 u^2)` printed in the article, flagged by the ERR
      comment in `mcnamee_stenger_3`, is three times `A1`; the weights would then total
      `(2n + 1) 2^n` instead of `I0` in every positive dimension. */
  lemma ArticleWeightOverweights(n: nat)
    requires n >= 1
    ensures var c := Coefficients3(n);
      c.i0 / (2.0 * c.u2) == 3.0 * c.a1
      && c.a0 + 2.0 * n as real * (c.i0 / (2.0 * c.u2)) != c.i0
  {
    var c := Coefficients3(n);
    assert c.i0 / (2.0 * c.u2) == c.i0 * 3.0 / 2.0;
    var w := c.a0 + 2.0 * n as real * (c.i0 / (2.0 * c.u2));
    assert w == (1.0 - n as real) * c.i0 + 3.0 * n as real * c.i0;
    assert w == c.i0 + 2.0 * n as real * c.i0;
    assert 2.0 * n as real * c.i0 > 0.0;
  }

  // ---------------------------------------------------------------------------
  // The points

  /** `z(n)`: the centre of the cube. */
  function Centre(n: nat): (x: seq<real>)
    ensures |x| == n && forall k :: 0 <= k < n ==> x[k] == 0.0
  {
    seq(n, _ => 0.0)
  }

  /** The point `s e_i`. */
  function Axis(n: nat, i: nat, s: real): (x: seq<real>)
    ensures |x| == n
    ensures forall k :: 0 <= k < n ==> x[k] == if k == i then s else 0.0
  {
    seq(n, k => if k == i then s else 0.0)
  }

  /** `fsd(n, (u, 1))` over the first `m` axes: `u e_i` and `-u e_i` for each
      axis `i < m`. */
  function AxisPoints(n: nat, u: real, m: nat): (pts: seq<seq<real>>)
    ensures |pts| == 2 * m
    ensures forall p :: 0 <= p < 2 * m ==> |pts[p]| == n
  {
    if m == 0 then [] else AxisPoints(n, u, m - 1) + [Axis(n, m - 1, u), Axis(n, m - 1, -u)]
  }

  datatype CubeScheme = CubeScheme(dim: nat, weights: seq<real>, points: seq<seq<real>>, degree: nat)

  /** `untangle(data)`: the centre with weight `A0`, then the `2n` axis points
      with weight `A1`; `u` stands for `sqrt(u2)`. */
  function McNameeStenger3(n: nat, u: real): (s: CubeScheme)
    ensures s.dim == n && s.degree == 3
    ensures |s.weights| == |s.points| == 2 * n + 1
    ensures forall p :: 0 <= p < |s.points| ==> |s.points[p]| == n
  {
    var c := Coefficients3(n);
    CubeScheme(n, [c.a0] + Fill(2 * n, c.a1), [Centre(n)] + AxisPoints(n, u, n), 3)
  }

  // ---------------------------------------------------------------------------
  // Applying the scheme

  /** `sum_p weights[p] * f(points[p])`, the value the scheme assigns to `f`. */
  function WeightedSum(weights: seq<real>, points: seq<seq<real>>, f: seq<real> -> real): real
    requires |weights| == |points|
    decreases |weights|
  {
    if |weights| == 0 then 0.0
    else
      WeightedSum(weights[..|weights| - 1], points[..|points| - 1], f)
        + weights[|weights| - 1] * f(points[|points| - 1])
  }

  /** The scheme applied to `f`. */
  function Quadrature(s: CubeScheme, f: seq<real> -> real): real
    requires |s.weights| == |s.points|
  {
    WeightedSum(s.weights, s.points, f)
  }

  /** An integrand taking one value `c` at every point gets `c` times the
      weight total. */
  lemma {:induction false} WeightedSumConstant(weights: seq<real>, points: seq<seq<real>>, f: seq<real> -> real, c: real)
    requires |weights| == |points|
    ensures (forall p :: 0 <= p < |points| ==> f(points[p]) == c) ==> WeightedSum(weights, points, f) == c * Sum(weights)
    decreases |weights|
  {
    if |weights| > 0 && forall p :: 0 <= p < |points| ==> f(points[p]) == c {
      var k := |weights| - 1;
      var w', p' := weights[..k], points[..k];
      assert forall q :: 0 <= q < |p'| ==> p'[q] == points[q];
      WeightedSumConstant(w', p', f, c);
      assert f(points[k]) == c;
      assert c * Sum(w') + weights[k] * c == c * (Sum(w') + weights[k]);
    }
  }

  /** `f(u e_i) + f(-u e_i)` summed over the first `m` axes. */
  function AxisSum(n: nat, u: real, f: seq<real> -> real, m: nat): real
  {
    if m == 0 then 0.0 else AxisSum(n, u, f, m - 1) + (f(Axis(n, m - 1, u)) + f(Axis(n, m - 1, -u)))
  }

  lemma {:induction false} WeightedSumAppend(w1: seq<real>, p1: seq<seq<real>>, w2: seq<real>, p2: seq<seq<real>>,
                                             f: seq<real> -> real)
    requires |w1| == |p1| && |w2| == |p2|
    ensures WeightedSum(w1 + w2, p1 + p2, f) == WeightedSum(w1, p1, f) + WeightedSum(w2, p2, f)
    decreases |w2|
  {
    if |w2| == 0 {
      assert w1 + w2 == w1 && p1 + p2 == p1;
    } else {
      var k := |w2| - 1;
      assert (w1 + w2)[..|w1 + w2| - 1] == w1 + w2[..k];
      assert (p1 + p2)[..|p1 + p2| - 1] == p1 + p2[..k];
      WeightedSumAppend(w1, p1, w2[..k], p2[..k], f);
    }
  }

  lemma WeightedSumPair(a: real, x: seq<real>, y: seq<real>, f: seq<real> -> real)
    ensures WeightedSum([a, a], [x, y], f) == a * f(x) + a * f(y)
  {
    assert [a, a][..1] == [a] && [x, y][..1] == [x];
    assert [a][..0] == [] && [x][..0] == [];
    assert WeightedSum([a], [x], f) == a * f(x);
  }

  /** One more axis adds its two points. */
  lemma AxisStep(n: nat, u: real, a: real, f: seq<real> -> real, m: nat)
    requires m > 0
    ensures WeightedSum(Fill(2 * m, a), AxisPoints(n, u, m), f)
      == WeightedSum(Fill(2 * (m - 1), a), AxisPoints(n, u, m - 1), f)
         + (a * f(Axis(n, m - 1, u)) + a * f(Axis(n, m - 1, -u)))
  {
    var pair := [Axis(n, m - 1, u), Axis(n, m - 1, -u)];
    assert Fill(2 * m, a) == Fill(2 * (m - 1), a) + [a, a];
    WeightedSumAppend(Fill(2 * (m - 1), a), AxisPoints(n, u, m - 1), [a, a], pair, f);
    WeightedSumPair(a, pair[0], pair[1], f);
  }

  /** The axis points with a common weight contribute that weight times the
      axis sum. */
  lemma {:induction false} AxisQuadrature(n: nat, u: real, a: real, f: seq<real> -> real, m: nat)
    ensures WeightedSum(Fill(2 * m, a), AxisPoints(n, u, m), f) == a * AxisSum(n, u, f, m)
  {
    if m > 0 {
      AxisStep(n, u, a, f, m);
      AxisQuadrature(n, u, a, f, m - 1);
      ScaleStep(a, AxisSum(n, u, f, m - 1), f(Axis(n, m - 1, u)), f(Axis(n, m - 1, -u)));
    }
  }

  lemma ScaleStep(a: real, rest: real, plus: real, minus: real)
    ensures a * rest + (a * plus + a * minus) == a * (rest + (plus + minus))
  {
  }

  /** The scheme applied to any `f`: `A0 f(0) + A1 * sum_i (f(u e_i) + f(-u e_i))`. */
  lemma QuadratureExpansion(n: nat, u: real, f: seq<real> -> real)
    ensures var c := Coefficients3(n);
      Quadrature(McNameeStenger3(n, u), f) == c.a0 * f(Centre(n)) + c.a1 * AxisSum(n, u, f, n)
  {
    var c := Coefficients3(n);
    WeightedSumAppend([c.a0], [Centre(n)], Fill(2 * n, c.a1), AxisPoints(n, u, n), f);
    AxisQuadrature(n, u, c.a1, f, n);
    assert [c.a0][..0] == [] && [Centre(n)][..0] == [];
  }

  // ---------------------------------------------------------------------------
  // Degree 3: exact on every monomial of degree at most 3 over [-1, 1]^n

  lemma {:induction false} AxisSumConstant(n: nat, u: real, f: seq<real> -> real, c: real, m: nat)
    requires forall x :: f(x) == c
    ensures AxisSum(n, u, f, m) == 2.0 * m as real * c
  {
    if m > 0 {
      AxisSumConstant(n, u, f, c, m - 1);
    }
  }

  /** The weights total `I0 = 2^n`, the volume of the cube. */
  lemma ExactOnConstants(n: nat, u: real, f: seq<real> -> real, c: real)
    requires forall x :: f(x) == c
    ensures Quadrature(McNameeStenger3(n, u), f) == c * Pow2(n) as real
  {
    AxisSumConstant(n, u, f, c, n);
    QuadratureOfTotal(n, u, f, c);
  }

  /** The expansion with the value `c` at the centre and `2 n c` on the axes. */
  lemma QuadratureOfTotal(n: nat, u: real, f: seq<real> -> real, c: real)
    requires f(Centre(n)) == c
    requires AxisSum(n, u, f, n) == 2.0 * n as real * c
    ensures Quadrature(McNameeStenger3(n, u), f) == c * Pow2(n) as real
  {
    var k := Coefficients3(n);
    QuadratureExpansion(n, u, f);
    WeightTotal(n);
    Factor(Quadrature(McNameeStenger3(n, u), f), k.a0, k.a1, f(Centre(n)), AxisSum(n, u, f, n),
           c, 2.0 * n as real, Pow2(n) as real);
  }

  lemma Factor(q: real, a0: real, a1: real, centre: real, axes: real, c: real, m: real, total: real)
    requires q == a0 * centre + a1 * axes
    requires centre == c && axes == m * c && a0 + m * a1 == total
    ensures q == c * total
  {
    assert a0 * c + a1 * (m * c) == c * (a0 + m * a1);
  }

  /** `A0 + 2n A1 == I0`: the centre and the `2n` axis points carry the
      cube's volume. */
  lemma WeightTotal(n: nat)
    ensures Coefficients3(n).a0 + 2.0 * n as real * Coefficients3(n).a1 == Pow2(n) as real
  {
    var c := Coefficients3(n);
    var p := Pow2(n) as real;
    assert c.a1 == p / 2.0;
    assert 2.0 * n as real * (p / 2.0) == n as real * p;
  }

  lemma {:induction false} AxisSumOdd(n: nat, u: real, f: seq<real> -> real, m: nat)
    requires forall i :: 0 <= i < n ==> f(Axis(n, i, -u)) == - f(Axis(n, i, u))
    requires m <= n
    ensures AxisSum(n, u, f, m) == 0.0
  {
    if m > 0 {
      AxisSumOdd(n, u, f, m - 1);
    }
  }

  /** A monomial with an odd exponent (`x_i`, `x_i x_j`, `x_i^3`, `x_i^2 x_j`,
      `x_i x_j x_k`) integrates to 0 over the cube; on the scheme's points each
      of them vanishes at the centre and changes sign between `u e_i` and
      `-u e_i`, and the scheme gives 0 as well. */
  lemma ExactOnOddMonomials(n: nat, u: real, f: seq<real> -> real)
    requires f(Centre(n)) == 0.0
    requires forall i :: 0 <= i < n ==> f(Axis(n, i, -u)) == - f(Axis(n, i, u))
    ensures Quadrature(McNameeStenger3(n, u), f) == 0.0
  {
    QuadratureExpansion(n, u, f);
    AxisSumOdd(n, u, f, n);
  }

  /** A mixed product `x_i x_j` (`i != j`) vanishes at the centre and on
      every axis point, and the scheme gives its integral, 0. */
  lemma ExactOnMixedProducts(n: nat, u: real, f: seq<real> -> real, i: nat, j: nat)
    requires i < n && j < n && i != j
    requires forall x :: |x| == n ==> f(x) == x[i] * x[j]
    ensures Quadrature(McNameeStenger3(n, u), f) == 0.0
  {
    assert f(Centre(n)) == 0.0;
    forall k | 0 <= k < n
      ensures f(Axis(n, k, -u)) == - f(Axis(n, k, u))
    {
      var plus, minus := Axis(n, k, u), Axis(n, k, -u);
      assert f(plus) == plus[i] * plus[j] && f(minus) == minus[i] * minus[j];
    }
    ExactOnOddMonomials(n, u, f);
  }

  /** A cube `x_i^3` is odd along axis `i` and zero on the other axes, and the
      scheme gives its integral, 0. */
  lemma ExactOnCubes(n: nat, u: real, f: seq<real> -> real, i: nat)
    requires i < n
    requires forall x :: |x| == n ==> f(x) == x[i] * x[i] * x[i]
    ensures Quadrature(McNameeStenger3(n, u), f) == 0.0
  {
    assert f(Centre(n)) == 0.0;
    forall k | 0 <= k < n
      ensures f(Axis(n, k, -u)) == - f(Axis(n, k, u))
    {
      var plus, minus := Axis(n, k, u), Axis(n, k, -u);
      assert f(plus) == plus[i] * plus[i] * plus[i] && f(minus) == minus[i] * minus[i] * minus[i];
    }
    ExactOnOddMonomials(n, u, f);
  }

  lemma {:induction false} AxisSumSquare(n: nat, u: real, f: seq<real> -> real, j: nat, m: nat)
    requires j < n && m <= n
    requires forall x :: |x| == n ==> f(x) == x[j] * x[j]
    ensures AxisSum(n, u, f, m) == if j < m then 2.0 * u * u else 0.0
  {
    if m > 0 {
      AxisSumSquare(n, u, f, j, m - 1);
      var plus, minus := Axis(n, m - 1, u), Axis(n, m - 1, -u);
      assert f(plus) == plus[j] * plus[j] && f(minus) == minus[j] * minus[j];
      if j == m - 1 {
        assert f(plus) + f(minus) == 2.0 * u * u;
      } else {
        assert f(plus) + f(minus) == 0.0;
      }
    }
  }

  /** `x_j^2` integrates to `I2 = 2^n / 3` over the cube, and so does the
      scheme when `u = sqrt(u2)`. */
  lemma ExactOnSquares(n: nat, u: real, f: seq<real> -> real, j: nat)
    requires j < n
    requires u * u == Coefficients3(n).u2
    requires forall x :: |x| == n ==> f(x) == x[j] * x[j]
    ensures Quadrature(McNameeStenger3(n, u), f) == Coefficients3(n).i2
  {
    var c := Coefficients3(n);
    QuadratureExpansion(n, u, f);
    AxisSumSquare(n, u, f, j, n);
    assert f(Centre(n)) == 0.0;
    assert c.a1 * (2.0 * u * u) == 2.0 * c.a1 * c.u2;
  }
}
