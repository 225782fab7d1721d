/** Exact sums of real sequences, and the constant blocks (`w * numpy.ones(m)`)
    that the scheme constructors concatenate into their weight vectors. */
module RealSums {

  /** The exact sum of a sequence of reals (the model of `sum` and `math.fsum`). */
  function Sum(s: seq<real>): real
  {
    if |s| == 0 then 0.0 else Sum(s[..|s| - 1]) + s[|s| - 1]
  }

  /** `w * numpy.ones(m)`: a block of `m` copies of the weight `w`. */
  function Fill(m: nat, w: real): (ws: seq<real>)
    ensures |ws| == m
    ensures forall k :: 0 <= k < m ==> ws[k] == w
  {
    seq(m, _ => w)
  }

  /** `c * ws`: every weight scaled by `c`. */
  function Scale(c: real, ws: seq<real>): (r: seq<real>)
    ensures |r| == |ws|
    ensures forall k :: 0 <= k < |ws| ==> r[k] == c * ws[k]
  {
    seq(|ws|, k requires 0 <= k < |ws| => c * ws[k])
  }

  /** Scaling every weight scales the sum. */
  lemma {:induction false} SumScale(c: real, ws: seq<real>)
    ensures Sum(Scale(c, ws)) == c * Sum(ws)
    decreases |ws|
  {
    if |ws| > 0 {
      var ws' := ws[..|ws| - 1];
      assert forall k :: 0 <= k < |ws'| ==> Scale(c, ws)[k] == Scale(c, ws')[k];
      assert Scale(c, ws)[..|ws| - 1] == Scale(c, ws');
      SumScale(c, ws');
    }
  }

  /** `xs + ys`, element by element. */
  function Add(xs: seq<real>, ys: seq<real>): (r: seq<real>)
    requires |xs| == |ys|
    ensures |r| == |xs|
    ensures forall k :: 0 <= k < |xs| ==> r[k] == xs[k] + ys[k]
  {
    seq(|xs|, k requires 0 <= k < |xs| => xs[k] + ys[k])
  }

  /** Summation is additive. */
  lemma {:induction false} SumAdd(xs: seq<real>, ys: seq<real>)
    requires |xs| == |ys|
    ensures Sum(Add(xs, ys)) == Sum(xs) + Sum(ys)
    decreases |xs|
  {
    if |xs| > 0 {
      var n := |xs| - 1;
      assert forall k :: 0 <= k < n ==> Add(xs, ys)[k] == Add(xs[..n], ys[..n])[k];
      assert Add(xs, ys)[..n] == Add(xs[..n], ys[..n]);
      SumAdd(xs[..n], ys[..n]);
    }
  }

  /** Summation is linear. */
  lemma SumCombine(a: real, xs: seq<real>, b: real, ys: seq<real>)
    requires |xs| == |ys|
    ensures Sum(Add(Scale(a, xs), Scale(b, ys))) == a * Sum(xs) + b * Sum(ys)
  {
    SumAdd(Scale(a, xs), Scale(b, ys));
    SumScale(a, xs);
    SumScale(b, ys);
  }

  /** The terms `weights[p] * values[p] * scale` of a scaled weighted sum. */
  function Terms(weights: seq<real>, values: seq<real>, scale: real): (terms: seq<real>)
    requires |weights| == |values|
    ensures |terms| == |weights|
    ensures forall p :: 0 <= p < |weights| ==> terms[p] == weights[p] * values[p] * scale
  {
    seq(|weights|, p requires 0 <= p < |weights| => weights[p] * values[p] * scale)
  }

  /** The scale of a weighted sum factors out of it. */
  lemma SumTermsScale(weights: seq<real>, values: seq<real>, scale: real)
    requires |weights| == |values|
    ensures Sum(Terms(weights, values, scale)) == scale * Sum(Terms(weights, values, 1.0))
  {
    var unit := Terms(weights, values, 1.0);
    forall p | 0 <= p < |weights|
      ensures Terms(weights, values, scale)[p] == Scale(scale, unit)[p]
    {
      assert weights[p] * values[p] * scale == scale * (weights[p] * values[p] * 1.0);
    }
    assert Terms(weights, values, scale) == Scale(scale, unit);
    SumScale(scale, unit);
  }

  /** Equal values factor out of a scaled weighted sum. */
  lemma SumTermsConstant(c: real, weights: seq<real>, scale: real)
    ensures Sum(Terms(weights, Fill(|weights|, c), scale)) == c * scale * Sum(weights)
  {
    SumTermsFill(c, weights, scale);
    SumScaleProduct(c, scale, weights);
  }

  lemma SumTermsFill(c: real, weights: seq<real>, scale: real)
    ensures Sum(Terms(weights, Fill(|weights|, c), scale)) == Sum(Scale(c * scale, weights))
  {
    var terms := Terms(weights, Fill(|weights|, c), scale);
    var scaled := Scale(c * scale, weights);
    forall p | 0 <= p < |weights| ensures terms[p] == scaled[p] {
      Commute(weights[p], c, scale);
    }
    assert terms == scaled;
  }

  lemma SumScaleProduct(c: real, scale: real, weights: seq<real>)
    ensures Sum(Scale(c * scale, weights)) == c * scale * Sum(weights)
  {
    SumScale(c * scale, weights);
  }


  /** A scaled weighted sum is linear in the values. */
  lemma SumTermsLinear(weights: seq<real>, xs: seq<real>, ys: seq<real>, a: real, b: real, scale: real)
    requires |weights| == |xs| == |ys|
    ensures Sum(Terms(weights, Add(Scale(a, xs), Scale(b, ys)), scale))
      == a * Sum(Terms(weights, xs, scale)) + b * Sum(Terms(weights, ys, scale))
  {
    TermsDistribute(weights, xs, ys, a, b, scale);
    SumCombine(a, Terms(weights, xs, scale), b, Terms(weights, ys, scale));
  }

  lemma TermsDistribute(weights: seq<real>, xs: seq<real>, ys: seq<real>, a: real, b: real, scale: real)
    requires |weights| == |xs| == |ys|
    ensures Sum(Terms(weights, Add(Scale(a, xs), Scale(b, ys)), scale))
      == Sum(Add(Scale(a, Terms(weights, xs, scale)), Scale(b, Terms(weights, ys, scale))))
  {
    var zt := Terms(weights, Add(Scale(a, xs), Scale(b, ys)), scale);
    var combined := Add(Scale(a, Terms(weights, xs, scale)), Scale(b, Terms(weights, ys, scale)));
    forall p | 0 <= p < |weights| ensures zt[p] == combined[p] {
      Distribute(weights[p], xs[p], ys[p], a, b, scale);
    }
    assert zt == combined;
  }

  lemma Commute(w: real, c: real, v: real)
    ensures w * c * v == c * v * w
  {
  }

  lemma Distribute(w: real, x: real, y: real, a: real, b: real, v: real)
    ensures w * (a * x + b * y) * v == a * (w * x * v) + b * (w * y * v)
  {
  }

  /** Summation distributes over concatenation. */
  lemma {:induction false} SumAppend(a: seq<real>, b: seq<real>)
    ensures Sum(a + b) == Sum(a) + Sum(b)
    decreases |b|
  {
    if |b| == 0 {
      assert a + b == a;
    } else {
      var b' := b[..|b| - 1];
      assert (a + b)[..|a + b| - 1] == a + b';
      SumAppend(a, b');
    }
  }

  /** A block of `m` equal weights `w` sums to `m * w`. */
  lemma {:induction false} SumFill(m: nat, w: real)
    ensures Sum(Fill(m, w)) == m as real * w
  {
    if m > 0 {
      assert Fill(m, w)[..m - 1] == Fill(m - 1, w);
      SumFill(m - 1, w);
    }
  }

  /** Both summation rules at once, for weight vectors assembled from constant blocks. */
  lemma SumRules()
    ensures forall a: seq<real>, b: seq<real> :: Sum(a + b) == Sum(a) + Sum(b)
    ensures forall m: nat, w: real :: Sum(Fill(m, w)) == m as real * w
  {
    forall a: seq<real>, b: seq<real> ensures Sum(a + b) == Sum(a) + Sum(b) {
      SumAppend(a, b);
    }
    forall m: nat, w: real ensures Sum(Fill(m, w)) == m as real * w {
      SumFill(m, w);
    }
  }
}
