/** `integrate(f, tetrahedron, scheme)` of quadrature/tetrahedron.py: the
    scheme's points are mapped affinely onto the tetrahedron, and the weighted
    sum of `f` is scaled by the tetrahedron's volume, taken as a sixth of the
    edge determinant. */
module TetrahedronIntegration {
  import opened RealSums
  import opened Orbits

  datatype Vec3 = Vec3(x: real, y: real, z: real)
  {
    function Plus(v: Vec3): Vec3 { Vec3(x + v.x, y + v.y, z + v.z) }
    function Minus(v: Vec3): Vec3 { Vec3(x - v.x, y - v.y, z - v.z) }
    function Times(c: real): Vec3 { Vec3(c * x, c * y, c * z) }
  }

  /** The four vertices `tetrahedron[0..3]`. */
  datatype Tetrahedron = Tetrahedron(v0: Vec3, v1: Vec3, v2: Vec3, v3: Vec3)

  function Abs(r: real): real { if r < 0.0 then -r else r }

  /** Column `p` of `x`: `v0 (1 - xi0 - xi1 - xi2) + v1 xi0 + v2 xi1 + v3 xi2`.
      `MapPointAffine` shows that this is `v0 + J xi` for the edge matrix `J`
      of `det`. */
  function MapPoint(t: Tetrahedron, p: Point): Vec3
  {
    t.v0.Times(1.0 - p.x - p.y - p.z).Plus(t.v1.Times(p.x)).Plus(t.v2.Times(p.y)).Plus(t.v3.Times(p.z))
  }

  /** The rule of Sarrus for the matrix with columns `j0`, `j1`, `j2`: the
      triple product `j0 . (j1 x j2)`. */
  function Sarrus(j0: Vec3, j1: Vec3, j2: Vec3): (d: real)
    ensures d == Dot(j0, Cross(j1, j2))
  {
    j0.x * j1.y * j2.z + j1.x * j2.y * j0.z + j2.x * j0.y * j1.z
      - j0.z * j1.y * j2.x - j1.z * j2.y * j0.x - j2.z * j0.y * j1.x
  }

  /** `det`: the rule of Sarrus on the edge vectors `J0 = v1 - v0`,
      `J1 = v2 - v0`, `J2 = v3 - v0`, times `1/6`. */
  function SignedVolume(t: Tetrahedron): real
  {
    Sarrus(t.v1.Minus(t.v0), t.v2.Minus(t.v0), t.v3.Minus(t.v0)) * (1.0 / 6.0)
  }

  /** `f(x)`: the integrand at every mapped scheme point. */
  function Values(f: Vec3 -> real, t: Tetrahedron, points: seq<Point>): (values: seq<real>)
    ensures |values| == |points|
    ensures forall p :: 0 <= p < |points| ==> values[p] == f(MapPoint(t, points[p]))
  {
    seq(|points|, p requires 0 <= p < |points| => f(MapPoint(t, points[p])))
  }

  /** `fsum(weights * f(x).T * abs(det))`, with `fsum` taken as the exact sum. */
  function Integrate(f: Vec3 -> real, t: Tetrahedron, weights: seq<real>, points: seq<Point>): real
    requires |weights| == |points|
  {
    Sum(Terms(weights, Values(f, t, points), Abs(SignedVolume(t))))
  }

  // ---------------------------------------------------------------------------

  /** The affine map sends the reference vertices to `tetrahedron[0..3]`. */
  lemma MapPointVertices(t: Tetrahedron)
    ensures MapPoint(t, Point(0.0, 0.0, 0.0)) == t.v0
    ensures MapPoint(t, Point(1.0, 0.0, 0.0)) == t.v1
    ensures MapPoint(t, Point(0.0, 1.0, 0.0)) == t.v2
    ensures MapPoint(t, Point(0.0, 0.0, 1.0)) == t.v3
  {
    var o := Vec3(0.0, 0.0, 0.0);
    assert t.v0.Times(0.0) == t.v1.Times(0.0) == t.v2.Times(0.0) == t.v3.Times(0.0) == o;
    assert t.v0.Times(1.0) == t.v0 && t.v1.Times(1.0) == t.v1;
    assert t.v2.Times(1.0) == t.v2 && t.v3.Times(1.0) == t.v3;
  }

  /** The affine map is `v0 + J xi`, where the columns of `J` are the edge
      vectors from `v0` whose determinant `det` takes. */
  lemma MapPointAffine(t: Tetrahedron, p: Point)
    ensures MapPoint(t, p) == t.v0.Plus(t.v1.Minus(t.v0).Times(p.x)).Plus(t.v2.Minus(t.v0).Times(p.y))
                                  .Plus(t.v3.Minus(t.v0).Times(p.z))
  {
  }

  /** On a scheme point (a barycentric row without its first column) the map
      is the barycentric combination of the vertices. */
  lemma MapPointBarycentric(t: Tetrahedron, r: Bary)
    requires Total(r) == 1.0
    ensures MapPoint(t, DropFirst(r))
      == t.v0.Times(r.b0).Plus(t.v1.Times(r.b1)).Plus(t.v2.Times(r.b2)).Plus(t.v3.Times(r.b3))
  {
    assert 1.0 - r.b1 - r.b2 - r.b3 == r.b0;
  }

  function Dot(u: Vec3, v: Vec3): real { u.x * v.x + u.y * v.y + u.z * v.z }

  function Cross(u: Vec3, v: Vec3): Vec3
  {
    Vec3(u.y * v.z - u.z * v.y, u.z * v.x - u.x * v.z, u.x * v.y - u.y * v.x)
  }

  /** The rule of Sarrus is the triple product `j0 . (j1 x j2)`, and
      exchanging two columns changes its sign (the two adjacent exchanges
      generate every reordering). */
  lemma SarrusIsTripleProduct(j0: Vec3, j1: Vec3, j2: Vec3)
    ensures Sarrus(j0, j1, j2) == Dot(j0, Cross(j1, j2))
    ensures Sarrus(j1, j0, j2) == - Sarrus(j0, j1, j2)
    ensures Sarrus(j0, j2, j1) == - Sarrus(j0, j1, j2)
    ensures Sarrus(j2, j1, j0) == - Sarrus(j0, j1, j2)
  {
  }

  /** Six times `det` is the triple product of the edge vectors. */
  lemma SignedVolumeIsTripleProduct(t: Tetrahedron)
    ensures 6.0 * SignedVolume(t)
      == Dot(t.v1.Minus(t.v0), Cross(t.v2.Minus(t.v0), t.v3.Minus(t.v0)))
  {
    SarrusIsTripleProduct(t.v1.Minus(t.v0), t.v2.Minus(t.v0), t.v3.Minus(t.v0));
  }

  /** The reference tetrahedron has volume 1/6. */
  lemma ReferenceVolume()
    ensures SignedVolume(Tetrahedron(Vec3(0.0, 0.0, 0.0), Vec3(1.0, 0.0, 0.0),
                                     Vec3(0.0, 1.0, 0.0), Vec3(0.0, 0.0, 1.0))) == 1.0 / 6.0
  {
    assert Sarrus(Vec3(1.0, 0.0, 0.0), Vec3(0.0, 1.0, 0.0), Vec3(0.0, 0.0, 1.0)) == 1.0;
  }

  /** A tetrahedron with a repeated vertex is flat: `det = 0`. */
  lemma SignedVolumeFlat(t: Tetrahedron)
    requires t.v0 == t.v1 || t.v0 == t.v2 || t.v0 == t.v3 || t.v1 == t.v2 || t.v1 == t.v3 || t.v2 == t.v3
    ensures SignedVolume(t) == 0.0
  {
    var e1, e2, e3 := t.v1.Minus(t.v0), t.v2.Minus(t.v0), t.v3.Minus(t.v0);
    assert Sarrus(e1, e2, e3) == Dot(e1, Cross(e2, e3));
  }

  /** Moving the tetrahedron leaves its volume unchanged. */
  lemma SignedVolumeTranslation(t: Tetrahedron, s: Vec3)
    ensures SignedVolume(Tetrahedron(t.v0.Plus(s), t.v1.Plus(s), t.v2.Plus(s), t.v3.Plus(s)))
      == SignedVolume(t)
  {
    var u := Tetrahedron(t.v0.Plus(s), t.v1.Plus(s), t.v2.Plus(s), t.v3.Plus(s));
    assert u.v1.Minus(u.v0) == t.v1.Minus(t.v0);
    assert u.v2.Minus(u.v0) == t.v2.Minus(t.v0);
    assert u.v3.Minus(u.v0) == t.v3.Minus(t.v0);
  }

  /** Exchanging two vertices flips the sign of `det` but not `abs(det)`.
      The exchanges v0-v1, v1-v2 and v2-v3 generate every vertex order, the
      first of them moving the vertex all edges are measured from. */
  lemma SignedVolumeSwap(t: Tetrahedron)
    ensures SignedVolume(Tetrahedron(t.v1, t.v0, t.v2, t.v3)) == - SignedVolume(t)
    ensures SignedVolume(Tetrahedron(t.v0, t.v2, t.v1, t.v3)) == - SignedVolume(t)
    ensures SignedVolume(Tetrahedron(t.v0, t.v1, t.v3, t.v2)) == - SignedVolume(t)
    ensures Abs(SignedVolume(Tetrahedron(t.v1, t.v0, t.v2, t.v3))) == Abs(SignedVolume(t))
    ensures Abs(SignedVolume(Tetrahedron(t.v0, t.v2, t.v1, t.v3))) == Abs(SignedVolume(t))
    ensures Abs(SignedVolume(Tetrahedron(t.v0, t.v1, t.v3, t.v2))) == Abs(SignedVolume(t))
  {
    SarrusIsTripleProduct(t.v1.Minus(t.v0), t.v2.Minus(t.v0), t.v3.Minus(t.v0));
    SwapFirstVertex(t);
  }

  /** Measuring the edges from `v1` instead of `v0`: the new edges are
      `-e1`, `e2 - e1` and `e3 - e1`. */
  lemma SwapFirstVertex(t: Tetrahedron)
    ensures SignedVolume(Tetrahedron(t.v1, t.v0, t.v2, t.v3)) == - SignedVolume(t)
  {
    var e1, e2, e3 := t.v1.Minus(t.v0), t.v2.Minus(t.v0), t.v3.Minus(t.v0);
    assert t.v0.Minus(t.v1) == e1.Times(-1.0);
    assert t.v2.Minus(t.v1) == e2.Minus(e1);
    assert t.v3.Minus(t.v1) == e3.Minus(e1);
    SarrusShear(e1, e2, e3);
  }

  /** The rule of Sarrus is linear in each column and vanishes on a repeated
      column, so negating `e1` and subtracting it from the others negates it. */
  lemma SarrusShear(e1: Vec3, e2: Vec3, e3: Vec3)
    ensures Sarrus(e1.Times(-1.0), e2.Minus(e1), e3.Minus(e1)) == - Sarrus(e1, e2, e3)
  {
  }

  /** A constant integrand integrates to the constant times the weight sum
      times the volume; with weights summing to 1 (as `show` relies on with
      `Keast(0)`), to the constant times the volume. */
  lemma IntegrateConstant(f: Vec3 -> real, c: real, t: Tetrahedron, weights: seq<real>, points: seq<Point>)
    requires |weights| == |points|
    requires forall v :: f(v) == c
    ensures Integrate(f, t, weights, points) == c * Abs(SignedVolume(t)) * Sum(weights)
    ensures Sum(weights) == 1.0 ==> Integrate(f, t, weights, points) == c * Abs(SignedVolume(t))
  {
    SumTermsConstant(c, weights, Abs(SignedVolume(t)));
    IntegrateFill(f, c, t, weights, points);
  }

  lemma IntegrateFill(f: Vec3 -> real, c: real, t: Tetrahedron, weights: seq<real>, points: seq<Point>)
    requires |weights| == |points|
    requires forall v :: f(v) == c
    ensures Integrate(f, t, weights, points) == Sum(Terms(weights, Fill(|weights|, c), Abs(SignedVolume(t))))
  {
    assert Values(f, t, points) == Fill(|points|, c);
  }

  /** The volume factors out of the weighted sum of the values, so a flat
      tetrahedron integrates every `f` to 0. */
  lemma IntegrateScale(f: Vec3 -> real, t: Tetrahedron, weights: seq<real>, points: seq<Point>)
    requires |weights| == |points|
    ensures Integrate(f, t, weights, points) == Abs(SignedVolume(t)) * Sum(Terms(weights, Values(f, t, points), 1.0))
    ensures SignedVolume(t) == 0.0 ==> Integrate(f, t, weights, points) == 0.0
  {
    SumTermsScale(weights, Values(f, t, points), Abs(SignedVolume(t)));
  }

  /** The weighted sum is linear in the integrand. */
  lemma IntegrateLinear(f: Vec3 -> real, g: Vec3 -> real, h: Vec3 -> real, a: real, b: real,
                        t: Tetrahedron, weights: seq<real>, points: seq<Point>)
    requires |weights| == |points|
    requires forall v :: h(v) == a * f(v) + b * g(v)
    ensures Integrate(h, t, weights, points)
      == a * Integrate(f, t, weights, points) + b * Integrate(g, t, weights, points)
  {
    SumTermsLinear(weights, Values(f, t, points), Values(g, t, points), a, b, Abs(SignedVolume(t)));
    IntegrateCombine(f, g, h, a, b, t, weights, points);
  }

  lemma IntegrateCombine(f: Vec3 -> real, g: Vec3 -> real, h: Vec3 -> real, a: real, b: real,
                         t: Tetrahedron, weights: seq<real>, points: seq<Point>)
    requires |weights| == |points|
    requires forall v :: h(v) == a * f(v) + b * g(v)
    ensures Integrate(h, t, weights, points)
      == Sum(Terms(weights, Add(Scale(a, Values(f, t, points)), Scale(b, Values(g, t, points))),
                   Abs(SignedVolume(t))))
  {
    var hs, fs, gs := Values(h, t, points), Values(f, t, points), Values(g, t, points);
    assert forall p :: 0 <= p < |points| ==> hs[p] == Add(Scale(a, fs), Scale(b, gs))[p];
    assert hs == Add(Scale(a, fs), Scale(b, gs));
  }
}
