/** Barycentric rows of the reference tetrahedron and the symmetric orbit
    generators that expand one, two or three parameters into fixed lists of
    rows (`_s4`, `_s31`, `_s22`, `_s211`, `_s1111`, Hammer–Marlowe–Stroud's `_r`
    and Liu–Vinokur's `_r_alpha`, `_r_beta`, `_r_gamma_delta`). */
module Orbits {

  /** One row of a barycentric table: the weights of the four vertices. */
  datatype Bary = Bary(b0: real, b1: real, b2: real, b3: real)

  /** A point of the reference tetrahedron as the schemes store it:
      barycentric columns 1, 2 and 3. */
  datatype Point = Point(x: real, y: real, z: real)

  /** The sum of a row's four entries. */
  function Total(r: Bary): real
  {
    r.b0 + r.b1 + r.b2 + r.b3
  }

  /** Column `i` of a row. */
  function Entry(r: Bary, i: nat): real
    requires i < 4
  {
    if i == 0 then r.b0 else if i == 1 then r.b1 else if i == 2 then r.b2 else r.b3
  }

  /** The row that agrees with `r` except that column `i` holds `x`. */
  function Put(r: Bary, i: nat, x: real): (s: Bary)
    requires i < 4
    ensures Entry(s, i) == x
    ensures forall j :: 0 <= j < 4 && j != i ==> Entry(s, j) == Entry(r, j)
  {
    if i == 0 then r.(b0 := x) else if i == 1 then r.(b1 := x)
    else if i == 2 then r.(b2 := x) else r.(b3 := x)
  }

  /** The row with `v` in every column. */
  function Uniform(v: real): Bary
  {
    Bary(v, v, v, v)
  }

  /** Every row of a table is a barycentric coordinate: its entries sum to 1. */
  predicate RowsSumToOne(rows: seq<Bary>)
  {
    forall k :: 0 <= k < |rows| ==> Total(rows[k]) == 1.0
  }

  /** No row of a table occurs twice. */
  predicate PairwiseDistinct(rows: seq<Bary>)
  {
    forall i, j :: 0 <= i < j < |rows| ==> rows[i] != rows[j]
  }

  // ---------------------------------------------------------------------------
  // Dropping the first barycentric column (`bary[:, 1:]`) and restoring it.

  /** The point a scheme stores for a barycentric row: columns 1..3. */
  function DropFirst(r: Bary): Point
  {
    Point(r.b1, r.b2, r.b3)
  }

  /** `bary[:, 1:]` applied to a whole table. */
  function DropFirstColumn(rows: seq<Bary>): (points: seq<Point>)
    ensures |points| == |rows|
    ensures forall k :: 0 <= k < |rows| ==> points[k] == DropFirst(rows[k])
  {
    seq(|rows|, k requires 0 <= k < |rows| => DropFirst(rows[k]))
  }

  /** The barycentric row of a stored point: the first column is recovered as
      `1 - x - y - z`, the coefficient `integrate` gives the first vertex. */
  function Lift(p: Point): Bary
  {
    Bary(1.0 - p.x - p.y - p.z, p.x, p.y, p.z)
  }

  /** Dropping the first column loses nothing from a row that sums to 1, and
      lifting a point always yields such a row. */
  lemma DropFirstRoundTrip(r: Bary, p: Point)
    ensures Total(r) == 1.0 <==> Lift(DropFirst(r)) == r
    ensures DropFirst(Lift(p)) == p && Total(Lift(p)) == 1.0
  {
  }

  // ---------------------------------------------------------------------------
  // The orbit generators of quadrature/tetrahedron.py.

  /** `_s4`: the centroid. */
  function S4(): (rows: seq<Bary>)
    ensures |rows| == 1 && RowsSumToOne(rows)
    ensures rows[0] == Uniform(0.25)
  {
    [Bary(0.25, 0.25, 0.25, 0.25)]
  }

  /** `_s31(a)`: the four rows with three entries `a` and one entry `1 - 3a`. */
  function S31(a: real): (rows: seq<Bary>)
    ensures |rows| == 4 && RowsSumToOne(rows)
  {
    var b := 1.0 - 3.0 * a;
    [ Bary(a, a, a, b),
      Bary(a, a, b, a),
      Bary(a, b, a, a),
      Bary(b, a, a, a) ]
  }

  /** `_s22(a)`: the six rows with two entries `a` and two entries `1/2 - a`. */
  function S22(a: real): (rows: seq<Bary>)
    ensures |rows| == 6 && RowsSumToOne(rows)
  {
    var b := 0.5 - a;
    [ Bary(a, a, b, b),
      Bary(a, b, a, b),
      Bary(b, a, a, b),
      Bary(a, b, b, a),
      Bary(b, a, b, a),
      Bary(b, b, a, a) ]
  }

  /** `_s211(a, b)`: the twelve arrangements of `(a, a, b, c)` with `c = 1 - 2a - b`. */
  function S211(a: real, b: real): (rows: seq<Bary>)
    ensures |rows| == 12 && RowsSumToOne(rows)
  {
    var c := 1.0 - 2.0 * a - b;
    [ Bary(a, a, b, c),
      Bary(a, b, a, c),
      Bary(b, a, a, c),
      Bary(a, b, c, a),
      Bary(b, a, c, a),
      Bary(b, c, a, a),
      Bary(a, a, c, b),
      Bary(a, c, a, b),
      Bary(c, a, a, b),
      Bary(a, c, b, a),
      Bary(c, a, b, a),
      Bary(c, b, a, a) ]
  }

  /** `_s1111(a, b, c)`: the 24 orderings of `(a, b, c, d)` with `d = 1 - a - b - c`. */
  function S1111(a: real, b: real, c: real): (rows: seq<Bary>)
    ensures |rows| == 24 && RowsSumToOne(rows)
  {
    var d := 1.0 - a - b - c;
    [ Bary(a, b, c, d), Bary(a, b, d, c), Bary(a, c, b, d), Bary(a, c, d, b),
      Bary(a, d, b, c), Bary(a, d, c, b), Bary(b, a, c, d), Bary(b, a, d, c),
      Bary(b, c, a, d), Bary(b, c, d, a), Bary(b, d, a, c), Bary(b, d, c, a),
      Bary(c, a, b, d), Bary(c, a, d, b), Bary(c, b, a, d), Bary(c, b, d, a),
      Bary(c, d, a, b), Bary(c, d, b, a), Bary(d, a, b, c), Bary(d, a, c, b),
      Bary(d, b, a, c), Bary(d, b, c, a), Bary(d, c, a, b), Bary(d, c, b, a) ]
  }

  /** `HammerMarloweStroud._r(r)`: `a = r + (1 - r)/4` on the diagonal and
      `b = (1 - a)/3` elsewhere. */
  function HammerMarloweStroudR(r: real): (rows: seq<Bary>)
    ensures |rows| == 4 && RowsSumToOne(rows)
  {
    var a := r + (1.0 - r) / 4.0;
    var b := (1.0 - a) / 3.0;
    [ Bary(a, b, b, b),
      Bary(b, a, b, b),
      Bary(b, b, a, b),
      Bary(b, b, b, a) ]
  }

  /** `LiuVinokur._r_alpha(alpha)`: `(1 + 3 alpha)/4` on the diagonal and
      `(1 - alpha)/4` elsewhere. */
  function RAlpha(alpha: real): (rows: seq<Bary>)
    ensures |rows| == 4 && RowsSumToOne(rows)
  {
    var a := (1.0 + 3.0 * alpha) / 4.0;
    var b := (1.0 - alpha) / 4.0;
    [ Bary(a, b, b, b),
      Bary(b, a, b, b),
      Bary(b, b, a, b),
      Bary(b, b, b, a) ]
  }

  /** `LiuVinokur._r_beta(beta)`: two entries `(1 + 2 beta)/4` and two entries
      `(1 - 2 beta)/4`. */
  function RBeta(beta: real): (rows: seq<Bary>)
    ensures |rows| == 6 && RowsSumToOne(rows)
  {
    var a := (1.0 + 2.0 * beta) / 4.0;
    var b := (1.0 - 2.0 * beta) / 4.0;
    [ Bary(a, a, b, b),
      Bary(a, b, a, b),
      Bary(b, a, a, b),
      Bary(a, b, b, a),
      Bary(b, a, b, a),
      Bary(b, b, a, a) ]
  }

  /** `LiuVinokur._r_gamma_delta(gamma, delta)`: the twelve arrangements of
      `(a, a, b, c)` with `a = (1 - gamma - delta)/4`, `b = (1 + 3 gamma - delta)/4`
      and `c = (1 + 3 delta - gamma)/4`. */
  function RGammaDelta(gamma: real, delta: real): (rows: seq<Bary>)
    ensures |rows| == 12 && RowsSumToOne(rows)
  {
    var b := (1.0 + 3.0 * gamma - delta) / 4.0;
    var c := (1.0 + 3.0 * delta - gamma) / 4.0;
    var a := (1.0 - gamma - delta) / 4.0;
    [ Bary(a, a, b, c),
      Bary(a, b, a, c),
      Bary(b, a, a, c),
      Bary(a, b, c, a),
      Bary(b, a, c, a),
      Bary(b, c, a, a),
      Bary(a, a, c, b),
      Bary(a, c, a, b),
      Bary(c, a, a, b),
      Bary(a, c, b, a),
      Bary(c, a, b, a),
      Bary(c, b, a, a) ]
  }

  // ---------------------------------------------------------------------------
  // Permutation structure of the orbits: every row is an arrangement of the
  // orbit's entries (soundness), every arrangement occurs (completeness), and
  // no arrangement occurs twice when the entries differ (distinctness).

  /** The arrangement of `_s31(a)`'s entries with `1 - 3a` in column `i`. */
  function Arrange31(a: real, i: nat): Bary
    requires i < 4
  {
    Put(Uniform(a), i, 1.0 - 3.0 * a)
  }

  /** The arrangement of `_s22(a)`'s entries with `a` in columns `i` and `j`. */
  function Arrange22(a: real, i: nat, j: nat): Bary
    requires i < 4 && j < 4
  {
    Put(Put(Uniform(0.5 - a), i, a), j, a)
  }

  /** The arrangement of `_s211(a, b)`'s entries with `b` in column `i` and
      `c = 1 - 2a - b` in column `j`. */
  function Arrange211(a: real, b: real, i: nat, j: nat): Bary
    requires i < 4 && j < 4
  {
    Put(Put(Uniform(a), i, b), j, 1.0 - 2.0 * a - b)
  }

  /** The arrangement of `_s1111(a, b, c)`'s entries with `a`, `b` and `c` in
      columns `i`, `j` and `l`, and `d = 1 - a - b - c` in the remaining one. */
  function Arrange1111(a: real, b: real, c: real, i: nat, j: nat, l: nat): Bary
    requires i < 4 && j < 4 && l < 4
  {
    Put(Put(Put(Uniform(1.0 - a - b - c), i, a), j, b), l, c)
  }

  /** `r` is one of the six arrangements of `_s22(a)`'s entries. */
  predicate IsArrangement22(r: Bary, a: real)
  {
    exists i, j :: 0 <= i < j < 4 && r == Arrange22(a, i, j)
  }

  /** `r` is one of the twelve arrangements of `_s211(a, b)`'s entries. */
  predicate IsArrangement211(r: Bary, a: real, b: real)
  {
    exists i, j :: 0 <= i < 4 && 0 <= j < 4 && i != j && r == Arrange211(a, b, i, j)
  }

  /** `r` is one of the 24 arrangements of `_s1111(a, b, c)`'s entries. */
  predicate IsArrangement1111(r: Bary, a: real, b: real, c: real)
  {
    exists i, j, l :: 0 <= i < 4 && 0 <= j < 4 && 0 <= l < 4 && i != j && i != l && j != l &&
      r == Arrange1111(a, b, c, i, j, l)
  }

  /** `_s31(a)` lists the four placements of `1 - 3a` among three `a`s, row `k`
      carrying it in column `3 - k`; they differ when `a != 1 - 3a`. */
  lemma S31Orbit(a: real)
    ensures forall k :: 0 <= k < 4 ==> S31(a)[k] == Arrange31(a, 3 - k)
    ensures forall i :: 0 <= i < 4 ==> Arrange31(a, i) in S31(a)
    ensures a != 1.0 - 3.0 * a ==> PairwiseDistinct(S31(a))
  {
  }

  lemma S22Row(a: real, k: nat)
    requires k < 6
    ensures IsArrangement22(S22(a)[k], a)
  {
    var pos: seq<(nat, nat)> := [(0, 1), (0, 2), (1, 2), (0, 3), (1, 3), (2, 3)];
    var (i, j) := pos[k];
    assert S22(a)[k] == Arrange22(a, i, j);
  }

  /** `_s22(a)` lists exactly the six placements of two `a`s among `1/2 - a`s. */
  lemma S22Orbit(a: real)
    ensures forall k :: 0 <= k < 6 ==> IsArrangement22(S22(a)[k], a)
    ensures forall i, j :: 0 <= i < j < 4 ==> Arrange22(a, i, j) in S22(a)
    ensures a != 0.5 - a ==> PairwiseDistinct(S22(a))
  {
    forall k | 0 <= k < 6 {
      S22Row(a, k);
    }
  }

  lemma S211Row(a: real, b: real, k: nat)
    requires k < 12
    ensures IsArrangement211(S211(a, b)[k], a, b)
  {
    var pos: seq<(nat, nat)> := [(2, 3), (1, 3), (0, 3), (1, 2), (0, 2), (0, 1),
                                 (3, 2), (3, 1), (3, 0), (2, 1), (2, 0), (1, 0)];
    var (i, j) := pos[k];
    assert S211(a, b)[k] == Arrange211(a, b, i, j);
  }

  /** `_s211(a, b)` lists exactly the twelve arrangements of `(a, a, b, c)`. */
  lemma S211Orbit(a: real, b: real)
    ensures forall k :: 0 <= k < 12 ==> IsArrangement211(S211(a, b)[k], a, b)
    ensures forall i, j :: 0 <= i < 4 && 0 <= j < 4 && i != j ==> Arrange211(a, b, i, j) in S211(a, b)
    ensures var c := 1.0 - 2.0 * a - b;
      a != b && a != c && b != c ==> PairwiseDistinct(S211(a, b))
  {
    forall k | 0 <= k < 12 {
      S211Row(a, b, k);
    }
    S211Complete(a, b);
    S211Distinct(a, b);
  }

  lemma S211Complete(a: real, b: real)
    ensures forall i, j :: 0 <= i < 4 && 0 <= j < 4 && i != j ==> Arrange211(a, b, i, j) in S211(a, b)
  {
    var slot: seq<seq<nat>> := [[0, 5, 4, 2], [11, 0, 3, 1], [10, 9, 0, 0], [8, 7, 6, 0]];
    forall i, j | 0 <= i < 4 && 0 <= j < 4 && i != j
      ensures Arrange211(a, b, i, j) in S211(a, b)
    {
      assert S211(a, b)[slot[i][j]] == Arrange211(a, b, i, j);
    }
  }

  lemma S211Distinct(a: real, b: real)
    ensures var c := 1.0 - 2.0 * a - b;
      a != b && a != c && b != c ==> PairwiseDistinct(S211(a, b))
  {
  }

  lemma S1111Row(a: real, b: real, c: real, k: nat)
    requires k < 24
    ensures IsArrangement1111(S1111(a, b, c)[k], a, b, c)
  {
    var pos: seq<(nat, nat, nat)> :=
      [(0, 1, 2), (0, 1, 3), (0, 2, 1), (0, 3, 1), (0, 2, 3), (0, 3, 2),
       (1, 0, 2), (1, 0, 3), (2, 0, 1), (3, 0, 1), (2, 0, 3), (3, 0, 2),
       (1, 2, 0), (1, 3, 0), (2, 1, 0), (3, 1, 0), (2, 3, 0), (3, 2, 0),
       (1, 2, 3), (1, 3, 2), (2, 1, 3), (3, 1, 2), (2, 3, 1), (3, 2, 1)];
    var (i, j, l) := pos[k];
    assert S1111(a, b, c)[k] == Arrange1111(a, b, c, i, j, l);
  }

  /** Every row of `_s1111(a, b, c)` is a permutation of `(a, b, c, d)`. */
  lemma S1111Sound(a: real, b: real, c: real)
    ensures forall k :: 0 <= k < 24 ==> IsArrangement1111(S1111(a, b, c)[k], a, b, c)
  {
    forall k | 0 <= k < 24 {
      S1111Row(a, b, c, k);
    }
  }

  /** Every permutation of `(a, b, c, d)` is a row of `_s1111(a, b, c)`. */
  lemma S1111Complete(a: real, b: real, c: real)
    ensures forall i, j, l :: 0 <= i < 4 && 0 <= j < 4 && 0 <= l < 4 && i != j && i != l && j != l ==>
      Arrange1111(a, b, c, i, j, l) in S1111(a, b, c)
  {
  }

  /** Which of `a, b, c, d` the entry `x` is (0, 1, 2 or 3). */
  function Label(x: real, a: real, b: real, c: real): nat
  {
    if x == a then 0 else if x == b then 1 else if x == c then 2 else 3
  }

  /** The index `_s1111(a, b, c)` gives the permutation `r` of `(a, b, c, d)`:
      the rows are listed in lexicographic order of their labels. */
  function Rank1111(r: Bary, a: real, b: real, c: real): nat
  {
    var l0, l1 := Label(r.b0, a, b, c), Label(r.b1, a, b, c);
    var l2, l3 := Label(r.b2, a, b, c), Label(r.b3, a, b, c);
    6 * l0 + 2 * (if l1 > l0 then l1 - 1 else l1) + (if l2 < l3 then 0 else 1)
  }

  lemma S1111RowRank(a: real, b: real, c: real, k: nat)
    requires var d := 1.0 - a - b - c;
      a != b && a != c && a != d && b != c && b != d && c != d
    requires k < 24
    ensures Rank1111(S1111(a, b, c)[k], a, b, c) == k
  {
    if k < 12 {
      S1111RowRankLow(a, b, c, k);
    } else {
      S1111RowRankHigh(a, b, c, k);
    }
  }

  lemma S1111RowRankLow(a: real, b: real, c: real, k: nat)
    requires var d := 1.0 - a - b - c;
      a != b && a != c && a != d && b != c && b != d && c != d
    requires k < 12
    ensures Rank1111(S1111(a, b, c)[k], a, b, c) == k
  {
    var rows := S1111(a, b, c);
    if k < 6 {
      assert Label(rows[k].b0, a, b, c) == 0;
    } else {
      assert Label(rows[k].b0, a, b, c) == 1;
    }
  }

  lemma S1111RowRankHigh(a: real, b: real, c: real, k: nat)
    requires var d := 1.0 - a - b - c;
      a != b && a != c && a != d && b != c && b != d && c != d
    requires 12 <= k < 24
    ensures Rank1111(S1111(a, b, c)[k], a, b, c) == k
  {
    var rows := S1111(a, b, c);
    if k < 18 {
      assert Label(rows[k].b0, a, b, c) == 2;
    } else {
      assert Label(rows[k].b0, a, b, c) == 3;
    }
  }

  /** The 24 rows of `_s1111(a, b, c)` differ when `a, b, c, d` do. */
  lemma S1111Distinct(a: real, b: real, c: real)
    ensures var d := 1.0 - a - b - c;
      a != b && a != c && a != d && b != c && b != d && c != d ==> PairwiseDistinct(S1111(a, b, c))
  {
    var d := 1.0 - a - b - c;
    if a != b && a != c && a != d && b != c && b != d && c != d {
      var rows := S1111(a, b, c);
      forall i, j | 0 <= i < j < 24 ensures rows[i] != rows[j] {
        S1111RowRank(a, b, c, i);
        S1111RowRank(a, b, c, j);
      }
    }
  }

  // ---------------------------------------------------------------------------
  // The Liu–Vinokur generators are the `_s` orbits under another parametrisation.

  /** Row `i` of `_r_alpha(alpha)` holds `(1 + 3 alpha)/4` in column `i` and
      `(1 - alpha)/4` elsewhere; the rows are those of `_s31((1 - alpha)/4)` in
      reverse order. */
  lemma RAlphaRows(alpha: real)
    ensures forall i :: 0 <= i < 4 ==>
      RAlpha(alpha)[i] == Put(Uniform((1.0 - alpha) / 4.0), i, (1.0 + 3.0 * alpha) / 4.0)
    ensures forall i :: 0 <= i < 4 ==> RAlpha(alpha)[i] == S31((1.0 - alpha) / 4.0)[3 - i]
  {
  }

  /** Hammer–Marlowe–Stroud's `_r(r)` is Liu–Vinokur's `_r_alpha(r)`:
      `r + (1 - r)/4 = (1 + 3r)/4` and `(1 - a)/3 = (1 - r)/4`. */
  lemma HammerMarloweStroudRIsRAlpha(r: real)
    ensures HammerMarloweStroudR(r) == RAlpha(r)
  {
    var a := r + (1.0 - r) / 4.0;
    assert a == (1.0 + 3.0 * r) / 4.0;
    assert (1.0 - a) / 3.0 == (1.0 - r) / 4.0;
  }

  /** `_r_alpha(1)` is the four vertices and `_r_alpha(-1/3)` the four face
      centroids (row `i` is the centroid of the face opposite vertex `i`). */
  lemma RAlphaVerticesAndFaceCentroids()
    ensures RAlpha(1.0) == [Bary(1.0, 0.0, 0.0, 0.0), Bary(0.0, 1.0, 0.0, 0.0),
                            Bary(0.0, 0.0, 1.0, 0.0), Bary(0.0, 0.0, 0.0, 1.0)]
    ensures var t := 1.0 / 3.0;
      RAlpha(-1.0 / 3.0) == [Bary(0.0, t, t, t), Bary(t, 0.0, t, t), Bary(t, t, 0.0, t), Bary(t, t, t, 0.0)]
  {
  }

  /** `_r_beta(beta)` is `_s22((1 + 2 beta)/4)` row for row. */
  lemma RBetaIsS22(beta: real)
    ensures RBeta(beta) == S22((1.0 + 2.0 * beta) / 4.0)
  {
    assert 0.5 - (1.0 + 2.0 * beta) / 4.0 == (1.0 - 2.0 * beta) / 4.0;
  }

  /** `_r_gamma_delta(gamma, delta)` is `_s211((1 - gamma - delta)/4, (1 + 3 gamma - delta)/4)`
      row for row, so its rows are the arrangements of `(a, a, b, c)` with `2a + b + c = 1`. */
  lemma RGammaDeltaIsS211(gamma: real, delta: real)
    ensures RGammaDelta(gamma, delta) == S211((1.0 - gamma - delta) / 4.0, (1.0 + 3.0 * gamma - delta) / 4.0)
  {
    var a, b := (1.0 - gamma - delta) / 4.0, (1.0 + 3.0 * gamma - delta) / 4.0;
    assert 1.0 - 2.0 * a - b == (1.0 + 3.0 * delta - gamma) / 4.0;
  }
}
