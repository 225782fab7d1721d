/** Silvester's Newton–Cotes schemes on the tetrahedron (`_newton_cotes`,
    `NewtonCotesClosed`, `NewtonCotesOpen` in quadrature/tetrahedron.py): the
    nodes are the lattice of 4-tuples of naturals summing to `n`, enumerated by
    an `i, j, k` loop nest, and a second loop nest of the same shape fills a
    preallocated weight array through a running counter. */
module NewtonCotes {
  import opened Orbits
  import opened TetrahedronSchemes

  /** One row `[i, j, k, n - i - j - k]` of the index array. */
  datatype Index4 = Index4(i: nat, j: nat, k: nat, l: nat)

  function Degree(x: Index4): nat
  {
    x.i + x.j + x.k + x.l
  }

  // ---------------------------------------------------------------------------
  // The index array, built the way the comprehension runs through its loops.

  /** The innermost loop: `k` over `range(n + 1 - i - j)`. */
  function KRow(n: nat, i: nat, j: nat): (row: seq<Index4>)
    requires i + j <= n
    ensures |row| == n + 1 - i - j
    ensures forall k :: 0 <= k < |row| ==> row[k] == Index4(i, j, k, n - i - j - k)
  {
    seq(n + 1 - i - j, k requires 0 <= k < n + 1 - i - j => Index4(i, j, k, n - i - j - k))
  }

  /** The first `m` passes of the middle loop (`j < m`) for a fixed `i`. */
  function JBlock(n: nat, i: nat, m: nat): seq<Index4>
    requires i <= n && m <= n + 1 - i
  {
    if m == 0 then [] else JBlock(n, i, m - 1) + KRow(n, i, m - 1)
  }

  /** The first `m` passes of the outer loop (`i < m`). */
  function IBlock(n: nat, m: nat): seq<Index4>
    requires m <= n + 1
  {
    if m == 0 then [] else IBlock(n, m - 1) + JBlock(n, m - 1, n + 2 - m)
  }

  /** `idx` of `_newton_cotes(n, ...)`. */
  function Lattice(n: nat): seq<Index4>
  {
    IBlock(n, n + 1)
  }

  /** The loops start at the vertex `(0, 0, 0, n)` and end at the vertex
      `(n, 0, 0, 0)`. */
  lemma LatticeEnds(n: nat)
    ensures |Lattice(n)| > 0
    ensures Lattice(n)[0] == Index4(0, 0, 0, n)
    ensures Lattice(n)[|Lattice(n)| - 1] == Index4(n, 0, 0, 0)
  {
    LatticeAt(n, 0, 0, 0);
    assert |IBlock(n, 0)| + |JBlock(n, 0, 0)| == 0;
    LatticeAt(n, n, 0, 0);
    IBlockUnfold(n, n);
    assert |JBlock(n, n, 1)| == 1 && JBlock(n, n, 0) == [];
  }

  // ---------------------------------------------------------------------------
  // Size: C(n + 3, 3) rows.

  lemma {:induction false} JBlockLength(n: nat, i: nat, m: nat)
    requires i <= n && m <= n + 1 - i
    ensures 2 * |JBlock(n, i, m)| == m * (2 * (n + 1 - i) + 1 - m)
  {
    if m > 0 {
      JBlockLength(n, i, m - 1);
      var w := n + 1 - i;
      calc {
        2 * |JBlock(n, i, m)|;
        2 * |JBlock(n, i, m - 1)| + 2 * (w - (m - 1));
        (m - 1) * (2 * w + 2 - m) + 2 * (w - m + 1);
        m * (2 * w + 1 - m);
      }
    }
  }

  lemma {:induction false} IBlockLength(n: nat, m: nat)
    requires m <= n + 1
    ensures 6 * |IBlock(n, m)|
      == (n + 1) * (n + 2) * (n + 3) - (n + 1 - m) * (n + 2 - m) * (n + 3 - m)
  {
    if m > 0 {
      IBlockLength(n, m - 1);
      var w: int := n + 2 - m;
      JBlockLength(n, m - 1, w);
      assert |IBlock(n, m)| == |IBlock(n, m - 1)| + |JBlock(n, m - 1, w)|;
      assert 2 * |JBlock(n, m - 1, w)| == w * (w + 1);
      assert (n + 1 - (m - 1)) * (n + 2 - (m - 1)) * (n + 3 - (m - 1)) == w * (w + 1) * (w + 2);
      assert (n + 1 - m) * (n + 2 - m) * (n + 3 - m) == (w - 1) * w * (w + 1);
      Telescope(w);
    }
  }

  lemma Telescope(w: int)
    ensures w * (w + 1) * (w + 2) - 3 * (w * (w + 1)) == (w - 1) * w * (w + 1)
  {
    var p := w * (w + 1);
    assert w * (w + 1) * (w + 2) == p * (w + 2) == p * w + 2 * p;
    assert (w - 1) * w * (w + 1) == p * (w - 1) == p * w - p;
  }

  /** `len(idx) == (n + 1)(n + 2)(n + 3)/6`. */
  lemma LatticeSize(n: nat)
    ensures 6 * |Lattice(n)| == (n + 1) * (n + 2) * (n + 3)
  {
    IBlockLength(n, n + 1);
  }

  /** One more pass of a loop adds the rows of its inner loop. */
  lemma JBlockStep(n: nat, i: nat, j: nat)
    requires i + j <= n
    ensures |JBlock(n, i, j + 1)| == |JBlock(n, i, j)| + (n + 1 - i - j)
  {
  }

  lemma IBlockStep(n: nat, i: nat)
    requires i <= n
    ensures |IBlock(n, i + 1)| == |IBlock(n, i)| + |JBlock(n, i, n + 1 - i)|
  {
  }

  /** Running a loop further only appends rows. */
  lemma {:induction false} JBlockPrefix(n: nat, i: nat, m: nat, m': nat)
    requires i <= n && m <= m' <= n + 1 - i
    ensures JBlock(n, i, m) <= JBlock(n, i, m')
    decreases m' - m
  {
    if m < m' {
      JBlockPrefix(n, i, m, m' - 1);
    }
  }

  lemma {:induction false} IBlockPrefix(n: nat, m: nat, m': nat)
    requires m <= m' <= n + 1
    ensures IBlock(n, m) <= IBlock(n, m')
    decreases m' - m
  {
    if m < m' {
      IBlockPrefix(n, m, m' - 1);
    }
  }

  /** Where the middle loop puts `(j, k)` for a fixed `i`. */
  lemma JBlockAt(n: nat, i: nat, j: nat, k: nat)
    requires i + j + k <= n
    ensures |JBlock(n, i, j)| + k < |JBlock(n, i, n + 1 - i)|
    ensures JBlock(n, i, n + 1 - i)[|JBlock(n, i, j)| + k] == Index4(i, j, k, n - i - j - k)
  {
    JBlockPrefix(n, i, j + 1, n + 1 - i);
    AppendAt(JBlock(n, i, j), KRow(n, i, j), k);
    PrefixAt(JBlock(n, i, j + 1), JBlock(n, i, n + 1 - i), |JBlock(n, i, j)| + k);
  }

  /** Where the loop nest puts `(i, j, k)`: after all rows of the earlier
      passes of the outer and middle loops, at offset `k`. */
  lemma LatticeAt(n: nat, i: nat, j: nat, k: nat)
    requires i + j + k <= n
    ensures |IBlock(n, i)| + |JBlock(n, i, j)| + k < |Lattice(n)|
    ensures Lattice(n)[|IBlock(n, i)| + |JBlock(n, i, j)| + k] == Index4(i, j, k, n - i - j - k)
  {
    JBlockAt(n, i, j, k);
    IBlockPrefix(n, i + 1, n + 1);
    var t, q := JBlock(n, i, n + 1 - i), |JBlock(n, i, j)| + k;
    IBlockUnfold(n, i);
    AppendAt(IBlock(n, i), t, q);
    PrefixAt(IBlock(n, i + 1), Lattice(n), |IBlock(n, i)| + q);
  }

  lemma IBlockUnfold(n: nat, i: nat)
    requires i <= n
    ensures IBlock(n, i + 1) == IBlock(n, i) + JBlock(n, i, n + 1 - i)
  {
  }

  lemma AppendAt(a: seq<Index4>, b: seq<Index4>, p: nat)
    requires p < |b|
    ensures |a| + p < |a + b| && (a + b)[|a| + p] == b[p]
  {
  }

  lemma PrefixAt(a: seq<Index4>, b: seq<Index4>, p: nat)
    requires a <= b && p < |a|
    ensures p < |b| && b[p] == a[p]
  {
  }

  // ---------------------------------------------------------------------------
  // Contents: exactly the 4-tuples of naturals summing to n.

  lemma {:induction false} JBlockMembers(n: nat, i: nat, m: nat, x: Index4)
    requires i <= n && m <= n + 1 - i
    ensures x in JBlock(n, i, m) <==> x.i == i && x.j < m && Degree(x) == n
  {
    if m > 0 {
      JBlockMembers(n, i, m - 1, x);
      var row := KRow(n, i, m - 1);
      if x.i == i && x.j == m - 1 && Degree(x) == n {
        assert row[x.k] == x;
      }
    }
  }

  lemma {:induction false} IBlockMembers(n: nat, m: nat, x: Index4)
    requires m <= n + 1
    ensures x in IBlock(n, m) <==> x.i < m && Degree(x) == n
  {
    if m > 0 {
      IBlockMembers(n, m - 1, x);
      JBlockMembers(n, m - 1, n + 2 - m, x);
      IBlockUnfold(n, m - 1);
    }
  }

  /** A 4-tuple is a row of `idx` exactly when its entries sum to `n`. */
  lemma LatticeMembers(n: nat)
    ensures forall x :: x in Lattice(n) <==> Degree(x) == n
  {
    forall x ensures x in Lattice(n) <==> Degree(x) == n {
      IBlockMembers(n, n + 1, x);
    }
  }

  // ---------------------------------------------------------------------------
  // Order: lexicographic in (i, j, k), hence no row twice.

  predicate Before(x: Index4, y: Index4)
  {
    x.i < y.i || (x.i == y.i && (x.j < y.j || (x.j == y.j && x.k < y.k)))
  }

  predicate Increasing(s: seq<Index4>)
  {
    forall a, b :: 0 <= a < b < |s| ==> Before(s[a], s[b])
  }

  lemma IncreasingAppend(s: seq<Index4>, t: seq<Index4>)
    requires Increasing(s) && Increasing(t)
    requires forall x, y :: x in s && y in t ==> Before(x, y)
    ensures Increasing(s + t)
  {
    forall a, b | 0 <= a < b < |s + t| ensures Before((s + t)[a], (s + t)[b]) {
      if b < |s| {
      } else if a >= |s| {
        assert (s + t)[a] == t[a - |s|] && (s + t)[b] == t[b - |s|];
      } else {
        assert (s + t)[a] in s && (s + t)[b] in t;
      }
    }
  }

  lemma {:induction false} JBlockIncreasing(n: nat, i: nat, m: nat)
    requires i <= n && m <= n + 1 - i
    ensures Increasing(JBlock(n, i, m))
  {
    if m > 0 {
      JBlockIncreasing(n, i, m - 1);
      forall x, y | x in JBlock(n, i, m - 1) && y in KRow(n, i, m - 1) ensures Before(x, y) {
        JBlockMembers(n, i, m - 1, x);
      }
      IncreasingAppend(JBlock(n, i, m - 1), KRow(n, i, m - 1));
    }
  }

  lemma {:induction false} IBlockIncreasing(n: nat, m: nat)
    requires m <= n + 1
    ensures Increasing(IBlock(n, m))
  {
    if m > 0 {
      var s, t := IBlock(n, m - 1), JBlock(n, m - 1, n + 2 - m);
      IBlockIncreasing(n, m - 1);
      JBlockIncreasing(n, m - 1, n + 2 - m);
      forall x | x in s ensures x.i < m - 1 {
        IBlockMembers(n, m - 1, x);
      }
      forall y | y in t ensures y.i == m - 1 {
        JBlockMembers(n, m - 1, n + 2 - m, y);
      }
      IncreasingAppend(s, t);
    }
  }

  /** `idx` is in strictly increasing lexicographic order of `(i, j, k)`, so
      no 4-tuple occurs twice. */
  lemma LatticeOrdered(n: nat)
    ensures Increasing(Lattice(n))
    ensures forall a, b :: 0 <= a < b < |Lattice(n)| ==> Lattice(n)[a] != Lattice(n)[b]
  {
    IBlockIncreasing(n, n + 1);
  }

  // ---------------------------------------------------------------------------
  // The weight-filling loop.

  /** `weights` as `_newton_cotes` fills it: slot `s` receives the weight of the
      `s`-th lattice row. `weightOf` stands for the sympy integral of the
      product of Lagrange factors, which the model does not compute. */
  method FillWeights(n: nat, weightOf: Index4 -> real) returns (weights: array<real>)
    requires n > 0
    ensures fresh(weights)
    ensures weights.Length == |Lattice(n)|
    ensures forall s :: 0 <= s < weights.Length ==> weights[s] == weightOf(Lattice(n)[s])
  {
    weights := new real[|Lattice(n)|];
    ghost var lattice := Lattice(n);
    var idx := 0;
    for i := 0 to n + 1
      invariant idx == |IBlock(n, i)| <= weights.Length
      invariant forall s :: 0 <= s < idx ==> weights[s] == weightOf(lattice[s])
    {
      for j := 0 to n + 1 - i
        invariant idx == |IBlock(n, i)| + |JBlock(n, i, j)| <= weights.Length
        invariant forall s :: 0 <= s < idx ==> weights[s] == weightOf(lattice[s])
      {
        for k := 0 to n + 1 - i - j
          invariant idx == |IBlock(n, i)| + |JBlock(n, i, j)| + k <= weights.Length
          invariant forall s :: 0 <= s < idx ==> weights[s] == weightOf(lattice[s])
        {
          var l := n - i - j - k;
          LatticeAt(n, i, j, k);
          weights[idx] := weightOf(Index4(i, j, k, l));
          idx := idx + 1;
        }
        JBlockStep(n, i, j);
      }
      IBlockStep(n, i);
    }
    assert idx == weights.Length;
  }

  // ---------------------------------------------------------------------------
  // The two point maps and the constructors.

  /** Four fractions over one denominator add up numerator-wise. */
  lemma QuarterSum(a: real, b: real, c: real, e: real, d: real, t: real)
    requires d > 0.0 && a + b + c + e == t
    ensures a / d + b / d + c / d + e / d == t / d
    ensures t == d ==> t / d == 1.0
  {
    assert (a / d + b / d + c / d + e / d) * d == a + b + c + e;
  }

  /** `point_fun` of `NewtonCotesClosed`: `k / float(n)`. */
  function ClosedRow(x: Index4, n: nat): (r: Bary)
    requires n > 0
    ensures Total(r) == Degree(x) as real / n as real
    ensures Degree(x) == n ==> Total(r) == 1.0
  {
    var d := n as real;
    var a, b, c, e := x.i as real, x.j as real, x.k as real, x.l as real;
    QuarterSum(a, b, c, e, d, Degree(x) as real);
    Bary(a / d, b / d, c / d, e / d)
  }

  /** `point_fun` of `NewtonCotesOpen`: `(k + 1) / float(n + 4)`. */
  function OpenRow(x: Index4, n: nat): (r: Bary)
    ensures Total(r) == (Degree(x) + 4) as real / (n + 4) as real
    ensures Degree(x) == n ==> Total(r) == 1.0
  {
    var d := (n + 4) as real;
    var a, b, c, e := (x.i + 1) as real, (x.j + 1) as real, (x.k + 1) as real, (x.l + 1) as real;
    QuarterSum(a, b, c, e, d, (Degree(x) + 4) as real);
    Bary(a / d, b / d, c / d, e / d)
  }

  /** `bary = point_fun(idx, n)` of `NewtonCotesClosed`. */
  function ClosedBary(n: nat): (rows: seq<Bary>)
    requires n > 0
    ensures |rows| == |Lattice(n)| && RowsSumToOne(rows)
  {
    LatticeMembers(n);
    seq(|Lattice(n)|, s requires 0 <= s < |Lattice(n)| => ClosedRow(Lattice(n)[s], n))
  }

  /** `bary = point_fun(idx, n)` of `NewtonCotesOpen`. */
  function OpenBary(n: nat): (rows: seq<Bary>)
    ensures |rows| == |Lattice(n)| && RowsSumToOne(rows)
  {
    LatticeMembers(n);
    seq(|Lattice(n)|, s requires 0 <= s < |Lattice(n)| => OpenRow(Lattice(n)[s], n))
  }

  /** Every open node lies strictly inside the tetrahedron. */
  lemma OpenInterior(n: nat)
    ensures forall s :: 0 <= s < |OpenBary(n)| ==>
      var r := OpenBary(n)[s];
      0.0 < r.b0 < 1.0 && 0.0 < r.b1 < 1.0 && 0.0 < r.b2 < 1.0 && 0.0 < r.b3 < 1.0
  {
    LatticeMembers(n);
    forall s | 0 <= s < |OpenBary(n)|
      ensures var r := OpenBary(n)[s];
        0.0 < r.b0 < 1.0 && 0.0 < r.b1 < 1.0 && 0.0 < r.b2 < 1.0 && 0.0 < r.b3 < 1.0
    {
      var x := Lattice(n)[s];
      assert x in Lattice(n);
      InsideUnit(x.i, n);
      InsideUnit(x.j, n);
      InsideUnit(x.k, n);
      InsideUnit(x.l, n);
    }
  }

  lemma InsideUnit(x: nat, n: nat)
    requires x <= n
    ensures 0.0 < (x + 1) as real / (n + 4) as real < 1.0
  {
  }

  /** The weights as a sequence, so that the constructors can hand them on. */
  method FillWeightSeq(n: nat, weightOf: Index4 -> real) returns (ws: seq<real>)
    ensures n == 0 ==> ws == [1.0]
    ensures n > 0 ==>
      |ws| == |Lattice(n)| && forall s :: 0 <= s < |ws| ==> ws[s] == weightOf(Lattice(n)[s])
  {
    if n == 0 {
      return [1.0];
    }
    var weights := FillWeights(n, weightOf);
    ws := weights[..];
  }

  /** `NewtonCotesClosed(n)`. For `n == 0` the point map divides `0` by `0.0`
      and the scheme's coordinates are NaN; the model reports that outcome. */
  method NewtonCotesClosed(n: nat, weightOf: Index4 -> real) returns (r: Result<Rule>)
    ensures n == 0 <==> r == Failure(NotANumber)
    ensures r.Success? ==> r.value.bary == ClosedBary(n) && r.value.degree == n
    ensures r.Success? ==>
      |r.value.weights| == |Lattice(n)|
      && forall s :: 0 <= s < |Lattice(n)| ==> r.value.weights[s] == weightOf(Lattice(n)[s])
  {
    if n == 0 {
      return Failure(NotANumber);
    }
    var ws := FillWeightSeq(n, weightOf);
    r := Success(Rule(ws, ClosedBary(n), n));
  }

  /** `NewtonCotesOpen(n)`: the degree is `n`, except `1` for the single
      centroid node of `n == 0`. */
  method NewtonCotesOpen(n: nat, weightOf: Index4 -> real) returns (r: Rule)
    ensures r.bary == OpenBary(n) && r.WellFormed()
    ensures r.degree == if n == 0 then 1 else n
    ensures n == 0 ==> r.weights == [1.0]
    ensures n > 0 ==> forall s :: 0 <= s < |Lattice(n)| ==> r.weights[s] == weightOf(Lattice(n)[s])
  {
    var ws := FillWeightSeq(n, weightOf);
    if n == 0 {
      assert |Lattice(0)| == 1 by { LatticeSize(0); }
      r := Rule(ws, OpenBary(n), 1);
    } else {
      r := Rule(ws, OpenBary(n), n);
    }
  }
}
