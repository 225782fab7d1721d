# Tetrahedral cubature schemes of quadpy, modelled in Dafny

quadpy is a catalogue of cubature schemes. Each scheme is a list of weights and
points taken from the literature, tagged with the polynomial degree it
integrates exactly. This project models the part of the catalogue that is
exact arithmetic and combinatorics rather than transcribed float tables:

- **Tetrahedral orbits** (`Orbits`). These are the generators `_s4`, `_s31`,
  `_s22`, `_s211` and `_s1111`, Hammer–Marlowe–Stroud's `_r`, and
  Liu–Vinokur's `_r_alpha`, `_r_beta` and `_r_gamma_delta`. Each expands one
  to three parameters into a fixed number of barycentric 4-tuples. The model
  proves:
  - the row counts and that every row sums to 1;
  - that each orbit lists exactly the distinct arrangements of its entries;
  - that the rows are pairwise distinct when the entries are;
  - the row-for-row identities between the two generator families.
- **Scheme constructors** (`TetrahedronSchemes`, `QuadpyLiuVinokur`). These
  are `HammerMarloweStroud`, `Yu`, `Keast`, `LiuVinokur` and `Zienkiewicz`
  from `quadrature/tetrahedron.py`, and the `LiuVinokur` of
  `quadpy/tetrahedron/liu_vinokur.py`. Each branch concatenates orbits and
  weight blocks, and the points are the barycentric rows without their first
  column. The model proves, for each constructor:
  - the supported index range and the error raised outside it;
  - the number of rows and weights, which match;
  - the degree of each branch;
  - that the weights sum to 1. The sum is exact for rational tables and
    within a stated bound for decimal ones.
- **The Newton–Cotes lattice** (`NewtonCotes`). `_newton_cotes` enumerates
  every 4-tuple of naturals summing to n. It then fills a preallocated weight
  array in the same loop order through a running counter. The model keeps
  that imperative loop as a method over an `array` with its invariants, and
  proves:
  - the lattice has (n+1)(n+2)(n+3)/6 entries;
  - it holds exactly the tuples of degree n, in strictly increasing
    lexicographic order;
  - each weight slot receives the weight of the lattice point at that slot.

  It also proves that both point maps, closed k/n and open (k+1)/(n+4), give
  rows that sum to 1, and that the open points lie strictly inside the
  tetrahedron.
- **Integration over a tetrahedron** (`TetrahedronIntegration`). `integrate`
  maps the reference points affinely onto a tetrahedron and scales the
  weighted sum by |det|/6. The model proves:
  - the map sends the reference vertices to the given vertices;
  - the determinant is the triple product of the edge vectors, invariant
    under translation and negated by exchanging any two adjacent vertices
    (exchanges that together give every vertex order);
  - the reference tetrahedron has volume 1/6;
  - the weighted sum is linear in the integrand;
  - a constant integrand with unit weight sum integrates to constant × volume.
- **McNamee–Stenger degree 3 on the n-cube** (`McNameeStenger`). This covers
  the coefficients I0, I2, u2, A1 and A0 and the resulting scheme. The model
  proves:
  - the closed forms of the coefficients;
  - the sign of the centre weight;
  - that the weights total I0;
  - that the scheme is exact on constants, on odd integrands and on
    x_j², given u² = u2;
  - that the article's formula for A1, noted in the source's own comment, would
    overweight the scheme.

Python floats are modelled as exact reals; decimal literals are taken at their
exact decimal value. The shared sums (`RealSums`) are exact sums standing in for
`math.fsum` and `numpy.sum`.

Where the two Liu–Vinokur classes differ, the model follows each file's code.
The copy in `quadpy/tetrahedron/liu_vinokur.py` ends its branch chain in
`assert index == 14`. An unsupported index therefore fails an assertion there,
while `quadrature/tetrahedron.py` raises `ValueError`.
`QuadpyLiuVinokur.SameSchemesAsQuadrature` states both halves of this.

## Model

| member | source | states |
|---|---|---|
| Orbits.DropFirstColumn | quadrature/tetrahedron.py:210 | `bary[:, 1:]` keeps one point per barycentric row, and point k is row k without its first coordinate. |
| Orbits.DropFirstRoundTrip | quadrature/tetrahedron.py:210 | Dropping the first column loses nothing exactly when the row sums to 1. Re-adding 1 - x - y - z as the first coordinate inverts the drop and gives a row summing to 1. |
| Orbits.S4 | quadrature/tetrahedron.py:79-82 | `_s4` is a single row, the centroid (1/4, 1/4, 1/4, 1/4), and it sums to 1. |
| Orbits.S31 | quadrature/tetrahedron.py:85-92 | `_s31(a)` has 4 rows, each summing to 1 with b = 1 - 3a. |
| Orbits.S22 | quadrature/tetrahedron.py:95-104 | `_s22(a)` has 6 rows, each summing to 1 with b = 1/2 - a. |
| Orbits.S211 | quadrature/tetrahedron.py:107-122 | `_s211(a, b)` has 12 rows, each summing to 1 with c = 1 - 2a - b. |
| Orbits.S1111 | quadrature/tetrahedron.py:125-152 | `_s1111(a, b, c)` has 24 rows, each summing to 1 with d = 1 - a - b - c. |
| Orbits.S31Orbit | quadrature/tetrahedron.py:85-92 | Row k carries b in column 3 - k and a elsewhere. Every such placement occurs, and the rows are pairwise distinct when a != b. |
| Orbits.S22Row | quadrature/tetrahedron.py:95-104 | Every row of `_s22` holds a in exactly two columns and b in the other two. |
| Orbits.S22Orbit | quadrature/tetrahedron.py:95-104 | `_s22` lists every choice of the two columns holding a, and its 6 rows are pairwise distinct when a != b. |
| Orbits.S211Row | quadrature/tetrahedron.py:107-122 | Every row of `_s211` holds a in two columns, b in one and c in the remaining one. |
| Orbits.S211Orbit | quadrature/tetrahedron.py:107-122 | `_s211` lists all 12 placements of (a, a, b, c), pairwise distinct when a, b and c are distinct. |
| Orbits.S1111Row | quadrature/tetrahedron.py:125-152 | Every row of `_s1111` is an arrangement of (a, b, c, d) over the four columns. |
| Orbits.S1111Sound | quadrature/tetrahedron.py:125-152 | All 24 rows of `_s1111` are arrangements of (a, b, c, d). |
| Orbits.S1111Complete | quadrature/tetrahedron.py:125-152 | Every one of the 24 arrangements of (a, b, c, d) appears among the rows of `_s1111`. |
| Orbits.S1111RowRank | quadrature/tetrahedron.py:125-152 | With distinct entries, the position of row k in the permutation order is k, so the row determines its index. |
| Orbits.S1111Distinct | quadrature/tetrahedron.py:125-152 | With a, b, c and d distinct, the 24 rows of `_s1111` are pairwise distinct. |
| Orbits.HammerMarloweStroudR | quadrature/tetrahedron.py:213-224 | `_r(r)` has 4 rows, each summing to 1. |
| Orbits.RAlpha | quadpy/tetrahedron/liu_vinokur.py:212-227 | `_r_alpha(alpha)` has 4 rows, each summing to 1. |
| Orbits.RBeta | quadpy/tetrahedron/liu_vinokur.py:229-247 | `_r_beta(beta)` has 6 rows, each summing to 1. |
| Orbits.RGammaDelta | quadpy/tetrahedron/liu_vinokur.py:249-274 | `_r_gamma_delta(gamma, delta)` has 12 rows, each summing to 1. |
| Orbits.RAlphaRows | quadpy/tetrahedron/liu_vinokur.py:220-227 | Row i of `_r_alpha` holds (1 + 3 alpha)/4 at position i and (1 - alpha)/4 elsewhere. It is the `_s31` orbit with a = (1 - alpha)/4, listed in reverse. |
| Orbits.HammerMarloweStroudRIsRAlpha | quadrature/tetrahedron.py:747-762 | Hammer–Marlowe–Stroud's `_r` and Liu–Vinokur's `_r_alpha` are the same function. |
| Orbits.RAlphaVerticesAndFaceCentroids | quadpy/tetrahedron/liu_vinokur.py:220-227 | `_r_alpha(1)` is the four vertices, and `_r_alpha(-1/3)` is the four face centroids. |
| Orbits.RBetaIsS22 | quadrature/tetrahedron.py:764-782 | `_r_beta(beta)` equals `_s22((1 + 2 beta)/4)` row for row. |
| Orbits.RGammaDeltaIsS211 | quadrature/tetrahedron.py:784-809 | `_r_gamma_delta(gamma, delta)` equals `_s211((1 - gamma - delta)/4, (1 + 3 gamma - delta)/4)` row for row. |
| TetrahedronSchemes.Rule.Points | quadrature/tetrahedron.py:538 | A scheme has one point per barycentric row. |
| TetrahedronSchemes.HammerMarloweStroudWeights | quadrature/tetrahedron.py:180-206 | Each branch has 4, 4 or 5 weights. |
| TetrahedronSchemes.HammerMarloweStroudBary | quadrature/tetrahedron.py:180-206 | Each branch has 4, 4 or 5 rows, each summing to 1. |
| TetrahedronSchemes.HammerMarloweStroud | quadrature/tetrahedron.py:180-211 | The scheme exists exactly for indices 1 to 3; any other index raises ValueError('Illegal Hammer-Marlowe-Stroud index'). Each scheme has as many weights as points, rows summing to 1, 4/4/5 points and degree 2/2/3. |
| TetrahedronSchemes.HammerMarloweStroudWeightSum | quadrature/tetrahedron.py:180-206 | The weights of each branch sum to exactly 1. |
| TetrahedronSchemes.YuWeights | quadrature/tetrahedron.py:314-364 | Branches 1 to 5 have 4, 5, 16, 17 and 29 weights. |
| TetrahedronSchemes.YuBary | quadrature/tetrahedron.py:314-364 | Branches 1 to 5 have 4, 5, 16, 17 and 29 rows, each summing to 1. |
| TetrahedronSchemes.Yu | quadrature/tetrahedron.py:314-368 | The scheme exists exactly for indices 1 to 5; any other index raises ValueError('Illegal closed Yu index'). Weights and points match in number, and the degree is index + 1. |
| TetrahedronSchemes.YuWeightSum | quadrature/tetrahedron.py:314-364 | The weights sum to exactly 1 for indices 1 and 2, and to within 1e-16 of 1 for the decimal tables. |
| TetrahedronSchemes.Keast10Sixths | quadrature/tetrahedron.py:513-534 | The index-10 table lists 45 values, which `6 * numpy.concatenate(...)` multiplies by 6 to give the weights. |
| TetrahedronSchemes.KeastWeights | quadrature/tetrahedron.py:388-534 | Branches 0 to 10 have 1, 4, 5, 10, 11, 14, 15, 24, 31, 45 and 45 weights. |
| TetrahedronSchemes.KeastBary | quadrature/tetrahedron.py:388-534 | Branch k has as many rows as weights. |
| TetrahedronSchemes.KeastBarycentric | quadrature/tetrahedron.py:388-534 | Every row of every Keast branch sums to 1. |
| TetrahedronSchemes.Keast | quadrature/tetrahedron.py:388-538 | The scheme exists exactly for indices 0 to 10; any other index raises ValueError('Illegal Keast index'). Weights and points match in number, and the degree is the branch's declared degree. |
| TetrahedronSchemes.KeastWeightSum | quadrature/tetrahedron.py:388-534 | Indices 0, 1, 2, 4 and 6 have weights summing to exactly 1; every index sums to within 1e-15 of 1. |
| TetrahedronSchemes.KeastRationalWeightSum | quadrature/tetrahedron.py:401-434 | The rational Keast tables (0, 1, 2, 4, 6) have weights summing to exactly 1. |
| TetrahedronSchemes.KeastDecimalWeightSum | quadrature/tetrahedron.py:412-474 | The decimal Keast tables 3, 5 and 7 have weights summing to within 1e-15 of 1. |
| TetrahedronSchemes.KeastHighDegreeWeightSum | quadrature/tetrahedron.py:475-512 | Keast 8 and 9 have weights summing to within 1e-15 of 1. |
| TetrahedronSchemes.KeastScaledWeightSum | quadrature/tetrahedron.py:513-534 | Keast 10, whose weights are six times the listed values, sums to within 1e-15 of 1. |
| TetrahedronSchemes.LiuVinokurWeights | quadrature/tetrahedron.py:551-740 | Branches 1 to 14 have 1, 4, 4, 5, 5, 8, 11, 14, 15, 21, 18, 14, 15 and 19 weights, for any values of the square roots. |
| TetrahedronSchemes.LiuVinokurBary | quadrature/tetrahedron.py:551-740 | Each branch has as many rows as weights, each row summing to 1. |
| TetrahedronSchemes.LiuVinokur | quadrature/tetrahedron.py:551-744 | The scheme exists exactly for indices 1 to 14; any other index raises ValueError('Illegal Liu-Vinokur index'). Weights and points match in number, and the degree is the branch's declared degree. |
| TetrahedronSchemes.LiuVinokurWeightSum | quadrature/tetrahedron.py:551-740 | Every branch except 8 and 12 has weights summing to exactly 1. This includes 11 and 13, whose square-root terms cancel. |
| TetrahedronSchemes.LiuVinokurLowDegreeWeightSum | quadrature/tetrahedron.py:551-653 | Branches 1 to 7 have weights summing to exactly 1. |
| TetrahedronSchemes.LiuVinokurHighDegreeWeightSum | quadrature/tetrahedron.py:655-740 | Branches 9, 10, 11, 13 and 14 have weights summing to exactly 1. |
| TetrahedronSchemes.Zienkiewicz | quadrature/tetrahedron.py:822-840 | The scheme exists exactly for indices 4 and 5; any other index raises ValueError('Illegal closed Newton-Cotes index'). It has `index` points and degree index - 2. |
| TetrahedronSchemes.ZienkiewiczWeightSum | quadrature/tetrahedron.py:822-837 | Both Zienkiewicz schemes have weights summing to exactly 1. |
| QuadpyLiuVinokur.LiuVinokur | quadpy/tetrahedron/liu_vinokur.py:17-209 | The scheme exists exactly for indices 1 to 14; any other index fails the assertion (with assertions enabled). Weights and points match in number, the rows sum to 1, and the degree is the branch's declared degree. |
| QuadpyLiuVinokur.SameSchemesAsQuadrature | quadpy/tetrahedron/liu_vinokur.py:191-192 | For indices 1 to 14 both Liu–Vinokur classes build the same scheme. Otherwise this one fails an assertion (with assertions enabled), and the one in quadrature/tetrahedron.py raises ValueError. |
| QuadpyLiuVinokur.WeightSum | quadpy/tetrahedron/liu_vinokur.py:17-207 | Every branch except 8 and 12 has weights summing to exactly 1. |
| NewtonCotes.Lattice | quadrature/tetrahedron.py:239-244 | `idx`, the tuples in the order the i, j, k loops produce them. No contract of its own; `LatticeSize`, `LatticeAt`, `LatticeEnds`, `LatticeMembers` and `LatticeOrdered` state its properties. |
| NewtonCotes.LatticeEnds | quadrature/tetrahedron.py:239-244 | `idx` is non-empty, starts at the vertex (0, 0, 0, n) and ends at the vertex (n, 0, 0, 0). |
| NewtonCotes.KRow | quadrature/tetrahedron.py:239-244 | The innermost k loop yields n + 1 - i - j tuples, (i, j, k, n - i - j - k) at position k. |
| NewtonCotes.LatticeSize | quadrature/tetrahedron.py:239-244 | The index set has (n+1)(n+2)(n+3)/6 entries, which is C(n+3, 3). |
| NewtonCotes.LatticeAt | quadrature/tetrahedron.py:239-244 | Tuple (i, j, k, n-i-j-k) sits at the position the loops reach it. That is, it comes after all tuples with a smaller i, and after those with the same i and a smaller j. |
| NewtonCotes.LatticeMembers | quadrature/tetrahedron.py:239-244 | A 4-tuple of naturals is in the index set exactly when its entries sum to n. |
| NewtonCotes.LatticeOrdered | quadrature/tetrahedron.py:239-244 | The index set is strictly increasing in lexicographic (i, j, k) order, so no tuple is listed twice. |
| NewtonCotes.FillWeights | quadrature/tetrahedron.py:260-281 | For n > 0, the array has one slot per lattice point, and slot s holds the weight of the s-th lattice point. So every slot is written, in point order, and the counter ends at the number of points. |
| NewtonCotes.FillWeightSeq | quadrature/tetrahedron.py:249-281 | For n = 0 the weights are the single weight 1. Otherwise they are the lattice weights in point order. |
| NewtonCotes.ClosedRow | quadrature/tetrahedron.py:287-288 | Under the closed map k/n, a row sums to its tuple's degree divided by n, which is 1 on the lattice. |
| NewtonCotes.OpenRow | quadrature/tetrahedron.py:294-295 | Under the open map (k+1)/(n+4), a row sums to (degree + 4)/(n + 4), which is 1 on the lattice. |
| NewtonCotes.ClosedBary | quadrature/tetrahedron.py:245 | The closed points have one row per lattice point, each summing to 1. |
| NewtonCotes.OpenBary | quadrature/tetrahedron.py:245 | The open points have one row per lattice point, each summing to 1. |
| NewtonCotes.OpenInterior | quadrature/tetrahedron.py:294-295 | Every open barycentric coordinate lies strictly between 0 and 1. |
| NewtonCotes.NewtonCotesClosed | quadrature/tetrahedron.py:285-289 | n = 0 yields NaN points, and exactly then is the result the NaN outcome. Otherwise the rows are the closed lattice map and the degree is n. The weights are those of the lattice points, in order. |
| NewtonCotes.NewtonCotesOpen | quadrature/tetrahedron.py:292-298 | The rows are the open lattice map, with weights and points matching in number. The degree is n, except that n = 0 reports 1. n = 0 has the single weight 1; otherwise the weights are those of the lattice points, in order. |
| TetrahedronIntegration.MapPoint | quadrature/tetrahedron.py:54-59 | The affine map `x` of a scheme point, v0·(1 - ξ0 - ξ1 - ξ2) + v1·ξ0 + v2·ξ1 + v3·ξ2. No contract of its own; `MapPointAffine`, `MapPointVertices` and `MapPointBarycentric` state its properties. |
| TetrahedronIntegration.MapPointAffine | quadrature/tetrahedron.py:54-59 | The map is v0 + J·ξ, where the columns of J are the edge vectors from v0 that `det` uses. |
| TetrahedronIntegration.Sarrus | quadrature/tetrahedron.py:62-72 | The six-term rule of Sarrus on three columns equals the triple product J0 · (J1 × J2). |
| TetrahedronIntegration.SignedVolume | quadrature/tetrahedron.py:62-74 | `det`: Sarrus on the edge vectors from v0, divided by 6. No contract of its own; `SignedVolumeIsTripleProduct`, `SignedVolumeFlat`, `SignedVolumeTranslation`, `SignedVolumeSwap` and `ReferenceVolume` state its properties. |
| TetrahedronIntegration.SignedVolumeFlat | quadrature/tetrahedron.py:62-74 | A tetrahedron with a repeated vertex is flat: `det` = 0. |
| TetrahedronIntegration.Integrate | quadrature/tetrahedron.py:53-76 | `integrate`: the exact sum of weight · f(mapped point) · abs(det). No contract of its own; `IntegrateScale`, `IntegrateConstant` and `IntegrateLinear` state its properties. |
| TetrahedronIntegration.IntegrateScale | quadrature/tetrahedron.py:53-76 | abs(det) factors out of the weighted sum of the values, so a flat tetrahedron integrates every f to 0. |
| TetrahedronIntegration.Values | quadrature/tetrahedron.py:76 | `f(x)` evaluates the integrand once per scheme point, at that point's image under the affine map. |
| TetrahedronIntegration.MapPointVertices | quadrature/tetrahedron.py:54-59 | The affine map sends the origin to `tetrahedron[0]` and e1, e2, e3 to `tetrahedron[1..3]`. |
| TetrahedronIntegration.MapPointBarycentric | quadrature/tetrahedron.py:54-59 | On a barycentric row summing to 1 with its first column dropped, the map is the barycentric combination of the four vertices. |
| TetrahedronIntegration.SarrusIsTripleProduct | quadrature/tetrahedron.py:71-72 | The six-term determinant is the triple product J0 · (J1 × J2), and swapping any two columns (J0-J1, J1-J2 or J0-J2) negates it. |
| TetrahedronIntegration.SignedVolumeIsTripleProduct | quadrature/tetrahedron.py:62-74 | Six times `det` is the triple product of the edge vectors from `tetrahedron[0]`. |
| TetrahedronIntegration.ReferenceVolume | quadrature/tetrahedron.py:62-74 | The reference tetrahedron has `det` = 1/6. |
| TetrahedronIntegration.SignedVolumeTranslation | quadrature/tetrahedron.py:62-74 | Translating all four vertices leaves `det` unchanged. |
| TetrahedronIntegration.SignedVolumeSwap | quadrature/tetrahedron.py:62-74 | Swapping v0-v1, v1-v2 or v2-v3 negates `det` and leaves `abs(det)` unchanged. These adjacent exchanges generate every vertex order, so `abs(det)` does not depend on the order of the vertices. |
| TetrahedronIntegration.IntegrateConstant | quadrature/tetrahedron.py:53-76 | A constant integrand c gives c · abs(det) · (weight sum). With weights summing to 1 this is c times the volume. |
| TetrahedronIntegration.IntegrateLinear | quadrature/tetrahedron.py:53-76 | The result is linear in the integrand: a·f + b·g integrates to a·I(f) + b·I(g). |
| McNameeStenger.Pow2 | quadpy/ncube/_mcnamee_stenger.py:19 | I0 = 2^n is positive. |
| McNameeStenger.Coefficients3 | quadpy/ncube/_mcnamee_stenger.py:18-25 | From the cube moments I0 = 2^n and I2 = I0/3, for every n: u2 = 1/3 whatever the dimension, 2·A1 = I0, 2·A1·u2 = I2 (A1 carries the second moment on each pair ±u·e_i), and A0 = (1 - n)·2^n. |
| McNameeStenger.CentreWeightSign | quadpy/ncube/_mcnamee_stenger.py:25 | A0 is zero exactly when n = 1, negative for n ≥ 2, and 1 for n = 0. |
| McNameeStenger.ArticleWeightOverweights | quadpy/ncube/_mcnamee_stenger.py:23-24 | The article's A1 = I0/(2u²) is three times the A1 used. With it, for n ≥ 1, the weights would not total I0. |
| McNameeStenger.Centre | quadpy/ncube/_mcnamee_stenger.py:29 | `z(n)` is the origin of the n-cube. |
| McNameeStenger.Axis | quadpy/ncube/_mcnamee_stenger.py:30 | An orbit point holds s on one axis and 0 on all the others. |
| McNameeStenger.AxisPoints | quadpy/ncube/_mcnamee_stenger.py:30 | `fsd(n, (u, 1))` gives 2n points of dimension n. |
| McNameeStenger.WeightedSum | quadpy/ncube/_mcnamee_stenger.py:28-35 | Applying a scheme: the sum of weight p times f at point p. It carries no contract of its own; `WeightedSumAppend` (additive over concatenated blocks), `WeightedSumConstant` and `QuadratureExpansion` state its properties. |
| McNameeStenger.WeightedSumAppend | quadpy/ncube/_mcnamee_stenger.py:28-33 | The weighted sum over two concatenated blocks of weights and points is the sum of the blocks' weighted sums. |
| McNameeStenger.WeightedSumConstant | quadpy/ncube/_mcnamee_stenger.py:28-35 | If f takes the value c at every point, the weighted sum is c times the sum of the weights. |
| McNameeStenger.Quadrature | quadpy/ncube/_mcnamee_stenger.py:28-35 | The value the scheme assigns to f, its `WeightedSum`. No contract of its own; `QuadratureExpansion`, `WeightedSumConstant` and the `ExactOn…` lemmas state its properties. |
| McNameeStenger.McNameeStenger3 | quadpy/ncube/_mcnamee_stenger.py:18-35 | The scheme has dimension n, degree 3, and 2n + 1 weights and points of dimension n. |
| McNameeStenger.QuadratureExpansion | quadpy/ncube/_mcnamee_stenger.py:28-33 | Applying the scheme gives A0·f(0) plus A1 times the sum of f over the points ±u·e_i. |
| McNameeStenger.WeightTotal | quadpy/ncube/_mcnamee_stenger.py:24-31 | A0 + 2n·A1 = 2^n = I0, so the weights total the cube's volume. |
| McNameeStenger.ExactOnConstants | quadpy/ncube/_mcnamee_stenger.py:28-35 | A constant c integrates to c·2^n, the exact integral over [-1, 1]^n. |
| McNameeStenger.ExactOnOddMonomials | quadpy/ncube/_mcnamee_stenger.py:28-35 | An integrand that vanishes at the centre and is odd along each axis integrates to 0. |
| McNameeStenger.ExactOnMixedProducts | quadpy/ncube/_mcnamee_stenger.py:28-35 | For i ≠ j, the monomial x_i·x_j integrates to 0, its exact integral over the cube. |
| McNameeStenger.ExactOnCubes | quadpy/ncube/_mcnamee_stenger.py:28-35 | The monomial x_i³ integrates to 0, its exact integral over the cube. |
| McNameeStenger.ExactOnSquares | quadpy/ncube/_mcnamee_stenger.py:20-35 | With u² = u2, x_j² integrates to I2 = 2^n/3, its exact integral. |
| RealSums.Sum | quadrature/tetrahedron.py:76 | The exact sum standing in for `math.fsum` and `numpy.sum`. No contract of its own; `SumAppend`, `SumFill`, `SumScale` and `SumTermsScale` state its properties. |
| RealSums.SumScale | quadrature/tetrahedron.py:76 | A common factor comes out of a sum: the sum of c·w_k is c times the sum of the w_k. |
| RealSums.SumTermsScale | quadrature/tetrahedron.py:76 | The scale factor of the terms `weights * f(x).T * abs(det)` comes out of their sum. |
| RealSums.Fill | quadrature/tetrahedron.py:404-406 | A weight block `w * numpy.ones(m)` has m entries, each w. |
| RealSums.SumFill | quadrature/tetrahedron.py:404-406 | A block of m copies of w sums to m·w. |
| RealSums.SumAppend | quadrature/tetrahedron.py:404-406 | The sum of a concatenation of weight blocks is the sum of the blocks' sums. |
| RealSums.Terms | quadrature/tetrahedron.py:76 | Term p of `weights * f(x).T * abs(det)` is weight p times value p times abs(det). |
| RealSums.SumTermsConstant | quadrature/tetrahedron.py:76 | With all values equal to c, the terms sum to c · abs(det) · (weight sum). |
| RealSums.SumTermsLinear | quadrature/tetrahedron.py:76 | The sum of the terms is linear in the values. |

## Left out

- The adaptive integrator is not part of this model. It is only re-exported by `quadpy/t2/__init__.py`.
- The XiaoGimbutas, ZhangCuiLiu and ShunnHam tables in `quadrature/tetrahedron.py` are transcribed float data with no logic of their own. They are not part of this model.
- `show` draws with matplotlib and is not part of this model.
- The weight values of `_newton_cotes` come from a sympy product of polynomials and their monomial integrals. They are a parameter, `weightOf`, giving the weight of each lattice point. The model proves where each weight goes, not its value.
- `math.fsum` and the float arithmetic of numpy are modelled as exact real arithmetic, so rounding is not modelled.
- Square roots, cosines and arc-cosines (Liu–Vinokur 3, 7, 8, 10, 11, 12, 13 and Hammer–Marlowe–Stroud) are opaque real parameters: `Radicals`, `sqrt5` and `u`. Only the facts the source relies on are kept, namely non-zero divisors and, for McNamee–Stenger, u² = u2.
- TetrahedronSchemes.LiuVinokur: requires `rad.Valid()` for every index. That includes indices whose branch does not divide by those radicals, so the contract is weaker than the source for a radical that happens to be zero. The numpy values are never zero.
- TetrahedronSchemes.LiuVinokurWeightSum: says nothing about branches 8 and 12. Their weights are rational functions of two roots alpha1 and alpha2, and the sum is 1 only because of algebraic relations that `Radicals` does not keep. Branch 8 builds its roots from sqrt(65944 - 19446·sqrt(11)) and sqrt(11) (quadrature/tetrahedron.py:618-639); its sum depends on how those square roots relate to 11. Branch 12 builds them from lambda, a cosine of an arc-cosine, and sqrt(9·lambda² - 248·lambda + 1680) (quadrature/tetrahedron.py:685-708); its sum depends on the equation lambda satisfies.
- QuadpyLiuVinokur.WeightSum: says nothing about branches 8 and 12, for the same reason as TetrahedronSchemes.LiuVinokurWeightSum.
- TetrahedronSchemes.YuWeightSum: claims only |sum - 1| ≤ 1e-16 for Yu 3 to 5. Their decimal weights do not sum to exactly 1.
- TetrahedronSchemes.KeastWeightSum: claims only |sum - 1| ≤ 1e-15 for Keast 3, 5, 7, 8, 9 and 10. Their decimal weights do not sum to exactly 1.
- NewtonCotes.NewtonCotesClosed: for n = 0, numpy computes 0/0.0 and the points become NaN without an exception. The model reports this as the outcome `NotANumber` and does not carry the NaN rows.
- NewtonCotes.NewtonCotesOpen: n is a natural number, and so is n in the other lattice members. For a negative n the source indexes an empty array and fails; the model does not represent that.
- The `_s4` of `quadpy/tetrahedron/liu_vinokur.py` comes from a helpers module that is not part of this model. It is taken to be the centroid, as in `quadrature/tetrahedron.py`.
- `z`, `fsd`, `untangle` and `NCubeScheme` of quadpy's n-cube helpers are not part of this model. The model takes `fsd(n, (u, 1))` to be the 2n points ±u·e_i, ordered +u then -u per axis; the proved sums do not depend on that order.
- McNameeStenger.ExactOnSquares: takes u as a parameter satisfying u² = u2 rather than computing the sympy square root.
- `integrate` works only when `f` returns one scalar per point. For a multi-component `f(x)`, `scheme.weights * f(x).T` either fails to broadcast or produces rows that `math.fsum` cannot sum. For a scalar integrand `.T` has no effect. The model takes a scalar integrand and does not model those failures.
- QuadpyLiuVinokur.LiuVinokur: the `AssertionError` for an unsupported index assumes assertions are enabled. Under `python -O` the `assert index == 14` is removed, and every unsupported index builds the index-14 scheme. The model does not represent that mode.
- The other files of the repository are not part of this model: the triangle, quadrilateral, e2r2, e3r and c2 schemes, packaging, and tests.
