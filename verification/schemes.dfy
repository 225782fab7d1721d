/** The tetrahedron scheme constructors of quadrature/tetrahedron.py
    (Hammer–Marlowe–Stroud, Yu, Keast, Liu–Vinokur, Zienkiewicz): each index
    selects a branch that concatenates weight blocks and orbits of barycentric
    rows; the scheme stores the rows without their first column. */
module TetrahedronSchemes {
  import opened Orbits
  import opened RealSums

  /** The exceptions a constructor raises, and the one non-finite outcome the
      model reports instead of carrying NaN values. */
  datatype Error = ValueError(message: string) | AssertionError | NotANumber

  datatype Result<T> = Success(value: T) | Failure(error: Error)

  /** A constructed scheme. The source stores `points = bary[:, 1:]`; the model
      keeps the barycentric table and derives the points from it. */
  datatype Rule = Rule(weights: seq<real>, bary: seq<Bary>, degree: nat)
  {
    /** `self.points`: the barycentric table without its first column. */
    function Points(): (points: seq<Point>)
      ensures |points| == |bary|
    {
      DropFirstColumn(bary)
    }

    /** One weight per point, and every row a barycentric coordinate. */
    predicate WellFormed()
    {
      |weights| == |bary| && RowsSumToOne(bary)
    }
  }

  /** The values the constructors obtain from `numpy.sqrt`, `numpy.cos` and
      `numpy.arccos`, taken as opaque reals. */
  datatype Radicals = Radicals(
    sqrt2: real,
    sqrt5: real,
    sqrt11: real,
    sqrt13: real,
    sqrt70: real,
    root8: real,        // sqrt(65944 - 19446 sqrt(11))
    lambda12: real,     // 4/27 (4 sqrt(79) cos((arccos(67 sqrt(79)/24964) + 2 pi)/3) + 71)
    root12: real,       // sqrt(9 lambda^2 - 248 lambda + 1680)
    sqrtLambda12: real) // sqrt(lambda)
  {
    /** Liu–Vinokur 8's `alpha1` and `alpha2`. */
    function Alpha8a(): real { (root8 + 51.0 * sqrt11 - 154.0) / 89.0 }
    function Alpha8b(): real { (- root8 + 51.0 * sqrt11 - 154.0) / 89.0 }

    /** Liu–Vinokur 12's `alpha1` and `alpha2`. */
    function Alpha12a(): real
      requires 112.0 - 10.0 * lambda12 != 0.0
    {
      (root12 + 28.0 - 3.0 * lambda12) / (112.0 - 10.0 * lambda12)
    }
    function Alpha12b(): real
      requires 112.0 - 10.0 * lambda12 != 0.0
    {
      (- root12 + 28.0 - 3.0 * lambda12) / (112.0 - 10.0 * lambda12)
    }

    /** Every divisor the Liu–Vinokur constructor uses is nonzero (true of the
        exact values). */
    predicate Valid()
    {
      && sqrt5 != 0.0
      && Alpha8a() != 0.0 && Alpha8b() != 0.0 && Alpha8a() != Alpha8b()
      && 112.0 - 10.0 * lambda12 != 0.0
      && Alpha12a() != 0.0 && Alpha12b() != 0.0 && Alpha12a() != Alpha12b()
      && sqrtLambda12 != 0.0
    }
  }

  // ---------------------------------------------------------------------------
  // Hammer–Marlowe–Stroud (tetrahedron.py, class HammerMarloweStroud)

  const HammerMarloweStroudSizes: seq<nat> := [4, 4, 5]

  function HammerMarloweStroudWeights(index: int): (ws: seq<real>)
    requires 1 <= index <= 3
    ensures |ws| == HammerMarloweStroudSizes[index - 1]
  {
    if index == 1 then Fill(4, 0.25)
    else if index == 2 then Fill(4, 0.25)
    else Fill(1, -0.8) + Fill(4, 9.0 / 20.0)
  }

  function HammerMarloweStroudBary(index: int, sqrt5: real): (rows: seq<Bary>)
    requires 1 <= index <= 3 && sqrt5 != 0.0
    ensures |rows| == HammerMarloweStroudSizes[index - 1] && RowsSumToOne(rows)
  {
    if index == 1 then HammerMarloweStroudR(1.0 / sqrt5)
    else if index == 2 then HammerMarloweStroudR(-1.0 / sqrt5)
    else S4() + HammerMarloweStroudR(1.0 / 3.0)
  }

  /** `HammerMarloweStroud(index)`, with `sqrt5` standing for `numpy.sqrt(5.0)`. */
  function HammerMarloweStroud(index: int, sqrt5: real): (r: Result<Rule>)
    requires sqrt5 != 0.0
    ensures r.Success? <==> 1 <= index <= 3
    ensures r.Failure? ==> r.error == ValueError("Illegal Hammer-Marlowe-Stroud index")
    ensures r.Success? ==> r.value.WellFormed() && |r.value.bary| == [4, 4, 5][index - 1]
    ensures r.Success? ==> r.value.degree == [2, 2, 3][index - 1]
  {
    if 1 <= index <= 3 then
      Success(Rule(HammerMarloweStroudWeights(index), HammerMarloweStroudBary(index, sqrt5),
                   [2, 2, 3][index - 1]))
    else
      Failure(ValueError("Illegal Hammer-Marlowe-Stroud index"))
  }

  // ---------------------------------------------------------------------------
  // Yu (tetrahedron.py, class Yu)

  const YuSizes: seq<nat> := [4, 5, 16, 17, 29]

  function YuWeights(index: int): (ws: seq<real>)
    requires 1 <= index <= 5
    ensures |ws| == YuSizes[index - 1]
  {
    if index == 1 then Fill(4, 0.25)
    else if index == 2 then Fill(1, -0.8) + Fill(4, 0.45)
    else if index == 3 then Fill(4, 0.5037379410012282e-01) + Fill(12, 0.6654206863329239e-01)
    else if index == 4 then
      Fill(1, 0.1884185567365411) + Fill(4, 0.6703858372604275e-01) + Fill(12, 0.4528559236327399e-01)
    else
      Fill(1, 0.9040129046014750e-01) + Fill(4, 0.1911983427899124e-01)
      + Fill(12, 0.4361493840666568e-01) + Fill(12, 0.2581167596199161e-01)
  }

  function YuBary(index: int): (rows: seq<Bary>)
    requires 1 <= index <= 5
    ensures |rows| == YuSizes[index - 1] && RowsSumToOne(rows)
  {
    if index == 1 then S31(0.138196601125015)
    else if index == 2 then S4() + S31(1.0 / 6.0)
    else if index == 3 then S31(0.7611903264425430e-01) + S211(0.4042339134672644, 0.1197005277978019)
    else if index == 4 then
      S4() + S31(0.8945436401412733e-01) + S211(0.4214394310662522, 0.1325810999384657)
    else
      S4() + S31(0.5742691731735682e-01) + S211(0.2312985436519147, 0.5135188412556341e-01)
      + S211(0.4756909881472290e-01, 0.2967538129690260)
  }

  function Yu(index: int): (r: Result<Rule>)
    ensures r.Success? <==> 1 <= index <= 5
    ensures r.Failure? ==> r.error == ValueError("Illegal closed Yu index")
    ensures r.Success? ==> r.value.WellFormed() && |r.value.bary| == [4, 5, 16, 17, 29][index - 1]
    ensures r.Success? ==> r.value.degree == index + 1
  {
    if 1 <= index <= 5 then
      Success(Rule(YuWeights(index), YuBary(index), index + 1))
    else
      Failure(ValueError("Illegal closed Yu index"))
  }

  // ---------------------------------------------------------------------------
  // Keast (tetrahedron.py, class Keast)

  const KeastSizes: seq<nat> := [1, 4, 5, 10, 11, 14, 15, 24, 31, 45, 45]
  const KeastDegrees: seq<nat> := [1, 2, 3, 3, 4, 4, 5, 6, 7, 8, 8]

  /** Keast 10 lists its weights divided by 6; the constructor multiplies them back. */
  function Keast10Sixths(): (ws: seq<real>)
    ensures |ws| == 45
  {
    Fill(1, -0.393270066412926145e-01) + Fill(4, 0.408131605934270525e-02)
    + Fill(4, 0.658086773304341943e-03) + Fill(6, 0.438425882512284693e-02)
    + Fill(6, 0.138300638425098166e-01) + Fill(12, 0.424043742468372453e-02)
    + Fill(12, 0.223873973961420164e-02)
  }

  function KeastWeights(index: int): (ws: seq<real>)
    requires 0 <= index <= 10
    ensures |ws| == KeastSizes[index]
  {
    if index == 0 then [1.0]
    else if index == 1 then Fill(4, 0.25)
    else if index == 2 then Fill(1, -0.8) + Fill(4, 0.45)
    else if index == 3 then Fill(4, 0.2177650698804054) + Fill(6, 0.0214899534130631)
    else if index == 4 then Fill(1, -148.0 / 1875.0) + Fill(4, 343.0 / 7500.0) + Fill(6, 56.0 / 375.0)
    else if index == 5 then Fill(6, 2.0 / 105.0) + Fill(4, 0.0885898247429807) + Fill(4, 0.1328387466855907)
    else if index == 6 then
      Fill(1, 6544.0 / 36015.0) + Fill(4, 81.0 / 2240.0) + Fill(4, 161051.0 / 2304960.0)
      + Fill(6, 338.0 / 5145.0)
    else if index == 7 then
      Fill(4, 0.0399227502581679) + Fill(4, 0.0100772110553207) + Fill(4, 0.0553571815436544)
      + Fill(12, 27.0 / 560.0)
    else if index == 8 then
      Fill(1, 0.1095853407966528) + Fill(4, 0.0635996491464850) + Fill(4, -0.3751064406859797)
      + Fill(4, 0.0293485515784412) + Fill(6, 0.0058201058201058) + Fill(12, 0.1653439153439105)
    else if index == 9 then
      Fill(1, -0.2359620398477557) + Fill(4, 0.0244878963560562) + Fill(4, 0.0039485206398261)
      + Fill(6, 0.0263055529507371) + Fill(6, 0.0829803830550589) + Fill(12, 0.0254426245481023)
      + Fill(12, 0.0134324384376852)
    else
      Scale(6.0, Keast10Sixths())
  }

  function KeastBary(index: int): (rows: seq<Bary>)
    requires 0 <= index <= 10
    ensures |rows| == KeastSizes[index]
  {
    if index == 0 then S4()
    else if index == 1 then S31(0.1381966011250105)
    else if index == 2 then S4() + S31(1.0 / 6.0)
    else if index == 3 then S31(0.1438564719343852) + S22(0.5)
    else if index == 4 then S4() + S31(1.0 / 14.0) + S22(0.3994035761667992)
    else if index == 5 then S22(0.5) + S31(0.1005267652252045) + S31(0.3143728734931922)
    else if index == 6 then S4() + S31(1.0 / 3.0) + S31(1.0 / 11.0) + S22(0.0665501535736643)
    else if index == 7 then
      S31(0.2146028712591517) + S31(0.0406739585346113) + S31(0.3223378901422757)
      + S211(0.0636610018750175, 0.2696723314583159)
    else if index == 8 then
      S4() + S31(0.0782131923303186) + S31(0.1218432166639044) + S31(0.3325391644464206)
      + S22(0.5) + S211(0.1, 0.2)
    else if index == 9 then
      S4() + S31(0.1274709365666390) + S31(0.0320788303926323)
      + S22(0.0497770956432810) + S22(0.1837304473985499)
      + S211(0.2319010893971509, 0.5132800333608811) + S211(0.0379700484718286, 0.1937464752488044)
    else
      S4() + S31(0.127470936566639015e-00) + S31(0.320788303926322960e-01)
      + S22(0.497770956432810185e-01) + S22(0.183730447398549945e-00)
      + S211(0.231901089397150906e-00, 0.229177878448171174e-01)
      + S211(0.379700484718286102e-01, 0.730313427807538396e-00)
  }

  /** Every row of every Keast table is a barycentric coordinate. */
  lemma KeastBarycentric(index: int)
    requires 0 <= index <= 10
    ensures RowsSumToOne(KeastBary(index))
  {
    if index == 0 {
      assert RowsSumToOne(KeastBary(0));
    } else if index == 1 {
      assert RowsSumToOne(KeastBary(1));
    } else if index == 2 {
      assert RowsSumToOne(KeastBary(2));
    } else if index == 3 {
      assert RowsSumToOne(KeastBary(3));
    } else if index == 4 {
      assert RowsSumToOne(KeastBary(4));
    } else if index == 5 {
      assert RowsSumToOne(KeastBary(5));
    } else if index == 6 {
      assert RowsSumToOne(KeastBary(6));
    } else if index == 7 {
      assert RowsSumToOne(KeastBary(7));
    } else if index == 8 {
      assert RowsSumToOne(KeastBary(8));
    } else if index == 9 {
      assert RowsSumToOne(KeastBary(9));
    } else if index == 10 {
      assert RowsSumToOne(KeastBary(10));
    }
  }

  function Keast(index: int): (r: Result<Rule>)
    ensures r.Success? <==> 0 <= index <= 10
    ensures r.Failure? ==> r.error == ValueError("Illegal Keast index")
    ensures r.Success? ==> r.value.WellFormed() && |r.value.bary| == KeastSizes[index]
    ensures r.Success? ==> r.value.degree == KeastDegrees[index]
  {
    if 0 <= index <= 10 then
      KeastBarycentric(index);
      Success(Rule(KeastWeights(index), KeastBary(index), KeastDegrees[index]))
    else
      Failure(ValueError("Illegal Keast index"))
  }

  // ---------------------------------------------------------------------------
  // Liu–Vinokur (tetrahedron.py, class LiuVinokur)

  const LiuVinokurSizes: seq<nat> := [1, 4, 4, 5, 5, 8, 11, 14, 15, 21, 18, 14, 15, 19]
  const LiuVinokurDegrees: seq<nat> := [1, 1, 2, 2, 3, 3, 4, 4, 4, 4, 4, 5, 5, 5]

  function LiuVinokurWeights(index: int, rad: Radicals): (ws: seq<real>)
    requires 1 <= index <= 14 && rad.Valid()
    ensures |ws| == LiuVinokurSizes[index - 1]
  {
    if index == 1 then Fill(1, 1.0)
    else if index == 2 then Fill(4, 0.25)
    else if index == 3 then Fill(4, 0.25)
    else if index == 4 then Fill(1, 0.8) + Fill(4, 0.05)
    else if index == 5 then Fill(1, -0.8) + Fill(4, 0.45)
    else if index == 6 then Fill(4, 1.0 / 40.0) + Fill(4, 9.0 / 40.0)
    else if index == 7 then Fill(1, -148.0 / 1875.0) + Fill(4, 343.0 / 7500.0) + Fill(6, 56.0 / 375.0)
    else if index == 8 then
      var alpha1, alpha2 := rad.Alpha8a(), rad.Alpha8b();
      Fill(4, (17.0 * alpha2 - 7.0) / (420.0 * alpha1 * alpha1 * (alpha2 - alpha1)))
      + Fill(4, (17.0 * alpha1 - 7.0) / (420.0 * alpha2 * alpha2 * (alpha1 - alpha2)))
      + Fill(6, 2.0 / 105.0)
    else if index == 9 then
      Fill(1, -32.0 / 15.0) + Fill(4, 3.0 / 280.0) + Fill(4, 125.0 / 168.0) + Fill(6, 2.0 / 105.0)
    else if index == 10 then
      Fill(1, 32.0 / 105.0) + Fill(4, -31.0 / 840.0) + Fill(4, 27.0 / 280.0) + Fill(12, 4.0 / 105.0)
    else if index == 11 then
      Fill(4, (11.0 - 4.0 * rad.sqrt2) / 840.0) + Fill(4, (243.0 - 108.0 * rad.sqrt2) / 1960.0)
      + Fill(4, (62.0 + 44.0 * rad.sqrt2) / 735.0) + Fill(6, 2.0 / 105.0)
    else if index == 12 then
      var lambda := rad.lambda12;
      var alpha1, alpha2 := rad.Alpha12a(), rad.Alpha12b();
      Fill(4, ((21.0 - lambda) * alpha2 - 7.0) / (420.0 * alpha1 * alpha1 * (alpha2 - alpha1)))
      + Fill(4, ((21.0 - lambda) * alpha1 - 7.0) / (420.0 * alpha2 * alpha2 * (alpha1 - alpha2)))
      + Fill(6, lambda * lambda / 840.0)
    else if index == 13 then
      Fill(1, -16.0 / 21.0) + Fill(4, (2249.0 - 391.0 * rad.sqrt13) / 10920.0)
      + Fill(4, (2249.0 + 391.0 * rad.sqrt13) / 10920.0) + Fill(6, 2.0 / 105.0)
    else
      Fill(1, 16.0 / 105.0) + Fill(4, 1.0 / 280.0) + Fill(4, 81.0 / 1400.0)
      + Fill(4, 64.0 / 525.0) + Fill(6, 2.0 / 105.0)
  }

  function LiuVinokurBary(index: int, rad: Radicals): (rows: seq<Bary>)
    requires 1 <= index <= 14 && rad.Valid()
    ensures |rows| == LiuVinokurSizes[index - 1] && RowsSumToOne(rows)
  {
    if index == 1 then S4()
    else if index == 2 then RAlpha(1.0)
    else if index == 3 then RAlpha(1.0 / rad.sqrt5)
    else if index == 4 then S4() + RAlpha(1.0)
    else if index == 5 then S4() + RAlpha(1.0 / 3.0)
    else if index == 6 then RAlpha(1.0) + RAlpha(-1.0 / 3.0)
    else if index == 7 then S4() + RAlpha(5.0 / 7.0) + RBeta(rad.sqrt70 / 28.0)
    else if index == 8 then RAlpha(rad.Alpha8a()) + RAlpha(rad.Alpha8b()) + RBeta(0.5)
    else if index == 9 then S4() + RAlpha(1.0) + RAlpha(0.2) + RBeta(0.5)
    else if index == 10 then
      S4() + RAlpha(1.0) + RAlpha(-1.0 / 3.0)
      + RGammaDelta((2.0 + rad.sqrt2) / 4.0, (2.0 - rad.sqrt2) / 4.0)
    else if index == 11 then
      RAlpha(1.0) + RAlpha(-1.0 / 3.0) + RAlpha(rad.sqrt2 - 1.0) + RBeta(0.5)
    else if index == 12 then
      RAlpha(rad.Alpha12a()) + RAlpha(rad.Alpha12b()) + RBeta(1.0 / rad.sqrtLambda12)
    else if index == 13 then
      S4() + RAlpha((2.0 + rad.sqrt13) / 9.0) + RAlpha((2.0 - rad.sqrt13) / 9.0) + RBeta(0.5)
    else
      S4() + RAlpha(1.0) + RAlpha(-1.0 / 3.0) + RAlpha(0.5) + RBeta(0.5)
  }

  /** `LiuVinokur(index)` of tetrahedron.py, with `rad` standing for the
      square roots and the trigonometric root it computes. */
  function LiuVinokur(index: int, rad: Radicals): (r: Result<Rule>)
    requires rad.Valid()
    ensures r.Success? <==> 1 <= index <= 14
    ensures r.Failure? ==> r.error == ValueError("Illegal Liu-Vinokur index")
    ensures r.Success? ==> r.value.WellFormed() && |r.value.bary| == LiuVinokurSizes[index - 1]
    ensures r.Success? ==> r.value.degree == LiuVinokurDegrees[index - 1]
  {
    if 1 <= index <= 14 then
      Success(Rule(LiuVinokurWeights(index, rad), LiuVinokurBary(index, rad), LiuVinokurDegrees[index - 1]))
    else
      Failure(ValueError("Illegal Liu-Vinokur index"))
  }

  // ---------------------------------------------------------------------------
  // Zienkiewicz (tetrahedron.py, class Zienkiewicz)

  function Zienkiewicz(index: int): (r: Result<Rule>)
    ensures r.Success? <==> index == 4 || index == 5
    ensures r.Failure? ==> r.error == ValueError("Illegal closed Newton-Cotes index")
    ensures r.Success? ==> r.value.WellFormed() && |r.value.bary| == index
    ensures r.Success? ==> r.value.degree == index - 2
  {
    if index == 4 then
      Success(Rule(Fill(4, 0.25), S31(0.1381966011250105), 2))
    else if index == 5 then
      Success(Rule(Fill(1, -0.8) + Fill(4, 0.45), S4() + S31(1.0 / 6.0), 3))
    else
      Failure(ValueError("Illegal closed Newton-Cotes index"))
  }

  // ---------------------------------------------------------------------------
  // Weight sums. `integrate` multiplies the weighted sum by the volume, so a
  // scheme integrates constants exactly when its weights sum to 1.

  lemma HammerMarloweStroudWeightSum(index: int)
    requires 1 <= index <= 3
    ensures Sum(HammerMarloweStroudWeights(index)) == 1.0
  {
    SumRules();
    if index == 1 {
      assert Sum(HammerMarloweStroudWeights(1)) == 1.0;
    } else if index == 2 {
      assert Sum(HammerMarloweStroudWeights(2)) == 1.0;
    } else if index == 3 {
      assert Sum(HammerMarloweStroudWeights(3)) == 1.0;
    }
  }

  /** Yu 1 and 2 sum to 1 exactly; the decimals of Yu 3 to 5 within 10^-16. */
  lemma YuWeightSum(index: int)
    requires 1 <= index <= 5
    ensures index <= 2 ==> Sum(YuWeights(index)) == 1.0
    ensures -1.0e-16 <= Sum(YuWeights(index)) - 1.0 <= 1.0e-16
  {
    SumRules();
    if index == 1 {
      assert Sum(YuWeights(1)) == 1.0;
    } else if index == 2 {
      assert Sum(YuWeights(2)) == 1.0;
    } else if index == 3 {
      assert -1.0e-16 <= Sum(YuWeights(3)) - 1.0 <= 1.0e-16;
    } else if index == 4 {
      assert -1.0e-16 <= Sum(YuWeights(4)) - 1.0 <= 1.0e-16;
    } else if index == 5 {
      assert -1.0e-16 <= Sum(YuWeights(5)) - 1.0 <= 1.0e-16;
    }
  }

  /** The rational Keast tables 0, 1, 2, 4 and 6 sum to 1 exactly; the decimal
      ones within 10^-15. */
  lemma KeastWeightSum(index: int)
    requires 0 <= index <= 10
    ensures index in {0, 1, 2, 4, 6} ==> Sum(KeastWeights(index)) == 1.0
    ensures -1.0e-15 <= Sum(KeastWeights(index)) - 1.0 <= 1.0e-15
  {
    if index in {0, 1, 2, 4, 6} {
      KeastRationalWeightSum(index);
    } else if index in {3, 5, 7} {
      KeastDecimalWeightSum(index);
    } else if index in {8, 9} {
      KeastHighDegreeWeightSum(index);
    } else {
      KeastScaledWeightSum();
    }
  }

  lemma KeastRationalWeightSum(index: int)
    requires index in {0, 1, 2, 4, 6}
    ensures Sum(KeastWeights(index)) == 1.0
  {
    SumRules();
    if index == 0 {
      assert KeastWeights(0) == Fill(1, 1.0);
    } else if index == 1 {
      assert Sum(KeastWeights(1)) == 1.0;
    } else if index == 2 {
      assert Sum(KeastWeights(2)) == 1.0;
    } else if index == 4 {
      assert Sum(KeastWeights(4)) == 1.0;
    } else if index == 6 {
      assert Sum(KeastWeights(6)) == 1.0;
    }
  }

  lemma KeastDecimalWeightSum(index: int)
    requires index in {3, 5, 7}
    ensures -1.0e-15 <= Sum(KeastWeights(index)) - 1.0 <= 1.0e-15
  {
    SumRules();
    if index == 3 {
      assert -1.0e-15 <= Sum(KeastWeights(3)) - 1.0 <= 1.0e-15;
    } else if index == 5 {
      assert -1.0e-15 <= Sum(KeastWeights(5)) - 1.0 <= 1.0e-15;
    } else if index == 7 {
      assert -1.0e-15 <= Sum(KeastWeights(7)) - 1.0 <= 1.0e-15;
    }
  }

  lemma KeastHighDegreeWeightSum(index: int)
    requires index in {8, 9}
    ensures -1.0e-15 <= Sum(KeastWeights(index)) - 1.0 <= 1.0e-15
  {
    SumRules();
    if index == 8 {
      assert -1.0e-15 <= Sum(KeastWeights(8)) - 1.0 <= 1.0e-15;
    } else if index == 9 {
      assert -1.0e-15 <= Sum(KeastWeights(9)) - 1.0 <= 1.0e-15;
    }
  }

  lemma KeastScaledWeightSum()
    ensures -1.0e-15 <= Sum(KeastWeights(10)) - 1.0 <= 1.0e-15
  {
    SumScale(6.0, Keast10Sixths());
    SumRules();
  }

  /** Every Liu–Vinokur table whose weights are rational, or whose irrational
      parts cancel (11 and 13, whatever the square roots are), sums to 1. */
  lemma LiuVinokurWeightSum(index: int, rad: Radicals)
    requires 1 <= index <= 14 && index != 8 && index != 12 && rad.Valid()
    ensures Sum(LiuVinokurWeights(index, rad)) == 1.0
  {
    if index <= 7 {
      LiuVinokurLowDegreeWeightSum(index, rad);
    } else {
      LiuVinokurHighDegreeWeightSum(index, rad);
    }
  }

  lemma LiuVinokurLowDegreeWeightSum(index: int, rad: Radicals)
    requires 1 <= index <= 7 && rad.Valid()
    ensures Sum(LiuVinokurWeights(index, rad)) == 1.0
  {
    SumRules();
    if index == 1 {
      assert Sum(LiuVinokurWeights(1, rad)) == 1.0;
    } else if index == 2 {
      assert Sum(LiuVinokurWeights(2, rad)) == 1.0;
    } else if index == 3 {
      assert Sum(LiuVinokurWeights(3, rad)) == 1.0;
    } else if index == 4 {
      assert Sum(LiuVinokurWeights(4, rad)) == 1.0;
    } else if index == 5 {
      assert Sum(LiuVinokurWeights(5, rad)) == 1.0;
    } else if index == 6 {
      assert Sum(LiuVinokurWeights(6, rad)) == 1.0;
    } else if index == 7 {
      assert Sum(LiuVinokurWeights(7, rad)) == 1.0;
    }
  }

  lemma LiuVinokurHighDegreeWeightSum(index: int, rad: Radicals)
    requires index in {9, 10, 11, 13, 14} && rad.Valid()
    ensures Sum(LiuVinokurWeights(index, rad)) == 1.0
  {
    SumRules();
    if index == 9 {
      assert Sum(LiuVinokurWeights(9, rad)) == 1.0;
    } else if index == 10 {
      assert Sum(LiuVinokurWeights(10, rad)) == 1.0;
    } else if index == 11 {
      assert Sum(LiuVinokurWeights(11, rad)) == 1.0;
    } else if index == 13 {
      assert Sum(LiuVinokurWeights(13, rad)) == 1.0;
    } else if index == 14 {
      assert Sum(LiuVinokurWeights(14, rad)) == 1.0;
    }
  }

  lemma ZienkiewiczWeightSum(index: int)
    requires index == 4 || index == 5
    ensures Sum(Zienkiewicz(index).value.weights) == 1.0
  {
    SumRules();
  }
}
