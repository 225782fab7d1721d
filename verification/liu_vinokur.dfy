/** `LiuVinokur(index)` of quadpy/tetrahedron/liu_vinokur.py. Its fourteen
    branches and its `_r_alpha`, `_r_beta` and `_r_gamma_delta` are those of
    the class of the same name in quadrature/tetrahedron.py; only the fall-through
    differs: the last branch is an `else` that asserts `index == 14`, so an
    unsupported index fails an assertion instead of raising ValueError. */
module QuadpyLiuVinokur {
  import opened Orbits
  import opened RealSums
  import TetrahedronSchemes

  type Radicals = TetrahedronSchemes.Radicals
  type Rule = TetrahedronSchemes.Rule

  function Branch(index: int, rad: Radicals): (r: Rule)
    requires 1 <= index <= 14 && rad.Valid()
  {
    TetrahedronSchemes.Rule(
      TetrahedronSchemes.LiuVinokurWeights(index, rad),
      TetrahedronSchemes.LiuVinokurBary(index, rad),
      TetrahedronSchemes.LiuVinokurDegrees[index - 1])
  }

  function LiuVinokur(index: int, rad: Radicals): (r: TetrahedronSchemes.Result<Rule>)
    requires rad.Valid()
    ensures r.Success? <==> 1 <= index <= 14
    ensures r.Failure? ==> r.error == TetrahedronSchemes.AssertionError
    ensures r.Success? ==>
      && r.value.WellFormed()
      && |r.value.bary| == TetrahedronSchemes.LiuVinokurSizes[index - 1]
      && |r.value.Points()| == |r.value.weights|
      && r.value.degree == TetrahedronSchemes.LiuVinokurDegrees[index - 1]
  {
    if 1 <= index <= 13 then
      TetrahedronSchemes.Success(Branch(index, rad))
    else if index != 14 then
      TetrahedronSchemes.Failure(TetrahedronSchemes.AssertionError)
    else
      TetrahedronSchemes.Success(Branch(14, rad))
  }

  /** Both classes build the same scheme for every supported index; for every
      other index both fail, this one with an assertion and the other with
      ValueError. The agreement on 1..14 holds by construction, since this
      module reuses the tables of `TetrahedronSchemes`: the evidence for it is
      that the two source classes are textually identical (their branches,
      `_r_alpha`, `_r_beta` and `_r_gamma_delta`) apart from the final
      branch. What the lemma does check is that the fall-through is the only
      difference in outcome. */
  lemma SameSchemesAsQuadrature(index: int, rad: Radicals)
    requires rad.Valid()
    ensures 1 <= index <= 14 ==> LiuVinokur(index, rad) == TetrahedronSchemes.LiuVinokur(index, rad)
    ensures !(1 <= index <= 14) ==>
      && LiuVinokur(index, rad) == TetrahedronSchemes.Failure(TetrahedronSchemes.AssertionError)
      && TetrahedronSchemes.LiuVinokur(index, rad)
         == TetrahedronSchemes.Failure(TetrahedronSchemes.ValueError("Illegal Liu-Vinokur index"))
  {
  }

  /** The rational tables (and 11 and 13, whose square roots cancel) sum to 1. */
  lemma WeightSum(index: int, rad: Radicals)
    requires 1 <= index <= 14 && index != 8 && index != 12 && rad.Valid()
    ensures LiuVinokur(index, rad).Success?
    ensures Sum(LiuVinokur(index, rad).value.weights) == 1.0
  {
    TetrahedronSchemes.LiuVinokurWeightSum(index, rad);
  }
}
