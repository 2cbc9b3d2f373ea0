/** The two arithmetic rules of utils.ts. */
module Utils {
  import opened JsMath

  /** The urbanisation rate in percent; a zero total gives 0 instead of a
      division by zero. */
  function UrbanRate(urban: real, total: real): (r: real)
    ensures total == 0.0 ==> r == 0.0
    ensures total != 0.0 ==> r * total == urban * 100.0
  {
    if total == 0.0 then 0.0 else urban / total * 100.0
  }

  /** With a non-zero total the rate gives back the urban population. */
  lemma UrbanRateRecoversUrban(urban: real, total: real)
    requires total != 0.0
    ensures UrbanRate(urban, total) / 100.0 * total == urban
  {
  }

  /** An urban population between 0 and the total is between 0% and 100%. */
  lemma UrbanRateBounds(urban: real, total: real)
    requires 0.0 <= urban <= total && total > 0.0
    ensures 0.0 <= UrbanRate(urban, total) <= 100.0
  {
    assert 0.0 <= urban / total <= total / total;
    assert UrbanRate(urban, total) == urban / total * 100.0;
  }

  /** `startValue * (1 + rate/100)^years`. */
  function CompoundGrowth(startValue: real, rate: real, years: nat): (r: real)
    ensures years == 0 ==> r == startValue
  {
    startValue * Pow(1.0 + rate / 100.0, years)
  }

  lemma GrowthAtZeroRate(startValue: real, years: nat)
    ensures CompoundGrowth(startValue, 0.0, years) == startValue
  {
  }

  /** Growing m years and then n more years is growing m + n years. */
  lemma GrowthComposes(startValue: real, rate: real, m: nat, n: nat)
    ensures CompoundGrowth(CompoundGrowth(startValue, rate, m), rate, n)
         == CompoundGrowth(startValue, rate, m + n)
  {
    var b := 1.0 + rate / 100.0;
    PowAdd(b, m, n);
    assert startValue * Pow(b, m) * Pow(b, n) == startValue * (Pow(b, m) * Pow(b, n));
  }

  /** One year of growth adds rate percent of the start value. */
  lemma GrowthOneYear(startValue: real, rate: real)
    ensures CompoundGrowth(startValue, rate, 1) == startValue + startValue * rate / 100.0
  {
  }

  /** Each further year multiplies the value by 1 + rate/100. */
  lemma GrowthNextYear(startValue: real, rate: real, n: nat)
    ensures CompoundGrowth(startValue, rate, n + 1) == CompoundGrowth(startValue, rate, n) * (1.0 + rate / 100.0)
  {
    GrowthComposes(startValue, rate, n, 1);
    GrowthOneYear(CompoundGrowth(startValue, rate, n), rate);
  }

  /** A non-negative start and rate never shrink, and more years never give less. */
  lemma GrowthNonDecreasing(startValue: real, rate: real, m: nat, n: nat)
    requires startValue >= 0.0 && rate >= 0.0 && m <= n
    ensures startValue <= CompoundGrowth(startValue, rate, m) <= CompoundGrowth(startValue, rate, n)
  {
    var b := 1.0 + rate / 100.0;
    PowGrowsWithExponent(b, m, n);
    ScaleMonotone(startValue, 1.0, Pow(b, m));
    ScaleMonotone(startValue, Pow(b, m), Pow(b, n));
  }
}
