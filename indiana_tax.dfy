/** Indiana's flat 3% state income tax plus the county rate chosen at intake. */
module IndianaTax {
  import opened Decimal

  const StateRate: real := 0.03

  /** IT-40 line 8: the state tax on Indiana AGI. */
  function StateTax(agi: real): real { agi * StateRate }

  /** IT-40 line 9: the county tax; countyRate is a percentage. */
  function CountyTax(agi: real, countyRate: real): real { agi * (countyRate / 100.0) }

  /** calculateIndianaTax: the income times the combined rate, rounded by Math.round.
      It is the rounded sum of lines 8 and 9 for the same income. */
  function CalculateIndianaTax(taxableIncome: real, countyRate: real): (tax: int)
    ensures tax == Round(StateTax(taxableIncome) + CountyTax(taxableIncome, countyRate))
    ensures taxableIncome >= 0.0 && countyRate >= 0.0 ==> tax >= 0
  {
    var totalRate := StateRate + countyRate / 100.0;
    Round(taxableIncome * totalRate)
  }

  /** With a non-negative county rate, more income never means less Indiana tax. */
  lemma IndianaTaxMonotone(x: real, y: real, countyRate: real)
    requires x <= y && countyRate >= 0.0
    ensures CalculateIndianaTax(x, countyRate) <= CalculateIndianaTax(y, countyRate)
  {
    var rate := StateRate + countyRate / 100.0;
    assert x * rate <= y * rate;
    RoundMonotone(x * rate, y * rate);
  }
}
