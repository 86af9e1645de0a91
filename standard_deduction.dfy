/**
 * The 2025 standard deduction chart (line 12e) and the count of line 12d
 * boxes that selects its column.
 */
module StandardDeduction {
  import opened Wrappers
  import opened Filing

  /** The four line 12d checkboxes: born before January 2, 1961 and blind, for
      the taxpayer (line12d1, line12d2) and the spouse (line12dSpouse1, line12dSpouse2).
      A checkbox missing from the page reads as unchecked. */
  datatype Boxes = Boxes(selfBorn: bool, selfBlind: bool, spouseBorn: bool, spouseBlind: bool)

  /** Spouse boxes are counted for married filing jointly, qualifying surviving
      spouse and married filing separately. */
  predicate CountsSpouseBoxes(s: FilingStatus)
  {
    s == Married || s == Qss || s == Mfs
  }

  function B2N(b: bool): nat { if b then 1 else 0 }

  /** boxesChecked as updateStandardDeduction counts it. */
  function BoxCount(s: FilingStatus, b: Boxes): (n: nat)
    ensures n <= (if CountsSpouseBoxes(s) then 4 else 2)
    ensures n == 0 <==> !b.selfBorn && !b.selfBlind && (!CountsSpouseBoxes(s) || (!b.spouseBorn && !b.spouseBlind))
  {
    B2N(b.selfBorn) + B2N(b.selfBlind)
      + (if CountsSpouseBoxes(s) then B2N(b.spouseBorn) + B2N(b.spouseBlind) else 0)
  }

  /** STANDARD_DEDUCTION_CHART[filingStatus]: one amount per box count. */
  function ChartRow(s: FilingStatus): Option<seq<int>>
  {
    match s
    case Single => Some([15750, 17750, 19750])
    case Married => Some([31500, 33100, 34700, 36300, 37900])
    case Qss => Some([31500, 33100, 34700])
    case Hoh => Some([23625, 25625, 27625])
    case Mfs => Some([15750, 17350, 18950, 20550, 22150])
    case Unrecognized => None
  }

  /** STANDARD_DEDUCTION_CHART[filingStatus][boxesChecked]; None where the
      source gets `undefined` or a TypeError. */
  function ChartLookup(s: FilingStatus, count: nat): Option<int>
  {
    match ChartRow(s)
    case None => None
    case Some(row) => if count < |row| then Some(row[count]) else None
  }

  /** Outcome of updateStandardDeduction. */
  datatype DeductionLookup =
    | NoFilingStatus        // returns 0, writes nothing
    | ChartMiss             // the chart has no entry: the source throws before writing
    | Amount(dollars: int)  // written to line 12e and to the saved standard amount

  function LookupStandardDeduction(status: Option<FilingStatus>, b: Boxes): (r: DeductionLookup)
    ensures status.None? <==> r == NoFilingStatus
    ensures r.Amount? ==> ChartLookup(status.value, BoxCount(status.value, b)) == Some(r.dollars)
    ensures status.Some? ==> (r.Amount? <==> ChartLookup(status.value, BoxCount(status.value, b)).Some?)
  {
    match status
    case None => NoFilingStatus
    case Some(s) =>
      match ChartLookup(s, BoxCount(s, b))
      case None => ChartMiss
      case Some(d) => Amount(d)
  }

  /** The base amount of each chart row and what each checked box adds. */
  function BaseAmount(s: FilingStatus): int
  {
    match s
    case Single | Mfs => 15750
    case Married | Qss => 31500
    case Hoh => 23625
    case Unrecognized => 0
  }

  function PerBox(s: FilingStatus): int
  {
    match s
    case Single | Hoh => 2000
    case Married | Qss | Mfs => 1600
    case Unrecognized => 0
  }

  /** Every chart entry is the base amount plus one fixed addition per box:
      $2,000 for single and head of household, $1,600 for the married statuses. */
  lemma ChartIsBasePlusPerBox(s: FilingStatus, k: nat)
    requires ChartLookup(s, k).Some?
    ensures ChartLookup(s, k).value == BaseAmount(s) + k * PerBox(s)
  {
  }

  /** The chart has an entry for every count that single, head of household,
      married filing jointly and married filing separately can produce. */
  lemma ChartCoversCounts(s: FilingStatus, b: Boxes)
    requires s in {Single, Hoh, Married, Mfs}
    ensures ChartLookup(s, BoxCount(s, b)).Some?
  {
  }

  /** A qualifying surviving spouse counts spouse boxes, but the chart's row
      stops at two, so a count of three or four finds no entry. */
  lemma QssChartGap(b: Boxes)
    ensures ChartLookup(Qss, BoxCount(Qss, b)).None? <==> BoxCount(Qss, b) >= 3
    ensures LookupStandardDeduction(Some(Qss), Boxes(true, true, true, false)) == ChartMiss
  {
  }

  lemma ChartExamples()
    ensures LookupStandardDeduction(Some(Single), Boxes(false, false, false, false)) == Amount(15750)
    ensures LookupStandardDeduction(Some(Single), Boxes(true, true, false, false)) == Amount(19750)
    ensures LookupStandardDeduction(Some(Married), Boxes(true, true, true, true)) == Amount(37900)
  {
  }

  /** Checking one more box never lowers the deduction, as long as the chart has the entry. */
  lemma MoreBoxesNoLess(s: FilingStatus, j: nat, k: nat)
    requires j <= k && ChartLookup(s, k).Some?
    ensures ChartLookup(s, j).Some? && ChartLookup(s, j).value <= ChartLookup(s, k).value
  {
    ChartIsBasePlusPerBox(s, j);
    ChartIsBasePlusPerBox(s, k);
  }
}
