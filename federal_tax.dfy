/**
 * calculateFederalTax: marginal brackets below $100,000 of taxable income,
 * the 2025 Tax Computation Worksheet (income × rate − subtraction) at or above.
 */
module FederalTax {
  import opened Wrappers
  import opened Decimal
  import opened Filing

  /** The income at which the worksheet takes over from the brackets. */
  const WorksheetThreshold: real := 100000.0

  datatype UpperBound = Below(limit: real) | Unbounded

  /** One row of the worksheet: tax = income × rate − subtraction. */
  datatype Band = Band(minIncome: real, maxIncome: UpperBound, rate: real, subtraction: real)

  /** `taxableIncome >= bracket.minIncome && taxableIncome < bracket.maxIncome`. */
  predicate InBand(b: Band, x: real)
  {
    b.minIncome <= x && (b.maxIncome.Unbounded? || x < b.maxIncome.limit)
  }

  function BandTax(b: Band, x: real): real
  {
    x * b.rate - b.subtraction
  }

  const SingleBands: seq<Band> := [
    Band(100000.0, Below(103350.0), 0.22, 5086.00),
    Band(103350.0, Below(197300.0), 0.24, 7153.00),
    Band(197300.0, Below(250525.0), 0.32, 22937.00),
    Band(250525.0, Below(626350.0), 0.35, 30452.75),
    Band(626350.0, Unbounded, 0.37, 42979.75)
  ]

  const MarriedBands: seq<Band> := [
    Band(100000.0, Below(206700.0), 0.22, 10172.00),
    Band(206700.0, Below(394600.0), 0.24, 14306.00),
    Band(394600.0, Below(501050.0), 0.32, 45874.00),
    Band(501050.0, Below(751600.0), 0.35, 60905.50),
    Band(751600.0, Unbounded, 0.37, 75937.50)
  ]

  /** Qualifying surviving spouse: the married-filing-jointly rows. */
  const QssBands: seq<Band> := MarriedBands

  const HohBands: seq<Band> := [
    Band(100000.0, Below(103350.0), 0.22, 6825.00),
    Band(103350.0, Below(197300.0), 0.24, 8892.00),
    Band(197300.0, Below(250500.0), 0.32, 24676.00),
    Band(250500.0, Below(626350.0), 0.35, 32191.00),
    Band(626350.0, Unbounded, 0.37, 44718.00)
  ]

  const MfsBands: seq<Band> := [
    Band(100000.0, Below(103350.0), 0.22, 5086.00),
    Band(103350.0, Below(197300.0), 0.24, 7153.00),
    Band(197300.0, Below(250525.0), 0.32, 22937.00),
    Band(250525.0, Below(375800.0), 0.35, 30452.75),
    Band(375800.0, Unbounded, 0.37, 37968.75)
  ]

  /** TAX_COMPUTATION_WORKSHEET[filingStatus]; an unrecognized status has no entry. */
  function Worksheet(s: FilingStatus): Option<seq<Band>>
  {
    match s
    case Single => Some(SingleBands)
    case Married => Some(MarriedBands)
    case Qss => Some(QssBands)
    case Hoh => Some(HohBands)
    case Mfs => Some(MfsBands)
    case Unrecognized => None
  }

  /** Tops of the 10% and 12% brackets of one bracket set. */
  datatype Brackets = Brackets(tenTop: real, twelveTop: real)

  /** The bracket set below the threshold; an unrecognized status falls back
      to the single brackets. */
  function MarginalBrackets(s: FilingStatus): Brackets
  {
    match s
    case Single | Mfs | Unrecognized => Brackets(11925.0, 48475.0)
    case Married | Qss => Brackets(23850.0, 96950.0)
    case Hoh => Brackets(17000.0, 64850.0)
  }

  /** Marginal accumulation at 10%, 12% and 22%, before rounding. */
  function MarginalTax(x: real, b: Brackets): real
  {
    if x <= b.tenTop then x * 0.10
    else if x <= b.twelveTop then b.tenTop * 0.10 + (x - b.tenTop) * 0.12
    else b.tenTop * 0.10 + (b.twelveTop - b.tenTop) * 0.12 + (x - b.twelveTop) * 0.22
  }

  /** The first band containing x, as the `for…of` loop with its early return finds it. */
  function FirstBand(bands: seq<Band>, x: real): (r: Option<Band>)
    ensures r.Some? ==> r.value in bands && InBand(r.value, x)
    ensures r.None? <==> forall i :: 0 <= i < |bands| ==> !InBand(bands[i], x)
  {
    if bands == [] then None
    else if InBand(bands[0], x) then Some(bands[0])
    else FirstBand(bands[1..], x)
  }

  /** The value calculateFederalTax returns. */
  function FederalTax(x: real, s: FilingStatus): real
  {
    if x < WorksheetThreshold then
      Max0(Round(MarginalTax(x, MarginalBrackets(s))) as real)
    else
      match Worksheet(s)
      case None => 0.0
      case Some(bands) =>
        match FirstBand(bands, x)
        case None => 0.0
        case Some(b) => Max0(BandTax(b, x))
  }

  /** calculateFederalTax, with the worksheet search as the source's loop. */
  method CalculateFederalTax(taxableIncome: real, filingStatus: FilingStatus) returns (tax: real)
    ensures tax == FederalTax(taxableIncome, filingStatus)
    ensures tax >= 0.0
  {
    if taxableIncome < WorksheetThreshold {
      var bracketTax := MarginalTax(taxableIncome, MarginalBrackets(filingStatus));
      return Max0(Round(bracketTax) as real);
    }
    var worksheet := Worksheet(filingStatus);
    if worksheet.None? {
      return 0.0;
    }
    var bands := worksheet.value;
    var i := 0;
    while i < |bands|
      invariant 0 <= i <= |bands|
      invariant FirstBand(bands[i..], taxableIncome) == FirstBand(bands, taxableIncome)
    {
      var band := bands[i];
      if InBand(band, taxableIncome) {
        return Max0(BandTax(band, taxableIncome));
      }
      assert bands[i..][1..] == bands[i + 1..];
      i := i + 1;
    }
    return 0.0;
  }

  // ----- properties of the worksheet -----

  /** Bands that start at the threshold, each ending where the next begins,
      the last one unbounded. */
  predicate Contiguous(bands: seq<Band>)
  {
    && |bands| > 0
    && bands[0].minIncome == WorksheetThreshold
    && bands[|bands| - 1].maxIncome.Unbounded?
    && forall i :: 0 <= i < |bands| - 1 ==>
         bands[i].maxIncome == Below(bands[i + 1].minIncome) && bands[i].minIncome < bands[i + 1].minIncome
  }

  /** In contiguous bands every income from `from` up lies in exactly one band. */
  lemma {:induction false} ExactlyOneBand(bands: seq<Band>, x: real)
    requires |bands| > 0 && bands[|bands| - 1].maxIncome.Unbounded?
    requires forall i :: 0 <= i < |bands| - 1 ==>
      bands[i].maxIncome == Below(bands[i + 1].minIncome) && bands[i].minIncome < bands[i + 1].minIncome
    requires bands[0].minIncome <= x
    ensures exists i :: 0 <= i < |bands| && InBand(bands[i], x)
    ensures forall i, j :: 0 <= i < |bands| && 0 <= j < |bands| && InBand(bands[i], x) && InBand(bands[j], x) ==> i == j
  {
    if |bands| == 1 {
      assert InBand(bands[0], x);
    } else if InBand(bands[0], x) {
      NoBandAfter(bands, x, 0);
    } else {
      var tail := bands[1..];
      ExactlyOneBand(tail, x);
      var k :| 0 <= k < |tail| && InBand(tail[k], x);
      assert InBand(bands[k + 1], x);
      forall i, j | 0 <= i < |bands| && 0 <= j < |bands| && InBand(bands[i], x) && InBand(bands[j], x)
        ensures i == j
      {
        assert i > 0 && j > 0;
        assert InBand(tail[i - 1], x) && InBand(tail[j - 1], x);
      }
    }
  }

  /** Once x lies in band k, it lies in no later band. */
  lemma NoBandAfter(bands: seq<Band>, x: real, k: nat)
    requires k < |bands| && InBand(bands[k], x)
    requires forall i :: 0 <= i < |bands| - 1 ==>
      bands[i].maxIncome == Below(bands[i + 1].minIncome) && bands[i].minIncome < bands[i + 1].minIncome
    ensures forall j :: k < j < |bands| ==> !InBand(bands[j], x)
  {
    forall j | k < j < |bands|
      ensures !InBand(bands[j], x)
    {
      BandStartsGrow(bands, k + 1, j);
    }
  }

  lemma {:induction false} BandStartsGrow(bands: seq<Band>, i: nat, j: nat)
    requires 0 < i <= j < |bands|
    requires forall m :: 0 <= m < |bands| - 1 ==>
      bands[m].maxIncome == Below(bands[m + 1].minIncome) && bands[m].minIncome < bands[m + 1].minIncome
    ensures bands[i].minIncome <= bands[j].minIncome
  {
    if i < j {
      BandStartsGrow(bands, i, j - 1);
    }
  }

  /** Every status with a worksheet entry has contiguous bands from $100,000 up. */
  lemma WorksheetsContiguous(s: FilingStatus)
    requires s != Unrecognized
    ensures Worksheet(s).Some? && Contiguous(Worksheet(s).value)
  {
  }

  /** At or above the threshold a recognized status finds exactly one band,
      so the "could not find bracket" fallback is never reached, and the tax
      is that band's formula, unrounded and floored at zero. */
  lemma WorksheetRegime(x: real, s: FilingStatus)
    requires x >= WorksheetThreshold && s != Unrecognized
    ensures var bands := Worksheet(s).value;
      && FirstBand(bands, x).Some?
      && (forall i :: 0 <= i < |bands| && InBand(bands[i], x) ==> bands[i] == FirstBand(bands, x).value)
      && FederalTax(x, s) == Max0(BandTax(FirstBand(bands, x).value, x))
  {
    WorksheetsContiguous(s);
    hide Worksheet, MarginalTax, MarginalBrackets, Contiguous;
    ContiguousRegime(Worksheet(s).value, x);
  }

  /** In contiguous bands starting at the threshold, an income at or above it
      has a first band, and no other band holds it. */
  lemma ContiguousRegime(bands: seq<Band>, x: real)
    requires Contiguous(bands) && x >= WorksheetThreshold
    ensures FirstBand(bands, x).Some?
    ensures forall i :: 0 <= i < |bands| && InBand(bands[i], x) ==> bands[i] == FirstBand(bands, x).value
  {
    ExactlyOneBand(bands, x);
    var b := FirstBand(bands, x).value;
    var k :| 0 <= k < |bands| && bands[k] == b;
    forall i | 0 <= i < |bands| && InBand(bands[i], x)
      ensures bands[i] == b
    {
    }
  }

  /** Adjacent worksheet rows give the same tax at the income where they meet. */
  lemma AdjacentBandsAgree(s: FilingStatus, i: nat)
    requires s != Unrecognized && i + 1 < |Worksheet(s).value|
    ensures var bands := Worksheet(s).value;
      BandTax(bands[i], bands[i + 1].minIncome) == BandTax(bands[i + 1], bands[i + 1].minIncome)
  {
  }

  /** The top bracket's running formula is the first worksheet row's formula:
      the two regimes describe the same tax line on either side of $100,000. */
  lemma RegimesShareSeamFormula(s: FilingStatus, x: real)
    requires s != Unrecognized && x > MarginalBrackets(s).twelveTop
    ensures MarginalTax(x, MarginalBrackets(s)) == BandTax(Worksheet(s).value[0], x)
  {
  }

  lemma SingleBracketExample()
    ensures FederalTax(48475.0, Single) == 5579.0
  {
    assert MarginalTax(48475.0, MarginalBrackets(Single)) == 5578.5;
  }

  lemma SingleWorksheetExample()
    ensures FederalTax(150000.0, Single) == 28847.0
  {
    assert FirstBand(SingleBands, 150000.0) == Some(SingleBands[1]);
  }

  /** No taxable income, no tax, whatever the status. */
  lemma NoIncomeNoTax(s: FilingStatus)
    ensures FederalTax(0.0, s) == 0.0
  {
  }

  /** An unrecognized status is taxed as single below the threshold and not at all from it. */
  lemma UnrecognizedStatus(x: real)
    ensures x < WorksheetThreshold ==> FederalTax(x, Unrecognized) == FederalTax(x, Single)
    ensures x >= WorksheetThreshold ==> FederalTax(x, Unrecognized) == 0.0
  {
  }

  // ----- more income never lowers the tax -----

  lemma MarginalMonotone(x: real, y: real, s: FilingStatus)
    requires x <= y
    ensures MarginalTax(x, MarginalBrackets(s)) <= MarginalTax(y, MarginalBrackets(s))
  {
  }

  /** Within the worksheet, the row that applies gives the largest of all
      rows' formulas, as the rates only grow and the rows meet at their edges. */
  lemma WorksheetRowIsLargest(s: FilingStatus, x: real, i: nat)
    requires s != Unrecognized && x >= WorksheetThreshold
    requires i < |Worksheet(s).value|
    ensures FirstBand(Worksheet(s).value, x).Some?
    ensures BandTax(Worksheet(s).value[i], x) <= BandTax(FirstBand(Worksheet(s).value, x).value, x)
  {
    WorksheetRegime(x, s);
    WorksheetRowsMeet(s);
    var bands := Worksheet(s).value;
    hide Worksheet, FirstBand, MarginalTax, MarginalBrackets;
    var k :| 0 <= k < |bands| && bands[k] == FirstBand(bands, x).value;
    RowBelowHolder(bands, x, i, k);
  }

  /** Each worksheet row has a rate no lower than the row before it, and the
      two rows' formulas give the same tax where they meet. */
  predicate RowsMeet(bands: seq<Band>)
  {
    forall i :: 0 <= i < |bands| - 1 ==>
      && bands[i].rate <= bands[i + 1].rate
      && BandTax(bands[i], bands[i + 1].minIncome) == BandTax(bands[i + 1], bands[i + 1].minIncome)
  }

  lemma WorksheetRowsMeet(s: FilingStatus)
    requires s != Unrecognized
    ensures Worksheet(s).Some? && Contiguous(Worksheet(s).value) && RowsMeet(Worksheet(s).value)
  {
    WorksheetsContiguous(s);
    match s
    case Single => SingleRowsMeet();
    case Married => MarriedRowsMeet();
    case Qss => QssRowsMeet();
    case Hoh => HohRowsMeet();
    case Mfs => MfsRowsMeet();
  }

  lemma SingleRowsMeet() ensures RowsMeet(SingleBands) {}
  lemma MarriedRowsMeet() ensures RowsMeet(MarriedBands) {}
  lemma QssRowsMeet() ensures RowsMeet(QssBands) {}
  lemma HohRowsMeet() ensures RowsMeet(HohBands) {}
  lemma MfsRowsMeet() ensures RowsMeet(MfsBands) {}

  lemma ProductSign(p: real, q: real)
    requires p >= 0.0 && q <= 0.0
    ensures p * q <= 0.0
  {
  }

  /** Two formulas that agree at m differ at x by (x - m) times the difference of their rates. */
  lemma FormulasMeetAt(a: Band, b: Band, m: real, x: real)
    requires BandTax(a, m) == BandTax(b, m)
    ensures BandTax(a, x) - BandTax(b, x) == (x - m) * (a.rate - b.rate)
  {
  }

  /** In contiguous rows that meet, the row holding x gives the largest tax at x. */
  lemma {:induction false} RowBelowHolder(bands: seq<Band>, x: real, i: nat, k: nat)
    requires Contiguous(bands) && RowsMeet(bands)
    requires i < |bands| && k < |bands| && InBand(bands[k], x)
    ensures BandTax(bands[i], x) <= BandTax(bands[k], x)
    decreases if i < k then k - i else i - k
  {
    if i < k {
      if i + 1 < k {
        BandStartsGrow(bands, i + 1, k);
      }
      RowRisesTo(bands, i, x);
      RowBelowHolder(bands, x, i + 1, k);
    } else if i > k {
      if k + 1 < i {
        BandStartsGrow(bands, k + 1, i);
      }
      RowFallsFrom(bands, i, x);
      RowBelowHolder(bands, x, i - 1, k);
    }
  }

  /** From where row i + 1 starts, its formula is at least row i's. */
  lemma RowRisesTo(bands: seq<Band>, i: nat, x: real)
    requires RowsMeet(bands) && i + 1 < |bands| && x >= bands[i + 1].minIncome
    ensures BandTax(bands[i], x) <= BandTax(bands[i + 1], x)
  {
    var m := bands[i + 1].minIncome;
    FormulasMeetAt(bands[i], bands[i + 1], m, x);
    ProductSign(x - m, bands[i].rate - bands[i + 1].rate);
  }

  /** Below where row i starts, its formula is at most row i - 1's. */
  lemma RowFallsFrom(bands: seq<Band>, i: nat, x: real)
    requires RowsMeet(bands) && 0 < i < |bands| && x < bands[i].minIncome
    ensures BandTax(bands[i], x) <= BandTax(bands[i - 1], x)
  {
    var m := bands[i].minIncome;
    FormulasMeetAt(bands[i - 1], bands[i], m, x);
    ProductSign(m - x, bands[i - 1].rate - bands[i].rate);
  }

  lemma WorksheetMonotone(x: real, y: real, s: FilingStatus)
    requires s != Unrecognized && WorksheetThreshold <= x <= y
    ensures FederalTax(x, s) <= FederalTax(y, s)
  {
    hide Worksheet, FederalTax, MarginalTax, MarginalBrackets, FirstBand, InBand, BandTax;
    WorksheetsContiguous(s);
    var bands := Worksheet(s).value;
    WorksheetRegime(x, s);
    WorksheetRegime(y, s);
    WorksheetRatesPositive(s);
    var b := FirstBand(bands, x).value;
    var i :| 0 <= i < |bands| && bands[i] == b;
    WorksheetRowIsLargest(s, y, i);
    BandTaxRises(b, x, y);
  }

  /** A row's formula never falls as income rises. */
  lemma BandTaxRises(b: Band, x: real, y: real)
    requires b.rate > 0.0 && x <= y
    ensures BandTax(b, x) <= BandTax(b, y)
  {
    ProductSign(y - x, -b.rate);
  }

  /** Every worksheet row taxes at a positive rate. */
  lemma WorksheetRatesPositive(s: FilingStatus)
    requires s != Unrecognized
    ensures forall i :: 0 <= i < |Worksheet(s).value| ==> Worksheet(s).value[i].rate > 0.0
  {
  }

  /** For every recognized status, more taxable income never means less tax,
      across the switch from brackets to worksheet as well. */
  lemma FederalTaxMonotone(x: real, y: real, s: FilingStatus)
    requires s != Unrecognized && x <= y
    ensures FederalTax(x, s) <= FederalTax(y, s)
  {
    var b := MarginalBrackets(s);
    if y < WorksheetThreshold {
      MarginalMonotone(x, y, s);
      RoundMonotone(MarginalTax(x, b), MarginalTax(y, b));
    } else if x < WorksheetThreshold {
      AcrossSeamMonotone(x, y, s);
    } else {
      WorksheetMonotone(x, y, s);
    }
  }

  /** Below the threshold the tax is at most the tax at the threshold, which
      no higher worksheet income undercuts. */
  lemma AcrossSeamMonotone(x: real, y: real, s: FilingStatus)
    requires s != Unrecognized && x < WorksheetThreshold <= y
    ensures FederalTax(x, s) <= FederalTax(y, s)
  {
    var b := MarginalBrackets(s);
    var seam := MarginalTax(WorksheetThreshold, b);
    SeamTax(s);
    WorksheetMonotone(WorksheetThreshold, y, s);
    hide Worksheet, FirstBand, BandTax, MarginalTax;
    MarginalMonotone(x, WorksheetThreshold, s);
    RoundMonotone(MarginalTax(x, b), seam);
  }

  /** At the threshold the running bracket formula gives a whole-dollar
      amount, and the worksheet's tax there is exactly that amount. */
  lemma SeamTax(s: FilingStatus)
    requires s != Unrecognized
    ensures var seam := MarginalTax(WorksheetThreshold, MarginalBrackets(s));
      Round(seam) as real == seam && FederalTax(WorksheetThreshold, s) == seam
  {
    var seam := MarginalTax(WorksheetThreshold, MarginalBrackets(s));
    assert seam == seam.Floor as real;
    RoundOfInteger(seam.Floor);
    WorksheetRegime(WorksheetThreshold, s);
  }

  /** Without a worksheet entry the tax falls to zero at the threshold: for
      single-bracket income just below it the tax is positive, at it zero. */
  lemma UnrecognizedStatusNotMonotone()
    ensures FederalTax(99999.0, Unrecognized) > FederalTax(WorksheetThreshold, Unrecognized)
  {
  }
}
