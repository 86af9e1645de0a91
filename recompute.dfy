/**
 * The fixed update sequences of the form and what holds of the page after them:
 * updateAllTaxAndCredits, updateAllPayments, updateAllIndianaCalculations and
 * the AGI update that, in combined mode, carries federal AGI into Indiana.
 */
module Recompute {
  import opened Decimal
  import opened FormGraph
  import FederalTax
  import IndianaTax

  /** The order updateAllTaxAndCredits runs its lines in. */
  const TaxAndCreditsOrder: seq<FieldId> :=
    [Federal(11, B), Federal(12, E), Federal(14, Whole), Federal(15, Whole), Federal(16, Whole),
     Federal(18, Whole), Federal(21, Whole), Federal(22, Whole), Federal(24, Whole)]

  /** updateAllPayments: lines 25d, 32 and 33, then updateRefundOrOwed's lines
      34, 35a and 37. Those three read only lines 24 and 33, so the order in
      which each branch writes them does not matter. */
  const PaymentsOrder: seq<FieldId> :=
    [Federal(25, D), Federal(32, Whole), Federal(33, Whole), Federal(34, Whole), Federal(35, A), Federal(37, Whole)]

  /** The order updateAllIndianaCalculations runs its lines in. */
  const IndianaOrder: seq<FieldId> :=
    [Indiana(1), Indiana(3), Indiana(5), Indiana(7), Indiana(8), Indiana(9), Indiana(11),
     Indiana(14), Indiana(15), Indiana(16), Indiana(18), Indiana(21), Indiana(23), Indiana(26)]

  /** The income lines the income handlers and updateTotalIncome run before AGI. */
  const IncomeOrder: seq<FieldId> := [Federal(1, Z), Federal(9, Whole)]

  /** Each of the source's sequences calls its lines top to bottom, so in
      dependency order. */
  lemma TaxAndCreditsOrdered()
    ensures RankRising(TaxAndCreditsOrder) && WellOrdered(TaxAndCreditsOrder)
  {
    RankRisingIsWellOrdered(TaxAndCreditsOrder);
  }

  lemma PaymentsOrdered()
    ensures RankRising(PaymentsOrder) && WellOrdered(PaymentsOrder)
  {
    RankRisingIsWellOrdered(PaymentsOrder);
  }

  lemma IndianaOrdered()
    ensures RankRising(IndianaOrder) && WellOrdered(IndianaOrder)
  {
    RankRisingIsWellOrdered(IndianaOrder);
  }

  lemma IncomeOrdered()
    ensures RankRising(IncomeOrder + [Federal(11, A)]) && WellOrdered(IncomeOrder + [Federal(11, A)])
  {
    RankRisingIsWellOrdered(IncomeOrder + [Federal(11, A)]);
  }

  /** The source's orders as rank facts only, for use where the pairwise
      form would cost the solver more than it needs. */
  lemma TaxAndCreditsRising()
    ensures RankRising(TaxAndCreditsOrder)
  {
  }

  lemma PaymentsRising()
    ensures RankRising(PaymentsOrder)
  {
  }

  lemma IndianaRising()
    ensures RankRising(IndianaOrder)
  {
  }

  /** After a pass over order, page r shows every writable line of the order
      at its rule's value over r, and running the pass again changes nothing. */
  predicate PassStable(ctx: Context, r: Fields, order: seq<FieldId>)
  {
    && AllDerived(order)
    && (forall f :: f in order && Writable(r, f) ==> FieldValue(r, f) == Cents(Rule(ctx, f, r)))
    && RunPass(ctx, r, order) == r
  }

  /** updateAllTaxAndCredits leaves lines 11b to 24 consistent, and a second
      run of it changes nothing. */
  lemma TaxAndCreditsStable(ctx: Context, e: Fields)
    ensures PassStable(ctx, RunPass(ctx, e, TaxAndCreditsOrder), TaxAndCreditsOrder)
  {
    hide RunPass, Rule, FieldValue, WellOrdered, RankRising, Writable, Cents;
    TaxAndCreditsOrdered();
    PassConsistent(ctx, e, TaxAndCreditsOrder);
    PassIdempotent(ctx, e, TaxAndCreditsOrder);
  }

  /** updateAllPayments leaves lines 25d to 37 consistent, and a second run
      of it changes nothing. */
  lemma PaymentsStable(ctx: Context, e: Fields)
    ensures PassStable(ctx, RunPass(ctx, e, PaymentsOrder), PaymentsOrder)
  {
    hide RunPass, Rule, FieldValue, WellOrdered, RankRising, Writable, Cents;
    PaymentsOrdered();
    PassConsistent(ctx, e, PaymentsOrder);
    PassIdempotent(ctx, e, PaymentsOrder);
  }

  /** updateAllIndianaCalculations leaves every IT-40 line it writes
      consistent, and a second run of it changes nothing. */
  lemma IndianaStable(ctx: Context, e: Fields)
    ensures PassStable(ctx, RunPass(ctx, e, IndianaOrder), IndianaOrder)
  {
    hide RunPass, Rule, FieldValue, WellOrdered, RankRising, Writable, Cents;
    IndianaOrdered();
    PassConsistent(ctx, e, IndianaOrder);
    PassIdempotent(ctx, e, IndianaOrder);
  }

  /** Which of a refund section and an owed section is shown. */
  datatype Balance = Surplus | Deficit | Exact

  function BalanceOf(difference: real): (b: Balance)
    ensures b == Surplus <==> difference > 0.0
    ensures b == Deficit <==> difference < 0.0
  {
    if difference > 0.0 then Surplus else if difference < 0.0 then Deficit else Exact
  }

  /** updateLine11aAGI: line 11a, and in combined mode Indiana line 1 followed
      by every Indiana line. */
  function AgiUpdate(ctx: Context, combined: bool, e: Fields): Fields
  {
    var s := Step(ctx, e, Federal(11, A));
    if combined then RunPass(ctx, Step(ctx, s, Indiana(1)), IndianaOrder) else s
  }

  /** Rounding payments minus tax, split into its positive and negative
      parts, to cents: the parts differ by the rounded difference and at most
      one is positive. */
  lemma CentsSplit(d: real)
    ensures Cents(Max0(d)) - Cents(Max0(-d)) == Cents(d)
    ensures !(Cents(Max0(d)) > 0.0 && Cents(Max0(-d)) > 0.0)
    ensures BalanceOf(d) == Surplus ==> Cents(Max0(d)) == Cents(d) && Cents(Max0(-d)) == 0.0
    ensures BalanceOf(d) == Deficit ==> Cents(Max0(-d)) == Cents(-d) && Cents(Max0(d)) == 0.0
    ensures BalanceOf(d) == Exact ==> Cents(Max0(d)) == 0.0 && Cents(Max0(-d)) == 0.0
  {
    CentsOdd(d);
  }

  /** Settled lines 34 and 37 hold the positive and the negative part of
      payments minus total tax. */
  lemma RefundOrOwedParts(ctx: Context, r: Fields)
    requires Settled(ctx, r, Federal(34, Whole)) && Settled(ctx, r, Federal(37, Whole))
    ensures Fed(r, 34, Whole) == Cents(Max0(Fed(r, 33, Whole) - Fed(r, 24, Whole)))
    ensures Fed(r, 37, Whole) == Cents(Max0(Fed(r, 24, Whole) - Fed(r, 33, Whole)))
  {
    RefundOrOwedRules(ctx, r);
  }

  /** An overpayment and an amount owed computed as the positive and the
      negative part of payments minus total tax split that difference: a
      surplus is all overpayment with nothing owed, a deficit all owed with
      no overpayment, an exact match leaves both at zero. */
  lemma RefundOrOwedSplit(over: real, owed: real, payments: real, tax: real)
    requires over == Cents(Max0(payments - tax)) && owed == Cents(Max0(tax - payments))
    ensures over - owed == Cents(payments - tax)
    ensures !(over > 0.0 && owed > 0.0)
    ensures BalanceOf(payments - tax) == Surplus ==> over == Cents(payments - tax) && owed == 0.0
    ensures BalanceOf(payments - tax) == Deficit ==> owed == Cents(tax - payments) && over == 0.0
    ensures BalanceOf(payments - tax) == Exact ==> over == 0.0 && owed == 0.0
  {
    assert tax - payments == -(payments - tax);
    CentsSplit(payments - tax);
  }

  /** Lines 34 and 37 of r show payments minus total tax split into an
      overpayment and an amount owed, never both. */
  predicate SplitShown(r: Fields)
  {
    && Fed(r, 34, Whole) - Fed(r, 37, Whole) == Cents(Fed(r, 33, Whole) - Fed(r, 24, Whole))
    && !(Fed(r, 34, Whole) > 0.0 && Fed(r, 37, Whole) > 0.0)
  }

  /** Any rising pass through lines 34 and 37 leaves them split as above. */
  lemma SplitWhenSettled(ctx: Context, r: Fields)
    requires Settled(ctx, r, Federal(34, Whole)) && Settled(ctx, r, Federal(37, Whole))
    ensures SplitShown(r)
  {
    RefundOrOwedParts(ctx, r);
    RefundOrOwedSplit(Fed(r, 34, Whole), Fed(r, 37, Whole), Fed(r, 33, Whole), Fed(r, 24, Whole));
  }

  lemma SplitAfterPass(ctx: Context, e: Fields, order: seq<FieldId>)
    requires RankRising(order) && Federal(34, Whole) in order && Federal(37, Whole) in order
    requires Writable(e, Federal(34, Whole)) && Writable(e, Federal(37, Whole))
    ensures SplitShown(RunPass(ctx, e, order))
  {
    PassSettles(ctx, e, order, Federal(34, Whole));
    PassSettles(ctx, e, order, Federal(37, Whole));
    SplitWhenSettled(ctx, RunPass(ctx, e, order));
  }

  /** updateAllPayments leaves lines 34 and 37 split as above. */
  lemma PaymentsSplitRefundOrOwed(ctx: Context, e: Fields)
    requires Writable(e, Federal(34, Whole)) && Writable(e, Federal(37, Whole))
    ensures SplitShown(RunPass(ctx, e, PaymentsOrder))
  {
    PaymentsRising();
    SplitAfterPass(ctx, e, PaymentsOrder);
  }

  /** Once IT-40 lines 16, 18, 21 and 23 are settled, the refund (line 21) and
      the amount owed (line 23) are never both positive, provided donations
      (line 17), the amount applied to next year (line 19) and the other refund
      deduction (line 20) are not negative. */
  lemma IndianaRefundOwedExclusive(ctx: Context, r: Fields)
    requires Settled(ctx, r, Indiana(16)) && Settled(ctx, r, Indiana(18))
    requires Settled(ctx, r, Indiana(21)) && Settled(ctx, r, Indiana(23))
    requires Ind(r, 17) >= 0.0 && Ind(r, 19) >= 0.0 && Ind(r, 20) >= 0.0
    ensures !(Ind(r, 21) > 0.0 && Ind(r, 23) > 0.0)
  {
    IndianaTaxRules(ctx, r);
    IndianaBalanceRules(ctx, r);
  }

  /** A read-only number input showing v as `toFixed(2)` text. */
  function ShownAs(v: real): Element
  {
    Element(ToFixed2(v), NumberInput, true, false)
  }

  /** A whole-dollar amount shown that way reads back unchanged. */
  lemma ShownReadsBack(n: int)
    ensures ParseFieldText(ShownAs(n as real).value) == n as real
    ensures Cents(n as real) == n as real
  {
    ToFixed2ReadsBack(n as real);
    var m := if n < 0 then -n else n;
    assert Abs(n as real) * 100.0 == (m * 100) as real;
    RoundOfInteger(m * 100);
  }

  /** Lines 17, 19 and 20 are inputs the form never clamps, and the exclusivity
      above needs them non-negative: with no credits (line 14 reads 0), a tax
      of 10 (line 15) and donations of -20 (line 17), the settled IT-40 lines
      show a refund of 10 and an amount owed of 10 at once. */
  lemma NegativeDonationShowsBoth(ctx: Context)
    ensures exists r ::
      && Settled(ctx, r, Indiana(16)) && Settled(ctx, r, Indiana(18))
      && Settled(ctx, r, Indiana(21)) && Settled(ctx, r, Indiana(23))
      && Ind(r, 17) < 0.0 && Ind(r, 19) == 0.0 && Ind(r, 20) == 0.0
      && Ind(r, 21) > 0.0 && Ind(r, 23) > 0.0
  {
    hide ParseFieldText, ToFixed2, Cents, IndianaRule, FederalRule;
    var r: Fields := map[
      Indiana(15) := ShownAs(10 as real), Indiana(16) := ShownAs(-10 as real),
      Indiana(17) := ShownAs(-20 as real), Indiana(18) := ShownAs(10 as real),
      Indiana(21) := ShownAs(10 as real), Indiana(23) := ShownAs(10 as real)];
    ShownReadsBack(10);
    ShownReadsBack(-10);
    ShownReadsBack(-20);
    ShownReadsBack(0);
    assert Ind(r, 14) == 0.0 && Ind(r, 19) == 0.0 && Ind(r, 20) == 0.0;
    assert Ind(r, 15) == 10.0 && Ind(r, 16) == -10.0 && Ind(r, 17) == -20.0;
    assert Ind(r, 18) == 10.0 && Ind(r, 21) == 10.0 && Ind(r, 23) == 10.0;
    IndianaTaxRules(ctx, r);
    IndianaBalanceRules(ctx, r);
    assert Settled(ctx, r, Indiana(16)) && Settled(ctx, r, Indiana(18));
    assert Settled(ctx, r, Indiana(21)) && Settled(ctx, r, Indiana(23));
  }

  /** The IT-40 page r does not show both a refund (line 21) and an amount
      owed (line 23). */
  predicate OneIndianaBalance(r: Fields)
  {
    !(Ind(r, 21) > 0.0 && Ind(r, 23) > 0.0)
  }

  /** Any rising pass through IT-40 lines 16, 18, 21 and 23 that leaves lines
      17, 19 and 20 alone keeps the refund and the amount owed exclusive. */
  lemma ExclusiveAfterPass(ctx: Context, e: Fields, order: seq<FieldId>)
    requires RankRising(order)
    requires Indiana(16) in order && Indiana(18) in order && Indiana(21) in order && Indiana(23) in order
    requires Indiana(17) !in order && Indiana(19) !in order && Indiana(20) !in order
    requires Writable(e, Indiana(16)) && Writable(e, Indiana(18))
    requires Writable(e, Indiana(21)) && Writable(e, Indiana(23))
    requires Ind(e, 17) >= 0.0 && Ind(e, 19) >= 0.0 && Ind(e, 20) >= 0.0
    ensures OneIndianaBalance(RunPass(ctx, e, order))
  {
    PassSettles(ctx, e, order, Indiana(16));
    PassSettles(ctx, e, order, Indiana(18));
    PassSettles(ctx, e, order, Indiana(21));
    PassSettles(ctx, e, order, Indiana(23));
    PassUntouched(ctx, e, order, Indiana(17));
    PassUntouched(ctx, e, order, Indiana(19));
    PassUntouched(ctx, e, order, Indiana(20));
    IndianaRefundOwedExclusive(ctx, RunPass(ctx, e, order));
  }

  /** updateAllIndianaCalculations never shows both an Indiana refund and an
      Indiana amount owed. */
  lemma IndianaPassExclusive(ctx: Context, e: Fields)
    requires Writable(e, Indiana(16)) && Writable(e, Indiana(18))
    requires Writable(e, Indiana(21)) && Writable(e, Indiana(23))
    requires Ind(e, 17) >= 0.0 && Ind(e, 19) >= 0.0 && Ind(e, 20) >= 0.0
    ensures OneIndianaBalance(RunPass(ctx, e, IndianaOrder))
  {
    IndianaRising();
    ExclusiveAfterPass(ctx, e, IndianaOrder);
  }

  /** Once IT-40 lines 8, 9 and 16 are settled, the state and county lines
      are the flat 3% and the county percentage of Indiana AGI (line 7), and
      line 16, the one difference the form leaves unclamped, is credits minus
      tax. */
  lemma IndianaTaxLines(ctx: Context, r: Fields)
    requires Settled(ctx, r, Indiana(8)) && Settled(ctx, r, Indiana(9)) && Settled(ctx, r, Indiana(16))
    ensures Ind(r, 8) == Cents(IndianaTax.StateTax(Ind(r, 7)))
    ensures Ind(r, 9) == Cents(IndianaTax.CountyTax(Ind(r, 7), ctx.countyRate))
    ensures Ind(r, 16) == Cents(Ind(r, 14) - Ind(r, 15))
  {
    IndianaTaxRules(ctx, r);
  }

  /** IT-40 lines 8, 9 and 16 of r show the state tax and the county tax on
      line 7 and the balance of line 14 against line 15, each in whole cents. */
  predicate TaxLinesShown(ctx: Context, r: Fields)
  {
    && Ind(r, 8) == Cents(IndianaTax.StateTax(Ind(r, 7)))
    && Ind(r, 9) == Cents(IndianaTax.CountyTax(Ind(r, 7), ctx.countyRate))
    && Ind(r, 16) == Cents(Ind(r, 14) - Ind(r, 15))
  }

  /** Any rising pass through IT-40 lines 8, 9 and 16 sets them as above. */
  lemma TaxLinesAfterPass(ctx: Context, e: Fields, order: seq<FieldId>)
    requires RankRising(order) && Indiana(8) in order && Indiana(9) in order && Indiana(16) in order
    requires Writable(e, Indiana(8)) && Writable(e, Indiana(9)) && Writable(e, Indiana(16))
    ensures TaxLinesShown(ctx, RunPass(ctx, e, order))
  {
    var r := RunPass(ctx, e, order);
    PassSettles(ctx, e, order, Indiana(8));
    PassSettles(ctx, e, order, Indiana(9));
    PassSettles(ctx, e, order, Indiana(16));
    IndianaTaxLines(ctx, r);
  }

  /** updateAllIndianaCalculations sets the state, county and balance lines as above. */
  lemma IndianaPassTaxLines(ctx: Context, e: Fields)
    requires Writable(e, Indiana(8)) && Writable(e, Indiana(9)) && Writable(e, Indiana(16))
    ensures TaxLinesShown(ctx, RunPass(ctx, e, IndianaOrder))
  {
    IndianaRising();
    TaxLinesAfterPass(ctx, e, IndianaOrder);
  }

  /** A settled IT-40 line 1 reads what line 11a reads, once 11a holds whole cents. */
  lemma CarriesAgi(ctx: Context, r: Fields)
    requires Settled(ctx, r, Indiana(1)) && Fed(r, 11, A) == Cents(Fed(r, 11, A))
    ensures Ind(r, 1) == Fed(r, 11, A)
  {
    IndianaTaxRules(ctx, r);
  }

  /** IT-40 line 1 of r reads what federal line 11a reads. */
  predicate AgiCarried(r: Fields)
  {
    Ind(r, 1) == Fed(r, 11, A)
  }

  /** Any rising pass through IT-40 line 1 that leaves line 11a alone ends
      with line 1 reading what 11a reads, when 11a already holds whole cents. */
  lemma CarriesAgiAfterPass(ctx: Context, e: Fields, order: seq<FieldId>)
    requires RankRising(order) && Indiana(1) in order && Federal(11, A) !in order
    requires Writable(e, Indiana(1)) && Fed(e, 11, A) == Cents(Fed(e, 11, A))
    ensures AgiCarried(RunPass(ctx, e, order))
  {
    PassSettles(ctx, e, order, Indiana(1));
    PassUntouched(ctx, e, order, Federal(11, A));
    CarriesAgi(ctx, RunPass(ctx, e, order));
  }

  /** In combined mode, updating AGI leaves Indiana line 1 reading exactly what
      line 11a reads. */
  lemma CombinedModeCarriesAgi(ctx: Context, e: Fields)
    requires Writable(e, Federal(11, A)) && Writable(e, Indiana(1))
    ensures AgiCarried(AgiUpdate(ctx, true, e))
  {
    IndianaRising();
    hide Rule, ParseFieldText, Render, RankRising;
    var v := Rule(ctx, Federal(11, A), e);
    var s := Step(ctx, e, Federal(11, A));
    var s2 := Step(ctx, s, Indiana(1));
    CentsIdempotent(v);
    WrittenReadsBack(e, Federal(11, A), v);
    assert s2[Federal(11, A)] == s[Federal(11, A)];
    assert Fed(s2, 11, A) == Cents(Fed(s2, 11, A));
    CarriesAgiAfterPass(ctx, s2, IndianaOrder);
  }

  /** Outside combined mode, updating AGI changes line 11a and nothing else. */
  lemma SeparateModeKeepsIndiana(ctx: Context, e: Fields)
    ensures AgiUpdate(ctx, false, e).Keys == e.Keys
    ensures forall k :: k in e && k != Federal(11, A) ==> AgiUpdate(ctx, false, e)[k] == e[k]
  {
  }

  /** A settled line 16 reads zero when no filing status is selected, and the
      federal tax on line 15 otherwise. */
  lemma TaxLineFollowsStatus(ctx: Context, r: Fields)
    requires Settled(ctx, r, Federal(16, Whole))
    ensures ctx.filingStatus.None? ==> Fed(r, 16, Whole) == 0.0
    ensures ctx.filingStatus.Some? ==>
      Fed(r, 16, Whole) == Cents(FederalTax.FederalTax(Fed(r, 15, Whole), ctx.filingStatus.value))
  {
    TaxRule(ctx, r);
  }

  /** Line 16 of r reads zero when no filing status is selected, and the
      federal tax on line 15 in whole cents otherwise. */
  predicate TaxLineShown(ctx: Context, r: Fields)
  {
    && (ctx.filingStatus.None? ==> Fed(r, 16, Whole) == 0.0)
    && (ctx.filingStatus.Some? ==>
          Fed(r, 16, Whole) == Cents(FederalTax.FederalTax(Fed(r, 15, Whole), ctx.filingStatus.value)))
  }

  /** Any rising pass through line 16 sets it as above. */
  lemma TaxLineAfterPass(ctx: Context, e: Fields, order: seq<FieldId>)
    requires RankRising(order) && Federal(16, Whole) in order && Writable(e, Federal(16, Whole))
    ensures TaxLineShown(ctx, RunPass(ctx, e, order))
  {
    PassSettles(ctx, e, order, Federal(16, Whole));
    TaxLineFollowsStatus(ctx, RunPass(ctx, e, order));
  }

  /** updateAllTaxAndCredits sets line 16 as above. */
  lemma TaxAndCreditsSetsTaxLine(ctx: Context, e: Fields)
    requires Writable(e, Federal(16, Whole))
    ensures TaxLineShown(ctx, RunPass(ctx, e, TaxAndCreditsOrder))
  {
    TaxAndCreditsRising();
    TaxLineAfterPass(ctx, e, TaxAndCreditsOrder);
  }
}
