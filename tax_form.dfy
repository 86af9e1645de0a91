/**
 * The form page and the session state as the browser holds them: the input
 * elements, the line 12d checkboxes, the filing status, tax type, saved
 * standard amount and county rate, and which refund/owed sections show. Each
 * update function reads lines with getFieldValue and writes its own line with
 * setFieldValue, in place; each is proved to do what its line's rule says.
 */
module TaxForm {
  import opened Wrappers
  import opened Filing
  import opened StandardDeduction
  import opened FederalTax
  import opened IndianaTax
  import opened Decimal
  import opened FormGraph
  import opened Recompute

  /** Lines 34, 35a and 37 in the order a pass writes them. */
  const RefundOrOwedOrder: seq<FieldId> := [Federal(34, Whole), Federal(35, A), Federal(37, Whole)]

  class Form {
    /** The input elements on the page. */
    var elements: Fields
    /** The four line 12d checkboxes. */
    var boxes: Boxes
    /** `state.filingStatus`; None while it is not chosen. */
    var filingStatus: Option<FilingStatus>
    /** `state.taxType`. */
    var taxType: TaxType
    /** `state.data.deductions.standardAmount`, which starts at 15,750. */
    var standardAmount: real
    /** `state.indiana.countyRate`, in percent (0 while unset). */
    var countyRate: real
    /** Which of refundSection and owedSection is active. */
    var federalBalance: Balance
    /** Which of indianaRefundSection and indianaOwedSection is displayed. */
    var indianaBalance: Balance

    /** What the line rules read besides the page. */
    function Ctx(): Context
      reads this`filingStatus, this`standardAmount, this`countyRate
    {
      Context(filingStatus, standardAmount, countyRate)
    }

    constructor (page: Fields, checked: Boxes, status: Option<FilingStatus>, kind: TaxType, county: real)
      ensures elements == page && boxes == checked && filingStatus == status && taxType == kind
      ensures standardAmount == 15750.0 && countyRate == county
      ensures federalBalance == Exact && indianaBalance == Exact
    {
      elements := page;
      boxes := checked;
      filingStatus := status;
      taxType := kind;
      standardAmount := 15750.0;
      countyRate := county;
      federalBalance := Exact;
      indianaBalance := Exact;
    }

    /** setFieldValue: only a read-only or calculated element takes the
        value, rendered for its input type; anything else stays as it was. */
    method SetFieldValue(f: FieldId, v: real)
      modifies this`elements
      ensures elements == Written(old(elements), f, v)
    {
      if f in elements {
        var el := elements[f];
        if el.readOnly || el.calculated {
          elements := elements[f := el.(value := Render(el.inputType, v))];
        }
      }
    }

    /** updateStandardDeduction: without a filing status it returns 0 and
        changes nothing; otherwise it counts the checked boxes, looks the
        amount up in the chart, writes it to line 12e and saves it in the
        session. A missing chart entry throws before anything is written. */
    method UpdateStandardDeduction() returns (outcome: DeductionLookup)
      modifies this`elements, this`standardAmount
      ensures outcome == LookupStandardDeduction(filingStatus, boxes)
      ensures outcome.Amount? ==> standardAmount == outcome.dollars as real
      ensures outcome.Amount? ==> elements == Written(old(elements), Federal(12, E), outcome.dollars as real)
      ensures !outcome.Amount? ==> elements == old(elements) && standardAmount == old(standardAmount)
      ensures outcome.Amount? ==> Step(Ctx(), elements, Federal(12, E)) == elements
    {
      hide Rule, Step, Written, FieldValue, ChartLookup, BoxCount;
      if filingStatus.None? {
        return NoFilingStatus;
      }
      var status := filingStatus.value;
      var count := BoxCount(status, boxes);
      var amount := ChartLookup(status, count);
      if amount.None? {
        return ChartMiss;
      }
      SetFieldValue(Federal(12, E), amount.value as real);
      standardAmount := amount.value as real;
      outcome := Amount(amount.value);
      DeductionLineSettled(Ctx(), old(elements), standardAmount);
    }

    /** updateLine1zTotal: line 1z is the sum of lines 1a to 1h. */
    method UpdateLine1zTotal() returns (total: real)
      modifies this`elements
      ensures total == Rule(Ctx(), Federal(1, Z), old(elements))
      ensures elements == Step(Ctx(), old(elements), Federal(1, Z))
    {
      hide Written, FieldValue;
      total := Fed(elements, 1, A) + Fed(elements, 1, B) + Fed(elements, 1, C) + Fed(elements, 1, D)
        + Fed(elements, 1, E) + Fed(elements, 1, F) + Fed(elements, 1, G) + Fed(elements, 1, H);
      SetFieldValue(Federal(1, Z), total);
    }

    /** updateLine9Total: total income. */
    method UpdateLine9Total() returns (total: real)
      modifies this`elements
      ensures total == Rule(Ctx(), Federal(9, Whole), old(elements))
      ensures elements == Step(Ctx(), old(elements), Federal(9, Whole))
    {
      hide Written, FieldValue;
      total := Fed(elements, 1, Z) + Fed(elements, 2, B) + Fed(elements, 3, B) + Fed(elements, 4, B)
        + Fed(elements, 5, B) + Fed(elements, 6, B) + Fed(elements, 7, Whole) + Fed(elements, 8, Whole);
      SetFieldValue(Federal(9, Whole), total);
    }

    /** updateLine11aAGI: AGI is line 9 less line 10, not below zero; in
        combined mode Indiana line 1 and then every Indiana line follow. */
    method UpdateLine11aAGI() returns (agi: real)
      modifies this`elements, this`indianaBalance
      ensures agi >= 0.0 && agi == Rule(Ctx(), Federal(11, A), old(elements))
      ensures elements == AgiUpdate(Ctx(), taxType == Combined, old(elements))
      ensures taxType == Combined ==> indianaBalance == BalanceOf(Ind(elements, 14) - Ind(elements, 15))
      ensures taxType != Combined ==> indianaBalance == old(indianaBalance)
    {
      hide Written, FieldValue;
      agi := Max0(Fed(elements, 9, Whole) - Fed(elements, 10, Whole));
      SetFieldValue(Federal(11, A), agi);
      if taxType == Combined {
        var _ := UpdateIndianaLine1();
        UpdateAllIndianaCalculations();
      }
    }

    /** updateTotalIncome: lines 1z and 9, then AGI. */
    method UpdateTotalIncome()
      modifies this`elements, this`indianaBalance
      ensures elements == AgiUpdate(Ctx(), taxType == Combined, RunPass(Ctx(), old(elements), IncomeOrder))
      ensures taxType == Combined ==> indianaBalance == BalanceOf(Ind(elements, 14) - Ind(elements, 15))
      ensures taxType != Combined ==> indianaBalance == old(indianaBalance)
    {
      ghost var ctx := Ctx();
      IncomeSteps(ctx, elements);
      hide *;
      label L1:
      var _ := UpdateLine1zTotal();
      assert Ctx() == old@L1(Ctx());
      label L2:
      var _ := UpdateLine9Total();
      assert Ctx() == old@L2(Ctx());
      var _ := UpdateLine11aAGI();
    }

    /** updateLine11b: line 11b copies AGI. */
    method UpdateLine11b() returns (agi: real)
      modifies this`elements
      ensures agi == Rule(Ctx(), Federal(11, B), old(elements))
      ensures elements == Step(Ctx(), old(elements), Federal(11, B))
    {
      hide Written, FieldValue;
      agi := Fed(elements, 11, A);
      SetFieldValue(Federal(11, B), agi);
    }

    /** updateLine12eStandardDeduction: line 12e shows the saved standard amount. */
    method UpdateLine12eStandardDeduction() returns (amount: real)
      modifies this`elements
      ensures amount == Rule(Ctx(), Federal(12, E), old(elements))
      ensures elements == Step(Ctx(), old(elements), Federal(12, E))
    {
      hide Written, FieldValue;
      amount := standardAmount;
      SetFieldValue(Federal(12, E), amount);
    }

    /** updateLine14TotalDeductions: line 12e plus lines 13a and 13b. */
    method UpdateLine14TotalDeductions() returns (total: real)
      modifies this`elements
      ensures total == Rule(Ctx(), Federal(14, Whole), old(elements))
      ensures elements == Step(Ctx(), old(elements), Federal(14, Whole))
    {
      hide Written, FieldValue;
      total := Fed(elements, 12, E) + Fed(elements, 13, A) + Fed(elements, 13, B);
      SetFieldValue(Federal(14, Whole), total);
    }

    /** updateLine15TaxableIncome: line 11b less line 14, not below zero. */
    method UpdateLine15TaxableIncome() returns (taxable: real)
      modifies this`elements
      ensures taxable >= 0.0 && taxable == Rule(Ctx(), Federal(15, Whole), old(elements))
      ensures elements == Step(Ctx(), old(elements), Federal(15, Whole))
    {
      hide Written, FieldValue;
      taxable := Max0(Fed(elements, 11, B) - Fed(elements, 14, Whole));
      SetFieldValue(Federal(15, Whole), taxable);
    }

    /** updateLine16Tax: zero without a filing status, the federal tax on
        line 15 otherwise. */
    method UpdateLine16Tax() returns (tax: real)
      modifies this`elements
      ensures filingStatus.None? ==> tax == 0.0
      ensures filingStatus.Some? ==> tax == FederalTax.FederalTax(Fed(old(elements), 15, Whole), filingStatus.value)
      ensures elements == Step(Ctx(), old(elements), Federal(16, Whole))
    {
      hide Written, FieldValue;
      var taxable := Fed(elements, 15, Whole);
      if filingStatus.None? {
        tax := 0.0;
      } else {
        tax := CalculateFederalTax(taxable, filingStatus.value);
      }
      SetFieldValue(Federal(16, Whole), tax);
    }

    /** updateLine18: lines 16 and 17. */
    method UpdateLine18() returns (total: real)
      modifies this`elements
      ensures total == Rule(Ctx(), Federal(18, Whole), old(elements))
      ensures elements == Step(Ctx(), old(elements), Federal(18, Whole))
    {
      hide Written, FieldValue;
      total := Fed(elements, 16, Whole) + Fed(elements, 17, Whole);
      SetFieldValue(Federal(18, Whole), total);
    }

    /** updateLine21: lines 19 and 20. */
    method UpdateLine21() returns (total: real)
      modifies this`elements
      ensures total == Rule(Ctx(), Federal(21, Whole), old(elements))
      ensures elements == Step(Ctx(), old(elements), Federal(21, Whole))
    {
      hide Written, FieldValue;
      total := Fed(elements, 19, Whole) + Fed(elements, 20, Whole);
      SetFieldValue(Federal(21, Whole), total);
    }

    /** updateLine22: line 18 less line 21, not below zero. */
    method UpdateLine22() returns (result: real)
      modifies this`elements
      ensures result >= 0.0 && result == Rule(Ctx(), Federal(22, Whole), old(elements))
      ensures elements == Step(Ctx(), old(elements), Federal(22, Whole))
    {
      hide Written, FieldValue;
      result := Max0(Fed(elements, 18, Whole) - Fed(elements, 21, Whole));
      SetFieldValue(Federal(22, Whole), result);
    }

    /** updateLine24TotalTax: lines 22 and 23. */
    method UpdateLine24TotalTax() returns (totalTax: real)
      modifies this`elements
      ensures totalTax == Rule(Ctx(), Federal(24, Whole), old(elements))
      ensures elements == Step(Ctx(), old(elements), Federal(24, Whole))
    {
      hide Written, FieldValue;
      totalTax := Fed(elements, 22, Whole) + Fed(elements, 23, Whole);
      SetFieldValue(Federal(24, Whole), totalTax);
    }

    /** updateAllTaxAndCredits: lines 11b to 24 in order. */
    method UpdateAllTaxAndCredits()
      modifies this`elements
      ensures elements == RunPass(Ctx(), old(elements), TaxAndCreditsOrder)
    {
      ghost var ctx := Ctx();
      ghost var e0 := elements;
      TaxAndCreditsFirstPart(ctx, e0);
      TaxAndCreditsOrderFacts();
      hide *;
      label L1:
      var _ := UpdateLine11b();
      assert Ctx() == old@L1(Ctx());
      label L2:
      var _ := UpdateLine12eStandardDeduction();
      assert Ctx() == old@L2(Ctx());
      label L3:
      var _ := UpdateLine14TotalDeductions();
      assert Ctx() == old@L3(Ctx());
      label L4:
      var _ := UpdateLine15TaxableIncome();
      assert Ctx() == old@L4(Ctx());
      label L5:
      var _ := UpdateLine16Tax();
      assert Ctx() == old@L5(Ctx());
      ghost var mid := elements;
      label L6:
      var _ := UpdateLine18();
      assert Ctx() == old@L6(Ctx());
      label L7:
      var _ := UpdateLine21();
      assert Ctx() == old@L7(Ctx());
      label L8:
      var _ := UpdateLine22();
      assert Ctx() == old@L8(Ctx());
      label L9:
      var _ := UpdateLine24TotalTax();
      assert Ctx() == old@L9(Ctx());
      TaxAndCreditsLastPart(ctx, mid);
    }

    /** updateIndianaLine1: line 1 carries federal AGI from line 11a. */
    method UpdateIndianaLine1() returns (federalAgi: real)
      modifies this`elements
      ensures federalAgi == Rule(Ctx(), Indiana(1), old(elements))
      ensures elements == Step(Ctx(), old(elements), Indiana(1))
    {
      hide Written, FieldValue;
      federalAgi := Fed(elements, 11, A);
      SetFieldValue(Indiana(1), federalAgi);
    }

    /** updateIndianaLine3: lines 1 and 2. */
    method UpdateIndianaLine3() returns (total: real)
      modifies this`elements
      ensures total == Rule(Ctx(), Indiana(3), old(elements))
      ensures elements == Step(Ctx(), old(elements), Indiana(3))
    {
      hide Written, FieldValue;
      total := Ind(elements, 1) + Ind(elements, 2);
      SetFieldValue(Indiana(3), total);
    }

    /** updateIndianaLine5: line 3 less line 4, not below zero. */
    method UpdateIndianaLine5() returns (result: real)
      modifies this`elements
      ensures result >= 0.0 && result == Rule(Ctx(), Indiana(5), old(elements))
      ensures elements == Step(Ctx(), old(elements), Indiana(5))
    {
      hide Written, FieldValue;
      result := Max0(Ind(elements, 3) - Ind(elements, 4));
      SetFieldValue(Indiana(5), result);
    }

    /** updateIndianaLine7: Indiana AGI, line 5 less line 6, not below zero. */
    method UpdateIndianaLine7() returns (indianaAgi: real)
      modifies this`elements
      ensures indianaAgi >= 0.0 && indianaAgi == Rule(Ctx(), Indiana(7), old(elements))
      ensures elements == Step(Ctx(), old(elements), Indiana(7))
    {
      hide Written, FieldValue;
      indianaAgi := Max0(Ind(elements, 5) - Ind(elements, 6));
      SetFieldValue(Indiana(7), indianaAgi);
    }

    /** updateIndianaLine8: the 3% state tax on line 7. */
    method UpdateIndianaLine8() returns (stateTax: real)
      modifies this`elements
      ensures stateTax == Rule(Ctx(), Indiana(8), old(elements))
      ensures elements == Step(Ctx(), old(elements), Indiana(8))
    {
      hide Written, FieldValue;
      stateTax := StateTax(Ind(elements, 7));
      SetFieldValue(Indiana(8), stateTax);
    }

    /** updateIndianaLine9: the county tax on line 7 at the county rate in percent. */
    method UpdateIndianaLine9() returns (countyTax: real)
      modifies this`elements
      ensures countyTax == Rule(Ctx(), Indiana(9), old(elements))
      ensures elements == Step(Ctx(), old(elements), Indiana(9))
    {
      hide Written, FieldValue;
      countyTax := CountyTax(Ind(elements, 7), countyRate);
      SetFieldValue(Indiana(9), countyTax);
    }

    /** updateIndianaLine11: lines 8, 9 and 10. */
    method UpdateIndianaLine11() returns (totalTax: real)
      modifies this`elements
      ensures totalTax == Rule(Ctx(), Indiana(11), old(elements))
      ensures elements == Step(Ctx(), old(elements), Indiana(11))
    {
      hide Written, FieldValue;
      totalTax := Ind(elements, 8) + Ind(elements, 9) + Ind(elements, 10);
      SetFieldValue(Indiana(11), totalTax);
    }

    /** updateIndianaLine14: total credits, lines 12 and 13. */
    method UpdateIndianaLine14() returns (totalCredits: real)
      modifies this`elements
      ensures totalCredits == Rule(Ctx(), Indiana(14), old(elements))
      ensures elements == Step(Ctx(), old(elements), Indiana(14))
    {
      hide Written, FieldValue;
      totalCredits := Ind(elements, 12) + Ind(elements, 13);
      SetFieldValue(Indiana(14), totalCredits);
    }

    /** updateIndianaLine15: copies line 11. */
    method UpdateIndianaLine15() returns (line11: real)
      modifies this`elements
      ensures line11 == Rule(Ctx(), Indiana(15), old(elements))
      ensures elements == Step(Ctx(), old(elements), Indiana(15))
    {
      hide Written, FieldValue;
      line11 := Ind(elements, 11);
      SetFieldValue(Indiana(15), line11);
    }

    /** updateIndianaLine16: credits less tax, left unclamped, and the refund
        or owed section shown by its sign (neither when it is zero). */
    method UpdateIndianaLine16() returns (difference: real)
      modifies this`elements, this`indianaBalance
      ensures difference == Ind(old(elements), 14) - Ind(old(elements), 15)
      ensures elements == Step(Ctx(), old(elements), Indiana(16))
      ensures indianaBalance == BalanceOf(difference)
    {
      hide Written, FieldValue;
      difference := Ind(elements, 14) - Ind(elements, 15);
      SetFieldValue(Indiana(16), difference);
      if difference > 0.0 {
        indianaBalance := Surplus;
      } else if difference < 0.0 {
        indianaBalance := Deficit;
      } else {
        indianaBalance := Exact;
      }
    }

    /** updateIndianaLine18: line 16 less donations (line 17), not below zero. */
    method UpdateIndianaLine18() returns (afterDonations: real)
      modifies this`elements
      ensures afterDonations >= 0.0 && afterDonations == Rule(Ctx(), Indiana(18), old(elements))
      ensures elements == Step(Ctx(), old(elements), Indiana(18))
    {
      hide Written, FieldValue;
      afterDonations := Max0(Ind(elements, 16) - Ind(elements, 17));
      SetFieldValue(Indiana(18), afterDonations);
    }

    /** updateIndianaLine21: the refund, line 18 less lines 19 and 20, not below zero. */
    method UpdateIndianaLine21() returns (refund: real)
      modifies this`elements
      ensures refund >= 0.0 && refund == Rule(Ctx(), Indiana(21), old(elements))
      ensures elements == Step(Ctx(), old(elements), Indiana(21))
    {
      hide Written, FieldValue;
      refund := Max0(Ind(elements, 18) - Ind(elements, 19) - Ind(elements, 20));
      SetFieldValue(Indiana(21), refund);
    }

    /** updateIndianaLine23: the amount owed, line 15 less line 14, not below zero. */
    method UpdateIndianaLine23() returns (owed: real)
      modifies this`elements
      ensures owed >= 0.0 && owed == Rule(Ctx(), Indiana(23), old(elements))
      ensures elements == Step(Ctx(), old(elements), Indiana(23))
    {
      hide Written, FieldValue;
      owed := Max0(Ind(elements, 15) - Ind(elements, 14));
      SetFieldValue(Indiana(23), owed);
    }

    /** updateIndianaLine26: lines 23, 24 and 25. */
    method UpdateIndianaLine26() returns (totalOwed: real)
      modifies this`elements
      ensures totalOwed == Rule(Ctx(), Indiana(26), old(elements))
      ensures elements == Step(Ctx(), old(elements), Indiana(26))
    {
      hide Written, FieldValue;
      totalOwed := Ind(elements, 23) + Ind(elements, 24) + Ind(elements, 25);
      SetFieldValue(Indiana(26), totalOwed);
    }

    /** updateAllIndianaCalculations: every IT-40 line in order. The section
        shown afterwards follows the sign of line 14 less line 15 as they
        finally read. */
    method UpdateAllIndianaCalculations()
      modifies this`elements, this`indianaBalance
      ensures elements == RunPass(Ctx(), old(elements), IndianaOrder)
      ensures indianaBalance == BalanceOf(Ind(elements, 14) - Ind(elements, 15))
    {
      ghost var ctx := Ctx();
      ghost var e0 := elements;
      IndianaFirstHalf(ctx, e0);
      IndianaOrderFacts();
      hide *;
      label L1:
      var _ := UpdateIndianaLine1();
      assert Ctx() == old@L1(Ctx());
      label L2:
      var _ := UpdateIndianaLine3();
      assert Ctx() == old@L2(Ctx());
      label L3:
      var _ := UpdateIndianaLine5();
      assert Ctx() == old@L3(Ctx());
      label L4:
      var _ := UpdateIndianaLine7();
      assert Ctx() == old@L4(Ctx());
      label L5:
      var _ := UpdateIndianaLine8();
      assert Ctx() == old@L5(Ctx());
      label L6:
      var _ := UpdateIndianaLine9();
      assert Ctx() == old@L6(Ctx());
      label L7:
      var _ := UpdateIndianaLine11();
      assert Ctx() == old@L7(Ctx());
      ghost var mid := elements;
      label L8:
      var _ := UpdateIndianaLine14();
      assert Ctx() == old@L8(Ctx());
      label L9:
      var _ := UpdateIndianaLine15();
      assert Ctx() == old@L9(Ctx());
      ghost var before16 := elements;
      label L10:
      var difference := UpdateIndianaLine16();
      assert Ctx() == old@L10(Ctx());
      StepKeepsIndiana(ctx, before16, Indiana(16), 14);
      StepKeepsIndiana(ctx, before16, Indiana(16), 15);
      IndianaTailKeepsBalance(ctx, elements);
      label L11:
      var _ := UpdateIndianaLine18();
      assert Ctx() == old@L11(Ctx());
      label L12:
      var _ := UpdateIndianaLine21();
      assert Ctx() == old@L12(Ctx());
      label L13:
      var _ := UpdateIndianaLine23();
      assert Ctx() == old@L13(Ctx());
      label L14:
      var _ := UpdateIndianaLine26();
      assert Ctx() == old@L14(Ctx());
      IndianaSecondHalf(ctx, mid);
    }

    /** updateLine25dWithholding: lines 25a, 25b and 25c. */
    method UpdateLine25dWithholding() returns (total: real)
      modifies this`elements
      ensures total == Rule(Ctx(), Federal(25, D), old(elements))
      ensures elements == Step(Ctx(), old(elements), Federal(25, D))
    {
      hide Written, FieldValue;
      total := Fed(elements, 25, A) + Fed(elements, 25, B) + Fed(elements, 25, C);
      SetFieldValue(Federal(25, D), total);
    }

    /** updateLine32OtherPayments: lines 26 to 31. */
    method UpdateLine32OtherPayments() returns (total: real)
      modifies this`elements
      ensures total == Rule(Ctx(), Federal(32, Whole), old(elements))
      ensures elements == Step(Ctx(), old(elements), Federal(32, Whole))
    {
      hide Written, FieldValue;
      total := Fed(elements, 26, Whole) + Fed(elements, 27, Whole) + Fed(elements, 28, Whole)
        + Fed(elements, 29, Whole) + Fed(elements, 30, Whole) + Fed(elements, 31, Whole);
      SetFieldValue(Federal(32, Whole), total);
    }

    /** updateLine33TotalPayments: lines 25d and 32. */
    method UpdateLine33TotalPayments() returns (total: real)
      modifies this`elements
      ensures total == Rule(Ctx(), Federal(33, Whole), old(elements))
      ensures elements == Step(Ctx(), old(elements), Federal(33, Whole))
    {
      hide Written, FieldValue;
      total := Fed(elements, 25, D) + Fed(elements, 32, Whole);
      SetFieldValue(Federal(33, Whole), total);
    }

    /** updateRefundOrOwed: with payments above total tax, lines 34 and 35a
        take the overpayment and line 37 zero; with tax above payments, line
        37 takes the amount owed and lines 34 and 35a zero; when they are
        equal all three read zero. The active section follows the same test.
        Each branch writes in its own order, which comes to the same page as
        writing lines 34, 35a and 37 by their rules. */
    method UpdateRefundOrOwed()
      modifies this`elements, this`federalBalance
      ensures elements == RunPass(Ctx(), old(elements), RefundOrOwedOrder)
      ensures federalBalance == BalanceOf(Fed(old(elements), 33, Whole) - Fed(old(elements), 24, Whole))
      ensures federalBalance == BalanceOf(Fed(elements, 33, Whole) - Fed(elements, 24, Whole))
    {
      ghost var e0 := elements;
      ghost var ctx := Ctx();
      RefundPassWrites(ctx, e0);
      RefundPassKeepsTotals(ctx, e0);
      hide *;
      var totalTax := Fed(elements, 24, Whole);
      var totalPayments := Fed(elements, 33, Whole);
      if totalPayments > totalTax {
        var refund := totalPayments - totalTax;
        SetFieldValue(Federal(34, Whole), refund);
        SetFieldValue(Federal(35, A), refund);
        federalBalance := Surplus;
        SetFieldValue(Federal(37, Whole), 0.0);
        SurplusBranchAgrees(e0, totalPayments, totalTax);
      } else if totalTax > totalPayments {
        var owed := totalTax - totalPayments;
        SetFieldValue(Federal(37, Whole), owed);
        federalBalance := Deficit;
        SetFieldValue(Federal(34, Whole), 0.0);
        SetFieldValue(Federal(35, A), 0.0);
        OwedBranchAgrees(e0, totalPayments, totalTax);
      } else {
        federalBalance := Exact;
        SetFieldValue(Federal(34, Whole), 0.0);
        SetFieldValue(Federal(37, Whole), 0.0);
        SetFieldValue(Federal(35, A), 0.0);
        EvenBranchAgrees(e0, totalPayments, totalTax);
      }
      assert Ctx() == ctx;
    }

    /** updateAllPayments: lines 25d, 32 and 33, then the refund or amount owed. */
    method UpdateAllPayments()
      modifies this`elements, this`federalBalance
      ensures elements == RunPass(Ctx(), old(elements), PaymentsOrder)
      ensures federalBalance == BalanceOf(Fed(elements, 33, Whole) - Fed(elements, 24, Whole))
    {
      ghost var ctx := Ctx();
      PaymentsSteps(ctx, elements);
      hide *;
      label L1:
      var _ := UpdateLine25dWithholding();
      assert Ctx() == old@L1(Ctx());
      label L2:
      var _ := UpdateLine32OtherPayments();
      assert Ctx() == old@L2(Ctx());
      label L3:
      var _ := UpdateLine33TotalPayments();
      assert Ctx() == old@L3(Ctx());
      UpdateRefundOrOwed();
    }
  }

  lemma TaxAndCreditsOrderFacts()
    ensures AllDerived(TaxAndCreditsOrder) && AllDerived(TaxAndCreditsOrder[5..])
    ensures TaxAndCreditsOrder ==
      [Federal(11, B), Federal(12, E), Federal(14, Whole), Federal(15, Whole), Federal(16, Whole),
       Federal(18, Whole), Federal(21, Whole), Federal(22, Whole), Federal(24, Whole)]
    ensures IsDerived(Federal(11, B)) && IsDerived(Federal(12, E)) && IsDerived(Federal(14, Whole))
    ensures IsDerived(Federal(15, Whole)) && IsDerived(Federal(16, Whole)) && IsDerived(Federal(18, Whole))
    ensures IsDerived(Federal(21, Whole)) && IsDerived(Federal(22, Whole)) && IsDerived(Federal(24, Whole))
  {
  }

  /** The first five update functions of the tax-and-credits pass. */
  lemma TaxAndCreditsFirstPart(ctx: Context, e: Fields)
    ensures AllDerived(TaxAndCreditsOrder)
    ensures RunPass(ctx, e, TaxAndCreditsOrder)
         == RunPass(ctx, Step(ctx, Step(ctx, Step(ctx, Step(ctx, Step(ctx, e, Federal(11, B)), Federal(12, E)), Federal(14, Whole)), Federal(15, Whole)), Federal(16, Whole)),
              TaxAndCreditsOrder[5..])
  {
    TaxAndCreditsOrderFacts();
    hide *;
    var goal := RunPass(ctx, e, TaxAndCreditsOrder);
    assert TaxAndCreditsOrder[0..] == TaxAndCreditsOrder;
    var p := e;
    Advance(ctx, p, TaxAndCreditsOrder, 0, goal);
    p := Step(ctx, p, Federal(11, B));
    Advance(ctx, p, TaxAndCreditsOrder, 1, goal);
    p := Step(ctx, p, Federal(12, E));
    Advance(ctx, p, TaxAndCreditsOrder, 2, goal);
    p := Step(ctx, p, Federal(14, Whole));
    Advance(ctx, p, TaxAndCreditsOrder, 3, goal);
    p := Step(ctx, p, Federal(15, Whole));
    Advance(ctx, p, TaxAndCreditsOrder, 4, goal);
  }

  /** The last four, whatever page the first five left. */
  lemma TaxAndCreditsLastPart(ctx: Context, e: Fields)
    ensures AllDerived(TaxAndCreditsOrder)
    ensures RunPass(ctx, e, TaxAndCreditsOrder[5..]) == Step(ctx, Step(ctx, Step(ctx, Step(ctx, e, Federal(18, Whole)), Federal(21, Whole)), Federal(22, Whole)), Federal(24, Whole))
  {
    TaxAndCreditsOrderFacts();
    hide *;
    var goal := RunPass(ctx, e, TaxAndCreditsOrder[5..]);
    var p := e;
    Advance(ctx, p, TaxAndCreditsOrder, 5, goal);
    p := Step(ctx, p, Federal(18, Whole));
    Advance(ctx, p, TaxAndCreditsOrder, 6, goal);
    p := Step(ctx, p, Federal(21, Whole));
    Advance(ctx, p, TaxAndCreditsOrder, 7, goal);
    p := Step(ctx, p, Federal(22, Whole));
    Advance(ctx, p, TaxAndCreditsOrder, 8, goal);
    p := Step(ctx, p, Federal(24, Whole));
    Finish(ctx, p, TaxAndCreditsOrder, goal);
  }

  /** The income pass is line 1z, then line 9. */
  lemma IncomeSteps(ctx: Context, e: Fields)
    ensures AllDerived(IncomeOrder)
    ensures RunPass(ctx, e, IncomeOrder) == Step(ctx, Step(ctx, e, Federal(1, Z)), Federal(9, Whole))
  {
    assert IncomeOrder[0..] == IncomeOrder;
    var goal := RunPass(ctx, e, IncomeOrder);
    hide Rule, Step;
    Advance(ctx, e, IncomeOrder, 0, goal);
    var p := Step(ctx, e, Federal(1, Z));
    Advance(ctx, p, IncomeOrder, 1, goal);
    Finish(ctx, Step(ctx, p, Federal(9, Whole)), IncomeOrder, goal);
  }

  /** The payments pass is lines 25d, 32 and 33, then the refund-or-owed pass. */
  lemma PaymentsSteps(ctx: Context, e: Fields)
    ensures AllDerived(PaymentsOrder)
    ensures RunPass(ctx, e, PaymentsOrder)
         == RunPass(ctx, Step(ctx, Step(ctx, Step(ctx, e, Federal(25, D)), Federal(32, Whole)), Federal(33, Whole)),
              RefundOrOwedOrder)
  {
    assert PaymentsOrder[0..] == PaymentsOrder && PaymentsOrder[3..] == RefundOrOwedOrder;
    var goal := RunPass(ctx, e, PaymentsOrder);
    hide Rule, Step;
    Advance(ctx, e, PaymentsOrder, 0, goal);
    var p := Step(ctx, e, Federal(25, D));
    Advance(ctx, p, PaymentsOrder, 1, goal);
    p := Step(ctx, p, Federal(32, Whole));
    Advance(ctx, p, PaymentsOrder, 2, goal);
  }

  lemma IndianaOrderFacts()
    ensures AllDerived(IndianaOrder) && AllDerived(IndianaOrder[4..]) && AllDerived(IndianaOrder[7..])
    ensures IsDerived(Indiana(1)) && IsDerived(Indiana(3)) && IsDerived(Indiana(5)) && IsDerived(Indiana(7))
    ensures IsDerived(Indiana(8)) && IsDerived(Indiana(9)) && IsDerived(Indiana(11)) && IsDerived(Indiana(14))
    ensures IsDerived(Indiana(15)) && IsDerived(Indiana(16)) && IsDerived(Indiana(18)) && IsDerived(Indiana(21))
    ensures IsDerived(Indiana(23)) && IsDerived(Indiana(26))
    ensures IndianaOrder ==
      [Indiana(1), Indiana(3), Indiana(5), Indiana(7), Indiana(8), Indiana(9), Indiana(11),
       Indiana(14), Indiana(15), Indiana(16), Indiana(18), Indiana(21), Indiana(23), Indiana(26)]
  {
  }

  lemma StepKeepsIndiana(ctx: Context, e: Fields, f: FieldId, n: nat)
    requires IsDerived(f) && f != Indiana(n)
    ensures Ind(Step(ctx, e, f), n) == Ind(e, n)
  {
    StepKeeps(ctx, e, f, Indiana(n));
  }

  /** The first seven update functions of the IT-40 pass, one after the other. */
  lemma IndianaFirstHalf(ctx: Context, e: Fields)
    ensures AllDerived(IndianaOrder)
    ensures RunPass(ctx, e, IndianaOrder)
         == RunPass(ctx, Step(ctx, Step(ctx, Step(ctx, Step(ctx, Step(ctx, Step(ctx, Step(ctx, e,
              Indiana(1)), Indiana(3)), Indiana(5)), Indiana(7)), Indiana(8)), Indiana(9)), Indiana(11)),
              IndianaOrder[7..])
  {
    IndianaFirstQuarter(ctx, e);
    IndianaOrderFacts();
    hide *;
    IndianaSecondQuarter(ctx, Step(ctx, Step(ctx, Step(ctx, Step(ctx, e, Indiana(1)), Indiana(3)), Indiana(5)), Indiana(7)));
  }

  lemma IndianaFirstQuarter(ctx: Context, e: Fields)
    ensures AllDerived(IndianaOrder)
    ensures RunPass(ctx, e, IndianaOrder)
         == RunPass(ctx, Step(ctx, Step(ctx, Step(ctx, Step(ctx, e, Indiana(1)), Indiana(3)), Indiana(5)), Indiana(7)),
              IndianaOrder[4..])
  {
    IndianaOrderFacts();
    hide *;
    var goal := RunPass(ctx, e, IndianaOrder);
    assert IndianaOrder[0..] == IndianaOrder;
    var p := e;
    Advance(ctx, p, IndianaOrder, 0, goal);
    p := Step(ctx, p, Indiana(1));
    Advance(ctx, p, IndianaOrder, 1, goal);
    p := Step(ctx, p, Indiana(3));
    Advance(ctx, p, IndianaOrder, 2, goal);
    p := Step(ctx, p, Indiana(5));
    Advance(ctx, p, IndianaOrder, 3, goal);
  }

  lemma IndianaSecondQuarter(ctx: Context, e: Fields)
    ensures AllDerived(IndianaOrder)
    ensures RunPass(ctx, e, IndianaOrder[4..])
         == RunPass(ctx, Step(ctx, Step(ctx, Step(ctx, e, Indiana(8)), Indiana(9)), Indiana(11)), IndianaOrder[7..])
  {
    IndianaOrderFacts();
    hide *;
    var goal := RunPass(ctx, e, IndianaOrder[4..]);
    var p := e;
    Advance(ctx, p, IndianaOrder, 4, goal);
    p := Step(ctx, p, Indiana(8));
    Advance(ctx, p, IndianaOrder, 5, goal);
    p := Step(ctx, p, Indiana(9));
    Advance(ctx, p, IndianaOrder, 6, goal);
  }

  /** The last seven, whatever page the first seven left. */
  lemma IndianaSecondHalf(ctx: Context, e: Fields)
    ensures AllDerived(IndianaOrder)
    ensures RunPass(ctx, e, IndianaOrder[7..])
         == Step(ctx, Step(ctx, Step(ctx, Step(ctx, Step(ctx, Step(ctx, Step(ctx, e,
              Indiana(14)), Indiana(15)), Indiana(16)), Indiana(18)), Indiana(21)), Indiana(23)), Indiana(26))
  {
    IndianaOrderFacts();
    hide *;
    var goal := RunPass(ctx, e, IndianaOrder[7..]);
    var p := e;
    Advance(ctx, p, IndianaOrder, 7, goal);
    p := Step(ctx, p, Indiana(14));
    Advance(ctx, p, IndianaOrder, 8, goal);
    p := Step(ctx, p, Indiana(15));
    Advance(ctx, p, IndianaOrder, 9, goal);
    p := Step(ctx, p, Indiana(16));
    Advance(ctx, p, IndianaOrder, 10, goal);
    p := Step(ctx, p, Indiana(18));
    Advance(ctx, p, IndianaOrder, 11, goal);
    p := Step(ctx, p, Indiana(21));
    Advance(ctx, p, IndianaOrder, 12, goal);
    p := Step(ctx, p, Indiana(23));
    Advance(ctx, p, IndianaOrder, 13, goal);
    p := Step(ctx, p, Indiana(26));
    Finish(ctx, p, IndianaOrder, goal);
  }

  /** Once the standard amount is written to line 12e, line 12e's update
      function writes the same amount again. */
  lemma DeductionLineSettled(ctx: Context, e: Fields, amount: real)
    requires ctx.standardAmount == amount
    ensures Step(ctx, Written(e, Federal(12, E), amount), Federal(12, E)) == Written(e, Federal(12, E), amount)
  {
    WrittenTwice(e, Federal(12, E), amount);
  }

  /** Every update function of a pass has run: the page is the pass's result. */
  lemma Finish(ctx: Context, e: Fields, order: seq<FieldId>, goal: Fields)
    requires AllDerived(order) && RunPass(ctx, e, order[|order|..]) == goal
    ensures e == goal
  {
    assert order[|order|..] == [];
  }

  /** One more update function of a pass has run: what remains of the pass
      still leads to the same page. */
  lemma Advance(ctx: Context, e: Fields, order: seq<FieldId>, k: nat, goal: Fields)
    requires AllDerived(order) && k < |order| && RunPass(ctx, e, order[k..]) == goal
    ensures RunPass(ctx, Step(ctx, e, order[k]), order[k + 1..]) == goal
  {
    assert order[k..][0] == order[k];
    assert order[k..][1..] == order[k + 1..];
  }

  /** The pass over lines 34, 35a and 37 as three writes: the positive part
      of payments less tax twice, then the negative part. */
  function RefundPass(e: Fields, p: real, t: real): Fields
  {
    Written(Written(Written(e, Federal(34, Whole), Max0(p - t)), Federal(35, A), Max0(p - t)), Federal(37, Whole), Max0(t - p))
  }

  /** The owed branch writes line 37 first, yet comes to the same page. */
  lemma OwedBranchAgrees(e: Fields, p: real, t: real)
    requires t > p
    ensures Written(Written(Written(e, Federal(37, Whole), t - p), Federal(34, Whole), 0.0), Federal(35, A), 0.0)
         == RefundPass(e, p, t)
  {
    var f34, f35, f37 := Federal(34, Whole), Federal(35, A), Federal(37, Whole);
    WrittenCommute(e, f37, t - p, f34, 0.0);
    WrittenCommute(Written(e, f34, 0.0), f37, t - p, f35, 0.0);
  }

  /** The even branch writes line 37 before 35a, yet comes to the same page. */
  lemma EvenBranchAgrees(e: Fields, p: real, t: real)
    requires t == p
    ensures Written(Written(Written(e, Federal(34, Whole), 0.0), Federal(37, Whole), 0.0), Federal(35, A), 0.0)
         == RefundPass(e, p, t)
  {
    WrittenCommute(Written(e, Federal(34, Whole), 0.0), Federal(37, Whole), 0.0, Federal(35, A), 0.0);
  }

  /** Writing a line other than 24 and 33 keeps total tax and total payments. */
  lemma KeepsTaxAndPayments(e: Fields, f: FieldId, v: real)
    requires f != Federal(24, Whole) && f != Federal(33, Whole)
    ensures Fed(Written(e, f, v), 24, Whole) == Fed(e, 24, Whole)
    ensures Fed(Written(e, f, v), 33, Whole) == Fed(e, 33, Whole)
  {
  }

  /** The first update function of the refund-or-owed pass writes line 34. */
  lemma RefundFirstStep(ctx: Context, e: Fields)
    ensures AllDerived(RefundOrOwedOrder)
    ensures RunPass(ctx, e, RefundOrOwedOrder)
         == RunPass(ctx, Written(e, Federal(34, Whole), Max0(Fed(e, 33, Whole) - Fed(e, 24, Whole))),
                    [Federal(35, A), Federal(37, Whole)])
  {
    RefundOrOwedRules(ctx, e);
    assert RefundOrOwedOrder[1..] == [Federal(35, A), Federal(37, Whole)];
  }

  /** The second writes line 35a, from the same totals. */
  lemma RefundSecondStep(ctx: Context, e: Fields, p: real, t: real)
    requires Fed(e, 33, Whole) == p && Fed(e, 24, Whole) == t
    ensures RunPass(ctx, e, [Federal(35, A), Federal(37, Whole)])
         == RunPass(ctx, Written(e, Federal(35, A), Max0(p - t)), [Federal(37, Whole)])
  {
    hide *;
    var order := [Federal(35, A), Federal(37, Whole)];
    RefundTailsDerived();
    PassHead(ctx, e, order);
    assert order[0] == Federal(35, A) && order[1..] == [Federal(37, Whole)];
    RefundOrOwedRules(ctx, e);
  }

  /** The third writes line 37, the negative part. */
  lemma RefundThirdStep(ctx: Context, e: Fields, p: real, t: real)
    requires Fed(e, 33, Whole) == p && Fed(e, 24, Whole) == t
    ensures RunPass(ctx, e, [Federal(37, Whole)]) == Written(e, Federal(37, Whole), Max0(t - p))
  {
    hide *;
    var order := [Federal(37, Whole)];
    RefundTailsDerived();
    PassHead(ctx, e, order);
    assert order[0] == Federal(37, Whole) && order[1..] == [];
    RefundOrOwedRules(ctx, e);
    PassNil(ctx, Written(e, Federal(37, Whole), Max0(t - p)));
  }

  lemma RefundTailsDerived()
    ensures AllDerived([Federal(35, A), Federal(37, Whole)]) && AllDerived([Federal(37, Whole)])
  {
  }

  /** A pass runs its first update function, then the rest. */
  lemma PassHead(ctx: Context, e: Fields, order: seq<FieldId>)
    requires order != [] && AllDerived(order)
    ensures IsDerived(order[0]) && AllDerived(order[1..])
    ensures RunPass(ctx, e, order) == RunPass(ctx, Written(e, order[0], Rule(ctx, order[0], e)), order[1..])
  {
  }

  /** A pass with nothing left to run leaves the page as it is. */
  lemma PassNil(ctx: Context, e: Fields)
    ensures RunPass(ctx, e, []) == e
  {
  }

  /** The pass over lines 34, 35a and 37 is those three writes. */
  lemma {:induction false} RefundPassWrites(ctx: Context, e: Fields)
    ensures AllDerived(RefundOrOwedOrder)
    ensures RunPass(ctx, e, RefundOrOwedOrder) == RefundPass(e, Fed(e, 33, Whole), Fed(e, 24, Whole))
  {
    RefundOrOwedDerived();
    hide *;
    var p, t := Fed(e, 33, Whole), Fed(e, 24, Whole);
    var f34, f35, f37 := Federal(34, Whole), Federal(35, A), Federal(37, Whole);
    RefundFirstStep(ctx, e);
    var e1 := Written(e, f34, Max0(p - t));
    KeepsTaxAndPayments(e, f34, Max0(p - t));
    RefundSecondStep(ctx, e1, p, t);
    var e2 := Written(e1, f35, Max0(p - t));
    KeepsTaxAndPayments(e1, f35, Max0(p - t));
    RefundThirdStep(ctx, e2, p, t);
    RefundPassIs(e, p, t);
  }

  lemma RefundPassIs(e: Fields, p: real, t: real)
    ensures RefundPass(e, p, t)
         == Written(Written(Written(e, Federal(34, Whole), Max0(p - t)), Federal(35, A), Max0(p - t)), Federal(37, Whole), Max0(t - p))
  {
  }

  /** The IT-40 lines after line 16 leave lines 14 and 15 as they are. */
  lemma IndianaTailKeepsBalance(ctx: Context, e: Fields)
    ensures Ind(Step(ctx, Step(ctx, Step(ctx, Step(ctx, e, Indiana(18)), Indiana(21)), Indiana(23)), Indiana(26)), 14)
         == Ind(e, 14)
    ensures Ind(Step(ctx, Step(ctx, Step(ctx, Step(ctx, e, Indiana(18)), Indiana(21)), Indiana(23)), Indiana(26)), 15)
         == Ind(e, 15)
  {
    assert IsDerived(Indiana(18)) && IsDerived(Indiana(21)) && IsDerived(Indiana(23)) && IsDerived(Indiana(26));
    hide *;
    var p := e;
    StepKeepsIndiana(ctx, p, Indiana(18), 14);
    StepKeepsIndiana(ctx, p, Indiana(18), 15);
    p := Step(ctx, p, Indiana(18));
    StepKeepsIndiana(ctx, p, Indiana(21), 14);
    StepKeepsIndiana(ctx, p, Indiana(21), 15);
    p := Step(ctx, p, Indiana(21));
    StepKeepsIndiana(ctx, p, Indiana(23), 14);
    StepKeepsIndiana(ctx, p, Indiana(23), 15);
    p := Step(ctx, p, Indiana(23));
    StepKeepsIndiana(ctx, p, Indiana(26), 14);
    StepKeepsIndiana(ctx, p, Indiana(26), 15);
  }

  lemma RefundOrOwedDerived()
    ensures AllDerived(RefundOrOwedOrder)
    ensures RefundOrOwedOrder == [Federal(34, Whole), Federal(35, A), Federal(37, Whole)]
  {
  }

  /** A line's value, as the page reads it. */
  lemma FedIs(e: Fields, n: nat, p: Part)
    ensures Fed(e, n, p) == FieldValue(e, Federal(n, p))
  {
  }

  /** The refund-or-owed pass keeps total tax and total payments. */
  lemma RefundPassKeepsTotals(ctx: Context, e: Fields)
    ensures AllDerived(RefundOrOwedOrder)
    ensures Fed(RunPass(ctx, e, RefundOrOwedOrder), 33, Whole) == Fed(e, 33, Whole)
    ensures Fed(RunPass(ctx, e, RefundOrOwedOrder), 24, Whole) == Fed(e, 24, Whole)
  {
    hide *;
    RefundOrOwedDerived();
    PassUntouched(ctx, e, RefundOrOwedOrder, Federal(33, Whole));
    PassUntouched(ctx, e, RefundOrOwedOrder, Federal(24, Whole));
    FedIs(e, 33, Whole);
    FedIs(e, 24, Whole);
    FedIs(RunPass(ctx, e, RefundOrOwedOrder), 33, Whole);
    FedIs(RunPass(ctx, e, RefundOrOwedOrder), 24, Whole);
  }

  /** The refund branch writes what the pass writes. */
  lemma SurplusBranchAgrees(e: Fields, p: real, t: real)
    requires p > t
    ensures Written(Written(Written(e, Federal(34, Whole), p - t), Federal(35, A), p - t), Federal(37, Whole), 0.0)
         == RefundPass(e, p, t)
  {
  }

  /** Running one update function changes no other line. */
  lemma StepKeeps(ctx: Context, e: Fields, f: FieldId, g: FieldId)
    requires IsDerived(f) && f != g
    ensures FieldValue(Step(ctx, e, f), g) == FieldValue(e, g)
  {
  }
}
