# Tax Calculator 2025 — verified model of the form engine and the saved-return store

This project models the calculation core of a browser-based 2025 Form 1040 / 1040-SR and Indiana IT-40 preparer in Dafny, together with the list logic of its small saved-return server.

On the browser side, the page is a store of input elements keyed by id. `getFieldValue` reads an element through a lenient number parser. `setFieldValue` writes a read-only or `calculated` element as two-decimal text: comma-grouped for text inputs, plain for number inputs. Every `update*` function reads some lines and writes one derived line, in place. The `updateAll*` functions run fixed sequences of them. Line 16 comes from `calculateFederalTax`: marginal brackets below $100,000, and the Tax Computation Worksheet at or above it. Line 12e comes from the standard deduction chart, indexed by the number of line 12d boxes checked. The IT-40 lines apply the 3% state rate and the chosen county rate.

On the server side, returns are kept as one JSON list:
- a save is an upsert keyed by e-mail that keeps the record's id and position;
- a load finds by e-mail;
- an update and a delete act by id.

How the model is built:
- **Page and session.** `TaxForm.Form` is a class. Its fields are the page, the checkboxes and the session state the update functions read and write. Each update function is a method proved to leave the page exactly as one application of its line's rule would.
- **Rules and passes.** Rules and passes live in `FormGraph` and `Recompute` as functions, with lemmas about what a pass guarantees.
- **Numbers.** Currency is an exact `real`. `Math.round` is `floor(x + 1/2)`. Two-decimal rendering rounds halves away from zero.
- **Server.** The data file is the `records` field of `ReturnStore.Store`. The read outcome, write outcome, fresh id and current time are parameters.

## Model

| member | source | states |
|---|---|---|
| FederalTax.CalculateFederalTax | script.js:129-205 | the tax returned, with the worksheet bands searched by a loop that returns at the first match, equals the reference `FederalTax` and is never negative |
| FederalTax.FirstBand | script.js:184-200 | the band found contains the income; no band is found exactly when no band contains it |
| FederalTax.WorksheetsContiguous | script.js:86-124 | for each of the five statuses the worksheet bands start at $100,000, each ends where the next begins, and the last is unbounded |
| FederalTax.ExactlyOneBand | script.js:184-200 | in such bands every income at or above the first band's start lies in exactly one band |
| FederalTax.WorksheetRegime | script.js:178-204 | at or above $100,000 a recognized status always finds its band, so the "could not find bracket" return is unreachable; the tax is that band's income × rate − subtraction, unrounded, floored at 0 |
| FederalTax.AdjacentBandsAgree | script.js:86-124 | adjacent worksheet bands give the same tax at the income where they meet |
| FederalTax.RegimesShareSeamFormula | script.js:86-160 | above the top of the 12% bracket, the running bracket formula equals the first worksheet row's formula |
| FederalTax.SeamTax | script.js:129-204 | at exactly $100,000 the bracket formula gives whole dollars, and the worksheet tax there equals it |
| FederalTax.SingleBracketExample | script.js:137-178 | single at $48,475 owes $5,579 (5578.5 rounded up) |
| FederalTax.SingleWorksheetExample | script.js:86-199 | single at $150,000 owes $28,847 |
| FederalTax.NoIncomeNoTax | script.js:131-174 | zero taxable income means zero tax for every status |
| FederalTax.UnrecognizedStatus | script.js:163-182 | an unknown status is taxed as single below $100,000 and returns 0 at or above it |
| FederalTax.UnrecognizedStatusNotMonotone | script.js:163-182 | for an unknown status the tax just below $100,000 is higher than the tax at $100,000 |
| FederalTax.MarginalMonotone | script.js:131-171 | the bracket formula never decreases with income |
| FederalTax.WorksheetRowIsLargest | script.js:86-199 | among all rows of a status's worksheet, the row holding the income gives the largest tax at that income |
| FederalTax.RowBelowHolder | script.js:86-124 | in contiguous rows with non-decreasing rates that agree where they meet, the row holding x gives the largest tax at x |
| FederalTax.WorksheetRowsMeet | script.js:86-124 | every worksheet's rates never fall from one row to the next, and adjacent rows agree where they meet |
| FederalTax.WorksheetMonotone | script.js:178-204 | in the worksheet regime, more income never means less tax |
| FederalTax.AcrossSeamMonotone | script.js:129-204 | an income below $100,000 is never taxed more than one at or above it |
| FederalTax.FederalTaxMonotone | script.js:129-205 | for every recognized status, more taxable income never means less tax, across the switch of regimes too |
| StandardDeduction.BoxCount | script.js:1227-1238 | the count includes the spouse boxes only for married, qss and mfs, is at most 2 or 4 accordingly, and is 0 exactly when no counted box is checked |
| StandardDeduction.LookupStandardDeduction | script.js:1220-1253 | no filing status gives the no-status outcome and nothing else does; with a status, an amount is found exactly when the chart has an entry for the status and the box count, and it is that entry |
| StandardDeduction.ChartIsBasePlusPerBox | script.js:51-81 | every chart entry is the row's base plus k × $2,000 (single, hoh) or k × $1,600 (married, qss, mfs) |
| StandardDeduction.ChartCoversCounts | script.js:51-81 | single, hoh, married and mfs find an entry for every count they can produce |
| StandardDeduction.QssChartGap | script.js:1233-1246 | a qualifying surviving spouse with 3 or 4 boxes checked finds no entry, so the lookup fails before line 12e is written |
| StandardDeduction.ChartExamples | script.js:51-81 | single with 0 boxes gets 15,750, with 2 boxes 19,750; married with 4 boxes gets 37,900 |
| StandardDeduction.MoreBoxesNoLess | script.js:51-81 | where the chart has an entry, a larger box count never gives a smaller deduction |
| IndianaTax.CalculateIndianaTax | script.js:1843-1850 | the result is the rounded sum of the state and county taxes on the income, and is non-negative for non-negative income and rate |
| IndianaTax.IndianaTaxMonotone | script.js:1843-1850 | with a non-negative county rate, more income never means less Indiana tax |
| Decimal.Max0 | script.js:1304 | `Math.max(0, x)` is at least 0 and at least x, and is one of the two |
| Decimal.Round | script.js:1849 | `Math.round` gives the integer within half of x, halves going up |
| Decimal.RoundMonotone | script.js:1849 | `Math.round` keeps the order of two amounts |
| Decimal.Cents | script.js:1205-1212 | two-decimal rounding gives a whole number of cents, within half a cent of the value, with its sign kept |
| Decimal.CentsIdempotent | script.js:1205-1212 | rounding to cents twice is rounding once |
| Decimal.CentsOdd | script.js:1205-1212 | two-decimal rounding is symmetric about zero: halves go away from zero on both sides |
| Decimal.CentsMonotone | script.js:1205-1212 | rounding to cents keeps the order of two amounts |
| Decimal.GroupingDropsOut | script.js:1191-1209 | stripping non-numeric characters from a comma-grouped digit run gives the digits back |
| Decimal.TextWithoutDigitsReadsZero | script.js:1182-1195 | text without a single digit reads as 0, whatever else it holds |
| Decimal.RenderedReadsBack | script.js:1182-1195 | any non-blank text whose numeric characters are the sign and the two-decimal digits of x reads back as x rounded to cents |
| Decimal.ToFixed2ReadsBack | script.js:1191-1212 | reading back `toFixed(2)` text gives the value rounded to cents |
| Decimal.ToLocale2ReadsBack | script.js:1191-1209 | reading back comma-grouped two-decimal text gives the value rounded to cents |
| FormGraph.Written | script.js:1197-1217 | setFieldValue keeps every element's type and flags, changes no other element, and leaves the page alone when the element is missing or neither read-only nor calculated |
| FormGraph.WrittenReadsBack | script.js:1182-1217 | a written element reads back as the value rounded to cents |
| FormGraph.WrittenTwice | script.js:1197-1217 | writing the same value twice is writing it once |
| FormGraph.WrittenCommute | script.js:1197-1217 | writes to two different elements commute |
| FormGraph.RuleReadsOnlyDeps | script.js:1256-1669 | each update function's value depends only on the lines it reads |
| FormGraph.ClampedRulesNonNegative | script.js:1300-1669 | every "minus" line (11a, 15, 22, 34, 35a, 37; IT-40 5, 7, 18, 21, 23) is at least 0 for any inputs |
| FormGraph.RankRisingIsWellOrdered | script.js:1569-1598 | a sequence of lines whose ranks rise has no repeats and writes no line after a line that reads it |
| FormGraph.RankRespectsDeps | script.js:1256-1669 | every line an update function reads ranks below the line it writes, so the dependencies have no cycle |
| FormGraph.PassFrame | script.js:1569-1598 | a pass keeps every element's type and flags and changes no line outside its sequence |
| FormGraph.PassConsistent | script.js:1569-1598 | after a well-ordered pass every writable line of the pass holds its rule's value over the page as it stands |
| FormGraph.PassIdempotent | script.js:1569-1598 | running a well-ordered pass a second time changes nothing |
| FormGraph.PassSettles | script.js:1569-1598 | after a pass in rising rank order each writable line of it holds its rule's value |
| FormGraph.PassUntouched | script.js:1569-1598 | a line outside a pass reads the same afterwards and stays writable or not as before |
| FormGraph.SettledClampedNonNegative | script.js:1300-1556 | a clamped line holding its rule's value never reads below 0 |
| Recompute.TaxAndCreditsOrdered | script.js:1588-1598 | updateAllTaxAndCredits calls its lines in dependency order |
| Recompute.PaymentsOrdered | script.js:1638-1677 | updateAllPayments writes its lines, including 34, 35a and 37, in dependency order |
| Recompute.IndianaOrdered | script.js:1569-1584 | updateAllIndianaCalculations calls its lines in dependency order |
| Recompute.IncomeOrdered | script.js:1317-1321 | updateTotalIncome's lines 1z, 9 and 11a come in dependency order |
| Recompute.TaxAndCreditsStable | script.js:1588-1598 | after updateAllTaxAndCredits every line it writes holds its formula over the current page, and a second run changes nothing |
| Recompute.PaymentsStable | script.js:1672-1677 | the same for updateAllPayments |
| Recompute.IndianaStable | script.js:1569-1584 | the same for updateAllIndianaCalculations |
| Recompute.BalanceOf | script.js:1643-1668 | the refund section is chosen exactly when the difference is positive, the owed section exactly when it is negative |
| Recompute.CentsSplit | script.js:1638-1669 | the positive and negative parts of a difference, each rounded to cents, differ by the difference in cents, are never both positive and follow its sign |
| Recompute.SplitWhenSettled | script.js:1638-1669 | on such a page line 34 − line 37 is payments − tax in cents and the two are never both positive |
| Recompute.RefundOrOwedSplit | script.js:1638-1669 | the overpayment minus the amount owed is payments − tax in cents, never both are positive, and each case of the three-way test gives its pair of values |
| Recompute.PaymentsSplitRefundOrOwed | script.js:1638-1677 | after updateAllPayments, line 34 − line 37 equals payments − tax in cents and the two are never both positive |
| Recompute.IndianaRefundOwedExclusive | script.js:1531-1556 | on a page where IT-40 lines 16, 18, 21 and 23 hold their rules, with non-negative lines 17, 19 and 20, lines 21 and 23 are never both positive |
| Recompute.IndianaPassExclusive | script.js:1531-1584 | after updateAllIndianaCalculations the Indiana refund (line 21) and amount owed (line 23) are never both positive, given non-negative donation and deduction lines |
| Recompute.NegativeDonationShowsBoth | script.js:1531-1556 | with line 17 at −20, line 15 at 10 and no credits, a page where lines 16, 18, 21 and 23 hold their rules shows a refund and an amount owed of 10 each, so the non-negative requirement on lines 17, 19 and 20 is needed |
| Recompute.IndianaPassTaxLines | script.js:1457-1584 | after updateAllIndianaCalculations lines 8, 9 and 16 show the state tax, the county tax and credits − tax |
| Recompute.CarriesAgi | script.js:1423-1427 | where IT-40 line 1 holds its rule and line 11a reads a whole-cent amount, line 1 reads exactly line 11a |
| Recompute.CombinedModeCarriesAgi | script.js:1300-1314 | in combined mode, updating AGI leaves IT-40 line 1 reading exactly what line 11a reads |
| Recompute.SeparateModeKeepsIndiana | script.js:1300-1314 | outside combined mode, updating AGI changes line 11a and nothing else |
| Recompute.TaxAndCreditsSetsTaxLine | script.js:1588-1598 | after updateAllTaxAndCredits line 16 reads 0 without a filing status and the federal tax on line 15 in cents otherwise |
| TaxForm.Form.constructor | script.js:2-46 | a new form holds the given page, boxes, filing status, tax type and county rate, the initial standard amount of 15,750, and shows neither refund nor owed section |
| TaxForm.Form.SetFieldValue | script.js:1197-1217 | the page after the call is the `Written` page |
| TaxForm.Form.UpdateStandardDeduction | script.js:1220-1253 | the outcome is the chart lookup; on success line 12e and the saved standard amount take it and line 12e's own update then writes the same value; otherwise nothing changes |
| TaxForm.Form.UpdateLine1zTotal | script.js:1256-1281 | returns line 1z's rule and leaves the page as one step of it |
| TaxForm.Form.UpdateLine9Total | script.js:1284-1297 | the same for line 9 |
| TaxForm.Form.UpdateLine11aAGI | script.js:1300-1314 | returns a non-negative AGI and leaves the page as the AGI update, which in combined mode also reruns the Indiana pass and sets the Indiana section shown |
| TaxForm.Form.UpdateTotalIncome | script.js:1317-1321 | the page is lines 1z and 9 stepped in order, then the AGI update; in combined mode the Indiana section shown follows line 14 − line 15 as they finally read, otherwise it is unchanged |
| TaxForm.Form.UpdateLine11b | script.js:1326-1330 | returns line 11b's rule and leaves the page as one step of it |
| TaxForm.Form.UpdateLine12eStandardDeduction | script.js:1333-1338 | the same for line 12e (the saved standard amount) |
| TaxForm.Form.UpdateLine14TotalDeductions | script.js:1341-1349 | the same for line 14 |
| TaxForm.Form.UpdateLine15TaxableIncome | script.js:1352-1359 | the same for line 15, whose value is never negative |
| TaxForm.Form.UpdateLine16Tax | script.js:1362-1378 | returns 0 without a filing status and the federal tax on line 15 otherwise; the page is one step of line 16 |
| TaxForm.Form.UpdateLine18 | script.js:1381-1388 | returns line 18's rule and leaves the page as one step of it |
| TaxForm.Form.UpdateLine21 | script.js:1391-1398 | the same for line 21 |
| TaxForm.Form.UpdateLine22 | script.js:1401-1408 | the same for line 22, never negative |
| TaxForm.Form.UpdateLine24TotalTax | script.js:1411-1418 | the same for line 24 |
| TaxForm.Form.UpdateAllTaxAndCredits | script.js:1588-1598 | the page is the tax-and-credits pass over the old page |
| TaxForm.Form.UpdateIndianaLine1 | script.js:1423-1427 | returns IT-40 line 1's rule and leaves the page as one step of it |
| TaxForm.Form.UpdateIndianaLine3 | script.js:1430-1436 | the same for line 3 |
| TaxForm.Form.UpdateIndianaLine5 | script.js:1439-1445 | the same for line 5, never negative |
| TaxForm.Form.UpdateIndianaLine7 | script.js:1448-1454 | the same for line 7, never negative |
| TaxForm.Form.UpdateIndianaLine8 | script.js:1457-1463 | the same for line 8 |
| TaxForm.Form.UpdateIndianaLine9 | script.js:1466-1473 | the same for line 9 |
| TaxForm.Form.UpdateIndianaLine11 | script.js:1476-1484 | the same for line 11 |
| TaxForm.Form.UpdateIndianaLine14 | script.js:1487-1493 | the same for line 14 |
| TaxForm.Form.UpdateIndianaLine15 | script.js:1496-1500 | the same for line 15 |
| TaxForm.Form.UpdateIndianaLine16 | script.js:1503-1528 | returns line 14 − line 15, leaves the page as one step of line 16, and shows the refund section, the owed section or neither by the sign of that difference |
| TaxForm.Form.UpdateIndianaLine18 | script.js:1531-1537 | returns line 18's rule, never negative, and leaves the page as one step of it |
| TaxForm.Form.UpdateIndianaLine21 | script.js:1540-1547 | the same for line 21 |
| TaxForm.Form.UpdateIndianaLine23 | script.js:1550-1556 | the same for line 23 |
| TaxForm.Form.UpdateIndianaLine26 | script.js:1559-1566 | the same for line 26 |
| TaxForm.Form.UpdateAllIndianaCalculations | script.js:1569-1584 | the page is the Indiana pass over the old page, and the section shown follows the sign of line 14 − line 15 as they finally read |
| TaxForm.Form.UpdateLine25dWithholding | script.js:1603-1611 | returns line 25d's rule and leaves the page as one step of it |
| TaxForm.Form.UpdateLine32OtherPayments | script.js:1614-1625 | the same for line 32 |
| TaxForm.Form.UpdateLine33TotalPayments | script.js:1628-1635 | the same for line 33 |
| TaxForm.Form.UpdateRefundOrOwed | script.js:1638-1669 | each of the three branches, writing in its own order, leaves the page as the rules of lines 34, 35a and 37 would; the active section follows the sign of payments − tax, before and after the writes |
| TaxForm.Form.UpdateAllPayments | script.js:1672-1677 | the page is the payments pass over the old page, and the active section follows payments − tax as they finally read |
| Email.IsValidEmail | script.js:952-954 | a string that passes is at least five characters long |
| Email.IsValidEmailMatchesPattern | script.js:952-954 | the positional check (no white space, a single @ not first, a dot after it with a character on each side) accepts exactly the strings that split as local@domain.final into non-empty runs without white space or @ |
| Email.SuggestedAddressAccepted | script.js:952-954 | name@example.com is accepted |
| Email.MalformedAddressesRefused | script.js:952-954 | a domain without a dot, a second @, a space, an empty local part and an empty domain are refused |
| ReturnStore.FirstIndex | server.js:62 | `findIndex` returns the first position holding the key, or −1 exactly when none does |
| ReturnStore.FindByEmail | server.js:93 | `find` returns the first stored record with that address, or nothing exactly when none has it |
| ReturnStore.UpsertReplacesInPlace | server.js:62-75 | saving an address already present keeps the list length, puts a record with the same id and the new data at the same position, and changes nothing else |
| ReturnStore.UpsertAppends | server.js:62-75 | saving a new address appends exactly one record, with the fresh id |
| ReturnStore.UpsertKeepsEmailsUnique | server.js:62-75 | if no two records share an address before a save, none do after it |
| ReturnStore.LoadAfterUpsert | server.js:62-93 | loading the address just saved finds the saved record, whatever the list held |
| ReturnStore.UpdateChangesOnlyDataAndTime | server.js:117-121 | an update changes only `data` and `lastModified` of the first record with the id, and nothing when the id is absent |
| ReturnStore.UpdateKeepsEmailsUnique | server.js:117-121 | an update keeps addresses unique |
| ReturnStore.RemoveIdMembers | server.js:142 | after a delete no record has the id, and every record with another id stays |
| ReturnStore.RemoveIdConcat | server.js:142 | the filter keeps the remaining records in their original order |
| ReturnStore.RemoveIdShrinks | server.js:142-151 | the list gets shorter exactly when some record had the id; otherwise it is unchanged |
| ReturnStore.RemoveIdKeepsEmailsUnique | server.js:142 | a delete keeps addresses unique |
| ReturnStore.Store.constructor | server.js:23-26 | a missing data file starts as an empty list |
| ReturnStore.Store.Write | server.js:40-48 | a successful write replaces the file's list; a failed one leaves it and reports failure |
| ReturnStore.Store.Save | server.js:53-86 | a missing or falsy e-mail or data gives 400 and changes nothing; otherwise the list read (empty on a failed read) is upserted, stored and answered with 200 and the record's id, or 500 with the file untouched when the write fails |
| ReturnStore.Store.Load | server.js:89-104 | answers 200 with the first record for the address, else 404; always 404 after a failed read |
| ReturnStore.Store.Update | server.js:107-135 | falsy data gives 400 and an absent id 404, both changing nothing; otherwise the updated list is stored (200) or the write fails (500, file untouched) |
| ReturnStore.Store.Delete | server.js:138-157 | no record with the id gives 404 without a write; otherwise the filtered list is stored (200) or the write fails (500, file untouched) |
| ReturnStore.SaveThenLoad | server.js:53-104 | a complete save that is written is followed by a load that answers 200 with the saved address, data and time |

## Left out

- DOM wiring, navigation, summaries, the login modal, PDF output, the chat assistant, speech and keyword search are not modelled. They are presentation and browser APIs.
- `fetch`, `localStorage` and rehydrating a saved form are not modelled. They are network and browser storage.
- Express routing, middleware, `fs`, `uuidv4`, `new Date()` and `app.listen` are not modelled. The read and write outcomes, the fresh id and the time are parameters.
- The server's outer `try`/`catch` answers 500 "Internal server error" for any exception. The model covers no exception beyond a failed read (an empty list) and a failed write (500).
- JavaScript doubles are modelled as exact reals. Binary rounding artefacts and `Intl.NumberFormat` details beyond en-US two-decimal grouping are not modelled.
- NaN and `Infinity` in field values are not modelled. A non-numeric field reads as 0, as `getFieldValue` makes it.
- Recompute.IndianaRefundOwedExclusive: requires lines 17, 19 and 20 to be non-negative. The form lets them be negative, and then a refund and an amount owed can both show (Recompute.NegativeDonationShowsBoth).
- Recompute.IndianaPassExclusive: holds under the same requirement on lines 17, 19 and 20, for the same reason.
- IndianaTax.CalculateIndianaTax: does not model the NaN result when the county rate has been set to a non-number, because the county rate is always a number here. Line 9 guards with `|| 0`; this function does not.
- ReturnStore.Store.Save: a request's e-mail is an optional string; non-string JSON values for `email` are not modelled.
- A rejected `updateStandardDeduction` lookup (no chart entry) is an outcome value, not a thrown TypeError.
- A missing refund or owed section element makes `updateRefundOrOwed` throw. That case is not modelled: the sections are a field of the form.
- `updateTotalDeductions`, `updateTotalCredits` and the summary updaters are not modelled. They only feed display panels.
