/** The filing profile chosen during intake. */
module Filing {
  /** `state.filingStatus` once it is set; Unrecognized stands for any other
      non-empty string (for example one restored from a saved return). */
  datatype FilingStatus = Single | Married | Qss | Hoh | Mfs | Unrecognized

  /** `state.taxType`. */
  datatype TaxType = Federal1040 | Federal1040SR | IndianaOnly | Combined
}
