/** Payslip transactions (validate_transactions/utils/payslip_transactions.py). */
module PayslipTransactions {
  import opened Ledger
  import opened Common

  /** `"payslip" in entry.tags or any_posting_has_metadata_key(entry.postings, "payslip")`. */
  predicate IsPayslipTransaction(t: Transaction)
  {
    "payslip" in t.tags || AnyPostingHasMetadataKey(t.postings, "payslip")
  }

  /**
   * Since the metadata helper never finds "payslip" in a posting's fields, a
   * transaction counts as a payslip exactly when it carries the tag.
   */
  lemma PayslipMeansTagged(t: Transaction)
    requires forall i :: 0 <= i < |t.postings| ==> t.postings[i].flag.None? || |t.postings[i].flag.value| == 1
    ensures IsPayslipTransaction(t) <==> "payslip" in t.tags
  {
    MetadataKeyNeverFound(t.postings, "payslip");
  }

  /**
   * `validate_payslip_transaction(entry)`: the tag check, then the check of the
   * entry's own metadata; it looks at neither the postings nor a party.
   */
  function ValidatePayslip(t: Transaction): (errs: seq<ValidationError>)
    ensures forall e :: e in errs ==> e.kind == PayslipTransactionError && e.subject == OfEntry
    ensures ValidationError(PayslipTransactionError, PayslipTagMissing, OfEntry) in errs <==> "payslip" !in t.tags
    ensures ValidationError(PayslipTransactionError, PayslipMetadataMissing, OfEntry) in errs <==> "payslip" !in t.meta
    ensures |errs| <= 2
    ensures |errs| == 2 ==> errs[0].message == PayslipTagMissing && errs[1].message == PayslipMetadataMissing
    ensures errs == [] <==> "payslip" in t.tags && "payslip" in t.meta
  {
    When("payslip" !in t.tags, ValidationError(PayslipTransactionError, PayslipTagMissing, OfEntry))
    + When("payslip" !in t.meta, ValidationError(PayslipTransactionError, PayslipMetadataMissing, OfEntry))
  }

  /** Changing the postings never changes the payslip errors. */
  lemma PayslipIgnoresPostings(t: Transaction, postings: seq<Posting>)
    ensures ValidatePayslip(t.(postings := postings)) == ValidatePayslip(t)
  {
  }
}
