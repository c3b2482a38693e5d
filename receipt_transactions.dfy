/** Receipt (valuables) transactions (validate_transactions/utils/receipt_transactions.py). */
module ReceiptTransactions {
  import opened Accounts
  import opened Ledger
  import opened Common

  /** `"receipt" in entry.tags or any_posting_has_metadata_key(entry.postings, "receipt")`. */
  predicate IsReceiptTransaction(t: Transaction)
  {
    "receipt" in t.tags || AnyPostingHasMetadataKey(t.postings, "receipt")
  }

  /**
   * Since the metadata helper never finds "receipt" in a posting's fields, a
   * transaction counts as a receipt exactly when it carries the tag.
   */
  lemma ReceiptMeansTagged(t: Transaction)
    requires forall i :: 0 <= i < |t.postings| ==> t.postings[i].flag.None? || |t.postings[i].flag.value| == 1
    ensures IsReceiptTransaction(t) <==> "receipt" in t.tags
  {
    MetadataKeyNeverFound(t.postings, "receipt");
  }

  /** A posting whose metadata holds a receipt but whose account string does not start with "Expenses". */
  predicate MisfiledReceipt(p: Posting)
  {
    Receipt in p.meta && !StartsWith(p.account, Expenses)
  }

  const Receipt := "receipt"
  const Valuables := "valuables"
  const Expenses := "Expenses"

  const TagMissingError := ValidationError(ReceiptTransactionError, ReceiptTagMissing, OfEntry)
  const MetadataMissingError := ValidationError(ReceiptTransactionError, ReceiptMetadataMissing, OfEntry)
  const MisfiledReceiptError := ValidationError(ReceiptTransactionError, ReceiptPostingMustBeExpense, OfEntry)

  /** The indexes among 1 .. k-1 of the postings with a misfiled receipt, in increasing order. */
  function MisfiledBefore(postings: seq<Posting>, k: nat): (indexes: seq<nat>)
    requires k <= |postings|
    ensures forall i :: i in indexes <==> 1 <= i < k && MisfiledReceipt(postings[i])
    ensures forall a, b :: 0 <= a < b < |indexes| ==> indexes[a] < indexes[b]
  {
    if k <= 1 then []
    else
      var before := MisfiledBefore(postings, k - 1);
      assert forall a :: 0 <= a < |before| ==> before[a] < k - 1 by {
        forall a | 0 <= a < |before| ensures before[a] < k - 1 {
          assert before[a] in before;
        }
      }
      before + (if MisfiledReceipt(postings[k - 1]) then [k - 1] else [])
  }

  /** The two checks made on the entry as a whole: the "valuables" tag, then the posting-metadata helper. */
  function ReceiptEntryErrors(t: Transaction): (errs: seq<ValidationError>)
    ensures |errs| == (if Valuables !in t.tags then 1 else 0)
                      + (if AnyPostingHasMetadataKey(t.postings, Receipt) then 0 else 1)
    ensures forall e :: e in errs ==> e.kind == ReceiptTransactionError && e.subject == OfEntry
                                      && e.message != ReceiptPostingMustBeExpense
    ensures TagMissingError in errs <==> Valuables !in t.tags
    ensures MetadataMissingError in errs <==> !AnyPostingHasMetadataKey(t.postings, Receipt)
    ensures Valuables !in t.tags ==> errs[0] == TagMissingError
  {
    When(Valuables !in t.tags, TagMissingError)
    + When(!AnyPostingHasMetadataKey(t.postings, Receipt), MetadataMissingError)
  }

  /**
   * The errors `validate_receipt_transaction` has collected once its loop has
   * looked at `postings[1:k]`.
   */
  function ReceiptErrorsUpTo(t: Transaction, k: nat): (errs: seq<ValidationError>)
    requires k <= |t.postings|
    ensures |ReceiptEntryErrors(t)| <= |errs| <= |ReceiptEntryErrors(t)| + (if k == 0 then 0 else k - 1)
  {
    if k <= 1 then ReceiptEntryErrors(t)
    else ReceiptErrorsUpTo(t, k - 1) + When(MisfiledReceipt(t.postings[k - 1]), MisfiledReceiptError)
  }

  /** What `validate_receipt_transaction(entry)` returns. */
  function ReceiptErrors(t: Transaction): seq<ValidationError>
  {
    ReceiptErrorsUpTo(t, |t.postings|)
  }

  /**
   * The entry checks' errors come first, and every error after them is the
   * misfiled-receipt error.
   */
  lemma {:induction false} ReceiptErrorsLayout(t: Transaction, k: nat)
    requires k <= |t.postings|
    ensures ReceiptErrorsUpTo(t, k)[..|ReceiptEntryErrors(t)|] == ReceiptEntryErrors(t)
    ensures forall j :: |ReceiptEntryErrors(t)| <= j < |ReceiptErrorsUpTo(t, k)| ==>
                          ReceiptErrorsUpTo(t, k)[j] == MisfiledReceiptError
  {
    if k > 1 {
      ReceiptErrorsLayout(t, k - 1);
      var before := ReceiptErrorsUpTo(t, k - 1);
      var errs := ReceiptErrorsUpTo(t, k);
      assert errs[..|before|] == before;
      assert errs[..|ReceiptEntryErrors(t)|] == before[..|ReceiptEntryErrors(t)|];
    }
  }

  /** One error after the entry checks for each misfiled receipt after the first posting. */
  lemma {:induction false} ReceiptErrorsCount(t: Transaction, k: nat)
    requires k <= |t.postings|
    ensures |ReceiptErrorsUpTo(t, k)| == |ReceiptEntryErrors(t)| + |MisfiledBefore(t.postings, k)|
  {
    if k > 1 {
      ReceiptErrorsCount(t, k - 1);
    }
  }

  /**
   * Each entry check's error appears exactly when that check fails, and the
   * tag error comes first.
   */
  lemma ReceiptEntryChecks(t: Transaction)
    ensures forall e :: e in ReceiptErrors(t) ==> e.kind == ReceiptTransactionError && e.subject == OfEntry
    ensures TagMissingError in ReceiptErrors(t) <==> Valuables !in t.tags
    ensures MetadataMissingError in ReceiptErrors(t) <==> !AnyPostingHasMetadataKey(t.postings, Receipt)
    ensures Valuables !in t.tags ==> ReceiptErrors(t)[0] == TagMissingError
  {
    var errs, entry := ReceiptErrors(t), ReceiptEntryErrors(t);
    ReceiptErrorsLayout(t, |t.postings|);
    assert errs == entry + errs[|entry|..];
    forall e | e in errs ensures e in entry || e == MisfiledReceiptError {
      var j :| 0 <= j < |errs| && errs[j] == e;
      if j < |entry| {
        assert e == entry[j];
      }
    }
  }

  /**
   * The number of errors: the failed entry checks plus one for each misfiled
   * receipt after the first posting, so at most 2 + |postings| - 1.
   */
  lemma ReceiptErrorsBound(t: Transaction)
    ensures |ReceiptErrors(t)| == (if Valuables !in t.tags then 1 else 0)
                                  + (if AnyPostingHasMetadataKey(t.postings, Receipt) then 0 else 1)
                                  + |MisfiledBefore(t.postings, |t.postings|)|
    ensures |ReceiptErrors(t)| <= 2 + (if |t.postings| == 0 then 0 else |t.postings| - 1)
  {
    ReceiptErrorsCount(t, |t.postings|);
  }

  /** `validate_receipt_transaction(entry)`, appending to `errors` step by step. */
  method ValidateReceiptTransaction(t: Transaction) returns (errors: seq<ValidationError>)
    ensures errors == ReceiptErrors(t)
  {
    errors := [];
    if Valuables !in t.tags {
      errors := errors + [TagMissingError];
    }
    if !AnyPostingHasMetadataKey(t.postings, Receipt) {
      errors := errors + [MetadataMissingError];
    }
    assert errors == ReceiptEntryErrors(t);
    if |t.postings| == 0 {
      return;
    }
    var i := 1;
    while i < |t.postings|
      invariant 1 <= i <= |t.postings|
      invariant errors == ReceiptErrorsUpTo(t, i)
    {
      var posting := t.postings[i];
      if MisfiledReceipt(posting) {
        errors := errors + [MisfiledReceiptError];
      }
      i := i + 1;
    }
  }
}
