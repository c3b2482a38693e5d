/**
 * Default transactions: those that are neither transfers, owed, receipts nor
 * payslips (validate_transactions/utils/default_transactions.py).
 */
module DefaultTransactions {
  import opened Accounts
  import opened Ledger

  const Transfers := "Transfers"
  const Receipt := "receipt"

  const TransferAccountError := ValidationError(InvalidTransferTransaction, TransferAccountWithoutTags, OfEntry)
  const ValuablesError := ValidationError(InvalidValuablesTransaction, ReceiptNeedsValuablesTag, OfEntry)

  function OtherPartyError(party: string, i: nat): ValidationError
  {
    ValidationError(PostingToAnotherPartyError, PostingNotOwnedByParty(party), OfPosting(i))
  }

  /** `e` is an error the checks on the posting at index `i` report. */
  predicate ReportedAt(t: Transaction, party: string, i: nat, e: ValidationError)
    requires i < |t.postings|
  {
    (PartyOf(t.postings[i].account) != party && e == OtherPartyError(party, i))
    || (Receipt in t.postings[i].meta && e == ValuablesError)
  }

  /** The two checks made on the posting at index `i`, in their order. */
  function PostingChecks(t: Transaction, party: string, i: nat): (errs: seq<ValidationError>)
    requires i < |t.postings|
    ensures forall e :: e in errs <==> ReportedAt(t, party, i, e)
  {
    When(PartyOf(t.postings[i].account) != party, OtherPartyError(party, i))
    + When(Receipt in t.postings[i].meta, ValuablesError)
  }

  /** `errors` once the loop over `postings[1:]` has looked at the postings before index `k`. */
  function DefaultErrorsFrom(errors: seq<ValidationError>, t: Transaction, party: string, k: nat)
    : (errs: seq<ValidationError>)
    requires k <= |t.postings|
    ensures |errors| <= |errs| <= |errors| + 2 * (if k == 0 then 0 else k - 1)
  {
    if k <= 1 then errors
    else
      DefaultErrorsFrom(errors, t, party, k - 1)
      + When(PartyOf(t.postings[k - 1].account) != party, OtherPartyError(party, k - 1))
      + When(Receipt in t.postings[k - 1].meta, ValuablesError)
  }

  /** What `check_default_transaction(entry, party)` returns. */
  function DefaultErrors(t: Transaction, party: string): seq<ValidationError>
  {
    DefaultErrorsFrom(When(HasEntryAccountComponent(t.postings, Transfers), TransferAccountError), t, party, |t.postings|)
  }

  /**
   * The loop keeps the errors it started with, in front, and adds what the
   * checks on each later posting report.
   */
  lemma {:induction false} DefaultErrorsMembers(errors: seq<ValidationError>, t: Transaction, party: string, k: nat)
    requires k <= |t.postings|
    ensures DefaultErrorsFrom(errors, t, party, k)[..|errors|] == errors
    ensures forall e :: e in DefaultErrorsFrom(errors, t, party, k) <==>
                          e in errors || exists i :: 1 <= i < k && ReportedAt(t, party, i, e)
  {
    if k > 1 {
      DefaultErrorsMembers(errors, t, party, k - 1);
      var before := DefaultErrorsFrom(errors, t, party, k - 1);
      assert DefaultErrorsFrom(errors, t, party, k) == before + PostingChecks(t, party, k - 1);
      assert DefaultErrorsFrom(errors, t, party, k)[..|before|] == before;
    }
  }

  /**
   * The transfer-account error is reported exactly when a posting is to a
   * Transfers account, and first; a later posting's party error exactly when
   * it belongs to another party; the valuables error exactly when a later
   * posting's metadata holds "receipt".
   */
  lemma DefaultErrorsContents(t: Transaction, party: string)
    ensures TransferAccountError in DefaultErrors(t, party) <==> HasEntryAccountComponent(t.postings, Transfers)
    ensures HasEntryAccountComponent(t.postings, Transfers) ==> DefaultErrors(t, party)[0] == TransferAccountError
    ensures forall i: nat :: OtherPartyError(party, i) in DefaultErrors(t, party) <==>
                               1 <= i < |t.postings| && PartyOf(t.postings[i].account) != party
    ensures ValuablesError in DefaultErrors(t, party) <==>
              exists i :: 1 <= i < |t.postings| && Receipt in t.postings[i].meta
  {
    var first := When(HasEntryAccountComponent(t.postings, Transfers), TransferAccountError);
    DefaultErrorsMembers(first, t, party, |t.postings|);
    if HasEntryAccountComponent(t.postings, Transfers) {
      assert DefaultErrors(t, party)[..1] == [TransferAccountError];
    }
    forall i: nat | 1 <= i < |t.postings| && PartyOf(t.postings[i].account) != party
      ensures OtherPartyError(party, i) in DefaultErrors(t, party)
    {
      assert ReportedAt(t, party, i, OtherPartyError(party, i));
    }
    forall i | 1 <= i < |t.postings| && Receipt in t.postings[i].meta
      ensures ValuablesError in DefaultErrors(t, party)
    {
      assert ReportedAt(t, party, i, ValuablesError);
    }
  }

  /** How many of the later postings before index `k` belong to another party. */
  function ForeignBefore(t: Transaction, party: string, k: nat): nat
    requires k <= |t.postings|
  {
    if k <= 1 then 0
    else ForeignBefore(t, party, k - 1) + (if PartyOf(t.postings[k - 1].account) != party then 1 else 0)
  }

  /** How many of the later postings before index `k` hold "receipt" in their metadata. */
  function ReceiptsBefore(t: Transaction, k: nat): nat
    requires k <= |t.postings|
  {
    if k <= 1 then 0
    else ReceiptsBefore(t, k - 1) + (if Receipt in t.postings[k - 1].meta then 1 else 0)
  }

  /**
   * The loop adds one error per foreign later posting and one valuables error
   * per later posting holding a receipt.
   */
  lemma {:induction false} DefaultErrorsTally(errors: seq<ValidationError>, t: Transaction, party: string, k: nat)
    requires k <= |t.postings|
    ensures |DefaultErrorsFrom(errors, t, party, k)| == |errors| + ForeignBefore(t, party, k) + ReceiptsBefore(t, k)
    ensures multiset(DefaultErrorsFrom(errors, t, party, k))[ValuablesError]
            == multiset(errors)[ValuablesError] + ReceiptsBefore(t, k)
  {
    if k > 1 {
      DefaultErrorsTally(errors, t, party, k - 1);
      var before := DefaultErrorsFrom(errors, t, party, k - 1);
      var foreign := When(PartyOf(t.postings[k - 1].account) != party, OtherPartyError(party, k - 1));
      var valuables := When(Receipt in t.postings[k - 1].meta, ValuablesError);
      assert DefaultErrorsFrom(errors, t, party, k) == before + foreign + valuables;
      assert multiset(foreign)[ValuablesError] == 0;
      assert multiset(valuables)[ValuablesError] == |valuables|;
    }
  }

  /** The checks on posting `i` come as one block right after those on the postings before it. */
  lemma {:induction false} DefaultErrorsBlock(errors: seq<ValidationError>, t: Transaction, party: string, i: nat, k: nat)
    requires 1 <= i < k <= |t.postings|
    ensures DefaultErrorsFrom(errors, t, party, i) + PostingChecks(t, party, i) <= DefaultErrorsFrom(errors, t, party, k)
  {
    var before := DefaultErrorsFrom(errors, t, party, k - 1);
    assert DefaultErrorsFrom(errors, t, party, k) == before + PostingChecks(t, party, k - 1);
    if i < k - 1 {
      DefaultErrorsBlock(errors, t, party, i, k - 1);
      assert before <= DefaultErrorsFrom(errors, t, party, k);
    }
  }

  /**
   * Where the checks on posting `i` start in the result: after the transfer
   * error, if any, and the errors reported for the later postings before `i`.
   */
  function BlockStart(t: Transaction, party: string, i: nat): nat
    requires i <= |t.postings|
  {
    (if HasEntryAccountComponent(t.postings, Transfers) then 1 else 0) + ForeignBefore(t, party, i) + ReceiptsBefore(t, i)
  }

  /** The checks on posting `i` fill the result from `BlockStart(i)` up to `BlockStart(i + 1)`. */
  lemma DefaultErrorsBlockAt(t: Transaction, party: string, i: nat)
    requires 1 <= i < |t.postings|
    ensures BlockStart(t, party, i) <= BlockStart(t, party, i + 1) <= |DefaultErrors(t, party)|
    ensures DefaultErrors(t, party)[BlockStart(t, party, i)..BlockStart(t, party, i + 1)] == PostingChecks(t, party, i)
  {
    var first := When(HasEntryAccountComponent(t.postings, Transfers), TransferAccountError);
    var errs := DefaultErrorsFrom(first, t, party, |t.postings|);
    assert errs == DefaultErrors(t, party);
    DefaultErrorsTally(first, t, party, i);
    DefaultErrorsBlock(first, t, party, i, |t.postings|);
    var prior := DefaultErrorsFrom(first, t, party, i);
    var block := prior + PostingChecks(t, party, i);
    assert |prior| == BlockStart(t, party, i);
    assert |block| == BlockStart(t, party, i + 1);
    assert errs[..|block|] == block;
    assert errs[|prior|..|block|] == block[|prior|..] == PostingChecks(t, party, i);
  }

  /**
   * As many valuables errors as later postings holding a receipt, and in all
   * the transfer-account error, if any, plus one error per foreign later
   * posting and one per later posting holding a receipt.
   */
  lemma DefaultErrorsCount(t: Transaction, party: string)
    ensures multiset(DefaultErrors(t, party))[ValuablesError] == ReceiptsBefore(t, |t.postings|)
    ensures |DefaultErrors(t, party)| == BlockStart(t, party, |t.postings|)
  {
    var first := When(HasEntryAccountComponent(t.postings, Transfers), TransferAccountError);
    DefaultErrorsTally(first, t, party, |t.postings|);
    assert multiset(first)[ValuablesError] == 0;
  }

  /**
   * Nothing is reported exactly when no posting is to a Transfers account and
   * every later posting is the party's own and holds no receipt.
   */
  lemma DefaultErrorsEmpty(t: Transaction, party: string)
    ensures DefaultErrors(t, party) == [] <==>
              !HasEntryAccountComponent(t.postings, Transfers)
              && forall i :: 1 <= i < |t.postings| ==>
                               !ReportedAt(t, party, i, OtherPartyError(party, i)) && !ReportedAt(t, party, i, ValuablesError)
  {
    var errs := DefaultErrors(t, party);
    DefaultErrorsMembers(When(HasEntryAccountComponent(t.postings, Transfers), TransferAccountError), t, party, |t.postings|);
    if errs != [] {
      assert errs[0] in errs;
    } else {
      forall i | 1 <= i < |t.postings|
        ensures !ReportedAt(t, party, i, OtherPartyError(party, i)) && !ReportedAt(t, party, i, ValuablesError)
      {
        assert OtherPartyError(party, i) !in errs && ValuablesError !in errs;
      }
    }
  }

  /** `check_default_transaction(entry, party)`, with its loop over the later postings. */
  method CheckDefaultTransaction(t: Transaction, party: string) returns (errors: seq<ValidationError>)
    ensures errors == DefaultErrors(t, party)
  {
    errors := [];
    if HasEntryAccountComponent(t.postings, Transfers) {
      errors := errors + [TransferAccountError];
    }
    assert errors == When(HasEntryAccountComponent(t.postings, Transfers), TransferAccountError);
    errors := CheckLaterPostings(t, party, errors);
  }

  /** The loop over `postings[1:]`, extending `errors` with what the checks on each posting report. */
  method CheckLaterPostings(t: Transaction, party: string, base: seq<ValidationError>) returns (errors: seq<ValidationError>)
    ensures errors == DefaultErrorsFrom(base, t, party, |t.postings|)
  {
    errors := base;
    if |t.postings| == 0 {
      return;
    }
    var i := 1;
    while i < |t.postings|
      invariant 1 <= i <= |t.postings|
      invariant errors == DefaultErrorsFrom(base, t, party, i)
    {
      var posting := t.postings[i];
      ghost var before := errors;
      if PartyOf(posting.account) != party {
        errors := errors + [OtherPartyError(party, i)];
      }
      assert errors == before + When(PartyOf(posting.account) != party, OtherPartyError(party, i));
      if Receipt in posting.meta {
        errors := errors + [ValuablesError];
      }
      i := i + 1;
    }
  }
}
