/**
 * Journal opening-balance transactions
 * (validate_transactions/utils/opening_balance_transactions.py).
 */
module OpeningBalanceTransactions {
  import opened Accounts
  import opened Ledger

  /** `"opening-balance" in entry.tags`. */
  predicate IsOpeningBalanceTransaction(t: Transaction)
  {
    "opening-balance" in t.tags
  }

  /** The component the second posting's account must have. */
  const OpeningBalances := "OpeningBalances"

  /** The four checks' errors, given which of them fail. */
  function OpeningBalanceChecks(tagCount: bool, postingCount: bool, notEquity: bool, noOpeningBalances: bool)
    : (errs: seq<ValidationError>)
    ensures forall e :: e in errs ==> e.kind == OpeningBalanceTransactionError && e.subject == OfEntry
    ensures ValidationError(OpeningBalanceTransactionError, OpeningBalanceNeedsOneTag, OfEntry) in errs <==> tagCount
    ensures ValidationError(OpeningBalanceTransactionError, OpeningBalanceNeedsTwoPostings, OfEntry) in errs <==> postingCount
    ensures ValidationError(OpeningBalanceTransactionError, EquityMustBeSecondPosting, OfEntry) in errs <==> notEquity
    ensures ValidationError(OpeningBalanceTransactionError, SecondPostingNeedsOpeningBalances, OfEntry) in errs <==>
              noOpeningBalances
    ensures errs == [] <==> !tagCount && !postingCount && !notEquity && !noOpeningBalances
    // one error per failed check, and no other
    ensures |errs| == (if tagCount then 1 else 0) + (if postingCount then 1 else 0)
                      + (if notEquity then 1 else 0) + (if noOpeningBalances then 1 else 0)
  {
    var kind := OpeningBalanceTransactionError;
    When(tagCount, ValidationError(kind, OpeningBalanceNeedsOneTag, OfEntry))
    + When(postingCount, ValidationError(kind, OpeningBalanceNeedsTwoPostings, OfEntry))
    + When(notEquity, ValidationError(kind, EquityMustBeSecondPosting, OfEntry))
    + When(noOpeningBalances, ValidationError(kind, SecondPostingNeedsOpeningBalances, OfEntry))
  }

  /** The four checks report in the order they are made. */
  lemma OpeningBalanceChecksInOrder(tagCount: bool, postingCount: bool, notEquity: bool, noOpeningBalances: bool)
    ensures InCheckOrder(OpeningBalanceChecks(tagCount, postingCount, notEquity, noOpeningBalances))
  {
    var errs := OpeningBalanceChecks(tagCount, postingCount, notEquity, noOpeningBalances);
    forall i, j | 0 <= i < j < |errs| ensures CheckRank(errs[i].message) < CheckRank(errs[j].message) {
    }
  }

  /** `account.root(1, name) == "Equity"` holds exactly when the first component is "Equity". */
  lemma RootOneIsEquity(name: AccountName)
    ensures Root(1, name) == "Equity" <==> Split(name)[0] == "Equity"
  {
    var r := Root(1, name);
    assert Split(r) == [Split(name)[0]];
    if Split(name)[0] == "Equity" {
      JoinSplit(r);
    } else {
      SplitSingle("Equity");
    }
  }

  /**
   * `validate_opening_balance_transaction(entry)`: four checks, each adding its
   * own error whatever the others found, in a fixed order.
   */
  function ValidateOpeningBalance(t: Transaction): (errs: seq<ValidationError>)
    // the third and fourth checks read the second posting
    requires |t.postings| >= 2
    ensures forall e :: e in errs ==> e.kind == OpeningBalanceTransactionError && e.subject == OfEntry
    ensures ValidationError(OpeningBalanceTransactionError, OpeningBalanceNeedsOneTag, OfEntry) in errs <==>
               |t.tags| != 1
    ensures ValidationError(OpeningBalanceTransactionError, OpeningBalanceNeedsTwoPostings, OfEntry) in errs <==>
               |t.postings| != 2
    ensures ValidationError(OpeningBalanceTransactionError, EquityMustBeSecondPosting, OfEntry) in errs <==>
               Split(t.postings[1].account)[0] != "Equity"
    ensures ValidationError(OpeningBalanceTransactionError, SecondPostingNeedsOpeningBalances, OfEntry) in errs <==>
               "OpeningBalances" !in Split(t.postings[1].account)
    ensures errs == [] <==> |t.tags| == 1 && |t.postings| == 2 && Split(t.postings[1].account)[0] == "Equity"
                            && "OpeningBalances" in Split(t.postings[1].account)
    // one error per failed check and no other, in the order of the checks
    ensures |errs| == (if |t.tags| != 1 then 1 else 0) + (if |t.postings| != 2 then 1 else 0)
                      + (if Split(t.postings[1].account)[0] != "Equity" then 1 else 0)
                      + (if "OpeningBalances" !in Split(t.postings[1].account) then 1 else 0)
    ensures InCheckOrder(errs)
  {
    var second := t.postings[1].account;
    var notEquity := Root(1, second) != "Equity";
    assert notEquity <==> Split(second)[0] != "Equity" by {
      RootOneIsEquity(second);
    }
    var noOpeningBalances := !HasComponent(second, OpeningBalances);
    assert noOpeningBalances <==> OpeningBalances !in Split(second) by {
      HasSingleComponent(second, OpeningBalances);
    }
    OpeningBalanceChecksInOrder(|t.tags| != 1, |t.postings| != 2, notEquity, noOpeningBalances);
    OpeningBalanceChecks(|t.tags| != 1, |t.postings| != 2, notEquity, noOpeningBalances)
  }

  /**
   * A well-formed opening balance: the one tag, two postings, and a second
   * posting to the party's Equity:<party>:OpeningBalances, reports nothing,
   * whatever the first posting and the party.
   */
  lemma WellFormedOpeningBalance(t: Transaction, party: string)
    requires t.tags == ["opening-balance"]
    requires |t.postings| == 2
    requires Split(t.postings[1].account) == ["Equity", party, OpeningBalances]
    ensures ValidateOpeningBalance(t) == []
  {
    assert OpeningBalances in Split(t.postings[1].account);
  }
}
