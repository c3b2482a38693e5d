/**
 * Transfer transactions (validate_transactions/utils/transfer_transactions.py;
 * the older check_transfer_transaction in validate_transactions.py applies the
 * same table and checks and differs only in the error kind it reports).
 */
module TransferTransactions {
  import opened Accounts
  import opened Ledger
  import opened Common

  /** What one transfer tag requires of the transaction. */
  datatype TransferType = TransferType(payee: string, narrationPrefix: string, account: string)

  const ToKeys: set<string> := {"transfer-to-self", "transfer-to-francis", "transfer-to-leyna", "transfer-to-shared"}
  const FromKeys: set<string> := {"transfer-from-self", "transfer-from-francis", "transfer-from-leyna", "transfer-from-shared"}

  /** The eight transfer kinds, for the file's party. */
  function TransferTypes(party: string): (types: map<string, TransferType>)
    ensures types.Keys == ToKeys + FromKeys
  {
    map[
      "transfer-to-self" := TransferType("Self", "Transfer to self: ", "Assets:" + party + ":Transfers:Self"),
      "transfer-to-francis" := TransferType("Francis", "Transfer to Francis: ", "Assets:Francis:Transfers:From" + party),
      "transfer-to-leyna" := TransferType("Leyna", "Transfer to Leyna: ", "Assets:Leyna:Transfers:From" + party),
      "transfer-to-shared" := TransferType("Shared", "Transfer to Shared: ", "Assets:Shared:Transfers:From" + party),
      "transfer-from-self" := TransferType("Self", "Transfer from self: ", "Assets:" + party + ":Transfers:Self"),
      "transfer-from-francis" := TransferType("Francis", "Transfer from Francis: ", "Assets:" + party + ":Transfers:FromFrancis"),
      "transfer-from-leyna" := TransferType("Leyna", "Transfer from Leyna: ", "Assets:" + party + ":Transfers:FromLeyna"),
      "transfer-from-shared" := TransferType("Shared", "Transfer from Shared: ", "Assets:" + party + ":Transfers:FromShared")
    ]
  }

  /** The package's `is_transfer_transaction`. */
  function IsTransferTransaction(t: Transaction): (r: bool)
    ensures r <==> (exists i :: 0 <= i < |t.tags| && StartsWith(t.tags[i], "transfer"))
                   || (exists j :: 0 <= j < |t.postings| && "Transfers" in Split(t.postings[j].account))
  {
    forall j | 0 <= j < |t.postings| ensures HasComponent(t.postings[j].account, "Transfers") <==> "Transfers" in Split(t.postings[j].account) {
      HasSingleComponent(t.postings[j].account, "Transfers");
    }
    AnyTagStartsWith(t.tags, "transfer") || HasEntryAccountComponent(t.postings, "Transfers")
  }

  /** The validator indexes the first two postings once the tag is a known transfer tag. */
  predicate TransferReady(t: Transaction, party: string)
  {
    |t.tags| == 1 && t.tags[0] in TransferTypes(party) ==> |t.postings| >= 2
  }

  /** A "to" key names no "from". */
  lemma ToKeyDirection(who: string)
    requires 'm' !in who
    ensures !Contains("transfer-to-" + who, "from") && Contains("transfer-to-" + who, "to")
  {
    var key := "transfer-to-" + who;
    assert 'm' !in key;
    NotContainsMissingChar(key, "from", 'm');
    assert OccursAt(key, "to", 9);
  }

  /** A "from" key names no "to". */
  lemma FromKeyDirection(who: string)
    requires 't' !in who
    ensures Contains("transfer-from-" + who, "from") && !Contains("transfer-from-" + who, "to")
  {
    var key := "transfer-from-" + who;
    assert OccursAt(key, "from", 9);
    assert key[1] == 'r';
    assert 't' !in key[1..] by {
      assert key[1..] == "ransfer-from-" + who;
    }
    NotContainsPair(key, "to");
  }

  /** Which direction each key is, by the substring tests `"from" in key` and `"to" in key`. */
  lemma KeyDirections(key: string)
    requires key in ToKeys + FromKeys
    ensures Contains(key, "from") <==> key in FromKeys
    ensures Contains(key, "to") <==> key in ToKeys
  {
    if key == "transfer-to-self" {
      assert key == "transfer-to-" + "self";
      ToKeyDirection("self");
    } else if key == "transfer-to-francis" {
      assert key == "transfer-to-" + "francis";
      ToKeyDirection("francis");
    } else if key == "transfer-to-leyna" {
      assert key == "transfer-to-" + "leyna";
      ToKeyDirection("leyna");
    } else if key == "transfer-to-shared" {
      assert key == "transfer-to-" + "shared";
      ToKeyDirection("shared");
    } else if key == "transfer-from-self" {
      assert key == "transfer-from-" + "self";
      FromKeyDirection("self");
    } else if key == "transfer-from-francis" {
      assert key == "transfer-from-" + "francis";
      FromKeyDirection("francis");
    } else if key == "transfer-from-leyna" {
      assert key == "transfer-from-" + "leyna";
      FromKeyDirection("leyna");
    } else {
      assert key == "transfer-from-" + "shared";
      FromKeyDirection("shared");
    }
  }

  /** The errors of the three checks on the entry as a whole, given which of them fail. */
  function TransferEntryErrors(kind: ErrorKind, ty: TransferType, payee: bool, narration: bool, count: bool)
    : (errs: seq<ValidationError>)
    ensures forall e :: e in errs ==> e.kind == kind && e.subject == OfEntry
    ensures ValidationError(kind, PayeeMustBe(ty.payee), OfEntry) in errs <==> payee
    ensures ValidationError(kind, NarrationMustStartWith(ty.narrationPrefix), OfEntry) in errs <==> narration
    ensures ValidationError(kind, TransferNeedsTwoPostings, OfEntry) in errs <==> count
    ensures |errs| == (if payee then 1 else 0) + (if narration then 1 else 0) + (if count then 1 else 0)
  {
    When(payee, ValidationError(kind, PayeeMustBe(ty.payee), OfEntry))
    + When(narration, ValidationError(kind, NarrationMustStartWith(ty.narrationPrefix), OfEntry))
    + When(count, ValidationError(kind, TransferNeedsTwoPostings, OfEntry))
  }

  /** The entry checks report in their order, before any posting check. */
  lemma TransferEntryErrorsInOrder(kind: ErrorKind, ty: TransferType, payee: bool, narration: bool, count: bool)
    ensures InCheckOrder(TransferEntryErrors(kind, ty, payee, narration, count))
    ensures forall e :: e in TransferEntryErrors(kind, ty, payee, narration, count) ==> CheckRank(e.message) <= 2
  {
    var errs := TransferEntryErrors(kind, ty, payee, narration, count);
    forall i, j | 0 <= i < j < |errs| ensures CheckRank(errs[i].message) < CheckRank(errs[j].message) {
    }
  }

  /** The errors of the three checks on the postings, given which of them fail. */
  function TransferPostingErrors(kind: ErrorKind, ty: TransferType, second: bool, fromSign: bool, toSign: bool)
    : (errs: seq<ValidationError>)
    ensures forall e :: e in errs ==> e.kind == kind && e.subject.OfPosting?
    ensures forall e :: e in errs && e.subject == OfPosting(0) ==>
                         e.message == FirstAmountMustBePositive || e.message == FirstAmountMustBeNegative
    ensures ValidationError(kind, SecondPostingMustBeTo(ty.account), OfPosting(1)) in errs <==> second
    ensures ValidationError(kind, FirstAmountMustBePositive, OfPosting(0)) in errs <==> fromSign
    ensures ValidationError(kind, FirstAmountMustBeNegative, OfPosting(0)) in errs <==> toSign
    ensures |errs| == (if second then 1 else 0) + (if fromSign then 1 else 0) + (if toSign then 1 else 0)
  {
    When(second, ValidationError(kind, SecondPostingMustBeTo(ty.account), OfPosting(1)))
    + When(fromSign, ValidationError(kind, FirstAmountMustBePositive, OfPosting(0)))
    + When(toSign, ValidationError(kind, FirstAmountMustBeNegative, OfPosting(0)))
  }

  /** The posting checks report in their order, after every entry check. */
  lemma TransferPostingErrorsInOrder(kind: ErrorKind, ty: TransferType, second: bool, fromSign: bool, toSign: bool)
    ensures InCheckOrder(TransferPostingErrors(kind, ty, second, fromSign, toSign))
    ensures forall e :: e in TransferPostingErrors(kind, ty, second, fromSign, toSign) ==> CheckRank(e.message) >= 3
  {
    var errs := TransferPostingErrors(kind, ty, second, fromSign, toSign);
    forall i, j | 0 <= i < j < |errs| ensures CheckRank(errs[i].message) < CheckRank(errs[j].message) {
    }
  }

  /**
   * The checks made once the tag is a known transfer kind `key`: each adds its
   * own error, independently of the others and in a fixed order, and the
   * direction of the key allows at most one of the two sign errors.
   */
  function TransferChecks(t: Transaction, key: string, ty: TransferType, kind: ErrorKind): (errs: seq<ValidationError>)
    requires |t.postings| >= 2 && key in ToKeys + FromKeys
    ensures forall e :: e in errs ==> e.kind == kind
    // only the sign checks point at the first posting
    ensures forall e :: e in errs && e.subject == OfPosting(0) ==>
                         e.message == FirstAmountMustBePositive || e.message == FirstAmountMustBeNegative
    ensures ValidationError(kind, PayeeMustBe(ty.payee), OfEntry) in errs <==> t.payee != Some(ty.payee)
    ensures ValidationError(kind, NarrationMustStartWith(ty.narrationPrefix), OfEntry) in errs <==>
              !StartsWith(t.narration, ty.narrationPrefix)
    ensures ValidationError(kind, TransferNeedsTwoPostings, OfEntry) in errs <==> |t.postings| != 2
    ensures ValidationError(kind, SecondPostingMustBeTo(ty.account), OfPosting(1)) in errs <==>
              t.postings[1].account != ty.account
    ensures ValidationError(kind, FirstAmountMustBePositive, OfPosting(0)) in errs <==>
              key in FromKeys && t.postings[0].number < 0
    ensures ValidationError(kind, FirstAmountMustBeNegative, OfPosting(0)) in errs <==>
              key in ToKeys && t.postings[0].number > 0
    // one error per failed check, and no other
    ensures |errs| == (if t.payee != Some(ty.payee) then 1 else 0)
                      + (if !StartsWith(t.narration, ty.narrationPrefix) then 1 else 0)
                      + (if |t.postings| != 2 then 1 else 0)
                      + (if t.postings[1].account != ty.account then 1 else 0)
                      + (if key in FromKeys && t.postings[0].number < 0 then 1 else 0)
                      + (if key in ToKeys && t.postings[0].number > 0 then 1 else 0)
    ensures |errs| <= 5
  {
    KeyDirections(key);
    var entryErrors :=
      TransferEntryErrors(kind, ty, t.payee != Some(ty.payee), !StartsWith(t.narration, ty.narrationPrefix), |t.postings| != 2);
    var postingErrors :=
      TransferPostingErrors(kind, ty, t.postings[1].account != ty.account,
                            Contains(key, "from") && t.postings[0].number < 0,
                            Contains(key, "to") && t.postings[0].number > 0);
    entryErrors + postingErrors
  }

  /** The checks of a known transfer kind report in the order they are made. */
  lemma TransferChecksInOrder(t: Transaction, key: string, ty: TransferType, kind: ErrorKind)
    requires |t.postings| >= 2 && key in ToKeys + FromKeys
    ensures InCheckOrder(TransferChecks(t, key, ty, kind))
  {
    var payee, narration, count := t.payee != Some(ty.payee), !StartsWith(t.narration, ty.narrationPrefix), |t.postings| != 2;
    var second := t.postings[1].account != ty.account;
    var fromSign, toSign := Contains(key, "from") && t.postings[0].number < 0, Contains(key, "to") && t.postings[0].number > 0;
    TransferEntryErrorsInOrder(kind, ty, payee, narration, count);
    TransferPostingErrorsInOrder(kind, ty, second, fromSign, toSign);
    ConcatInCheckOrder(TransferEntryErrors(kind, ty, payee, narration, count),
                       TransferPostingErrors(kind, ty, second, fromSign, toSign));
  }

  /**
   * `validate_transfer_transaction(entry, party)`; `kind` is the error type the
   * variant reports (TransferTransactionError in the package,
   * InvalidTransferTransaction in the older plugin).
   */
  function ValidateTransfer(t: Transaction, party: string, kind: ErrorKind): (errs: seq<ValidationError>)
    requires TransferReady(t, party)
    // a tag set that is not a single tag: exactly one error, nothing else is checked
    ensures |t.tags| != 1 ==> errs == [ValidationError(kind, TransferNeedsOneTag, OfEntry)]
    // a single tag that is not one of the eight kinds: exactly one error naming it
    ensures |t.tags| == 1 && t.tags[0] !in TransferTypes(party) ==>
              errs == [ValidationError(kind, InvalidTransferTag(t.tags[0]), OfEntry)]
    // a known kind: the independent checks of that kind
    ensures |t.tags| == 1 && t.tags[0] in TransferTypes(party) ==>
              errs == TransferChecks(t, t.tags[0], TransferTypes(party)[t.tags[0]], kind)
    ensures 1 <= |errs| || (|t.tags| == 1 && t.tags[0] in TransferTypes(party))
  {
    var types := TransferTypes(party);
    if |t.tags| != 1 then [ValidationError(kind, TransferNeedsOneTag, OfEntry)]
    else
      var key := t.tags[0];
      if key !in types then [ValidationError(kind, InvalidTransferTag(key), OfEntry)]
      else TransferChecks(t, key, types[key], kind)
  }

  /** A zero first amount is never flagged, whatever the direction. */
  lemma ZeroAmountNeverFlagged(t: Transaction, party: string, kind: ErrorKind)
    requires TransferReady(t, party)
    requires |t.postings| >= 1 && t.postings[0].number == 0
    ensures forall e :: e in ValidateTransfer(t, party, kind) ==> e.subject != OfPosting(0)
  {
  }
}
