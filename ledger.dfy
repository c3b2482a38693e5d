/**
 * The ledger entries the plugins receive from beancount's loader, and the
 * validation errors they return.
 *
 * Entries are values: the loader has already parsed the ledger, and the
 * validators only read them (the one in-place change, the removal of a
 * balance assertion's "statement" key, is modelled by the driver storing
 * the updated entry back into its list).
 */
module Ledger {
  import opened Accounts
  import opened Dates

  datatype Option<T> = None | Some(value: T)

  /** Python dictionaries of metadata; the loader's "filename" key is kept apart, as `filename`. */
  type Metadata = map<string, string>

  predicate NoDuplicates(tags: seq<string>)
  {
    forall i, j :: 0 <= i < j < |tags| ==> tags[i] != tags[j]
  }

  /** An entry's tag set (a frozenset), listed in its iteration order. */
  type TagList = tags: seq<string> | NoDuplicates(tags)

  /**
   * One leg of a transaction. Only the sign of the amount matters to the
   * validators, so `number` is an integer; `flag` is the optional one-character
   * posting flag.
   */
  datatype Posting = Posting(account: AccountName, number: int, flag: Option<string>, meta: Metadata)

  datatype Transaction = Transaction(
    filename: string,
    meta: Metadata,
    date: CalendarDate,
    payee: Option<string>,
    narration: string,
    tags: TagList,
    postings: seq<Posting>)

  /** The entry kinds the plugins look at; `Other` stands for open, close, note and the rest. */
  datatype Entry =
    | Txn(txn: Transaction)
    | Balance(filename: string, meta: Metadata, date: CalendarDate, account: AccountName)
    | Custom(filename: string, meta: Metadata, customType: string, values: seq<string>)
    | Document(filename: string, date: CalendarDate, account: AccountName, path: string, docTags: set<string>)
    | Other(filename: string)
  {
    /** `entry.meta["filename"]`. */
    function Filename(): string
    {
      match this
      case Txn(t) => t.filename
      case Balance(f, _, _, _) => f
      case Custom(f, _, _, _) => f
      case Document(f, _, _, _, _) => f
      case Other(f) => f
    }
  }

  /**
   * The error namedtuples of both plugin variants. JournalError,
   * InvalidTransferTransaction and InvalidValuablesTransaction are imported by
   * the package but not defined in its errors module; they are added here.
   */
  datatype ErrorKind =
    | MissingJournalAccountName
    | FirstPostingIsNotToSpecifiedAccountError
    | PostingToAnotherPartyError
    | InvalidTransferTransaction
    | InvalidOwedTransaction
    | InvalidValuablesTransaction
    | OpeningBalanceTransactionError
    | BalanceAssertionError
    | TransferTransactionError
    | ReceiptTransactionError
    | PayslipTransactionError
    | OwedTransactionError
    | FileNotFoundError
    | JournalError

  /** What an error's `source` and `entry` fields point at: the entry itself or one of its postings. */
  datatype Subject = OfEntry | OfPosting(index: nat)

  /**
   * The messages the validators attach, one constructor per message template;
   * `Text` gives the exact text Python formats.
   */
  datatype Message =
    // validate_transactions.py
    | JournalAccountNameMissing
    | FirstPostingShouldBeTo(account: string)
    | ExpectedExpenseAccountForOwedParty(prefix: string)
    | PostingNotOwnedByParty(party: string)
    | PostingNotOwnedByPartyOrOwedExpense(party: string, prefixes: seq<string>)
    // validate_transactions/validate_transactions.py
    | JournalPartyAndAccountMissing
    // transfer checks, both variants
    | TransferNeedsOneTag
    | InvalidTransferTag(tag: string)
    | PayeeMustBe(payee: string)
    | NarrationMustStartWith(prefix: string)
    | TransferNeedsTwoPostings
    | SecondPostingMustBeTo(account: string)
    | FirstAmountMustBePositive
    | FirstAmountMustBeNegative
    // owed checks
    | InvalidOwedTag(tag: string)
    | OwedTagMustBeForAnotherParty
    | ExpectedPostingWithPrefix(prefixes: seq<string>)
    | PostingNotOwnedByPartyOrOwedAccount(party: string, prefixes: seq<string>)
    // default checks
    | TransferAccountWithoutTags
    | ReceiptNeedsValuablesTag
    // opening balance checks
    | OpeningBalanceNeedsOneTag
    | OpeningBalanceNeedsTwoPostings
    | EquityMustBeSecondPosting
    | SecondPostingNeedsOpeningBalances
    // receipt and payslip checks
    | ReceiptTagMissing
    | ReceiptMetadataMissing
    | ReceiptPostingMustBeExpense
    | PayslipTagMissing
    | PayslipMetadataMissing
    // balance assertions
    | StatementMetadataMissing
    | StatementFileMisnamed(expected: string)

  /** A Python list of strings as `str(list)` prints it (for strings without quotes or backslashes). */
  function ListRepr(items: seq<string>): string
  {
    "[" + QuotedItems(items) + "]"
  }

  function QuotedItems(items: seq<string>): string
  {
    if |items| == 0 then ""
    else if |items| == 1 then "'" + items[0] + "'"
    else "'" + items[0] + "', " + QuotedItems(items[1..])
  }

  /** The message text the source formats. */
  function Text(m: Message): string
  {
    match m
    case JournalAccountNameMissing =>
      "Journal account name must be specified before transactions using the custom directive"
    case FirstPostingShouldBeTo(account) => "The first posting should be to the account: " + account
    case ExpectedExpenseAccountForOwedParty(prefix) =>
      "Expected an expense account for the party that is owed: " + prefix
    case PostingNotOwnedByParty(party) =>
      "Posting to an account that does not belong to the party: " + party
        + ". If this was intentional, please use the appropriate tags"
    case PostingNotOwnedByPartyOrOwedExpense(party, prefixes) =>
      "Posting to an account that does not belong to the party: " + party
        + ", or to any of the owed party's expense accounts: " + ListRepr(prefixes)
        + ". If this was intentional, please use the appropriate tags."
    case JournalPartyAndAccountMissing =>
      "Journal party and account must be specified before all following transactions using custom directive"
    case TransferNeedsOneTag => "Transfer transaction must have exactly one tag"
    case InvalidTransferTag(tag) => "Invalid transfer tag: " + tag
    case PayeeMustBe(payee) => "Payee must be " + payee
    case NarrationMustStartWith(prefix) => "Narration must start with " + prefix
    case TransferNeedsTwoPostings => "Transfer transaction must have exactly two postings"
    case SecondPostingMustBeTo(account) => "Second posting must be to: " + account
    case FirstAmountMustBePositive => "First posting amount must be positive for transfer from"
    case FirstAmountMustBeNegative => "First posting amount must be negative for transfer to"
    case InvalidOwedTag(tag) => "Invalid owed tag: " + tag
    case OwedTagMustBeForAnotherParty => "Owed tag must be for another party"
    case ExpectedPostingWithPrefix(prefixes) =>
      "Expected at least one posting to an account starting with: " + ListRepr(prefixes)
    case PostingNotOwnedByPartyOrOwedAccount(party, prefixes) =>
      "Posting to an account that does not belong to the party: " + party
        + ", or to any of the owed parties' allowed accounts: " + ListRepr(prefixes)
        + ". If this was intentional, please use the appropriate tags."
    case TransferAccountWithoutTags => "Missing required tags for a transaction to a transfer account"
    case ReceiptNeedsValuablesTag => "Transactions with receipt metadata must have the 'valuables' tag"
    case OpeningBalanceNeedsOneTag => "Journal opening balance transaction must have exactly one tag"
    case OpeningBalanceNeedsTwoPostings => "Journal opening balance transaction must have exactly two postings"
    case EquityMustBeSecondPosting => "Equity account must be the second posting"
    case SecondPostingNeedsOpeningBalances => "Second posting account must have a component of OpeningBalances"
    case ReceiptTagMissing => "Missing required tag of 'receipt'"
    case ReceiptMetadataMissing => "Missing required metadata of 'receipt'"
    case ReceiptPostingMustBeExpense => "Transactions with receipt metadata must be to an expense account"
    case PayslipTagMissing => "Missing required tag of 'payslip'"
    case PayslipMetadataMissing => "Missing required metadata of 'payslip'"
    case StatementMetadataMissing => "Missing required metadata of 'statement'"
    case StatementFileMisnamed(expected) =>
      "Statement file must be date one month from the balance assertion date (" + expected
        + ".pdf), or a closing statement (_closing-statement.pdf)"
  }

  /** One reported error: its namedtuple type, its message and what it points at. */
  datatype ValidationError = ValidationError(kind: ErrorKind, message: Message, subject: Subject)

  /** `[e]` when the check fails (`c`), nothing otherwise: one `if ...: errors.append(e)`. */
  function When(c: bool, e: ValidationError): (errs: seq<ValidationError>)
    ensures |errs| == if c then 1 else 0
    ensures forall x :: x in errs <==> c && x == e
  {
    if c then [e] else []
  }

  /**
   * The position, within the validator that reports it, of the check that
   * reports `m`; messages of different validators never share a result list.
   */
  function CheckRank(m: Message): int
  {
    if m.PayeeMustBe? || m.OpeningBalanceNeedsOneTag? || m.PayslipTagMissing? then 0
    else if m.NarrationMustStartWith? || m.OpeningBalanceNeedsTwoPostings? || m.PayslipMetadataMissing? then 1
    else if m.TransferNeedsTwoPostings? || m.EquityMustBeSecondPosting? then 2
    else if m.SecondPostingMustBeTo? || m.SecondPostingNeedsOpeningBalances? then 3
    else if m.FirstAmountMustBePositive? then 4
    else if m.FirstAmountMustBeNegative? then 5
    else 6
  }

  /** The errors follow the order of the checks that report them, each check at most once. */
  predicate InCheckOrder(errs: seq<ValidationError>)
  {
    forall i, j :: 0 <= i < j < |errs| ==> CheckRank(errs[i].message) < CheckRank(errs[j].message)
  }

  /** Appending the results of later checks keeps the order. */
  lemma ConcatInCheckOrder(first: seq<ValidationError>, later: seq<ValidationError>)
    requires InCheckOrder(first) && InCheckOrder(later)
    requires forall x, y :: x in first && y in later ==> CheckRank(x.message) < CheckRank(y.message)
    ensures InCheckOrder(first + later)
  {
    var r := first + later;
    forall i, j | 0 <= i < j < |r| ensures CheckRank(r[i].message) < CheckRank(r[j].message) {
      if i < |first| && j >= |first| {
        assert r[i] in first && r[j] in later;
      } else if i >= |first| {
        assert r[i] == later[i - |first|] && r[j] == later[j - |first|];
      }
    }
  }

  /**
   * beancount's `data.has_entry_account_component`: some posting's account
   * has `component` (one or more components) at component boundaries.
   */
  predicate HasEntryAccountComponent(postings: seq<Posting>, component: string)
  {
    exists i :: 0 <= i < |postings| && HasComponent(postings[i].account, component)
  }

  /** Adding postings never removes a component that was already found. */
  lemma HasEntryAccountComponentMonotone(postings: seq<Posting>, more: seq<Posting>, component: string)
    requires HasEntryAccountComponent(postings, component)
    ensures HasEntryAccountComponent(postings + more, component)
    ensures HasEntryAccountComponent(more + postings, component)
  {
    var i :| 0 <= i < |postings| && HasComponent(postings[i].account, component);
    assert (postings + more)[i] == postings[i];
    assert (more + postings)[|more| + i] == postings[i];
  }
}
