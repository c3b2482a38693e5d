/**
 * The package plugin validate_transactions/validate_transactions.py: a
 * module-level map from journal file to its party and account, filled by
 * "initialise_journal_file" directives, then every matching category check on
 * each transaction, the balance-assertion check, and the document entries
 * appended to the caller's list.
 */
module PackageValidateTransactions {
  import opened Accounts
  import opened Dates
  import opened Ledger
  import opened BalanceAssertions
  import OpeningBalance = OpeningBalanceTransactions
  import Transfer = TransferTransactions
  import Owed = OwedTransactions
  import Receipt = ReceiptTransactions
  import Payslip = PayslipTransactions

  const TransfersFile := "transfers.beancount"
  const ExcludeTag := "exclude-entry-from-validation"
  const InitialiseDirective := "initialise_journal_file"

  /** `should_skip(entry)`: the transfers file, and transactions excluded by tag, are not validated. */
  predicate ShouldSkip(e: Entry)
  {
    EndsWith(e.Filename(), TransfersFile) || (e.Txn? && ExcludeTag in e.txn.tags)
  }

  /** The value `fileAccountMap` holds for a journal file. */
  datatype FileAccount = FileAccount(party: string, account: string)

  type FileAccounts = map<string, FileAccount>

  const JournalMissingError := ValidationError(JournalError, JournalPartyAndAccountMissing, OfEntry)

  /** `get_transaction_filename(entry)`: the file, and an error when the file has not been initialised. */
  function GetTransactionFilename(t: Transaction, fileAccounts: FileAccounts): (r: (string, Option<ValidationError>))
    ensures r.0 == t.filename
    ensures r.1.None? <==> t.filename in fileAccounts
    ensures r.1.Some? ==> r.1.value == JournalMissingError
  {
    (t.filename, if t.filename !in fileAccounts then Some(JournalMissingError) else None)
  }

  function FirstPostingError(account: string): ValidationError
  {
    ValidationError(FirstPostingIsNotToSpecifiedAccountError, FirstPostingShouldBeTo(account), OfEntry)
  }

  /** `validate_first_posting_account(entry, account)`. */
  function ValidateFirstPostingAccount(t: Transaction, account: string): (err: Option<ValidationError>)
    requires |t.postings| >= 1
    ensures err.None? <==> t.postings[0].account == account
    ensures err.Some? ==> err.value.kind == FirstPostingIsNotToSpecifiedAccountError
                          && err.value.message == FirstPostingShouldBeTo(account)
  {
    if t.postings[0].account != account then Some(FirstPostingError(account)) else None
  }

  // ---- one transaction ----

  /** What the category checks read of a transaction of a known file. */
  predicate TransactionReadable(t: Transaction, party: string)
  {
    |t.postings| >= 1
    && (OpeningBalance.IsOpeningBalanceTransaction(t) ==> |t.postings| >= 2)
    && (Transfer.IsTransferTransaction(t) ==> Transfer.TransferReady(t, party))
  }

  function OpeningBalanceBlock(t: Transaction): (errs: seq<ValidationError>)
    requires OpeningBalance.IsOpeningBalanceTransaction(t) ==> |t.postings| >= 2
    ensures forall e :: e in errs ==> Reports(OpeningBalanceCategory, e.kind)
  {
    if OpeningBalance.IsOpeningBalanceTransaction(t) then OpeningBalance.ValidateOpeningBalance(t) else []
  }

  function TransferBlock(t: Transaction, party: string): (errs: seq<ValidationError>)
    requires Transfer.IsTransferTransaction(t) ==> Transfer.TransferReady(t, party)
    ensures forall e :: e in errs ==> Reports(TransferCategory, e.kind)
  {
    if Transfer.IsTransferTransaction(t) then Transfer.ValidateTransfer(t, party, TransferTransactionError) else []
  }

  function OwedBlock(t: Transaction, party: string): (errs: seq<ValidationError>)
    ensures forall e :: e in errs ==> Reports(OwedCategory, e.kind)
  {
    Owed.OwedErrorKinds(t, party);
    if Owed.IsOwedTransaction(t, party) then Owed.OwedErrors(t, party) else []
  }

  function ReceiptBlock(t: Transaction): (errs: seq<ValidationError>)
    ensures forall e :: e in errs ==> Reports(ReceiptCategory, e.kind)
  {
    Receipt.ReceiptEntryChecks(t);
    if Receipt.IsReceiptTransaction(t) then Receipt.ReceiptErrors(t) else []
  }

  function PayslipBlock(t: Transaction): (errs: seq<ValidationError>)
    ensures forall e :: e in errs ==> Reports(PayslipCategory, e.kind)
  {
    if Payslip.IsPayslipTransaction(t) then Payslip.ValidatePayslip(t) else []
  }

  /** The five category checks, each run when the transaction is of its category, in a fixed order. */
  function CategoryErrors(t: Transaction, party: string): seq<ValidationError>
    requires TransactionReadable(t, party)
  {
    OpeningBalanceBlock(t) + TransferBlock(t, party) + OwedBlock(t, party) + ReceiptBlock(t) + PayslipBlock(t)
  }

  /** The errors of a transaction in an initialised file. */
  function TransactionErrors(t: Transaction, file: FileAccount): seq<ValidationError>
    requires TransactionReadable(t, file.party)
  {
    (if t.postings[0].account != file.account then [FirstPostingError(file.account)] else [])
    + CategoryErrors(t, file.party)
  }

  /** The transaction once for each of the receipt and payslip categories it is in. */
  function Queued(e: Entry): (queued: seq<Entry>)
    requires e.Txn?
    ensures |queued| == (if Receipt.IsReceiptTransaction(e.txn) then 1 else 0)
                        + (if Payslip.IsPayslipTransaction(e.txn) then 1 else 0)
    ensures forall q :: q in queued ==> q == e
  {
    (if Receipt.IsReceiptTransaction(e.txn) then [e] else [])
    + (if Payslip.IsPayslipTransaction(e.txn) then [e] else [])
  }

  // ---- each category's errors can be told apart by their kind ----

  datatype Category = OpeningBalanceCategory | TransferCategory | OwedCategory | ReceiptCategory | PayslipCategory

  /** The error kinds category `c`'s check reports. */
  function KindsOf(c: Category): set<ErrorKind>
  {
    match c
    case OpeningBalanceCategory => {OpeningBalanceTransactionError}
    case TransferCategory => {TransferTransactionError}
    case OwedCategory => {OwedTransactionError, PostingToAnotherPartyError}
    case ReceiptCategory => {ReceiptTransactionError}
    case PayslipCategory => {PayslipTransactionError}
  }

  predicate Reports(c: Category, kind: ErrorKind)
  {
    kind in KindsOf(c)
  }

  /** No two categories report the same kind. */
  lemma ReportedByOne(c1: Category, c2: Category, kind: ErrorKind)
    requires Reports(c1, kind) && Reports(c2, kind)
    ensures c1 == c2
  {
  }

  /** The errors of `errs` whose kind is in `kinds`, in their order. */
  function OfKinds(errs: seq<ValidationError>, kinds: set<ErrorKind>): (r: seq<ValidationError>)
    ensures |r| <= |errs|
  {
    if |errs| == 0 then []
    else (if errs[0].kind in kinds then [errs[0]] else []) + OfKinds(errs[1..], kinds)
  }

  /** The errors of `errs` that category `c` reports, in their order. */
  function OfCategory(errs: seq<ValidationError>, c: Category): seq<ValidationError>
  {
    OfKinds(errs, KindsOf(c))
  }

  lemma {:induction false} OfKindsConcat(a: seq<ValidationError>, b: seq<ValidationError>, kinds: set<ErrorKind>)
    ensures OfKinds(a + b, kinds) == OfKinds(a, kinds) + OfKinds(b, kinds)
  {
    if |a| == 0 {
      assert a + b == b;
    } else {
      var head := if a[0].kind in kinds then [a[0]] else [];
      assert (a + b)[0] == a[0] && (a + b)[1..] == a[1..] + b;
      OfKindsConcat(a[1..], b, kinds);
      calc {
        OfKinds(a + b, kinds);
        head + OfKinds(a[1..] + b, kinds);
        head + (OfKinds(a[1..], kinds) + OfKinds(b, kinds));
        (head + OfKinds(a[1..], kinds)) + OfKinds(b, kinds);
      }
    }
  }

  /** Keeping category `c` of errors all reported by `own` keeps all of them, or none when `c` is another. */
  lemma {:induction false} OfCategoryBlock(errs: seq<ValidationError>, own: Category, c: Category)
    requires forall e :: e in errs ==> Reports(own, e.kind)
    ensures OfCategory(errs, c) == if own == c then errs else []
  {
    if |errs| > 0 {
      assert errs[0] in errs;
      if Reports(c, errs[0].kind) {
        ReportedByOne(own, c, errs[0].kind);
      }
      OfCategoryBlock(errs[1..], own, c);
    }
  }

  /** The one of five blocks that category `c` stands for. */
  function Pick(a: seq<ValidationError>, b: seq<ValidationError>, o: seq<ValidationError>,
                r: seq<ValidationError>, p: seq<ValidationError>, c: Category): seq<ValidationError>
  {
    match c
    case OpeningBalanceCategory => a
    case TransferCategory => b
    case OwedCategory => o
    case ReceiptCategory => r
    case PayslipCategory => p
  }

  /** Keeping one category of five blocks, each reported by its own category, gives back that category's block. */
  lemma OfCategoryOfFive(a: seq<ValidationError>, b: seq<ValidationError>, o: seq<ValidationError>,
                         r: seq<ValidationError>, p: seq<ValidationError>, c: Category)
    requires forall e :: e in a ==> Reports(OpeningBalanceCategory, e.kind)
    requires forall e :: e in b ==> Reports(TransferCategory, e.kind)
    requires forall e :: e in o ==> Reports(OwedCategory, e.kind)
    requires forall e :: e in r ==> Reports(ReceiptCategory, e.kind)
    requires forall e :: e in p ==> Reports(PayslipCategory, e.kind)
    ensures OfCategory(a + b + o + r + p, c) == Pick(a, b, o, r, p, c)
  {
    OfKindsConcat(a, b, KindsOf(c));
    OfKindsConcat(a + b, o, KindsOf(c));
    OfKindsConcat(a + b + o, r, KindsOf(c));
    OfKindsConcat(a + b + o + r, p, KindsOf(c));
    OfCategoryBlock(a, OpeningBalanceCategory, c);
    OfCategoryBlock(b, TransferCategory, c);
    OfCategoryBlock(o, OwedCategory, c);
    OfCategoryBlock(r, ReceiptCategory, c);
    OfCategoryBlock(p, PayslipCategory, c);
  }

  /** The result of category `c`'s check on the transaction, or nothing when it is not in the category. */
  function Block(t: Transaction, party: string, c: Category): seq<ValidationError>
    requires TransactionReadable(t, party)
  {
    match c
    case OpeningBalanceCategory => OpeningBalanceBlock(t)
    case TransferCategory => TransferBlock(t, party)
    case OwedCategory => OwedBlock(t, party)
    case ReceiptCategory => ReceiptBlock(t)
    case PayslipCategory => PayslipBlock(t)
  }

  /**
   * A transaction's category errors are the results of the checks for the
   * categories it is in, one after the other: keeping the errors of one
   * category gives back exactly that check's result, or nothing when the
   * transaction is not in the category.
   */
  lemma CategoryErrorsByCategory(t: Transaction, party: string, c: Category)
    requires TransactionReadable(t, party)
    ensures OfCategory(CategoryErrors(t, party), c) == Block(t, party, c)
  {
    OfCategoryOfFive(OpeningBalanceBlock(t), TransferBlock(t, party), OwedBlock(t, party), ReceiptBlock(t), PayslipBlock(t), c);
  }

  /**
   * A first posting to another account adds exactly one error, in front,
   * and the category checks still run after it.
   */
  lemma FirstPostingCheckedOnce(t: Transaction, file: FileAccount)
    requires TransactionReadable(t, file.party)
    ensures t.postings[0].account != file.account ==>
              TransactionErrors(t, file)[0] == FirstPostingError(file.account)
              && TransactionErrors(t, file)[1..] == CategoryErrors(t, file.party)
    ensures t.postings[0].account == file.account ==> TransactionErrors(t, file) == CategoryErrors(t, file.party)
    ensures forall e | e in CategoryErrors(t, file.party) :: e.kind != FirstPostingIsNotToSpecifiedAccountError
  {
    var a, b, o, r, p := OpeningBalanceBlock(t), TransferBlock(t, file.party), OwedBlock(t, file.party), ReceiptBlock(t), PayslipBlock(t);
    NoFirstPostingKind(a, b, o, r, p);
  }

  /** Errors that the five categories report are never first-posting errors. */
  lemma NoFirstPostingKind(a: seq<ValidationError>, b: seq<ValidationError>, o: seq<ValidationError>,
                           r: seq<ValidationError>, p: seq<ValidationError>)
    requires forall e :: e in a ==> Reports(OpeningBalanceCategory, e.kind)
    requires forall e :: e in b ==> Reports(TransferCategory, e.kind)
    requires forall e :: e in o ==> Reports(OwedCategory, e.kind)
    requires forall e :: e in r ==> Reports(ReceiptCategory, e.kind)
    requires forall e :: e in p ==> Reports(PayslipCategory, e.kind)
    ensures forall e | e in a + b + o + r + p :: e.kind != FirstPostingIsNotToSpecifiedAccountError
  {
  }

  // ---- the loop over the entries ----

  predicate IsInitialiser(e: Entry)
  {
    e.Custom? && e.customType == InitialiseDirective
  }

  /** What the source reads of an entry whatever the map holds. */
  predicate EntryReadable(e: Entry)
  {
    !ShouldSkip(e) ==>
      (IsInitialiser(e) ==> |e.values| >= 2)
      && (e.Balance? && Statement in e.meta ==> HasNextMonth(e.date))
  }

  predicate EntriesReadable(entries: seq<Entry>, k: nat)
    requires k <= |entries|
  {
    forall i {:trigger EntryReadable(entries[i])} :: 0 <= i < k ==> EntryReadable(entries[i])
  }

  /** `fileAccountMap` after the entry: an initialiser stores its values under its file. */
  function Store(fileAccounts: FileAccounts, e: Entry): FileAccounts
    requires EntryReadable(e)
  {
    if !ShouldSkip(e) && IsInitialiser(e) then fileAccounts[e.filename := FileAccount(e.values[0], e.values[1])]
    else fileAccounts
  }

  /** `fileAccountMap` once the loop has handled `entries[..k]`, starting from `start`. */
  function FileAccountsAfter(entries: seq<Entry>, k: nat, start: FileAccounts): FileAccounts
    requires k <= |entries| && EntriesReadable(entries, k)
  {
    if k == 0 then start else Store(FileAccountsAfter(entries, k - 1, start), entries[k - 1])
  }

  /** What the source needs of the transaction at index `k`, given the map as it stands then. */
  predicate TransactionReadableAt(entries: seq<Entry>, k: nat, start: FileAccounts)
    requires k < |entries| && EntriesReadable(entries, k)
  {
    var e, fileAccounts := entries[k], FileAccountsAfter(entries, k, start);
    !ShouldSkip(e) && e.Txn? && e.txn.filename in fileAccounts ==>
      TransactionReadable(e.txn, fileAccounts[e.txn.filename].party)
  }

  /** What the source needs of the entries, given the map it starts from, to run without an exception. */
  predicate Processable(entries: seq<Entry>, start: FileAccounts)
  {
    EntriesReadable(entries, |entries|)
    && forall k :: 0 <= k < |entries| ==> TransactionReadableAt(entries, k, start)
  }

  /** The entry as it stands after the loop: a balance assertion loses a statement still to come. */
  function Checked(e: Entry, today: CalendarDate): (r: Entry)
    requires EntryReadable(e)
    ensures r.Filename() == e.Filename() && ShouldSkip(r) == ShouldSkip(e)
    ensures !e.Balance? ==> r == e
  {
    if e.Balance? && !ShouldSkip(e) then Balance(e.filename, ValidateBalanceAssertion(e.date, e.meta, today).meta, e.date, e.account) else e
  }

  /** `entries[..k]` after the loop has handled them. */
  function CheckedUpTo(entries: seq<Entry>, k: nat, today: CalendarDate): (r: seq<Entry>)
    requires k <= |entries| && EntriesReadable(entries, k)
    ensures |r| == k
  {
    if k == 0 then [] else CheckedUpTo(entries, k - 1, today) + [Checked(entries[k - 1], today)]
  }

  /** The loop's `errors` and `entries_with_documents`. */
  datatype Pass = Pass(errors: seq<ValidationError>, queue: seq<Entry>)

  /** `q` is `p` with more errors or queued entries after those of `p`. */
  predicate Extends(p: Pass, q: Pass)
  {
    p.errors <= q.errors && p.queue <= q.queue
  }

  lemma ExtendsTransitive(p: Pass, q: Pass, r: Pass)
    requires Extends(p, q) && Extends(q, r)
    ensures Extends(p, r)
  {
  }

  /** The loop's work on one entry, given the map as it stands before it. */
  function EntryPass(p: Pass, fileAccounts: FileAccounts, e: Entry, today: CalendarDate): (r: Pass)
    requires EntryReadable(e)
    requires !ShouldSkip(e) && e.Txn? && e.txn.filename in fileAccounts ==>
               TransactionReadable(e.txn, fileAccounts[e.txn.filename].party)
    // errors and queued entries are only ever appended
    ensures Extends(p, r)
    // a skipped entry leaves no trace
    ensures ShouldSkip(e) ==> r == p
  {
    if ShouldSkip(e) then p
    else if e.Balance? then
      Pass(p.errors + ValidateBalanceAssertion(e.date, e.meta, today).errors, p.queue + [Checked(e, today)])
    else if e.Txn? then
      if e.txn.filename !in fileAccounts then Pass(p.errors + [JournalMissingError], p.queue)
      else Pass(p.errors + TransactionErrors(e.txn, fileAccounts[e.txn.filename]), p.queue + Queued(e))
    else p
  }

  /** The loop's `errors` and `entries_with_documents` once it has handled `entries[..k]`. */
  function PassUpTo(entries: seq<Entry>, k: nat, start: FileAccounts, today: CalendarDate): Pass
    requires k <= |entries| && Processable(entries, start)
  {
    if k == 0 then Pass([], [])
    else
      assert TransactionReadableAt(entries, k - 1, start);
      EntryPass(PassUpTo(entries, k - 1, start, today), FileAccountsAfter(entries, k - 1, start), entries[k - 1], today)
  }

  // ---- what the loop over the entries keeps ----

  /** The entry is an initialiser the loop acts on, for file `f`. */
  predicate InitialisesFile(e: Entry, f: string)
  {
    IsInitialiser(e) && !ShouldSkip(e) && e.filename == f
  }

  /** A file is in the map exactly when it was before, or an initialiser the loop acted on names it. */
  lemma {:induction false} FileAccountsKnown(entries: seq<Entry>, k: nat, start: FileAccounts, f: string)
    requires k <= |entries| && EntriesReadable(entries, k)
    ensures f in FileAccountsAfter(entries, k, start) <==>
              f in start || exists i :: 0 <= i < k && InitialisesFile(entries[i], f)
  {
    if k > 0 {
      FileAccountsKnown(entries, k - 1, start, f);
      if InitialisesFile(entries[k - 1], f) {
        assert f in FileAccountsAfter(entries, k, start);
      }
    }
  }

  /** The map holds, for a file, the party and account of the latest initialiser the loop acted on. */
  lemma {:induction false} LatestInitialiserWins(entries: seq<Entry>, k: nat, start: FileAccounts, i: nat)
    requires i < k <= |entries| && EntriesReadable(entries, k)
    requires IsInitialiser(entries[i]) && !ShouldSkip(entries[i])
    requires forall j :: i < j < k ==> !InitialisesFile(entries[j], entries[i].filename)
    ensures EntryReadable(entries[i])
    ensures entries[i].filename in FileAccountsAfter(entries, k, start)
    ensures FileAccountsAfter(entries, k, start)[entries[i].filename] == FileAccount(entries[i].values[0], entries[i].values[1])
  {
    if k - 1 > i {
      LatestInitialiserWins(entries, k - 1, start, i);
    }
  }

  /**
   * The map outlives a call: handling `first` and then `later` in a second
   * call leaves the map as handling them in one call would.
   */
  lemma {:induction false} FileAccountsAcrossCalls(first: seq<Entry>, later: seq<Entry>, k: nat, start: FileAccounts)
    requires k <= |later| && EntriesReadable(first, |first|) && EntriesReadable(later, |later|)
    ensures EntriesReadable(first + later, |first + later|)
    ensures FileAccountsAfter(first + later, |first| + k, start) == FileAccountsAfter(later, k, FileAccountsAfter(first, |first|, start))
  {
    ReadableConcat(first, later);
    if k == 0 {
      FileAccountsOfPrefix(first + later, first, start);
    } else {
      FileAccountsAcrossCalls(first, later, k - 1, start);
      ResumeStep(first, later, k, start);
    }
  }

  /** The induction step of `FileAccountsAcrossCalls`: one more entry of `later`. */
  lemma ResumeStep(first: seq<Entry>, later: seq<Entry>, k: nat, start: FileAccounts)
    requires 0 < k <= |later| && EntriesReadable(first, |first|) && EntriesReadable(later, |later|)
    requires EntriesReadable(first + later, |first + later|)
    requires FileAccountsAfter(first + later, |first| + k - 1, start) == FileAccountsAfter(later, k - 1, FileAccountsAfter(first, |first|, start))
    ensures FileAccountsAfter(first + later, |first| + k, start) == FileAccountsAfter(later, k, FileAccountsAfter(first, |first|, start))
  {
    IndexInLater(first, later, |first| + k - 1);
    StoreStepAgrees(first + later, |first| + k, start, later, k, FileAccountsAfter(first, |first|, start));
  }

  /** Two runs that agree on the map and on the next entry agree on the map after it. */
  lemma StoreStepAgrees(all: seq<Entry>, m: nat, start: FileAccounts, later: seq<Entry>, i: nat, resumed: FileAccounts)
    requires 0 < m <= |all| && 0 < i <= |later| && EntriesReadable(all, |all|) && EntriesReadable(later, |later|)
    requires all[m - 1] == later[i - 1] && FileAccountsAfter(all, m - 1, start) == FileAccountsAfter(later, i - 1, resumed)
    ensures FileAccountsAfter(all, m, start) == FileAccountsAfter(later, i, resumed)
  {
  }

  lemma IndexInLater<T>(first: seq<T>, later: seq<T>, i: nat)
    requires |first| <= i < |first| + |later|
    ensures (first + later)[i] == later[i - |first|]
  {
  }

  lemma ReadableConcat(first: seq<Entry>, later: seq<Entry>)
    requires EntriesReadable(first, |first|) && EntriesReadable(later, |later|)
    ensures EntriesReadable(first + later, |first + later|)
  {
    forall i | 0 <= i < |first + later|
      ensures EntryReadable((first + later)[i])
    {
      if i >= |first| {
        assert (first + later)[i] == later[i - |first|];
      }
    }
  }

  /** The map after a prefix of the entries depends on that prefix only. */
  lemma {:induction false} FileAccountsOfPrefix(all: seq<Entry>, first: seq<Entry>, start: FileAccounts)
    requires first <= all && EntriesReadable(all, |first|) && EntriesReadable(first, |first|)
    ensures FileAccountsAfter(all, |first|, start) == FileAccountsAfter(first, |first|, start)
  {
    FileAccountsOfPrefixUpTo(all, first, |first|, start);
  }

  lemma {:induction false} FileAccountsOfPrefixUpTo(all: seq<Entry>, first: seq<Entry>, k: nat, start: FileAccounts)
    requires first <= all && k <= |first| && EntriesReadable(all, |first|) && EntriesReadable(first, |first|)
    ensures FileAccountsAfter(all, k, start) == FileAccountsAfter(first, k, start)
  {
    if k > 0 {
      FileAccountsOfPrefixUpTo(all, first, k - 1, start);
      assert all[k - 1] == first[k - 1];
    }
  }

  /** An entry the loop may queue for documents, as it stands once checked. */
  predicate Documentable(q: Entry, today: CalendarDate)
  {
    !ShouldSkip(q)
    && (q.Balance? || (q.Txn? && (Receipt.IsReceiptTransaction(q.txn) || Payslip.IsPayslipTransaction(q.txn))))
    && (q.Balance? && Statement in q.meta ==> HasNextMonth(q.date) && !Before(today, StatementDate(q.date)))
  }

  /**
   * Only balance assertions, receipts and payslips that are validated are
   * queued, and a balance assertion is queued without a statement whose date
   * is still to come.
   */
  lemma {:induction false} QueuedEntries(entries: seq<Entry>, k: nat, start: FileAccounts, today: CalendarDate)
    requires k <= |entries| && Processable(entries, start)
    ensures forall q :: q in PassUpTo(entries, k, start, today).queue ==> Documentable(q, today)
  {
    if k > 0 {
      QueuedEntries(entries, k - 1, start, today);
      assert TransactionReadableAt(entries, k - 1, start);
      EntryQueuesDocumentable(PassUpTo(entries, k - 1, start, today), FileAccountsAfter(entries, k - 1, start),
                              entries[k - 1], today);
    }
  }

  /** One entry queues only documentable entries. */
  lemma EntryQueuesDocumentable(p: Pass, fileAccounts: FileAccounts, e: Entry, today: CalendarDate)
    requires EntryReadable(e)
    requires !ShouldSkip(e) && e.Txn? && e.txn.filename in fileAccounts ==>
               TransactionReadable(e.txn, fileAccounts[e.txn.filename].party)
    requires forall q :: q in p.queue ==> Documentable(q, today)
    ensures forall q :: q in EntryPass(p, fileAccounts, e, today).queue ==> Documentable(q, today)
  {
    var after := EntryPass(p, fileAccounts, e, today).queue;
    forall q | q in after
      ensures Documentable(q, today)
    {
      if q !in p.queue {
        if e.Balance? {
          assert q == Checked(e, today);
        } else {
          assert q in Queued(e);
        }
      }
    }
  }

  /**
   * A transaction in a file that was not in the map and that no initialiser
   * before it names gets exactly the missing-journal error, and is not queued.
   */
  lemma UninitialisedFileReported(entries: seq<Entry>, k: nat, start: FileAccounts, today: CalendarDate)
    requires k < |entries| && Processable(entries, start)
    requires entries[k].Txn? && !ShouldSkip(entries[k])
    requires entries[k].txn.filename !in start
    requires forall i :: 0 <= i < k ==> !InitialisesFile(entries[i], entries[k].txn.filename)
    ensures PassUpTo(entries, k + 1, start, today).errors == PassUpTo(entries, k, start, today).errors + [JournalMissingError]
    ensures PassUpTo(entries, k + 1, start, today).queue == PassUpTo(entries, k, start, today).queue
  {
    FileAccountsKnown(entries, k, start, entries[k].txn.filename);
    assert TransactionReadableAt(entries, k, start);
  }

  /**
   * An entry in the transfers file, or a transaction excluded by its tag, is
   * neither checked, queued nor stored, and stays as it was.
   */
  lemma SkippedEntryLeavesNoTrace(entries: seq<Entry>, k: nat, start: FileAccounts, today: CalendarDate)
    requires k < |entries| && Processable(entries, start) && ShouldSkip(entries[k])
    ensures PassUpTo(entries, k + 1, start, today) == PassUpTo(entries, k, start, today)
    ensures FileAccountsAfter(entries, k + 1, start) == FileAccountsAfter(entries, k, start)
    ensures Checked(entries[k], today) == entries[k]
  {
    assert TransactionReadableAt(entries, k, start);
  }

  /**
   * A balance assertion the loop acts on adds its check's errors and is
   * queued once, as it stands after the check; a transaction of an
   * initialised file is queued once for each of the receipt and payslip
   * categories it is in.
   */
  lemma EntryQueued(entries: seq<Entry>, k: nat, start: FileAccounts, today: CalendarDate)
    requires k < |entries| && Processable(entries, start) && !ShouldSkip(entries[k])
    ensures var e, before, after := entries[k], PassUpTo(entries, k, start, today), PassUpTo(entries, k + 1, start, today);
            e.Balance? ==>
              after.errors == before.errors + ValidateBalanceAssertion(e.date, e.meta, today).errors
              && after.queue == before.queue + [Checked(e, today)]
    ensures var e, before, after := entries[k], PassUpTo(entries, k, start, today), PassUpTo(entries, k + 1, start, today);
            e.Txn? && e.txn.filename in FileAccountsAfter(entries, k, start) ==>
              after.queue == before.queue + Queued(e)
              && |after.queue| == |before.queue| + (if Receipt.IsReceiptTransaction(e.txn) then 1 else 0)
                                                 + (if Payslip.IsPayslipTransaction(e.txn) then 1 else 0)
  {
    assert TransactionReadableAt(entries, k, start);
  }

  /** Errors and queued entries come out in the order of the entries: what was reported stays, in front. */
  lemma {:induction false} PassInEntryOrder(entries: seq<Entry>, j: nat, k: nat, start: FileAccounts, today: CalendarDate)
    requires j <= k <= |entries| && Processable(entries, start)
    ensures Extends(PassUpTo(entries, j, start, today), PassUpTo(entries, k, start, today))
  {
    if j < k {
      PassInEntryOrder(entries, j, k - 1, start, today);
      PassStep(entries, k, start, today);
      ExtendsTransitive(PassUpTo(entries, j, start, today), PassUpTo(entries, k - 1, start, today), PassUpTo(entries, k, start, today));
    }
  }

  /** One more entry only appends to the pass. */
  lemma PassStep(entries: seq<Entry>, k: nat, start: FileAccounts, today: CalendarDate)
    requires 0 < k <= |entries| && Processable(entries, start)
    ensures Extends(PassUpTo(entries, k - 1, start, today), PassUpTo(entries, k, start, today))
  {
    assert TransactionReadableAt(entries, k - 1, start);
  }

  // ---- the loop over the queued entries ----

  /** What `create_document_entries(entry)` returns. */
  datatype DocumentOutput = DocumentOutput(entries: seq<Entry>, errors: seq<ValidationError>)

  /** The documents and errors of the queued entries, in queue order. */
  function Documents(queue: seq<Entry>, createDocuments: Entry -> DocumentOutput): DocumentOutput
  {
    if |queue| == 0 then DocumentOutput([], [])
    else
      var before := Documents(queue[..|queue| - 1], createDocuments);
      var out := createDocuments(queue[|queue| - 1]);
      DocumentOutput(before.entries + out.entries, before.errors + out.errors)
  }

  lemma Associative<T>(a: seq<T>, b: seq<T>, c: seq<T>)
    ensures a + b + c == a + (b + c)
  {
  }

  /** One more queued entry adds its documents and errors after the others'. */
  lemma DocumentsStep(queue: seq<Entry>, k: nat, createDocuments: Entry -> DocumentOutput)
    requires k < |queue|
    ensures var before, out := Documents(queue[..k], createDocuments), createDocuments(queue[k]);
            Documents(queue[..k + 1], createDocuments) == DocumentOutput(before.entries + out.entries, before.errors + out.errors)
  {
    assert queue[..k + 1][..k] == queue[..k];
  }

  /** The documents of a queue are those of its parts, one after the other. */
  lemma {:induction false} DocumentsInQueueOrder(first: seq<Entry>, later: seq<Entry>, createDocuments: Entry -> DocumentOutput)
    ensures Documents(first + later, createDocuments) ==
              var a, b := Documents(first, createDocuments), Documents(later, createDocuments);
              DocumentOutput(a.entries + b.entries, a.errors + b.errors)
  {
    if |later| == 0 {
      assert first + later == first;
    } else {
      var shorter := later[..|later| - 1];
      assert (first + later)[..|first + later| - 1] == first + shorter;
      DocumentsInQueueOrder(first, shorter, createDocuments);
    }
  }

  // ---- the plugin ----

  /** The caller's list of entries, which the plugin extends in place. */
  class EntryList {
    var items: seq<Entry>

    constructor(items: seq<Entry>)
      ensures this.items == items
    {
      this.items := items;
    }
  }

  /** The plugin module, with its `fileAccountMap`, which persists from one call to the next. */
  class ValidationPlugin {
    var fileAccountMap: FileAccounts

    constructor()
      ensures fileAccountMap == map[]
    {
      fileAccountMap := map[];
    }

    /**
     * `validate_transactions(entries, unused_options_map)`, where `today`
     * stands for the clock the balance-assertion check reads and
     * `createDocuments` for `create_document_entries`.
     */
    method ValidateTransactions(entries: EntryList, today: CalendarDate, createDocuments: Entry -> DocumentOutput)
      returns (result: EntryList, errors: seq<ValidationError>)
      requires Processable(entries.items, fileAccountMap)
      modifies this, entries
      ensures result == entries
      ensures fileAccountMap == FileAccountsAfter(old(entries.items), |old(entries.items)|, old(fileAccountMap))
      ensures var pass := PassUpTo(old(entries.items), |old(entries.items)|, old(fileAccountMap), today);
              var documents := Documents(pass.queue, createDocuments);
              entries.items == CheckedUpTo(old(entries.items), |old(entries.items)|, today) + documents.entries
              && errors == pass.errors + documents.errors
    {
      var pass := CheckEntries(entries, today);
      var documentErrors := AppendDocuments(entries, pass.queue, createDocuments);
      errors := pass.errors + documentErrors;
      result := entries;
    }

    /** The loop over the entries: each is checked, the map is kept up to date, and entries are queued for documents. */
    method CheckEntries(entries: EntryList, today: CalendarDate) returns (pass: Pass)
      requires Processable(entries.items, fileAccountMap)
      modifies this, entries
      ensures fileAccountMap == FileAccountsAfter(old(entries.items), |old(entries.items)|, old(fileAccountMap))
      ensures entries.items == CheckedUpTo(old(entries.items), |old(entries.items)|, today)
      ensures pass == PassUpTo(old(entries.items), |old(entries.items)|, old(fileAccountMap), today)
    {
      var items, fileAccounts;
      items, fileAccounts, pass := CheckEntryList(entries.items, fileAccountMap, today);
      entries.items, fileAccountMap := items, fileAccounts;
    }
  }

  /**
   * The loop over the entries on their values: the entries as they stand
   * afterwards, the map, and the loop's `errors` and `entries_with_documents`.
   */
  method CheckEntryList(input: seq<Entry>, start: FileAccounts, today: CalendarDate)
    returns (items: seq<Entry>, fileAccounts: FileAccounts, pass: Pass)
    requires Processable(input, start)
    ensures items == CheckedUpTo(input, |input|, today)
    ensures fileAccounts == FileAccountsAfter(input, |input|, start)
    ensures pass == PassUpTo(input, |input|, start, today)
  {
    items, fileAccounts, pass := input, start, Pass([], []);
    for k := 0 to |input|
      invariant items == CheckedUpTo(input, k, today) + input[k..]
      invariant fileAccounts == FileAccountsAfter(input, k, start)
      invariant pass == PassUpTo(input, k, start, today)
    {
      items, fileAccounts, pass := CheckEntryAt(input, k, start, today, items, fileAccounts, pass);
    }
    assert input[|input|..] == [];
  }

  /** The loop over the queued entries: their documents are appended to the list, and their errors returned. */
  method AppendDocuments(entries: EntryList, queue: seq<Entry>, createDocuments: Entry -> DocumentOutput)
    returns (errors: seq<ValidationError>)
    modifies entries
    ensures entries.items == old(entries.items) + Documents(queue, createDocuments).entries
    ensures errors == Documents(queue, createDocuments).errors
  {
    ghost var checked := entries.items;
    errors := [];
    for k := 0 to |queue|
      invariant entries.items == checked + Documents(queue[..k], createDocuments).entries
      invariant errors == Documents(queue[..k], createDocuments).errors
    {
      DocumentsStep(queue, k, createDocuments);
      ghost var before := Documents(queue[..k], createDocuments);
      var out := createDocuments(queue[k]);
      errors := errors + out.errors;
      entries.items := entries.items + out.entries;
      Associative(checked, before.entries, out.entries);
    }
    assert queue[..|queue|] == queue;
  }

  /** The loop body at index `k`, carrying the loop's state over to the next index. */
  method CheckEntryAt(ghost input: seq<Entry>, k: nat, ghost start: FileAccounts, today: CalendarDate,
                      items: seq<Entry>, fileAccounts: FileAccounts, pass: Pass)
    returns (items': seq<Entry>, fileAccounts': FileAccounts, pass': Pass)
    requires k < |input| && Processable(input, start)
    requires items == CheckedUpTo(input, k, today) + input[k..]
    requires fileAccounts == FileAccountsAfter(input, k, start)
    requires pass == PassUpTo(input, k, start, today)
    ensures items' == CheckedUpTo(input, k + 1, today) + input[k + 1..]
    ensures fileAccounts' == FileAccountsAfter(input, k + 1, start)
    ensures pass' == PassUpTo(input, k + 1, start, today)
  {
    var entry := items[k];
    assert entry == input[k];
    ReadableAt(input, k, start);
    var checked;
    checked, fileAccounts', pass' := HandleEntry(entry, fileAccounts, today, pass);
    CheckedStep(input, k, today);
    items' := if entry.Balance? then items[k := checked] else items;
  }

  /** The entry's own facts the loop needs at index `k`. */
  lemma ReadableAt(entries: seq<Entry>, k: nat, start: FileAccounts)
    requires k < |entries| && Processable(entries, start)
    ensures EntryReadable(entries[k])
    ensures var fileAccounts := FileAccountsAfter(entries, k, start);
            var e := entries[k];
            !ShouldSkip(e) && e.Txn? && e.txn.filename in fileAccounts ==>
              TransactionReadable(e.txn, fileAccounts[e.txn.filename].party)
  {
    assert EntryReadable(entries[k]);
    assert TransactionReadableAt(entries, k, start);
  }

  /** Checking entry `k` in place extends the checked prefix by one. */
  lemma CheckedStep(entries: seq<Entry>, k: nat, today: CalendarDate)
    requires k < |entries| && EntriesReadable(entries, |entries|)
    ensures (CheckedUpTo(entries, k, today) + entries[k..])[k := Checked(entries[k], today)]
              == CheckedUpTo(entries, k + 1, today) + entries[k + 1..]
    ensures !entries[k].Balance? ==>
              CheckedUpTo(entries, k, today) + entries[k..] == CheckedUpTo(entries, k + 1, today) + entries[k + 1..]
  {
    assert entries[k..] == [entries[k]] + entries[k + 1..];
    ReplaceNext(CheckedUpTo(entries, k, today), entries[k], Checked(entries[k], today), entries[k + 1..]);
  }

  /** Replacing the element after `done` moves it over to `done`. */
  lemma ReplaceNext<T>(done: seq<T>, x: T, y: T, rest: seq<T>)
    ensures (done + ([x] + rest))[|done| := y] == done + [y] + rest
    ensures done + ([x] + rest) == done + [x] + rest
  {
  }

  /**
   * The loop body on one entry: the entry as it stands afterwards, the map,
   * and the loop's `errors` and `entries_with_documents`.
   */
  method HandleEntry(entry: Entry, fileAccounts: FileAccounts, today: CalendarDate, pass: Pass)
    returns (checked: Entry, after: FileAccounts, next: Pass)
    requires EntryReadable(entry)
    requires !ShouldSkip(entry) && entry.Txn? && entry.txn.filename in fileAccounts ==>
               TransactionReadable(entry.txn, fileAccounts[entry.txn.filename].party)
    ensures checked == Checked(entry, today)
    ensures after == Store(fileAccounts, entry)
    ensures next == EntryPass(pass, fileAccounts, entry, today)
  {
    checked, after, next := entry, fileAccounts, pass;
    if ShouldSkip(entry) {
      return;
    }
    if entry.Balance? {
      var check := ValidateBalanceAssertion(entry.date, entry.meta, today);
      checked := Balance(entry.filename, check.meta, entry.date, entry.account);
      next := Pass(pass.errors + check.errors, pass.queue + [checked]);
    } else if IsInitialiser(entry) {
      after := fileAccounts[entry.filename := FileAccount(entry.values[0], entry.values[1])];
    } else if entry.Txn? {
      var (transactionFilename, err) := GetTransactionFilename(entry.txn, fileAccounts);
      if err.Some? {
        next := Pass(pass.errors + [err.value], pass.queue);
      } else {
        var found, queued := CheckTransaction(entry, fileAccounts[transactionFilename]);
        next := Pass(pass.errors + found, pass.queue + queued);
      }
    }
  }

  /** The loop's work on a transaction of an initialised file: its errors, and the entries it queues. */
  method CheckTransaction(entry: Entry, file: FileAccount) returns (errors: seq<ValidationError>, queued: seq<Entry>)
    requires entry.Txn? && TransactionReadable(entry.txn, file.party)
    ensures errors == TransactionErrors(entry.txn, file)
    ensures queued == Queued(entry)
  {
    errors := [];
    var err := ValidateFirstPostingAccount(entry.txn, file.account);
    if err.Some? {
      errors := errors + [err.value];
    }
    var found;
    found, queued := CheckCategories(entry, file.party);
    errors := errors + found;
  }

  /** The five `if is_..._transaction(entry)` checks of the loop, each extending `errors`. */
  method CheckCategories(entry: Entry, party: string) returns (errors: seq<ValidationError>, queued: seq<Entry>)
    requires entry.Txn? && TransactionReadable(entry.txn, party)
    ensures errors == CategoryErrors(entry.txn, party)
    ensures queued == Queued(entry)
  {
    var t := entry.txn;
    errors, queued := [], [];
    if OpeningBalance.IsOpeningBalanceTransaction(t) {
      errors := errors + OpeningBalance.ValidateOpeningBalance(t);
    }
    assert errors == OpeningBalanceBlock(t);
    ghost var before := errors;
    if Transfer.IsTransferTransaction(t) {
      errors := errors + Transfer.ValidateTransfer(t, party, TransferTransactionError);
    }
    assert errors == before + TransferBlock(t, party);
    before := errors;
    if Owed.IsOwedTransaction(t, party) {
      var owed := Owed.ValidateOwedTransaction(t, party);
      errors := errors + owed;
    }
    assert errors == before + OwedBlock(t, party);
    before := errors;
    if Receipt.IsReceiptTransaction(t) {
      var receipt := Receipt.ValidateReceiptTransaction(t);
      errors := errors + receipt;
      queued := queued + [entry];
    }
    assert errors == before + ReceiptBlock(t);
    assert queued == if Receipt.IsReceiptTransaction(t) then [entry] else [];
    before := errors;
    if Payslip.IsPayslipTransaction(t) {
      errors := errors + Payslip.ValidatePayslip(t);
      queued := queued + [entry];
    }
    assert errors == before + PayslipBlock(t);
  }
}
