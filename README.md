# beancount-plugins: transaction validation, modelled in Dafny

This project models the transaction validation plugins of the
`beancount-plugins` repository. They are beancount plugins. Each receives the
ledger's entries after loading and returns them with a list of validation
errors. There are two variants, and both are modelled:

- **The single-file plugin** (`validate_transactions.py`). It walks the
  entries in order and remembers the journal party and account that the
  latest `journal account name` custom directive set for the current file.
  It checks that each transaction's first posting goes to that account. It
  then routes the transaction to exactly one category check: transfer, owed
  or default. The model is module `RootValidateTransactions` in
  `root_validate_transactions.dfy`.
- **The package plugin** (`validate_transactions/validate_transactions.py`
  with its `utils/` modules). It keeps a module-level map from file name to
  party and account, filled by `initialise_journal_file` custom directives,
  and this map outlives one call. It skips excluded entries and
  `transfers.beancount`. It checks balance assertions against their
  statement files and runs every category check that applies: opening
  balance, transfer, owed, receipt and payslip. It queues balance
  assertions, receipts and payslips for document linking. Finally it
  appends the document entries to the entry list it was given. The model is
  module `PackageValidateTransactions` in `package_driver.dfy`, with one
  module per `utils/` file.

How the model is built:

- Straight-line validators become functions. Each one's contract gives,
  for every error message, the exact condition under which that error is
  reported ("if and only if"), and also the order of the errors.
- Validators with loops become a specification function (a left fold over
  the tags or postings) and a `method` with a `while` loop. The method is
  proved to return exactly what the function specifies. Lemmas about the
  function state what the loop promises: which postings are reported, that
  a rejected owed tag stops the scan, and bounds on the error count.
- The package driver is a class, `ValidationPlugin`. Its field
  `fileAccountMap` persists between calls. The entry list it extends in
  place is a class, `EntryList`.
- The driver's loop is specified by a fold over the entries, `PassUpTo`.
  The folded state holds the errors and the document queue. The entries
  list as rewritten, `CheckedUpTo`, and the map, `FileAccountsAfter`, are
  folded alongside it. Lemmas about the fold state what the loop promises.

Source behaviour the model follows as written:

- `any_posting_has_metadata_key` (`validate_transactions/utils/common.py:1-2`)
  tests `key in posting`. A beancount `Posting` is a namedtuple, so this
  asks whether one of the posting's *fields* equals the key. It does not
  look at the posting's metadata. The model keeps this:
  `Common.MetadataKeyNeverFound` shows that a key such as `"receipt"` is
  then never found, and `Common.ReceiptMetadataIsMissed` exhibits a posting
  whose metadata holds `receipt` and is still not found. As a result the
  "Missing required metadata of 'receipt'" error is reported for every
  receipt transaction, and only the tag makes a transaction a receipt or a
  payslip.
- The receipt check looks for the tag `valuables`, but its message names
  `'receipt'` (`receipt_transactions.py:11-18`). The model keeps both.
- The package driver calls `validate_payslip_transaction(entry, party)`
  (`validate_transactions/validate_transactions.py:95`), but the function
  takes one argument (`payslip_transactions.py:7`). Python would raise
  `TypeError` on the first payslip. The model runs the one-argument check
  that the function defines.
- `JournalError` (imported at `validate_transactions/validate_transactions.py:5`)
  is not defined in `utils/errors.py`. Neither are
  `InvalidTransferTransaction` and `InvalidValuablesTransaction`, which
  `default_transactions.py` uses. The model adds all three to `ErrorKind`.
- `default_transactions.py` is not called by the package driver. It is
  modelled on its own, as module `DefaultTransactions`.
- A balance assertion's `statement` key is deleted before the document
  pass runs, so no document is linked for a statement whose date is still
  to come (`balance_assertions.py:29-31`).

## Model

| member | source | states |
|---|---|---|
| Accounts.Split | validate_transactions/utils/owed_transactions.py:8 | `account.split`: at least one component, and no component contains `:` |
| Accounts.JoinSplit | validate_transactions/utils/default_transactions.py:20 | joining the components of an account name with `:` gives back the name |
| Accounts.SplitJoin | validate_transactions/utils/default_transactions.py:20 | splitting a join of separator-free components gives back the components |
| Accounts.AccountFrom | validate_transactions/utils/owed_transactions.py:8 | an account built from two or more components splits back into exactly them |
| Accounts.Root | validate_transactions/utils/opening_balance_transactions.py:28 | `account.root(n, name)` has exactly the first `n` components of `name` (all of them when there are fewer) |
| Accounts.HasSingleComponent | validate_transactions/utils/opening_balance_transactions.py:36 | `account.has_component(name, c)` holds exactly when `c` is one of the name's components |
| Accounts.EndsWithTail | validate_transactions/utils/balance_assertions.py:20 | `str.endswith` holds exactly when the suffix is the string's last characters |
| Accounts.NotContainsMissingChar | validate_transactions/utils/transfer_transactions.py:111 | a pattern holding a character the string lacks does not occur in it |
| Accounts.LowerChar | validate_transactions/utils/owed_transactions.py:51 | an ASCII capital maps to the lower-case letter 32 code points above it; every other character is unchanged |
| Accounts.ToLower | validate_transactions/utils/owed_transactions.py:51 | `str.lower` keeps the length and lowers each character |
| Dates.DaysInMonth | validate_transactions/utils/balance_assertions.py:18 | a month has 28 to 31 days |
| Dates.AddOneMonth | validate_transactions/utils/balance_assertions.py:18 | `relativedelta(months=+1)`: the next month (the next year after December), with the day clipped to that month's length |
| Dates.PreviousDay | validate_transactions/utils/balance_assertions.py:18 | subtracting `timedelta(days=1)` gives the immediately preceding date: earlier, with no date strictly between |
| Dates.StatementDateOfFirstDay | validate_transactions/utils/balance_assertions.py:18 | for a balance dated on the 1st, the statement date is the last day of the same month |
| Dates.StatementDateIsLater | validate_transactions/utils/balance_assertions.py:18-19 | the statement date is always after the balance date |
| Dates.Digits | validate_transactions/utils/balance_assertions.py:20 | a zero-padded decimal field has exactly the width asked for and only digits |
| Dates.DigitsRoundTrip | validate_transactions/utils/balance_assertions.py:20 | reading a zero-padded field back gives the number |
| Dates.IsoFormat | validate_transactions/utils/balance_assertions.py:20 | `str(date)` is ten characters, `YYYY-MM-DD` |
| Dates.IsoFormatInjective | validate_transactions/utils/balance_assertions.py:20 | two dates with the same text are the same date, so the expected file name pins down one statement date |
| Ledger.HasEntryAccountComponentMonotone | validate_transactions/utils/default_transactions.py:9 | adding postings on either side never loses a component match |
| Common.AnyPostingHasMetadataKey | validate_transactions/utils/common.py:1-2 | true exactly when some posting has a field equal to the key; false on no postings |
| Common.MetadataKeyNeverFound | validate_transactions/utils/common.py:2 | a key that is not one character long and has no `:` is found in no posting |
| Common.ReceiptMetadataIsMissed | validate_transactions/utils/common.py:2 | a posting whose metadata holds `receipt` is not reported as having it |
| Common.MetadataKeyMonotone | validate_transactions/utils/common.py:1-2 | a key found among some postings is found among any postings that include them |
| Common.AnyTagStartsWith | validate_transactions/utils/common.py:4-5 | true exactly when some tag starts with the prefix; false on no tags |
| Common.TagPrefixMonotone | validate_transactions/utils/common.py:4-5 | a prefix found among some tags is found among any tags that include them |
| PayslipTransactions.PayslipMeansTagged | validate_transactions/utils/payslip_transactions.py:4-5 | a transaction is a payslip exactly when it carries the `payslip` tag |
| PayslipTransactions.ValidatePayslip | validate_transactions/utils/payslip_transactions.py:7-28 | the tag error exactly when the `payslip` tag is missing and the metadata error exactly when the `payslip` key is missing, in that order; none exactly when both are present |
| PayslipTransactions.PayslipIgnoresPostings | validate_transactions/utils/payslip_transactions.py:7-28 | the payslip check does not depend on the postings |
| ReceiptTransactions.ReceiptMeansTagged | validate_transactions/utils/receipt_transactions.py:4-5 | a transaction is a receipt exactly when it carries the `receipt` tag |
| ReceiptTransactions.MisfiledBefore | validate_transactions/utils/receipt_transactions.py:29-30 | the indexes of the postings after the first that hold receipt metadata on a non-expense account, in increasing order |
| ReceiptTransactions.ReceiptEntryErrors | validate_transactions/utils/receipt_transactions.py:11-27 | the tag error exactly when `valuables` is missing, then the metadata error exactly when no posting is found with the key |
| ReceiptTransactions.ReceiptErrorsUpTo | validate_transactions/utils/receipt_transactions.py:29-37 | the loop adds at most one error per posting after the first |
| ReceiptTransactions.ReceiptErrorsLayout | validate_transactions/utils/receipt_transactions.py:8-39 | the entry errors come first and every later error is the expense-account error |
| ReceiptTransactions.ReceiptErrorsCount | validate_transactions/utils/receipt_transactions.py:29-37 | one expense-account error per misfiled posting |
| ReceiptTransactions.ReceiptEntryChecks | validate_transactions/utils/receipt_transactions.py:8-39 | in the whole result, the tag and metadata errors appear under exactly their conditions, the tag error first |
| ReceiptTransactions.ReceiptErrorsBound | validate_transactions/utils/receipt_transactions.py:8-39 | the exact number of errors, and at most two plus one per posting after the first |
| ReceiptTransactions.ValidateReceiptTransaction | validate_transactions/utils/receipt_transactions.py:8-39 | the loop returns exactly the errors the checks specify |
| BalanceAssertions.ValidateBalanceAssertion | validate_transactions/utils/balance_assertions.py:6-33 | no statement: only the missing-statement error; otherwise the misnamed-file error exactly when the name fits neither the statement date nor a closing statement and that date has come; the key is removed exactly when the date is still to come |
| BalanceAssertions.FutureStatementIsDropped | validate_transactions/utils/balance_assertions.py:29-31 | a statement dated in the future is not reported and is removed, so a second check of the same entry reports it missing |
| BalanceAssertions.StatementForNextMonthAccepted | validate_transactions/utils/balance_assertions.py:18-20 | a file named for the statement date is accepted |
| BalanceAssertions.OtherDateRejected | validate_transactions/utils/balance_assertions.py:20-27 | once the statement date has come, a statement path ending in any other date's `<date>.pdf`, whatever directory or stem precedes it, is reported |
| OpeningBalanceTransactions.OpeningBalanceChecks | validate_transactions/utils/opening_balance_transactions.py:12-43 | each of the four errors appears exactly when its check fails, and the result has exactly one error per failed check |
| OpeningBalanceTransactions.OpeningBalanceChecksInOrder | validate_transactions/utils/opening_balance_transactions.py:9-45 | the errors come in the order of the checks |
| OpeningBalanceTransactions.RootOneIsEquity | validate_transactions/utils/opening_balance_transactions.py:28 | `root(1, account) == "Equity"` exactly when the first component is `Equity` |
| OpeningBalanceTransactions.ValidateOpeningBalance | validate_transactions/utils/opening_balance_transactions.py:9-45 | one tag, two postings, an `Equity` second posting and an `OpeningBalances` component are each checked with their own error, in order, one error per failed check |
| OpeningBalanceTransactions.WellFormedOpeningBalance | validate_transactions/utils/opening_balance_transactions.py:9-45 | for any party and any first posting, a transaction with the single `opening-balance` tag and two postings, the second to `Equity:<party>:OpeningBalances`, draws no error |
| TransferTransactions.TransferTypes | validate_transactions/utils/transfer_transactions.py:10-51 | the table has exactly the eight transfer tags as keys |
| TransferTransactions.IsTransferTransaction | validate_transactions/utils/transfer_transactions.py:6-7 | true exactly when a tag starts with `transfer` or a posting's account has a `Transfers` component |
| TransferTransactions.KeyDirections | validate_transactions/utils/transfer_transactions.py:111-120 | among the table's keys, `"from" in key` picks exactly the from-transfers and `"to" in key` exactly the to-transfers |
| TransferTransactions.TransferEntryErrors | validate_transactions/utils/transfer_transactions.py:75-100 | payee, narration and posting-count errors each appear exactly when their check fails |
| TransferTransactions.TransferEntryErrorsInOrder | validate_transactions/utils/transfer_transactions.py:75-100 | those errors come in the order of the checks, before the posting errors |
| TransferTransactions.TransferPostingErrors | validate_transactions/utils/transfer_transactions.py:102-127 | second-account and sign errors each appear exactly when their check fails, pointing at their posting |
| TransferTransactions.TransferPostingErrorsInOrder | validate_transactions/utils/transfer_transactions.py:102-127 | those errors come in the order of the checks |
| TransferTransactions.TransferChecks | validate_transactions/utils/transfer_transactions.py:72-129 | for a known tag, each of the six errors appears exactly when the transaction breaks that rule of the tag's kind, and the result has exactly one error per broken rule |
| TransferTransactions.TransferChecksInOrder | validate_transactions/utils/transfer_transactions.py:72-129 | the six checks report in source order |
| TransferTransactions.ValidateTransfer | validate_transactions/utils/transfer_transactions.py:9-129 | not exactly one tag: that error only; an unknown tag: that error only; otherwise the checks of the tag's kind (also `check_transfer_transaction`, `validate_transactions.py:34-154`) |
| TransferTransactions.ZeroAmountNeverFlagged | validate_transactions/utils/transfer_transactions.py:111-127 | a zero first amount draws no sign error in either direction |
| OwedTransactions.AnyPostingHasDifferentParty | validate_transactions/utils/owed_transactions.py:7-8 | true exactly when some posting's account names another party |
| OwedTransactions.ScanTags | validate_transactions/utils/owed_transactions.py:39-79 | the tag scan reports only owed-transaction errors on the entry |
| OwedTransactions.PostingErrorsFrom | validate_transactions/utils/owed_transactions.py:81-100 | the posting loop adds at most one error per posting after the first |
| OwedTransactions.StoppedScanStays | validate_transactions/utils/owed_transactions.py:41-58 | once a tag is rejected, later tags change nothing |
| OwedTransactions.ScanStopsAtFirstRejected | validate_transactions/utils/owed_transactions.py:39-58 | the scan stops exactly when some tag is unknown or owed by the party itself, with the error for the first such tag |
| OwedTransactions.RejectedTagIsTheOnlyError | validate_transactions/utils/owed_transactions.py:39-58 | a rejected tag makes its error the only one returned |
| OwedTransactions.OwedTypesAreOwedTags | validate_transactions/utils/owed_transactions.py:17-40 | every key of the owed table starts with `owed`, so the scan looks at it |
| OwedTransactions.UnpostedBefore | validate_transactions/utils/owed_transactions.py:39-79 | the indexes, in increasing order, of exactly the owed tags none of whose prefixes is posted to |
| OwedTransactions.ScannedErrorsInOrder | validate_transactions/utils/owed_transactions.py:39-79 | until the scan stops, its errors are one missing-prefix error per owed tag none of whose prefixes is posted to, in tag order, and no others |
| OwedTransactions.ScannedContents | validate_transactions/utils/owed_transactions.py:39-79 | the allowed prefixes are exactly those of the scanned owed tags, a missing-prefix error is reported exactly for each owed tag none of whose prefixes is posted to, and there are no more errors than tags starting with `owed` |
| OwedTransactions.OwedTagCounted | validate_transactions/utils/owed_transactions.py:39-40 | a tag starting with `owed` makes the count of such tags positive |
| OwedTransactions.NoOwedTagsScan | validate_transactions/utils/owed_transactions.py:39-40 | without owed tags the scan finds nothing |
| OwedTransactions.NoOwedTagsChecksPartyOnly | validate_transactions/utils/owed_transactions.py:36-100 | without owed tags only the party check of the postings remains |
| OwedTransactions.PostingErrorsContents | validate_transactions/utils/owed_transactions.py:81-100 | the party error for posting `i` appears exactly when `i` is after the first and the posting is to another party and matches no allowed prefix |
| OwedTransactions.FlaggedBefore | validate_transactions/utils/owed_transactions.py:81-100 | the indexes, in increasing order, of exactly the later postings that are to another party and match no allowed prefix |
| OwedTransactions.PostingErrorsInOrder | validate_transactions/utils/owed_transactions.py:81-100 | the posting loop appends one party error per flagged later posting, in posting order, and nothing else |
| OwedTransactions.OwedErrorsMembers | validate_transactions/utils/owed_transactions.py:16-102 | with no rejected tag, each party error and each missing-prefix error appears exactly when its check fails |
| OwedTransactions.OwedErrorsInOrder | validate_transactions/utils/owed_transactions.py:16-102 | with no rejected tag, the result is the missing-prefix errors in tag order, then the party errors in posting order, and its length is their sum |
| OwedTransactions.OwedErrorAt | validate_transactions/utils/owed_transactions.py:16-102 | with no rejected tag, the error at any position is a missing-prefix error of an unposted owed tag or the party error of a flagged later posting |
| OwedTransactions.OwedErrorsNothingElse | validate_transactions/utils/owed_transactions.py:16-102 | with no rejected tag, every error is a missing-prefix error of an unposted owed tag or the party error of a flagged later posting |
| OwedTransactions.OwedErrorsWhenNotRejected | validate_transactions/utils/owed_transactions.py:16-102 | with no rejected tag, each missing-prefix and party error appears exactly when its check fails, nothing else appears, and the length is one per failed check |
| OwedTransactions.OwedErrorsBound | validate_transactions/utils/owed_transactions.py:39-102 | at most one error per tag starting with `owed` plus one per posting after the first |
| OwedTransactions.OwedErrorKinds | validate_transactions/utils/owed_transactions.py:16-102 | only owed-transaction and posting-to-another-party errors |
| OwedTransactions.FindPostedPrefix | validate_transactions/utils/owed_transactions.py:60-65 | the prefix loop finds a match exactly when some posting's account has one of the prefixes as a run of its components (`has_entry_account_component`) |
| OwedTransactions.FindAllowedPrefix | validate_transactions/utils/owed_transactions.py:87-90 | the inner loop matches exactly when the account starts with an allowed prefix |
| OwedTransactions.ValidateOwedTransaction | validate_transactions/utils/owed_transactions.py:16-102 | the loops return exactly the specified owed errors |
| OwedTransactions.CheckLaterPostings | validate_transactions/utils/owed_transactions.py:81-100 | the posting loop returns exactly the specified party errors |
| DefaultTransactions.PostingChecks | validate_transactions/utils/default_transactions.py:18-39 | a posting's errors are exactly the party and valuables errors it draws |
| DefaultTransactions.DefaultErrorsFrom | validate_transactions/utils/default_transactions.py:18-39 | at most two errors per posting after the first |
| DefaultTransactions.DefaultErrorsMembers | validate_transactions/utils/default_transactions.py:18-39 | the loop keeps earlier errors and adds exactly the errors of the postings after the first |
| DefaultTransactions.DefaultErrorsContents | validate_transactions/utils/default_transactions.py:6-41 | the transfer error exactly when an account has a `Transfers` component (and then first), a party error exactly for each later posting to another party, the valuables error exactly when a later posting has receipt metadata |
| DefaultTransactions.DefaultErrorsTally | validate_transactions/utils/default_transactions.py:18-39 | the loop adds one error per later posting to another party and one valuables error per later posting with receipt metadata |
| DefaultTransactions.DefaultErrorsBlock | validate_transactions/utils/default_transactions.py:18-39 | the errors of posting `i` come as one block right after those of the postings before it, and stay in place as the loop goes on |
| DefaultTransactions.DefaultErrorsBlockAt | validate_transactions/utils/default_transactions.py:6-41 | in the result, posting `i`'s errors sit exactly after the transfer error and the errors of the earlier later postings |
| DefaultTransactions.DefaultErrorsCount | validate_transactions/utils/default_transactions.py:6-41 | as many valuables errors as later postings with receipt metadata; in all, the transfer error plus one per foreign later posting and one per receipt |
| DefaultTransactions.DefaultErrorsEmpty | validate_transactions/utils/default_transactions.py:6-41 | no errors exactly when no check fails |
| DefaultTransactions.CheckDefaultTransaction | validate_transactions/utils/default_transactions.py:6-41 | the loop returns exactly the specified errors |
| DefaultTransactions.CheckLaterPostings | validate_transactions/utils/default_transactions.py:18-39 | the posting loop returns exactly the specified errors |
| RootValidateTransactions.FindTagWithPrefix | validate_transactions.py:27-31 | `is_transfer_transaction` and `is_owed_transaction`: the loop answers true exactly when some tag starts with the prefix |
| RootValidateTransactions.ScanOwedTags | validate_transactions.py:183-218 | the tag scan reports only owed errors on the entry |
| RootValidateTransactions.OwedPostingErrorsFrom | validate_transactions.py:220-235 | at most one error per posting after the first |
| RootValidateTransactions.StoppedScanStays | validate_transactions.py:183-202 | once a tag is rejected, later tags change nothing |
| RootValidateTransactions.ScanStopsAtFirstRejected | validate_transactions.py:183-202 | the scan stops exactly when some tag is unknown or owed by the party itself, with the error for the first such tag |
| RootValidateTransactions.RejectedTagIsTheOnlyError | validate_transactions.py:183-202 | a rejected tag makes its error the only one returned |
| RootValidateTransactions.OwedTagsAreScanned | validate_transactions.py:165-184 | every key of the owed table starts with `owed` |
| RootValidateTransactions.ScanStep | validate_transactions.py:183-218 | one owed tag adds its prefix to the allowed list and its missing-expense error when no account has that component; other tags change nothing |
| RootValidateTransactions.ScannedAllowed | validate_transactions.py:183-218 | the allowed prefixes are exactly those of the scanned owed tags |
| RootValidateTransactions.MissingExpenseBefore | validate_transactions.py:204-216 | the indexes, in increasing order, of exactly the owed tags whose prefix no account has |
| RootValidateTransactions.ScannedErrorsInOrder | validate_transactions.py:204-216 | until the scan stops, its errors are one missing-expense error per owed tag whose prefix no account has, in tag order, and no others |
| RootValidateTransactions.ScannedErrors | validate_transactions.py:204-216 | a missing-expense error exactly for each owed tag whose prefix no account has |
| RootValidateTransactions.OwedPostingErrorsContents | validate_transactions.py:220-235 | the party error for posting `i` exactly when `i` is after the first, the posting is to another party, and `root(2, account)` is not an allowed prefix |
| RootValidateTransactions.FlaggedPostingsBefore | validate_transactions.py:220-235 | the indexes, in increasing order, of exactly the later postings to another party whose `root(2, account)` is not allowed |
| RootValidateTransactions.OwedPostingErrorsInOrder | validate_transactions.py:220-235 | the posting loop appends one party error per flagged later posting, in posting order, and nothing else |
| RootValidateTransactions.OwedErrorsMembers | validate_transactions.py:164-237 | with no rejected tag, each party error and each missing-expense error appears exactly when its check fails |
| RootValidateTransactions.OwedErrorsInOrder | validate_transactions.py:164-237 | with no rejected tag, the result is the missing-expense errors in tag order, then the party errors in posting order, and its length is their sum |
| RootValidateTransactions.OwedErrorAt | validate_transactions.py:164-237 | with no rejected tag, the error at any position is a missing-expense error of an unposted owed tag or the party error of a flagged later posting |
| RootValidateTransactions.OwedErrorsNothingElse | validate_transactions.py:164-237 | with no rejected tag, every error is a missing-expense error of an unposted owed tag or the party error of a flagged later posting |
| RootValidateTransactions.OwedErrorsWhenNotRejected | validate_transactions.py:164-237 | with no rejected tag, each missing-expense and party error appears exactly when its check fails, nothing else appears, and the length is one per failed check |
| RootValidateTransactions.OwedErrorKinds | validate_transactions.py:164-237 | only owed and posting-to-another-party errors |
| RootValidateTransactions.CheckOwedTransaction | validate_transactions.py:164-237 | the loops return exactly the specified owed errors |
| RootValidateTransactions.CheckOwedPostings | validate_transactions.py:220-235 | the posting loop returns exactly the specified party errors |
| RootValidateTransactions.DefaultErrorsFrom | validate_transactions.py:252-262 | at most one error per posting after the first |
| RootValidateTransactions.DefaultErrorsMembers | validate_transactions.py:252-262 | the loop keeps earlier errors and adds a party error exactly for each later posting to another party |
| RootValidateTransactions.DefaultErrorsContents | validate_transactions.py:240-264 | the transfer error exactly when an account has a `Transfers` component (and then first), and party errors exactly for later postings to another party |
| RootValidateTransactions.CheckDefaultTransaction | validate_transactions.py:240-264 | the loop returns exactly the specified errors |
| RootValidateTransactions.CheckDefaultPostings | validate_transactions.py:252-262 | the posting loop returns exactly the specified errors |
| RootValidateTransactions.AddEntryErrors | validate_transactions.py:282-309 | an entry's errors go after those already found, and entries that are not transactions add none |
| RootValidateTransactions.CheckTransaction | validate_transactions.py:301-309 | the dispatch returns exactly the checks of the first matching category |
| RootValidateTransactions.CheckJournalTransaction | validate_transactions.py:292-309 | the first-posting check, then the dispatch |
| RootValidateTransactions.ValidateTransactions | validate_transactions.py:267-311 | the entries come back unchanged, with exactly the errors of the fold over the entries |
| RootValidateTransactions.DispatchIsExclusive | validate_transactions.py:301-309 | a transfer-tagged transaction draws only transfer errors, an owed-tagged one only owed and party errors, and any other only default errors |
| RootValidateTransactions.FirstPostingCheckedOnce | validate_transactions.py:292-299 | the first-posting error is reported first, exactly when the first posting is not to the journal account, and nowhere else |
| RootValidateTransactions.ContextFileIsLast | validate_transactions.py:275-278 | the tracked file is the file of the latest entry |
| RootValidateTransactions.ContextFromDirective | validate_transactions.py:275-281 | a set party and account come from a directive in the same file with no file change since |
| RootValidateTransactions.NoDirectiveMeansMissingContext | validate_transactions.py:283-291 | a transaction with no directive earlier in its file run adds exactly the missing-directive error |
| RootValidateTransactions.ErrorsInEntryOrder | validate_transactions.py:274-311 | the errors of earlier entries are a prefix of those of later ones |
| RootValidateTransactions.ErrorsStep | validate_transactions.py:274-311 | handling one more entry keeps every error found so far, in front |
| PackageValidateTransactions.GetTransactionFilename | validate_transactions/validate_transactions.py:17-28 | the file name is returned, with the journal error exactly when the file has no party and account |
| PackageValidateTransactions.ValidateFirstPostingAccount | validate_transactions/validate_transactions.py:30-38 | the error, naming the account, exactly when the first posting is to another account |
| PackageValidateTransactions.OpeningBalanceBlock | validate_transactions/validate_transactions.py:81-82 | the opening-balance step reports only opening-balance errors |
| PackageValidateTransactions.TransferBlock | validate_transactions/validate_transactions.py:84-85 | the transfer step reports only transfer errors |
| PackageValidateTransactions.OwedBlock | validate_transactions/validate_transactions.py:87-88 | the owed step reports only owed and party errors |
| PackageValidateTransactions.ReceiptBlock | validate_transactions/validate_transactions.py:90-91 | the receipt step reports only receipt errors |
| PackageValidateTransactions.PayslipBlock | validate_transactions/validate_transactions.py:94-95 | the payslip step reports only payslip errors |
| PackageValidateTransactions.Queued | validate_transactions/validate_transactions.py:90-96 | the transaction is queued once as a receipt and once as a payslip, exactly when it is each |
| PackageValidateTransactions.OfCategoryOfFive | validate_transactions/validate_transactions.py:81-96 | filtering the joined category errors by a category gives that category's block |
| PackageValidateTransactions.CategoryErrorsByCategory | validate_transactions/validate_transactions.py:81-96 | the errors of one category in a transaction's result are exactly that category's check |
| PackageValidateTransactions.FirstPostingCheckedOnce | validate_transactions/validate_transactions.py:77-79 | the first-posting error comes first, exactly when the first posting is not to the file's account, and no category check reports it |
| PackageValidateTransactions.Checked | validate_transactions/validate_transactions.py:57-58 | checking an entry keeps its file and skip status, and changes only balance assertions |
| PackageValidateTransactions.CheckedUpTo | validate_transactions/validate_transactions.py:53-59 | the rewritten prefix has one entry per entry checked |
| PackageValidateTransactions.EntryPass | validate_transactions/validate_transactions.py:53-96 | one entry only appends errors and queued entries; a skipped entry leaves no trace |
| PackageValidateTransactions.FileAccountsKnown | validate_transactions/validate_transactions.py:61-66 | a file is in the map exactly when it was before or a handled initialiser names it |
| PackageValidateTransactions.LatestInitialiserWins | validate_transactions/validate_transactions.py:61-66 | the map holds the party and account of the file's latest initialiser |
| PackageValidateTransactions.FileAccountsAcrossCalls | validate_transactions/validate_transactions.py:15 | the module-level map outlives a call: two calls leave it as one call over both lists would |
| PackageValidateTransactions.FileAccountsOfPrefix | validate_transactions/validate_transactions.py:53-66 | the map after a prefix of the entries depends only on that prefix |
| PackageValidateTransactions.QueuedEntries | validate_transactions/validate_transactions.py:57-96 | only unskipped balance assertions, receipts and payslips are queued, and a queued balance never holds a statement dated in the future |
| PackageValidateTransactions.EntryQueuesDocumentable | validate_transactions/validate_transactions.py:57-96 | handling one entry adds to the queue only an unskipped balance assertion without a future statement, a receipt or a payslip |
| PackageValidateTransactions.UninitialisedFileReported | validate_transactions/validate_transactions.py:69-72 | a transaction from a file with no initialiser adds exactly the journal error and queues nothing |
| PackageValidateTransactions.SkippedEntryLeavesNoTrace | validate_transactions/validate_transactions.py:54-55 | a skipped entry changes neither errors, queue, map nor the entry |
| PackageValidateTransactions.EntryQueued | validate_transactions/validate_transactions.py:57-96 | a balance adds its check's errors and is queued as checked; a transaction from a known file is queued once per document kind it is |
| PackageValidateTransactions.PassInEntryOrder | validate_transactions/validate_transactions.py:53-96 | the errors and queue after earlier entries are prefixes of those after later ones |
| PackageValidateTransactions.DocumentsStep | validate_transactions/validate_transactions.py:98-101 | one queued entry appends its document entries and errors |
| PackageValidateTransactions.DocumentsInQueueOrder | validate_transactions/validate_transactions.py:98-101 | the documents of a joined queue are those of its parts, in queue order |
| PackageValidateTransactions.EntryList.constructor | validate_transactions/validate_transactions.py:46 | the list holds the given entries |
| PackageValidateTransactions.ValidationPlugin.constructor | validate_transactions/validate_transactions.py:15 | the map starts empty |
| PackageValidateTransactions.ValidationPlugin.ValidateTransactions | validate_transactions/validate_transactions.py:46-103 | the same list comes back, holding the checked entries then the document entries; the errors are the loop's then the documents'; the map is updated for the next call |
| PackageValidateTransactions.ValidationPlugin.CheckEntries | validate_transactions/validate_transactions.py:53-96 | the loop leaves the map, the list and the errors and queue exactly as the fold specifies |
| PackageValidateTransactions.CheckEntryList | validate_transactions/validate_transactions.py:53-96 | the loop over a list of entries computes exactly the folded list, map and pass |
| PackageValidateTransactions.AppendDocuments | validate_transactions/validate_transactions.py:98-101 | the list is extended by the documents of the queue, and their errors are returned |
| PackageValidateTransactions.CheckEntryAt | validate_transactions/validate_transactions.py:53-96 | one loop iteration advances the list, map and pass by exactly one entry |
| PackageValidateTransactions.HandleEntry | validate_transactions/validate_transactions.py:54-96 | one entry: the checked entry, the updated map and the next pass |
| PackageValidateTransactions.CheckTransaction | validate_transactions/validate_transactions.py:74-96 | a transaction from a known file: the first-posting and category errors, and its queue entries |
| PackageValidateTransactions.CheckCategories | validate_transactions/validate_transactions.py:81-96 | the five category checks, in order, and the queue entries |

## Left out

- Loading, parsing and writing ledgers are beancount's. Entries arrive already parsed, as values.
- `beancount.core.account` and `beancount.core.data` helpers (`split`, `root`, `has_component`, `has_entry_account_component`) are stated directly on account strings, as their documentation describes them.
- `create_document_entries` (`utils/link_documents.py`) is a function parameter of the driver. Its file-system lookups are not modelled.
- `datetime.datetime.now()` is a parameter, `today`.
- Amounts are integers, because only their sign matters to the validators. Decimal arithmetic and currencies are not modelled.
- `str.lower` is modelled on ASCII letters only. Python's full Unicode case mapping is not modelled.
- The exact text of messages that print a Python list is approximated by `Ledger.ListRepr`, for strings without quotes or backslashes.
- The in-place deletion of a balance assertion's `statement` key is modelled by storing the updated entry back into the list. Aliasing of the entry's metadata dictionary with other references is not modelled.
- Exceptions are not modelled: the `TypeError` from the two-argument payslip call, the `ImportError` for `JournalError`, and `KeyError` on entries without a file name. The model runs the code as if these calls succeed.
- The `unused_options_map` argument is ignored by both drivers and is left out.
- Collecting `events` and `trip_transactions` in the package driver is left out: they are never used.
- `validate_shared_ratio.py` is another plugin and is not part of this model.
- Accounts.Root: stated for `n >= 1` only; `root(0, name)` is never called.
- PackageValidateTransactions.TransactionReadable: requires a first posting, so the `IndexError` of `entry.postings[0]` on a transaction without postings (validate_transactions/validate_transactions.py:32) is not modelled; the same predicate excludes the `IndexError` of `entry.postings[1]` on an opening-balance transaction with one posting (validate_transactions/utils/opening_balance_transactions.py:28) and on a transfer with one posting (validate_transactions/utils/transfer_transactions.py:102).
- RootValidateTransactions.TransactionReadable: requires a first posting, so the `IndexError` of `entry.postings[0]` on a transaction without postings (validate_transactions.py:292) is not modelled, nor that of `entry.postings[1]` on a transfer with one posting (validate_transactions.py:127).
- RootValidateTransactions.DirectiveReadable: requires an account directive's first value to have at least two components, so the `IndexError` of `account.split(main_account)[1]` on a one-component account (validate_transactions.py:279-281) is not modelled.
- PackageValidateTransactions.EntryReadable: requires an `initialise_journal_file` directive to have two values, so the `IndexError` of `entry.values[1]` on a one-value directive (validate_transactions/validate_transactions.py:65) is not modelled. It also requires HasNextMonth for a balance assertion with a statement.
- Dates.HasNextMonth: adding a month to a date in December of year 9999 raises a `ValueError` (year 10000 is out of range for `datetime.date`) inside `relativedelta`'s addition (validate_transactions/utils/balance_assertions.py:18); the operations that add a month require this predicate instead of modelling the exception.
- OpeningBalanceTransactions.ValidateOpeningBalance: requires two postings, because `entry.postings[1]` raises `IndexError` on a transaction with fewer (validate_transactions/utils/opening_balance_transactions.py:28); the two-postings error is therefore only ever reported for three or more postings.
