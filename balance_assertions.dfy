/** Balance assertions and their statement files (validate_transactions/utils/balance_assertions.py). */
module BalanceAssertions {
  import opened Accounts
  import opened Dates
  import opened Ledger

  const Statement := "statement"
  const ClosingStatementSuffix := "_closing-statement.pdf"
  const Pdf := ".pdf"

  /** What the check returns, and the balance entry's metadata after it. */
  datatype BalanceCheck = BalanceCheck(errors: seq<ValidationError>, meta: Metadata)

  const MissingStatementError := ValidationError(BalanceAssertionError, StatementMetadataMissing, OfEntry)

  function MisnamedStatementError(statementDate: CalendarDate): ValidationError
  {
    ValidationError(BalanceAssertionError, StatementFileMisnamed(IsoFormat(statementDate)), OfEntry)
  }

  /** The statement file name is accepted: it ends with the statement date or is a closing statement. */
  predicate StatementNamedFor(statement: string, statementDate: CalendarDate)
  {
    EndsWith(statement, IsoFormat(statementDate) + Pdf) || EndsWith(statement, ClosingStatementSuffix)
  }

  /**
   * `validate_balance_assertion(entry)` on a balance dated `date` with
   * metadata `meta`, where `today` stands for `datetime.datetime.now().date()`.
   * The source deletes the "statement" key from the entry's own metadata; the
   * new metadata is returned instead.
   */
  function ValidateBalanceAssertion(date: CalendarDate, meta: Metadata, today: CalendarDate): (r: BalanceCheck)
    // with a statement, `date + relativedelta(months=+1)` must stay within `datetime.date`'s years
    requires Statement in meta ==> HasNextMonth(date)
    // no statement: exactly one error, and the metadata is left alone
    ensures Statement !in meta ==> r == BalanceCheck([MissingStatementError], meta)
    // otherwise: one error exactly when the file is misnamed and its date has come
    ensures Statement in meta ==>
              r.errors == (if !StatementNamedFor(meta[Statement], StatementDate(date)) && !Before(today, StatementDate(date))
                           then [MisnamedStatementError(StatementDate(date))] else [])
    // the statement is dropped exactly when its date is still to come, and nothing else changes
    ensures Statement in meta ==>
              r.meta == if Before(today, StatementDate(date)) then meta - {Statement} else meta
    ensures |r.errors| <= 1
  {
    if Statement !in meta then BalanceCheck([MissingStatementError], meta)
    else
      var statementDate := StatementDate(date);
      var inFuture := Before(today, statementDate);
      var errors := When(!StatementNamedFor(meta[Statement], statementDate) && !inFuture,
                         MisnamedStatementError(statementDate));
      BalanceCheck(errors, if inFuture then meta - {Statement} else meta)
  }

  /**
   * A statement whose date is still to come is never reported, and its key
   * is removed, so a second check of the same entry reports it missing.
   */
  lemma FutureStatementIsDropped(date: CalendarDate, meta: Metadata, today: CalendarDate)
    requires HasNextMonth(date)
    requires Statement in meta && Before(today, StatementDate(date))
    ensures ValidateBalanceAssertion(date, meta, today).errors == []
    ensures Statement !in ValidateBalanceAssertion(date, meta, today).meta
    ensures ValidateBalanceAssertion(date, ValidateBalanceAssertion(date, meta, today).meta, today).errors
              == [MissingStatementError]
  {
  }

  /**
   * A statement file named for the date one month after the balance, less a
   * day, is accepted; that date always falls after the balance's.
   */
  lemma StatementForNextMonthAccepted(date: CalendarDate, meta: Metadata, today: CalendarDate, stem: string)
    requires HasNextMonth(date)
    requires Statement in meta && meta[Statement] == stem + IsoFormat(StatementDate(date)) + Pdf
    ensures ValidateBalanceAssertion(date, meta, today).errors == []
    ensures Before(date, StatementDate(date))
  {
    var suffix := IsoFormat(StatementDate(date)) + Pdf;
    assert meta[Statement][|meta[Statement]| - |suffix|..] == suffix;
    EndsWithTail(meta[Statement], suffix);
    StatementDateIsLater(date);
  }

  /**
   * Once the statement's date has come, a file named for any other date is
   * reported, unless it is a closing statement; the message names the
   * expected date.
   */
  lemma OtherDateRejected(date: CalendarDate, meta: Metadata, today: CalendarDate, other: CalendarDate, stem: string)
    requires HasNextMonth(date)
    requires !Before(today, StatementDate(date))
    requires Statement in meta && meta[Statement] == stem + IsoFormat(other) + Pdf && other != StatementDate(date)
    ensures ValidateBalanceAssertion(date, meta, today).errors == [MisnamedStatementError(StatementDate(date))]
  {
    var statement := meta[Statement];
    var named := IsoFormat(other) + Pdf;
    var expected := IsoFormat(StatementDate(date)) + Pdf;
    assert statement == stem + named;
    assert statement[|statement| - 14..] == named;
    EndsWithTail(statement, expected);
    EndsWithTail(statement, ClosingStatementSuffix);
    if EndsWith(statement, expected) {
      assert named == expected;
      assert IsoFormat(other) == named[..10] == expected[..10] == IsoFormat(StatementDate(date));
      IsoFormatInjective(other, StatementDate(date));
    }
    assert statement[|statement| - 5] == IsoFormat(other)[9];
    assert '0' <= IsoFormat(other)[9] <= '9';
    assert ClosingStatementSuffix[|ClosingStatementSuffix| - 5] == 't';
  }
}
