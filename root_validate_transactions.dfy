/**
 * The single-file plugin validate_transactions.py: per-file journal context
 * from a "journal account name" directive, then transfer, owed or default
 * checks on each transaction.
 */
module RootValidateTransactions {
  import opened Accounts
  import opened Ledger
  import opened Common
  import Transfer = TransferTransactions

  const TransferPrefix := "transfer"
  const OwedPrefix := "owed"
  const OwedByPrefix := "owed-by-"
  const TransfersComponent := "Transfers"
  const AccountDirective := "journal account name"

  /**
   * The loop of `is_transfer_transaction` and `is_owed_transaction`: return
   * on the first tag starting with `prefix`.
   */
  method FindTagWithPrefix(tags: seq<string>, prefix: string) returns (found: bool)
    ensures found == AnyTagStartsWith(tags, prefix)
  {
    for i := 0 to |tags|
      invariant forall m :: 0 <= m < i ==> !StartsWith(tags[m], prefix)
    {
      if StartsWith(tags[i], prefix) {
        return true;
      }
    }
    return false;
  }

  // ---- check_owed_transaction ----
  //
  // The source keeps its own copy of the owed check, with a smaller table and
  // one prefix per tag; its model below mirrors the OwedTransactions module
  // lemma for lemma.

  /** For each owed tag, the one account prefix it allows besides the file's own party. */
  const OwedTypes: map<string, string> := map[
    "owed-by-francis" := "Expenses:Francis",
    "owed-by-leyna" := "Expenses:Leyna",
    "owed-by-shared" := "Expenses:Shared"
  ]

  /** A tag the scan stops at: an unknown owed tag, or one saying the file's own party owes. */
  predicate Rejects(tag: string, party: string)
  {
    StartsWith(tag, OwedPrefix) && (tag !in OwedTypes || tag == OwedByPrefix + ToLower(party))
  }

  function RejectionError(tag: string): ValidationError
  {
    if tag !in OwedTypes then ValidationError(InvalidOwedTransaction, InvalidOwedTag(tag), OfEntry)
    else ValidationError(InvalidOwedTransaction, OwedTagMustBeForAnotherParty, OfEntry)
  }

  function MissingExpenseError(prefix: string): ValidationError
  {
    ValidationError(InvalidOwedTransaction, ExpectedExpenseAccountForOwedParty(prefix), OfEntry)
  }

  /** Where the loop over the tags stands: stopped with one error, or still going. */
  datatype OwedScan =
    | Stopped(error: ValidationError)
    | Scanned(errors: seq<ValidationError>, allowed: seq<string>)

  /** The loop over the tags after it has looked at `tags[..k]`. */
  function ScanOwedTags(t: Transaction, party: string, k: nat): (scan: OwedScan)
    requires k <= |t.tags|
    ensures scan.Scanned? ==> forall e :: e in scan.errors ==> e.kind == InvalidOwedTransaction && e.subject == OfEntry
    ensures scan.Stopped? ==> scan.error.kind == InvalidOwedTransaction
  {
    if k == 0 then Scanned([], [])
    else
      var scan := ScanOwedTags(t, party, k - 1);
      var tag := t.tags[k - 1];
      if scan.Stopped? || !StartsWith(tag, OwedPrefix) then scan
      else if Rejects(tag, party) then Stopped(RejectionError(tag))
      else
        var prefix := OwedTypes[tag];
        Scanned(scan.errors + When(!HasEntryAccountComponent(t.postings, prefix), MissingExpenseError(prefix)),
                scan.allowed + [prefix])
  }

  /** A later posting is allowed when it belongs to the party or its first two components are an allowed prefix. */
  predicate OwedPostingAllowed(account: AccountName, party: string, allowed: seq<string>)
  {
    PartyOf(account) == party || Root(2, account) in allowed
  }

  function OwedPartyError(party: string, allowed: seq<string>, i: nat): ValidationError
  {
    ValidationError(PostingToAnotherPartyError, PostingNotOwnedByPartyOrOwedExpense(party, allowed), OfPosting(i))
  }

  /**
   * The indexes among 0 .. k-1 of the owed tags whose prefix no posting has,
   * in increasing order.
   */
  function MissingExpenseBefore(t: Transaction, k: nat): (indexes: seq<nat>)
    requires k <= |t.tags|
    ensures forall i :: i in indexes <==>
                          0 <= i < k && t.tags[i] in OwedTypes && !HasEntryAccountComponent(t.postings, OwedTypes[t.tags[i]])
    ensures forall j :: 0 <= j < |indexes| ==> indexes[j] < k && t.tags[indexes[j]] in OwedTypes
    ensures forall a, b :: 0 <= a < b < |indexes| ==> indexes[a] < indexes[b]
  {
    if k == 0 then []
    else
      var before := MissingExpenseBefore(t, k - 1);
      assert forall a :: 0 <= a < |before| ==> before[a] < k - 1 by {
        forall a | 0 <= a < |before| ensures before[a] < k - 1 {
          assert before[a] in before;
        }
      }
      var tag := t.tags[k - 1];
      before + (if tag in OwedTypes && !HasEntryAccountComponent(t.postings, OwedTypes[tag]) then [k - 1] else [])
  }

  /** The indexes among 1 .. k-1 of the later postings that are not allowed, in increasing order. */
  function FlaggedPostingsBefore(t: Transaction, party: string, allowed: seq<string>, k: nat): (indexes: seq<nat>)
    requires k <= |t.postings|
    ensures forall i :: i in indexes <==> 1 <= i < k && !OwedPostingAllowed(t.postings[i].account, party, allowed)
    ensures forall a, b :: 0 <= a < b < |indexes| ==> indexes[a] < indexes[b]
  {
    if k <= 1 then []
    else
      var before := FlaggedPostingsBefore(t, party, allowed, k - 1);
      assert forall a :: 0 <= a < |before| ==> before[a] < k - 1 by {
        forall a | 0 <= a < |before| ensures before[a] < k - 1 {
          assert before[a] in before;
        }
      }
      before + (if !OwedPostingAllowed(t.postings[k - 1].account, party, allowed) then [k - 1] else [])
  }

  /** `errors` once the loop over `postings[1:]` has looked at the postings before index `k`. */
  function OwedPostingErrorsFrom(errors: seq<ValidationError>, t: Transaction, party: string, allowed: seq<string>, k: nat)
    : (errs: seq<ValidationError>)
    requires k <= |t.postings|
    ensures |errors| <= |errs| <= |errors| + (if k == 0 then 0 else k - 1)
  {
    if k <= 1 then errors
    else
      OwedPostingErrorsFrom(errors, t, party, allowed, k - 1)
      + When(!OwedPostingAllowed(t.postings[k - 1].account, party, allowed), OwedPartyError(party, allowed, k - 1))
  }

  /** What `check_owed_transaction(entry, party)` returns. */
  function OwedErrors(t: Transaction, party: string): seq<ValidationError>
  {
    match ScanOwedTags(t, party, |t.tags|)
    case Stopped(e) => [e]
    case Scanned(errors, allowed) => OwedPostingErrorsFrom(errors, t, party, allowed, |t.postings|)
  }

  /** Once the scan has stopped it stays stopped at the same error. */
  lemma {:induction false} StoppedScanStays(t: Transaction, party: string, k: nat, n: nat)
    requires k <= n <= |t.tags|
    requires ScanOwedTags(t, party, k).Stopped?
    ensures ScanOwedTags(t, party, n) == ScanOwedTags(t, party, k)
  {
    if n > k {
      StoppedScanStays(t, party, k, n - 1);
    }
  }

  /** The scan stops exactly when some tag is rejected, and then at the first rejected tag's error. */
  lemma {:induction false} ScanStopsAtFirstRejected(t: Transaction, party: string, k: nat)
    requires k <= |t.tags|
    ensures ScanOwedTags(t, party, k).Stopped? <==> exists i :: 0 <= i < k && Rejects(t.tags[i], party)
    ensures ScanOwedTags(t, party, k).Stopped? ==>
              exists i :: 0 <= i < k && Rejects(t.tags[i], party) && ScanOwedTags(t, party, k).error == RejectionError(t.tags[i])
                          && forall m :: 0 <= m < i ==> !Rejects(t.tags[m], party)
  {
    if k > 0 {
      ScanStopsAtFirstRejected(t, party, k - 1);
      if ScanOwedTags(t, party, k - 1).Stopped? {
        var i :| 0 <= i < k - 1 && Rejects(t.tags[i], party) && ScanOwedTags(t, party, k - 1).error == RejectionError(t.tags[i])
                 && forall m :: 0 <= m < i ==> !Rejects(t.tags[m], party);
        assert ScanOwedTags(t, party, k).error == RejectionError(t.tags[i]);
      } else if Rejects(t.tags[k - 1], party) {
        assert forall m :: 0 <= m < k - 1 ==> !Rejects(t.tags[m], party);
      }
    }
  }

  /** A rejected tag makes the result exactly one error: the first rejected tag's. */
  lemma RejectedTagIsTheOnlyError(t: Transaction, party: string)
    requires exists i :: 0 <= i < |t.tags| && Rejects(t.tags[i], party)
    ensures exists i :: 0 <= i < |t.tags| && Rejects(t.tags[i], party) && OwedErrors(t, party) == [RejectionError(t.tags[i])]
                        && forall m :: 0 <= m < i ==> !Rejects(t.tags[m], party)
  {
    ScanStopsAtFirstRejected(t, party, |t.tags|);
  }

  /** Every owed tag starts with the owed prefix, so the scan looks at it. */
  lemma OwedTagsAreScanned(tag: string)
    requires tag in OwedTypes
    ensures StartsWith(tag, OwedPrefix)
  {
  }

  /** One step of a scan that has not stopped: an owed tag adds its prefix, and its error when no posting has it; any other tag changes nothing. */
  lemma ScanStep(t: Transaction, party: string, k: nat)
    requires 0 < k <= |t.tags| && ScanOwedTags(t, party, k).Scanned?
    ensures ScanOwedTags(t, party, k - 1).Scanned?
    ensures var before, after, tag := ScanOwedTags(t, party, k - 1), ScanOwedTags(t, party, k), t.tags[k - 1];
            if tag in OwedTypes then
              after.allowed == before.allowed + [OwedTypes[tag]]
              && after.errors == before.errors + When(!HasEntryAccountComponent(t.postings, OwedTypes[tag]), MissingExpenseError(OwedTypes[tag]))
            else after == before
  {
    var tag := t.tags[k - 1];
    ScanStopsAtFirstRejected(t, party, k);
    ScanStopsAtFirstRejected(t, party, k - 1);
    assert !Rejects(tag, party);
    if tag in OwedTypes {
      OwedTagsAreScanned(tag);
    } else {
      assert !StartsWith(tag, OwedPrefix);
    }
  }

  /** Until it stops, the scan has allowed the prefix of every owed tag seen so far. */
  lemma {:induction false} ScannedAllowed(t: Transaction, party: string, k: nat)
    requires k <= |t.tags|
    requires ScanOwedTags(t, party, k).Scanned?
    ensures forall p :: p in ScanOwedTags(t, party, k).allowed <==>
                          exists i :: 0 <= i < k && t.tags[i] in OwedTypes && p == OwedTypes[t.tags[i]]
  {
    if k > 0 {
      ScanStep(t, party, k);
      ScannedAllowed(t, party, k - 1);
      AllowedStep(ScanOwedTags(t, party, k - 1).allowed, ScanOwedTags(t, party, k).allowed, t.tags, k, OwedTypes);
    }
  }

  /** One tag of the scan, for any table `m`: a tag in the table adds its prefix, any other tag nothing. */
  lemma AllowedStep(before: seq<string>, after: seq<string>, tags: seq<string>, k: nat, m: map<string, string>)
    requires 0 < k <= |tags|
    requires forall p :: p in before <==> exists i :: 0 <= i < k - 1 && tags[i] in m && p == m[tags[i]]
    requires if tags[k - 1] in m then after == before + [m[tags[k - 1]]] else after == before
    ensures forall p :: p in after <==> exists i :: 0 <= i < k && tags[i] in m && p == m[tags[i]]
  {
    forall p | p in after
      ensures exists i :: 0 <= i < k && tags[i] in m && p == m[tags[i]]
    {
      if p in before {
        var i :| 0 <= i < k - 1 && tags[i] in m && p == m[tags[i]];
        assert 0 <= i < k;
      } else {
        assert tags[k - 1] in m && p == m[tags[k - 1]];
      }
    }
    forall p, i | 0 <= i < k && tags[i] in m && p == m[tags[i]]
      ensures p in after
    {
      if i < k - 1 {
        assert p in before;
      }
    }
  }

  /**
   * Until it stops, the scan has reported a missing-expense error for exactly
   * those owed tags whose prefix no posting has, at most one per tag.
   */
  lemma {:induction false} ScannedErrors(t: Transaction, party: string, k: nat)
    requires k <= |t.tags|
    requires ScanOwedTags(t, party, k).Scanned?
    ensures forall e :: e in ScanOwedTags(t, party, k).errors <==>
                          exists i :: 0 <= i < k && t.tags[i] in OwedTypes && !HasEntryAccountComponent(t.postings, OwedTypes[t.tags[i]])
                                      && e == MissingExpenseError(OwedTypes[t.tags[i]])
    ensures |ScanOwedTags(t, party, k).errors| <= k
  {
    if k > 0 {
      ScanStep(t, party, k);
      ScannedErrors(t, party, k - 1);
      MissingStep(ScanOwedTags(t, party, k - 1).errors, ScanOwedTags(t, party, k).errors, t, k, OwedTypes);
    }
  }

  /** One tag of the scan, for any table `m`: a tag in the table adds its error when no posting has its prefix, any other tag nothing. */
  lemma MissingStep(before: seq<ValidationError>, after: seq<ValidationError>, t: Transaction, k: nat, m: map<string, string>)
    requires 0 < k <= |t.tags|
    requires forall e :: e in before <==>
                           exists i :: 0 <= i < k - 1 && t.tags[i] in m && !HasEntryAccountComponent(t.postings, m[t.tags[i]])
                                       && e == MissingExpenseError(m[t.tags[i]])
    requires if t.tags[k - 1] in m
             then after == before + When(!HasEntryAccountComponent(t.postings, m[t.tags[k - 1]]), MissingExpenseError(m[t.tags[k - 1]]))
             else after == before
    ensures forall e :: e in after <==>
                          exists i :: 0 <= i < k && t.tags[i] in m && !HasEntryAccountComponent(t.postings, m[t.tags[i]])
                                      && e == MissingExpenseError(m[t.tags[i]])
  {
    forall e | e in after
      ensures exists i :: 0 <= i < k && t.tags[i] in m && !HasEntryAccountComponent(t.postings, m[t.tags[i]])
                          && e == MissingExpenseError(m[t.tags[i]])
    {
      if e in before {
        var i :| 0 <= i < k - 1 && t.tags[i] in m && !HasEntryAccountComponent(t.postings, m[t.tags[i]])
                 && e == MissingExpenseError(m[t.tags[i]]);
        assert 0 <= i < k;
      } else {
        var tag := t.tags[k - 1];
        assert tag in m && !HasEntryAccountComponent(t.postings, m[tag]) && e == MissingExpenseError(m[tag]);
      }
    }
    forall e, i | 0 <= i < k && t.tags[i] in m && !HasEntryAccountComponent(t.postings, m[t.tags[i]])
                  && e == MissingExpenseError(m[t.tags[i]])
      ensures e in after
    {
      if i < k - 1 {
        assert e in before;
      }
    }
  }

  /**
   * Until it stops, the scan's errors are one missing-expense error per owed
   * tag whose prefix no posting has, in tag order.
   */
  lemma {:induction false} ScannedErrorsInOrder(t: Transaction, party: string, k: nat)
    requires k <= |t.tags|
    requires ScanOwedTags(t, party, k).Scanned?
    ensures |ScanOwedTags(t, party, k).errors| == |MissingExpenseBefore(t, k)|
    ensures forall j :: 0 <= j < |MissingExpenseBefore(t, k)| ==>
                          ScanOwedTags(t, party, k).errors[j] == MissingExpenseError(OwedTypes[t.tags[MissingExpenseBefore(t, k)[j]]])
  {
    if k > 0 {
      ScanStep(t, party, k);
      ScannedErrorsInOrder(t, party, k - 1);
    }
  }

  /**
   * The posting loop appends one party error per later posting that is not
   * allowed, in posting order, and nothing else.
   */
  lemma {:induction false} OwedPostingErrorsInOrder(errors: seq<ValidationError>, t: Transaction, party: string,
                                                    allowed: seq<string>, k: nat)
    requires k <= |t.postings|
    ensures |OwedPostingErrorsFrom(errors, t, party, allowed, k)| == |errors| + |FlaggedPostingsBefore(t, party, allowed, k)|
    ensures forall j :: 0 <= j < |FlaggedPostingsBefore(t, party, allowed, k)| ==>
                          OwedPostingErrorsFrom(errors, t, party, allowed, k)[|errors| + j]
                          == OwedPartyError(party, allowed, FlaggedPostingsBefore(t, party, allowed, k)[j])
  {
    if k > 1 {
      OwedPostingErrorsInOrder(errors, t, party, allowed, k - 1);
    }
  }

  /**
   * The posting loop keeps the errors it started with, in front, and adds one
   * error for each later posting that is not allowed.
   */
  lemma {:induction false} OwedPostingErrorsContents(errors: seq<ValidationError>, t: Transaction, party: string,
                                                     allowed: seq<string>, k: nat)
    requires k <= |t.postings|
    ensures OwedPostingErrorsFrom(errors, t, party, allowed, k)[..|errors|] == errors
    ensures forall i: nat :: OwedPartyError(party, allowed, i) in OwedPostingErrorsFrom(errors, t, party, allowed, k)[|errors|..] <==>
                               1 <= i < k && !OwedPostingAllowed(t.postings[i].account, party, allowed)
    ensures forall e :: e in OwedPostingErrorsFrom(errors, t, party, allowed, k)[|errors|..] ==>
                          e.kind == PostingToAnotherPartyError && e.subject.OfPosting?
  {
    if k > 1 {
      OwedPostingErrorsContents(errors, t, party, allowed, k - 1);
      var before := OwedPostingErrorsFrom(errors, t, party, allowed, k - 1);
      var errs := OwedPostingErrorsFrom(errors, t, party, allowed, k);
      var added := When(!OwedPostingAllowed(t.postings[k - 1].account, party, allowed), OwedPartyError(party, allowed, k - 1));
      assert errs[..|before|] == before;
      assert errs[..|errors|] == before[..|errors|];
      assert errs[|errors|..] == before[|errors|..] + added;
      forall i: nat
        ensures OwedPartyError(party, allowed, i) in errs[|errors|..] <==>
                1 <= i < k && !OwedPostingAllowed(t.postings[i].account, party, allowed)
      {
        assert OwedPartyError(party, allowed, i) in added <==>
               i == k - 1 && !OwedPostingAllowed(t.postings[k - 1].account, party, allowed);
      }
    }
  }

  /**
   * When no tag is rejected: a later posting is reported exactly when it is
   * neither the party's nor under an owed tag's prefix, and an owed tag's
   * missing-expense error exactly when no posting has its prefix.
   */
  lemma OwedErrorsMembers(t: Transaction, party: string)
    requires forall i :: 0 <= i < |t.tags| ==> !Rejects(t.tags[i], party)
    ensures ScanOwedTags(t, party, |t.tags|).Scanned?
    ensures var allowed := ScanOwedTags(t, party, |t.tags|).allowed;
            forall i: nat :: OwedPartyError(party, allowed, i) in OwedErrors(t, party) <==>
                               1 <= i < |t.postings| && !OwedPostingAllowed(t.postings[i].account, party, allowed)
    ensures forall prefix :: MissingExpenseError(prefix) in OwedErrors(t, party) <==>
                               exists i :: 0 <= i < |t.tags| && t.tags[i] in OwedTypes && prefix == OwedTypes[t.tags[i]]
                                           && !HasEntryAccountComponent(t.postings, prefix)
  {
    ScanStopsAtFirstRejected(t, party, |t.tags|);
    ScannedAllowed(t, party, |t.tags|);
    ScannedErrors(t, party, |t.tags|);
    var scan := ScanOwedTags(t, party, |t.tags|);
    OwedPostingErrorsContents(scan.errors, t, party, scan.allowed, |t.postings|);
    var errs := OwedErrors(t, party);
    assert errs == scan.errors + errs[|scan.errors|..];
  }

  /**
   * When no tag is rejected, the result is the missing-expense errors of the
   * owed tags whose prefix no posting has, in tag order, then the party
   * errors of the later postings that are not allowed, in posting order.
   */
  lemma OwedErrorsInOrder(t: Transaction, party: string)
    requires forall i :: 0 <= i < |t.tags| ==> !Rejects(t.tags[i], party)
    ensures ScanOwedTags(t, party, |t.tags|).Scanned?
    ensures var allowed := ScanOwedTags(t, party, |t.tags|).allowed;
            |OwedErrors(t, party)| == |MissingExpenseBefore(t, |t.tags|)| + |FlaggedPostingsBefore(t, party, allowed, |t.postings|)|
    ensures forall j :: 0 <= j < |MissingExpenseBefore(t, |t.tags|)| ==>
                          OwedErrors(t, party)[j] == MissingExpenseError(OwedTypes[t.tags[MissingExpenseBefore(t, |t.tags|)[j]]])
    ensures var allowed := ScanOwedTags(t, party, |t.tags|).allowed;
            forall j :: 0 <= j < |FlaggedPostingsBefore(t, party, allowed, |t.postings|)| ==>
                          OwedErrors(t, party)[|MissingExpenseBefore(t, |t.tags|)| + j]
                          == OwedPartyError(party, allowed, FlaggedPostingsBefore(t, party, allowed, |t.postings|)[j])
  {
    ScanStopsAtFirstRejected(t, party, |t.tags|);
    ScannedErrorsInOrder(t, party, |t.tags|);
    var scan := ScanOwedTags(t, party, |t.tags|);
    assert OwedErrors(t, party) == OwedPostingErrorsFrom(scan.errors, t, party, scan.allowed, |t.postings|);
    OwedPostingErrorsContents(scan.errors, t, party, scan.allowed, |t.postings|);
    OwedPostingErrorsInOrder(scan.errors, t, party, scan.allowed, |t.postings|);
  }

  /** The error at position `j` comes from an owed tag whose prefix is unposted or from a later posting that is not allowed. */
  lemma OwedErrorAt(t: Transaction, party: string, j: nat)
    requires forall i :: 0 <= i < |t.tags| ==> !Rejects(t.tags[i], party)
    requires j < |OwedErrors(t, party)|
    ensures ScanOwedTags(t, party, |t.tags|).Scanned?
    ensures var allowed, e := ScanOwedTags(t, party, |t.tags|).allowed, OwedErrors(t, party)[j];
            (exists i :: 0 <= i < |t.tags| && t.tags[i] in OwedTypes && !HasEntryAccountComponent(t.postings, OwedTypes[t.tags[i]])
                         && e == MissingExpenseError(OwedTypes[t.tags[i]]))
            || (exists i :: 1 <= i < |t.postings| && !OwedPostingAllowed(t.postings[i].account, party, allowed)
                            && e == OwedPartyError(party, allowed, i))
  {
    OwedErrorsInOrder(t, party);
    var missing := MissingExpenseBefore(t, |t.tags|);
    if j < |missing| {
      assert missing[j] in missing;
    } else {
      var flagged := FlaggedPostingsBefore(t, party, ScanOwedTags(t, party, |t.tags|).allowed, |t.postings|);
      assert flagged[j - |missing|] in flagged;
    }
  }

  /**
   * When no tag is rejected, every error is the missing-expense error of an
   * owed tag whose prefix no posting has, or the party error of a later
   * posting that is not allowed.
   */
  lemma OwedErrorsNothingElse(t: Transaction, party: string)
    requires forall i :: 0 <= i < |t.tags| ==> !Rejects(t.tags[i], party)
    ensures ScanOwedTags(t, party, |t.tags|).Scanned?
    ensures var allowed := ScanOwedTags(t, party, |t.tags|).allowed;
            forall e :: e in OwedErrors(t, party) ==>
                          (exists i :: 0 <= i < |t.tags| && t.tags[i] in OwedTypes && !HasEntryAccountComponent(t.postings, OwedTypes[t.tags[i]])
                                       && e == MissingExpenseError(OwedTypes[t.tags[i]]))
                          || (exists i :: 1 <= i < |t.postings| && !OwedPostingAllowed(t.postings[i].account, party, allowed)
                                          && e == OwedPartyError(party, allowed, i))
  {
    ScanStopsAtFirstRejected(t, party, |t.tags|);
    var errs := OwedErrors(t, party);
    forall e | e in errs
      ensures var allowed := ScanOwedTags(t, party, |t.tags|).allowed;
              (exists i :: 0 <= i < |t.tags| && t.tags[i] in OwedTypes && !HasEntryAccountComponent(t.postings, OwedTypes[t.tags[i]])
                           && e == MissingExpenseError(OwedTypes[t.tags[i]]))
              || (exists i :: 1 <= i < |t.postings| && !OwedPostingAllowed(t.postings[i].account, party, allowed)
                              && e == OwedPartyError(party, allowed, i))
    {
      var j :| 0 <= j < |errs| && errs[j] == e;
      OwedErrorAt(t, party, j);
    }
  }

  /**
   * When no tag is rejected, the result holds exactly the missing-expense
   * errors of the owed tags whose prefix no posting has and the party errors
   * of the later postings that are not allowed, one each, and nothing else.
   */
  lemma OwedErrorsWhenNotRejected(t: Transaction, party: string)
    requires forall i :: 0 <= i < |t.tags| ==> !Rejects(t.tags[i], party)
    ensures ScanOwedTags(t, party, |t.tags|).Scanned?
    ensures var allowed := ScanOwedTags(t, party, |t.tags|).allowed;
            forall i: nat :: OwedPartyError(party, allowed, i) in OwedErrors(t, party) <==>
                               1 <= i < |t.postings| && !OwedPostingAllowed(t.postings[i].account, party, allowed)
    ensures forall prefix :: MissingExpenseError(prefix) in OwedErrors(t, party) <==>
                               exists i :: 0 <= i < |t.tags| && t.tags[i] in OwedTypes && prefix == OwedTypes[t.tags[i]]
                                           && !HasEntryAccountComponent(t.postings, prefix)
    ensures var allowed := ScanOwedTags(t, party, |t.tags|).allowed;
            |OwedErrors(t, party)| == |MissingExpenseBefore(t, |t.tags|)| + |FlaggedPostingsBefore(t, party, allowed, |t.postings|)|
    ensures var allowed := ScanOwedTags(t, party, |t.tags|).allowed;
            forall e :: e in OwedErrors(t, party) ==>
                          (exists i :: 0 <= i < |t.tags| && t.tags[i] in OwedTypes && !HasEntryAccountComponent(t.postings, OwedTypes[t.tags[i]])
                                       && e == MissingExpenseError(OwedTypes[t.tags[i]]))
                          || (exists i :: 1 <= i < |t.postings| && !OwedPostingAllowed(t.postings[i].account, party, allowed)
                                          && e == OwedPartyError(party, allowed, i))
  {
    OwedErrorsMembers(t, party);
    OwedErrorsInOrder(t, party);
    OwedErrorsNothingElse(t, party);
  }

  /** The owed check reports only its own kind and the party error. */
  lemma OwedErrorKinds(t: Transaction, party: string)
    ensures forall e :: e in OwedErrors(t, party) ==> e.kind == InvalidOwedTransaction || e.kind == PostingToAnotherPartyError
  {
    var scan := ScanOwedTags(t, party, |t.tags|);
    if scan.Scanned? {
      OwedPostingErrorsContents(scan.errors, t, party, scan.allowed, |t.postings|);
      var errs := OwedErrors(t, party);
      assert errs == scan.errors + errs[|scan.errors|..];
    }
  }

  /** `check_owed_transaction(entry, party)`, with its loop over the tags and its loop over the later postings. */
  method CheckOwedTransaction(t: Transaction, party: string) returns (errors: seq<ValidationError>)
    ensures errors == OwedErrors(t, party)
  {
    var allowed: seq<string> := [];
    errors := [];
    var k := 0;
    while k < |t.tags|
      invariant k <= |t.tags|
      invariant ScanOwedTags(t, party, k) == Scanned(errors, allowed)
    {
      var tag := t.tags[k];
      if StartsWith(tag, OwedPrefix) {
        if tag !in OwedTypes || tag == OwedByPrefix + ToLower(party) {
          errors := [RejectionError(tag)];
          StoppedScanStays(t, party, k + 1, |t.tags|);
          return;
        }
        var prefix := OwedTypes[tag];
        ghost var before := errors;
        var found := HasEntryAccountComponent(t.postings, prefix);
        if !found {
          errors := errors + [MissingExpenseError(prefix)];
        }
        assert errors == before + When(!found, MissingExpenseError(prefix));
        allowed := allowed + [prefix];
      }
      k := k + 1;
    }
    errors := CheckOwedPostings(t, party, allowed, errors);
  }

  /** The loop over `postings[1:]` of an owed transaction, extending `errors` with a party error for each posting not allowed. */
  method CheckOwedPostings(t: Transaction, party: string, allowed: seq<string>, base: seq<ValidationError>)
    returns (errors: seq<ValidationError>)
    ensures errors == OwedPostingErrorsFrom(base, t, party, allowed, |t.postings|)
  {
    errors := base;
    if |t.postings| == 0 {
      return;
    }
    var i := 1;
    while i < |t.postings|
      invariant 1 <= i <= |t.postings|
      invariant errors == OwedPostingErrorsFrom(base, t, party, allowed, i)
    {
      var account := t.postings[i].account;
      if PartyOf(account) != party && Root(2, account) !in allowed {
        errors := errors + [OwedPartyError(party, allowed, i)];
      }
      i := i + 1;
    }
  }

  // ---- check_default_transaction ----

  const TransferAccountError := ValidationError(InvalidTransferTransaction, TransferAccountWithoutTags, OfEntry)

  function DefaultPartyError(party: string, i: nat): ValidationError
  {
    ValidationError(PostingToAnotherPartyError, PostingNotOwnedByParty(party), OfPosting(i))
  }

  /** `errors` once the loop over `postings[1:]` has looked at the postings before index `k`. */
  function DefaultErrorsFrom(errors: seq<ValidationError>, t: Transaction, party: string, k: nat)
    : (errs: seq<ValidationError>)
    requires k <= |t.postings|
    ensures |errors| <= |errs| <= |errors| + (if k == 0 then 0 else k - 1)
  {
    if k <= 1 then errors
    else
      DefaultErrorsFrom(errors, t, party, k - 1)
      + When(PartyOf(t.postings[k - 1].account) != party, DefaultPartyError(party, k - 1))
  }

  /** What `check_default_transaction(entry, party)` returns. */
  function DefaultErrors(t: Transaction, party: string): seq<ValidationError>
  {
    DefaultErrorsFrom(When(HasEntryAccountComponent(t.postings, TransfersComponent), TransferAccountError), t, party, |t.postings|)
  }

  /**
   * The loop keeps the errors it started with, in front, and adds one party
   * error for each later posting of another party.
   */
  lemma {:induction false} DefaultErrorsMembers(errors: seq<ValidationError>, t: Transaction, party: string, k: nat)
    requires k <= |t.postings|
    ensures DefaultErrorsFrom(errors, t, party, k)[..|errors|] == errors
    ensures forall e :: e in DefaultErrorsFrom(errors, t, party, k) <==>
                          e in errors || exists i :: 1 <= i < k && PartyOf(t.postings[i].account) != party
                                                     && e == DefaultPartyError(party, i)
  {
    if k > 1 {
      DefaultErrorsMembers(errors, t, party, k - 1);
      var before := DefaultErrorsFrom(errors, t, party, k - 1);
      assert DefaultErrorsFrom(errors, t, party, k)[..|before|] == before;
    }
  }

  /**
   * The transfer-account error is reported exactly when a posting is to a
   * Transfers account, and then first; a later posting's party error exactly
   * when it belongs to another party; nothing else is reported.
   */
  lemma DefaultErrorsContents(t: Transaction, party: string)
    ensures TransferAccountError in DefaultErrors(t, party) <==> HasEntryAccountComponent(t.postings, TransfersComponent)
    ensures HasEntryAccountComponent(t.postings, TransfersComponent) ==> DefaultErrors(t, party)[0] == TransferAccountError
    ensures forall i: nat :: DefaultPartyError(party, i) in DefaultErrors(t, party) <==>
                               1 <= i < |t.postings| && PartyOf(t.postings[i].account) != party
    ensures forall e :: e in DefaultErrors(t, party) ==> e == TransferAccountError || e.kind == PostingToAnotherPartyError
  {
    var first := When(HasEntryAccountComponent(t.postings, TransfersComponent), TransferAccountError);
    DefaultErrorsMembers(first, t, party, |t.postings|);
    if HasEntryAccountComponent(t.postings, TransfersComponent) {
      assert DefaultErrors(t, party)[..1] == [TransferAccountError];
    }
  }

  /** `check_default_transaction(entry, party)`, with its loop over the later postings. */
  method CheckDefaultTransaction(t: Transaction, party: string) returns (errors: seq<ValidationError>)
    ensures errors == DefaultErrors(t, party)
  {
    errors := [];
    if HasEntryAccountComponent(t.postings, TransfersComponent) {
      errors := errors + [TransferAccountError];
    }
    assert errors == When(HasEntryAccountComponent(t.postings, TransfersComponent), TransferAccountError);
    errors := CheckDefaultPostings(t, party, errors);
  }

  /** The loop over `postings[1:]` of a default transaction, extending `errors` with a party error for each posting of another party. */
  method CheckDefaultPostings(t: Transaction, party: string, base: seq<ValidationError>) returns (errors: seq<ValidationError>)
    ensures errors == DefaultErrorsFrom(base, t, party, |t.postings|)
  {
    errors := base;
    if |t.postings| == 0 {
      return;
    }
    var i := 1;
    while i < |t.postings|
      invariant 1 <= i <= |t.postings|
      invariant errors == DefaultErrorsFrom(base, t, party, i)
    {
      var account := t.postings[i].account;
      if PartyOf(account) != party {
        errors := errors + [DefaultPartyError(party, i)];
      }
      i := i + 1;
    }
  }

  // ---- validate_transactions ----

  /** The loop's `currentFile`, `main_account` and `main_party`. */
  datatype Context = Context(file: string, account: string, party: string)

  /** A context is set when both the account and the party are non-empty. */
  predicate ContextSet(c: Context)
  {
    c.account != "" && c.party != ""
  }

  predicate IsAccountDirective(e: Entry)
  {
    e.Custom? && e.customType == AccountDirective
  }

  /** The directive's first value is read and split, and its second component taken. */
  predicate DirectiveReadable(e: Entry)
  {
    IsAccountDirective(e) ==> |e.values| >= 1 && |Split(e.values[0])| >= 2
  }

  /** Moving to an entry of another file forgets the account and party. */
  function Enter(c: Context, e: Entry): Context
  {
    if c.file != e.Filename() then Context(e.Filename(), "", "") else c
  }

  /** An account directive sets the account and its party. */
  function Leave(c: Context, e: Entry): Context
    requires DirectiveReadable(e)
  {
    if IsAccountDirective(e) then Context(c.file, e.values[0], Split(e.values[0])[1]) else c
  }

  predicate DirectivesReadable(entries: seq<Entry>, k: nat)
    requires k <= |entries|
  {
    forall i :: 0 <= i < k ==> DirectiveReadable(entries[i])
  }

  /** The context once the loop has handled `entries[..k]`. */
  function ContextAfter(entries: seq<Entry>, k: nat): Context
    requires k <= |entries| && DirectivesReadable(entries, k)
  {
    if k == 0 then Context("", "", "")
    else Leave(Enter(ContextAfter(entries, k - 1), entries[k - 1]), entries[k - 1])
  }

  /** The context in which `entries[k]` is handled. */
  function ContextFor(entries: seq<Entry>, k: nat): Context
    requires k < |entries| && DirectivesReadable(entries, k)
  {
    Enter(ContextAfter(entries, k), entries[k])
  }

  /** A transaction handled in a set context has a first posting, and a transfer its first two when its tag is known. */
  predicate TransactionReadable(c: Context, e: Entry)
  {
    e.Txn? && ContextSet(c) ==>
      |e.txn.postings| >= 1
      && (AnyTagStartsWith(e.txn.tags, TransferPrefix) ==> Transfer.TransferReady(e.txn, c.party))
  }

  /** What the source needs of the entries to run without an exception. */
  predicate Processable(entries: seq<Entry>)
  {
    DirectivesReadable(entries, |entries|)
    && forall k {:trigger ContextFor(entries, k)} :: 0 <= k < |entries| ==> TransactionReadable(ContextFor(entries, k), entries[k])
  }

  const MissingContextError := ValidationError(MissingJournalAccountName, JournalAccountNameMissing, OfEntry)

  function FirstPostingError(account: string): ValidationError
  {
    ValidationError(FirstPostingIsNotToSpecifiedAccountError, FirstPostingShouldBeTo(account), OfEntry)
  }

  /** The checks a transaction gets once the context is set: transfer, else owed, else default. */
  function TransactionChecks(t: Transaction, party: string): seq<ValidationError>
    requires AnyTagStartsWith(t.tags, TransferPrefix) ==> Transfer.TransferReady(t, party)
  {
    if AnyTagStartsWith(t.tags, TransferPrefix) then Transfer.ValidateTransfer(t, party, InvalidTransferTransaction)
    else if AnyTagStartsWith(t.tags, OwedPrefix) then OwedErrors(t, party)
    else DefaultErrors(t, party)
  }

  /** What the loop adds for a transaction once the file's account and party are set. */
  function JournalTransactionErrors(t: Transaction, account: string, party: string): seq<ValidationError>
    requires |t.postings| >= 1
    requires AnyTagStartsWith(t.tags, TransferPrefix) ==> Transfer.TransferReady(t, party)
  {
    When(t.postings[0].account != account, FirstPostingError(account)) + TransactionChecks(t, party)
  }

  /** `errors` after the loop has handled entry `e` in context `c`. */
  function AddEntryErrors(errors: seq<ValidationError>, c: Context, e: Entry): (r: seq<ValidationError>)
    requires TransactionReadable(c, e)
    // an entry's errors only ever go after those already found
    ensures errors <= r
    ensures !e.Txn? ==> r == errors
  {
    if !e.Txn? then errors
    else if !ContextSet(c) then errors + [MissingContextError]
    else errors + JournalTransactionErrors(e.txn, c.account, c.party)
  }

  /** `errors` once the loop has handled `entries[..k]`. */
  function ErrorsUpTo(entries: seq<Entry>, k: nat): seq<ValidationError>
    requires k <= |entries| && Processable(entries)
  {
    if k == 0 then []
    else AddEntryErrors(ErrorsUpTo(entries, k - 1), ContextFor(entries, k - 1), entries[k - 1])
  }

  /** The `if is_transfer_transaction ... elif is_owed_transaction ... else` dispatch of the loop. */
  method CheckTransaction(t: Transaction, party: string) returns (errors: seq<ValidationError>)
    requires AnyTagStartsWith(t.tags, TransferPrefix) ==> Transfer.TransferReady(t, party)
    ensures errors == TransactionChecks(t, party)
  {
    var isTransfer := FindTagWithPrefix(t.tags, TransferPrefix);
    if isTransfer {
      errors := Transfer.ValidateTransfer(t, party, InvalidTransferTransaction);
    } else {
      var isOwed := FindTagWithPrefix(t.tags, OwedPrefix);
      if isOwed {
        errors := CheckOwedTransaction(t, party);
      } else {
        errors := CheckDefaultTransaction(t, party);
      }
    }
  }

  /** The loop's work on a transaction once the file's account and party are set. */
  method CheckJournalTransaction(t: Transaction, account: string, party: string) returns (errors: seq<ValidationError>)
    requires |t.postings| >= 1
    requires AnyTagStartsWith(t.tags, TransferPrefix) ==> Transfer.TransferReady(t, party)
    ensures errors == JournalTransactionErrors(t, account, party)
  {
    errors := [];
    if t.postings[0].account != account {
      errors := errors + [FirstPostingError(account)];
    }
    var checks := CheckTransaction(t, party);
    errors := errors + checks;
  }

  /** `validate_transactions(entries, options_map)`: the entries come back unchanged, with the errors. */
  method ValidateTransactions(entries: seq<Entry>) returns (result: seq<Entry>, errors: seq<ValidationError>)
    requires Processable(entries)
    ensures result == entries
    ensures errors == ErrorsUpTo(entries, |entries|)
  {
    errors := [];
    var currentFile, mainAccount, mainParty := "", "", "";
    for k := 0 to |entries|
      invariant Context(currentFile, mainAccount, mainParty) == ContextAfter(entries, k)
      invariant errors == ErrorsUpTo(entries, k)
    {
      var entry := entries[k];
      if currentFile != entry.Filename() {
        currentFile, mainAccount, mainParty := entry.Filename(), "", "";
      }
      assert Context(currentFile, mainAccount, mainParty) == ContextFor(entries, k);
      assert TransactionReadable(ContextFor(entries, k), entry);
      if entry.Custom? && entry.customType == AccountDirective {
        mainAccount := entry.values[0];
        mainParty := Split(mainAccount)[1];
      } else if entry.Txn? {
        if mainAccount == "" || mainParty == "" {
          errors := errors + [MissingContextError];
        } else {
          var found := CheckJournalTransaction(entry.txn, mainAccount, mainParty);
          errors := errors + found;
        }
      }
    }
    result := entries;
  }

  // ---- properties of the driver ----

  /**
   * Exactly one category's checks run: a transfer tag gets only transfer
   * errors, otherwise an owed tag gets only owed and party errors, otherwise
   * the default check never reports an owed error.
   */
  lemma DispatchIsExclusive(t: Transaction, party: string)
    requires AnyTagStartsWith(t.tags, TransferPrefix) ==> Transfer.TransferReady(t, party)
    ensures AnyTagStartsWith(t.tags, TransferPrefix) ==>
              forall e :: e in TransactionChecks(t, party) ==> e.kind == InvalidTransferTransaction
    ensures !AnyTagStartsWith(t.tags, TransferPrefix) && AnyTagStartsWith(t.tags, OwedPrefix) ==>
              forall e :: e in TransactionChecks(t, party) ==>
                            e.kind == InvalidOwedTransaction || e.kind == PostingToAnotherPartyError
    ensures !AnyTagStartsWith(t.tags, TransferPrefix) && !AnyTagStartsWith(t.tags, OwedPrefix) ==>
              forall e :: e in TransactionChecks(t, party) ==>
                            e == TransferAccountError || e.kind == PostingToAnotherPartyError
  {
    if !AnyTagStartsWith(t.tags, TransferPrefix) {
      if AnyTagStartsWith(t.tags, OwedPrefix) {
        OwedErrorKinds(t, party);
      } else {
        DefaultErrorsContents(t, party);
      }
    }
  }

  /**
   * A first posting to another account adds exactly one first-posting error,
   * in front, and the category checks still run after it.
   */
  lemma FirstPostingCheckedOnce(t: Transaction, account: string, party: string)
    requires |t.postings| >= 1
    requires AnyTagStartsWith(t.tags, TransferPrefix) ==> Transfer.TransferReady(t, party)
    ensures t.postings[0].account != account ==>
              JournalTransactionErrors(t, account, party)[0] == FirstPostingError(account)
              && JournalTransactionErrors(t, account, party)[1..] == TransactionChecks(t, party)
    ensures t.postings[0].account == account ==> JournalTransactionErrors(t, account, party) == TransactionChecks(t, party)
    ensures forall e | e in JournalTransactionErrors(t, account, party) && e.kind == FirstPostingIsNotToSpecifiedAccountError ::
              e == FirstPostingError(account) && t.postings[0].account != account
  {
    DispatchIsExclusive(t, party);
    var errs := JournalTransactionErrors(t, account, party);
    if t.postings[0].account != account {
      assert errs == [FirstPostingError(account)] + TransactionChecks(t, party);
    }
  }

  /** The context handled after an entry is in that entry's file. */
  lemma ContextFileIsLast(entries: seq<Entry>, k: nat)
    requires 0 < k <= |entries| && DirectivesReadable(entries, k)
    ensures ContextAfter(entries, k).file == entries[k - 1].Filename()
  {
  }

  /**
   * `entries[i]` is a "journal account name" directive whose account and
   * party are those of `c`, and every entry from it up to `k` is in `c`'s
   * file with no other directive among them.
   */
  predicate SetByDirective(entries: seq<Entry>, k: nat, i: nat, c: Context)
    requires i < k <= |entries|
  {
    IsAccountDirective(entries[i]) && DirectiveReadable(entries[i])
    && c.account == entries[i].values[0] && c.party == Split(entries[i].values[0])[1]
    && (forall j :: i <= j < k ==> entries[j].Filename() == c.file)
    && (forall j :: i < j < k ==> !IsAccountDirective(entries[j]))
  }

  /**
   * A set account and party come from the latest "journal account name"
   * directive before `k`: its first value is the account, that account's
   * second component the party, and every entry from it on is in the same
   * file, so no file inherits another file's context.
   */
  lemma {:induction false} ContextFromDirective(entries: seq<Entry>, k: nat)
    requires k <= |entries| && DirectivesReadable(entries, k)
    requires ContextSet(ContextAfter(entries, k))
    ensures exists i :: 0 <= i < k && SetByDirective(entries, k, i, ContextAfter(entries, k))
  {
    var c := ContextAfter(entries, k);
    var e := entries[k - 1];
    assert DirectiveReadable(e);
    if IsAccountDirective(e) {
      assert c.file == e.Filename();
      assert SetByDirective(entries, k, k - 1, c);
    } else {
      var before := ContextAfter(entries, k - 1);
      assert c == Enter(before, e);
      assert before.file == e.Filename() && c == before;
      ContextFromDirective(entries, k - 1);
      var i :| 0 <= i < k - 1 && SetByDirective(entries, k - 1, i, before);
      forall j | i <= j < k
        ensures entries[j].Filename() == c.file
      {
        if j < k - 1 {
          assert entries[j].Filename() == before.file;
        }
      }
      assert SetByDirective(entries, k, i, c);
    }
  }

  /**
   * A transaction with no "journal account name" directive before it in its
   * file's run of entries gets exactly the missing-context error, and no
   * other check runs for it.
   */
  lemma NoDirectiveMeansMissingContext(entries: seq<Entry>, start: nat, k: nat)
    requires Processable(entries)
    requires start <= k < |entries| && entries[k].Txn?
    requires start == 0 || entries[start - 1].Filename() != entries[k].Filename()
    requires forall j :: start <= j <= k ==> entries[j].Filename() == entries[k].Filename()
    requires forall j :: start <= j < k ==> !IsAccountDirective(entries[j])
    ensures ErrorsUpTo(entries, k + 1) == ErrorsUpTo(entries, k) + [MissingContextError]
  {
    var c := ContextAfter(entries, k);
    if ContextSet(ContextFor(entries, k)) {
      assert c.file == entries[k].Filename() && ContextSet(c);
      ContextFromDirective(entries, k);
      assert false;
    }
  }

  lemma PrefixOfPrefix(a: seq<ValidationError>, b: seq<ValidationError>, c: seq<ValidationError>)
    requires a <= b && b <= c
    ensures a <= c
  {
  }

  /** In a chain of error lists each a prefix of the next, every list is a prefix of the later ones. */
  lemma {:induction false} PrefixChain(chain: seq<seq<ValidationError>>, j: nat, k: nat)
    requires j <= k < |chain|
    requires forall i :: 0 < i < |chain| ==> chain[i - 1] <= chain[i]
    ensures chain[j] <= chain[k]
  {
    if j < k {
      PrefixChain(chain, j, k - 1);
      PrefixOfPrefix(chain[j], chain[k - 1], chain[k]);
    }
  }

  /** The errors grow in entry order: those of earlier entries stay in front. */
  lemma ErrorsInEntryOrder(entries: seq<Entry>, j: nat, k: nat)
    requires Processable(entries) && j <= k <= |entries|
    ensures ErrorsUpTo(entries, j) <= ErrorsUpTo(entries, k)
  {
    var chain := seq(|entries| + 1, i requires 0 <= i <= |entries| => ErrorsUpTo(entries, i));
    forall i | 0 < i < |chain|
      ensures chain[i - 1] <= chain[i]
    {
      ErrorsStep(entries, i);
    }
    PrefixChain(chain, j, k);
  }

  /** Handling one more entry keeps the errors found so far in front. */
  lemma ErrorsStep(entries: seq<Entry>, k: nat)
    requires Processable(entries) && 0 < k <= |entries|
    ensures ErrorsUpTo(entries, k - 1) <= ErrorsUpTo(entries, k)
  {
    assert TransactionReadable(ContextFor(entries, k - 1), entries[k - 1]);
  }
}
