/** Owed transactions (validate_transactions/utils/owed_transactions.py). */
module OwedTransactions {
  import opened Accounts
  import opened Ledger
  import opened Common

  const Owed := "owed"
  const OwedBy := "owed-by-"

  /** For each owed tag, the account prefixes it allows besides the file's own party. */
  const OwedTypes: map<string, seq<string>> := map[
    "owed-by-francis" := ["Expenses:Francis", "Assets:Francis:Receivables"],
    "owed-by-leyna" := ["Expenses:Leyna", "Assets:Leyna:Receivables"],
    "owed-by-shared" := ["Expenses:Shared", "Assets:Shared:Receivables"],
    "owed-to-shared" := ["Income:Shared:GiftsReceived"]
  ]

  /** `any_posting_has_different_party(postings, party)`. */
  function AnyPostingHasDifferentParty(postings: seq<Posting>, party: string): (r: bool)
    ensures r <==> exists i :: 0 <= i < |postings| && PartyOf(postings[i].account) != party
  {
    if |postings| == 0 then false
    else PartyOf(postings[0].account) != party || AnyPostingHasDifferentParty(postings[1..], party)
  }

  /** `is_owed_transaction(entry, party)`. */
  predicate IsOwedTransaction(t: Transaction, party: string)
  {
    AnyTagStartsWith(t.tags, Owed)
    || (AnyPostingHasDifferentParty(t.postings, party) && !HasEntryAccountComponent(t.postings, "Transfers"))
  }

  /** A tag the scan stops at: an unknown owed tag, or one saying the file's own party owes. */
  predicate Rejects(tag: string, party: string)
  {
    StartsWith(tag, Owed) && (tag !in OwedTypes || tag == OwedBy + ToLower(party))
  }

  /** The single error returned for a tag the scan stops at. */
  function RejectionError(tag: string): ValidationError
  {
    if tag !in OwedTypes then ValidationError(OwedTransactionError, InvalidOwedTag(tag), OfEntry)
    else ValidationError(OwedTransactionError, OwedTagMustBeForAnotherParty, OfEntry)
  }

  function MissingPrefixError(prefixes: seq<string>): ValidationError
  {
    ValidationError(OwedTransactionError, ExpectedPostingWithPrefix(prefixes), OfEntry)
  }

  /** Some posting's account has one of `prefixes` as a run of its components. */
  predicate AnyPrefixPosted(postings: seq<Posting>, prefixes: seq<string>)
  {
    exists m :: 0 <= m < |prefixes| && HasEntryAccountComponent(postings, prefixes[m])
  }

  /** How many of `tags[..k]` start with "owed". */
  function OwedTagCount(tags: seq<string>, k: nat): (n: nat)
    requires k <= |tags|
    ensures n <= k
  {
    if k == 0 then 0 else OwedTagCount(tags, k - 1) + (if StartsWith(tags[k - 1], Owed) then 1 else 0)
  }

  /** A tag starting with "owed" among `tags[..k]` is counted. */
  lemma {:induction false} OwedTagCounted(tags: seq<string>, k: nat, i: nat)
    requires i < k <= |tags|
    requires StartsWith(tags[i], Owed)
    ensures OwedTagCount(tags, k) >= 1
  {
    if i < k - 1 {
      OwedTagCounted(tags, k - 1, i);
    }
  }

  /**
   * The indexes among 0 .. k-1 of the owed tags none of whose prefixes is
   * posted to, in increasing order.
   */
  function UnpostedBefore(t: Transaction, k: nat): (indexes: seq<nat>)
    requires k <= |t.tags|
    ensures forall i :: i in indexes <==>
                          0 <= i < k && t.tags[i] in OwedTypes && !AnyPrefixPosted(t.postings, OwedTypes[t.tags[i]])
    ensures forall j :: 0 <= j < |indexes| ==> indexes[j] < k && t.tags[indexes[j]] in OwedTypes
    ensures forall a, b :: 0 <= a < b < |indexes| ==> indexes[a] < indexes[b]
  {
    if k == 0 then []
    else
      var before := UnpostedBefore(t, k - 1);
      assert forall a :: 0 <= a < |before| ==> before[a] < k - 1 by {
        forall a | 0 <= a < |before| ensures before[a] < k - 1 {
          assert before[a] in before;
        }
      }
      var tag := t.tags[k - 1];
      before + (if tag in OwedTypes && !AnyPrefixPosted(t.postings, OwedTypes[tag]) then [k - 1] else [])
  }

  /** Where the loop over the tags stands: stopped with one error, or still going. */
  datatype TagScan =
    | Stopped(error: ValidationError)
    | Scanned(errors: seq<ValidationError>, allowed: seq<string>)

  /** The loop over the tags after it has looked at `tags[..k]`. */
  function ScanTags(t: Transaction, party: string, k: nat): (scan: TagScan)
    requires k <= |t.tags|
    ensures scan.Scanned? ==> forall e :: e in scan.errors ==> e.kind == OwedTransactionError && e.subject == OfEntry
    ensures scan.Stopped? ==> scan.error.kind == OwedTransactionError
  {
    if k == 0 then Scanned([], [])
    else
      var scan := ScanTags(t, party, k - 1);
      var tag := t.tags[k - 1];
      if scan.Stopped? || !StartsWith(tag, Owed) then scan
      else if Rejects(tag, party) then Stopped(RejectionError(tag))
      else
        var prefixes := OwedTypes[tag];
        Scanned(scan.errors + When(!AnyPrefixPosted(t.postings, prefixes), MissingPrefixError(prefixes)),
                scan.allowed + prefixes)
  }

  /** A later posting is allowed when it belongs to the party or starts with an allowed prefix. */
  predicate PostingAllowed(account: AccountName, party: string, allowed: seq<string>)
  {
    PartyOf(account) == party || exists m :: 0 <= m < |allowed| && StartsWith(account, allowed[m])
  }

  function PartyError(party: string, allowed: seq<string>, i: nat): ValidationError
  {
    ValidationError(PostingToAnotherPartyError, PostingNotOwnedByPartyOrOwedAccount(party, allowed), OfPosting(i))
  }

  /** The indexes among 1 .. k-1 of the later postings that are not allowed, in increasing order. */
  function FlaggedBefore(t: Transaction, party: string, allowed: seq<string>, k: nat): (indexes: seq<nat>)
    requires k <= |t.postings|
    ensures forall i :: i in indexes <==> 1 <= i < k && !PostingAllowed(t.postings[i].account, party, allowed)
    ensures forall a, b :: 0 <= a < b < |indexes| ==> indexes[a] < indexes[b]
  {
    if k <= 1 then []
    else
      var before := FlaggedBefore(t, party, allowed, k - 1);
      assert forall a :: 0 <= a < |before| ==> before[a] < k - 1 by {
        forall a | 0 <= a < |before| ensures before[a] < k - 1 {
          assert before[a] in before;
        }
      }
      before + (if !PostingAllowed(t.postings[k - 1].account, party, allowed) then [k - 1] else [])
  }

  /** `errors` once the loop over `postings[1:]` has looked at the postings before index `k`. */
  function PostingErrorsFrom(errors: seq<ValidationError>, t: Transaction, party: string, allowed: seq<string>, k: nat)
    : (errs: seq<ValidationError>)
    requires k <= |t.postings|
    ensures |errors| <= |errs| <= |errors| + (if k == 0 then 0 else k - 1)
  {
    if k <= 1 then errors
    else
      PostingErrorsFrom(errors, t, party, allowed, k - 1)
      + When(!PostingAllowed(t.postings[k - 1].account, party, allowed), PartyError(party, allowed, k - 1))
  }

  /** What `validate_owed_transaction(entry, party)` returns. */
  function OwedErrors(t: Transaction, party: string): seq<ValidationError>
  {
    match ScanTags(t, party, |t.tags|)
    case Stopped(e) => [e]
    case Scanned(errors, allowed) => PostingErrorsFrom(errors, t, party, allowed, |t.postings|)
  }

  /** Once the scan has stopped it stays stopped at the same error. */
  lemma {:induction false} StoppedScanStays(t: Transaction, party: string, k: nat, n: nat)
    requires k <= n <= |t.tags|
    requires ScanTags(t, party, k).Stopped?
    ensures ScanTags(t, party, n) == ScanTags(t, party, k)
  {
    if n > k {
      StoppedScanStays(t, party, k, n - 1);
    }
  }

  /**
   * The scan stops exactly when some tag is rejected, and then at the first
   * rejected tag's error.
   */
  lemma {:induction false} ScanStopsAtFirstRejected(t: Transaction, party: string, k: nat)
    requires k <= |t.tags|
    ensures ScanTags(t, party, k).Stopped? <==> exists i :: 0 <= i < k && Rejects(t.tags[i], party)
    ensures ScanTags(t, party, k).Stopped? ==>
              exists i :: 0 <= i < k && Rejects(t.tags[i], party) && ScanTags(t, party, k).error == RejectionError(t.tags[i])
                          && forall m :: 0 <= m < i ==> !Rejects(t.tags[m], party)
  {
    if k > 0 {
      ScanStopsAtFirstRejected(t, party, k - 1);
      if ScanTags(t, party, k - 1).Stopped? {
        var i :| 0 <= i < k - 1 && Rejects(t.tags[i], party) && ScanTags(t, party, k - 1).error == RejectionError(t.tags[i])
                 && forall m :: 0 <= m < i ==> !Rejects(t.tags[m], party);
        assert ScanTags(t, party, k).error == RejectionError(t.tags[i]);
      } else if Rejects(t.tags[k - 1], party) {
        assert forall m :: 0 <= m < k - 1 ==> !Rejects(t.tags[m], party);
      }
    }
  }

  /** A rejected tag makes the result exactly one error: the first rejected tag's. */
  lemma RejectedTagIsTheOnlyError(t: Transaction, party: string)
    requires exists i :: 0 <= i < |t.tags| && Rejects(t.tags[i], party)
    ensures exists i :: 0 <= i < |t.tags| && Rejects(t.tags[i], party) && OwedErrors(t, party) == [RejectionError(t.tags[i])]
                        && forall m :: 0 <= m < i ==> !Rejects(t.tags[m], party)
  {
    ScanStopsAtFirstRejected(t, party, |t.tags|);
  }

  /** Every owed tag is a key starting with "owed". */
  lemma OwedTypesAreOwedTags(tag: string)
    requires tag in OwedTypes
    ensures StartsWith(tag, Owed)
  {
  }

  /**
   * Until it stops, the scan has allowed the prefixes of every owed tag seen
   * so far, and reported a missing-prefix error for exactly those owed tags
   * none of whose prefixes is posted to.
   */
  lemma {:induction false} ScannedContents(t: Transaction, party: string, k: nat)
    requires k <= |t.tags|
    requires ScanTags(t, party, k).Scanned?
    ensures forall p :: p in ScanTags(t, party, k).allowed <==>
                          exists i :: 0 <= i < k && t.tags[i] in OwedTypes && p in OwedTypes[t.tags[i]]
    ensures forall e :: e in ScanTags(t, party, k).errors <==>
                          exists i :: 0 <= i < k && t.tags[i] in OwedTypes && !AnyPrefixPosted(t.postings, OwedTypes[t.tags[i]])
                                      && e == MissingPrefixError(OwedTypes[t.tags[i]])
    ensures |ScanTags(t, party, k).errors| <= OwedTagCount(t.tags, k)
  {
    if k > 0 {
      ScanStopsAtFirstRejected(t, party, k);
      ScannedContents(t, party, k - 1);
      var tag := t.tags[k - 1];
      if tag in OwedTypes {
        OwedTypesAreOwedTags(tag);
        assert !Rejects(tag, party);
      }
    }
  }

  /**
   * Until it stops, the scan's errors are one missing-prefix error per owed
   * tag none of whose prefixes is posted to, in tag order.
   */
  lemma {:induction false} ScannedErrorsInOrder(t: Transaction, party: string, k: nat)
    requires k <= |t.tags|
    requires ScanTags(t, party, k).Scanned?
    ensures |ScanTags(t, party, k).errors| == |UnpostedBefore(t, k)|
    ensures forall j :: 0 <= j < |UnpostedBefore(t, k)| ==>
                          ScanTags(t, party, k).errors[j] == MissingPrefixError(OwedTypes[t.tags[UnpostedBefore(t, k)[j]]])
  {
    if k > 0 {
      assert ScanTags(t, party, k - 1).Scanned?;
      ScannedErrorsInOrder(t, party, k - 1);
      var tag := t.tags[k - 1];
      if tag in OwedTypes {
        OwedTypesAreOwedTags(tag);
      }
    }
  }

  /** Without a tag starting with "owed", the scan reports nothing and allows no prefix. */
  lemma {:induction false} NoOwedTagsScan(t: Transaction, party: string, k: nat)
    requires k <= |t.tags|
    requires forall i :: 0 <= i < k ==> !StartsWith(t.tags[i], Owed)
    ensures ScanTags(t, party, k) == Scanned([], [])
  {
    if k > 0 {
      NoOwedTagsScan(t, party, k - 1);
    }
  }

  /** No tag starting with "owed": nothing is reported but the party check, against no prefixes. */
  lemma NoOwedTagsChecksPartyOnly(t: Transaction, party: string)
    requires forall i :: 0 <= i < |t.tags| ==> !StartsWith(t.tags[i], Owed)
    ensures OwedErrors(t, party) == PostingErrorsFrom([], t, party, [], |t.postings|)
  {
    NoOwedTagsScan(t, party, |t.tags|);
  }

  /**
   * The posting loop appends its errors after `errors`, one for each later
   * posting that is not allowed, and never for the first posting.
   */
  lemma {:induction false} PostingErrorsContents(errors: seq<ValidationError>, t: Transaction, party: string,
                                                 allowed: seq<string>, k: nat)
    requires k <= |t.postings|
    ensures PostingErrorsFrom(errors, t, party, allowed, k)[..|errors|] == errors
    ensures forall i: nat :: PartyError(party, allowed, i) in PostingErrorsFrom(errors, t, party, allowed, k)[|errors|..] <==>
                          1 <= i < k && !PostingAllowed(t.postings[i].account, party, allowed)
    ensures forall e :: e in PostingErrorsFrom(errors, t, party, allowed, k)[|errors|..] ==>
                          e.kind == PostingToAnotherPartyError && e.subject.OfPosting?
  {
    if k > 1 {
      PostingErrorsContents(errors, t, party, allowed, k - 1);
      var before := PostingErrorsFrom(errors, t, party, allowed, k - 1);
      var errs := PostingErrorsFrom(errors, t, party, allowed, k);
      var added := When(!PostingAllowed(t.postings[k - 1].account, party, allowed), PartyError(party, allowed, k - 1));
      assert errs[..|before|] == before;
      assert errs[..|errors|] == before[..|errors|];
      assert errs[|errors|..] == before[|errors|..] + added;
      forall i: nat
        ensures PartyError(party, allowed, i) in errs[|errors|..] <==>
                1 <= i < k && !PostingAllowed(t.postings[i].account, party, allowed)
      {
        assert PartyError(party, allowed, i) in added <==>
               i == k - 1 && !PostingAllowed(t.postings[k - 1].account, party, allowed);
      }
    }
  }

  /**
   * The posting loop appends one party error per later posting that is not
   * allowed, in posting order, and nothing else.
   */
  lemma {:induction false} PostingErrorsInOrder(errors: seq<ValidationError>, t: Transaction, party: string,
                                                allowed: seq<string>, k: nat)
    requires k <= |t.postings|
    ensures |PostingErrorsFrom(errors, t, party, allowed, k)| == |errors| + |FlaggedBefore(t, party, allowed, k)|
    ensures forall j :: 0 <= j < |FlaggedBefore(t, party, allowed, k)| ==>
                          PostingErrorsFrom(errors, t, party, allowed, k)[|errors| + j]
                          == PartyError(party, allowed, FlaggedBefore(t, party, allowed, k)[j])
  {
    if k > 1 {
      PostingErrorsInOrder(errors, t, party, allowed, k - 1);
    }
  }

  /**
   * When no tag is rejected, posting `i` is reported exactly when it is a later
   * posting that neither belongs to the party nor starts with an allowed
   * prefix, and an owed tag's missing-prefix error exactly when none of its
   * prefixes is posted to.
   */
  lemma OwedErrorsMembers(t: Transaction, party: string)
    requires forall i :: 0 <= i < |t.tags| ==> !Rejects(t.tags[i], party)
    ensures ScanTags(t, party, |t.tags|).Scanned?
    ensures var allowed := ScanTags(t, party, |t.tags|).allowed;
            forall i: nat :: PartyError(party, allowed, i) in OwedErrors(t, party) <==>
                          1 <= i < |t.postings| && !PostingAllowed(t.postings[i].account, party, allowed)
    ensures forall prefixes :: MissingPrefixError(prefixes) in OwedErrors(t, party) <==>
                                 exists i :: 0 <= i < |t.tags| && t.tags[i] in OwedTypes && prefixes == OwedTypes[t.tags[i]]
                                             && !AnyPrefixPosted(t.postings, prefixes)
  {
    ScanStopsAtFirstRejected(t, party, |t.tags|);
    ScannedContents(t, party, |t.tags|);
    var scan := ScanTags(t, party, |t.tags|);
    PostingErrorsContents(scan.errors, t, party, scan.allowed, |t.postings|);
    var errs := OwedErrors(t, party);
    assert errs == scan.errors + errs[|scan.errors|..];
  }

  /** The error at position `j` comes from an unposted owed tag or from a later posting that is not allowed. */
  lemma OwedErrorAt(t: Transaction, party: string, j: nat)
    requires forall i :: 0 <= i < |t.tags| ==> !Rejects(t.tags[i], party)
    requires j < |OwedErrors(t, party)|
    ensures ScanTags(t, party, |t.tags|).Scanned?
    ensures var allowed, e := ScanTags(t, party, |t.tags|).allowed, OwedErrors(t, party)[j];
            (exists i :: 0 <= i < |t.tags| && t.tags[i] in OwedTypes && !AnyPrefixPosted(t.postings, OwedTypes[t.tags[i]])
                         && e == MissingPrefixError(OwedTypes[t.tags[i]]))
            || (exists i :: 1 <= i < |t.postings| && !PostingAllowed(t.postings[i].account, party, allowed)
                            && e == PartyError(party, allowed, i))
  {
    OwedErrorsInOrder(t, party);
    var unposted := UnpostedBefore(t, |t.tags|);
    if j < |unposted| {
      assert unposted[j] in unposted;
    } else {
      var flagged := FlaggedBefore(t, party, ScanTags(t, party, |t.tags|).allowed, |t.postings|);
      assert flagged[j - |unposted|] in flagged;
    }
  }

  /**
   * When no tag is rejected, every error is the missing-prefix error of an
   * owed tag none of whose prefixes is posted to, or the party error of a
   * later posting that is not allowed.
   */
  lemma OwedErrorsNothingElse(t: Transaction, party: string)
    requires forall i :: 0 <= i < |t.tags| ==> !Rejects(t.tags[i], party)
    ensures ScanTags(t, party, |t.tags|).Scanned?
    ensures var allowed := ScanTags(t, party, |t.tags|).allowed;
            forall e :: e in OwedErrors(t, party) ==>
                          (exists i :: 0 <= i < |t.tags| && t.tags[i] in OwedTypes && !AnyPrefixPosted(t.postings, OwedTypes[t.tags[i]])
                                       && e == MissingPrefixError(OwedTypes[t.tags[i]]))
                          || (exists i :: 1 <= i < |t.postings| && !PostingAllowed(t.postings[i].account, party, allowed)
                                          && e == PartyError(party, allowed, i))
  {
    ScanStopsAtFirstRejected(t, party, |t.tags|);
    var errs := OwedErrors(t, party);
    forall e | e in errs
      ensures var allowed := ScanTags(t, party, |t.tags|).allowed;
              (exists i :: 0 <= i < |t.tags| && t.tags[i] in OwedTypes && !AnyPrefixPosted(t.postings, OwedTypes[t.tags[i]])
                           && e == MissingPrefixError(OwedTypes[t.tags[i]]))
              || (exists i :: 1 <= i < |t.postings| && !PostingAllowed(t.postings[i].account, party, allowed)
                              && e == PartyError(party, allowed, i))
    {
      var j :| 0 <= j < |errs| && errs[j] == e;
      OwedErrorAt(t, party, j);
    }
  }

  /**
   * When no tag is rejected, the result holds exactly the missing-prefix
   * errors of the owed tags none of whose prefixes is posted to and the party
   * errors of the later postings that are not allowed, one each, and nothing
   * else.
   */
  lemma OwedErrorsWhenNotRejected(t: Transaction, party: string)
    requires forall i :: 0 <= i < |t.tags| ==> !Rejects(t.tags[i], party)
    ensures ScanTags(t, party, |t.tags|).Scanned?
    ensures var allowed := ScanTags(t, party, |t.tags|).allowed;
            forall i: nat :: PartyError(party, allowed, i) in OwedErrors(t, party) <==>
                          1 <= i < |t.postings| && !PostingAllowed(t.postings[i].account, party, allowed)
    ensures forall prefixes :: MissingPrefixError(prefixes) in OwedErrors(t, party) <==>
                                 exists i :: 0 <= i < |t.tags| && t.tags[i] in OwedTypes && prefixes == OwedTypes[t.tags[i]]
                                             && !AnyPrefixPosted(t.postings, prefixes)
    ensures var allowed := ScanTags(t, party, |t.tags|).allowed;
            |OwedErrors(t, party)| == |UnpostedBefore(t, |t.tags|)| + |FlaggedBefore(t, party, allowed, |t.postings|)|
    ensures var allowed := ScanTags(t, party, |t.tags|).allowed;
            forall e :: e in OwedErrors(t, party) ==>
                          (exists i :: 0 <= i < |t.tags| && t.tags[i] in OwedTypes && !AnyPrefixPosted(t.postings, OwedTypes[t.tags[i]])
                                       && e == MissingPrefixError(OwedTypes[t.tags[i]]))
                          || (exists i :: 1 <= i < |t.postings| && !PostingAllowed(t.postings[i].account, party, allowed)
                                          && e == PartyError(party, allowed, i))
  {
    OwedErrorsMembers(t, party);
    OwedErrorsInOrder(t, party);
    OwedErrorsNothingElse(t, party);
  }

  /**
   * When no tag is rejected, the result is the missing-prefix errors of the
   * owed tags none of whose prefixes is posted to, in tag order, then the
   * party errors of the later postings that are not allowed, in posting order.
   */
  lemma OwedErrorsInOrder(t: Transaction, party: string)
    requires forall i :: 0 <= i < |t.tags| ==> !Rejects(t.tags[i], party)
    ensures ScanTags(t, party, |t.tags|).Scanned?
    ensures var allowed := ScanTags(t, party, |t.tags|).allowed;
            |OwedErrors(t, party)| == |UnpostedBefore(t, |t.tags|)| + |FlaggedBefore(t, party, allowed, |t.postings|)|
    ensures forall j :: 0 <= j < |UnpostedBefore(t, |t.tags|)| ==>
                          OwedErrors(t, party)[j] == MissingPrefixError(OwedTypes[t.tags[UnpostedBefore(t, |t.tags|)[j]]])
    ensures var allowed := ScanTags(t, party, |t.tags|).allowed;
            forall j :: 0 <= j < |FlaggedBefore(t, party, allowed, |t.postings|)| ==>
                          OwedErrors(t, party)[|UnpostedBefore(t, |t.tags|)| + j]
                          == PartyError(party, allowed, FlaggedBefore(t, party, allowed, |t.postings|)[j])
  {
    ScanStopsAtFirstRejected(t, party, |t.tags|);
    ScannedErrorsInOrder(t, party, |t.tags|);
    var scan := ScanTags(t, party, |t.tags|);
    assert OwedErrors(t, party) == PostingErrorsFrom(scan.errors, t, party, scan.allowed, |t.postings|);
    PostingErrorsContents(scan.errors, t, party, scan.allowed, |t.postings|);
    PostingErrorsInOrder(scan.errors, t, party, scan.allowed, |t.postings|);
  }

  /** At most one error per tag starting with "owed" and one per posting after the first. */
  lemma OwedErrorsBound(t: Transaction, party: string)
    ensures |OwedErrors(t, party)| <= OwedTagCount(t.tags, |t.tags|) + (if |t.postings| == 0 then 0 else |t.postings| - 1)
  {
    ScanStopsAtFirstRejected(t, party, |t.tags|);
    if ScanTags(t, party, |t.tags|).Scanned? {
      ScannedContents(t, party, |t.tags|);
    } else {
      var i :| 0 <= i < |t.tags| && Rejects(t.tags[i], party);
      OwedTagCounted(t.tags, |t.tags|, i);
    }
  }

  /** The owed check reports only its own kind and the party error. */
  lemma OwedErrorKinds(t: Transaction, party: string)
    ensures forall e :: e in OwedErrors(t, party) ==> e.kind == OwedTransactionError || e.kind == PostingToAnotherPartyError
  {
    var scan := ScanTags(t, party, |t.tags|);
    if scan.Scanned? {
      PostingErrorsContents(scan.errors, t, party, scan.allowed, |t.postings|);
      var errs := OwedErrors(t, party);
      assert errs == scan.errors + errs[|scan.errors|..];
    }
  }

  /** The loop accumulating `hasExpectedAccountWithPrefix` over an owed tag's prefixes. */
  method FindPostedPrefix(postings: seq<Posting>, prefixes: seq<string>) returns (found: bool)
    ensures found == AnyPrefixPosted(postings, prefixes)
  {
    found := false;
    var j := 0;
    while j < |prefixes|
      invariant j <= |prefixes|
      invariant found <==> exists m :: 0 <= m < j && HasEntryAccountComponent(postings, prefixes[m])
    {
      found := found || HasEntryAccountComponent(postings, prefixes[j]);
      j := j + 1;
    }
  }

  /** The loop accumulating whether a posting's account starts with one of the allowed prefixes. */
  method FindAllowedPrefix(account: string, allowed: seq<string>) returns (matched: bool)
    ensures matched <==> exists m :: 0 <= m < |allowed| && StartsWith(account, allowed[m])
  {
    matched := false;
    var j := 0;
    while j < |allowed|
      invariant j <= |allowed|
      invariant matched <==> exists m :: 0 <= m < j && StartsWith(account, allowed[m])
    {
      matched := matched || StartsWith(account, allowed[j]);
      j := j + 1;
    }
  }

  /** `validate_owed_transaction(entry, party)`, with its loop over the tags and its loop over the later postings. */
  method ValidateOwedTransaction(t: Transaction, party: string) returns (errors: seq<ValidationError>)
    ensures errors == OwedErrors(t, party)
  {
    var allowed: seq<string> := [];
    errors := [];
    var k := 0;
    while k < |t.tags|
      invariant k <= |t.tags|
      invariant ScanTags(t, party, k) == Scanned(errors, allowed)
    {
      var tag := t.tags[k];
      if StartsWith(tag, Owed) {
        if tag !in OwedTypes || tag == OwedBy + ToLower(party) {
          errors := [RejectionError(tag)];
          StoppedScanStays(t, party, k + 1, |t.tags|);
          return;
        }
        assert !Rejects(tag, party);
        var prefixes := OwedTypes[tag];
        var found := FindPostedPrefix(t.postings, prefixes);
        ghost var before := errors;
        if !found {
          errors := errors + [MissingPrefixError(prefixes)];
        }
        assert errors == before + When(!AnyPrefixPosted(t.postings, prefixes), MissingPrefixError(prefixes));
        allowed := allowed + prefixes;
      }
      assert ScanTags(t, party, k + 1) == Scanned(errors, allowed);
      k := k + 1;
    }
    errors := CheckLaterPostings(t, party, allowed, errors);
  }

  /** The loop over `postings[1:]`, extending `errors` with a party error for each posting that is not allowed. */
  method CheckLaterPostings(t: Transaction, party: string, allowed: seq<string>, base: seq<ValidationError>)
    returns (errors: seq<ValidationError>)
    ensures errors == PostingErrorsFrom(base, t, party, allowed, |t.postings|)
  {
    errors := base;
    if |t.postings| == 0 {
      return;
    }
    var i := 1;
    while i < |t.postings|
      invariant 1 <= i <= |t.postings|
      invariant errors == PostingErrorsFrom(base, t, party, allowed, i)
    {
      var account := t.postings[i].account;
      var matched := FindAllowedPrefix(account, allowed);
      if PartyOf(account) != party && !matched {
        errors := errors + [PartyError(party, allowed, i)];
      }
      i := i + 1;
    }
  }
}
