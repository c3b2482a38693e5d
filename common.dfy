/**
 * The two `any(...)` helpers the package validators share
 * (validate_transactions/utils/common.py).
 */
module Common {
  import opened Accounts
  import opened Ledger

  /**
   * `key in posting` for a beancount Posting namedtuple: the key equals one of
   * the posting's field values. Of those fields only the account and the flag
   * can be strings; the metadata dictionary is not searched.
   */
  predicate PostingFieldEquals(p: Posting, key: string)
  {
    p.account == key || p.flag == Some(key)
  }

  /** `any(metadata_key in item for item in postings)`, as written. */
  function AnyPostingHasMetadataKey(postings: seq<Posting>, key: string): (r: bool)
    ensures r <==> exists i :: 0 <= i < |postings| && PostingFieldEquals(postings[i], key)
    ensures |postings| == 0 ==> !r
  {
    if |postings| == 0 then false
    else (AnyPostingHasMetadataKey(postings[..|postings| - 1], key)
          || PostingFieldEquals(postings[|postings| - 1], key))
  }

  /** Every account name holds the separator. */
  lemma AccountHasSeparator(name: AccountName)
    ensures Separator in name
  {
    if Separator !in name {
      SplitSingle(name);
    }
  }

  /**
   * The helper as written never sees posting metadata: for postings with the
   * usual one-character (or no) flag, it is false for any key that is not a
   * single character and holds no separator, such as "receipt" or "payslip",
   * whatever the postings' metadata hold.
   */
  lemma {:induction false} MetadataKeyNeverFound(postings: seq<Posting>, key: string)
    requires forall i :: 0 <= i < |postings| ==> postings[i].flag.None? || |postings[i].flag.value| == 1
    requires |key| != 1 && Separator !in key
    ensures !AnyPostingHasMetadataKey(postings, key)
  {
    forall i | 0 <= i < |postings| ensures !PostingFieldEquals(postings[i], key) {
      AccountHasSeparator(postings[i].account);
    }
  }

  /** A posting whose metadata holds "receipt" is not found by the helper. */
  lemma ReceiptMetadataIsMissed()
    ensures var p := Posting(AccountFrom(["Expenses", "Leyna", "Souvenirs"]), -1, None, map["receipt" := "receipts/gift.pdf"]);
            "receipt" in p.meta && !AnyPostingHasMetadataKey([p], "receipt")
  {
    var p := Posting(AccountFrom(["Expenses", "Leyna", "Souvenirs"]), -1, None, map["receipt" := "receipts/gift.pdf"]);
    MetadataKeyNeverFound([p], "receipt");
  }

  /** Adding postings never turns the helper from true to false. */
  lemma MetadataKeyMonotone(postings: seq<Posting>, more: seq<Posting>, key: string)
    requires forall p :: p in postings ==> p in more
    ensures AnyPostingHasMetadataKey(postings, key) ==> AnyPostingHasMetadataKey(more, key)
  {
    if AnyPostingHasMetadataKey(postings, key) {
      var i :| 0 <= i < |postings| && PostingFieldEquals(postings[i], key);
      assert postings[i] in more;
      var j :| 0 <= j < |more| && more[j] == postings[i];
    }
  }

  /** `any(tag.startswith(string) for tag in tags)`. */
  function AnyTagStartsWith(tags: seq<string>, prefix: string): (r: bool)
    ensures r <==> exists i :: 0 <= i < |tags| && StartsWith(tags[i], prefix)
    ensures |tags| == 0 ==> !r
  {
    if |tags| == 0 then false
    else AnyTagStartsWith(tags[..|tags| - 1], prefix) || StartsWith(tags[|tags| - 1], prefix)
  }

  /** Adding tags never turns the helper from true to false. */
  lemma TagPrefixMonotone(tags: seq<string>, more: seq<string>, prefix: string)
    requires forall t :: t in tags ==> t in more
    ensures AnyTagStartsWith(tags, prefix) ==> AnyTagStartsWith(more, prefix)
  {
    if AnyTagStartsWith(tags, prefix) {
      var i :| 0 <= i < |tags| && StartsWith(tags[i], prefix);
      assert tags[i] in more;
      var j :| 0 <= j < |more| && more[j] == tags[i];
    }
  }
}
