/**
 * Account names and the string helpers the validators use.
 *
 * An account name is a colon-separated string such as "Assets:Francis:Bank".
 * `Split`, `Join`, `Root` and `HasComponent` follow beancount's
 * `account.split`, `account.join`, `account.root` and `account.has_component`;
 * `StartsWith`, `EndsWith`, `Contains` and `ToLower` follow Python's
 * `str.startswith`, `str.endswith`, the `in` operator on strings and
 * `str.lower` (ASCII letters only).
 */
module Accounts {

  const Separator: char := ':'

  /** `name.split(':')`: the components of an account name, in order. */
  function Split(name: string): (parts: seq<string>)
    ensures |parts| >= 1
    ensures forall i :: 0 <= i < |parts| ==> Separator !in parts[i]
    decreases |name|
  {
    if |name| == 0 then [""]
    else
      var rest := Split(name[1..]);
      if name[0] == Separator then [""] + rest
      else [[name[0]] + rest[0]] + rest[1..]
  }

  /** `':'.join(parts)`. */
  function Join(parts: seq<string>): string
    decreases |parts|
  {
    if |parts| == 0 then ""
    else if |parts| == 1 then parts[0]
    else parts[0] + [Separator] + Join(parts[1..])
  }

  /** Joining the components of a name gives the name back. */
  lemma {:induction false} JoinSplit(name: string)
    ensures Join(Split(name)) == name
    decreases |name|
  {
    if |name| > 0 {
      var rest := Split(name[1..]);
      JoinSplit(name[1..]);
      if name[0] == Separator {
        assert name == [Separator] + name[1..];
      } else if |rest| == 1 {
        assert name == [name[0]] + name[1..];
      } else {
        assert Join(rest) == rest[0] + [Separator] + Join(rest[1..]);
        assert name == [name[0]] + name[1..];
      }
    }
  }

  /** A name without a separator is a single component. */
  lemma {:induction false} SplitSingle(part: string)
    requires Separator !in part
    ensures Split(part) == [part]
    decreases |part|
  {
    if |part| > 0 {
      assert Separator !in part[1..] by {
        forall k | 0 <= k < |part[1..]| ensures part[1..][k] != Separator {
          assert part[1..][k] == part[k + 1];
        }
      }
      SplitSingle(part[1..]);
      assert [part[0]] + part[1..] == part;
    }
  }

  /** Splitting "first:rest" yields `first` followed by the components of `rest`. */
  lemma {:induction false} SplitCons(first: string, rest: string)
    requires Separator !in first
    ensures Split(first + [Separator] + rest) == [first] + Split(rest)
    decreases |first|
  {
    var name := first + [Separator] + rest;
    if |first| == 0 {
      assert name[0] == Separator && name[1..] == rest;
    } else {
      assert name[1..] == first[1..] + [Separator] + rest;
      assert Separator !in first[1..] by {
        forall k | 0 <= k < |first[1..]| ensures first[1..][k] != Separator {
          assert first[1..][k] == first[k + 1];
        }
      }
      SplitCons(first[1..], rest);
      assert [first[0]] + first[1..] == first;
    }
  }

  /** Splitting a joined list of separator-free components gives the list back. */
  lemma {:induction false} SplitJoin(parts: seq<string>)
    requires |parts| >= 1
    requires forall i :: 0 <= i < |parts| ==> Separator !in parts[i]
    ensures Split(Join(parts)) == parts
    decreases |parts|
  {
    if |parts| == 1 {
      SplitSingle(parts[0]);
    } else {
      SplitJoin(parts[1..]);
      SplitCons(parts[0], Join(parts[1..]));
      assert [parts[0]] + parts[1..] == parts;
    }
  }

  /** A posting account: beancount's lexer only accepts names of at least two components. */
  type AccountName = name: string | |Split(name)| >= 2 witness "A:B"

  /** The account name with the given components, `':'.join(parts)`. */
  function AccountFrom(parts: seq<string>): (name: AccountName)
    requires |parts| >= 2
    requires forall i :: 0 <= i < |parts| ==> Separator !in parts[i]
    ensures Split(name) == parts
  {
    SplitJoin(parts);
    Join(parts)
  }

  /** The owning party of an account: its second component (`split(name)[1]`). */
  function PartyOf(name: AccountName): string
  {
    Split(name)[1]
  }

  /** `account.root(n, name)`: the first `n` components, rejoined. */
  function Root(n: nat, name: string): (r: string)
    ensures n >= 1 ==> Split(r) == Split(name)[..if n < |Split(name)| then n else |Split(name)|]
  {
    var parts := Split(name);
    var taken := parts[..if n < |parts| then n else |parts|];
    assert n >= 1 ==> Split(Join(taken)) == taken by {
      if n >= 1 { SplitJoin(taken); }
    }
    Join(taken)
  }

  /** `run` (one or several components) appears in `parts` starting at index `i`. */
  predicate RunAt(parts: seq<string>, run: seq<string>, i: nat)
  {
    i + |run| <= |parts| && parts[i..i + |run|] == run
  }

  /**
   * `account.has_component(name, component)`: the regular expression
   * `(^|:)component(:|$)` matches somewhere in `name`, that is, the components
   * of `component` occur as a contiguous run of components of `name`.
   */
  predicate HasComponent(name: string, component: string)
  {
    var parts, run := Split(name), Split(component);
    exists i: nat | i <= |parts| :: RunAt(parts, run, i)
  }

  /** For a single component, `HasComponent` is membership among the components. */
  lemma HasSingleComponent(name: string, component: string)
    requires Separator !in component
    ensures HasComponent(name, component) <==> component in Split(name)
  {
    SplitSingle(component);
    var parts := Split(name);
    if component in parts {
      var i :| 0 <= i < |parts| && parts[i] == component;
      assert RunAt(parts, [component], i);
    }
    if HasComponent(name, component) {
      var i: nat :| i <= |parts| && RunAt(parts, [component], i);
      assert parts[i..i + 1][0] == parts[i];
    }
  }

  /** `s.startswith(prefix)`. */
  predicate StartsWith(s: string, prefix: string)
  {
    |prefix| <= |s| && s[..|prefix|] == prefix
  }

  /** `s.endswith(suffix)`, compared from the last character backwards. */
  predicate EndsWith(s: string, suffix: string)
    decreases |suffix|
  {
    |suffix| == 0
    || (|s| > 0 && s[|s| - 1] == suffix[|suffix| - 1] && EndsWith(s[..|s| - 1], suffix[..|suffix| - 1]))
  }

  /** `s.endswith(suffix)` holds exactly when the last `|suffix|` characters of `s` are `suffix`. */
  lemma {:induction false} EndsWithTail(s: string, suffix: string)
    ensures EndsWith(s, suffix) <==> |suffix| <= |s| && s[|s| - |suffix|..] == suffix
    decreases |suffix|
  {
    if |suffix| > 0 && |s| > 0 {
      var s', suffix' := s[..|s| - 1], suffix[..|suffix| - 1];
      EndsWithTail(s', suffix');
      if |suffix| <= |s| {
        assert s[|s| - |suffix|..] == s'[|s'| - |suffix'|..] + [s[|s| - 1]];
        assert suffix == suffix' + [suffix[|suffix| - 1]];
        if s[|s| - |suffix|..] == suffix {
          assert s'[|s'| - |suffix'|..] == s[|s| - |suffix|..][..|suffix'|];
        }
      }
    }
  }

  /** `sub` occurs in `s` at position `i`. */
  predicate OccursAt(s: string, sub: string, i: nat)
  {
    i + |sub| <= |s| && forall k :: 0 <= k < |sub| ==> s[i + k] == sub[k]
  }

  /** `sub in s` for Python strings. */
  predicate Contains(s: string, sub: string)
  {
    exists i: nat | i <= |s| :: OccursAt(s, sub, i)
  }

  /** A string lacking some character of `sub` cannot contain `sub`. */
  lemma NotContainsMissingChar(s: string, sub: string, c: char)
    requires c in sub && c !in s
    ensures !Contains(s, sub)
  {
    var k :| 0 <= k < |sub| && sub[k] == c;
    forall i: nat | i <= |s| ensures !OccursAt(s, sub, i) {
      if i + |sub| <= |s| {
        assert s[i + k] in s;
      }
    }
  }

  /**
   * A two-character `sub` is not in `s` when its first character occurs only at
   * the head of `s` and is not followed there by its second character.
   */
  lemma NotContainsPair(s: string, sub: string)
    requires |sub| == 2 && |s| >= 2
    requires s[1] != sub[1] && sub[0] !in s[1..]
    ensures !Contains(s, sub)
  {
    forall i: nat | i <= |s| ensures !OccursAt(s, sub, i) {
      if i + 2 <= |s| {
        if i > 0 { assert s[i] == s[1..][i - 1]; }
        assert s[i + 0] != sub[0] || s[i + 1] != sub[1];
      }
    }
  }

  /** `c.lower()` for ASCII letters. */
  function LowerChar(c: char): (l: char)
    ensures 'A' <= c <= 'Z' ==> 'a' <= l <= 'z' && l as int == c as int + 32
    ensures !('A' <= c <= 'Z') ==> l == c
  {
    if 'A' <= c <= 'Z' then (c as int - 'A' as int + 'a' as int) as char else c
  }

  /** `s.lower()` for ASCII letters. */
  function ToLower(s: string): (l: string)
    ensures |l| == |s|
    ensures forall i :: 0 <= i < |s| ==> l[i] == LowerChar(s[i])
  {
    seq(|s|, i requires 0 <= i < |s| => LowerChar(s[i]))
  }
}
