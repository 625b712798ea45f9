/**
  Splitting and joining strings on a one-character separator, with the
  meaning Go's strings.Split and strings.Join have for a non-empty
  separator: every occurrence of the separator cuts the string, empty
  segments are kept, and the empty string splits into one empty segment.
 */
module Strings {

  /**
    The position of the first occurrence of `c` in `s`, or `|s|` when there
    is none (strings.Index, with -1 replaced by the length).
   */
  function IndexOf(s: string, c: char): (i: nat)
    ensures i <= |s| && c !in s[..i]
    ensures i < |s| ==> s[i] == c
    ensures i == |s| <==> c !in s
  {
    if |s| == 0 then 0
    else if s[0] == c then 0
    else
      assert s == [s[0]] + s[1..];
      var j := IndexOf(s[1..], c);
      assert s[..j + 1] == [s[0]] + s[1..][..j];
      j + 1
  }

  /** strings.Split(s, string(sep)). */
  function Split(s: string, sep: char): (parts: seq<string>)
    ensures |parts| >= 1
    decreases |s|
  {
    var i := IndexOf(s, sep);
    if i == |s| then [s]
    else [s[..i]] + Split(s[i + 1..], sep)
  }

  /** strings.Join(parts, string(sep)). */
  function Join(parts: seq<string>, sep: char): string
  {
    if |parts| == 0 then []
    else if |parts| == 1 then parts[0]
    else parts[0] + [sep] + Join(parts[1..], sep)
  }

  /** No part contains the separator. */
  ghost predicate SeparatorFree(parts: seq<string>, sep: char)
  {
    forall k :: 0 <= k < |parts| ==> sep !in parts[k]
  }

  /** Joining the parts of a split gives back the original string. */
  lemma {:induction false} JoinSplit(s: string, sep: char)
    ensures Join(Split(s, sep), sep) == s
    decreases |s|
  {
    var i := IndexOf(s, sep);
    if i < |s| {
      var head, tail := s[..i], s[i + 1..];
      JoinSplit(tail, sep);
      SplitStep(s, sep);
      JoinCons(head, Split(tail, sep), sep);
      CutAround(s, i);
    }
  }

  /** One step of Split: the part before the first separator, then the split of the rest. */
  lemma SplitStep(s: string, sep: char)
    requires IndexOf(s, sep) < |s|
    ensures var i := IndexOf(s, sep);
      Split(s, sep) == [s[..i]] + Split(s[i + 1..], sep)
  {
  }

  /** A string is what comes before position i, the character there, and what follows. */
  lemma CutAround(s: string, i: nat)
    requires i < |s|
    ensures s == s[..i] + [s[i]] + s[i + 1..]
  {
  }

  /** Joining a part in front of a non-empty list puts one separator between them. */
  lemma JoinCons(head: string, rest: seq<string>, sep: char)
    requires |rest| >= 1
    ensures Join([head] + rest, sep) == head + [sep] + Join(rest, sep)
  {
    assert ([head] + rest)[1..] == rest;
  }

  /** A split has one more part than the string has separators. */
  lemma {:induction false} SplitCount(s: string, sep: char)
    ensures |Split(s, sep)| == multiset(s)[sep] + 1
    decreases |s|
  {
    var i := IndexOf(s, sep);
    if i < |s| {
      SplitCount(s[i + 1..], sep);
      SplitStep(s, sep);
      MultisetCut(s, i);
      assert multiset(s[..i])[sep] == 0;
    } else {
      assert sep !in multiset(s);
    }
  }

  /** Cutting a string at position i splits its multiset of characters three ways. */
  lemma MultisetCut(s: string, i: nat)
    requires i < |s|
    ensures multiset(s) == multiset(s[..i]) + multiset{s[i]} + multiset(s[i + 1..])
  {
    CutAround(s, i);
  }

  /** No part of a split contains the separator. */
  lemma {:induction false} SplitSeparatorFree(s: string, sep: char)
    ensures SeparatorFree(Split(s, sep), sep)
    decreases |s|
  {
    var i := IndexOf(s, sep);
    if i < |s| {
      SplitSeparatorFree(s[i + 1..], sep);
      var parts := Split(s, sep);
      SplitStep(s, sep);
      forall k | 0 <= k < |parts| ensures sep !in parts[k] {
        if k > 0 {
          assert parts[k] == Split(s[i + 1..], sep)[k - 1];
        }
      }
    }
  }

  /**
    Splitting a join of separator-free parts gives back the parts: with
    JoinSplit, Split is a bijection between strings and non-empty sequences
    of separator-free parts.
   */
  lemma {:induction false} SplitJoin(parts: seq<string>, sep: char)
    requires |parts| >= 1 && SeparatorFree(parts, sep)
    ensures Split(Join(parts, sep), sep) == parts
    decreases |parts|
  {
    if |parts| == 1 {
      assert sep !in parts[0];
    } else {
      var head, rest := parts[0], parts[1..];
      assert SeparatorFree(rest, sep) by {
        forall k | 0 <= k < |rest| ensures sep !in rest[k] {
          assert rest[k] == parts[k + 1];
        }
      }
      SplitJoin(rest, sep);
      SplitCons(head, Join(rest, sep), sep);
      assert parts == [head] + rest;
    }
  }

  /** A separator-free head followed by the separator is split off as the first part. */
  lemma SplitCons(head: string, tail: string, sep: char)
    requires sep !in head
    ensures Split(head + [sep] + tail, sep) == [head] + Split(tail, sep)
  {
    var s := head + [sep] + tail;
    assert s[..|head|] == head;
    FirstIndex(s, sep, |head|);
    assert s[|head| + 1..] == tail;
  }

  /** A position holding `c` with no `c` before it is the one IndexOf finds. */
  lemma FirstIndex(s: string, c: char, j: nat)
    requires j < |s| && s[j] == c && c !in s[..j]
    ensures IndexOf(s, c) == j
  {
  }
}
