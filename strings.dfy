/**
 * The three string operations the resource-identifier parser relies on:
 * `s.split(sep)`, `s.split(sep, 1)` and `sep.join(parts)`, for a
 * one-character separator.
 */
module Strings {
  import opened Wrappers

  /** Position of the first occurrence of `c` in `s`. */
  function IndexOf(s: string, c: char): (i: nat)
    requires c in s
    ensures i < |s| && s[i] == c && c !in s[..i]
  {
    if s[0] == c then 0
    else
      var j := IndexOf(s[1..], c);
      assert s[..1 + j] == [s[0]] + s[1..][..j];
      1 + j
  }

  /**
   * `s.split(sep)`: the pieces of `s` between occurrences of `sep`.
   * Like Python, the empty string splits into one empty piece.
   */
  function Split(s: string, sep: char): (parts: seq<string>)
    ensures |parts| >= 1
    ensures forall i :: 0 <= i < |parts| ==> sep !in parts[i]
    decreases |s|
  {
    if sep !in s then [s]
    else
      var i := IndexOf(s, sep);
      [s[..i]] + Split(s[i + 1..], sep)
  }

  /** `sep.join(parts)`. */
  function Join(sep: string, parts: seq<string>): string
  {
    if |parts| == 0 then ""
    else if |parts| == 1 then parts[0]
    else parts[0] + sep + Join(sep, parts[1..])
  }

  /**
   * `s.split(sep, 1)`: `None` when the separator does not occur (Python then
   * yields a one-element list), otherwise the text before and after its
   * first occurrence.
   */
  function SplitOnce(s: string, sep: char): (r: Option<(string, string)>)
    ensures r.None? <==> sep !in s
    ensures r.Some? ==> sep !in r.value.0 && r.value.0 + [sep] + r.value.1 == s
  {
    if sep !in s then None
    else
      var i := IndexOf(s, sep);
      assert s == s[..i] + [sep] + s[i + 1..];
      Some((s[..i], s[i + 1..]))
  }

  /** A string without the separator splits into itself. */
  lemma SplitNone(s: string, sep: char)
    requires sep !in s
    ensures Split(s, sep) == [s]
  {
  }

  /** A string splits into one piece exactly when it holds no separator. */
  lemma SplitSingle(s: string, sep: char)
    ensures |Split(s, sep)| == 1 <==> sep !in s
  {
    if sep in s {
      var i := IndexOf(s, sep);
      assert |Split(s, sep)| == 1 + |Split(s[i + 1..], sep)|;
    }
  }

  /** Splitting at a known first separator. */
  lemma SplitAt(s: string, sep: char, head: string, tail: string)
    requires sep !in head
    requires s == head + [sep] + tail
    ensures Split(s, sep) == [head] + Split(tail, sep)
  {
    assert s[|head|] == sep;
    assert s[..|head|] == head;
    var i := IndexOf(s, sep);
    assert i == |head|;
    assert s[..i] == head;
    assert s[i + 1..] == tail;
  }

  /** Joining the pieces back with the separator restores the string. */
  lemma {:induction false} JoinSplit(s: string, sep: char)
    ensures Join([sep], Split(s, sep)) == s
    decreases |s|
  {
    if sep in s {
      var i := IndexOf(s, sep);
      var rest := s[i + 1..];
      JoinSplit(rest, sep);
      var parts := Split(s, sep);
      assert parts == [s[..i]] + Split(rest, sep);
      assert parts[1..] == Split(rest, sep);
      assert |parts| >= 2;
      assert s == s[..i] + [sep] + rest;
    }
  }

  /** Splitting a join of separator-free pieces gives the pieces back. */
  lemma {:induction false} SplitJoin(parts: seq<string>, sep: char)
    requires |parts| >= 1
    requires forall i :: 0 <= i < |parts| ==> sep !in parts[i]
    ensures Split(Join([sep], parts), sep) == parts
    decreases |parts|
  {
    if |parts| == 1 {
      assert Join([sep], parts) == parts[0];
    } else {
      SplitJoin(parts[1..], sep);
      var tail := Join([sep], parts[1..]);
      assert Join([sep], parts) == parts[0] + [sep] + tail;
      SplitAt(Join([sep], parts), sep, parts[0], tail);
    }
  }

  /** `s.split(sep, 1)` at a known first separator. */
  lemma SplitOnceAt(s: string, sep: char, head: string, tail: string)
    requires sep !in head
    requires s == head + [sep] + tail
    ensures SplitOnce(s, sep) == Some((head, tail))
  {
    assert s[|head|] == sep;
    assert s[..|head|] == head;
    var i := IndexOf(s, sep);
    assert i == |head|;
    assert s[i + 1..] == tail;
  }
}
