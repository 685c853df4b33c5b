/**
 * The JavaScript string and array built-ins that the branch-name linter relies on:
 * `String.prototype.indexOf`, `String.prototype.split` with a string separator,
 * `Array.prototype.join` and `String.prototype.toLowerCase`.
 * Strings are sequences of characters.
 */
module JsString {

  /** `pat` occurs in `s` starting at index `i`. */
  predicate OccursAt(s: string, pat: string, i: int)
  {
    0 <= i && i + |pat| <= |s| && s[i..i + |pat|] == pat
  }

  /** `pat` is a substring of `s`. */
  ghost predicate Contains(s: string, pat: string)
  {
    exists i :: OccursAt(s, pat, i)
  }

  /** `s.indexOf(pat, from)`: the first occurrence of `pat` at or after `from`, or -1. */
  function IndexOfFrom(s: string, pat: string, from: nat): (r: int)
    requires from <= |s|
    ensures r == -1 || (from <= r && OccursAt(s, pat, r))
    ensures forall i :: from <= i && (r == -1 || i < r) ==> !OccursAt(s, pat, i)
    decreases |s| - from
  {
    if from + |pat| > |s| then -1
    else if s[from..from + |pat|] == pat then from
    else IndexOfFrom(s, pat, from + 1)
  }

  /** `s.indexOf(pat)`: the first occurrence of `pat` in `s`, or -1 when there is none. */
  function IndexOf(s: string, pat: string): (r: int)
    ensures r >= 0 <==> Contains(s, pat)
    ensures r == -1 || (OccursAt(s, pat, r) && forall i :: 0 <= i < r ==> !OccursAt(s, pat, i))
  {
    var r := IndexOfFrom(s, pat, 0);
    assert r >= 0 ==> OccursAt(s, pat, r);
    r
  }

  /** For a one-character pattern, `indexOf` finds the first position of that character. */
  lemma IndexOfChar(pre: string, c: char, post: string)
    requires c !in pre
    ensures IndexOf(pre + [c] + post, [c]) == |pre|
  {
    var s := pre + [c] + post;
    assert OccursAt(s, [c], |pre|) by {
      assert s[|pre|..|pre| + 1] == [c];
    }
    forall j | 0 <= j < |pre|
      ensures !OccursAt(s, [c], j)
    {
      assert s[j..j + 1] == [pre[j]];
    }
  }

  /** A character that does not appear in `s` is not found: `indexOf` gives -1. */
  lemma IndexOfMissingChar(s: string, c: char)
    requires c !in s
    ensures IndexOf(s, [c]) == -1
  {
    forall j | 0 <= j < |s|
      ensures !OccursAt(s, [c], j)
    {
      assert s[j..j + 1] == [s[j]];
    }
  }

  /** The empty string occurs everywhere: `s.indexOf("")` is 0. */
  lemma ContainsEmpty(s: string)
    ensures Contains(s, "")
  {
    assert OccursAt(s, "", 0);
  }

  /** `[s[0], s[1], ...]`: what `s.split("")` gives. */
  function Chars(s: string): (r: seq<string>)
    ensures |r| == |s|
    ensures forall i :: 0 <= i < |s| ==> r[i] == [s[i]]
  {
    seq(|s|, i requires 0 <= i < |s| => [s[i]])
  }

  /**
   * `s.split(sep)`: the pieces of `s` between successive occurrences of `sep`,
   * scanning left to right; an empty separator splits `s` into its characters,
   * so the empty string split on the empty separator is the only empty result.
   */
  function Split(s: string, sep: string): (parts: seq<string>)
    ensures |parts| == 0 <==> s == "" && sep == ""
    ensures sep != "" ==> (|parts| >= 2 <==> Contains(s, sep))
    decreases |s|
  {
    if sep == "" then Chars(s)
    else
      var i := IndexOf(s, sep);
      if i < 0 then [s]
      else [s[..i]] + Split(s[i + |sep|..], sep)
  }

  /** `parts.join(sep)`. */
  function Join(parts: seq<string>, sep: string): (r: string)
    ensures |parts| == 1 ==> r == parts[0]
    ensures |parts| >= 2 ==> parts[0] + sep <= r
  {
    if |parts| == 0 then ""
    else if |parts| == 1 then parts[0]
    else parts[0] + sep + Join(parts[1..], sep)
  }

  /** Joining two or more pieces gives a string longer than any piece by at least one separator. */
  lemma {:induction false} JoinLength(parts: seq<string>, sep: string, k: nat)
    requires |parts| >= 2 && k < |parts|
    ensures |Join(parts, sep)| >= |parts[k]| + |sep|
    decreases |parts|
  {
    if k > 0 && |parts| > 2 {
      JoinLength(parts[1..], sep, k - 1);
    }
  }

  /** Joining two pieces puts one separator between them. */
  lemma JoinPair(a: string, b: string, sep: string)
    ensures Join([a, b], sep) == a + sep + b
  {
    assert [a, b][1..] == [b];
  }

  lemma {:induction false} JoinChars(s: string)
    ensures Join(Chars(s), "") == s
    decreases |s|
  {
    if |s| > 1 {
      assert Chars(s)[1..] == Chars(s[1..]);
      JoinChars(s[1..]);
      assert s == [s[0]] + s[1..];
    }
  }

  /** Splitting and joining again on the same separator gives back the original string. */
  lemma {:induction false} SplitJoin(s: string, sep: string)
    ensures Join(Split(s, sep), sep) == s
    decreases |s|
  {
    if sep == "" {
      JoinChars(s);
    } else {
      var i := IndexOf(s, sep);
      if i >= 0 {
        var rest := s[i + |sep|..];
        var tail := Split(rest, sep);
        SplitJoin(rest, sep);
        assert Split(s, sep) == [s[..i]] + tail;
        assert |tail| > 0 && ([s[..i]] + tail)[1..] == tail;
        assert Join([s[..i]] + tail, sep) == s[..i] + sep + Join(tail, sep);
        assert s == s[..i] + sep + rest by {
          assert s[i..i + |sep|] == sep;
        }
      }
    }
  }

  /** No piece of a split contains the (non-empty) separator. */
  lemma {:induction false} SplitPartsFree(s: string, sep: string)
    requires sep != ""
    ensures forall k :: 0 <= k < |Split(s, sep)| ==> !Contains(Split(s, sep)[k], sep)
    decreases |s|
  {
    var i := IndexOf(s, sep);
    if i >= 0 {
      var rest := s[i + |sep|..];
      SplitPartsFree(rest, sep);
      NoEarlierOccurrence(s, sep, i);
      assert Split(s, sep) == [s[..i]] + Split(rest, sep);
    }
  }

  /** When `sep` does not start before index `i` of `s`, it does not occur inside `s[..i]`. */
  lemma NoEarlierOccurrence(s: string, sep: string, i: nat)
    requires sep != "" && i <= |s|
    requires forall j :: 0 <= j < i ==> !OccursAt(s, sep, j)
    ensures !Contains(s[..i], sep)
  {
    forall j | OccursAt(s[..i], sep, j)
      ensures j < i && OccursAt(s, sep, j)
    {
      assert s[..i][j..j + |sep|] == s[j..j + |sep|];
    }
  }

  /**
   * `head` is the text of `s` before the first occurrence of `sep`
   * (all of `s` when `sep` does not occur).
   */
  ghost predicate IsFirstSegment(s: string, sep: string, head: string)
  {
    head <= s
    && (forall j :: 0 <= j < |head| ==> !OccursAt(s, sep, j))
    && (|head| == |s| || OccursAt(s, sep, |head|))
  }

  /** The first piece of a split on a non-empty separator is the text before the first separator. */
  lemma SplitHead(s: string, sep: string)
    requires sep != ""
    ensures IsFirstSegment(s, sep, Split(s, sep)[0])
  {
    var i := IndexOf(s, sep);
    if i >= 0 {
      assert Split(s, sep)[0] == s[..i];
    } else {
      assert Split(s, sep)[0] == s;
    }
  }

  /** `indexOf` finds the separator right after the first segment. */
  lemma IndexOfFirstSegment(s: string, sep: string, head: string)
    requires IsFirstSegment(s, sep, head) && OccursAt(s, sep, |head|)
    ensures IndexOf(s, sep) == |head|
  {
    var i := IndexOf(s, sep);
    assert Contains(s, sep);
    assert !(i < |head|);
    assert !(|head| < i);
  }

  /** The second piece of a split is the first piece of what follows the first separator. */
  lemma SecondPiece(s: string, sep: string)
    requires sep != "" && IndexOf(s, sep) >= 0
    ensures IndexOf(s, sep) + |sep| <= |s|
    ensures |Split(s, sep)| >= 2
    ensures Split(s, sep)[1] == Split(s[IndexOf(s, sep) + |sep|..], sep)[0]
  {
    var tail := Split(s[IndexOf(s, sep) + |sep|..], sep);
    assert Split(s, sep) == [s[..IndexOf(s, sep)]] + tail;
  }

  /** The second piece of a split is the text between the first and the second separator. */
  lemma SecondSegment(s: string, sep: string, head: string, second: string)
    requires sep != ""
    requires IsFirstSegment(s, sep, head) && OccursAt(s, sep, |head|)
    requires IsFirstSegment(s[|head| + |sep|..], sep, second)
    ensures |Split(s, sep)| >= 2 && Split(s, sep)[1] == second
  {
    IndexOfFirstSegment(s, sep, head);
    SecondPieceIs(s, sep, second);
  }

  /** The second piece of a split is the text between the first occurrence of `sep` and the next one. */
  lemma SecondPieceIs(s: string, sep: string, second: string)
    requires sep != "" && IndexOf(s, sep) >= 0
    requires IndexOf(s, sep) + |sep| <= |s| && IsFirstSegment(s[IndexOf(s, sep) + |sep|..], sep, second)
    ensures |Split(s, sep)| >= 2 && Split(s, sep)[1] == second
  {
    SecondPiece(s, sep);
    HeadOfSplit(s[IndexOf(s, sep) + |sep|..], sep, second);
  }

  /** The first piece of a split is the one text before the first separator. */
  lemma HeadOfSplit(s: string, sep: string, head: string)
    requires sep != "" && IsFirstSegment(s, sep, head)
    ensures Split(s, sep)[0] == head
  {
    SplitHead(s, sep);
    FirstSegmentUnique(s, sep, Split(s, sep)[0], head);
  }

  /** There is only one text before the first separator. */
  lemma FirstSegmentUnique(s: string, sep: string, h1: string, h2: string)
    requires sep != ""
    requires IsFirstSegment(s, sep, h1) && IsFirstSegment(s, sep, h2)
    ensures h1 == h2
  {
    assert h1 == s[..|h1|] && h2 == s[..|h2|];
  }

  /** `c.toLowerCase()` for the ASCII letters A to Z; every other character is kept. */
  function LowerChar(c: char): (r: char)
    ensures !('A' <= r <= 'Z')
    ensures 'A' <= c <= 'Z' ==> r as int == c as int + 32
    ensures !('A' <= c <= 'Z') ==> r == c
  {
    if 'A' <= c <= 'Z' then (c as int + ('a' as int - 'A' as int)) as char else c
  }

  /** `s.toLowerCase()`, character by character. */
  function Lower(s: string): (r: string)
    ensures |r| == |s|
    ensures forall i :: 0 <= i < |s| ==> r[i] == LowerChar(s[i])
  {
    seq(|s|, i requires 0 <= i < |s| => LowerChar(s[i]))
  }

  /** A lower-cased string has the same length and no upper-case ASCII letter. */
  lemma LowerHasNoCapitals(s: string)
    ensures |Lower(s)| == |s|
    ensures forall i :: 0 <= i < |s| ==> !('A' <= Lower(s)[i] <= 'Z')
  {
  }

  /** A string with no upper-case ASCII letter is its own lower case. */
  lemma LowerOfLowercase(s: string)
    requires forall i :: 0 <= i < |s| ==> !('A' <= s[i] <= 'Z')
    ensures Lower(s) == s
  {
  }

  /** Lower-casing twice is lower-casing once. */
  lemma LowerIdempotent(s: string)
    ensures Lower(Lower(s)) == Lower(s)
  {
    assert forall i :: 0 <= i < |s| ==> LowerChar(Lower(s)[i]) == Lower(s)[i];
  }
}
