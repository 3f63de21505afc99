/**
 * The two string operations the guards are built on:
 * `String.prototype.indexOf` (section 21.1.3.8 of ECMA-262, ECMAScript 2015)
 * and `String.prototype.split` with a non-empty string separator and no
 * limit (section 21.1.3.17), together with the reference notions they are
 * proved against.
 */
module Text {

  /** `t` occurs in `s` starting at index `k`. */
  predicate OccursAt(s: string, t: string, k: int) {
    0 <= k && k + |t| <= |s| && s[k..k + |t|] == t
  }

  /** `t` occurs in `s` somewhere. */
  ghost predicate Occurs(s: string, t: string) {
    exists k :: OccursAt(s, t, k)
  }

  /** `indexOf` searching from index `from` onwards. */
  function IndexOfFrom(s: string, t: string, from: nat): (r: int)
    requires from <= |s|
    decreases |s| - from
    ensures r == -1 || (from <= r && OccursAt(s, t, r))
    ensures r == -1 ==> forall k :: from <= k ==> !OccursAt(s, t, k)
    ensures r != -1 ==> forall k :: from <= k < r ==> !OccursAt(s, t, k)
  {
    if from + |t| > |s| then -1
    else if s[from..from + |t|] == t then from
    else if from == |s| then -1
    else IndexOfFrom(s, t, from + 1)
  }

  /**
   * `s.indexOf(t)`: the least index at which `t` occurs in `s`, or -1 when it
   * occurs nowhere. The empty string occurs at 0.
   */
  function IndexOf(s: string, t: string): (r: int)
    ensures r == -1 <==> !Occurs(s, t)
    ensures r != -1 ==> OccursAt(s, t, r) && forall k :: 0 <= k < r ==> !OccursAt(s, t, k)
  {
    IndexOfFrom(s, t, 0)
  }

  /** `s.indexOf(t) != -1`, the test the guards write as `== -1` / `> -1`. */
  predicate Contains(s: string, t: string) {
    IndexOf(s, t) != -1
  }

  /** The part of `s` before the first occurrence of `sep`, or all of `s`. */
  function TakeUntil(s: string, sep: string): (r: string)
    ensures |r| <= |s| && r == s[..|r|]
    ensures !Occurs(r, sep) || (|sep| == 0 && r == [])
    ensures !Occurs(s, sep) ==> r == s
    ensures Occurs(s, sep) ==> OccursAt(s, sep, |r|) && forall k :: 0 <= k < |r| ==> !OccursAt(s, sep, k)
  {
    var i := IndexOf(s, sep);
    if i == -1 then s
    else
      PrefixBeforeFirstHasNone(s, sep, i);
      s[..i]
  }

  /** The part of `s` after the first occurrence of `sep`. */
  function AfterFirst(s: string, sep: string): (r: string)
    requires Contains(s, sep)
    ensures s == s[..IndexOf(s, sep)] + sep + r
  {
    var i := IndexOf(s, sep);
    assert s == s[..i] + s[i..i + |sep|] + s[i + |sep|..];
    s[i + |sep|..]
  }

  /**
   * `s.split(sep)` for a non-empty string separator: the pieces between the
   * non-overlapping occurrences of `sep`, found from left to right.
   */
  function Split(s: string, sep: string): (r: seq<string>)
    requires |sep| > 0
    decreases |s|
    ensures |r| >= 1
    ensures forall j :: 0 <= j < |r| ==> !Occurs(r[j], sep)
  {
    var i := IndexOf(s, sep);
    if i == -1 then [s]
    else
      PrefixBeforeFirstHasNone(s, sep, i);
      [s[..i]] + Split(s[i + |sep|..], sep)
  }

  /** Joins pieces with `sep` between consecutive ones: the inverse of Split. */
  function Join(pieces: seq<string>, sep: string): string {
    if |pieces| == 0 then ""
    else if |pieces| == 1 then pieces[0]
    else pieces[0] + sep + Join(pieces[1..], sep)
  }

  /** An occurrence inside a slice is an occurrence in the whole string. */
  lemma SliceOccurrences(s: string, t: string, i: int, j: int)
    requires 0 <= i <= j <= |s|
    ensures forall k :: OccursAt(s[i..j], t, k) ==> OccursAt(s, t, i + k)
  {
    forall k | OccursAt(s[i..j], t, k) ensures OccursAt(s, t, i + k) {
      var u := s[i..j];
      assert i + k + |t| <= j;
      forall m | 0 <= m < |t| ensures s[i + k + m] == t[m] {
        assert u[k..k + |t|][m] == u[k + m];
      }
      assert s[i + k..i + k + |t|] == t;
    }
  }

  /** No occurrence of `t` inside the part of `s` before its first occurrence. */
  lemma PrefixBeforeFirstHasNone(s: string, t: string, i: int)
    requires OccursAt(s, t, i)
    requires forall k :: 0 <= k < i ==> !OccursAt(s, t, k)
    ensures !Occurs(s[..i], t) || (|t| == 0 && i == 0)
  {
    SliceOccurrences(s, t, 0, i);
    assert s[..i] == s[0..i];
    if |t| == 0 {
      assert OccursAt(s, t, 0);
    }
  }

  /** A piece of a string that lacks `t` lacks `t` too. */
  lemma SliceKeepsAbsence(s: string, t: string, i: int, j: int)
    requires 0 <= i <= j <= |s|
    requires !Occurs(s, t)
    ensures !Occurs(s[i..j], t)
  {
    SliceOccurrences(s, t, i, j);
  }

  /** A string that lacks the first character of `t` lacks `t`. */
  lemma AbsentFirstChar(s: string, t: string)
    requires |t| > 0 && t[0] !in s
    ensures !Occurs(s, t)
  {
    forall k | 0 <= k && k + |t| <= |s| ensures !OccursAt(s, t, k) {
      assert s[k..k + |t|][0] == s[k];
    }
  }

  /** One step of Split: the text before the first separator, then the split of the rest. */
  lemma SplitUnfold(s: string, sep: string)
    requires |sep| > 0 && Contains(s, sep)
    ensures Split(s, sep) == [s[..IndexOf(s, sep)]] + Split(AfterFirst(s, sep), sep)
  {
  }

  /** One step of Join: the first piece, the separator, then the join of the rest. */
  lemma JoinCons(a: string, r: seq<string>, sep: string)
    requires |r| >= 1
    ensures Join([a] + r, sep) == a + sep + Join(r, sep)
  {
    assert ([a] + r)[0] == a;
    assert ([a] + r)[1..] == r;
  }

  /** Splitting and joining again with the same separator gives back `s`. */
  lemma {:induction false} JoinSplit(s: string, sep: string)
    requires |sep| > 0
    decreases |s|
    ensures Join(Split(s, sep), sep) == s
  {
    if Contains(s, sep) {
      var rest := AfterFirst(s, sep);
      JoinSplit(rest, sep);
      SplitUnfold(s, sep);
      JoinCons(s[..IndexOf(s, sep)], Split(rest, sep), sep);
    }
  }

  /**
   * The first piece of a split is the text before the first separator, and
   * there is a second piece exactly when the separator occurs; it is the text
   * between the first and the second separator.
   */
  lemma SplitFirstPieces(s: string, sep: string)
    requires |sep| > 0
    ensures Split(s, sep)[0] == TakeUntil(s, sep)
    ensures |Split(s, sep)| >= 2 <==> Contains(s, sep)
    ensures Contains(s, sep) ==> Split(s, sep)[1] == TakeUntil(AfterFirst(s, sep), sep)
  {
    if Contains(s, sep) {
      var rest := AfterFirst(s, sep);
      SplitFirstPieces(rest, sep);
    }
  }
}
