/**
 * The string operations both handlers are built from: prefix tests, the
 * leftmost search for a pattern, `split` with a non-empty separator (Rust's
 * `str::split` and Python's `str.split(sep)` agree on it), and Rust's
 * `str::trim`.
 */
module Strings {
  import opened Wrappers

  /** Rust's `str::starts_with` and Python's `str.startswith`. */
  predicate StartsWith(s: string, prefix: string) {
    |prefix| <= |s| && s[..|prefix|] == prefix
  }

  /** The pattern `pat` occurs in `s` at index `i`. */
  predicate OccursAt(s: string, pat: string, i: nat) {
    i + |pat| <= |s| && s[i..i + |pat|] == pat
  }

  /** No occurrence of `pat` begins in `s` before index `n`. */
  predicate NoneBefore(s: string, pat: string, n: nat) {
    forall i: nat :: i < n ==> !OccursAt(s, pat, i)
  }

  /** The leftmost occurrence of `pat` in `s` at or after index `from`. */
  function FindFrom(s: string, pat: string, from: nat): (r: Option<nat>)
    requires |pat| > 0
    ensures r.Some? ==> from <= r.value && OccursAt(s, pat, r.value)
    ensures forall i: nat :: from <= i && (r.None? || i < r.value) ==> !OccursAt(s, pat, i)
    decreases |s| - from
  {
    if from + |pat| > |s| then None
    else if OccursAt(s, pat, from) then Some(from)
    else FindFrom(s, pat, from + 1)
  }

  /** The leftmost occurrence of `pat` in `s`, as the searchers behind `split` find it. */
  function Find(s: string, pat: string): (r: Option<nat>)
    requires |pat| > 0
    ensures r.Some? ==> OccursAt(s, pat, r.value) && NoneBefore(s, pat, r.value)
    ensures r.None? ==> forall i: nat :: !OccursAt(s, pat, i)
  {
    FindFrom(s, pat, 0)
  }

  /** An occurrence with none before it is the one `Find` reports. */
  lemma FindIs(s: string, pat: string, p: nat)
    requires |pat| > 0 && OccursAt(s, pat, p) && NoneBefore(s, pat, p)
    ensures Find(s, pat) == Some(p)
  {
  }

  /**
   * The pieces of `s` between the occurrences of `pat`, found left to right
   * without overlap. Rust's `split(pat)` yields them in order and Python's
   * `split(pat)` returns them as a list.
   */
  function Split(s: string, pat: string): (pieces: seq<string>)
    requires |pat| > 0
    ensures |pieces| >= 1
    decreases |s|
  {
    match Find(s, pat)
    case None => [s]
    case Some(i) => [s[..i]] + Split(s[i + |pat|..], pat)
  }

  /**
   * Rust's `split(pat).nth(n)` (with `next()` being `nth(0)`), and Python's
   * `split(pat)[n]`, where `None` is Python's IndexError.
   */
  function SplitNth(s: string, pat: string, n: nat): Option<string>
    requires |pat| > 0
  {
    var pieces := Split(s, pat);
    if n < |pieces| then Some(pieces[n]) else None
  }

  /** The inverse of `Split`: the pieces glued back together with `pat` between them. */
  function Join(pieces: seq<string>, pat: string): string {
    if |pieces| == 0 then ""
    else if |pieces| == 1 then pieces[0]
    else pieces[0] + pat + Join(pieces[1..], pat)
  }

  /** Joining a piece in front of at least one more puts the separator between them. */
  lemma JoinCons(x: string, tail: seq<string>, pat: string)
    requires |tail| >= 1
    ensures Join([x] + tail, pat) == x + pat + Join(tail, pat)
  {
    assert ([x] + tail)[1..] == tail;
  }

  /** `Split` loses nothing: joining its pieces gives back the original text. */
  lemma {:induction false} JoinSplit(s: string, pat: string)
    requires |pat| > 0
    ensures Join(Split(s, pat), pat) == s
    decreases |s|
  {
    match Find(s, pat)
    case None =>
      assert Split(s, pat) == [s];
    case Some(i) =>
      var rest := s[i + |pat|..];
      assert Split(s, pat) == [s[..i]] + Split(rest, pat);
      JoinSplit(rest, pat);
      JoinCons(s[..i], Split(rest, pat), pat);
      assert s[i..i + |pat|] == pat;
      assert s == s[..i] + s[i..i + |pat|] + rest;
  }

  /** No piece of `Split` contains the separator. */
  lemma {:induction false} SplitPiecesFree(s: string, pat: string, k: nat, j: nat)
    requires |pat| > 0 && k < |Split(s, pat)|
    ensures !OccursAt(Split(s, pat)[k], pat, j)
    decreases |s|
  {
    match Find(s, pat)
    case None =>
    case Some(i) =>
      if k == 0 {
        if OccursAt(s[..i], pat, j) {
          assert s[..i][j..j + |pat|] == s[j..j + |pat|];
          assert OccursAt(s, pat, j);
          assert false;
        }
      } else {
        SplitPiecesFree(s[i + |pat|..], pat, k - 1, j);
      }
  }

  /** `Split` has a second piece exactly when the separator occurs. */
  lemma SplitHasSecondPiece(s: string, pat: string)
    requires |pat| > 0
    ensures |Split(s, pat)| >= 2 <==> Find(s, pat).Some?
  {
  }

  /** `next()` on a split never comes back empty-handed: there is always a first piece. */
  lemma FirstPieceExists(s: string, pat: string)
    requires |pat| > 0
    ensures SplitNth(s, pat, 0).Some?
  {
  }

  /** The text of `s` before the first occurrence of `pat` (all of `s` when there is none). */
  function Prefix(s: string, pat: string): (p: string)
    requires |pat| > 0
    ensures StartsWith(s, p) && NoneBefore(s, pat, |p|)
    ensures |p| < |s| ==> OccursAt(s, pat, |p|)
  {
    match Find(s, pat)
    case None => s
    case Some(i) => s[..i]
  }

  /** The text of `s` after the first occurrence of `pat`, if `pat` occurs. */
  function Rest(s: string, pat: string): (r: Option<string>)
    requires |pat| > 0
    ensures r.None? <==> forall i: nat :: !OccursAt(s, pat, i)
    ensures r.Some? ==> s == Prefix(s, pat) + pat + r.value
  {
    match Find(s, pat)
    case None => None
    case Some(i) => Some(s[i + |pat|..])
  }

  /** The first two pieces of a split, in terms of the first occurrence alone. */
  lemma {:induction false} FirstPieces(s: string, pat: string)
    requires |pat| > 0
    ensures SplitNth(s, pat, 0) == Some(Prefix(s, pat))
    ensures SplitNth(s, pat, 1) == match Rest(s, pat)
                                   case None => None
                                   case Some(t) => Some(Prefix(t, pat))
  {
    match Find(s, pat)
    case None =>
    case Some(i) =>
      var t := s[i + |pat|..];
      assert Split(s, pat) == [s[..i]] + Split(t, pat);
      assert Split(t, pat)[0] == Prefix(t, pat);
  }

  /** A pattern does not occur where one of its characters is missing. */
  lemma Mismatch(s: string, pat: string, i: nat, k: nat)
    requires k < |pat| && (i + k >= |s| || s[i + k] != pat[k])
    ensures !OccursAt(s, pat, i)
  {
    if i + |pat| <= |s| {
      assert s[i..i + |pat|][k] == s[i + k];
    }
  }

  /**
   * When the first occurrence of `pat` in `head + pat` is the one after
   * `head`, that stays the first occurrence whatever follows.
   */
  lemma {:induction false} FirstSeparatorAt(head: string, pat: string, after: string)
    requires |pat| > 0 && Find(head + pat, pat) == Some(|head|)
    ensures Prefix(head + pat + after, pat) == head
    ensures Rest(head + pat + after, pat) == Some(after)
    ensures SplitNth(head + pat + after, pat, 1) == Some(Prefix(after, pat))
  {
    var s := head + pat + after;
    var t := head + pat;
    assert s[..|t|] == t;
    forall i: nat | i < |head| ensures !OccursAt(s, pat, i) {
      assert !OccursAt(t, pat, i);
      assert s[i..i + |pat|] == t[i..i + |pat|];
    }
    assert s[|head|..|head| + |pat|] == pat;
    FindIs(s, pat, |head|);
    assert s[|head| + |pat|..] == after;
    FirstPieces(s, pat);
  }

  /** When the first character of `pat` is not in `head`, the first `pat` in `head + pat` follows `head`. */
  lemma FirstCharAbsent(head: string, pat: string)
    requires |pat| > 0 && pat[0] !in head
    ensures Find(head + pat, pat) == Some(|head|)
  {
    var t := head + pat;
    forall i: nat | i < |head| ensures !OccursAt(t, pat, i) {
      Mismatch(t, pat, i, 0);
    }
    assert t[|head|..|head| + |pat|] == pat;
    FindIs(t, pat, |head|);
  }

  /**
   * When the first character of `pat` is not in `head`, the first occurrence
   * of `pat` in `head + pat + after` is the one right after `head`.
   */
  lemma FirstOccurrenceAfter(head: string, pat: string, after: string)
    requires |pat| > 0 && pat[0] !in head
    ensures Prefix(head + pat + after, pat) == head
    ensures Rest(head + pat + after, pat) == Some(after)
    ensures SplitNth(head + pat + after, pat, 1) == Some(Prefix(after, pat))
  {
    FirstCharAbsent(head, pat);
    FirstSeparatorAt(head, pat, after);
  }

  /** Text that lacks the first character of `pat` is its own first piece and has no rest. */
  lemma PrefixWithoutFirstChar(s: string, pat: string)
    requires |pat| > 0 && pat[0] !in s
    ensures Prefix(s, pat) == s && Rest(s, pat) == None
  {
    forall i: nat ensures !OccursAt(s, pat, i) {
      Mismatch(s, pat, i, 0);
    }
  }

  /** Text without the first character of `pat` has no occurrence of `pat` anywhere. */
  lemma NoFirstCharNoneBefore(s: string, pat: string, n: nat)
    requires |pat| > 0 && pat[0] !in s
    ensures NoneBefore(s, pat, n)
  {
    forall i: nat | i < n ensures !OccursAt(s, pat, i) {
      Mismatch(s, pat, i, 0);
    }
  }

  // ---------------------------------------------------------------------
  // Splitting on one character

  /** A one-character pattern occurs exactly where that character stands. */
  lemma CharOccursAt(s: string, c: char, i: nat)
    ensures OccursAt(s, [c], i) <==> i < |s| && s[i] == c
  {
    if i < |s| && s[i] == c {
      assert s[i..i + 1] == [c];
    }
  }

  /** Text without the character `c` is one piece. */
  lemma SplitWithoutChar(s: string, c: char)
    requires c !in s
    ensures Split(s, [c]) == [s]
  {
    forall i: nat ensures !OccursAt(s, [c], i) {
      CharOccursAt(s, c, i);
    }
    assert Find(s, [c]).None?;
  }

  /**
   * On a one-character separator `Split` is characterised by its two
   * properties: sequences of `c`-free pieces that join to `s` are exactly
   * `Split(s, [c])`.
   */
  lemma {:induction false} SplitCharCharacterised(s: string, c: char, pieces: seq<string>)
    ensures (|pieces| >= 1 && Join(pieces, [c]) == s && forall k :: 0 <= k < |pieces| ==> c !in pieces[k])
            <==> pieces == Split(s, [c])
    decreases |pieces|
  {
    if pieces == Split(s, [c]) {
      JoinSplit(s, [c]);
      forall k | 0 <= k < |pieces| ensures c !in pieces[k] {
        if c in pieces[k] {
          var j :| 0 <= j < |pieces[k]| && pieces[k][j] == c;
          CharOccursAt(pieces[k], c, j);
          SplitPiecesFree(s, [c], k, j);
        }
      }
    }
    if |pieces| >= 1 && Join(pieces, [c]) == s && forall k :: 0 <= k < |pieces| ==> c !in pieces[k] {
      if |pieces| == 1 {
        SplitWithoutChar(s, c);
      } else {
        var p0, rest := pieces[0], pieces[1..];
        var t := Join(rest, [c]);
        assert s == p0 + [c] + t;
        forall i: nat | i < |p0| ensures !OccursAt(s, [c], i) {
          CharOccursAt(s, c, i);
          assert s[i] == p0[i];
        }
        CharOccursAt(s, c, |p0|);
        FindIs(s, [c], |p0|);
        assert s[|p0| + 1..] == t;
        assert s[..|p0|] == p0;
        forall k | 0 <= k < |rest| ensures c !in rest[k] {
          assert rest[k] == pieces[k + 1];
        }
        SplitCharCharacterised(t, c, rest);
        assert pieces == [p0] + rest;
      }
    }
  }

  /** Text without `c` before a `c` is the first piece, and what follows that `c` is the rest. */
  lemma SplitAtChar(a: string, c: char, b: string)
    requires c !in a
    ensures Prefix(a + [c] + b, [c]) == a && Rest(a + [c] + b, [c]) == Some(b)
  {
    var s := a + [c] + b;
    forall i: nat | i < |a| ensures !OccursAt(s, [c], i) {
      CharOccursAt(s, c, i);
      assert s[i] == a[i];
    }
    CharOccursAt(s, c, |a|);
    FindIs(s, [c], |a|);
    assert s[..|a|] == a;
    assert s[|a| + 1..] == b;
  }

  /** Text without `c` has no rest and is its own first piece. */
  lemma PrefixWithoutChar(s: string, c: char)
    requires c !in s
    ensures Prefix(s, [c]) == s && Rest(s, [c]) == None
  {
    SplitWithoutChar(s, c);
  }

  /** Text without `c` in front of `b` does not change where `b`'s first `c` is. */
  lemma {:induction false} PrefixSkip(a: string, b: string, c: char)
    requires c !in a
    ensures Prefix(a + b, [c]) == a + Prefix(b, [c])
    ensures Rest(a + b, [c]) == Rest(b, [c])
  {
    var s := a + b;
    forall i: nat ensures OccursAt(s, [c], i) <==> (i >= |a| && OccursAt(b, [c], i - |a|)) {
      CharOccursAt(s, c, i);
      if i >= |a| {
        CharOccursAt(b, c, i - |a|);
      }
    }
    match Find(b, [c])
    case None =>
    case Some(j) =>
      FindIs(s, [c], |a| + j);
      assert s[..|a| + j] == a + b[..j];
      assert s[|a| + j + 1..] == b[j + 1..];
  }

  // ---------------------------------------------------------------------
  // Trimming

  /** Rust's `char::is_whitespace`: the Unicode White_Space property. */
  predicate IsWhitespace(c: char) {
    var n := c as int;
    (0x09 <= n <= 0x0D) || n == 0x20 || n == 0x85 || n == 0xA0 || n == 0x1680
    || (0x2000 <= n <= 0x200A) || n == 0x2028 || n == 0x2029 || n == 0x202F
    || n == 0x205F || n == 0x3000
  }

  /** The number of whitespace characters at the start of `s`. */
  function LeadingWhitespace(s: string): (n: nat)
    ensures n <= |s|
    ensures forall k :: 0 <= k < n ==> IsWhitespace(s[k])
    ensures n < |s| ==> !IsWhitespace(s[n])
  {
    if |s| > 0 && IsWhitespace(s[0]) then
      var n := 1 + LeadingWhitespace(s[1..]);
      assert forall k :: 1 <= k < n ==> s[k] == s[1..][k - 1];
      n
    else 0
  }

  /** The number of whitespace characters at the end of `s`. */
  function TrailingWhitespace(s: string): (n: nat)
    ensures n <= |s|
    ensures forall k :: |s| - n <= k < |s| ==> IsWhitespace(s[k])
    ensures n < |s| ==> !IsWhitespace(s[|s| - 1 - n])
  {
    if |s| > 0 && IsWhitespace(s[|s| - 1]) then
      1 + TrailingWhitespace(s[..|s| - 1])
    else 0
  }

  /**
   * Rust's `str::trim`: `s` without its leading and trailing whitespace. What
   * is kept is a contiguous part of `s`, everything cut off is whitespace,
   * and the kept part neither starts nor ends with whitespace.
   */
  function Trim(s: string): (r: string)
    ensures exists a, b :: 0 <= a <= b <= |s| && r == s[a..b]
                           && (forall k :: 0 <= k < a ==> IsWhitespace(s[k]))
                           && (forall k :: b <= k < |s| ==> IsWhitespace(s[k]))
    ensures r != [] ==> !IsWhitespace(r[0]) && !IsWhitespace(r[|r| - 1])
  {
    var a := LeadingWhitespace(s);
    if a == |s| then
      assert s[|s|..|s|] == [];
      []
    else
      var b := |s| - TrailingWhitespace(s);
      assert a < b;
      s[a..b]
  }
}
