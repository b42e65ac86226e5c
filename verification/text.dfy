/**
 * The handful of Python string operations the assistant relies on, over ASCII:
 * `str.lower()`, the `in` substring test, `str.split(sep)`, `str.split()`,
 * `str.strip()` and `str.replace(pat, "")`.
 */
module Text {
  import opened Wrappers

  // ---------------------------------------------------------------- case

  predicate IsUpper(c: char) { 'A' <= c <= 'Z' }

  /** The lower-case ASCII letters, in alphabetical order. */
  const LowerLetters := "abcdefghijklmnopqrstuvwxyz"

  /**
   * `c.lower()` for ASCII letters: the k-th upper-case letter becomes the k-th
   * lower-case letter; every other character is left alone.
   */
  function LowerChar(c: char): (r: char)
    ensures !IsUpper(r)
    ensures IsUpper(c) ==> r == LowerLetters[c as int - 'A' as int]
    ensures !IsUpper(c) ==> r == c
  {
    if IsUpper(c) then (c as int + 32) as char else c
  }

  predicate NoUpper(s: string) { forall i :: 0 <= i < |s| ==> !IsUpper(s[i]) }

  /** `s.lower()`, restricted to ASCII case mapping. */
  function Lower(s: string): (r: string)
    ensures |r| == |s|
    ensures forall i :: 0 <= i < |s| ==> r[i] == LowerChar(s[i])
  {
    seq(|s|, i requires 0 <= i < |s| => LowerChar(s[i]))
  }

  /** Lower-casing leaves no upper-case letter behind. */
  lemma LowerHasNoUpper(s: string)
    ensures NoUpper(Lower(s))
  {
  }

  /** A string without upper-case letters is its own lower-case form. */
  lemma LowerOfLower(s: string)
    requires NoUpper(s)
    ensures Lower(s) == s
  {
    assert forall i :: 0 <= i < |s| ==> Lower(s)[i] == s[i];
  }

  /** Lower-casing twice is lower-casing once. */
  lemma LowerIdempotent(s: string)
    ensures Lower(Lower(s)) == Lower(s)
  {
    LowerHasNoUpper(s);
    LowerOfLower(Lower(s));
  }

  // ---------------------------------------------------------------- whitespace

  /** Python's `str.isspace()` on the ASCII range (tab to carriage return, the four separators, space). */
  predicate IsSpace(c: char) {
    c == ' ' || '\t' <= c <= '\r' || '\U{1C}' <= c <= '\U{1F}'
  }

  predicate AllSpace(s: string) { forall i :: 0 <= i < |s| ==> IsSpace(s[i]) }

  predicate NoSpace(s: string) { forall i :: 0 <= i < |s| ==> !IsSpace(s[i]) }

  // ---------------------------------------------------------------- substrings

  /** `t` occurs in `s` starting at index `i`. */
  predicate OccursAt(s: string, t: string, i: int) {
    0 <= i && i + |t| <= |s| && s[i..i + |t|] == t
  }

  /** `s.find(t)`: the first index at which `t` occurs in `s`, if any. */
  function IndexOf(s: string, t: string): (r: Option<nat>)
    ensures r.Some? ==> r.value + |t| <= |s|
    decreases |s|
  {
    if t <= s then Some(0)
    else if s == [] then None
    else
      match IndexOf(s[1..], t)
      case None => None
      case Some(k) => Some(k + 1)
  }

  /**
   * `IndexOf` finds the first occurrence: `t` occurs at the index found and at no
   * index before it, and nowhere at all when nothing is found.
   */
  lemma {:induction false} IndexOfSpec(s: string, t: string)
    ensures var r := IndexOf(s, t);
      && (r.Some? ==> OccursAt(s, t, r.value))
      && (r.Some? ==> forall j :: 0 <= j < r.value ==> !OccursAt(s, t, j))
      && (r.None? ==> forall j :: !OccursAt(s, t, j))
    decreases |s|
  {
    if t <= s {
      assert s[0..|t|] == t;
    } else if s != [] {
      assert !OccursAt(s, t, 0) by {
        assert |t| <= |s| ==> s[0..|t|] == s[..|t|];
      }
      IndexOfSpec(s[1..], t);
      ShiftOccurrence(s, t);
    }
  }

  /** An occurrence in `s[1..]` is an occurrence in `s` one place later, and back. */
  lemma ShiftOccurrence(s: string, t: string)
    requires s != []
    ensures forall j :: OccursAt(s[1..], t, j) ==> OccursAt(s, t, j + 1)
    ensures forall j :: 1 <= j && OccursAt(s, t, j) ==> OccursAt(s[1..], t, j - 1)
  {
    forall j | OccursAt(s[1..], t, j)
      ensures OccursAt(s, t, j + 1)
    {
      assert s[1..][j..j + |t|] == s[j + 1..j + 1 + |t|];
    }
    forall j | 1 <= j && OccursAt(s, t, j)
      ensures OccursAt(s[1..], t, j - 1)
    {
      assert s[1..][j - 1..j - 1 + |t|] == s[j..j + |t|];
    }
  }

  /** Python's `t in s`. */
  predicate Contains(s: string, t: string) {
    IndexOf(s, t).Some?
  }

  /** `t in s` exactly when `t` occurs somewhere in `s`. */
  lemma ContainsAt(s: string, t: string, i: int)
    requires OccursAt(s, t, i)
    ensures Contains(s, t)
  {
    IndexOfSpec(s, t);
  }

  /** A string cannot contain a pattern that has a character the string lacks. */
  lemma MissingCharNotContained(s: string, t: string, c: char)
    requires c in t && c !in s
    ensures !Contains(s, t) && forall j :: !OccursAt(s, t, j)
  {
    IndexOfSpec(s, t);
    forall i | 0 <= i && i + |t| <= |s|
      ensures !OccursAt(s, t, i)
    {
      var k :| 0 <= k < |t| && t[k] == c;
      assert s[i..i + |t|][k] == s[i + k];
    }
  }

  // ---------------------------------------------------------------- split(sep)

  /** `t.split(sep)[0]`: the text of `t` up to the first occurrence of `sep`, or all of it. */
  function UpTo(t: string, sep: string): (r: string)
    ensures |r| <= |t|
  {
    match IndexOf(t, sep)
    case None => t
    case Some(j) => t[..j]
  }

  /**
   * `UpTo` is a prefix of the text, free of the separator, and followed in the
   * text by the separator unless it is all of it.
   */
  lemma UpToSpec(t: string, sep: string)
    requires sep != []
    ensures var piece := UpTo(t, sep);
      && piece == t[..|piece|]
      && !Contains(piece, sep)
      && (piece == t || OccursAt(t, sep, |piece|))
  {
    match IndexOf(t, sep)
    case None =>
      assert t[..|t|] == t;
    case Some(j) =>
      CutAtFirst(t, sep, j);
  }

  /**
   * `s.split(sep)[1]`: the piece between the first and the second occurrence of
   * `sep` (or the end of `s`); `None` where Python raises `IndexError` because
   * `sep` does not occur.
   */
  function SecondPiece(s: string, sep: string): (r: Option<string>)
    requires sep != []
    ensures r.None? <==> !Contains(s, sep)
  {
    match IndexOf(s, sep)
    case None => None
    case Some(i) => Some(UpTo(s[i + |sep|..], sep))
  }

  /**
   * The second piece is the text after the first `sep` up to the next `sep`, or
   * up to the end when there is none: a prefix of that text, free of `sep`, and
   * followed in it by `sep` unless it is all of it.
   */
  lemma SecondPieceSpec(s: string, sep: string, i: nat)
    requires sep != [] && IndexOf(s, sep) == Some(i)
    ensures var tail := s[i + |sep|..]; var piece := SecondPiece(s, sep).value;
      && |piece| <= |tail| && piece == tail[..|piece|]
      && !Contains(piece, sep)
      && (piece == tail || OccursAt(tail, sep, |piece|))
  {
    SecondPieceAt(s, sep, i);
    UpToSpec(s[i + |sep|..], sep);
  }

  /** Where the first `sep` is at `i`, the second piece is cut from the text after it. */
  lemma SecondPieceAt(s: string, sep: string, i: nat)
    requires sep != [] && IndexOf(s, sep) == Some(i)
    ensures SecondPiece(s, sep) == Some(UpTo(s[i + |sep|..], sep))
  {
  }

  /** The text before the first occurrence of `t` does not contain `t`. */
  lemma CutAtFirst(s: string, t: string, j: nat)
    requires t != [] && IndexOf(s, t) == Some(j)
    ensures j <= |s| && OccursAt(s, t, j) && !Contains(s[..j], t)
  {
    IndexOfSpec(s, t);
    PrefixOccurrence(s, t, j);
    IndexOfSpec(s[..j], t);
  }

  /** An occurrence inside a prefix is an occurrence in the whole string. */
  lemma PrefixOccurrence(s: string, t: string, n: nat)
    requires n <= |s|
    ensures forall j :: OccursAt(s[..n], t, j) ==> OccursAt(s, t, j)
  {
    forall j | OccursAt(s[..n], t, j)
      ensures OccursAt(s, t, j)
    {
      assert s[..n][j..j + |t|] == s[j..j + |t|];
    }
  }

  /** `s.split(c)` for a one-character separator: the pieces between the separators. */
  function Split(s: string, c: char): (r: seq<string>)
    ensures |r| >= 1
    ensures forall k :: 0 <= k < |r| ==> c !in r[k]
    ensures |r| == 1 <==> c !in s
  {
    if s == [] then [[]]
    else
      var rest := Split(s[1..], c);
      if s[0] == c then [[]] + rest
      else [[s[0]] + rest[0]] + rest[1..]
  }

  /** `c.join(pieces)`, the inverse of `Split`. */
  function Join(pieces: seq<string>, c: char): string
    requires |pieces| >= 1
  {
    if |pieces| == 1 then pieces[0] else pieces[0] + [c] + Join(pieces[1..], c)
  }

  /** Splitting and re-joining gives back the original text. */
  lemma {:induction false} JoinSplit(s: string, c: char)
    ensures Join(Split(s, c), c) == s
  {
    if s != [] {
      JoinSplit(s[1..], c);
      var rest := Split(s[1..], c);
      if s[0] != c {
        if |rest| > 1 {
          assert ([[s[0]] + rest[0]] + rest[1..])[1..] == rest[1..];
        }
      } else {
        assert ([[]] + rest)[1..] == rest;
      }
    }
  }

  /** The first piece of `s.split(c)` is empty exactly when `s` is empty or starts with `c`. */
  lemma FirstPieceEmpty(s: string, c: char)
    ensures Split(s, c)[0] == [] <==> (s == [] || s[0] == c)
  {
  }

  /** The last piece of `s.split(c)` is the suffix of `s` after its last `c` (all of `s` when there is none). */
  lemma {:induction false} LastPiece(s: string, c: char)
    ensures var last := Split(s, c)[|Split(s, c)| - 1];
      && |last| <= |s|
      && last == s[|s| - |last|..]
      && (|last| < |s| ==> s[|s| - |last| - 1] == c)
  {
    if s != [] {
      LastPiece(s[1..], c);
    }
  }

  // ---------------------------------------------------------------- split() and strip()

  /** The number of leading whitespace characters of `s`. */
  function LeadingSpace(s: string): (n: nat)
    ensures n <= |s|
    ensures AllSpace(s[..n])
    ensures n < |s| ==> !IsSpace(s[n])
  {
    if s == [] || !IsSpace(s[0]) then 0
    else
      var n := LeadingSpace(s[1..]);
      assert s[..n + 1] == [s[0]] + s[1..][..n];
      n + 1
  }

  /** The number of trailing whitespace characters of `s`. */
  function TrailingSpace(s: string): (n: nat)
    ensures n <= |s|
    ensures AllSpace(s[|s| - n..])
    ensures n < |s| ==> !IsSpace(s[|s| - n - 1])
  {
    if s == [] || !IsSpace(s[|s| - 1]) then 0
    else
      var init := s[..|s| - 1];
      var n := TrailingSpace(init);
      SpaceThenLast(s, init[|init| - n..]);
      n + 1
  }

  /** A run of blanks ending just before a blank last character extends to the end. */
  lemma SpaceThenLast(s: string, run: string)
    requires s != [] && IsSpace(s[|s| - 1]) && AllSpace(run)
    requires |run| < |s| && s[|s| - 1 - |run|..|s| - 1] == run
    ensures AllSpace(s[|s| - 1 - |run|..])
  {
    assert s[|s| - 1 - |run|..] == run + [s[|s| - 1]];
  }

  /** The longest prefix of `s` without whitespace. */
  function Word(s: string): (w: string)
    ensures w <= s && NoSpace(w)
    ensures w == s || IsSpace(s[|w|])
  {
    if s == [] || IsSpace(s[0]) then [] else [s[0]] + Word(s[1..])
  }

  /** `s.split()[0]`: the first whitespace-separated token; `None` where Python raises `IndexError`. */
  function FirstToken(s: string): (r: Option<string>)
    ensures r.None? <==> AllSpace(s)
    ensures r.Some? ==>
      var n := LeadingSpace(s);
      && r.value != []
      && NoSpace(r.value)
      && r.value <= s[n..]
      && (n + |r.value| == |s| || IsSpace(s[n + |r.value|]))
  {
    var n := LeadingSpace(s);
    if n == |s| then
      assert s[..n] == s;
      None
    else
      Some(Word(s[n..]))
  }

  /** `s.strip()`: `s` without its leading and trailing whitespace. */
  function Strip(s: string): (r: string)
    ensures r == [] || (!IsSpace(r[0]) && !IsSpace(r[|r| - 1]))
    ensures exists a, b :: 0 <= a <= b <= |s| && r == s[a..b] && AllSpace(s[..a]) && AllSpace(s[b..])
  {
    var a := LeadingSpace(s);
    if a == |s| then
      assert s[..a] == s && s[a..] == [];
      []
    else
      var b := |s| - TrailingSpace(s);
      SpacesFrom(s, b);
      s[a..b]
  }

  /** Every character of an all-blank suffix is a blank. */
  lemma SpacesFrom(s: string, b: nat)
    requires b <= |s| && AllSpace(s[b..])
    ensures forall i :: b <= i < |s| ==> IsSpace(s[i])
  {
    assert forall i :: b <= i < |s| ==> s[i] == s[b..][i - b];
  }

  /** `s.replace(pat, "")`: every non-overlapping occurrence of `pat`, scanning left to right, removed. */
  function RemoveAll(s: string, pat: string): (r: string)
    requires pat != []
    ensures |r| <= |s|
    decreases |s|
  {
    if s == [] then []
    else if pat <= s then RemoveAll(s[|pat|..], pat)
    else [s[0]] + RemoveAll(s[1..], pat)
  }

  /**
   * Removal works left to right: the text before the first occurrence is kept,
   * the occurrence is dropped, and removal goes on after it.
   */
  lemma {:induction false} RemoveAtFirst(s: string, pat: string, i: nat)
    requires pat != [] && IndexOf(s, pat) == Some(i)
    ensures i + |pat| <= |s|
    ensures RemoveAll(s, pat) == s[..i] + RemoveAll(s[i + |pat|..], pat)
    decreases |s|, 1
  {
    if pat <= s {
      assert i == 0;
    } else {
      RemoveAtLater(s, pat, i);
    }
  }

  /** `RemoveAtFirst` where the pattern does not start the text. */
  lemma {:induction false} RemoveAtLater(s: string, pat: string, i: nat)
    requires pat != [] && IndexOf(s, pat) == Some(i) && !(pat <= s)
    ensures i + |pat| <= |s|
    ensures RemoveAll(s, pat) == s[..i] + RemoveAll(s[i + |pat|..], pat)
    decreases |s|, 0
  {
    var tail := s[1..];
    SearchStep(s, pat, i);
    RemoveAtFirst(tail, pat, i - 1);
    SliceStep(s, i, |pat|);
    Associative([s[0]], tail[..i - 1], RemoveAll(s[i + |pat|..], pat));
  }

  lemma Associative<T>(a: seq<T>, b: seq<T>, c: seq<T>)
    ensures a + b + c == a + (b + c)
  {
  }

  /** Where the pattern does not start the text, the search goes on one place later. */
  lemma SearchStep(s: string, pat: string, i: nat)
    requires pat != [] && IndexOf(s, pat) == Some(i) && !(pat <= s)
    ensures s != [] && 1 <= i && IndexOf(s[1..], pat) == Some(i - 1)
    ensures RemoveAll(s, pat) == [s[0]] + RemoveAll(s[1..], pat)
  {
  }

  /** Slicing after the first character shifts every index by one. */
  lemma SliceStep(s: string, i: nat, k: nat)
    requires 1 <= i && i + k <= |s|
    ensures s[1..][i - 1 + k..] == s[i + k..]
    ensures s[..i] == [s[0]] + s[1..][..i - 1]
  {
  }

  /** Removing a pattern that does not occur changes nothing. */
  lemma {:induction false} RemoveAbsent(s: string, pat: string)
    requires pat != [] && !Contains(s, pat)
    ensures RemoveAll(s, pat) == s
    decreases |s|
  {
    if s != [] {
      assert !(pat <= s) by {
        assert !OccursAt(s, pat, 0);
        assert |pat| <= |s| ==> s[0..|pat|] == s[..|pat|];
      }
      ShiftOccurrence(s, pat);
      RemoveAbsent(s[1..], pat);
    }
  }
}
