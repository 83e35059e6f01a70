/** The `str` operations the core relies on: substring search (`find`), suffix test and
    `trim`, over strings as sequences of characters. */
module Strings {
  import opened Wrappers

  /** `t` occurs in `s` starting at position `i`. */
  predicate OccursAt(t: string, s: string, i: int) {
    0 <= i && i + |t| <= |s| && s[i..i + |t|] == t
  }

  predicate EndsWith(s: string, t: string) {
    OccursAt(t, s, |s| - |t|)
  }

  /** `find` from position `from`: the first occurrence of `t` at or after `from`. */
  function FindFrom(s: string, t: string, from: nat): (pos: Option<nat>)
    ensures pos.Some? ==> from <= pos.value && OccursAt(t, s, pos.value)
    ensures pos.Some? ==> forall j :: from <= j < pos.value ==> !OccursAt(t, s, j)
    ensures pos.None? ==> forall j :: from <= j ==> !OccursAt(t, s, j)
    decreases |s| - from
  {
    if from + |t| > |s| then None
    else if s[from..from + |t|] == t then Some(from)
    else FindFrom(s, t, from + 1)
  }

  /** `s.find(t)`: the position of the first occurrence of `t` in `s`, if any. */
  function Find(s: string, t: string): (pos: Option<nat>)
    ensures pos.Some? ==> OccursAt(t, s, pos.value) && forall j :: 0 <= j < pos.value ==> !OccursAt(t, s, j)
    ensures pos.None? ==> forall j :: !OccursAt(t, s, j)
  {
    FindFrom(s, t, 0)
  }

  /** `find` succeeds exactly when `t` occurs somewhere in `s`. */
  lemma FindSucceedsIffOccurs(s: string, t: string)
    ensures Find(s, t).Some? <==> exists j :: OccursAt(t, s, j)
  {
    if Find(s, t).Some? {
      assert OccursAt(t, s, Find(s, t).value);
    }
  }

  /** Unicode `White_Space`, the set `char::is_whitespace` tests. */
  predicate IsWhitespace(c: char) {
    || ('\U{0009}' <= c <= '\U{000D}') || c == '\U{0020}' || c == '\U{0085}' || c == '\U{00A0}'
    || c == '\U{1680}' || ('\U{2000}' <= c <= '\U{200A}') || c == '\U{2028}' || c == '\U{2029}'
    || c == '\U{202F}' || c == '\U{205F}' || c == '\U{3000}'
  }

  /** `trim`: drop leading and trailing whitespace (see `TrimSpec`). */
  function Trim(s: string): (r: string)
    ensures |r| <= |s|
    decreases |s|
  {
    if s != [] && IsWhitespace(s[0]) then Trim(s[1..])
    else if s != [] && IsWhitespace(s[|s| - 1]) then Trim(s[..|s| - 1])
    else s
  }

  /** `r` is `s` with the whitespace before position `i` and after `r` removed, and
      neither end of `r` is whitespace. */
  predicate TrimmedAt(r: string, s: string, i: nat) {
    && OccursAt(r, s, i)
    && (forall k :: 0 <= k < i ==> IsWhitespace(s[k]))
    && (forall k :: i + |r| <= k < |s| ==> IsWhitespace(s[k]))
    && (r == [] || (!IsWhitespace(r[0]) && !IsWhitespace(r[|r| - 1])))
  }

  lemma TrimmedDropFront(r: string, s: string, i: nat)
    requires s != [] && IsWhitespace(s[0]) && TrimmedAt(r, s[1..], i)
    ensures TrimmedAt(r, s, i + 1)
  {
    assert s[i + 1..i + 1 + |r|] == s[1..][i..i + |r|];
    forall k | 0 < k < i + 1 ensures IsWhitespace(s[k]) {
      assert s[k] == s[1..][k - 1];
    }
    forall k | i + 1 + |r| <= k < |s| ensures IsWhitespace(s[k]) {
      assert s[k] == s[1..][k - 1];
    }
  }

  lemma TrimmedDropBack(r: string, s: string, i: nat)
    requires s != [] && IsWhitespace(s[|s| - 1]) && TrimmedAt(r, s[..|s| - 1], i)
    ensures TrimmedAt(r, s, i)
  {
    var front := s[..|s| - 1];
    assert s[i..i + |r|] == front[i..i + |r|];
    forall k | i + |r| <= k < |front| ensures IsWhitespace(s[k]) {
      assert s[k] == front[k];
    }
  }

  /** What `trim` leaves is the part of `s` between its leading and its trailing whitespace,
      and neither of its ends is whitespace. */
  lemma {:induction false} TrimSpec(s: string)
    ensures exists i: nat :: TrimmedAt(Trim(s), s, i)
    decreases |s|
  {
    var r := Trim(s);
    if s != [] && IsWhitespace(s[0]) {
      TrimSpec(s[1..]);
      var i: nat :| TrimmedAt(r, s[1..], i);
      TrimmedDropFront(r, s, i);
    } else if s != [] && IsWhitespace(s[|s| - 1]) {
      TrimSpec(s[..|s| - 1]);
      var i: nat :| TrimmedAt(r, s[..|s| - 1], i);
      TrimmedDropBack(r, s, i);
    } else {
      assert s[0..|s|] == s;
      assert TrimmedAt(r, s, 0);
    }
  }

  /** Trimming keeps a non-blank first character and everything up to the last non-blank
      one: a string that starts with `t` (whose last character is not blank) still does. */
  lemma {:induction false} TrimKeepsPrefix(s: string, t: string)
    requires OccursAt(t, s, 0) && t != [] && !IsWhitespace(t[0]) && !IsWhitespace(t[|t| - 1])
    ensures OccursAt(t, Trim(s), 0)
    decreases |s|
  {
    assert s[0] == t[0];
    if IsWhitespace(s[|s| - 1]) {
      var front := s[..|s| - 1];
      assert |t| < |s|;
      assert front[..|t|] == s[..|t|];
      TrimKeepsPrefix(front, t);
    }
  }
}
