/**
 * The Python string operations the configuration code relies on, over
 * `string` (a sequence of characters): `strip()`, `startswith`, the substring
 * test `sub in s`, and `replace`.
 */
module Text {

  /** The whitespace `str.strip()` removes; only the ASCII whitespace characters are modelled. */
  predicate IsSpace(c: char)
  {
    c == ' ' || c == '\t' || c == '\n' || c == '\r' || c == '\U{000B}' || c == '\U{000C}'
  }

  /** The length of the run of whitespace at the start of `s`. */
  function LeadingSpaces(s: string): (i: nat)
    ensures i <= |s|
    ensures forall k :: 0 <= k < i ==> IsSpace(s[k])
    ensures i < |s| ==> !IsSpace(s[i])
    decreases |s|
  {
    if |s| > 0 && IsSpace(s[0]) then
      var rest := LeadingSpaces(s[1..]);
      assert forall k :: 1 <= k < 1 + rest ==> s[k] == s[1..][k - 1];
      1 + rest
    else 0
  }

  /** The length of the run of whitespace at the end of `s`. */
  function TrailingSpaces(s: string): (j: nat)
    ensures j <= |s|
    ensures forall k :: |s| - j <= k < |s| ==> IsSpace(s[k])
    ensures j < |s| ==> !IsSpace(s[|s| - j - 1])
    decreases |s|
  {
    if |s| > 0 && IsSpace(s[|s| - 1]) then 1 + TrailingSpaces(s[..|s| - 1]) else 0
  }

  /** `s` has no whitespace at either end. */
  predicate IsStripped(s: string)
  {
    |s| == 0 || (!IsSpace(s[0]) && !IsSpace(s[|s| - 1]))
  }

  /** `s.strip()`: the part of `s` between its leading and its trailing whitespace. */
  function Strip(s: string): (r: string)
    ensures IsStripped(r)
    ensures |r| <= |s|
  {
    var i := LeadingSpaces(s);
    var t := s[i..];
    t[..|t| - TrailingSpaces(t)]
  }

  /**
   * What `strip()` removes is whitespace and what it keeps is a contiguous
   * slice of `s`; the result is empty exactly when `s` is all whitespace.
   */
  lemma StripTrims(s: string)
    ensures LeadingSpaces(s) + |Strip(s)| <= |s|
    ensures Strip(s) == s[LeadingSpaces(s)..LeadingSpaces(s) + |Strip(s)|]
    ensures forall k :: 0 <= k < LeadingSpaces(s) ==> IsSpace(s[k])
    ensures forall k :: LeadingSpaces(s) + |Strip(s)| <= k < |s| ==> IsSpace(s[k])
    ensures Strip(s) == "" <==> forall k :: 0 <= k < |s| ==> IsSpace(s[k])
  {
    var i := LeadingSpaces(s);
    var t := s[i..];
    var j := TrailingSpaces(t);
    assert forall k :: i + |t| - j <= k < |s| ==> s[k] == t[k - i];
  }

  /** Stripping a stripped string changes nothing, so `strip()` is idempotent. */
  lemma StripIdempotent(s: string)
    ensures Strip(Strip(s)) == Strip(s)
  {
    var r := Strip(s);
    if |r| > 0 {
      assert LeadingSpaces(r) == 0;
      assert r[..] == r;
    }
  }

  /** `s.startswith(prefix)`. */
  predicate StartsWith(s: string, prefix: string)
  {
    |prefix| <= |s| && s[..|prefix|] == prefix
  }

  /** `sub` occurs in `s` starting at position `i`. */
  predicate OccursAt(s: string, sub: string, i: int)
  {
    0 <= i && i + |sub| <= |s| && s[i..i + |sub|] == sub
  }

  /** `sub in s`: `sub` occurs somewhere in `s`. */
  predicate Contains(s: string, sub: string)
  {
    exists i | 0 <= i <= |s| - |sub| :: OccursAt(s, sub, i)
  }

  /** A string lacking one of the characters of `sub` does not contain `sub`. */
  lemma MissingChar(s: string, sub: string, c: char)
    requires c in sub && c !in s
    ensures !Contains(s, sub)
  {
  }

  /**
   * `s.replace(pat, rep)`: every non-overlapping occurrence of `pat`, scanning
   * from the left, replaced by `rep`.
   */
  function ReplaceAll(s: string, pat: string, rep: string): string
    requires |pat| > 0
    decreases |s|
  {
    if |s| < |pat| then s
    else if s[..|pat|] == pat then rep + ReplaceAll(s[|pat|..], pat, rep)
    else [s[0]] + ReplaceAll(s[1..], pat, rep)
  }

  /** Replacing a pattern that does not occur changes nothing. */
  lemma {:induction false} ReplaceAbsent(s: string, pat: string, rep: string)
    requires |pat| > 0 && !Contains(s, pat)
    ensures ReplaceAll(s, pat, rep) == s
    decreases |s|
  {
    if |s| >= |pat| {
      assert !OccursAt(s, pat, 0);
      assert s[0..|pat|] == s[..|pat|];
      if Contains(s[1..], pat) {
        var i :| 0 <= i <= |s| - 1 - |pat| && OccursAt(s[1..], pat, i);
        assert s[1..][i..i + |pat|] == s[i + 1..i + 1 + |pat|];
        assert OccursAt(s, pat, i + 1);
      }
      ReplaceAbsent(s[1..], pat, rep);
      assert [s[0]] + s[1..] == s;
    }
  }

  /**
   * Removing a prefix with `replace` recovers the rest, provided the prefix
   * does not occur again in it.
   */
  lemma RemovePrefix(prefix: string, rest: string)
    requires |prefix| > 0 && !Contains(rest, prefix)
    ensures ReplaceAll(prefix + rest, prefix, "") == rest
  {
    var s := prefix + rest;
    assert s[..|prefix|] == prefix;
    assert s[|prefix|..] == rest;
    ReplaceAbsent(rest, prefix, "");
  }
}
