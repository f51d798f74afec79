/**
 * The JavaScript string operations the app's rules are written with:
 * `startsWith`, `includes`, a global regex replace by the empty string,
 * `trim`, and ASCII case mapping. Strings are sequences of characters.
 */
module JsText {

  /** `s.startsWith(p)`. */
  predicate StartsWith(s: string, p: string) {
    |p| <= |s| && s[..|p|] == p
  }

  /** `s.includes(p)`, computed by trying every start position in turn. */
  predicate Includes(s: string, p: string)
    decreases |s|
  {
    StartsWith(s, p) || (|s| > 0 && Includes(s[1..], p))
  }

  /** A string shorter than the pattern does not include it. */
  lemma {:induction false} IncludesNeedsRoom(s: string, p: string)
    requires |s| < |p|
    ensures !Includes(s, p)
    decreases |s|
  {
    if |s| > 0 {
      IncludesNeedsRoom(s[1..], p);
    }
  }

  /** The declarative reading of `includes`: `p` occurs at some index of `s`. */
  ghost predicate OccursAt(s: string, p: string, i: int) {
    0 <= i && i + |p| <= |s| && s[i..i + |p|] == p
  }

  lemma {:induction false} IncludesIffOccurs(s: string, p: string)
    ensures Includes(s, p) <==> exists i :: OccursAt(s, p, i)
    decreases |s|
  {
    if Includes(s, p) {
      if StartsWith(s, p) {
        assert OccursAt(s, p, 0);
      } else {
        IncludesIffOccurs(s[1..], p);
        var i :| OccursAt(s[1..], p, i);
        assert s[1..][i..i + |p|] == s[i + 1..i + 1 + |p|];
        assert OccursAt(s, p, i + 1);
      }
    } else {
      forall i | 0 <= i && i + |p| <= |s|
        ensures !OccursAt(s, p, i)
      {
        if i == 0 {
          assert !StartsWith(s, p);
        } else {
          IncludesIffOccurs(s[1..], p);
          assert s[1..][i - 1..i - 1 + |p|] == s[i..i + |p|];
          assert !OccursAt(s[1..], p, i - 1);
        }
      }
    }
  }

  /**
   * `s.replace(/p/g, '')` for a pattern `p` made of literal characters:
   * matches are found left to right, do not overlap, and the search resumes
   * right after each removed match.
   */
  function RemoveAll(s: string, p: string): (r: string)
    requires |p| > 0
    ensures |r| <= |s|
    decreases |s|
  {
    if |s| == 0 then []
    else if StartsWith(s, p) then RemoveAll(s[|p|..], p)
    else [s[0]] + RemoveAll(s[1..], p)
  }

  /** Removing a pattern that does not occur changes nothing. */
  lemma {:induction false} RemoveAllAbsent(s: string, p: string)
    requires |p| > 0 && !Includes(s, p)
    ensures RemoveAll(s, p) == s
    decreases |s|
  {
    if |s| > 0 {
      RemoveAllAbsent(s[1..], p);
      assert [s[0]] + s[1..] == s;
    }
  }

  /** Removing a pattern from a different string of the same length changes nothing. */
  lemma RemoveAllSameLength(s: string, p: string)
    requires |p| > 0 && |s| == |p| && s != p
    ensures RemoveAll(s, p) == s
  {
    assert !StartsWith(s, p) by {
      assert s[..|p|] == s;
    }
    IncludesNeedsRoom(s[1..], p);
    RemoveAllAbsent(s, p);
  }

  /** No match of `p` starts in the first `k` characters of `s`. */
  predicate NoMatchBefore(s: string, k: nat, p: string)
    decreases k
  {
    k == 0 || (|s| > 0 && !StartsWith(s, p) && NoMatchBefore(s[1..], k - 1, p))
  }

  /** The index-wise reading of `NoMatchBefore`. */
  lemma {:induction false} NoMatchBeforeIndices(s: string, k: nat, p: string)
    requires k <= |s|
    requires forall i :: 0 <= i < k ==> !StartsWith(s[i..], p)
    ensures NoMatchBefore(s, k, p)
    decreases k
  {
    if k > 0 {
      assert s[0..] == s;
      forall i | 0 <= i < k - 1 ensures !StartsWith(s[1..][i..], p) {
        assert s[1..][i..] == s[i + 1..];
      }
      NoMatchBeforeIndices(s[1..], k - 1, p);
    }
  }

  /** When no match starts in the first `k` characters and one starts at `k`, removal keeps those `k` characters and drops the match. */
  lemma {:induction false} RemoveAllPrefixFree(s: string, k: nat, p: string)
    requires |p| > 0 && k + |p| <= |s| && s[k..k + |p|] == p
    requires NoMatchBefore(s, k, p)
    ensures RemoveAll(s, p) == s[..k] + RemoveAll(s[k + |p|..], p)
    decreases k
  {
    if k == 0 {
      assert StartsWith(s, p);
      assert s[..0] + RemoveAll(s[|p|..], p) == RemoveAll(s[|p|..], p);
    } else {
      var t := s[1..];
      assert t[k - 1..k - 1 + |p|] == p;
      RemoveAllPrefixFree(t, k - 1, p);
      calc {
        RemoveAll(s, p);
        [s[0]] + RemoveAll(t, p);
        [s[0]] + (t[..k - 1] + RemoveAll(t[k - 1 + |p|..], p));
        { assert t[k - 1 + |p|..] == s[k + |p|..]; }
        ([s[0]] + t[..k - 1]) + RemoveAll(s[k + |p|..], p);
        { assert [s[0]] + t[..k - 1] == s[..k]; }
        s[..k] + RemoveAll(s[k + |p|..], p);
      }
    }
  }

  /** Every character removed is part of a match: a string without an occurrence shrinks by nothing, one with an occurrence by at least |p|. */
  lemma {:induction false} RemoveAllShrinks(s: string, p: string)
    requires |p| > 0 && Includes(s, p)
    ensures |RemoveAll(s, p)| <= |s| - |p|
    decreases |s|
  {
    if !StartsWith(s, p) {
      RemoveAllShrinks(s[1..], p);
    }
  }

  /** The characters that ECMAScript's `trim` removes: WhiteSpace and LineTerminator. */
  predicate IsWhiteSpace(c: char) {
    c == '\t' || c == '\n' || c == '\U{000B}' || c == '\U{000C}' || c == '\r' || c == ' '
    || c == '\U{00A0}' || c == '\U{1680}' || ('\U{2000}' <= c <= '\U{200A}')
    || c == '\U{2028}' || c == '\U{2029}' || c == '\U{202F}' || c == '\U{205F}'
    || c == '\U{3000}' || c == '\U{FEFF}'
  }

  /** A string that `trim` reduces to the empty string. */
  predicate IsBlank(s: string) {
    forall k :: 0 <= k < |s| ==> IsWhiteSpace(s[k])
  }

  /** `s.trimStart()`: the longest suffix of `s` that does not start with white space. */
  function TrimStart(s: string): (r: string)
    ensures |r| <= |s| && r == s[|s| - |r|..]
    ensures forall k :: 0 <= k < |s| - |r| ==> IsWhiteSpace(s[k])
    ensures r == [] || !IsWhiteSpace(r[0])
    decreases |s|
  {
    if |s| > 0 && IsWhiteSpace(s[0]) then TrimStart(s[1..]) else s
  }

  /** `s.trimEnd()`: the longest prefix of `s` that does not end with white space. */
  function TrimEnd(s: string): (r: string)
    ensures |r| <= |s| && r == s[..|r|]
    ensures forall k :: |r| <= k < |s| ==> IsWhiteSpace(s[k])
    ensures r == [] || !IsWhiteSpace(r[|r| - 1])
    decreases |s|
  {
    if |s| > 0 && IsWhiteSpace(s[|s| - 1]) then TrimEnd(s[..|s| - 1]) else s
  }

  /** `s.trim()`. */
  function Trim(s: string): string {
    TrimEnd(TrimStart(s))
  }

  /** `trim` yields the empty string exactly for blank input; otherwise its result starts and ends with a visible character. */
  lemma TrimEmptyIffBlank(s: string)
    ensures Trim(s) == [] <==> IsBlank(s)
    ensures Trim(s) != [] ==> !IsWhiteSpace(Trim(s)[0]) && !IsWhiteSpace(Trim(s)[|Trim(s)| - 1])
  {
    var t := TrimStart(s);
    if Trim(s) == [] {
      assert t == [];
    } else {
      assert !IsWhiteSpace(t[0]);
      assert t[0] == s[|s| - |t|];
      assert t[0] == Trim(s)[0];
    }
  }

  /** `!s.trim()`: the trimmed text is empty, which happens exactly for blank text. */
  function TrimsToEmpty(s: string): (b: bool)
    ensures b <==> IsBlank(s)
  {
    TrimEmptyIffBlank(s);
    Trim(s) == []
  }

  /** A string with no white space at either end is its own trim. */
  lemma TrimOfTrimmed(s: string)
    requires s == [] || (!IsWhiteSpace(s[0]) && !IsWhiteSpace(s[|s| - 1]))
    ensures Trim(s) == s
  {
  }

  predicate IsDigit(c: char) {
    '0' <= c <= '9'
  }

  predicate IsLowerLetter(c: char) {
    'a' <= c <= 'z'
  }

  /** `toLowerCase` on one character, for the ASCII letters. */
  function LowerChar(c: char): (d: char)
    ensures 'A' <= c <= 'Z' ==> IsLowerLetter(d) && d as int == c as int + 32
    ensures !('A' <= c <= 'Z') ==> d == c
  {
    if 'A' <= c <= 'Z' then (c as int + 32) as char else c
  }

  /** `toUpperCase` on one character, for the ASCII letters. */
  function UpperChar(c: char): (d: char)
    ensures IsLowerLetter(c) ==> 'A' <= d <= 'Z' && d as int == c as int - 32
    ensures !IsLowerLetter(c) ==> d == c
  {
    if IsLowerLetter(c) then (c as int - 32) as char else c
  }

  function Lower(s: string): (r: string)
    ensures |r| == |s| && forall k :: 0 <= k < |s| ==> r[k] == LowerChar(s[k])
  {
    seq(|s|, k requires 0 <= k < |s| => LowerChar(s[k]))
  }

  function Upper(s: string): (r: string)
    ensures |r| == |s| && forall k :: 0 <= k < |s| ==> r[k] == UpperChar(s[k])
  {
    seq(|s|, k requires 0 <= k < |s| => UpperChar(s[k]))
  }

  /** Lower-casing twice is lower-casing once. */
  lemma LowerIdempotent(s: string)
    ensures Lower(Lower(s)) == Lower(s)
  {
  }

  /** Upper-casing twice is upper-casing once. */
  lemma UpperIdempotent(s: string)
    ensures Upper(Upper(s)) == Upper(s)
  {
  }

  /** Upper-casing is blind to the case of the input. */
  lemma UpperOfLower(s: string)
    ensures Upper(Lower(s)) == Upper(s)
  {
    forall k | 0 <= k < |s| ensures Upper(Lower(s))[k] == Upper(s)[k] {
    }
  }
}
