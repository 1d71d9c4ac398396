/**
 * PHP's strtolower, in the "C" locale: every ASCII upper-case letter becomes
 * its lower-case counterpart and every other character is left as it is.
 * The facade uses it to make standard names case-insensitive.
 */
module Ascii {

  predicate IsUpperChar(c: char) {
    'A' <= c <= 'Z'
  }

  /** A string that strtolower leaves as it is. */
  predicate IsLowered(s: string) {
    forall i :: 0 <= i < |s| ==> !IsUpperChar(s[i])
  }

  function LowerChar(c: char): (d: char)
    ensures !IsUpperChar(d)
    ensures !IsUpperChar(c) ==> d == c
    ensures IsUpperChar(c) ==> d as int - c as int == 'a' as int - 'A' as int
  {
    if IsUpperChar(c) then (c as int + ('a' as int - 'A' as int)) as char else c
  }

  /** strtolower: lower-cases character by character, keeping the length. */
  function Lower(s: string): (r: string)
    ensures |r| == |s|
    ensures forall i :: 0 <= i < |s| ==> r[i] == LowerChar(s[i])
    ensures IsLowered(r)
  {
    if s == [] then [] else [LowerChar(s[0])] + Lower(s[1..])
  }

  /** Two names that differ at most in the case of ASCII letters. */
  predicate SameIgnoringCase(a: string, b: string) {
    |a| == |b| && forall i :: 0 <= i < |a| ==> LowerChar(a[i]) == LowerChar(b[i])
  }

  /** Lower-casing identifies exactly the names that differ only in case. */
  lemma SameIgnoringCaseIffLowerEqual(a: string, b: string)
    ensures SameIgnoringCase(a, b) <==> Lower(a) == Lower(b)
  {
    if Lower(a) == Lower(b) {
      forall i | 0 <= i < |a|
        ensures LowerChar(a[i]) == LowerChar(b[i])
      {
        assert Lower(a)[i] == Lower(b)[i];
      }
    }
    if SameIgnoringCase(a, b) {
      assert forall i :: 0 <= i < |a| ==> Lower(a)[i] == Lower(b)[i];
    }
  }

  /** A name that is already lower-case is its own key. */
  lemma LowerKeepsLowered(s: string)
    requires IsLowered(s)
    ensures Lower(s) == s
  {
    assert forall i :: 0 <= i < |s| ==> Lower(s)[i] == s[i];
  }

  lemma LowerIdempotent(s: string)
    ensures Lower(Lower(s)) == Lower(s)
  {
    LowerKeepsLowered(Lower(s));
  }
}
