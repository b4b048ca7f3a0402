/**
 * Case-insensitive string comparison, as `StringComparison.OrdinalIgnoreCase`
 * performs it, restricted to ASCII letters: two strings are equal ignoring case
 * when they have the same length and agree character by character after the
 * lower-case ASCII letters are mapped to upper case.
 */
module CaseFold {

  /** Maps 'a'..'z' to 'A'..'Z' and leaves every other character alone. */
  function UpperAscii(c: char): (u: char)
    ensures 'a' <= c <= 'z' ==> 'A' <= u <= 'Z' && u as int == c as int - 32
    ensures !('a' <= c <= 'z') ==> u == c
  {
    if 'a' <= c <= 'z' then (c as int - 32) as char else c
  }

  /** The string with every ASCII letter in upper case. */
  function Upper(s: string): (r: string)
    ensures |r| == |s|
    ensures forall i :: 0 <= i < |s| ==> r[i] == UpperAscii(s[i])
  {
    if s == [] then [] else [UpperAscii(s[0])] + Upper(s[1..])
  }

  /** `a.Equals(b, StringComparison.OrdinalIgnoreCase)`, ASCII case folding only. */
  predicate EqualsIgnoreCase(a: string, b: string)
    ensures EqualsIgnoreCase(a, b) ==> |a| == |b|
    ensures a == b ==> EqualsIgnoreCase(a, b)
  {
    |a| == |b| && forall i :: 0 <= i < |a| ==> UpperAscii(a[i]) == UpperAscii(b[i])
  }

  /** Comparing ignoring case is comparing the upper-cased strings. */
  lemma EqualsIgnoreCaseIsUpperEquality(a: string, b: string)
    ensures EqualsIgnoreCase(a, b) <==> Upper(a) == Upper(b)
  {
  }

  /** The comparison is an equivalence relation, so a lookup may use either spelling. */
  lemma EqualsIgnoreCaseIsEquivalence(a: string, b: string, c: string)
    ensures EqualsIgnoreCase(a, a)
    ensures EqualsIgnoreCase(a, b) ==> EqualsIgnoreCase(b, a)
    ensures EqualsIgnoreCase(a, b) && EqualsIgnoreCase(b, c) ==> EqualsIgnoreCase(a, c)
  {
  }

  /** Strings that differ only in the case of their letters compare equal, e.g. "ADD" and "add". */
  lemma AddSpellings()
    ensures EqualsIgnoreCase("ADD", "add") && EqualsIgnoreCase("Add", "add")
    ensures !EqualsIgnoreCase("add", "adds")
  {
  }
}
