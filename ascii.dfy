/**
 * ASCII case mapping. The frontend compares strings after `toLowerCase()`;
 * this model restricts that conversion to the ASCII letters and leaves every
 * other character unchanged.
 */
module Ascii {

  predicate IsUpper(c: char) { 'A' <= c <= 'Z' }

  predicate IsLower(c: char) { 'a' <= c <= 'z' }

  function LowerChar(c: char): char
  {
    if IsUpper(c) then (c as int + 32) as char else c
  }

  function UpperChar(c: char): char
  {
    if IsLower(c) then (c as int - 32) as char else c
  }

  /** `s.toLowerCase()`, restricted to ASCII. */
  function ToLower(s: string): string
  {
    seq(|s|, i requires 0 <= i < |s| => LowerChar(s[i]))
  }

  /** `s.toUpperCase()`, restricted to ASCII. */
  function ToUpper(s: string): string
  {
    seq(|s|, i requires 0 <= i < |s| => UpperChar(s[i]))
  }

  /** A word written only with lower-case letters and non-letters. */
  predicate IsLowerWord(w: string)
  {
    forall i :: 0 <= i < |w| ==> !IsUpper(w[i])
  }

  /**
   * `s` spells the lower-case word `w` in some mixture of cases: every
   * position holds either the letter of `w` or its capital.
   */
  predicate CaseVariant(s: string, w: string)
  {
    |s| == |w| &&
    forall i :: 0 <= i < |s| ==> s[i] == w[i] || (IsLower(w[i]) && s[i] == UpperChar(w[i]))
  }

  /** Changing the case of every letter first does not change the lower-case form. */
  lemma ToLowerOfToUpper(s: string)
    ensures ToLower(ToUpper(s)) == ToLower(s)
  {
  }

  /** A character lowercases to `d` exactly when it is `d` or, for a letter `d`, its capital. */
  lemma LowerCharInverse(c: char, d: char)
    requires !IsUpper(d)
    ensures LowerChar(c) == d <==> c == d || (IsLower(d) && c == UpperChar(d))
  {
  }

  /**
   * The strings whose lower-case form is the lower-case word `w` are exactly
   * the case variants of `w`: a case-insensitive match on `w` accepts every
   * mixture of cases and nothing else.
   */
  lemma ToLowerMatchesCaseVariants(s: string, w: string)
    requires IsLowerWord(w)
    ensures ToLower(s) == w <==> CaseVariant(s, w)
  {
    if |s| == |w| {
      forall i | 0 <= i < |s|
        ensures LowerChar(s[i]) == w[i] <==> s[i] == w[i] || (IsLower(w[i]) && s[i] == UpperChar(w[i]))
      {
        LowerCharInverse(s[i], w[i]);
      }
      if ToLower(s) == w {
        forall i | 0 <= i < |s|
          ensures s[i] == w[i] || (IsLower(w[i]) && s[i] == UpperChar(w[i]))
        {
          assert ToLower(s)[i] == LowerChar(s[i]);
        }
      }
      if CaseVariant(s, w) {
        assert forall i :: 0 <= i < |s| ==> ToLower(s)[i] == w[i];
      }
    } else {
      assert |ToLower(s)| != |w|;
    }
  }
}
