/** Character helpers used by route resolution.
    The browser's `toLowerCase` maps every Unicode letter; this model maps
    the 26 ASCII capitals and the one non-ASCII capital whose lower-case form
    is a single ASCII letter, the Kelvin sign, and leaves every other
    character unchanged. */
module Ascii {

  predicate IsUpper(ch: char) {
    'A' <= ch <= 'Z'
  }

  /** U+212A KELVIN SIGN, which lower-cases to ASCII `k`. */
  const KelvinSign: char := '\U{212A}'

  /** Lower-cases one character. */
  function LowerChar(ch: char): (r: char)
    ensures !IsUpper(r) && r != KelvinSign
    ensures IsUpper(ch) ==> r as int == ch as int + 32
    ensures ch == KelvinSign ==> r == 'k'
    ensures !IsUpper(ch) && ch != KelvinSign ==> r == ch
  {
    if IsUpper(ch) then (ch as int + 32) as char
    else if ch == KelvinSign then 'k'
    else ch
  }

  /** Lower-cases a whole string, character by character. */
  function ToLower(s: string): (r: string)
    ensures |r| == |s|
    ensures forall i :: 0 <= i < |s| ==> r[i] == LowerChar(s[i])
  {
    if s == [] then [] else [LowerChar(s[0])] + ToLower(s[1..])
  }

  /** JavaScript's `s.startsWith(prefix)`. */
  predicate StartsWith(s: string, prefix: string) {
    |prefix| <= |s| && s[..|prefix|] == prefix
  }

  /** Two strings that differ at most in the case of ASCII letters. */
  predicate EqualIgnoringCase(a: string, b: string) {
    |a| == |b| && forall i :: 0 <= i < |a| ==> LowerChar(a[i]) == LowerChar(b[i])
  }

  /** Lower-casing twice is lower-casing once. */
  lemma ToLowerIdempotent(s: string)
    ensures ToLower(ToLower(s)) == ToLower(s)
  {
  }

  /** Case variants lower-case to the same string. */
  lemma ToLowerOfCaseVariants(a: string, b: string)
    requires EqualIgnoringCase(a, b)
    ensures ToLower(a) == ToLower(b)
  {
  }

  /** A string and its lower-cased form differ only in letter case. */
  lemma ToLowerIsCaseVariant(s: string)
    ensures EqualIgnoringCase(s, ToLower(s))
  {
  }
}
