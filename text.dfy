/**
 * Letters and upper-casing, as the game uses them: guesses, target words and
 * catalog lookups are all compared after `toUpperCase()`.  Only the ASCII
 * letters are mapped; every other character is left as it is.
 */
module Text {

  predicate IsLower(c: char) { 'a' <= c <= 'z' }

  predicate IsUpper(c: char) { 'A' <= c <= 'Z' }

  /** A single character that the pattern /[A-Z]/i accepts. */
  predicate IsLetter(c: char) { IsLower(c) || IsUpper(c) }

  function UpperChar(c: char): (u: char)
    ensures IsLower(c) ==> IsUpper(u) && u as int == c as int - 32
    ensures !IsLower(c) ==> u == c
  {
    if IsLower(c) then (c as int - 32) as char else c
  }

  /** `s.toUpperCase()` restricted to ASCII. */
  function ToUpper(s: string): (u: string)
    ensures |u| == |s|
    ensures forall i :: 0 <= i < |s| ==> u[i] == UpperChar(s[i])
  {
    seq(|s|, i requires 0 <= i < |s| => UpperChar(s[i]))
  }

  /** No lower-case ASCII letter occurs in `s`. */
  predicate NoLower(s: string) {
    forall i :: 0 <= i < |s| ==> !IsLower(s[i])
  }

  lemma ToUpperNoLower(s: string)
    ensures NoLower(ToUpper(s))
  {
  }

  /** Upper-casing changes nothing in a string without lower-case letters. */
  lemma ToUpperFixed(s: string)
    requires NoLower(s)
    ensures ToUpper(s) == s
  {
  }

  lemma ToUpperIdempotent(s: string)
    ensures ToUpper(ToUpper(s)) == ToUpper(s)
  {
    ToUpperNoLower(s);
    ToUpperFixed(ToUpper(s));
  }
}
