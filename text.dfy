/**
 * The string operations main.py uses: `str.lower` and `str.capitalize`.
 * Case mapping is modelled on ASCII letters; every other character is its own
 * upper and lower case.
 */
module Text {

  predicate IsUpper(c: char) { 'A' <= c <= 'Z' }

  predicate IsLower(c: char) { 'a' <= c <= 'z' }

  function Lower(c: char): (r: char)
    ensures !IsUpper(r)
    ensures IsUpper(c) ==> IsLower(r)
    ensures !IsUpper(c) ==> r == c
  {
    if IsUpper(c) then (c as int + 32) as char else c
  }

  function Upper(c: char): (r: char)
    ensures !IsLower(r)
    ensures Lower(r) == Lower(c)
  {
    if IsLower(c) then (c as int - 32) as char else c
  }

  /**
   * Python's `s.lower()`: no upper-case letter is left, every other character
   * is kept, and each upper-case letter becomes the lower-case letter it is
   * the capital of.
   */
  function LowerStr(s: string): (r: string)
    ensures |r| == |s|
    ensures forall i :: 0 <= i < |r| ==> !IsUpper(r[i])
    ensures forall i :: 0 <= i < |s| && !IsUpper(s[i]) ==> r[i] == s[i]
    ensures forall i :: 0 <= i < |s| && IsUpper(s[i]) ==> IsLower(r[i]) && Upper(r[i]) == s[i]
  {
    seq(|s|, i requires 0 <= i < |s| => Lower(s[i]))
  }

  /** Lower-casing twice is lower-casing once. */
  lemma LowerStrIdempotent(s: string)
    ensures LowerStr(LowerStr(s)) == LowerStr(s)
  {
  }

  /** Python's `s.capitalize()`: the first character upper-cased, all the others lower-cased. */
  function Capitalize(s: string): (r: string)
    ensures IsCapitalizationOf(r, s)
  {
    if s == [] then [] else [Upper(s[0])] + LowerStr(s[1..])
  }

  /**
   * `r` spells `s` with its case changed so that no character after the first
   * is an upper-case letter and the first is not a lower-case letter.
   */
  predicate IsCapitalizationOf(r: string, s: string) {
    && LowerStr(r) == LowerStr(s)
    && (|r| > 0 ==> !IsLower(r[0]))
    && (forall i :: 1 <= i < |r| ==> !IsUpper(r[i]))
  }

  /** IsCapitalizationOf determines its first argument: it is an independent definition of Capitalize. */
  lemma CapitalizationUnique(t: string, s: string)
    requires IsCapitalizationOf(t, s)
    ensures t == Capitalize(s)
  {
  }

  /** Capitalizing ignores the case of its input. */
  lemma CapitalizeIgnoresCase(a: string, b: string)
    requires LowerStr(a) == LowerStr(b)
    ensures Capitalize(a) == Capitalize(b)
  {
  }

  /** Capitalizing twice is capitalizing once. */
  lemma CapitalizeIdempotent(s: string)
    ensures Capitalize(Capitalize(s)) == Capitalize(s)
  {
  }
}
