/** The parts of Python's `str.upper()` and `str.lower()` that the poster generator relies on:
    single-character case mappings of ASCII, Latin-1 and basic Cyrillic letters, plus the
    Kelvin sign, the one non-ASCII character whose lower case is an ASCII letter. */
module Text {

  const KelvinSign: char := '\U{212A}'

  predicate IsLowerLetter(c: char) {
    || 'a' <= c <= 'z'
    || ('\U{00E0}' <= c <= '\U{00FE}' && c != '\U{00F7}')
    || '\U{0430}' <= c <= '\U{045F}'
  }

  predicate IsUpperLetter(c: char) {
    || 'A' <= c <= 'Z'
    || ('\U{00C0}' <= c <= '\U{00DE}' && c != '\U{00D7}')
    || '\U{0400}' <= c <= '\U{042F}'
    || c == KelvinSign
  }

  function UpperChar(c: char): (u: char)
    ensures !IsLowerLetter(u)
    ensures !IsLowerLetter(c) ==> u == c
    ensures u == KelvinSign ==> c == KelvinSign
  {
    if 'a' <= c <= 'z' then (c as int - 32) as char
    else if '\U{00E0}' <= c <= '\U{00FE}' && c != '\U{00F7}' then (c as int - 32) as char
    else if '\U{0430}' <= c <= '\U{044F}' then (c as int - 32) as char
    else if '\U{0450}' <= c <= '\U{045F}' then (c as int - 80) as char
    else c
  }

  function LowerChar(c: char): (l: char)
    ensures !IsUpperLetter(l)
    ensures !IsUpperLetter(c) ==> l == c
  {
    if 'A' <= c <= 'Z' then (c as int + 32) as char
    else if '\U{00C0}' <= c <= '\U{00DE}' && c != '\U{00D7}' then (c as int + 32) as char
    else if '\U{0410}' <= c <= '\U{042F}' then (c as int + 32) as char
    else if '\U{0400}' <= c <= '\U{040F}' then (c as int + 80) as char
    else if c == KelvinSign then 'k'
    else c
  }

  /** `u` has the length of `s` and holds a Kelvin sign only where `s` holds one: it is not what
      Python's `upper()` makes of a 'k'. */
  predicate NoKelvinAdded(u: string, s: string) {
    |u| == |s| && forall i :: 0 <= i < |u| && u[i] == KelvinSign ==> s[i] == KelvinSign
  }

  /** `s.upper()`, character by character. */
  function Upper(s: string): (u: string)
    ensures |u| == |s|
    ensures forall i :: 0 <= i < |s| ==> u[i] == UpperChar(s[i])
  {
    if s == [] then [] else [UpperChar(s[0])] + Upper(s[1..])
  }

  /** `s.lower()`, character by character. */
  function Lower(s: string): (l: string)
    ensures |l| == |s|
    ensures forall i :: 0 <= i < |s| ==> l[i] == LowerChar(s[i])
  {
    if s == [] then [] else [LowerChar(s[0])] + Lower(s[1..])
  }

  /** Upper-casing an upper-cased string changes nothing. */
  lemma UpperIdempotent(s: string)
    ensures Upper(Upper(s)) == Upper(s)
  {
  }

  /** Lower-casing a lower-cased string changes nothing. */
  lemma LowerIdempotent(s: string)
    ensures Lower(Lower(s)) == Lower(s)
  {
  }

  /** A string without upper-case letters is its own lower case. */
  lemma LowerFixesLowercase(s: string)
    requires forall i :: 0 <= i < |s| ==> !IsUpperLetter(s[i])
    ensures Lower(s) == s
  {
  }

  /** Upper-casing keeps the text up to case: it lowers back to what the original lowers to. */
  lemma LowerOfUpper(s: string)
    ensures Lower(Upper(s)) == Lower(s)
  {
  }
}
