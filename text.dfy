/** The string primitives of .NET that the core relies on: ordinal
    upper-casing and case-insensitive comparison (ASCII letters only),
    prefix and suffix tests, `string.IsNullOrEmpty` and `Path.Combine`. */
module Text {
  import opened Wrappers

  /** `char.ToUpperInvariant` restricted to ASCII letters. */
  function UpperChar(c: char): char {
    if 'a' <= c <= 'z' then (c as int - 32) as char else c
  }

  /** `string.ToUpper()`, one character at a time. */
  function Upper(s: string): (r: string)
    ensures |r| == |s|
    ensures forall i {:trigger r[i]} :: 0 <= i < |s| ==> r[i] == UpperChar(s[i])
  {
    if s == [] then [] else [UpperChar(s[0])] + Upper(s[1..])
  }

  /** `StringComparer.OrdinalIgnoreCase` equality: same length and the same
      character at every position once both are upper-cased. */
  predicate EqualsIgnoreCase(a: string, b: string) {
    |a| == |b| && forall i :: 0 <= i < |a| ==> UpperChar(a[i]) == UpperChar(b[i])
  }

  /** Upper-casing is idempotent. */
  lemma UpperIdempotent(s: string)
    ensures Upper(Upper(s)) == Upper(s)
  {
    assert forall i :: 0 <= i < |s| ==> UpperChar(UpperChar(s[i])) == UpperChar(s[i]);
  }

  /** Two strings are equal ignoring case exactly when their upper-cased forms are equal. */
  lemma EqualsIgnoreCaseIffSameUpper(a: string, b: string)
    ensures EqualsIgnoreCase(a, b) <==> Upper(a) == Upper(b)
  {
    if Upper(a) == Upper(b) {
      forall i | 0 <= i < |a| ensures UpperChar(a[i]) == UpperChar(b[i]) {
        assert Upper(a)[i] == Upper(b)[i];
      }
    }
    if EqualsIgnoreCase(a, b) {
      assert Upper(a) == Upper(b);
    }
  }

  predicate StartsWith(s: string, prefix: string) {
    |prefix| <= |s| && s[..|prefix|] == prefix
  }

  predicate EndsWith(s: string, suffix: string) {
    |suffix| <= |s| && s[|s| - |suffix|..] == suffix
  }

  /** `string.IsNullOrEmpty`. */
  predicate IsNullOrEmpty(s: Option<string>) {
    s.None? || s.value == ""
  }

  /** A directory separator on Windows. */
  predicate IsSeparator(c: char) {
    c == '\\' || c == '/'
  }

  /** `Path.IsPathRooted` on Windows: a leading separator or a drive letter and a colon. */
  predicate IsRooted(p: string) {
    (|p| >= 1 && IsSeparator(p[0])) ||
    (|p| >= 2 && p[1] == ':' && ('a' <= p[0] <= 'z' || 'A' <= p[0] <= 'Z'))
  }

  /** `Path.Combine(first, second)` on Windows: an empty part yields the
      other, a rooted second part wins, otherwise the parts are joined with
      a backslash unless `first` already ends with a separator. */
  function Combine(first: string, second: string): (r: string)
    ensures EndsWith(r, second)
    ensures second == "" ==> r == first
    ensures second != "" && (first == "" || IsRooted(second)) ==> r == second
    ensures second != "" && first != "" && !IsRooted(second) ==>
              StartsWith(r, first) && |r| >= |first| + |second|
    ensures second != "" && first != "" && !IsRooted(second) ==>
              r == first + (if IsSeparator(first[|first| - 1]) then "" else "\\") + second
  {
    if first == "" then second
    else if second == "" then first
    else if IsRooted(second) then second
    else if IsSeparator(first[|first| - 1]) then first + second
    else first + "\\" + second
  }
}
