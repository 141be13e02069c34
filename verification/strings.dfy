/** Character-level helpers on strings (`seq<char>`). */
module Strings {
  import opened Basics

  /** ASCII case folding to lower case. This is the folding the regular
      expression engine applies for a case-insensitive pattern without the
      unicode flag when the pattern consists of ASCII letters: no
      non-ASCII character folds onto an ASCII one. */
  function Lower(c: char): char {
    if 'A' <= c <= 'Z' then (c as int + 32) as char else c
  }

  function LowerString(s: string): string {
    seq(|s|, i requires 0 <= i < |s| => Lower(s[i]))
  }

  predicate EndsWith(s: string, suffix: string) {
    |suffix| <= |s| && s[|s| - |suffix|..] == suffix
  }

  /** `s` ends with `suffix` when letter case is ignored. */
  predicate EndsWithIgnoringCase(s: string, suffix: string) {
    |suffix| <= |s| && LowerString(s[|s| - |suffix|..]) == LowerString(suffix)
  }

  /** Index of the last occurrence of `c` in `s`, if any. */
  function LastIndexOf(s: string, c: char): (r: Option<nat>)
    ensures r.Some? ==> r.value < |s| && s[r.value] == c
    ensures r.Some? ==> forall j :: r.value < j < |s| ==> s[j] != c
    ensures r.None? <==> c !in s
  {
    if |s| == 0 then None
    else if s[|s| - 1] == c then Some(|s| - 1)
    else LastIndexOf(s[..|s| - 1], c)
  }
}
