/**
 The few string operations of Ruby's String that the checker relies on:
 `start_with?`, `end_with?`, `include?` and `Array#join`.
 */
module Strings {

  /** `s.start_with?(prefix)` */
  predicate StartsWith(s: string, prefix: string)
  {
    |prefix| <= |s| && s[..|prefix|] == prefix
  }

  /** `s.end_with?(suffix)` */
  predicate EndsWith(s: string, suffix: string)
  {
    |suffix| <= |s| && s[|s| - |suffix|..] == suffix
  }

  /** `parts.join(sep)` */
  function Join(parts: seq<string>, sep: string): string
  {
    if |parts| == 0 then ""
    else if |parts| == 1 then parts[0]
    else parts[0] + sep + Join(parts[1..], sep)
  }

  /** A string built by appending to `a` starts with `a`. */
  lemma StartsWithConcat(a: string, b: string)
    ensures StartsWith(a + b, a)
  {
    assert (a + b)[..|a|] == a;
  }

  /** A string that starts with `q` does not start with a `p` that differs
      from `q` at a position both of them cover. */
  lemma StartsWithDiffers(s: string, p: string, q: string, i: nat)
    requires i < |p| && i < |q| && p[i] != q[i]
    requires StartsWith(s, q)
    ensures !StartsWith(s, p)
  {
    assert s[..|q|][i] == s[i];
  }
}
