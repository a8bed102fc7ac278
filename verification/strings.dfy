/** String helpers used by the transcriber: lower-casing and the
    prefix and suffix tests that Python's str.lower, str.startswith and
    str.endswith perform. */
module Strings {

  /** Lower-case one character. Only the ASCII letters A-Z are folded. */
  function LowerChar(c: char): (r: char)
    ensures 'A' <= c <= 'Z' ==> r as int == c as int + 32
    ensures !('A' <= c <= 'Z') ==> r == c
  {
    if 'A' <= c <= 'Z' then (c as int + 32) as char else c
  }

  /** The lower-cased copy of `s`, character by character. */
  function Lower(s: string): (r: string)
    ensures |r| == |s|
    ensures forall i :: 0 <= i < |s| ==> r[i] == LowerChar(s[i])
  {
    if s == [] then [] else [LowerChar(s[0])] + Lower(s[1..])
  }

  predicate StartsWith(s: string, prefix: string) {
    |prefix| <= |s| && s[..|prefix|] == prefix
  }

  predicate EndsWith(s: string, suffix: string) {
    |suffix| <= |s| && s[|s| - |suffix|..] == suffix
  }

  /** `s.lower().endswith(suffix)`: the case-insensitive suffix test. */
  predicate LowerEndsWith(s: string, suffix: string) {
    EndsWith(Lower(s), suffix)
  }

  /** Lower-casing commutes with taking a slice. */
  lemma LowerSlice(s: string, lo: nat, hi: nat)
    requires lo <= hi <= |s|
    ensures Lower(s)[lo..hi] == Lower(s[lo..hi])
  {
  }

  /** The case-insensitive suffix test looks only at the last |suffix|
      characters of `s`, and accepts exactly when their lower-cased copy
      is `suffix`. */
  lemma LowerEndsWithTail(s: string, suffix: string)
    ensures LowerEndsWith(s, suffix) <==>
              |suffix| <= |s| && Lower(s[|s| - |suffix|..]) == suffix
  {
    if |suffix| <= |s| {
      LowerSlice(s, |s| - |suffix|, |s|);
    }
  }

  /** Appending any spelling `t` of a lower-case suffix (".WAV", ".Wav",
      ".wav", ...) gives a string that passes the case-insensitive test. */
  lemma LowerEndsWithAppend(s: string, t: string, suffix: string)
    requires Lower(t) == suffix
    ensures LowerEndsWith(s + t, suffix)
  {
    LowerEndsWithTail(s + t, suffix);
    assert (s + t)[|s + t| - |suffix|..] == t;
  }
}
