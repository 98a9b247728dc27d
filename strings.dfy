/** The few string operations the listing handler relies on: suffix and prefix tests,
    substring search, and Go's `strings.Replace(s, old, new, 1)`. */
module Strings {
  import opened Wrappers

  predicate HasPrefix(s: string, prefix: string) {
    |prefix| <= |s| && s[..|prefix|] == prefix
  }

  predicate HasSuffix(s: string, suffix: string) {
    |suffix| <= |s| && s[|s| - |suffix|..] == suffix
  }

  /** `pat` occurs in `s` starting at position `i`. */
  predicate OccursAt(s: string, pat: string, i: int) {
    0 <= i && i + |pat| <= |s| && s[i..i + |pat|] == pat
  }

  /** `pat` occurs somewhere in `s`. */
  predicate Contains(s: string, pat: string) {
    exists i :: 0 <= i <= |s| && OccursAt(s, pat, i)
  }

  /** `i` is the leftmost position where `pat` occurs in `s`. */
  ghost predicate FirstOccurrence(s: string, pat: string, i: int) {
    OccursAt(s, pat, i) && forall k :: 0 <= k < i ==> !OccursAt(s, pat, k)
  }

  /** The leftmost occurrence of `pat` in `s` at or after `from`, if any. */
  function IndexFrom(s: string, pat: string, from: nat): (r: Option<nat>)
    ensures r.Some? ==> from <= r.value && OccursAt(s, pat, r.value)
    ensures r.Some? ==> forall k :: from <= k < r.value ==> !OccursAt(s, pat, k)
    ensures r.None? ==> forall k :: from <= k ==> !OccursAt(s, pat, k)
    decreases |s| - from
  {
    if from + |pat| > |s| then None
    else if s[from..from + |pat|] == pat then Some(from)
    else IndexFrom(s, pat, from + 1)
  }

  /** Go's `strings.Index`, as an Option instead of -1. */
  function Index(s: string, pat: string): (r: Option<nat>)
    ensures r.Some? <==> Contains(s, pat)
    ensures r.Some? ==> FirstOccurrence(s, pat, r.value)
  {
    IndexFrom(s, pat, 0)
  }

  /** Go's `strings.Replace(s, pat, rep, 1)`: the leftmost occurrence of `pat` is replaced
      by `rep`; a string without `pat` comes back unchanged. */
  function ReplaceFirst(s: string, pat: string, rep: string): (r: string)
    ensures !Contains(s, pat) ==> r == s
    ensures forall i :: FirstOccurrence(s, pat, i) ==> r == s[..i] + rep + s[i + |pat|..]
  {
    match Index(s, pat)
    case None => s
    case Some(i) => s[..i] + rep + s[i + |pat|..]
  }

  /** When `s` starts with `pat`, the replacement happens at the front and the rest of `s`,
      including any later occurrence of `pat`, is kept as it is. */
  lemma ReplaceFirstAtFront(s: string, pat: string, rep: string)
    requires HasPrefix(s, pat)
    ensures ReplaceFirst(s, pat, rep) == rep + s[|pat|..]
  {
    assert FirstOccurrence(s, pat, 0);
    var r := ReplaceFirst(s, pat, rep);
    assert r == s[..0] + rep + s[|pat|..];
    assert s[..0] + rep == rep;
  }

  /** A pattern holding a character that `s` lacks does not occur in `s`. */
  lemma AbsentWhenCharMissing(s: string, pat: string, p: nat)
    requires p < |pat| && pat[p] !in s
    ensures !Contains(s, pat)
  {
  }
}
