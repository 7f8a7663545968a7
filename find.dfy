/**
 * `std::string::find` for a pattern: the position of the first occurrence,
 * or no position at all (`npos`).
 */
module Strings {
  import opened Options

  /** `pat` occurs in `s` starting at position `i`. */
  predicate OccursAt(s: string, pat: string, i: int) {
    0 <= i && i + |pat| <= |s| && s[i..i + |pat|] == pat
  }

  /** `pat` is a substring of `s` (anywhere, not necessarily a whole token). */
  ghost predicate Contains(s: string, pat: string) {
    exists i :: OccursAt(s, pat, i)
  }

  /** `s.find(pat, pos)`: the first occurrence at or after `pos`. */
  function FindFrom(s: string, pat: string, pos: nat): (r: Option<nat>)
    decreases |s| - pos
    ensures r.Some? ==> pos <= r.value && OccursAt(s, pat, r.value)
    ensures r.Some? ==> forall j :: pos <= j < r.value ==> !OccursAt(s, pat, j)
    ensures r.None? ==> forall j :: pos <= j ==> !OccursAt(s, pat, j)
  {
    if pos + |pat| > |s| then None
    else if s[pos..pos + |pat|] == pat then Some(pos)
    else FindFrom(s, pat, pos + 1)
  }

  /** `s.find(pat)` */
  function Find(s: string, pat: string): Option<nat> {
    FindFrom(s, pat, 0)
  }

  /** `find` returns `npos` exactly when the pattern is not a substring, and otherwise its first position. */
  lemma FindMeaning(s: string, pat: string)
    ensures Find(s, pat).None? <==> !Contains(s, pat)
    ensures Find(s, pat).Some? ==> OccursAt(s, pat, Find(s, pat).value)
    ensures Find(s, pat).Some? ==> forall j :: 0 <= j < Find(s, pat).value ==> !OccursAt(s, pat, j)
  {
    if Find(s, pat).Some? {
      assert OccursAt(s, pat, Find(s, pat).value);
    }
  }
}
