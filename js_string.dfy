/** The two JavaScript string methods the relay relies on:
    `indexOf`, and `replace` with a string pattern, which replaces only the
    first occurrence.
 */
module JsString {

  /** `pat` occurs in `s` starting at index `i`. */
  predicate OccursAt(s: string, pat: string, i: int) {
    0 <= i && i + |pat| <= |s| && s[i..i + |pat|] == pat
  }

  /** `pat` occurs somewhere in `s`. */
  ghost predicate Contains(s: string, pat: string) {
    exists i :: OccursAt(s, pat, i)
  }

  /** `i` is the first index at which `pat` occurs in `s`. */
  ghost predicate FirstOccurrence(s: string, pat: string, i: int) {
    OccursAt(s, pat, i) && forall j :: 0 <= j < i ==> !OccursAt(s, pat, j)
  }

  /** The search of `s.indexOf(pat)` from index `from` on. */
  function IndexFrom(s: string, pat: string, from: nat): (r: int)
    requires from <= |s|
    decreases |s| - from
    ensures r == -1 || from <= r
    ensures r >= 0 ==> OccursAt(s, pat, r) && forall j :: from <= j < r ==> !OccursAt(s, pat, j)
    ensures r == -1 ==> forall j :: from <= j ==> !OccursAt(s, pat, j)
  {
    if from + |pat| > |s| then -1
    else if s[from..from + |pat|] == pat then from
    else
      // the empty pattern matches at once, so here `pat` is not empty
      assert |pat| > 0;
      IndexFrom(s, pat, from + 1)
  }

  /** `s.indexOf(pat)`: the first index at which `pat` occurs, or -1. */
  function IndexOf(s: string, pat: string): (r: int)
    ensures r == -1 <==> !Contains(s, pat)
    ensures r != -1 ==> FirstOccurrence(s, pat, r)
  {
    IndexFrom(s, pat, 0)
  }

  /** `s.replace(pat, rep)` for a string pattern: the first occurrence of
      `pat` is replaced, nothing else; without one, `s` comes back as it is.
      (`$` sequences in `rep` are not interpreted.) */
  function Replace(s: string, pat: string, rep: string): (r: string)
    ensures !Contains(s, pat) ==> r == s
    ensures Contains(s, pat) ==>
              exists i :: FirstOccurrence(s, pat, i) && r == s[..i] + rep + s[i + |pat|..]
    ensures |r| == if Contains(s, pat) then |s| - |pat| + |rep| else |s|
  {
    var i := IndexOf(s, pat);
    if i == -1 then s else s[..i] + rep + s[i + |pat|..]
  }

  /** `s.indexOf(pat) == 0` tests exactly that `s` starts with `pat`. */
  lemma IndexOfZeroIffPrefix(s: string, pat: string)
    ensures IndexOf(s, pat) == 0 <==> pat <= s
  {
    if pat <= s {
      assert OccursAt(s, pat, 0);
    }
    if IndexOf(s, pat) == 0 {
      assert s[0..|pat|] == pat;
    }
  }

  /** A text in which the first character of `pat` never appears does not
      contain `pat`. */
  lemma AbsentLeadNotContained(s: string, pat: string)
    requires |pat| > 0 && pat[0] !in s
    ensures IndexOf(s, pat) == -1
  {
  }

  /** Replacing the first occurrence keeps everything before it, which holds
      no occurrence, and everything after it, later occurrences included. */
  lemma ReplaceKeepsRest(s: string, pat: string, rep: string)
    requires Contains(s, pat)
    ensures var i := IndexOf(s, pat);
            var r := Replace(s, pat, rep);
            && r[..i] == s[..i]
            && r[i..i + |rep|] == rep
            && r[i + |rep|..] == s[i + |pat|..]
            && forall j :: 0 <= j < i && j + |pat| <= i ==> !OccursAt(r, pat, j)
  {
    var i := IndexOf(s, pat);
    var r := Replace(s, pat, rep);
    assert r == s[..i] + rep + s[i + |pat|..];
    forall j | 0 <= j < i && j + |pat| <= i ensures !OccursAt(r, pat, j) {
      assert FirstOccurrence(s, pat, i);
      assert !OccursAt(s, pat, j);
      assert r[j..j + |pat|] == s[j..j + |pat|];
    }
  }
}
