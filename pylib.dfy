/**
 * The few Python built-ins the job tracker relies on, written out on strings:
 * substring membership (`pat in text`), `str.replace(c, '')`, `posixpath.basename`
 * and the first result of `Path.glob(job_id + ".*")`.
 */
module PyLib {
  import opened Wrappers

  /** `pat` occurs in `text` starting at index `i`. */
  ghost predicate OccursAt(text: string, pat: string, i: int) {
    0 <= i && i + |pat| <= |text| && text[i..i + |pat|] == pat
  }

  /** `pat` occurs somewhere in `text`. */
  ghost predicate Occurs(text: string, pat: string) {
    exists i :: OccursAt(text, pat, i)
  }

  lemma OccursShift(text: string, pat: string)
    requires |pat| < |text| + 1 && text[..|pat|] != pat && |text| > 0
    ensures Occurs(text, pat) <==> Occurs(text[1..], pat)
  {
    if Occurs(text, pat) {
      var i :| OccursAt(text, pat, i);
      assert text[0..|pat|] == text[..|pat|];
      assert i != 0;
      assert text[1..][i - 1..i - 1 + |pat|] == text[i..i + |pat|];
      assert OccursAt(text[1..], pat, i - 1);
    }
    if Occurs(text[1..], pat) {
      var i :| OccursAt(text[1..], pat, i);
      assert text[1..][i..i + |pat|] == text[i + 1..i + 1 + |pat|];
      assert OccursAt(text, pat, i + 1);
    }
  }

  /** Python's `pat in text` on two strings: true exactly when `pat` occurs in `text`. */
  function Contains(text: string, pat: string): (r: bool)
    ensures r <==> Occurs(text, pat)
    decreases |text|
  {
    if |pat| > |text| then
      false
    else if text[..|pat|] == pat then
      assert OccursAt(text, pat, 0);
      true
    else
      OccursShift(text, pat);
      Contains(text[1..], pat)
  }

  /** Python's `s.replace(c, '')`: every occurrence of `c` dropped, nothing else touched. */
  function Without(s: string, c: char): (r: string)
    ensures c !in r
    ensures multiset(r) == multiset(s)[c := 0]
    ensures c !in s ==> r == s
    ensures |s| == 1 ==> r == (if s[0] == c then [] else s)
  {
    if s == [] then
      []
    else
      assert s == [s[0]] + s[1..];
      if s[0] == c then Without(s[1..], c) else [s[0]] + Without(s[1..], c)
  }

  /**
   * `replace` works piece by piece, so the characters it keeps stay in their order:
   * with the one-character case above, this determines `Without` completely.
   */
  lemma {:induction false} WithoutConcat(s: string, t: string, c: char)
    ensures Without(s + t, c) == Without(s, c) + Without(t, c)
    decreases |s|
  {
    if s == [] {
      assert s + t == t;
    } else {
      assert (s + t)[0] == s[0];
      assert (s + t)[1..] == s[1..] + t;
      WithoutConcat(s[1..], t, c);
    }
  }

  /**
   * `posixpath.basename(p)`, that is `p[p.rfind('/') + 1:]`: the longest suffix of `p`
   * without a slash.
   */
  function Basename(p: string): (r: string)
    ensures '/' !in r
    ensures |r| <= |p| && p[|p| - |r|..] == r
    ensures |r| < |p| ==> p[|p| - |r| - 1] == '/'
  {
    if p == [] then
      []
    else if p[|p| - 1] == '/' then
      []
    else
      Basename(p[..|p| - 1]) + [p[|p| - 1]]
  }

  /** A directory entry `name` matches the glob pattern `job_id + ".*"`. */
  predicate GlobMatches(name: string, jobId: string) {
    |jobId| + 1 <= |name| && name[..|jobId| + 1] == jobId + "."
  }

  /**
   * `next(Path(dir).glob(job_id + ".*")).as_posix()`: the path of the first entry of the
   * listing `names` (in the order the directory yields them) that matches, or None when
   * the generator is exhausted and `next` raises StopIteration.
   */
  function FirstGlobMatch(dir: string, names: seq<string>, jobId: string): (r: Option<string>)
    ensures r.None? <==> forall k :: 0 <= k < |names| ==> !GlobMatches(names[k], jobId)
    ensures r.Some? ==> exists k :: 0 <= k < |names| && GlobMatches(names[k], jobId) && r.value == dir + "/" + names[k]
                                  && forall j :: 0 <= j < k ==> !GlobMatches(names[j], jobId)
  {
    if names == [] then
      None
    else if GlobMatches(names[0], jobId) then
      Some(dir + "/" + names[0])
    else
      var rest := FirstGlobMatch(dir, names[1..], jobId);
      assert forall k :: 1 <= k < |names| ==> names[k] == names[1..][k - 1];
      rest
  }
}
