/**
 * The three operations on Python strings that the backup logic relies on:
 * `str.rstrip('/')`, the substring test `pat in text`, and `str.startswith`.
 */
module Text {

  /** `s.rstrip('/')`: `s` with every trailing '/' removed. */
  function StripTrailingSlashes(s: string): (r: string)
    ensures |r| <= |s| && r == s[..|r|]
    ensures r == [] || r[|r| - 1] != '/'
    ensures forall i :: |r| <= i < |s| ==> s[i] == '/'
    decreases |s|
  {
    if |s| > 0 && s[|s| - 1] == '/' then StripTrailingSlashes(s[..|s| - 1]) else s
  }

  /** A run of `k` slashes. */
  function Slashes(k: nat): (r: string)
    ensures |r| == k
    ensures forall i :: 0 <= i < k ==> r[i] == '/'
  {
    seq(k, _ => '/')
  }

  /** Stripping is determined by its result: a prefix without a trailing '/' followed only by slashes. */
  lemma StripUnique(s: string, r: string, k: nat)
    requires s == r + Slashes(k)
    requires r == [] || r[|r| - 1] != '/'
    ensures StripTrailingSlashes(s) == r
  {
    var t := StripTrailingSlashes(s);
    assert |r| > 0 ==> s[|r| - 1] != '/';
    assert forall i :: |r| <= i < |s| ==> s[i] == Slashes(k)[i - |r|];
    assert |t| > 0 ==> s[|t| - 1] == t[|t| - 1];
    assert |t| == |r|;
  }

  /** Trailing slashes in the input never change the stripped result. */
  lemma StripIgnoresTrailingSlashes(s: string, k: nat)
    ensures StripTrailingSlashes(s + Slashes(k)) == StripTrailingSlashes(s)
  {
    var r := StripTrailingSlashes(s);
    var j := |s| - |r|;
    assert s == r + Slashes(j);
    assert s + Slashes(k) == r + Slashes(j + k);
    StripUnique(s + Slashes(k), r, j + k);
  }

  /** `pat` occurs in `text` starting at index `i`. */
  ghost predicate OccursAt(text: string, pat: string, i: int) {
    0 <= i && i + |pat| <= |text| && text[i..i + |pat|] == pat
  }

  /** Python's `pat in text` for strings. */
  function Contains(text: string, pat: string): (b: bool)
    ensures b <==> exists i :: OccursAt(text, pat, i)
    decreases |text|
  {
    if |pat| > |text| then false
    else if text[..|pat|] == pat then assert OccursAt(text, pat, 0); true
    else ContainsStep(text, pat); Contains(text[1..], pat)
  }

  /** When `pat` is not a prefix of `text`, it occurs in `text` iff it occurs in `text[1..]`. */
  lemma ContainsStep(text: string, pat: string)
    requires |pat| <= |text| && text[..|pat|] != pat
    ensures |text| > 0
    ensures (exists i :: OccursAt(text, pat, i)) <==> (exists j :: OccursAt(text[1..], pat, j))
  {
    assert |pat| > 0;
    if exists i :: OccursAt(text, pat, i) {
      var i :| OccursAt(text, pat, i);
      assert i != 0;
      assert text[1..][i - 1..i - 1 + |pat|] == text[i..i + |pat|];
      assert OccursAt(text[1..], pat, i - 1);
    }
    if exists j :: OccursAt(text[1..], pat, j) {
      var j :| OccursAt(text[1..], pat, j);
      assert text[j + 1..j + 1 + |pat|] == text[1..][j..j + |pat|];
      assert OccursAt(text, pat, j + 1);
    }
  }

  /** Python's `s.startswith(prefix)`. */
  predicate StartsWith(s: string, prefix: string) {
    |prefix| <= |s| && s[..|prefix|] == prefix
  }
}
