/**
 * The few Python string operations the drivers rely on, written out with
 * Python's semantics: `endswith`, `in`, `replace` (every occurrence), slicing
 * with negative and out-of-range bounds, and `split("/")[-1]`.
 */
module Strings {

  /** `s.endswith(suffix)` */
  predicate EndsWith(s: string, suffix: string) {
    |suffix| <= |s| && s[|s| - |suffix|..] == suffix
  }

  /** `p in s` for two strings: `p` occurs in `s` as a contiguous substring. */
  predicate Contains(s: string, p: string)
    decreases |s|
  {
    if |p| > |s| then false
    else s[..|p|] == p || (|s| > 0 && Contains(s[1..], p))
  }

  /**
   * `s.replace(pat, rep)`: scans left to right and replaces EVERY
   * non-overlapping occurrence of `pat`, not only the last one.
   */
  function ReplaceAll(s: string, pat: string, rep: string): string
    requires |pat| > 0
    decreases |s|
  {
    if |s| < |pat| then s
    else if s[..|pat|] == pat then rep + ReplaceAll(s[|pat|..], pat, rep)
    else [s[0]] + ReplaceAll(s[1..], pat, rep)
  }

  /** A string in which `pat` never occurs is left as it is by `replace`. */
  lemma {:induction false} ReplaceAllAbsent(s: string, pat: string, rep: string)
    requires |pat| > 0 && !Contains(s, pat)
    ensures ReplaceAll(s, pat, rep) == s
    decreases |s|
  {
    if |s| >= |pat| {
      assert s[..|pat|] != pat;
      ReplaceAllAbsent(s[1..], pat, rep);
      assert [s[0]] + s[1..] == s;
    }
  }

  /**
   * When the first character of `pat` does not occur in `name`, the only
   * occurrence of `pat` in `name + pat` is the final one, so `replace`
   * rewrites just that suffix.
   */
  lemma {:induction false} ReplaceSuffix(name: string, pat: string, rep: string)
    requires |pat| > 0 && pat[0] !in name
    ensures ReplaceAll(name + pat, pat, rep) == name + rep
    decreases |name|
  {
    var s := name + pat;
    if name == [] {
      assert s == pat && s[..|pat|] == pat && s[|pat|..] == [];
    } else {
      assert s[..|pat|][0] == name[0] != pat[0];
      assert s[1..] == name[1..] + pat;
      ReplaceSuffix(name[1..], pat, rep);
      assert [name[0]] + (name[1..] + rep) == name + rep;
    }
  }

  /** Python's normalisation of one slice bound against a length `n`. */
  function SliceBound(i: int, n: nat): (b: nat)
    ensures b <= n
    ensures 0 <= i <= n ==> b == i
    ensures i < 0 && 0 <= i + n ==> b == i + n
    ensures i > n ==> b == n
    ensures i + n < 0 ==> b == 0
  {
    if i < 0 then (if i + n < 0 then 0 else i + n)
    else if i > n then n
    else i
  }

  /** Python's `s[i:j]`: never fails, empty when the bounds cross. */
  function Slice(s: string, i: int, j: int): (r: string)
    ensures |r| <= |s|
  {
    var a, b := SliceBound(i, |s|), SliceBound(j, |s|);
    if a < b then s[a..b] else ""
  }

  /**
   * `url.split("/")[-1]`: the longest suffix of `url` without a '/', that is,
   * everything after the last '/' (all of `url` when it has none).
   */
  function LastSegment(url: string): (name: string)
    ensures '/' !in name
    ensures |name| <= |url| && url[|url| - |name|..] == name
    ensures |name| < |url| ==> url[|url| - |name| - 1] == '/'
    decreases |url|
  {
    if url == [] then []
    else if url[|url| - 1] == '/' then []
    else
      var init, last := url[..|url| - 1], url[|url| - 1];
      var name := LastSegment(init);
      SuffixSnoc(init, last, |name|);
      assert init + [last] == url;
      name + [last]
  }

  /** A suffix of `init` followed by `last` is a suffix of `init + [last]`. */
  lemma SuffixSnoc(init: string, last: char, k: nat)
    requires k <= |init|
    ensures (init + [last])[|init| - k..] == init[|init| - k..] + [last]
  {
  }

  /** The segment after the last '/' of a path is the file name it ends with. */
  lemma {:induction false} LastSegmentOfPath(dir: string, name: string)
    requires '/' !in name
    ensures LastSegment(dir + "/" + name) == name
    decreases |name|
  {
    var url := dir + "/" + name;
    if name == [] {
      assert url[|url| - 1] == '/';
    } else {
      var init := name[..|name| - 1];
      assert url[..|url| - 1] == dir + "/" + init;
      assert url[|url| - 1] == name[|name| - 1];
      LastSegmentOfPath(dir, init);
      assert init + [name[|name| - 1]] == name;
    }
  }
}
