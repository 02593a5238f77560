/** The string operations the watcher borrows from Python: `str.lower`,
    `str.endswith`, and POSIX `os.path.basename` / `os.path.join`. */
module Text {

  /** `c.lower()` for ASCII letters; every other character is left alone.
      Within the comparisons the watcher makes (the ".pdf" suffix and the
      three document-type labels) this decides exactly what Python's Unicode
      lowering decides: the only non-ASCII characters whose lowercase form
      contains an ASCII letter are U+212A (to 'k', which no target contains)
      and U+0130 (to two characters ending in a combining mark). */
  function LowerChar(c: char): char {
    if 'A' <= c <= 'Z' then (c as int - 'A' as int + 'a' as int) as char else c
  }

  function Lower(s: string): string {
    seq(|s|, i requires 0 <= i < |s| => LowerChar(s[i]))
  }

  /** A string with no ASCII capital is its own lowercase form. */
  lemma LowerOfLowercase(s: string)
    requires forall i :: 0 <= i < |s| ==> !('A' <= s[i] <= 'Z')
    ensures Lower(s) == s
  {
  }

  /** Lowering twice is lowering once, and keeps the string's letters up to case. */
  lemma LowerIdempotent(s: string)
    ensures Lower(Lower(s)) == Lower(s)
    ensures SameIgnoringCase(Lower(s), s)
  {
  }

  /** `s.endswith(suffix)` */
  predicate EndsWith(s: string, suffix: string) {
    |suffix| <= |s| && s[|s| - |suffix|..] == suffix
  }

  /** Two strings that differ at most in the ASCII case of their letters. */
  predicate SameIgnoringCase(s: string, t: string) {
    |s| == |t| && forall i :: 0 <= i < |s| ==> LowerChar(s[i]) == LowerChar(t[i])
  }

  /** Comparing `s.lower()` with an all-lowercase constant is a
      case-insensitive comparison with that constant. */
  lemma LowerEqualsIgnoringCase(s: string, t: string)
    requires Lower(t) == t
    ensures Lower(s) == t <==> SameIgnoringCase(s, t)
  {
    if SameIgnoringCase(s, t) {
      forall i | 0 <= i < |s|
        ensures Lower(s)[i] == t[i]
      {
        assert Lower(t)[i] == LowerChar(t[i]);
      }
    }
    if Lower(s) == t {
      forall i | 0 <= i < |s|
        ensures LowerChar(s[i]) == LowerChar(t[i])
      {
        assert Lower(t)[i] == LowerChar(t[i]);
      }
    }
  }

  /** POSIX `os.path.basename(p)`: everything after the last '/'. The result
      is the longest suffix of `p` that holds no '/'. */
  function Basename(p: string): (b: string)
    ensures '/' !in b
    ensures |b| <= |p| && b == p[|p| - |b|..]
    ensures |b| < |p| ==> p[|p| - |b| - 1] == '/'
    decreases |p|
  {
    if |p| == 0 || p[|p| - 1] == '/' then ""
    else Basename(p[..|p| - 1]) + [p[|p| - 1]]
  }

  /** POSIX `os.path.join(a, b)` for two components: an absolute `b` replaces
      `a`; otherwise a '/' is inserted unless `a` is empty or already ends in one. */
  function Join(a: string, b: string): string {
    if |b| > 0 && b[0] == '/' then b
    else if |a| == 0 || a[|a| - 1] == '/' then a + b
    else a + "/" + b
  }

  /** `Join(a, _)` puts the same directory prefix before every relative
      component; the prefix depends on `a` alone. */
  function JoinPrefix(a: string): string {
    if |a| == 0 || a[|a| - 1] == '/' then a else a + "/"
  }

  lemma JoinRelative(a: string, b: string)
    requires |b| == 0 || b[0] != '/'
    ensures Join(a, b) == JoinPrefix(a) + b
  {
  }

  /** Joining one directory with two relative components gives the same path
      only for the same component. */
  lemma JoinRelativeInjective(a: string, b1: string, b2: string)
    requires |b1| == 0 || b1[0] != '/'
    requires |b2| == 0 || b2[0] != '/'
    ensures Join(a, b1) == Join(a, b2) <==> b1 == b2
  {
    JoinRelative(a, b1);
    JoinRelative(a, b2);
    var pre := JoinPrefix(a);
    assert (pre + b1)[|pre|..] == b1;
    assert (pre + b2)[|pre|..] == b2;
  }

  /** A component with no '/' followed by a '/' can be read back off a path:
      the first '/' after a common prefix ends it. */
  lemma SplitAtSlash(p: string, d1: string, r1: string, d2: string, r2: string)
    requires '/' !in d1 && '/' !in d2
    requires |r1| > 0 && r1[0] == '/' && |r2| > 0 && r2[0] == '/'
    requires p + d1 + r1 == p + d2 + r2
    ensures d1 == d2 && r1 == r2
  {
    NotShorter(p, d1, r1, d2, r2);
    NotShorter(p, d2, r2, d1, r1);
    var s := p + d1 + r1;
    assert d1 == s[|p|..|p| + |d1|];
    assert d2 == (p + d2 + r2)[|p|..|p| + |d2|];
    assert r1 == s[|p| + |d1|..];
    assert r2 == (p + d2 + r2)[|p| + |d2|..];
  }

  lemma NotShorter(p: string, d1: string, r1: string, d2: string, r2: string)
    requires '/' !in d2
    requires |r1| > 0 && r1[0] == '/'
    requires p + d1 + r1 == p + d2 + r2
    ensures |d1| >= |d2|
  {
    var s := p + d2 + r2;
    assert s[|p| + |d1|] == '/' by {
      assert (p + d1 + r1)[|p| + |d1|] == r1[0];
    }
    assert forall i :: |p| <= i < |p| + |d2| ==> s[i] == d2[i - |p|];
  }
}
