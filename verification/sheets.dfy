/** Rows are only ever added after the ones a sheet already holds; this is
    the relation between a sheet before and after a write. */
module Sheets {

  /** `before` is a prefix of `after`. */
  ghost predicate Extends<T>(before: seq<T>, after: seq<T>) {
    |before| <= |after| && after[..|before|] == before
  }

  /** The rows a sheet holds before a write: none when the workbook does not
      exist yet. */
  function Existing<R>(store: map<string, seq<R>>, path: string): seq<R> {
    if path in store then store[path] else []
  }

  lemma ExtendsRefl<T>(s: seq<T>)
    ensures Extends(s, s)
  {
    assert s[..|s|] == s;
  }

  lemma ExtendsTransitive<T>(a: seq<T>, b: seq<T>, c: seq<T>)
    requires Extends(a, b) && Extends(b, c)
    ensures Extends(a, c)
  {
    assert c[..|a|] == c[..|b|][..|a|];
  }
}
