/**
 * What the searchers assume of a paged listing, and Go's slice windows `s[lo:hi]`.
 */
module Paging {
  import opened Wrappers
  import opened ServerErrors

  function Min(x: int, y: int): int { if x <= y then x else y }

  /** `s[min(off, len(s)) : min(off+lim, len(s))]`: at most `lim` consecutive items from position `off`. */
  function Window<T>(s: seq<T>, off: int, lim: int): (w: seq<T>)
    requires 0 <= off && 0 <= lim
    ensures |w| <= lim
    ensures |w| == (if off >= |s| then 0 else Min(lim, |s| - off))
    ensures off < |s| && 0 < lim ==> |w| > 0
    ensures forall k :: 0 <= k < |w| ==> off + k < |s| && w[k] == s[off + k]
  {
    s[Min(off, |s|)..Min(off + lim, |s|)]
  }

  /**
   * Every answer the listing `list(offset, limit)` gives without error is the window of one fixed
   * sequence `all` (the stored rows in the query's order, unchanged while the searcher pages).
   */
  ghost predicate Paged<T>(list: (int, int) -> Result<seq<T>, Error>, all: seq<T>)
  {
    forall off, lim :: 0 <= off && 0 <= lim && list(off, lim).Ok? ==> list(off, lim).value == Window(all, off, lim)
  }

  /** Every page of `size` the searcher may ask for is answered without error. */
  ghost predicate NeverFails<T>(list: (int, int) -> Result<seq<T>, Error>, size: int)
  {
    forall off :: 0 <= off ==> list(off, size).Ok?
  }

  /** A page followed by what the rest of a paged fetch gives: the error itself when it failed. */
  function Prepend<T>(prefix: seq<T>, r: Result<seq<T>, Error>): (p: Result<seq<T>, Error>)
    ensures p.Ok? <==> r.Ok?
    ensures p.Err? ==> p == r
    ensures p.Ok? ==> |p.value| == |prefix| + |r.value| && p.value[..|prefix|] == prefix && p.value[|prefix|..] == r.value
  {
    if r.Ok? then Ok(prefix + r.value) else r
  }

  /** Prepending two pages one after the other is prepending them together. */
  lemma PrependTwice<T>(a: seq<T>, b: seq<T>, r: Result<seq<T>, Error>)
    ensures Prepend(a, Prepend(b, r)) == Prepend(a + b, r)
  {
    if r.Ok? {
      assert a + (b + r.value) == (a + b) + r.value;
    }
  }

  /** What a Go function returning `([]T, error)` can end in, including a panic on a bad slice. */
  datatype Outcome<T> = Results(items: seq<T>) | Failed(error: Error) | Panicked
}
