/** Generic sequence facts used by the pager and view-model proofs: the
    concatenation of a list of pages, and the small identities about it
    that the inductive proofs appeal to. Nothing here is specific to posts. */
module Sequences {

  /** Concatenation of the pages in order: the list a reader obtains by
      appending every page to an initially empty list. */
  function Flatten<T>(pages: seq<seq<T>>): (all: seq<T>)
    ensures |pages| == 0 ==> all == []
    ensures |pages| > 0 ==> pages[0] <= all
  {
    if |pages| == 0 then [] else pages[0] + Flatten(pages[1..])
  }

  /** Proof helper: flattening splits at a one-page head. */
  lemma FlattenCons<T>(page: seq<T>, rest: seq<seq<T>>)
    ensures Flatten([page] + rest) == page + Flatten(rest)
  {
    assert ([page] + rest)[1..] == rest;
  }

  /** Proof helper: associativity of sequence concatenation, stated once so
      that inductive proofs need not rediscover it in a large context. */
  lemma AppendAssoc<T>(a: seq<T>, b: seq<T>, c: seq<T>)
    ensures (a + b) + c == a + (b + c)
  {
  }

  /** Proof helper: a suffix is the slice up to a cut followed by the
      suffix after it. */
  lemma SliceSplit<T>(s: seq<T>, lo: int, mid: int)
    requires 0 <= lo <= mid <= |s|
    ensures s[lo ..] == s[lo .. mid] + s[mid ..]
  {
  }
}
