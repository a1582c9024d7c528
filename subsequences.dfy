/**
 * The subsequence relation: `a` can be obtained from `b` by deleting
 * elements without reordering the rest. Every stage of the text cleaner
 * after lowercasing only deletes characters, and this is how that is stated.
 */
module Subsequences {

  /** `a` is `b` with some elements deleted (order kept). */
  predicate IsSubseq<T(==)>(a: seq<T>, b: seq<T>)
    decreases |b|
  {
    a == [] ||
    (b != [] && ((a[0] == b[0] && IsSubseq(a[1..], b[1..])) || IsSubseq(a, b[1..])))
  }

  /** `s` has no element satisfying `p`. */
  predicate Avoids<T>(s: seq<T>, p: T -> bool) {
    forall i :: 0 <= i < |s| ==> !p(s[i])
  }

  lemma {:induction false} SubseqTrans<T>(a: seq<T>, b: seq<T>, c: seq<T>)
    requires IsSubseq(a, b) && IsSubseq(b, c)
    ensures IsSubseq(a, c)
    decreases |c|
  {
    if a != [] {
      if IsSubseq(b, c[1..]) {
        SubseqTrans(a, b, c[1..]);
      } else if a[0] == b[0] && IsSubseq(a[1..], b[1..]) {
        SubseqTrans(a[1..], b[1..], c[1..]);
      } else {
        SubseqTrans(a, b[1..], c[1..]);
      }
    }
  }

  /** A subsequence of a suffix is a subsequence of the whole. */
  lemma {:induction false} SubseqOfSuffix<T>(a: seq<T>, b: seq<T>, k: nat)
    requires k <= |b| && IsSubseq(a, b[k..])
    ensures IsSubseq(a, b)
    decreases k
  {
    if k > 0 {
      assert b[1..][k - 1..] == b[k..];
      SubseqOfSuffix(a, b[1..], k - 1);
    }
  }

  /** Deleting keeps what was avoided avoided, and never lengthens. */
  lemma {:induction false} SubseqAvoids<T>(a: seq<T>, b: seq<T>, p: T -> bool)
    requires IsSubseq(a, b) && Avoids(b, p)
    ensures Avoids(a, p)
    ensures |a| <= |b|
    decreases |b|
  {
    if a != [] {
      if a[0] == b[0] && IsSubseq(a[1..], b[1..]) {
        SubseqAvoids(a[1..], b[1..], p);
      } else {
        SubseqAvoids(a, b[1..], p);
      }
    }
  }
}
