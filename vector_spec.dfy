/**
 What the operations of `cpplab::vector` do to the abstract contents, the
 sequence of the first `size` buffer slots.
 */
module VectorSpec {

  /** `n` copies of `v`. */
  function Fill<T>(v: T, n: nat): (r: seq<T>)
    ensures |r| == n
    ensures forall i :: 0 <= i < n ==> r[i] == v
  {
    seq(n, _ => v)
  }

  /** Contents after `resize(n, v)` on a vector holding `s`. */
  function Resized<T>(s: seq<T>, n: nat, v: T): (r: seq<T>)
    ensures |r| == n
    ensures forall i :: 0 <= i < n && i < |s| ==> r[i] == s[i]
    ensures forall i :: |s| <= i < n ==> r[i] == v
  {
    if n <= |s| then s[..n] else s + Fill(v, n - |s|)
  }

  /** A shrink followed by a grow keeps the surviving prefix and fills the rest with the new value. */
  lemma ShrinkThenGrow<T>(s: seq<T>, m: nat, n: nat, u: T, v: T)
    requires m <= |s| && m <= n
    ensures Resized(Resized(s, m, u), n, v) == s[..m] + Fill(v, n - m)
  {
  }

  function Min(a: nat, b: nat): nat
  {
    if a < b then a else b
  }

  /** Sum of `s[i] * t[i]` for `i < n`, accumulated from the front as the source's loop does. */
  function DotUpTo(s: seq<int>, t: seq<int>, n: nat): int
    requires n <= |s| && n <= |t|
  {
    if n == 0 then 0 else DotUpTo(s, t, n - 1) + s[n - 1] * t[n - 1]
  }

  /** The dot product over the common prefix of `s` and `t`. */
  function Dot(s: seq<int>, t: seq<int>): int
  {
    DotUpTo(s, t, Min(|s|, |t|))
  }

  /** Reference definition: pairwise products of the leading elements, summed recursively. */
  function PairwiseSum(s: seq<int>, t: seq<int>): int
  {
    if s == [] || t == [] then 0 else s[0] * t[0] + PairwiseSum(s[1..], t[1..])
  }

  lemma {:induction false} DotUpToPeel(s: seq<int>, t: seq<int>, n: nat)
    requires 0 < n <= |s| && n <= |t|
    ensures DotUpTo(s, t, n) == s[0] * t[0] + DotUpTo(s[1..], t[1..], n - 1)
  {
    if n > 1 {
      DotUpToPeel(s, t, n - 1);
    }
  }

  lemma {:induction false} DotUpToIsPairwiseSum(s: seq<int>, t: seq<int>, n: nat)
    requires n == Min(|s|, |t|)
    ensures DotUpTo(s, t, n) == PairwiseSum(s, t)
    decreases n
  {
    if n > 0 {
      DotUpToPeel(s, t, n);
      DotUpToIsPairwiseSum(s[1..], t[1..], n - 1);
    }
  }

  /** The front-to-back accumulation and the recursive reference definition agree. */
  lemma DotIsPairwiseSum(s: seq<int>, t: seq<int>)
    ensures Dot(s, t) == PairwiseSum(s, t)
  {
    DotUpToIsPairwiseSum(s, t, Min(|s|, |t|));
  }

  /** `DotUpTo` depends only on the first `n` elements of each operand. */
  lemma {:induction false} DotUpToOnPrefix(s: seq<int>, t: seq<int>, s': seq<int>, t': seq<int>, n: nat)
    requires n <= |s| && n <= |t| && n <= |s'| && n <= |t'|
    requires s[..n] == s'[..n] && t[..n] == t'[..n]
    ensures DotUpTo(s, t, n) == DotUpTo(s', t', n)
  {
    if n > 0 {
      assert s[n - 1] == s[..n][n - 1] == s'[n - 1];
      assert t[n - 1] == t[..n][n - 1] == t'[n - 1];
      assert s[..n - 1] == s[..n][..n - 1];
      assert s'[..n - 1] == s'[..n][..n - 1];
      assert t[..n - 1] == t[..n][..n - 1];
      assert t'[..n - 1] == t'[..n][..n - 1];
      DotUpToOnPrefix(s, t, s', t', n - 1);
    }
  }

  /** Unequal lengths are silently truncated: the product equals that of both operands cut to the shorter length. */
  lemma DotTruncates(s: seq<int>, t: seq<int>)
    ensures Dot(s, t) == Dot(s[..Min(|s|, |t|)], t[..Min(|s|, |t|)])
  {
    var m := Min(|s|, |t|);
    DotUpToOnPrefix(s, t, s[..m], t[..m], m);
  }

  /** Elements beyond the other operand's length do not contribute. */
  lemma DotIgnoresSurplus(s: seq<int>, t: seq<int>, extra: seq<int>)
    requires |t| <= |s|
    ensures Dot(s + extra, t) == Dot(s, t)
  {
    assert (s + extra)[..|t|] == s[..|t|];
    DotUpToOnPrefix(s + extra, t, s, t, |t|);
  }

  lemma {:induction false} DotUpToCommutes(s: seq<int>, t: seq<int>, n: nat)
    requires n <= |s| && n <= |t|
    ensures DotUpTo(s, t, n) == DotUpTo(t, s, n)
  {
    if n > 0 {
      DotUpToCommutes(s, t, n - 1);
    }
  }

  /** The product does not depend on the order of the operands. */
  lemma DotCommutes(s: seq<int>, t: seq<int>)
    ensures Dot(s, t) == Dot(t, s)
  {
    DotUpToCommutes(s, t, Min(|s|, |t|));
  }
}
