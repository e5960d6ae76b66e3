/** Order-preserving embeddings of one list in another. */
module Subsequences {

  ghost predicate StrictlyIncreasing(f: seq<nat>) {
    forall k, l | 0 <= k < l < |f| :: f[k] < f[l]
  }

  /** `f` places every element of `a` at a position of `b`, in order. */
  ghost predicate Embeds<T>(f: seq<nat>, a: seq<T>, b: seq<T>) {
    && |f| == |a|
    && StrictlyIncreasing(f)
    && forall k | 0 <= k < |f| :: f[k] < |b| && b[f[k]] == a[k]
  }

  ghost predicate Subsequence<T>(a: seq<T>, b: seq<T>) {
    exists f :: Embeds(f, a, b)
  }

  lemma SubsequenceSelf<T>(a: seq<T>)
    ensures Subsequence(a, a)
  {
    assert Embeds(seq(|a|, i requires 0 <= i => i as nat), a, a);
  }

  lemma SubsequenceEmpty<T>(b: seq<T>)
    ensures Subsequence([], b)
  {
    assert Embeds([], [], b);
  }

  lemma EmbedsTrans<T>(f: seq<nat>, g: seq<nat>, a: seq<T>, b: seq<T>, c: seq<T>)
    requires Embeds(f, a, b) && Embeds(g, b, c)
    ensures Embeds(seq(|f|, k requires 0 <= k < |f| => g[f[k]]), a, c)
  {
  }

  lemma SubsequenceTrans<T>(a: seq<T>, b: seq<T>, c: seq<T>)
    requires Subsequence(a, b) && Subsequence(b, c)
    ensures Subsequence(a, c)
  {
    var f, g :| Embeds(f, a, b) && Embeds(g, b, c);
    EmbedsTrans(f, g, a, b, c);
  }

  lemma SubsequenceConcat<T>(a: seq<T>, b: seq<T>, a': seq<T>, b': seq<T>)
    requires Subsequence(a, b) && Subsequence(a', b')
    ensures Subsequence(a + a', b + b')
  {
    var f, f' :| Embeds(f, a, b) && Embeds(f', a', b');
    var h := f + seq(|f'|, k requires 0 <= k < |f'| => |b| + f'[k]);
    assert Embeds(h, a + a', b + b');
  }

  /** Growing the lists on both sides of a shared middle. */
  lemma SubsequenceAround<T>(a: seq<T>, a': seq<T>, shared: seq<T>, b: seq<T>, b': seq<T>)
    requires Subsequence(a, a') && Subsequence(b, b')
    ensures Subsequence(a + shared + b, a' + shared + b')
  {
    SubsequenceSelf(shared);
    SubsequenceConcat(a, a', shared, shared);
    SubsequenceConcat(a + shared, a' + shared, b, b');
  }

  /** The k-th entry of a strictly increasing list is at least k. */
  lemma {:induction false} IncreasingLower(f: seq<nat>, k: nat)
    requires StrictlyIncreasing(f) && k < |f|
    ensures k <= f[k]
  {
    if k > 0 {
      IncreasingLower(f, k - 1);
    }
  }

  /** A strictly increasing list below n has at most n entries, and with n entries it is 0..n-1. */
  lemma {:induction false} IncreasingFull(f: seq<nat>, n: nat)
    requires StrictlyIncreasing(f) && forall k | 0 <= k < |f| :: f[k] < n
    ensures |f| <= n
    ensures |f| == n ==> forall k | 0 <= k < n :: f[k] == k
    decreases n
  {
    if |f| > 0 {
      assert f[|f| - 1] < n;
      var g := f[..|f| - 1];
      forall k | 0 <= k < |g| ensures g[k] < n - 1 {
        assert f[k] < f[|f| - 1];
      }
      IncreasingFull(g, n - 1);
      IncreasingLower(f, |f| - 1);
    }
  }

  lemma SubsequenceLength<T>(a: seq<T>, b: seq<T>)
    requires Subsequence(a, b)
    ensures |a| <= |b|
    ensures |a| == |b| ==> a == b
  {
    var f :| Embeds(f, a, b);
    IncreasingFull(f, |b|);
  }

  lemma SplitThree<T>(s: seq<T>, i: nat, j: nat)
    requires i <= j < |s|
    ensures s[i..] == s[i..j] + [s[j]] + s[j + 1..]
  {
  }

  function Map<A, B>(f: A -> B, s: seq<A>): (r: seq<B>)
    ensures |r| == |s|
    ensures forall i | 0 <= i < |s| :: r[i] == f(s[i])
  {
    seq(|s|, i requires 0 <= i < |s| => f(s[i]))
  }

  lemma SubsequenceMap<A, B>(f: A -> B, a: seq<A>, b: seq<A>)
    requires Subsequence(a, b)
    ensures Subsequence(Map(f, a), Map(f, b))
  {
    var e :| Embeds(e, a, b);
    assert Embeds(e, Map(f, a), Map(f, b));
  }
}
