/**
 Duality between best pairings and shortest common supersequences: two embeddings into one list
 meet in a pairing, and a tight meeting leaves no freedom in either embedding.
 */
module Supersequences {
  import opened Subsequences
  import opened Alignment

  /** Index pairs at which the first `i` and `j` entries of two increasing position lists meet. */
  function Meet(f: seq<nat>, g: seq<nat>, i: nat, j: nat): seq<Pair>
    requires i <= |f| && j <= |g|
    decreases i + j
  {
    if i == 0 || j == 0 then []
    else if f[i - 1] == g[j - 1] then Meet(f, g, i - 1, j - 1) + [(i - 1, j - 1)]
    else if f[i - 1] > g[j - 1] then Meet(f, g, i - 1, j)
    else Meet(f, g, i, j - 1)
  }

  /** The first `i` entries of the increasing list `f` are below `n`. */
  ghost predicate Below(f: seq<nat>, i: nat, n: nat) {
    StrictlyIncreasing(f) && i <= |f| && (i > 0 ==> f[i - 1] < n)
  }

  ghost predicate Meetings(f: seq<nat>, g: seq<nat>, ps: seq<Pair>, i: nat, j: nat)
    requires i <= |f| && j <= |g|
  {
    Ascending(ps) && forall k | 0 <= k < |ps| :: ps[k].0 < i && ps[k].1 < j && f[ps[k].0] == g[ps[k].1]
  }

  lemma MeetingsExtend(f: seq<nat>, g: seq<nat>, ps: seq<Pair>, i: nat, j: nat)
    requires i < |f| && j < |g| && Meetings(f, g, ps, i, j) && f[i] == g[j]
    ensures Meetings(f, g, ps + [(i, j)], i + 1, j + 1)
  {
  }

  lemma {:induction false} MeetSound(f: seq<nat>, g: seq<nat>, i: nat, j: nat)
    requires i <= |f| && j <= |g|
    ensures Meetings(f, g, Meet(f, g, i, j), i, j)
    decreases i + j
  {
    if i != 0 && j != 0 {
      if f[i - 1] == g[j - 1] {
        MeetSound(f, g, i - 1, j - 1);
        MeetingsExtend(f, g, Meet(f, g, i - 1, j - 1), i - 1, j - 1);
      } else if f[i - 1] > g[j - 1] {
        MeetSound(f, g, i - 1, j);
      } else {
        MeetSound(f, g, i, j - 1);
      }
    }
  }

  /** Inclusion-exclusion on positions. */
  lemma {:induction false} MeetCount(f: seq<nat>, g: seq<nat>, i: nat, j: nat, n: nat)
    requires Below(f, i, n) && Below(g, j, n)
    ensures i + j <= n + |Meet(f, g, i, j)|
    decreases i + j
  {
    if i == 0 {
      if j > 0 {
        IncreasingLower(g, j - 1);
      }
    } else if j == 0 {
      IncreasingLower(f, i - 1);
    } else if f[i - 1] == g[j - 1] {
      MeetCount(f, g, i - 1, j - 1, n - 1);
    } else if f[i - 1] > g[j - 1] {
      MeetCount(f, g, i - 1, j, n - 1);
    } else {
      MeetCount(f, g, i, j - 1, n - 1);
    }
  }

  /** If every position is used and the meetings agree, the second embedding is determined. */
  lemma {:induction false} TightMeetDetermines(f: seq<nat>, g: seq<nat>, h: seq<nat>, i: nat, j: nat, n: nat)
    requires Below(f, i, n) && Below(g, j, n) && Below(h, j, n)
    requires Meet(f, g, i, j) == Meet(f, h, i, j) && i + j == n + |Meet(f, g, i, j)|
    ensures forall k | 0 <= k < j :: g[k] == h[k]
    decreases n
  {
    if i == 0 {
      IncreasingFull(g[..j], n);
      IncreasingFull(h[..j], n);
    } else if j > 0 {
      if f[i - 1] < n - 1 {
        LastUsed(f, g, i, j, n);
        LastUsed(f, h, i, j, n);
        TightMeetDetermines(f, g, h, i, j - 1, n - 1);
      } else if g[j - 1] == n - 1 {
        LastMeets(f, g, h, i, j);
        TightMeetDetermines(f, g, h, i - 1, j - 1, n - 1);
      } else {
        if h[j - 1] == n - 1 {
          LastMeets(f, h, g, i, j);
          assert false;
        }
        TightMeetDetermines(f, g, h, i - 1, j, n - 1);
      }
    }
  }

  lemma LastUsed(f: seq<nat>, g: seq<nat>, i: nat, j: nat, n: nat)
    requires i > 0 && j > 0 && Below(f, i, n) && Below(g, j, n) && f[i - 1] < n - 1
    requires i + j == n + |Meet(f, g, i, j)|
    ensures g[j - 1] == n - 1
  {
    if g[j - 1] < n - 1 {
      MeetCount(f, g, i, j, n - 1);
      assert false;
    }
  }

  lemma LastMeets(f: seq<nat>, g: seq<nat>, h: seq<nat>, i: nat, j: nat)
    requires 0 < i <= |f| && 0 < j <= |g| && j <= |h| && f[i - 1] == g[j - 1]
    requires Meet(f, g, i, j) == Meet(f, h, i, j)
    ensures f[i - 1] == h[j - 1] && Meet(f, g, i - 1, j - 1) == Meet(f, h, i - 1, j - 1)
  {
    var ps := Meet(f, h, i, j);
    MeetSound(f, h, i, j);
    assert ps[|ps| - 1] == (i - 1, j - 1);
    assert Meet(f, g, i - 1, j - 1) == ps[..|ps| - 1];
    assert Meet(f, h, i - 1, j - 1) == ps[..|ps| - 1];
  }

  lemma MeetIsPairing(f: seq<nat>, g: seq<nat>, p: seq<Message>, q: seq<Message>, s: seq<Message>)
    requires Embeds(f, p, s) && Embeds(g, q, s)
    ensures var ps := Meet(f, g, |p|, |q|);
      IsPairing(p, q, ps) && |p| + |q| <= |s| + |ps| <= |s| + Lcs(p, q)
  {
    MeetSound(f, g, |p|, |q|);
    MeetCount(f, g, |p|, |q|, |s|);
    var ps := Meet(f, g, |p|, |q|);
    MaximumPairingLength(p, q, ps);
  }

  /** No common supersequence is shorter than |p| + |q| - LCS. */
  lemma SupersequenceBound(p: seq<Message>, q: seq<Message>, s: seq<Message>)
    requires Subsequence(p, s) && Subsequence(q, s)
    ensures |s| >= |p| + |q| - Lcs(p, q)
  {
    var f, g :| Embeds(f, p, s) && Embeds(g, q, s);
    MeetIsPairing(f, g, p, q, s);
  }

  /** In a shortest common supersequence of uniquely aligned lists, each list sits in one way only. */
  lemma EmbeddingUnique(p: seq<Message>, q: seq<Message>, s: seq<Message>, g: seq<nat>, h: seq<nat>)
    requires Subsequence(p, s) && Embeds(g, q, s) && Embeds(h, q, s)
    requires |s| == |p| + |q| - Lcs(p, q)
    requires forall a, b | MaximumPairing(p, q, a) && MaximumPairing(p, q, b) :: a == b
    ensures g == h
  {
    var f :| Embeds(f, p, s);
    MeetIsPairing(f, g, p, q, s);
    MeetIsPairing(f, h, p, q, s);
    MaximumPairingLength(p, q, Meet(f, g, |p|, |q|));
    MaximumPairingLength(p, q, Meet(f, h, |p|, |q|));
    TightMeetDetermines(f, g, h, |p|, |q|, |s|);
  }

  /** A pairing that uses all of q is an embedding of q. */
  lemma FullPairingEmbeds(s: seq<Message>, q: seq<Message>, ps: seq<Pair>) returns (g: seq<nat>)
    requires IsPairing(s, q, ps) && |ps| == |q|
    ensures Embeds(g, q, s) && |g| == |ps|
    ensures forall k | 0 <= k < |ps| :: ps[k] == (g[k], k)
  {
    var second := seq(|ps|, k requires 0 <= k < |ps| => ps[k].1);
    IncreasingFull(second, |q|);
    g := seq(|ps|, k requires 0 <= k < |ps| => ps[k].0);
    assert forall k | 0 <= k < |ps| :: ps[k].1 == second[k] == k;
  }

  lemma EmbeddingIsPairing(s: seq<Message>, q: seq<Message>, g: seq<nat>)
    requires Embeds(g, q, s)
    ensures IsPairing(s, q, seq(|g|, k requires 0 <= k < |g| => (g[k], k)))
    ensures Lcs(s, q) == |q|
  {
    MaximumPairingLength(s, q, seq(|g|, k requires 0 <= k < |g| => (g[k], k)));
    LcsAtMostEither(s, q, |s|, |q|);
  }

  lemma FullPairingsAgree(s: seq<Message>, q: seq<Message>, a: seq<Pair>, b: seq<Pair>)
    requires IsPairing(s, q, a) && IsPairing(s, q, b) && |a| == |q| == |b|
    requires forall g, h | Embeds(g, q, s) && Embeds(h, q, s) :: g == h
    ensures a == b
  {
    var g := FullPairingEmbeds(s, q, a);
    var h := FullPairingEmbeds(s, q, b);
  }

  /** If q embeds in s in exactly one way, aligning s with q is unique and matches all of q. */
  lemma UniqueEmbeddingAligns(s: seq<Message>, q: seq<Message>)
    requires q != [] && Subsequence(q, s)
    requires forall g, h | Embeds(g, q, s) && Embeds(h, q, s) :: g == h
    ensures Align(s, q).Unique? && |Align(s, q).pairs| == |q|
  {
    var g :| Embeds(g, q, s);
    assert s[g[0]] == q[0];
    EmbeddingIsPairing(s, q, g);
    AlignExact(s, q);
    match Align(s, q)
    case NoOverlap =>
    case Unique(pairs) =>
      MaximumPairingLength(s, q, pairs);
    case Ambiguous =>
      var a, b :| a != b && MaximumPairing(s, q, a) && MaximumPairing(s, q, b);
      MaximumPairingLength(s, q, a);
      MaximumPairingLength(s, q, b);
      FullPairingsAgree(s, q, a, b);
  }
}
