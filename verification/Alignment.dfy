/**
 The alignment test of the context publisher: it fills two longest-common-subsequence tables and
 decides whether the best order-preserving pairing of two message lists is unique.
 */
module Alignment {
  import opened Prelude

  datatype Role = User | Assistant | System | Tool

  /** Messages match when role and text are equal, which is equality of this record. */
  datatype Message = Message(role: Role, text: string)

  type Pair = (nat, nat)

  datatype Alignment = NoOverlap | Ambiguous | Unique(pairs: seq<Pair>)

  // ---------------------------------------------------------------- reference definition

  ghost predicate Ascending(ps: seq<Pair>) {
    forall k, l | 0 <= k < l < |ps| :: ps[k].0 < ps[l].0 && ps[k].1 < ps[l].1
  }

  /** An order-preserving exact-match pairing of `p[i0..i1]` with `q[j0..j1]`. */
  ghost predicate PairingWithin(p: seq<Message>, q: seq<Message>, ps: seq<Pair>, i0: nat, j0: nat, i1: nat, j1: nat)
    requires i1 <= |p| && j1 <= |q|
  {
    && Ascending(ps)
    && forall k | 0 <= k < |ps| ::
        i0 <= ps[k].0 < i1 && j0 <= ps[k].1 < j1 && p[ps[k].0] == q[ps[k].1]
  }

  ghost predicate IsPairing(p: seq<Message>, q: seq<Message>, ps: seq<Pair>) {
    PairingWithin(p, q, ps, 0, 0, |p|, |q|)
  }

  ghost predicate MaximumPairing(p: seq<Message>, q: seq<Message>, ps: seq<Pair>) {
    && IsPairing(p, q, ps)
    && forall other | IsPairing(p, q, other) :: |other| <= |ps|
  }

  // ---------------------------------------------------------------- the two tables

  function PrefixLcs(p: seq<Message>, q: seq<Message>, i: nat, j: nat): nat
    requires i <= |p| && j <= |q|
    decreases i + j
  {
    if i == 0 || j == 0 then 0
    else if p[i - 1] == q[j - 1] then PrefixLcs(p, q, i - 1, j - 1) + 1
    else Max(PrefixLcs(p, q, i - 1, j), PrefixLcs(p, q, i, j - 1))
  }

  function SuffixLcs(p: seq<Message>, q: seq<Message>, i: nat, j: nat): nat
    requires i <= |p| && j <= |q|
    decreases |p| - i + |q| - j
  {
    if i == |p| || j == |q| then 0
    else if p[i] == q[j] then SuffixLcs(p, q, i + 1, j + 1) + 1
    else Max(SuffixLcs(p, q, i + 1, j), SuffixLcs(p, q, i, j + 1))
  }

  function Lcs(p: seq<Message>, q: seq<Message>): nat {
    PrefixLcs(p, q, |p|, |q|)
  }

  lemma {:induction false} PrefixBound(p: seq<Message>, q: seq<Message>, ps: seq<Pair>, i: nat, j: nat)
    requires i <= |p| && j <= |q| && PairingWithin(p, q, ps, 0, 0, i, j)
    ensures |ps| <= PrefixLcs(p, q, i, j)
    decreases i + j
  {
    if ps != [] {
      var last := |ps| - 1;
      assert ps[last].0 < i && ps[last].1 < j;
      assert forall k | 0 <= k < last :: ps[k].0 < ps[last].0 && ps[k].1 < ps[last].1;
      if p[i - 1] == q[j - 1] {
        PrefixBound(p, q, ps[..last], i - 1, j - 1);
      } else if ps[last].0 < i - 1 {
        PrefixBound(p, q, ps, i - 1, j);
      } else {
        PrefixBound(p, q, ps, i, j - 1);
      }
    }
  }

  lemma {:induction false} PrefixWitness(p: seq<Message>, q: seq<Message>, i: nat, j: nat) returns (ps: seq<Pair>)
    requires i <= |p| && j <= |q|
    ensures PairingWithin(p, q, ps, 0, 0, i, j) && |ps| == PrefixLcs(p, q, i, j)
    decreases i + j
  {
    if i == 0 || j == 0 {
      ps := [];
    } else if p[i - 1] == q[j - 1] {
      ps := PrefixWitness(p, q, i - 1, j - 1);
      ps := ps + [(i - 1, j - 1)];
    } else if PrefixLcs(p, q, i - 1, j) >= PrefixLcs(p, q, i, j - 1) {
      ps := PrefixWitness(p, q, i - 1, j);
    } else {
      ps := PrefixWitness(p, q, i, j - 1);
    }
  }

  lemma {:induction false} SuffixBound(p: seq<Message>, q: seq<Message>, ps: seq<Pair>, i: nat, j: nat)
    requires i <= |p| && j <= |q| && PairingWithin(p, q, ps, i, j, |p|, |q|)
    ensures |ps| <= SuffixLcs(p, q, i, j)
    decreases |p| - i + |q| - j
  {
    if ps != [] {
      assert i <= ps[0].0 < |p| && j <= ps[0].1 < |q|;
      assert forall k | 0 < k < |ps| :: ps[0].0 < ps[k].0 && ps[0].1 < ps[k].1;
      if p[i] == q[j] {
        SuffixBound(p, q, ps[1..], i + 1, j + 1);
      } else if i < ps[0].0 {
        SuffixBound(p, q, ps, i + 1, j);
      } else {
        SuffixBound(p, q, ps, i, j + 1);
      }
    }
  }

  lemma {:induction false} SuffixWitness(p: seq<Message>, q: seq<Message>, i: nat, j: nat) returns (ps: seq<Pair>)
    requires i <= |p| && j <= |q|
    ensures PairingWithin(p, q, ps, i, j, |p|, |q|) && |ps| == SuffixLcs(p, q, i, j)
    decreases |p| - i + |q| - j
  {
    if i == |p| || j == |q| {
      ps := [];
    } else if p[i] == q[j] {
      ps := SuffixWitness(p, q, i + 1, j + 1);
      ps := [(i, j)] + ps;
    } else if SuffixLcs(p, q, i + 1, j) >= SuffixLcs(p, q, i, j + 1) {
      ps := SuffixWitness(p, q, i + 1, j);
    } else {
      ps := SuffixWitness(p, q, i, j + 1);
    }
  }

  /** The table value is the length of a longest order-preserving exact-match pairing. */
  lemma MaximumPairingLength(p: seq<Message>, q: seq<Message>, ps: seq<Pair>)
    requires IsPairing(p, q, ps)
    ensures |ps| <= Lcs(p, q)
    ensures MaximumPairing(p, q, ps) <==> |ps| == Lcs(p, q)
  {
    PrefixBound(p, q, ps, |p|, |q|);
    var best := PrefixWitness(p, q, |p|, |q|);
    assert IsPairing(p, q, best);
    forall other | IsPairing(p, q, other) ensures |other| <= Lcs(p, q) {
      PrefixBound(p, q, other, |p|, |q|);
    }
  }

  lemma {:induction false} LcsAtMostEither(p: seq<Message>, q: seq<Message>, i: nat, j: nat)
    requires i <= |p| && j <= |q|
    ensures PrefixLcs(p, q, i, j) <= i && PrefixLcs(p, q, i, j) <= j
    decreases i + j
  {
    if i != 0 && j != 0 {
      LcsAtMostEither(p, q, i - 1, j - 1);
      LcsAtMostEither(p, q, i - 1, j);
      LcsAtMostEither(p, q, i, j - 1);
    }
  }

  lemma {:induction false} SuffixAtMostEither(p: seq<Message>, q: seq<Message>, i: nat, j: nat)
    requires i <= |p| && j <= |q|
    ensures SuffixLcs(p, q, i, j) <= |p| - i && SuffixLcs(p, q, i, j) <= |q| - j
    decreases |p| - i + |q| - j
  {
    if i != |p| && j != |q| {
      SuffixAtMostEither(p, q, i + 1, j + 1);
      SuffixAtMostEither(p, q, i + 1, j);
      SuffixAtMostEither(p, q, i, j + 1);
    }
  }

  // ---------------------------------------------------------------- candidate cells

  /** The cell test of the third nested loop. */
  predicate OnPath(p: seq<Message>, q: seq<Message>, i: nat, j: nat)
    requires i < |p| && j < |q|
  {
    p[i] == q[j] && PrefixLcs(p, q, i, j) + 1 + SuffixLcs(p, q, i + 1, j + 1) == Lcs(p, q)
  }

  /** Candidate cells met before cell (i, j) in row-major order. */
  function Candidates(p: seq<Message>, q: seq<Message>, i: nat, j: nat): seq<Pair>
    requires i <= |p| && j <= |q| && (i == |p| ==> j == 0)
    decreases i, j
  {
    if j > 0 then
      Candidates(p, q, i, j - 1) + (if OnPath(p, q, i, j - 1) then [(i, j - 1)] else [])
    else if i > 0 then
      CandidatesOfRow(p, q, i - 1)
    else []
  }

  function CandidatesOfRow(p: seq<Message>, q: seq<Message>, i: nat): seq<Pair>
    requires i < |p|
    decreases i, |q| + 1
  {
    Candidates(p, q, i, |q|)
  }

  ghost predicate Before(a: Pair, b: Pair) {
    a.0 < b.0 || (a.0 == b.0 && a.1 < b.1)
  }

  ghost predicate RowMajor(ps: seq<Pair>) {
    forall k, l | 0 <= k < l < |ps| :: Before(ps[k], ps[l])
  }

  ghost predicate CellBefore(c: Pair, i: nat, j: nat) {
    c.0 < i || (c.0 == i && c.1 < j)
  }

  lemma {:induction false} CandidatesAre(p: seq<Message>, q: seq<Message>, i: nat, j: nat)
    requires i <= |p| && j <= |q| && (i == |p| ==> j == 0)
    ensures RowMajor(Candidates(p, q, i, j))
    ensures forall c: Pair :: c in Candidates(p, q, i, j) <==>
        c.0 < |p| && c.1 < |q| && CellBefore(c, i, j) && OnPath(p, q, c.0, c.1)
    decreases i, j
  {
    if j > 0 {
      CandidatesAre(p, q, i, j - 1);
    } else if i > 0 {
      CandidatesAre(p, q, i - 1, |q|);
    }
  }

  /** Cells on some best pairing are exactly the candidate cells. */
  lemma OnPathExact(p: seq<Message>, q: seq<Message>, i: nat, j: nat)
    requires i < |p| && j < |q|
    ensures OnPath(p, q, i, j) <==> exists ps :: MaximumPairing(p, q, ps) && (i, j) in ps
  {
    if OnPath(p, q, i, j) {
      var ps := ThroughCell(p, q, i, j);
    }
    forall ps | MaximumPairing(p, q, ps) && (i, j) in ps ensures OnPath(p, q, i, j) {
      PairingCellOnPath(p, q, ps, i, j);
    }
  }

  lemma PairingCellOnPath(p: seq<Message>, q: seq<Message>, ps: seq<Pair>, i: nat, j: nat)
    requires MaximumPairing(p, q, ps) && (i, j) in ps
    ensures i < |p| && j < |q| && OnPath(p, q, i, j)
  {
    var k :| 0 <= k < |ps| && ps[k] == (i, j);
    PrefixBound(p, q, ps[..k], i, j);
    SuffixBound(p, q, ps[k + 1..], i + 1, j + 1);
    MaximumPairingLength(p, q, ps);
    var through := Joined(p, q, i, j);
    MaximumPairingLength(p, q, through);
  }

  lemma Joined(p: seq<Message>, q: seq<Message>, i: nat, j: nat) returns (ps: seq<Pair>)
    requires i < |p| && j < |q| && p[i] == q[j]
    ensures IsPairing(p, q, ps) && (i, j) in ps
    ensures |ps| == PrefixLcs(p, q, i, j) + 1 + SuffixLcs(p, q, i + 1, j + 1)
  {
    var front := PrefixWitness(p, q, i, j);
    var back := SuffixWitness(p, q, i + 1, j + 1);
    ps := front + [(i, j)] + back;
    assert ps[|front|] == (i, j);
  }

  lemma ThroughCell(p: seq<Message>, q: seq<Message>, i: nat, j: nat) returns (ps: seq<Pair>)
    requires i < |p| && j < |q| && OnPath(p, q, i, j)
    ensures MaximumPairing(p, q, ps) && (i, j) in ps
  {
    ps := Joined(p, q, i, j);
    MaximumPairingLength(p, q, ps);
  }

  /** Row-major lists: containment bounds the length, and equal length forces equality. */
  lemma {:induction false} RowMajorContained(a: seq<Pair>, b: seq<Pair>)
    requires RowMajor(a) && RowMajor(b) && forall c | c in a :: c in b
    ensures |a| <= |b|
    ensures |a| == |b| ==> a == b
    decreases |b|
  {
    if a != [] {
      assert a[0] in b;
      forall k | 1 <= k < |a| ensures a[k] in b[1..] {
        assert a[k] in b && Before(a[0], a[k]);
      }
      if a[0] == b[0] {
        RowMajorContained(a[1..], b[1..]);
      } else {
        assert a[0] in b[1..];
        RowMajorContained(a, b[1..]);
      }
    }
  }

  // ---------------------------------------------------------------- the decision

  predicate StrictPairs(ps: seq<Pair>) {
    forall k | 1 <= k < |ps| :: ps[k - 1].0 < ps[k].0 && ps[k - 1].1 < ps[k].1
  }

  function Align(p: seq<Message>, q: seq<Message>): Alignment {
    var candidates := Candidates(p, q, |p|, 0);
    if Lcs(p, q) == 0 then NoOverlap
    else if |candidates| != Lcs(p, q) || !StrictPairs(candidates) then Ambiguous
    else Unique(candidates)
  }

  /** When the candidate count equals the overlap, the candidates are the only best pairing. */
  lemma CountDecides(p: seq<Message>, q: seq<Message>)
    requires |Candidates(p, q, |p|, 0)| == Lcs(p, q)
    ensures forall ps :: MaximumPairing(p, q, ps) <==> ps == Candidates(p, q, |p|, 0)
    ensures StrictPairs(Candidates(p, q, |p|, 0))
  {
    var candidates := Candidates(p, q, |p|, 0);
    CandidatesAre(p, q, |p|, 0);
    forall ps | MaximumPairing(p, q, ps) ensures ps == candidates {
      MaximumPairingLength(p, q, ps);
      forall c | c in ps ensures c in candidates {
        PairingCellOnPath(p, q, ps, c.0, c.1);
      }
      RowMajorContained(ps, candidates);
    }
    var best := PrefixWitness(p, q, |p|, |q|);
    MaximumPairingLength(p, q, best);
  }

  /** A differing count exposes a second best pairing. */
  lemma MiscountIsAmbiguous(p: seq<Message>, q: seq<Message>) returns (a: seq<Pair>, b: seq<Pair>)
    requires |Candidates(p, q, |p|, 0)| != Lcs(p, q)
    ensures MaximumPairing(p, q, a) && MaximumPairing(p, q, b) && a != b
  {
    var candidates := Candidates(p, q, |p|, 0);
    CandidatesAre(p, q, |p|, 0);
    a := PrefixWitness(p, q, |p|, |q|);
    MaximumPairingLength(p, q, a);
    forall c | c in a ensures c in candidates {
      PairingCellOnPath(p, q, a, c.0, c.1);
    }
    RowMajorContained(a, candidates);
    if forall c | c in candidates :: c in a {
      RowMajorContained(candidates, a);
      assert false;
    }
    var extra :| extra in candidates && extra !in a;
    b := ThroughCell(p, q, extra.0, extra.1);
  }

  /** The test is exact, and the strict-increase check after the count never decides anything. */
  lemma AlignExact(p: seq<Message>, q: seq<Message>)
    ensures |Candidates(p, q, |p|, 0)| == Lcs(p, q) ==> StrictPairs(Candidates(p, q, |p|, 0))
    ensures match Align(p, q)
      case NoOverlap => forall i, j | 0 <= i < |p| && 0 <= j < |q| :: p[i] != q[j]
      case Unique(pairs) =>
        pairs != [] && MaximumPairing(p, q, pairs) && forall other | MaximumPairing(p, q, other) :: other == pairs
      case Ambiguous => exists a, b :: a != b && MaximumPairing(p, q, a) && MaximumPairing(p, q, b)
  {
    if Lcs(p, q) == 0 {
      forall i, j | 0 <= i < |p| && 0 <= j < |q| ensures p[i] != q[j] {
        if p[i] == q[j] {
          var ps := Joined(p, q, i, j);
          MaximumPairingLength(p, q, ps);
        }
      }
    }
    if |Candidates(p, q, |p|, 0)| == Lcs(p, q) {
      CountDecides(p, q);
    } else {
      var a, b := MiscountIsAmbiguous(p, q);
    }
  }

  lemma AlignGivesPairing(p: seq<Message>, q: seq<Message>)
    ensures Align(p, q).Unique? ==> Align(p, q).pairs != [] && IsPairing(p, q, Align(p, q).pairs)
  {
    AlignExact(p, q);
  }

  // ---------------------------------------------------------------- the loops

  /** A store into a `Uint16Array` cell. */
  function ToUint16(x: int): int { x % 65536 }

  method FillForward(prior: seq<Message>, incoming: seq<Message>) returns (forward: array2<int>)
    requires |prior| < 65536 || |incoming| < 65536
    ensures fresh(forward) && forward.Length0 == |prior| + 1 && forward.Length1 == |incoming| + 1
    ensures forall i: nat, j: nat | i <= |prior| && j <= |incoming| ::
        forward[i, j] == PrefixLcs(prior, incoming, i, j)
  {
    forward := new int[|prior| + 1, |incoming| + 1]((i, j) => 0);
    for i := 0 to |prior|
      invariant forall a: nat, b: nat {:trigger forward[a, b]} | a <= |prior| && b <= |incoming| ::
          forward[a, b] == if a <= i then PrefixLcs(prior, incoming, a, b) else 0
    {
      for j := 0 to |incoming|
        invariant forall a: nat, b: nat {:trigger forward[a, b]} | a <= |prior| && b <= |incoming| ::
            forward[a, b] == if a <= i || (a == i + 1 && b <= j) then PrefixLcs(prior, incoming, a, b) else 0
      {
        LcsAtMostEither(prior, incoming, i + 1, j + 1);
        forward[i + 1, j + 1] := ToUint16(
          if prior[i] == incoming[j] then forward[i, j] + 1
          else Max(forward[i, j + 1], forward[i + 1, j]));
      }
    }
  }

  method FillBackward(prior: seq<Message>, incoming: seq<Message>) returns (backward: array2<int>)
    requires |prior| < 65536 || |incoming| < 65536
    ensures fresh(backward) && backward.Length0 == |prior| + 1 && backward.Length1 == |incoming| + 1
    ensures forall i: nat, j: nat | i <= |prior| && j <= |incoming| ::
        backward[i, j] == SuffixLcs(prior, incoming, i, j)
  {
    backward := new int[|prior| + 1, |incoming| + 1]((i, j) => 0);
    for i := |prior| downto 0
      invariant forall a: nat, b: nat {:trigger backward[a, b]} | a <= |prior| && b <= |incoming| ::
          backward[a, b] == if a >= i then SuffixLcs(prior, incoming, a, b) else 0
    {
      for j := |incoming| downto 0
        invariant forall a: nat, b: nat {:trigger backward[a, b]} | a <= |prior| && b <= |incoming| ::
            backward[a, b] == if a > i || (a == i && b >= j) then SuffixLcs(prior, incoming, a, b) else 0
      {
        SuffixAtMostEither(prior, incoming, i, j);
        backward[i, j] := ToUint16(
          if prior[i] == incoming[j] then backward[i + 1, j + 1] + 1
          else Max(backward[i + 1, j], backward[i, j + 1]));
      }
    }
  }

  method UniqueOrderedAlignment(prior: seq<Message>, incoming: seq<Message>) returns (r: Alignment)
    requires |prior| < 65536 || |incoming| < 65536
    ensures r == Align(prior, incoming)
  {
    var forward := FillForward(prior, incoming);
    var overlap := forward[|prior|, |incoming|];
    if overlap == 0 {
      return NoOverlap;
    }
    var backward := FillBackward(prior, incoming);
    var candidates: seq<Pair> := [];
    for i := 0 to |prior|
      invariant candidates == Candidates(prior, incoming, i, 0)
    {
      for j := 0 to |incoming|
        invariant candidates == Candidates(prior, incoming, i, j)
      {
        if prior[i] == incoming[j] && forward[i, j] + 1 + backward[i + 1, j + 1] == overlap {
          candidates := candidates + [(i, j)];
        }
      }
      assert Candidates(prior, incoming, i + 1, 0) == CandidatesOfRow(prior, incoming, i);
    }
    if |candidates| != overlap {
      return Ambiguous;
    }
    for index := 1 to |candidates|
      invariant forall k | 1 <= k < index ::
        candidates[k - 1].0 < candidates[k].0 && candidates[k - 1].1 < candidates[k].1
    {
      if candidates[index].0 <= candidates[index - 1].0 || candidates[index].1 <= candidates[index - 1].1 {
        return Ambiguous;
      }
    }
    r := Unique(candidates);
  }
}
