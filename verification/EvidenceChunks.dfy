/**
 Full-source evidence chunks: every source segment becomes header-carrying fragments, and fragments are
 packed greedily, in order, into chunks bounded in characters and in fragments.
 */
module EvidenceChunks {
  import opened Prelude

  datatype Segment = Segment(actor: string, segmentId: string, observedAt: Option<string>, content: string)

  datatype Fragment = Fragment(content: string, segmentId: Option<string>)

  datatype Chunk = Chunk(content: string, segmentIds: seq<string>, fragmentCount: nat)

  /** Hashing is injective: the fingerprint of a chunk is its position and the chunk. */
  datatype Fingerprint = Fingerprint(index: nat, chunk: Chunk)

  datatype EvidenceChunk = EvidenceChunk(chunk: Chunk, fingerprint: Fingerprint)

  datatype ChunkError = HeaderTooLong | FragmentExceeds | NoFragments | BoundsUnsatisfied

  const HEADER_RESERVE := 40
  const MIN_MAX_CHARS := 256
  const SEPARATOR := "\n\n"

  /** The part counts whose headers fit the reserve. */
  const PART_LIMIT := 10_000_000_000_000_000

  // ---------------------------------------------------------------- decimal numerals

  function Digit(d: nat): char
    requires d < 10
  {
    "0123456789"[d]
  }

  function Decimal(n: nat): string {
    if n < 10 then [Digit(n)] else Decimal(n / 10) + [Digit(n % 10)]
  }

  function Pow10(k: nat): nat { if k == 0 then 1 else 10 * Pow10(k - 1) }

  lemma {:induction false} DecimalLength(n: nat, k: nat)
    requires k >= 1 && n < Pow10(k)
    ensures 1 <= |Decimal(n)| <= k
  {
    if n >= 10 {
      assert k >= 2 && n / 10 < Pow10(k - 1);
      DecimalLength(n / 10, k - 1);
    }
  }

  // ---------------------------------------------------------------- cutting a text into slices

  /** How many slices of `size` characters a text needs. */
  function SliceCount(length: nat, size: nat): nat
    requires size > 0
  {
    if length == 0 then 0 else if length <= size then 1 else 1 + SliceCount(length - size, size)
  }

  /** Where the i-th slice starts. */
  function Offset(i: nat, size: nat): nat { if i == 0 then 0 else Offset(i - 1, size) + size }

  /** `text.slice(i * size, (i + 1) * size)` */
  function Slice(text: string, size: nat, i: nat): string
    requires size > 0 && i < SliceCount(|text|, size)
  {
    SliceBounds(|text|, size, i);
    text[Offset(i, size)..Min(Offset(i + 1, size), |text|)]
  }

  lemma {:induction false} SliceBounds(length: nat, size: nat, i: nat)
    requires size > 0 && i < SliceCount(length, size)
    ensures Offset(i, size) < length
    ensures i + 1 == SliceCount(length, size) <==> length <= Offset(i + 1, size)
  {
    if i > 0 {
      SliceBounds(length - size, size, i - 1);
    }
  }

  lemma {:induction false} OffsetIsProduct(i: nat, size: nat)
    ensures Offset(i, size) == i * size
  {
    if i > 0 {
      OffsetIsProduct(i - 1, size);
      assert i * size == (i - 1) * size + size;
    }
  }

  lemma {:induction false} ProductGap(p: nat, q: nat, d: nat)
    requires p < q
    ensures p * d + d <= q * d
  {
    if p + 1 < q {
      ProductGap(p, q - 1, d);
    }
    assert q * d == (q - 1) * d + d;
  }

  lemma QuotientUnique(x: nat, d: nat, q: nat)
    requires q * d <= x < q * d + d
    ensures x / d == q
  {
    var p := x / d;
    assert x == p * d + x % d && 0 <= x % d < d;
    if p < q {
      ProductGap(p, q, d);
    } else if p > q {
      ProductGap(q, p, d);
    }
  }

  /** `Math.ceil(length / size)` slices. */
  lemma SliceCountIsCeiling(length: nat, size: nat)
    requires size > 0
    ensures SliceCount(length, size) == (length + size - 1) / size
  {
    var n := SliceCount(length, size);
    OffsetIsProduct(n, size);
    if n > 0 {
      SliceBounds(length, size, n - 1);
      assert Offset(n, size) == Offset(n - 1, size) + size;
    }
    QuotientUnique(length + size - 1, size, n);
  }

  function Concat(texts: seq<string>): string {
    if texts == [] then "" else Concat(texts[..|texts| - 1]) + texts[|texts| - 1]
  }

  function Slices(text: string, size: nat, n: nat): (r: seq<string>)
    requires size > 0 && n <= SliceCount(|text|, size)
    ensures |r| == n
  {
    seq(n, i requires 0 <= i < n => Slice(text, size, i))
  }

  lemma SlicesNext(text: string, size: nat, n: nat)
    requires size > 0 && 0 < n <= SliceCount(|text|, size)
    ensures Concat(Slices(text, size, n)) == Concat(Slices(text, size, n - 1)) + Slice(text, size, n - 1)
  {
    assert Slices(text, size, n)[..n - 1] == Slices(text, size, n - 1);
  }

  lemma SliceAppends(text: string, size: nat, n: nat)
    requires size > 0 && 0 < n <= SliceCount(|text|, size)
    ensures Offset(n - 1, size) < |text|
    ensures n < SliceCount(|text|, size) ==> Offset(n, size) < |text|
    ensures text[..Offset(n - 1, size)] + Slice(text, size, n - 1) ==
      if n < SliceCount(|text|, size) then text[..Offset(n, size)] else text
  {
    SliceBounds(|text|, size, n - 1);
    if n < SliceCount(|text|, size) {
      SliceBounds(|text|, size, n);
    }
  }

  /** The slices, in order, rebuild the text. */
  lemma {:induction false} SlicesRebuild(text: string, size: nat, n: nat)
    requires size > 0 && n <= SliceCount(|text|, size)
    ensures n < SliceCount(|text|, size) ==>
      Offset(n, size) < |text| && Concat(Slices(text, size, n)) == text[..Offset(n, size)]
    ensures n == SliceCount(|text|, size) ==> Concat(Slices(text, size, n)) == text
  {
    if n > 0 {
      SlicesRebuild(text, size, n - 1);
      SlicesNext(text, size, n);
      SliceAppends(text, size, n);
    }
  }

  // ---------------------------------------------------------------- fragments of one segment

  function BaseHeader(s: Segment): (h: string)
    ensures |h| >= 1
  {
    "[actor=" + s.actor + " segment=" + s.segmentId
    + (match s.observedAt case None => "" case Some(at) => " at=" + at) + "]"
  }

  function PartHeader(s: Segment, i: nat, parts: nat): string {
    BaseHeader(s)[..|BaseHeader(s)| - 1] + " part=" + Decimal(i + 1) + "/" + Decimal(parts) + "]"
  }

  predicate FitsWhole(s: Segment, maxChars: nat) {
    |BaseHeader(s) + "\n" + Trim(s.content)| <= maxChars
  }

  function PayloadSize(s: Segment, maxChars: nat): int { maxChars - |BaseHeader(s)| - HEADER_RESERVE }

  function Part(s: Segment, size: nat, i: nat): Fragment
    requires size > 0 && i < SliceCount(|Trim(s.content)|, size)
  {
    var text := Trim(s.content);
    Fragment(PartHeader(s, i, SliceCount(|text|, size)) + "\n" + Slice(text, size, i), Some(s.segmentId))
  }

  /** The first `n` parts, or the refusal of the first one that is too long. */
  function Parts(s: Segment, maxChars: nat, size: nat, n: nat): (r: Result<seq<Fragment>, ChunkError>)
    requires size > 0 && n <= SliceCount(|Trim(s.content)|, size)
    ensures r.Success? ==> |r.value| == n && forall i | 0 <= i < n :: r.value[i] == Part(s, size, i)
  {
    if n == 0 then Success([])
    else
      var before := Parts(s, maxChars, size, n - 1);
      if before.Failure? then before
      else if |Part(s, size, n - 1).content| > maxChars then Failure(FragmentExceeds)
      else Success(before.value + [Part(s, size, n - 1)])
  }

  function SegmentFragments(s: Segment, maxChars: nat): Result<seq<Fragment>, ChunkError> {
    if FitsWhole(s, maxChars) then Success([Fragment(BaseHeader(s) + "\n" + Trim(s.content), Some(s.segmentId))])
    else if PayloadSize(s, maxChars) < 1 then Failure(HeaderTooLong)
    else Parts(s, maxChars, PayloadSize(s, maxChars), SliceCount(|Trim(s.content)|, PayloadSize(s, maxChars)))
  }

  lemma FailureSticks(s: Segment, maxChars: nat, size: nat, n: nat, m: nat)
    requires size > 0 && n <= m <= SliceCount(|Trim(s.content)|, size) && Parts(s, maxChars, size, n).Failure?
    ensures Parts(s, maxChars, size, m) == Failure(FragmentExceeds)
  {
  }

  lemma NextPart(s: Segment, maxChars: nat, size: nat, n: nat)
    requires size > 0 && n < SliceCount(|Trim(s.content)|, size) && Parts(s, maxChars, size, n).Success?
    ensures Parts(s, maxChars, size, n + 1) ==
      if |Part(s, size, n).content| > maxChars then Failure(FragmentExceeds)
      else Success(Parts(s, maxChars, size, n).value + [Part(s, size, n)])
  {
  }

  method RenderPart(s: Segment, trimmed: string, baseHeader: string, payloadSize: nat, index: nat, parts: nat)
    returns (fragment: Fragment)
    requires trimmed == Trim(s.content) && baseHeader == BaseHeader(s)
    requires payloadSize > 0 && index < parts == SliceCount(|trimmed|, payloadSize)
    ensures fragment == Part(s, payloadSize, index)
  {
    var header := baseHeader[..|baseHeader| - 1] + " part=" + Decimal(index + 1) + "/" + Decimal(parts) + "]";
    fragment := Fragment(header + "\n" + Slice(trimmed, payloadSize, index), Some(s.segmentId));
  }

  method RenderSegmentFragments(s: Segment, maxChars: nat) returns (r: Result<seq<Fragment>, ChunkError>)
    ensures r == SegmentFragments(s, maxChars)
  {
    var trimmed := Trim(s.content);
    var baseHeader := BaseHeader(s);
    if |baseHeader + "\n" + trimmed| <= maxChars {
      return Success([Fragment(baseHeader + "\n" + trimmed, Some(s.segmentId))]);
    }
    var payloadSize := maxChars - |baseHeader| - HEADER_RESERVE;
    if payloadSize < 1 {
      return Failure(HeaderTooLong);
    }
    var parts := SliceCount(|trimmed|, payloadSize);
    var fragments: seq<Fragment> := [];
    for index := 0 to parts
      invariant Parts(s, maxChars, payloadSize, index) == Success(fragments)
    {
      var fragment := RenderPart(s, trimmed, baseHeader, payloadSize, index, parts);
      NextPart(s, maxChars, payloadSize, index);
      if |fragment.content| > maxChars {
        FailureSticks(s, maxChars, payloadSize, index + 1, parts);
        return Failure(FragmentExceeds);
      }
      fragments := fragments + [fragment];
    }
    r := Success(fragments);
  }

  /** The header of the i-th of n fragments of a segment. */
  function HeaderOf(s: Segment, i: nat, n: nat): string {
    if n == 1 then BaseHeader(s) else PartHeader(s, i, n)
  }

  function Payload(s: Segment, fragments: seq<Fragment>, i: nat): string
    requires i < |fragments| && |HeaderOf(s, i, |fragments|)| < |fragments[i].content|
  {
    fragments[i].content[|HeaderOf(s, i, |fragments|)| + 1..]
  }

  /** The i-th fragment carries the segment's id and a header line before its payload. */
  ghost predicate Headed(s: Segment, fragments: seq<Fragment>, i: nat)
    requires i < |fragments|
  {
    && fragments[i].segmentId == Some(s.segmentId)
    && |HeaderOf(s, i, |fragments|)| < |fragments[i].content|
    && fragments[i].content == HeaderOf(s, i, |fragments|) + "\n" + Payload(s, fragments, i)
  }

  /** A segment that does not fit whole is cut into at least two parts. */
  lemma SeveralParts(s: Segment, maxChars: nat)
    requires !FitsWhole(s, maxChars) && PayloadSize(s, maxChars) >= 1
    ensures SliceCount(|Trim(s.content)|, PayloadSize(s, maxChars)) >= 2
  {
    assert |Trim(s.content)| > PayloadSize(s, maxChars);
  }

  /** Stripped of their headers, the fragments of a segment rebuild its trimmed text, in order. */
  lemma FragmentsRebuildSegment(s: Segment, maxChars: nat)
    requires SegmentFragments(s, maxChars).Success?
    ensures var fragments := SegmentFragments(s, maxChars).value;
      && fragments != []
      && (forall i | 0 <= i < |fragments| :: Headed(s, fragments, i))
      && Concat(seq(|fragments|, i requires 0 <= i < |fragments| && Headed(s, fragments, i) =>
                      Payload(s, fragments, i)))
         == Trim(s.content)
  {
    var fragments, text := SegmentFragments(s, maxChars).value, Trim(s.content);
    if FitsWhole(s, maxChars) {
      var payloads :=
        seq(|fragments|, i requires 0 <= i < |fragments| && Headed(s, fragments, i) => Payload(s, fragments, i));
      assert Headed(s, fragments, 0) && Payload(s, fragments, 0) == text;
      assert payloads == [text];
      assert Concat([text]) == Concat([text][..0]) + text;
    } else {
      var size := PayloadSize(s, maxChars);
      SeveralParts(s, maxChars);
      forall i | 0 <= i < |fragments|
        ensures Headed(s, fragments, i) && Payload(s, fragments, i) == Slice(text, size, i)
      {
        assert fragments[i] == Part(s, size, i);
      }
      var payloads :=
        seq(|fragments|, i requires 0 <= i < |fragments| && Headed(s, fragments, i) => Payload(s, fragments, i));
      assert payloads == Slices(text, size, |fragments|);
      SlicesRebuild(text, size, |fragments|);
    }
  }

  ghost predicate Bounded(fragments: seq<Fragment>, maxChars: nat) {
    forall i | 0 <= i < |fragments| :: |fragments[i].content| <= maxChars
  }

  lemma PartLimitDigits()
    ensures Pow10(16) == PART_LIMIT
  {
    assert Pow10(4) == 10_000;
    assert Pow10(8) == 100_000_000;
    assert Pow10(12) == 1_000_000_000_000;
  }

  lemma PartFits(s: Segment, maxChars: nat, i: nat)
    requires PayloadSize(s, maxChars) >= 1 && i < SliceCount(|Trim(s.content)|, PayloadSize(s, maxChars)) < PART_LIMIT
    ensures |Part(s, PayloadSize(s, maxChars), i).content| <= maxChars
  {
    var parts := SliceCount(|Trim(s.content)|, PayloadSize(s, maxChars));
    PartLimitDigits();
    DecimalLength(i + 1, 16);
    DecimalLength(parts, 16);
    SliceBounds(|Trim(s.content)|, PayloadSize(s, maxChars), i);
  }

  lemma {:induction false} PartsFit(s: Segment, maxChars: nat, n: nat)
    requires PayloadSize(s, maxChars) >= 1
    requires n <= SliceCount(|Trim(s.content)|, PayloadSize(s, maxChars)) < PART_LIMIT
    ensures Parts(s, maxChars, PayloadSize(s, maxChars), n).Success?
  {
    if n > 0 {
      PartsFit(s, maxChars, n - 1);
      PartFits(s, maxChars, n - 1);
    }
  }

  lemma {:induction false} SliceCountAtMost(length: nat, size: nat)
    requires size > 0
    ensures SliceCount(length, size) <= length
  {
    if length > size {
      SliceCountAtMost(length - size, size);
    }
  }

  /**
   Below 10^16 characters the refusal of an overlong fragment never happens: a segment is refused exactly
   when it does not fit whole and its header leaves no room for a payload.
   */
  lemma SegmentRefusedExactly(s: Segment, maxChars: nat)
    requires |Trim(s.content)| < PART_LIMIT
    ensures SegmentFragments(s, maxChars).Failure? <==> NoRoom(s, maxChars)
    ensures SegmentFragments(s, maxChars).Failure? ==> SegmentFragments(s, maxChars).error == HeaderTooLong
  {
    if !FitsWhole(s, maxChars) && PayloadSize(s, maxChars) >= 1 {
      SliceCountAtMost(|Trim(s.content)|, PayloadSize(s, maxChars));
      PartsFit(s, maxChars, SliceCount(|Trim(s.content)|, PayloadSize(s, maxChars)));
    }
  }

  lemma {:induction false} PartsBounded(s: Segment, maxChars: nat, size: nat, n: nat)
    requires size > 0 && n <= SliceCount(|Trim(s.content)|, size) && Parts(s, maxChars, size, n).Success?
    ensures Bounded(Parts(s, maxChars, size, n).value, maxChars)
  {
    if n > 0 {
      PartsBounded(s, maxChars, size, n - 1);
    }
  }

  // ---------------------------------------------------------------- packing fragments into chunks

  /** The contents of the fragments from `a` to `b`, joined by blank lines. */
  function Join(fragments: seq<Fragment>, a: nat, b: nat): string
    requires a <= b <= |fragments|
    decreases b
  {
    if a == b then ""
    else if a + 1 == b then fragments[a].content
    else Join(fragments, a, b - 1) + SEPARATOR + fragments[b - 1].content
  }

  function Ids(fragments: seq<Fragment>, a: nat, b: nat): seq<string>
    requires a <= b <= |fragments|
    decreases b
  {
    if a == b then []
    else
      Ids(fragments, a, b - 1)
      + (match fragments[b - 1].segmentId case None => [] case Some(id) => [id])
  }

  function JoinLength(fragments: seq<Fragment>, a: nat, b: nat): nat
    requires a <= b <= |fragments|
    decreases b
  {
    if a == b then 0
    else if a + 1 == b then |fragments[a].content|
    else JoinLength(fragments, a, b - 1) + |SEPARATOR| + |fragments[b - 1].content|
  }

  lemma {:induction false} JoinHasLength(fragments: seq<Fragment>, a: nat, b: nat)
    requires a <= b <= |fragments|
    ensures |Join(fragments, a, b)| == JoinLength(fragments, a, b)
  {
    if a + 1 < b {
      JoinHasLength(fragments, a, b - 1);
    }
  }

  predicate Fits(fragments: seq<Fragment>, a: nat, b: nat, maxChars: nat, maxSegments: nat) {
    a < b <= |fragments| && JoinLength(fragments, a, b) <= maxChars && b - a <= maxSegments
  }

  function EndOf(starts: seq<nat>, n: nat, i: nat): nat
    requires i < |starts|
  {
    if i + 1 < |starts| then starts[i + 1] else n
  }

  predicate GroupFits(fragments: seq<Fragment>, n: nat, starts: seq<nat>, i: nat, maxChars: nat, maxSegments: nat)
    requires i < |starts|
  {
    Fits(fragments, starts[i], EndOf(starts, n, i), maxChars, maxSegments)
  }

  /** A cut of the first `n` fragments, in order and without gaps, into groups that meet both bounds. */
  ghost predicate Partition(fragments: seq<Fragment>, n: nat, starts: seq<nat>, maxChars: nat, maxSegments: nat) {
    && n <= |fragments| && (starts == [] <==> n == 0) && (starts != [] ==> starts[0] == 0)
    && forall i | 0 <= i < |starts| :: GroupFits(fragments, n, starts, i, maxChars, maxSegments)
  }

  /** Where the groups of the greedy packing of the first `n` fragments start. */
  function Packed(fragments: seq<Fragment>, n: nat, maxChars: nat, maxSegments: nat): (r: Result<seq<nat>, ChunkError>)
    requires n <= |fragments|
    ensures r.Success? && n > 0 ==> r.value != [] && r.value[|r.value| - 1] < n
  {
    if n == 0 then Success([])
    else
      var before := Packed(fragments, n - 1, maxChars, maxSegments);
      if before.Failure? then before
      else
        var starts := if n == 1 || Full(fragments, before.value[|before.value| - 1], n, maxChars, maxSegments)
                      then before.value + [n - 1] else before.value;
        var start := starts[|starts| - 1];
        if JoinLength(fragments, start, n) > maxChars || n - start > maxSegments then Failure(BoundsUnsatisfied)
        else Success(starts)
  }

  /** The group from `start` cannot take the n-th fragment. */
  predicate Full(fragments: seq<Fragment>, start: nat, n: nat, maxChars: nat, maxSegments: nat)
    requires start < n <= |fragments|
  {
    JoinLength(fragments, start, n) > maxChars || n - 1 - start >= maxSegments
  }

  /** Dropping fragments from the front never lengthens the text. */
  lemma {:induction false} SuffixJoinsShorter(fragments: seq<Fragment>, a: nat, a': nat, b: nat)
    requires a <= a' <= b <= |fragments|
    ensures JoinLength(fragments, a', b) <= JoinLength(fragments, a, b)
  {
    if a' < b {
      SuffixJoinsShorter(fragments, a, a', b - 1);
    }
  }

  /** A fragment that fits by itself can always be packed: the bounds check cannot fail. */
  lemma {:induction false} PackedIsPartition(fragments: seq<Fragment>, n: nat, maxChars: nat, maxSegments: nat)
    requires n <= |fragments| && Bounded(fragments, maxChars) && maxSegments >= 1
    ensures var r := Packed(fragments, n, maxChars, maxSegments);
      r.Success? && Partition(fragments, n, r.value, maxChars, maxSegments)
  {
    if n > 0 {
      PackedIsPartition(fragments, n - 1, maxChars, maxSegments);
      var before, starts :=
        Packed(fragments, n - 1, maxChars, maxSegments).value, Packed(fragments, n, maxChars, maxSegments).value;
      forall i | 0 <= i < |starts| ensures GroupFits(fragments, n, starts, i, maxChars, maxSegments) {
        if i < |starts| - 1 {
          assert GroupFits(fragments, n - 1, before, i, maxChars, maxSegments);
        }
      }
    }
  }

  /** Forgetting the n-th fragment leaves a partition of the others. */
  function WithoutLast(starts: seq<nat>, n: nat): seq<nat>
    requires starts != []
  {
    if starts[|starts| - 1] == n - 1 then starts[..|starts| - 1] else starts
  }

  lemma WithoutLastPartitions(fragments: seq<Fragment>, n: nat, starts: seq<nat>, maxChars: nat, maxSegments: nat)
    requires n > 0 && Partition(fragments, n, starts, maxChars, maxSegments)
    ensures Partition(fragments, n - 1, WithoutLast(starts, n), maxChars, maxSegments)
  {
    var rest, m := WithoutLast(starts, n), n - 1;
    assert GroupFits(fragments, n, starts, |starts| - 1, maxChars, maxSegments);
    if |starts| > 1 {
      assert GroupFits(fragments, n, starts, |starts| - 2, maxChars, maxSegments);
    }
    forall i | 0 <= i < |rest| ensures GroupFits(fragments, m, rest, i, maxChars, maxSegments) {
      assert GroupFits(fragments, n, starts, i, maxChars, maxSegments);
    }
  }

  /** No partition has fewer groups than the packing; one with as many does not start its last group later. */
  lemma {:induction false} PackedIsMinimal(fragments: seq<Fragment>, n: nat, starts: seq<nat>, maxChars: nat,
                                           maxSegments: nat)
    requires 0 < n && Partition(fragments, n, starts, maxChars, maxSegments)
    requires Packed(fragments, n, maxChars, maxSegments).Success?
    ensures var packed := Packed(fragments, n, maxChars, maxSegments).value;
      && |packed| <= |starts|
      && (|packed| == |starts| ==> starts[|starts| - 1] <= packed[|packed| - 1])
  {
    var last := starts[|starts| - 1];
    assert GroupFits(fragments, n, starts, |starts| - 1, maxChars, maxSegments);
    if n > 1 {
      var before := Packed(fragments, n - 1, maxChars, maxSegments).value;
      WithoutLastPartitions(fragments, n, starts, maxChars, maxSegments);
      PackedIsMinimal(fragments, n - 1, WithoutLast(starts, n), maxChars, maxSegments);
      if last <= before[|before| - 1] {
        SuffixJoinsShorter(fragments, last, before[|before| - 1], n);
      }
    }
  }

  // ---------------------------------------------------------------- the chunks of one source

  function ChunkOf(fragments: seq<Fragment>, a: nat, b: nat): Chunk
    requires a <= b <= |fragments|
  {
    Chunk(Join(fragments, a, b), Ids(fragments, a, b), b - a)
  }

  predicate Increasing(starts: seq<nat>, n: nat) {
    && (forall i | 0 <= i < |starts| :: starts[i] <= n)
    && forall i, j | 0 <= i < j < |starts| :: starts[i] <= starts[j]
  }

  /** The i-th chunk is the text, the segment ids and the size of the i-th group. */
  function ChunksOf(fragments: seq<Fragment>, starts: seq<nat>): (r: seq<Chunk>)
    requires Increasing(starts, |fragments|)
    ensures |r| == |starts|
    ensures forall i | 0 <= i < |starts| :: r[i] == ChunkOf(fragments, starts[i], EndOf(starts, |fragments|, i))
  {
    seq(|starts|, i requires 0 <= i < |starts| => ChunkOf(fragments, starts[i], EndOf(starts, |fragments|, i)))
  }

  lemma {:induction false} PackedIncreases(fragments: seq<Fragment>, n: nat, maxChars: nat, maxSegments: nat)
    requires n <= |fragments| && Packed(fragments, n, maxChars, maxSegments).Success?
    ensures Increasing(Packed(fragments, n, maxChars, maxSegments).value, n)
  {
    if n > 0 {
      PackedIncreases(fragments, n - 1, maxChars, maxSegments);
    }
  }

  /** The fragments of the segments in order; without segments, plain slices of the text. */
  function AllFragments(segments: seq<Segment>, maxChars: nat): Result<seq<Fragment>, ChunkError> {
    if segments == [] then Success([])
    else
      var before := AllFragments(segments[..|segments| - 1], maxChars);
      if before.Failure? then before
      else
        var own := SegmentFragments(segments[|segments| - 1], maxChars);
        if own.Failure? then own else Success(before.value + own.value)
  }

  function PlainFragments(text: string, maxChars: nat, n: nat): (r: seq<Fragment>)
    requires maxChars > 0 && n <= SliceCount(|text|, maxChars)
    ensures |r| == n
  {
    seq(n, i requires 0 <= i < n => Fragment(Slice(text, maxChars, i), None))
  }

  function SourceFragments(segments: seq<Segment>, text: string, maxChars: nat): Result<seq<Fragment>, ChunkError>
    requires maxChars > 0
  {
    if segments != [] then AllFragments(segments, maxChars)
    else Success(PlainFragments(text, maxChars, SliceCount(|text|, maxChars)))
  }

  function Chunks(segments: seq<Segment>, text: string, maxChars: nat, maxSegments: nat): Result<seq<Chunk>, ChunkError>
    requires maxChars > 0
  {
    var fragments := SourceFragments(segments, text, maxChars);
    if fragments.Failure? then Failure(fragments.error)
    else if fragments.value == [] then Failure(NoFragments)
    else
      var starts := Packed(fragments.value, |fragments.value|, maxChars, maxSegments);
      if starts.Failure? then Failure(starts.error)
      else
        PackedIncreases(fragments.value, |fragments.value|, maxChars, maxSegments);
        Success(ChunksOf(fragments.value, starts.value))
  }

  lemma SegmentBounded(s: Segment, maxChars: nat)
    requires SegmentFragments(s, maxChars).Success?
    ensures Bounded(SegmentFragments(s, maxChars).value, maxChars)
  {
    if !FitsWhole(s, maxChars) {
      PartsBounded(s, maxChars, PayloadSize(s, maxChars), SliceCount(|Trim(s.content)|, PayloadSize(s, maxChars)));
    }
  }

  lemma {:induction false} SegmentsBounded(segments: seq<Segment>, maxChars: nat)
    requires AllFragments(segments, maxChars).Success?
    ensures Bounded(AllFragments(segments, maxChars).value, maxChars)
  {
    if segments != [] {
      SegmentsBounded(segments[..|segments| - 1], maxChars);
      SegmentBounded(segments[|segments| - 1], maxChars);
    }
  }

  lemma PlainBounded(text: string, maxChars: nat)
    requires maxChars > 0
    ensures Bounded(PlainFragments(text, maxChars, SliceCount(|text|, maxChars)), maxChars)
  {
    forall i | 0 <= i < SliceCount(|text|, maxChars) ensures |Slice(text, maxChars, i)| <= maxChars {
      SliceBounds(|text|, maxChars, i);
    }
  }

  lemma SourceBounded(segments: seq<Segment>, text: string, maxChars: nat)
    requires maxChars > 0 && SourceFragments(segments, text, maxChars).Success?
    ensures Bounded(SourceFragments(segments, text, maxChars).value, maxChars)
  {
    if segments != [] {
      SegmentsBounded(segments, maxChars);
    } else {
      PlainBounded(text, maxChars);
    }
  }

  /**
   Whenever the fragments can be made, chunking succeeds: the bounds check never fires. The chunks are the
   fragments in order, cut without loss into groups within both bounds, and no such cut has fewer chunks.
   */
  lemma ChunkingIsOptimal(segments: seq<Segment>, text: string, maxChars: nat, maxSegments: nat)
    requires maxChars >= MIN_MAX_CHARS && maxSegments >= 1
    requires SourceFragments(segments, text, maxChars).Success? && SourceFragments(segments, text, maxChars).value != []
    ensures Chunks(segments, text, maxChars, maxSegments).Success?
    ensures var fragments, chunks :=
      SourceFragments(segments, text, maxChars).value, Chunks(segments, text, maxChars, maxSegments).value;
      && (exists starts :: && Partition(fragments, |fragments|, starts, maxChars, maxSegments)
                           && Increasing(starts, |fragments|) && chunks == ChunksOf(fragments, starts))
      && (forall starts :: Partition(fragments, |fragments|, starts, maxChars, maxSegments) ==> |chunks| <= |starts|)
  {
    var fragments := SourceFragments(segments, text, maxChars).value;
    SourceBounded(segments, text, maxChars);
    PackedIsPartition(fragments, |fragments|, maxChars, maxSegments);
    PackedIncreases(fragments, |fragments|, maxChars, maxSegments);
    var packed := Packed(fragments, |fragments|, maxChars, maxSegments).value;
    assert Partition(fragments, |fragments|, packed, maxChars, maxSegments);
    forall starts | Partition(fragments, |fragments|, starts, maxChars, maxSegments) ensures |packed| <= |starts| {
      PackedIsMinimal(fragments, |fragments|, starts, maxChars, maxSegments);
    }
  }

  /** Chunking fails only for a header without room, an astronomically long part, or an empty source. */
  lemma ChunkingRefusedExactly(segments: seq<Segment>, text: string, maxChars: nat, maxSegments: nat)
    requires maxChars >= MIN_MAX_CHARS && maxSegments >= 1
    requires forall i | 0 <= i < |segments| :: |Trim(segments[i].content)| < PART_LIMIT
    ensures Chunks(segments, text, maxChars, maxSegments).Failure? <==>
      (segments == [] && text == "") || exists i | 0 <= i < |segments| :: NoRoom(segments[i], maxChars)
  {
    if segments != [] {
      SegmentsRefusedExactly(segments, maxChars);
      if AllFragments(segments, maxChars).Success? {
        SegmentsAreRendered(segments, maxChars);
      }
    }
    var fragments := SourceFragments(segments, text, maxChars);
    if fragments.Success? && fragments.value != [] {
      ChunkingIsOptimal(segments, text, maxChars, maxSegments);
    }
  }

  /** The segment does not fit whole, and its header leaves no room for a part. */
  predicate NoRoom(s: Segment, maxChars: nat) {
    !FitsWhole(s, maxChars) && |BaseHeader(s)| + HEADER_RESERVE >= maxChars
  }

  ghost predicate SomeWithoutRoom(segments: seq<Segment>, maxChars: nat) {
    exists i | 0 <= i < |segments| :: NoRoom(segments[i], maxChars)
  }

  lemma WithoutRoomLast(segments: seq<Segment>, maxChars: nat)
    requires segments != []
    ensures SomeWithoutRoom(segments, maxChars) <==>
      SomeWithoutRoom(segments[..|segments| - 1], maxChars) || NoRoom(segments[|segments| - 1], maxChars)
  {
    var front := segments[..|segments| - 1];
    forall i | 0 <= i < |front| ensures front[i] == segments[i] {
    }
    if SomeWithoutRoom(front, maxChars) {
      var i :| 0 <= i < |front| && NoRoom(front[i], maxChars);
      assert NoRoom(segments[i], maxChars);
    }
  }

  lemma {:induction false} SegmentsRefusedExactly(segments: seq<Segment>, maxChars: nat)
    requires forall i | 0 <= i < |segments| :: |Trim(segments[i].content)| < PART_LIMIT
    ensures AllFragments(segments, maxChars).Failure? <==> SomeWithoutRoom(segments, maxChars)
  {
    if segments != [] {
      SegmentsRefusedExactly(segments[..|segments| - 1], maxChars);
      SegmentRefusedExactly(segments[|segments| - 1], maxChars);
      WithoutRoomLast(segments, maxChars);
    }
  }

  /** Every rendered segment has a fragment. */
  lemma SegmentsAreRendered(segments: seq<Segment>, maxChars: nat)
    requires segments != [] && AllFragments(segments, maxChars).Success?
    requires |Trim(segments[|segments| - 1].content)| < PART_LIMIT
    ensures AllFragments(segments, maxChars).value != []
  {
    FragmentsRebuildSegment(segments[|segments| - 1], maxChars);
  }

  /** Without segments, the fragments are the text. */
  lemma PlainFragmentsRebuildText(text: string, maxChars: nat)
    requires maxChars > 0
    ensures var fragments := PlainFragments(text, maxChars, SliceCount(|text|, maxChars));
      Concat(seq(|fragments|, i requires 0 <= i < |fragments| => fragments[i].content)) == text
  {
    var n := SliceCount(|text|, maxChars);
    var fragments := PlainFragments(text, maxChars, n);
    assert seq(|fragments|, i requires 0 <= i < |fragments| => fragments[i].content) == Slices(text, maxChars, n);
    SlicesRebuild(text, maxChars, n);
  }

  // ---------------------------------------------------------------- the loops

  lemma {:induction false} SliceOfFragments(fragments: seq<Fragment>, a: nat, b: nat, k: nat)
    requires a <= a + k <= b <= |fragments|
    ensures Join(fragments[a..b], 0, k) == Join(fragments, a, a + k)
    ensures Ids(fragments[a..b], 0, k) == Ids(fragments, a, a + k)
  {
    if k > 0 {
      SliceOfFragments(fragments, a, b, k - 1);
    }
  }

  method CollectFragments(segments: seq<Segment>, text: string, maxChars: nat)
    returns (r: Result<seq<Fragment>, ChunkError>)
    requires maxChars > 0
    ensures r == SourceFragments(segments, text, maxChars)
  {
    var fragments: seq<Fragment> := [];
    if segments != [] {
      for k := 0 to |segments|
        invariant AllFragments(segments[..k], maxChars) == Success(fragments)
      {
        assert segments[..k + 1][..k] == segments[..k];
        var own := RenderSegmentFragments(segments[k], maxChars);
        if own.Failure? {
          RefusalSticks(segments, k + 1, maxChars);
          return own;
        }
        fragments := fragments + own.value;
      }
      assert segments[..|segments|] == segments;
    } else {
      var offset := 0;
      ghost var n := 0;
      while offset < |text|
        invariant n <= SliceCount(|text|, maxChars) && offset == Offset(n, maxChars)
        invariant n == SliceCount(|text|, maxChars) <==> |text| <= offset
        invariant fragments == PlainFragments(text, maxChars, n)
      {
        SliceBounds(|text|, maxChars, n);
        fragments := fragments + [Fragment(text[offset..Min(offset + maxChars, |text|)], None)];
        offset, n := offset + maxChars, n + 1;
      }
    }
    r := Success(fragments);
  }

  lemma {:induction false} RefusalSticks(segments: seq<Segment>, k: nat, maxChars: nat)
    requires k <= |segments| && AllFragments(segments[..k], maxChars).Failure?
    ensures AllFragments(segments, maxChars) == AllFragments(segments[..k], maxChars)
    decreases |segments|
  {
    if k < |segments| {
      var front := segments[..|segments| - 1];
      assert front[..k] == segments[..k];
      RefusalSticks(front, k, maxChars);
    } else {
      assert segments[..k] == segments;
    }
  }

  /** The chunks of all groups but the last. */
  function ClosedChunks(fragments: seq<Fragment>, starts: seq<nat>): (r: seq<Chunk>)
    requires Increasing(starts, |fragments|) && starts != []
    ensures |r| == |starts| - 1
  {
    seq(|starts| - 1, i requires 0 <= i < |starts| - 1 => ChunkOf(fragments, starts[i], starts[i + 1]))
  }

  /** The loop has closed all groups but the last, and is filling that one. */
  ghost predicate Filling(fragments: seq<Fragment>, n: nat, starts: seq<nat>, grouped: seq<Chunk>,
                          current: seq<Fragment>) {
    && 0 < n <= |fragments| && starts != [] && starts[|starts| - 1] < n && Increasing(starts, n)
    && Increasing(starts, |fragments|)
    && current == fragments[starts[|starts| - 1]..n]
    && grouped == ClosedChunks(fragments, starts)
  }

  lemma FillingText(fragments: seq<Fragment>, n: nat, starts: seq<nat>, grouped: seq<Chunk>, current: seq<Fragment>)
    requires Filling(fragments, n, starts, grouped, current)
    ensures current != []
    ensures |Join(current, 0, |current|)| == JoinLength(fragments, starts[|starts| - 1], n)
    ensures ChunkOf(current, 0, |current|) == ChunkOf(fragments, starts[|starts| - 1], n)
  {
    SliceOfFragments(fragments, starts[|starts| - 1], n, |current|);
    JoinHasLength(fragments, starts[|starts| - 1], n);
  }

  lemma KeepsFilling(fragments: seq<Fragment>, n: nat, starts: seq<nat>, grouped: seq<Chunk>, current: seq<Fragment>)
    requires Filling(fragments, n, starts, grouped, current) && n < |fragments|
    ensures Filling(fragments, n + 1, starts, grouped, current + [fragments[n]])
  {
  }

  lemma FlushesAndFills(fragments: seq<Fragment>, n: nat, starts: seq<nat>, grouped: seq<Chunk>, current: seq<Fragment>)
    requires Filling(fragments, n, starts, grouped, current) && n < |fragments|
    ensures Filling(fragments, n + 1, starts + [n], grouped + [ChunkOf(current, 0, |current|)], [fragments[n]])
  {
    FillingText(fragments, n, starts, grouped, current);
  }

  /** The next fragment joins the group unless that is full; then the bounds are checked. */
  lemma PackedStep(fragments: seq<Fragment>, n: nat, starts: seq<nat>, starts': seq<nat>, maxChars: nat,
                   maxSegments: nat)
    requires n < |fragments| && Packed(fragments, n, maxChars, maxSegments) == Success(starts)
    requires starts' ==
      if n == 0 || Full(fragments, starts[|starts| - 1], n + 1, maxChars, maxSegments) then starts + [n] else starts
    ensures starts' != [] && starts'[|starts'| - 1] <= n
    ensures Packed(fragments, n + 1, maxChars, maxSegments) ==
      var start := starts'[|starts'| - 1];
      if JoinLength(fragments, start, n + 1) > maxChars || n + 1 - start > maxSegments then Failure(BoundsUnsatisfied)
      else Success(starts')
  {
  }

  lemma CandidateLength(fragments: seq<Fragment>, n: nat, starts: seq<nat>, grouped: seq<Chunk>, current: seq<Fragment>)
    requires Filling(fragments, n, starts, grouped, current) && n < |fragments|
    ensures |Join(current, 0, |current|) + SEPARATOR + fragments[n].content| ==
      JoinLength(fragments, starts[|starts| - 1], n + 1)
  {
    FillingText(fragments, n, starts, grouped, current);
  }

  lemma {:induction false} PackingSticks(fragments: seq<Fragment>, n: nat, m: nat, maxChars: nat, maxSegments: nat)
    requires n <= m <= |fragments| && Packed(fragments, n, maxChars, maxSegments).Failure?
    ensures Packed(fragments, m, maxChars, maxSegments) == Failure(BoundsUnsatisfied)
    decreases m
  {
    if n < m {
      PackingSticks(fragments, n, m - 1, maxChars, maxSegments);
    } else if n > 0 && Packed(fragments, n - 1, maxChars, maxSegments).Failure? {
      PackingSticks(fragments, n - 1, n - 1, maxChars, maxSegments);
    }
  }

  /** The state of the loop over the first `n` fragments. */
  ghost predicate Grouping(fragments: seq<Fragment>, n: nat, starts: seq<nat>, grouped: seq<Chunk>,
                           current: seq<Fragment>) {
    if n == 0 then starts == [] && grouped == [] && current == [] else Filling(fragments, n, starts, grouped, current)
  }

  /** Takes the next fragment, closing the group first when the fragment would break a bound. */
  method TakeFragment(fragments: seq<Fragment>, n: nat, ghost starts: seq<nat>, grouped: seq<Chunk>,
                      current: seq<Fragment>, maxChars: nat, maxSegments: nat)
    returns (grouped': seq<Chunk>, current': seq<Fragment>, ghost starts': seq<nat>)
    requires n < |fragments| && Grouping(fragments, n, starts, grouped, current)
    ensures Filling(fragments, n + 1, starts', grouped', current')
    ensures starts' ==
      if n == 0 || Full(fragments, starts[|starts| - 1], n + 1, maxChars, maxSegments) then starts + [n] else starts
  {
    if n > 0 {
      CandidateLength(fragments, n, starts, grouped, current);
      FillingText(fragments, n, starts, grouped, current);
      KeepsFilling(fragments, n, starts, grouped, current);
      FlushesAndFills(fragments, n, starts, grouped, current);
    }
    var candidate := if current == [] then fragments[n].content
                     else Join(current, 0, |current|) + SEPARATOR + fragments[n].content;
    if current != [] && (|candidate| > maxChars || |current| >= maxSegments) {
      grouped', current', starts' := grouped + [ChunkOf(current, 0, |current|)], [], starts + [n];
    } else {
      grouped', current', starts' := grouped, current, if n == 0 then [0] else starts;
    }
    current' := current' + [fragments[n]];
  }

  /** Greedy grouping: flush when the next fragment would break a bound. */
  method PackFragments(fragments: seq<Fragment>, maxChars: nat, maxSegments: nat)
    returns (r: Result<seq<Chunk>, ChunkError>)
    requires fragments != []
    ensures r.Success? == Packed(fragments, |fragments|, maxChars, maxSegments).Success?
    ensures r.Failure? ==> r.error == BoundsUnsatisfied
    ensures r.Success? ==>
      && Increasing(Packed(fragments, |fragments|, maxChars, maxSegments).value, |fragments|)
      && r.value == ChunksOf(fragments, Packed(fragments, |fragments|, maxChars, maxSegments).value)
  {
    var grouped: seq<Chunk>, current: seq<Fragment> := [], [];
    ghost var starts: seq<nat> := [];
    for n := 0 to |fragments|
      invariant Packed(fragments, n, maxChars, maxSegments) == Success(starts)
      invariant Grouping(fragments, n, starts, grouped, current)
    {
      ghost var before := starts;
      grouped, current, starts := TakeFragment(fragments, n, starts, grouped, current, maxChars, maxSegments);
      PackedStep(fragments, n, before, starts, maxChars, maxSegments);
      FillingText(fragments, n + 1, starts, grouped, current);
      if |Join(current, 0, |current|)| > maxChars || |current| > maxSegments {
        PackingSticks(fragments, n + 1, |fragments|, maxChars, maxSegments);
        return Failure(BoundsUnsatisfied);
      }
    }
    LastGroupClosed(fragments, starts, grouped, current);
    r := Success(grouped + [ChunkOf(current, 0, |current|)]);
  }

  lemma LastGroupClosed(fragments: seq<Fragment>, starts: seq<nat>, grouped: seq<Chunk>, current: seq<Fragment>)
    requires Filling(fragments, |fragments|, starts, grouped, current)
    ensures grouped + [ChunkOf(current, 0, |current|)] == ChunksOf(fragments, starts)
  {
    FillingText(fragments, |fragments|, starts, grouped, current);
  }

  /** The chunks of a source, each with its fingerprint. */
  function Fingerprinted(chunks: seq<Chunk>): (r: seq<EvidenceChunk>)
    ensures |r| == |chunks|
  {
    seq(|chunks|, i requires 0 <= i < |chunks| => EvidenceChunk(chunks[i], Fingerprint(i, chunks[i])))
  }

  ghost predicate Has(chunks: seq<EvidenceChunk>, x: Fingerprint) {
    exists i :: 0 <= i < |chunks| && chunks[i].fingerprint == x
  }

  /** The set of fingerprints alone tells the whole list of chunks, order and number included. */
  lemma FingerprintsTellChunks(a: seq<Chunk>, b: seq<Chunk>)
    requires forall x :: Has(Fingerprinted(a), x) ==> Has(Fingerprinted(b), x)
    requires forall x :: Has(Fingerprinted(b), x) ==> Has(Fingerprinted(a), x)
    ensures a == b
  {
    FingerprintsFound(a, b);
    FingerprintsFound(b, a);
  }

  lemma FingerprintsFound(a: seq<Chunk>, b: seq<Chunk>)
    requires forall x :: Has(Fingerprinted(a), x) ==> Has(Fingerprinted(b), x)
    ensures a <= b
  {
    forall i | 0 <= i < |a| ensures i < |b| && b[i] == a[i] {
      assert Fingerprinted(a)[i].fingerprint == Fingerprint(i, a[i]);
      assert Has(Fingerprinted(b), Fingerprint(i, a[i]));
    }
    if a != [] {
      var last := a[|a| - 1];
      assert |a| - 1 < |b|;
    }
  }

  method FullSourceEvidenceChunks(segments: seq<Segment>, text: string, maxChars: nat, maxSegments: nat)
    returns (r: Result<seq<EvidenceChunk>, ChunkError>)
    requires maxChars >= MIN_MAX_CHARS && maxSegments >= 1
    ensures r.Success? <==> Chunks(segments, text, maxChars, maxSegments).Success?
    ensures r.Success? ==> r.value == Fingerprinted(Chunks(segments, text, maxChars, maxSegments).value)
    ensures r.Failure? ==> r.error == Chunks(segments, text, maxChars, maxSegments).error
  {
    var fragments := CollectFragments(segments, text, maxChars);
    if fragments.Failure? {
      return Failure(fragments.error);
    }
    if fragments.value == [] {
      return Failure(NoFragments);
    }
    var grouped := PackFragments(fragments.value, maxChars, maxSegments);
    SourceBounded(segments, text, maxChars);
    PackedIsPartition(fragments.value, |fragments.value|, maxChars, maxSegments);
    r := Success(Fingerprinted(grouped.value));
  }
}
