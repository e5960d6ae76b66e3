/** Merging a newly visible message list into the captured one, around their unique alignment. */
module VisibleContext {
  import opened Prelude
  import opened Subsequences
  import opened Alignment
  import opened Supersequences

  datatype Captured = Captured(id: string, role: Role, text: string, createdAt: Option<string>)

  datatype Direction = Initial | Before | After

  /** The derived id of a new message: direction, anchor id, offset in the gap, message. */
  type Mint = (Direction, string, nat, Message) -> string

  datatype MergeError = InvalidMessages | AmbiguousOverlap | NoSafeMerge | Interleaved

  const MAX_MESSAGES := 512
  const MAX_MESSAGE_BYTES := 64 * 1024
  const MAX_TOTAL_TEXT_BYTES := 768 * 1024

  function VisibleOf(c: Captured): Message { Message(c.role, c.text) }

  function Visible(cs: seq<Captured>): (r: seq<Message>)
    ensures |r| == |cs| && forall i | 0 <= i < |cs| :: r[i] == VisibleOf(cs[i])
  {
    Map(VisibleOf, cs)
  }

  // ---------------------------------------------------------------- message limits

  function TotalBytes(ms: seq<Message>): nat {
    if ms == [] then 0 else TotalBytes(ms[..|ms| - 1]) + Utf8Bytes(ms[|ms| - 1].text)
  }

  predicate ValidMessage(m: Message) {
    (m.role == User || m.role == Assistant) && !IsBlank(m.text) && Utf8Bytes(m.text) <= MAX_MESSAGE_BYTES
  }

  predicate ValidSet(ms: seq<Message>) {
    && 1 <= |ms| <= MAX_MESSAGES
    && (forall i | 0 <= i < |ms| :: ValidMessage(ms[i]))
    && TotalBytes(ms) <= MAX_TOTAL_TEXT_BYTES
  }

  lemma {:induction false} PrefixBytes(ms: seq<Message>, k: nat)
    requires k <= |ms|
    ensures TotalBytes(ms[..k]) <= TotalBytes(ms)
    decreases |ms|
  {
    if k < |ms| {
      PrefixBytes(ms[..|ms| - 1], k);
      assert ms[..|ms| - 1][..k] == ms[..k];
    } else {
      assert ms[..k] == ms;
    }
  }

  /** The running total of the loop throws exactly when the whole set is over the limit. */
  method ValidateMessageSet(messages: seq<Message>) returns (ok: bool)
    ensures ok == ValidSet(messages)
  {
    if |messages| < 1 || |messages| > MAX_MESSAGES {
      return false;
    }
    var totalTextBytes := 0;
    for index := 0 to |messages|
      invariant totalTextBytes == TotalBytes(messages[..index]) <= MAX_TOTAL_TEXT_BYTES
      invariant forall i | 0 <= i < index :: ValidMessage(messages[i])
    {
      if !ValidMessage(messages[index]) {
        return false;
      }
      totalTextBytes := totalTextBytes + Utf8Bytes(messages[index].text);
      assert messages[..index + 1][..index] == messages[..index];
      if totalTextBytes > MAX_TOTAL_TEXT_BYTES {
        PrefixBytes(messages, index + 1);
        return false;
      }
    }
    assert messages[..|messages|] == messages;
    return true;
  }

  // ---------------------------------------------------------------- boundary offsets

  /** Placing `incoming[0]` at prior coordinate `offset`, the overlapping stretch matches exactly. */
  predicate LegalOffset(prior: seq<Message>, incoming: seq<Message>, offset: int) {
    && Max(0, offset) < Min(|prior|, offset + |incoming|)
    && forall c | Max(0, offset) <= c < Min(|prior|, offset + |incoming|) :: prior[c] == incoming[c - offset]
  }

  /** Legal offsets below `hi`, ascending. */
  function OffsetsBelow(prior: seq<Message>, incoming: seq<Message>, hi: int): seq<int>
    decreases hi + |incoming|
  {
    if hi <= 1 - |incoming| then []
    else OffsetsBelow(prior, incoming, hi - 1) + (if LegalOffset(prior, incoming, hi - 1) then [hi - 1] else [])
  }

  function LegalOffsets(prior: seq<Message>, incoming: seq<Message>): seq<int> {
    OffsetsBelow(prior, incoming, |prior|)
  }

  predicate ExtendsBoundary(prior: seq<Message>, incoming: seq<Message>, offset: int) {
    offset < 0 || offset + |incoming| > |prior|
  }

  ghost predicate Rising(os: seq<int>) {
    forall i, j | 0 <= i < j < |os| :: os[i] < os[j]
  }

  lemma {:induction false} OffsetsAre(prior: seq<Message>, incoming: seq<Message>, hi: int)
    requires hi <= |prior|
    ensures forall o :: o in OffsetsBelow(prior, incoming, hi) <==> o < hi && LegalOffset(prior, incoming, o)
    ensures Rising(OffsetsBelow(prior, incoming, hi))
    decreases hi + |incoming|
  {
    if hi > 1 - |incoming| {
      OffsetsAre(prior, incoming, hi - 1);
      var os := OffsetsBelow(prior, incoming, hi - 1);
      forall i | 0 <= i < |os| ensures os[i] < hi - 1 {
        assert os[i] in os;
      }
      assert OffsetsBelow(prior, incoming, hi) == os || OffsetsBelow(prior, incoming, hi) == os + [hi - 1];
    }
  }

  method LegalAlignmentOffsets(prior: seq<Message>, incoming: seq<Message>) returns (offsets: seq<int>)
    ensures offsets == LegalOffsets(prior, incoming)
  {
    offsets := [];
    var offset := 1 - |incoming|;
    if offset > |prior| {
      return;
    }
    while offset <= |prior| - 1
      invariant 1 - |incoming| <= offset <= |prior|
      invariant offsets == OffsetsBelow(prior, incoming, offset)
    {
      var overlapStart := Max(0, offset);
      var overlapEnd := Min(|prior|, offset + |incoming|);
      if overlapStart < overlapEnd {
        var matches := true;
        var coordinate := overlapStart;
        while coordinate < overlapEnd && matches
          invariant overlapStart <= coordinate <= overlapEnd
          invariant matches ==> forall c | overlapStart <= c < coordinate :: prior[c] == incoming[c - offset]
          invariant !matches ==> exists c | overlapStart <= c < overlapEnd :: prior[c] != incoming[c - offset]
          decreases overlapEnd - coordinate, matches
        {
          if prior[coordinate] != incoming[coordinate - offset] {
            matches := false;
          } else {
            coordinate := coordinate + 1;
          }
        }
        if matches {
          offsets := offsets + [offset];
        }
      }
      offset := offset + 1;
    }
  }

  // ---------------------------------------------------------------- the merge

  function Minted(mint: Mint, ms: seq<Message>, direction: Direction, anchor: string): (r: seq<Captured>)
    ensures |r| == |ms| && Visible(r) == ms
  {
    var minted := seq(|ms|, i requires 0 <= i < |ms| =>
      Captured(mint(direction, anchor, i, ms[i]), ms[i].role, ms[i].text, None));
    assert forall i | 0 <= i < |ms| :: VisibleOf(minted[i]) == ms[i];
    minted
  }

  /** What the gap before (or after) a matched message contributes: one side only, or nothing. */
  function Gap(mint: Mint, priorGap: seq<Captured>, incomingGap: seq<Message>, direction: Direction, anchor: string)
    : Result<seq<Captured>, MergeError>
  {
    if priorGap != [] && incomingGap != [] then Failure(Interleaved)
    else Success(priorGap + Minted(mint, incomingGap, direction, anchor))
  }

  /** The two cursors before the k-th matched pair. */
  function PriorCursor(pairs: seq<Pair>, k: nat): nat
    requires k <= |pairs|
  {
    if k == 0 then 0 else pairs[k - 1].0 + 1
  }

  function IncomingCursor(pairs: seq<Pair>, k: nat): nat
    requires k <= |pairs|
  {
    if k == 0 then 0 else pairs[k - 1].1 + 1
  }

  ghost predicate Weavable(prior: seq<Captured>, incoming: seq<Message>, pairs: seq<Pair>) {
    pairs != [] && IsPairing(Visible(prior), incoming, pairs)
  }

  lemma CursorsInOrder(prior: seq<Captured>, incoming: seq<Message>, pairs: seq<Pair>, k: nat)
    requires Weavable(prior, incoming, pairs) && k <= |pairs|
    ensures PriorCursor(pairs, k) <= (if k < |pairs| then pairs[k].0 else |prior|)
    ensures IncomingCursor(pairs, k) <= (if k < |pairs| then pairs[k].1 else |incoming|)
    ensures k < |pairs| ==> pairs[k].0 < |prior| && pairs[k].1 < |incoming|
    ensures k < |pairs| ==> VisibleOf(prior[pairs[k].0]) == incoming[pairs[k].1]
  {
  }

  /** What is pushed before the k-th matched message (k < |pairs|), or as the tail (k == |pairs|). */
  function GapAt(mint: Mint, prior: seq<Captured>, incoming: seq<Message>, pairs: seq<Pair>, k: nat)
    : Result<seq<Captured>, MergeError>
    requires Weavable(prior, incoming, pairs) && k <= |pairs|
  {
    CursorsInOrder(prior, incoming, pairs, k);
    var pc, ic := PriorCursor(pairs, k), IncomingCursor(pairs, k);
    if k == |pairs| then Gap(mint, prior[pc..], incoming[ic..], After, prior[pairs[k - 1].0].id)
    else Gap(mint, prior[pc..pairs[k].0], incoming[ic..pairs[k].1], Before, prior[pairs[k].0].id)
  }

  /** The merged list from the gap before the k-th matched pair on. */
  function Weave(mint: Mint, prior: seq<Captured>, incoming: seq<Message>, pairs: seq<Pair>, k: nat)
    : Result<seq<Captured>, MergeError>
    requires Weavable(prior, incoming, pairs) && k <= |pairs|
    decreases |pairs| - k
  {
    var gap := GapAt(mint, prior, incoming, pairs, k);
    if k == |pairs| || gap.Failure? then gap
    else
      var rest := Weave(mint, prior, incoming, pairs, k + 1);
      if rest.Failure? then rest
      else Success(gap.value + [prior[pairs[k].0]] + rest.value)
  }

  function Merge(mint: Mint, priorCaptured: seq<Captured>, incoming: seq<Message>): Result<seq<Captured>, MergeError> {
    if priorCaptured == [] then
      if ValidSet(incoming) then Success(Minted(mint, incoming, Initial, "root")) else Failure(InvalidMessages)
    else
      var prior := Visible(priorCaptured);
      var offsets := LegalOffsets(prior, incoming);
      if !ValidSet(prior) || !ValidSet(incoming) then Failure(InvalidMessages)
      else if prior == incoming then Success(priorCaptured)
      else if |offsets| > 1 then Failure(AmbiguousOverlap)
      else
        AlignGivesPairing(prior, incoming);
        match Align(prior, incoming)
        case NoOverlap => Failure(NoSafeMerge)
        case Ambiguous => Failure(AmbiguousOverlap)
        case Unique(pairs) =>
          if |pairs| == |incoming| then
            if exists o | o in offsets :: ExtendsBoundary(prior, incoming, o) then Failure(AmbiguousOverlap)
            else Success(priorCaptured)
          else
            var merged := Weave(mint, priorCaptured, incoming, pairs, 0);
            if merged.Success? && !ValidSet(Visible(merged.value)) then Failure(InvalidMessages) else merged
  }

  function Prepend(front: seq<Captured>, r: Result<seq<Captured>, MergeError>): Result<seq<Captured>, MergeError> {
    if r.Success? then Success(front + r.value) else r
  }

  lemma CursorsMove(pairs: seq<Pair>, k: nat)
    requires k < |pairs|
    ensures PriorCursor(pairs, k + 1) == pairs[k].0 + 1 && IncomingCursor(pairs, k + 1) == pairs[k].1 + 1
  {
  }

  /** A gap that both sides fill refuses the rest. */
  lemma Interleaves(mint: Mint, prior: seq<Captured>, incoming: seq<Message>, pairs: seq<Pair>, k: nat)
    requires Weavable(prior, incoming, pairs) && k <= |pairs|
    requires GapAt(mint, prior, incoming, pairs, k) == Failure(Interleaved)
    ensures Weave(mint, prior, incoming, pairs, k) == Failure(Interleaved)
  {
  }

  /** The loop over matched pairs, with its two cursors and the pushed list. */
  method WeaveAround(mint: Mint, priorCaptured: seq<Captured>, incoming: seq<Message>, pairs: seq<Pair>)
    returns (r: Result<seq<Captured>, MergeError>)
    requires Weavable(priorCaptured, incoming, pairs)
    ensures r == Weave(mint, priorCaptured, incoming, pairs, 0)
  {
    var merged: seq<Captured> := [];
    var priorCursor, incomingCursor := 0, 0;
    ghost var whole := Weave(mint, priorCaptured, incoming, pairs, 0);
    assert whole.Success? ==> merged + whole.value == whole.value;
    for k := 0 to |pairs|
      invariant priorCursor == PriorCursor(pairs, k) && incomingCursor == IncomingCursor(pairs, k)
      invariant whole == Prepend(merged, Weave(mint, priorCaptured, incoming, pairs, k))
    {
      CursorsInOrder(priorCaptured, incoming, pairs, k);
      var (priorIndex, incomingIndex) := pairs[k];
      var priorGap := priorCaptured[priorCursor..priorIndex];
      var incomingGap := incoming[incomingCursor..incomingIndex];
      if |priorGap| > 0 && |incomingGap| > 0 {
        Interleaves(mint, priorCaptured, incoming, pairs, k);
        return Failure(Interleaved);
      }
      var minted := Minted(mint, incomingGap, Before, priorCaptured[priorIndex].id);
      ghost var before := merged;
      merged := merged + priorGap;
      merged := merged + minted;
      merged := merged + [priorCaptured[priorIndex]];
      PushedGap(mint, priorCaptured, incoming, pairs, k, before, priorGap, minted);
      CursorsMove(pairs, k);
      priorCursor, incomingCursor := priorIndex + 1, incomingIndex + 1;
    }
    r := PushTail(mint, priorCaptured, incoming, pairs, merged, priorCursor, incomingCursor);
  }

  /** What follows the last matched pair. */
  method PushTail(mint: Mint, priorCaptured: seq<Captured>, incoming: seq<Message>, pairs: seq<Pair>,
                  merged: seq<Captured>, priorCursor: nat, incomingCursor: nat)
    returns (r: Result<seq<Captured>, MergeError>)
    requires Weavable(priorCaptured, incoming, pairs)
    requires priorCursor == PriorCursor(pairs, |pairs|) && incomingCursor == IncomingCursor(pairs, |pairs|)
    ensures r == Prepend(merged, Weave(mint, priorCaptured, incoming, pairs, |pairs|))
  {
    CursorsInOrder(priorCaptured, incoming, pairs, |pairs|);
    var priorTail, incomingTail := priorCaptured[priorCursor..], incoming[incomingCursor..];
    if |priorTail| > 0 && |incomingTail| > 0 {
      Interleaves(mint, priorCaptured, incoming, pairs, |pairs|);
      return Failure(Interleaved);
    }
    var anchor := pairs[|pairs| - 1];
    r := Success(merged + (priorTail + Minted(mint, incomingTail, After, priorCaptured[anchor.0].id)));
  }

  lemma PushedGap(mint: Mint, prior: seq<Captured>, incoming: seq<Message>, pairs: seq<Pair>, k: nat,
                  merged: seq<Captured>, priorGap: seq<Captured>, minted: seq<Captured>)
    requires Weavable(prior, incoming, pairs) && k < |pairs| && pairs[k].0 < |prior|
    requires GapAt(mint, prior, incoming, pairs, k) == Success(priorGap + minted)
    ensures Prepend(merged, Weave(mint, prior, incoming, pairs, k)) ==
      Prepend(merged + priorGap + minted + [prior[pairs[k].0]], Weave(mint, prior, incoming, pairs, k + 1))
  {
    var rest := Weave(mint, prior, incoming, pairs, k + 1);
    if rest.Success? {
      assert merged + (priorGap + minted + [prior[pairs[k].0]] + rest.value)
        == merged + priorGap + minted + [prior[pairs[k].0]] + rest.value;
    }
  }

  method MergeVisibleContext(mint: Mint, priorCaptured: seq<Captured>, incoming: seq<Message>)
    returns (r: Result<seq<Captured>, MergeError>)
    ensures r == Merge(mint, priorCaptured, incoming)
  {
    var incomingValid := ValidateMessageSet(incoming);
    if |priorCaptured| == 0 {
      return if incomingValid then Success(Minted(mint, incoming, Initial, "root")) else Failure(InvalidMessages);
    }
    var prior := Visible(priorCaptured);
    var priorValid := ValidateMessageSet(prior);
    if !priorValid || !incomingValid {
      return Failure(InvalidMessages);
    }
    if prior == incoming {
      return Success(priorCaptured);
    }
    var boundaryOffsets := LegalAlignmentOffsets(prior, incoming);
    if |boundaryOffsets| > 1 {
      return Failure(AmbiguousOverlap);
    }
    var alignment := UniqueOrderedAlignment(prior, incoming);
    AlignGivesPairing(prior, incoming);
    match alignment
    case NoOverlap => return Failure(NoSafeMerge);
    case Ambiguous => return Failure(AmbiguousOverlap);
    case Unique(pairs) =>
      if |pairs| == |incoming| {
        if exists o | o in boundaryOffsets :: ExtendsBoundary(prior, incoming, o) {
          return Failure(AmbiguousOverlap);
        }
        return Success(priorCaptured);
      }
      r := WeaveAround(mint, priorCaptured, incoming, pairs);
      if r.Success? {
        var mergedValid := ValidateMessageSet(Visible(r.value));
        if !mergedValid {
          r := Failure(InvalidMessages);
        }
      }
  }

  // ---------------------------------------------------------------- what a merge returns

  ghost predicate Keeps(prior: seq<Captured>, incoming: seq<Message>, shared: nat, w: seq<Captured>) {
    Subsequence(prior, w) && Subsequence(incoming, Visible(w)) && |w| == |prior| + |incoming| - shared
  }

  lemma GapKeeps(mint: Mint, priorGap: seq<Captured>, incomingGap: seq<Message>, direction: Direction, anchor: string)
    requires Gap(mint, priorGap, incomingGap, direction, anchor).Success?
    ensures Keeps(priorGap, incomingGap, 0, Gap(mint, priorGap, incomingGap, direction, anchor).value)
  {
    var minted := Minted(mint, incomingGap, direction, anchor);
    if priorGap == [] {
      assert priorGap + minted == minted;
      SubsequenceEmpty(minted);
      SubsequenceSelf(incomingGap);
    } else {
      assert priorGap + minted == priorGap;
      SubsequenceSelf(priorGap);
      SubsequenceEmpty(Visible(priorGap));
    }
  }

  lemma KeepsAround(priorGap: seq<Captured>, incomingGap: seq<Message>, gap: seq<Captured>, shared: Captured,
                    priorRest: seq<Captured>, incomingRest: seq<Message>, rest: seq<Captured>, sharedRest: nat)
    requires Keeps(priorGap, incomingGap, 0, gap) && Keeps(priorRest, incomingRest, sharedRest, rest)
    ensures Keeps(priorGap + [shared] + priorRest, incomingGap + [VisibleOf(shared)] + incomingRest, sharedRest + 1,
      gap + [shared] + rest)
  {
    SubsequenceAround(priorGap, gap, [shared], priorRest, rest);
    SubsequenceAround(incomingGap, Visible(gap), [VisibleOf(shared)], incomingRest, Visible(rest));
    assert Visible(gap + [shared] + rest) == Visible(gap) + [VisibleOf(shared)] + Visible(rest);
  }

  ghost predicate WeaveKeeps(prior: seq<Captured>, incoming: seq<Message>, pairs: seq<Pair>, k: nat, w: seq<Captured>)
    requires k <= |pairs|
  {
    && PriorCursor(pairs, k) <= |prior| && IncomingCursor(pairs, k) <= |incoming|
    && Keeps(prior[PriorCursor(pairs, k)..], incoming[IncomingCursor(pairs, k)..], |pairs| - k, w)
  }

  lemma WeaveTail(mint: Mint, prior: seq<Captured>, incoming: seq<Message>, pairs: seq<Pair>, w: seq<Captured>)
    requires Weavable(prior, incoming, pairs)
    requires Weave(mint, prior, incoming, pairs, |pairs|) == Success(w)
    ensures WeaveKeeps(prior, incoming, pairs, |pairs|, w)
  {
    var k := |pairs|;
    CursorsInOrder(prior, incoming, pairs, k);
    GapKeeps(mint, prior[PriorCursor(pairs, k)..], incoming[IncomingCursor(pairs, k)..], After,
             prior[pairs[k - 1].0].id);
  }

  lemma WeaveStep(mint: Mint, prior: seq<Captured>, incoming: seq<Message>, pairs: seq<Pair>, k: nat,
                  gap: seq<Captured>, rest: seq<Captured>)
    requires Weavable(prior, incoming, pairs) && k < |pairs|
    requires GapAt(mint, prior, incoming, pairs, k) == Success(gap)
    requires WeaveKeeps(prior, incoming, pairs, k + 1, rest)
    ensures pairs[k].0 < |prior| && WeaveKeeps(prior, incoming, pairs, k, gap + [prior[pairs[k].0]] + rest)
  {
    CursorsInOrder(prior, incoming, pairs, k);
    var pc, ic := PriorCursor(pairs, k), IncomingCursor(pairs, k);
    var (pi, ii) := pairs[k];
    SplitThree(prior, pc, pi);
    SplitThree(incoming, ic, ii);
    GapKeeps(mint, prior[pc..pi], incoming[ic..ii], Before, prior[pi].id);
    KeepsAround(prior[pc..pi], incoming[ic..ii], gap, prior[pi], prior[pi + 1..], incoming[ii + 1..], rest,
                |pairs| - (k + 1));
  }

  lemma {:induction false} WeaveKeepsBoth(mint: Mint, prior: seq<Captured>, incoming: seq<Message>, pairs: seq<Pair>,
                                          k: nat, w: seq<Captured>)
    requires Weavable(prior, incoming, pairs) && k <= |pairs|
    requires Weave(mint, prior, incoming, pairs, k) == Success(w)
    ensures WeaveKeeps(prior, incoming, pairs, k, w)
    decreases |pairs| - k
  {
    if k == |pairs| {
      WeaveTail(mint, prior, incoming, pairs, w);
    } else {
      var rest := Weave(mint, prior, incoming, pairs, k + 1).value;
      WeaveKeepsBoth(mint, prior, incoming, pairs, k + 1, rest);
      WeaveStep(mint, prior, incoming, pairs, k, GapAt(mint, prior, incoming, pairs, k).value, rest);
    }
  }

  lemma MergeKeeps(mint: Mint, prior: seq<Captured>, incoming: seq<Message>, merged: seq<Captured>)
    requires Merge(mint, prior, incoming) == Success(merged)
    ensures Keeps(prior, incoming, Lcs(Visible(prior), incoming), merged) && ValidSet(Visible(merged))
  {
    var visible := Visible(prior);
    if prior == [] {
      SubsequenceEmpty(merged);
      SubsequenceSelf(incoming);
    } else if visible == incoming {
      SubsequenceSelf(prior);
      SubsequenceSelf(incoming);
      var g :| Embeds(g, incoming, incoming);
      EmbeddingIsPairing(visible, incoming, g);
    } else {
      AlignGivesPairing(visible, incoming);
      AlignExact(visible, incoming);
      var pairs := Align(visible, incoming).pairs;
      MaximumPairingLength(visible, incoming, pairs);
      if |pairs| == |incoming| {
        SubsequenceSelf(prior);
        var g := FullPairingEmbeds(visible, incoming, pairs);
      } else {
        assert prior[0..] == prior && incoming[0..] == incoming;
        WeaveKeepsBoth(mint, prior, incoming, pairs, 0, merged);
      }
    }
  }

  /**
   Every successful merge keeps the prior messages whole and in order, contains the incoming ones
   in order, and no list that does both is shorter.
   */
  lemma MergeIsShortestSupersequence(mint: Mint, prior: seq<Captured>, incoming: seq<Message>)
    requires Merge(mint, prior, incoming).Success?
    ensures var merged := Merge(mint, prior, incoming).value;
      && Subsequence(prior, merged)
      && Subsequence(incoming, Visible(merged))
      && |merged| == |prior| + |incoming| - Lcs(Visible(prior), incoming)
      && ValidSet(Visible(merged))
    ensures forall s | Subsequence(Visible(prior), s) && Subsequence(incoming, s) ::
      |Merge(mint, prior, incoming).value| <= |s|
  {
    MergeKeeps(mint, prior, incoming, Merge(mint, prior, incoming).value);
    forall s | Subsequence(Visible(prior), s) && Subsequence(incoming, s)
      ensures |prior| + |incoming| - Lcs(Visible(prior), incoming) <= |s|
    {
      SupersequenceBound(Visible(prior), incoming, s);
    }
  }

  // ---------------------------------------------------------------- publishing the same list again

  /** After a merge the same incoming list aligns uniquely with the result, all of it matched. */
  lemma RepublishAligns(mint: Mint, prior: seq<Captured>, incoming: seq<Message>)
    requires Merge(mint, prior, incoming).Success?
    ensures var a := Align(Visible(Merge(mint, prior, incoming).value), incoming);
      a.Unique? && |a.pairs| == |incoming|
  {
    var merged := Visible(Merge(mint, prior, incoming).value);
    MergeIsShortestSupersequence(mint, prior, incoming);
    forall g, h | Embeds(g, incoming, merged) && Embeds(h, incoming, merged) ensures g == h {
      MergedEmbeddingUnique(mint, prior, incoming, g, h);
    }
    UniqueEmbeddingAligns(merged, incoming);
  }

  lemma MergedEmbeddingUnique(mint: Mint, prior: seq<Captured>, incoming: seq<Message>, g: seq<nat>, h: seq<nat>)
    requires Merge(mint, prior, incoming).Success?
    requires var merged := Visible(Merge(mint, prior, incoming).value);
      Embeds(g, incoming, merged) && Embeds(h, incoming, merged)
    ensures g == h
  {
    var merged := Merge(mint, prior, incoming).value;
    if Visible(merged) == incoming {
      IncreasingFull(g, |incoming|);
      IncreasingFull(h, |incoming|);
    } else {
      MergeNeedsUnique(mint, prior, incoming);
      MergeIsShortestSupersequence(mint, prior, incoming);
      SubsequenceMap(VisibleOf, prior, merged);
      AlignExact(Visible(prior), incoming);
      EmbeddingUnique(Visible(prior), incoming, Visible(merged), g, h);
    }
  }

  lemma MergeNeedsUnique(mint: Mint, prior: seq<Captured>, incoming: seq<Message>)
    requires Merge(mint, prior, incoming).Success?
    ensures Visible(Merge(mint, prior, incoming).value) == incoming || Align(Visible(prior), incoming).Unique?
  {
  }

  /** The guards of the publisher that can refuse a list which is already contained. */
  predicate BoundaryClear(prior: seq<Message>, incoming: seq<Message>) {
    var offsets := LegalOffsets(prior, incoming);
    |offsets| <= 1 && !exists o | o in offsets :: ExtendsBoundary(prior, incoming, o)
  }

  /**
   Merging the same list again returns the merged list unchanged, or refuses it as a repeated
   overlap; it returns it exactly when the lists are equal or the boundary guards are clear.
   */
  lemma RepublishStable(mint: Mint, again: Mint, prior: seq<Captured>, incoming: seq<Message>)
    requires Merge(mint, prior, incoming).Success?
    ensures var merged := Merge(mint, prior, incoming).value;
      Merge(again, merged, incoming) ==
        if Visible(merged) == incoming || BoundaryClear(Visible(merged), incoming)
        then Success(merged) else Failure(AmbiguousOverlap)
  {
    MergeIsShortestSupersequence(mint, prior, incoming);
    RepublishAligns(mint, prior, incoming);
  }

  // ---------------------------------------------------------------- refusal really occurs

  /** Merge [a, b, c] with [b, c, b], then publish [b, c, b] again: the second publish is refused. */
  lemma RepublishCanBeRefused(mint: Mint) returns (prior: seq<Captured>, incoming: seq<Message>)
    ensures Merge(mint, prior, incoming).Success?
    ensures Merge(mint, Merge(mint, prior, incoming).value, incoming) == Failure(AmbiguousOverlap)
  {
    var a, b, c := Message(User, "a"), Message(Assistant, "b"), Message(User, "c");
    prior := [Captured("1", User, "a", None), Captured("2", Assistant, "b", None), Captured("3", User, "c", None)];
    incoming := [b, c, b];
    assert Visible(prior) == [a, b, c];
    ExampleValid(a, b, c);
    ExampleAlignment(a, b, c);
    ExampleOffsets(a, b, c);
    ExampleWeave(mint, prior, a, b, c);
    RepublishStable(mint, mint, prior, incoming);
  }

  lemma ExampleValid(a: Message, b: Message, c: Message)
    requires a == Message(User, "a") && b == Message(Assistant, "b") && c == Message(User, "c")
    ensures ValidSet([a, b, c]) && ValidSet([b, c, b]) && ValidSet([a, b, c, b])
  {
    assert Utf8Bytes("a") == Utf8Bytes("b") == Utf8Bytes("c") == 1;
    assert [a, b, c][..2] == [a, b] && [a, b][..1] == [a] && [b, c, b][..2] == [b, c] && [b, c][..1] == [b];
    assert [a, b, c, b][..3] == [a, b, c];
    assert TotalBytes([a]) == TotalBytes([b]) == 1 && TotalBytes([a, b]) == TotalBytes([b, c]) == 2;
    assert TotalBytes([a, b, c]) == TotalBytes([b, c, b]) == 3;
    assert "a"[0] == 'a' && "b"[0] == 'b' && "c"[0] == 'c';
  }

  lemma {:induction false} AscendingGrows(ps: seq<Pair>, k: nat)
    requires Ascending(ps) && k < |ps|
    ensures ps[k].0 >= ps[0].0 + k
  {
    if k > 0 {
      AscendingGrows(ps, k - 1);
      assert ps[k - 1].0 < ps[k].0;
    }
  }

  lemma ExamplePairing(a: Message, b: Message, c: Message, ps: seq<Pair>)
    requires a != b && a != c && b != c && IsPairing([a, b, c], [b, c, b], ps)
    ensures |ps| <= 2 && (|ps| == 2 ==> ps == [(1, 0), (2, 1)])
  {
    var p, q := [a, b, c], [b, c, b];
    forall k | 0 <= k < |ps| ensures (ps[k].0 == 1 && ps[k].1 != 1) || (ps[k].0 == 2 && ps[k].1 == 1) {
      assert p[ps[k].0] == q[ps[k].1];
    }
    if ps != [] {
      AscendingGrows(ps, |ps| - 1);
    }
    assert 1 < |ps| ==> ps[0].0 < ps[1].0 && ps[0].1 < ps[1].1;
  }

  lemma ExampleAlignment(a: Message, b: Message, c: Message)
    requires a != b && a != c && b != c
    ensures Align([a, b, c], [b, c, b]) == Unique([(1, 0), (2, 1)])
  {
    var p, q := [a, b, c], [b, c, b];
    forall ps | IsPairing(p, q, ps) ensures |ps| <= 2 && (|ps| == 2 ==> ps == [(1, 0), (2, 1)]) {
      ExamplePairing(a, b, c, ps);
    }
    assert MaximumPairing(p, q, [(1, 0), (2, 1)]);
    AlignExact(p, q);
    assert p[1] == q[0];
  }

  lemma RisingPair(os: seq<int>)
    requires Rising(os)
    ensures |os| <= 1 || exists o, o' :: o in os && o' in os && o < o'
  {
    if |os| > 1 {
      assert os[0] in os && os[1] in os && os[0] < os[1];
    }
  }

  lemma ExampleOffsets(a: Message, b: Message, c: Message)
    requires a != b && a != c && b != c
    ensures |LegalOffsets([a, b, c], [b, c, b])| <= 1
    ensures |LegalOffsets([a, b, c, b], [b, c, b])| > 1
  {
    var p, m, q := [a, b, c], [a, b, c, b], [b, c, b];
    OffsetsAre(p, q, 3);
    assert !LegalOffset(p, q, -2) && !LegalOffset(p, q, -1) && !LegalOffset(p, q, 0) && !LegalOffset(p, q, 2) by {
      assert p[0] != q[2] && p[0] != q[1] && p[0] != q[0] && p[2] != q[0];
    }
    var os := LegalOffsets(p, q);
    RisingPair(os);
    assert forall o | o in os :: LegalOffset(p, q, o) && -3 < o < 3 && o == 1;
    OffsetsAre(m, q, 4);
    assert LegalOffset(m, q, 1) && LegalOffset(m, q, 3);
  }

  lemma ExampleWeave(mint: Mint, prior: seq<Captured>, a: Message, b: Message, c: Message)
    requires Visible(prior) == [a, b, c] && Weavable(prior, [b, c, b], [(1, 0), (2, 1)])
    ensures var w := Weave(mint, prior, [b, c, b], [(1, 0), (2, 1)], 0);
      w.Success? && Visible(w.value) == [a, b, c, b]
  {
    var q, pairs := [b, c, b], [(1, 0), (2, 1)];
    var g0, g1, g2 := GapAt(mint, prior, q, pairs, 0), GapAt(mint, prior, q, pairs, 1), GapAt(mint, prior, q, pairs, 2);
    assert Visible(g0.value) == [a] && Visible(g1.value) == [] && Visible(g2.value) == [b];
    assert Weave(mint, prior, q, pairs, 2) == g2;
    assert Weave(mint, prior, q, pairs, 1) == Success(g1.value + [prior[2]] + g2.value);
  }
}
