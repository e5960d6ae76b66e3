/** Device sync: contiguous change pages, hydration against immutable revisions, compare-and-set checkpoints. */
module MemorySync {
  import opened Prelude
  import opened CanonicalStore
  import opened CommitLog

  const DEFAULT_SYNC_BATCH_SIZE := 100
  const MAX_SYNC_BATCH_SIZE := 1000

  datatype SyncError = InvalidLimit | InvalidSequence | SequenceGap | RevisionIntegrity | CheckpointConflict

  datatype SyncChange = SyncChange(envelope: Change, revision: Revision)

  datatype Page = Page(after: int, next: int, changes: seq<SyncChange>, hasMore: bool)

  // ---------------------------------------------------------------- the service

  function Take<T>(s: seq<T>, n: int): seq<T>
    requires n >= 0
  {
    if |s| <= n then s else s[..n]
  }

  /** The changes of a log that follow a commit number. */
  function Following(log: seq<Change>, after: int): seq<Change> {
    if log == [] then []
    else
      var last := log[|log| - 1];
      Following(log[..|log| - 1], after) + (if last.commitSeq > after then [last] else [])
  }

  function ListChangesAfter(s: Store, scope: Scope, after: int, limit: int): seq<Change>
    requires limit >= 1
  {
    Take(Following(Log(s.changes, scope), after), limit)
  }

  predicate Contiguous(changes: seq<Change>, after: int) {
    forall i | 0 <= i < |changes| :: changes[i].commitSeq == after + i + 1
  }

  predicate Hydrates(e: Change, r: Option<Revision>) {
    && r.Some?
    && r.value.memoryId == e.memoryId && r.value.revision == e.newRevision && r.value.commitSeq == e.commitSeq
    && r.value.scope == e.scope && e.payloadHash == PayloadOf(r.value)
  }

  function Hydrate(s: Store, envelopes: seq<Change>): Result<seq<SyncChange>, SyncError> {
    if exists i | 0 <= i < |envelopes| :: !Hydrates(envelopes[i], RevisionAt(s, KeyOf(envelopes[i]))) then
      Failure(RevisionIntegrity)
    else
      Success(seq(|envelopes|, i requires 0 <= i < |envelopes| =>
        SyncChange(envelopes[i], RevisionAt(s, KeyOf(envelopes[i])).value)))
  }

  function ResolveLimit(limit: Option<int>): Result<int, SyncError> {
    var resolved := if limit.Some? then limit.value else DEFAULT_SYNC_BATCH_SIZE;
    if 1 <= resolved <= MAX_SYNC_BATCH_SIZE then Success(resolved) else Failure(InvalidLimit)
  }

  /** One page: listed in one store state, hydrated in a later one. */
  function ReadChanges(listed: Store, hydrated: Store, scope: Scope, after: int,
                       limit: Option<int>): Result<Page, SyncError> {
    if after < 0 then Failure(InvalidSequence)
    else if ResolveLimit(limit).Failure? then Failure(InvalidLimit)
    else
      var resolved := ResolveLimit(limit).value;
      var fetched := ListChangesAfter(listed, scope, after, resolved + 1);
      if !Contiguous(fetched, after) then Failure(SequenceGap)
      else
        var envelopes := Take(fetched, resolved);
        var changes := Hydrate(hydrated, envelopes);
        if changes.Failure? then Failure(changes.error)
        else Success(Page(after, if envelopes == [] then after else envelopes[|envelopes| - 1].commitSeq,
          changes.value, |fetched| > resolved))
  }

  /** The checks of an acknowledgement before its compare-and-set. */
  function CheckAcknowledgement(s: Store, scope: Scope, expected: int, through: int): Option<SyncError> {
    if expected < 0 || through < expected || through - expected > MAX_SYNC_BATCH_SIZE then Some(InvalidSequence)
    else if through == expected then None
    else
      var applied := ListChangesAfter(s, scope, expected, through - expected);
      if !Contiguous(applied, expected) || |applied| != through - expected then Some(SequenceGap) else None
  }

  // ---------------------------------------------------------------- pages are slices of the log

  /** `listed` are the first `n` entries of the log after `after`. */
  ghost predicate SliceOf(log: seq<Change>, after: nat, n: nat, listed: seq<Change>) {
    |listed| == n && forall i | 0 <= i < n :: after + i < |log| && listed[i] == log[after + i]
  }

  ghost predicate NumberedLog(log: seq<Change>) {
    forall i | 0 <= i < |log| :: log[i].commitSeq == i + 1
  }

  lemma {:induction false} FollowingIsSuffix(log: seq<Change>, after: nat)
    requires NumberedLog(log)
    ensures SliceOf(log, after, Max(|log| - after, 0), Following(log, after))
  {
    if log != [] {
      assert log[|log| - 1].commitSeq == |log|;
      FollowingIsSuffix(log[..|log| - 1], after);
    }
  }

  lemma TakeOfSlice(log: seq<Change>, after: nat, n: nat, listed: seq<Change>, limit: nat)
    requires SliceOf(log, after, n, listed)
    ensures SliceOf(log, after, Min(n, limit), Take(listed, limit))
  {
  }

  lemma ListedIsSlice(s: Store, scope: Scope, after: nat, limit: int)
    requires NumberedScope(s, scope) && limit >= 1
    ensures SliceOf(Log(s.changes, scope), after, Min(Max(|Log(s.changes, scope)| - after, 0), limit),
              ListChangesAfter(s, scope, after, limit))
  {
    var log := Log(s.changes, scope);
    FollowingIsSuffix(log, after);
    TakeOfSlice(log, after, Max(|log| - after, 0), Following(log, after), limit);
  }

  lemma ListedIsContiguous(s: Store, scope: Scope, after: nat, limit: int)
    requires NumberedScope(s, scope) && limit >= 1
    ensures Contiguous(ListChangesAfter(s, scope, after, limit), after)
  {
    ListedIsSlice(s, scope, after, limit);
  }

  lemma {:induction false} LogFromStore(changes: seq<Change>, scope: Scope, e: Change)
    requires e in Log(changes, scope)
    ensures e in changes && e.scope == scope
  {
    var last := changes[|changes| - 1];
    if e in Log(changes[..|changes| - 1], scope) {
      LogFromStore(changes[..|changes| - 1], scope, e);
    }
  }

  /** The log of a scope only grows at its end. */
  lemma {:induction false} LogGrows(changes: seq<Change>, changes': seq<Change>, scope: Scope)
    requires changes <= changes'
    ensures Log(changes, scope) <= Log(changes', scope)
    decreases |changes'|
  {
    if |changes| < |changes'| {
      LogGrows(changes, changes'[..|changes'| - 1], scope);
    } else {
      assert changes == changes';
    }
  }

  /** Every envelope the authority wrote hydrates, now and in every later state. */
  lemma EnvelopeHydrates(s: Store, later: Store, e: Change)
    requires LogMirrored(s) && Chained(s) && Advances(s, later) && e in s.changes
    ensures Hydrates(e, RevisionAt(later, KeyOf(e))) && RevisionAt(later, KeyOf(e)) == RevisionAt(s, KeyOf(e))
  {
    var i :| 0 <= i < |s.changes| && s.changes[i] == e;
    assert Mirrored(s, i);
    assert RevisionFits(s, KeyOf(e));
  }

  /** `changes` are the entries of the log that follow `after`, each with its immutable revision. */
  ghost predicate Delivers(s: Store, scope: Scope, after: int, changes: seq<SyncChange>) {
    var log := Log(s.changes, scope);
    && 0 <= after && (changes != [] ==> after + |changes| <= |log|)
    && forall i | 0 <= i < |changes| ::
        changes[i].envelope == log[after + i] && RevisionAt(s, KeyOf(changes[i].envelope)) == Some(changes[i].revision)
  }

  /** `listed` are the next changes of the log, all of them or `limit`. */
  ghost predicate IsListing(s: Store, scope: Scope, after: int, limit: int, listed: seq<Change>) {
    var log := Log(s.changes, scope);
    && 0 <= after && Contiguous(listed, after)
    && |listed| == (if after <= |log| then Min(|log| - after, limit) else 0)
    && forall i | 0 <= i < |listed| :: after + i < |log| && listed[i] == log[after + i]
  }

  lemma ListedIsListing(s: Store, scope: Scope, after: nat, limit: int)
    requires NumberedScope(s, scope) && limit >= 1
    ensures IsListing(s, scope, after, limit, ListChangesAfter(s, scope, after, limit))
  {
    ListedIsSlice(s, scope, after, limit);
    ListedIsContiguous(s, scope, after, limit);
  }

  lemma ListingHydrates(s: Store, later: Store, scope: Scope, after: int, limit: int, listed: seq<Change>)
    requires LogMirrored(s) && Chained(s) && Advances(s, later) && limit >= 1
    requires IsListing(s, scope, after, limit + 1, listed)
    ensures var changes := Hydrate(later, Take(listed, limit));
      changes.Success? && Delivers(s, scope, after, changes.value) && |changes.value| == Min(|listed|, limit)
  {
    var envelopes := Take(listed, limit);
    forall i | 0 <= i < |envelopes|
      ensures Hydrates(envelopes[i], RevisionAt(later, KeyOf(envelopes[i])))
      ensures RevisionAt(later, KeyOf(envelopes[i])) == RevisionAt(s, KeyOf(envelopes[i]))
    {
      assert envelopes[i] == listed[i];
      LogFromStore(s.changes, scope, envelopes[i]);
      EnvelopeHydrates(s, later, envelopes[i]);
    }
  }

  /** The page that a read returns once its two checks pass. */
  lemma PageOf(listed: Store, hydrated: Store, scope: Scope, after: int, limit: Option<int>)
    requires 0 <= after && ResolveLimit(limit).Success?
    requires var fetched := ListChangesAfter(listed, scope, after, ResolveLimit(limit).value + 1);
      Contiguous(fetched, after) && Hydrate(hydrated, Take(fetched, ResolveLimit(limit).value)).Success?
    ensures var resolved := ResolveLimit(limit).value;
      var fetched := ListChangesAfter(listed, scope, after, resolved + 1);
      var changes := Hydrate(hydrated, Take(fetched, resolved)).value;
      ReadChanges(listed, hydrated, scope, after, limit) ==
        Success(Page(after, after + |changes|, changes, |fetched| > resolved))
  {
  }

  /**
   Reading a page never fails on a store the authority wrote, whatever is committed between its two
   reads: the page is the next slice of the log, and says truthfully whether more follows.
   */
  lemma ReadNeverFails(s: Store, later: Store, scope: Scope, after: int, limit: Option<int>)
    requires LogMirrored(s) && Chained(s) && NumberedScope(s, scope) && Advances(s, later)
    requires 0 <= after && ResolveLimit(limit).Success?
    ensures var r := ReadChanges(s, later, scope, after, limit);
      && r.Success?
      && r.value.after == after && r.value.next == after + |r.value.changes|
      && Delivers(s, scope, after, r.value.changes)
      && (after <= HighSeq(s, scope) ==> |r.value.changes| == Min(HighSeq(s, scope) - after, ResolveLimit(limit).value))
      && (r.value.hasMore <==> after + |r.value.changes| < HighSeq(s, scope))
  {
    var resolved := ResolveLimit(limit).value;
    ListedIsListing(s, scope, after, resolved + 1);
    ListingHydrates(s, later, scope, after, resolved, ListChangesAfter(s, scope, after, resolved + 1));
    PageOf(s, later, scope, after, limit);
  }
}
