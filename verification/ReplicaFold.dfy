/** Folding a change log, last revision of each memory wins, reproduces the canonical heads. */
module ReplicaFold {
  import opened Prelude
  import opened CanonicalStore
  import opened CanonicalAuthority
  import opened CommitLog
  import opened MemorySync

  /** What a replica holds after applying changes in order. */
  function Fold(changes: seq<SyncChange>): map<MemoryId, Revision> {
    if changes == [] then map[]
    else
      var last := changes[|changes| - 1];
      Fold(changes[..|changes| - 1])[last.envelope.memoryId := last.revision]
  }

  /** The same fold over a stored log. */
  function FoldLog(s: Store, log: seq<Change>): map<MemoryId, Revision> {
    if log == [] then map[]
    else
      var last := log[|log| - 1];
      var front := FoldLog(s, log[..|log| - 1]);
      if KeyOf(last) in s.revisions then front[last.memoryId := s.revisions[KeyOf(last)]] else front
  }

  /** `f` holds `m` exactly when it is a memory of the scope, with its current revision. */
  ghost predicate HoldsHead(s: Store, scope: Scope, f: map<MemoryId, Revision>, m: MemoryId) {
    && (m in f <==> m in s.heads && s.heads[m].scope == scope)
    && (m in f ==> RevisionAt(s, (m, s.heads[m].currentRevision)) == Some(f[m]))
  }

  /** `f` is the map from the memories of a scope to their current revisions. */
  ghost predicate IsHeadMap(s: Store, scope: Scope, f: map<MemoryId, Revision>) {
    forall m: MemoryId :: HoldsHead(s, scope, f, m)
  }

  ghost predicate FoldsToHeads(s: Store) {
    forall scope: Scope :: IsHeadMap(s, scope, FoldLog(s, Log(s.changes, scope)))
  }

  ghost predicate AllStored(s: Store, log: seq<Change>) {
    forall i | 0 <= i < |log| :: KeyOf(log[i]) in s.revisions
  }

  lemma LogIsStored(s: Store, scope: Scope)
    requires LogMirrored(s)
    ensures AllStored(s, Log(s.changes, scope))
  {
    var log := Log(s.changes, scope);
    forall i | 0 <= i < |log| ensures KeyOf(log[i]) in s.revisions {
      LogFromStore(s.changes, scope, log[i]);
      var j :| 0 <= j < |s.changes| && s.changes[j] == log[i];
      assert Mirrored(s, j);
    }
  }

  lemma {:induction false} FoldLogStable(s: Store, s': Store, log: seq<Change>)
    requires AllStored(s, log)
    requires forall k | k in s.revisions :: k in s'.revisions && s'.revisions[k] == s.revisions[k]
    ensures FoldLog(s', log) == FoldLog(s, log)
  {
    if log != [] {
      var front := log[..|log| - 1];
      assert AllStored(s, front);
      FoldLogStable(s, s', front);
      assert KeyOf(log[|log| - 1]) in s.revisions;
    }
  }

  lemma HeadsWithNew(s: Store, s': Store, head: Head, r: Revision, scope: Scope, f: map<MemoryId, Revision>)
    requires IsHeadMap(s, scope, f)
    requires s'.heads == s.heads[head.memoryId := head]
    requires s'.revisions == s.revisions[(head.memoryId, head.currentRevision) := r]
    requires head.memoryId in s.heads ==> s.heads[head.memoryId].scope == head.scope
    ensures IsHeadMap(s', scope, if head.scope == scope then f[head.memoryId := r] else f)
  {
    var f' := if head.scope == scope then f[head.memoryId := r] else f;
    forall m: MemoryId ensures HoldsHead(s', scope, f', m) {
      assert HoldsHead(s, scope, f, m);
    }
  }

  lemma LogWithNew(s: Store, s': Store, change: Change, r: Revision, scope: Scope)
    requires LogMirrored(s) && s'.changes == s.changes + [change]
    requires KeyOf(change) !in s.revisions && s'.revisions == s.revisions[KeyOf(change) := r]
    ensures FoldLog(s', Log(s'.changes, scope)) ==
      if change.scope == scope then FoldLog(s, Log(s.changes, scope))[change.memoryId := r]
      else FoldLog(s, Log(s.changes, scope))
  {
    var log := Log(s.changes, scope);
    LogIsStored(s, scope);
    FoldLogStable(s, s', log);
    LogAppend(s.changes, change, scope);
    if change.scope == scope {
      assert (log + [change])[..|log|] == log;
      assert FoldLog(s', log + [change]) == FoldLog(s', log)[change.memoryId := r];
    } else {
      assert log + [] == log;
    }
  }

  lemma AcceptKeepsFold(s: Store, id: CandidateId, key: string, p: Plan, now: int)
    requires FoldsToHeads(s) && LogMirrored(s) && Chained(s) && Accepts(s, id, key, p, now)
    ensures FoldsToHeads(AcceptedStore(s, id, key, p, now))
  {
    AcceptFresh(s, id, key, p, now);
    var s', r := AcceptedStore(s, id, key, p, now), AcceptResult(s, id, key, p, now);
    forall scope: Scope ensures IsHeadMap(s', scope, FoldLog(s', Log(s'.changes, scope))) {
      HeadsWithNew(s, s', r.head, r.revision, scope, FoldLog(s, Log(s.changes, scope)));
      LogWithNew(s, s', r.change, r.revision, scope);
    }
  }

  lemma StepKeepsFold(s: Store, a: Action)
    requires FoldsToHeads(s) && LogMirrored(s) && Chained(s)
    ensures FoldsToHeads(Step(s, a))
  {
    if a.Commit? {
      var id, key := a.request.candidateId, a.request.idempotencyKey;
      CommitCases(s, a.request, a.verified, a.newMemoryId, a.now);
      if Step(s, a) != s && !Transact(s, a.request, a.verified, a.newMemoryId, a.now).1.Conflicted? {
        AcceptKeepsFold(s, id, key, PlanFor(s, s.candidates[id], a.newMemoryId, a.now), a.now);
      } else {
        SameFold(s, Step(s, a));
      }
    } else {
      SameFold(s, Step(s, a));
    }
  }

  lemma SameFold(s: Store, s': Store)
    requires FoldsToHeads(s) && s'.heads == s.heads && s'.revisions == s.revisions && s'.changes == s.changes
    requires LogMirrored(s)
    ensures FoldsToHeads(s')
  {
    forall scope: Scope ensures IsHeadMap(s', scope, FoldLog(s', Log(s'.changes, scope))) {
      LogIsStored(s, scope);
      FoldLogStable(s, s', Log(s.changes, scope));
      var f := FoldLog(s, Log(s.changes, scope));
      assert IsHeadMap(s, scope, f);
      forall m: MemoryId ensures HoldsHead(s', scope, f, m) {
        assert HoldsHead(s, scope, f, m);
      }
    }
  }

  lemma EmptyFolds()
    ensures FoldsToHeads(EMPTY)
  {
  }

  /** Folding what was delivered is folding the log slice it came from. */
  lemma {:induction false} FoldDelivered(s: Store, scope: Scope, changes: seq<SyncChange>)
    requires Delivers(s, scope, 0, changes)
    ensures |changes| <= |Log(s.changes, scope)|
    ensures Fold(changes) == FoldLog(s, Log(s.changes, scope)[..|changes|])
  {
    var log := Log(s.changes, scope);
    if changes != [] {
      var n := |changes| - 1;
      FoldDelivered(s, scope, changes[..n]);
      assert log[..n + 1][..n] == log[..n];
    }
  }
}
