/**
 What every run of ingests, status changes and commits keeps: numbered per-scope logs, gap-free
 revision chains, one-to-one changes, revisions and outbox records, and governed lifecycles.
 */
module CommitLog {
  import opened Prelude
  import opened ReferenceMerge
  import opened CanonicalStore
  import opened CanonicalAuthority

  // ---------------------------------------------------------------- runs

  predicate ParsableTime(t: Option<Time>) { t.Some? ==> t.value.At? }

  predicate OrderedValidity(v: Validity) {
    && ParsableTime(v.observedAt) && ParsableTime(v.validFrom) && ParsableTime(v.validUntil)
    && (v.validFrom.Some? && v.validUntil.Some? ==> v.validFrom.value.millis <= v.validUntil.value.millis)
  }

  /** What the candidate service checks before it stores a candidate. */
  predicate Validated(c: Candidate) {
    && !IsBlank(c.identity.memoryKind) && !IsBlank(c.content.text) && !IsBlank(c.identity.semanticKey)
    && !IsBlank(c.producer.id) && c.evidence != [] && OrderedValidity(c.validity)
    && (c.operation == Create ==> c.baseMemoryId.None? && c.baseRevision.None?)
    && (c.operation != Create ==> c.baseMemoryId.Some? && c.baseRevision.Some? && c.baseRevision.value >= 1)
  }

  datatype Action =
    | Ingest(id: CandidateId, candidate: Candidate)
    | SetStatus(id: CandidateId, status: CandidateStatus)
    | Commit(request: Request, verified: Option<AdmissionState>, newMemoryId: MemoryId, now: int)

  /** Candidate ids are fresh; a status is only ever set to a terminal one. */
  function Step(s: Store, a: Action): Store {
    match a
    case Ingest(id, candidate) =>
      if id in s.candidates || !Validated(candidate) then s
      else s.(candidates := s.candidates[id := candidate.(status := Pending)])
    case SetStatus(id, status) =>
      if id !in s.candidates || status == Pending then s else WithStatus(s, id, status)
    case Commit(request, verified, newMemoryId, now) => Transact(s, request, verified, newMemoryId, now).0
  }

  function Run(s: Store, actions: seq<Action>): Store {
    if actions == [] then s else Step(Run(s, actions[..|actions| - 1]), actions[|actions| - 1])
  }

  // ---------------------------------------------------------------- the invariant

  function KeyOf(c: Change): RevisionKey { (c.memoryId, c.newRevision) }

  /** The i-th change, its outbox record and its revision tell the same story. */
  ghost predicate Mirrored(s: Store, i: nat)
    requires i < |s.changes| && i < |s.outbox|
  {
    var c := s.changes[i];
    && KeyOf(c) in s.revisions
    && s.outbox[i] == Outbox(c.scope, c.commitSeq, c.memoryId, c.newRevision, c.operation)
    && var r := s.revisions[KeyOf(c)];
      r.scope == c.scope && r.commitSeq == c.commitSeq && c.payloadHash == PayloadOf(r)
  }

  ghost predicate LogMirrored(s: Store) {
    |s.changes| == |s.outbox| && forall i | 0 <= i < |s.changes| :: Mirrored(s, i)
  }

  ghost predicate Logged(s: Store, k: RevisionKey) {
    exists i :: 0 <= i < |s.changes| && KeyOf(s.changes[i]) == k
  }

  /** Changes and revisions are in one-to-one correspondence. */
  ghost predicate LogExact(s: Store) {
    && (forall i, j | 0 <= i < j < |s.changes| :: KeyOf(s.changes[i]) != KeyOf(s.changes[j]))
    && forall k | k in s.revisions :: Logged(s, k)
  }

  /** The commit numbers of a scope are exactly 1..n. */
  ghost predicate NumberedScope(s: Store, scope: Scope) {
    var log := Log(s.changes, scope);
    |log| == HighSeq(s, scope) && forall i | 0 <= i < |log| :: log[i].commitSeq == i + 1
  }

  ghost predicate Numbered(s: Store) {
    forall scope :: NumberedScope(s, scope)
  }

  /** The revisions of a memory are exactly 1..currentRevision and agree with its head. */
  ghost predicate Chained(s: Store) {
    && RevisionsExact(s)
    && (forall k | k in s.revisions :: RevisionFits(s, k))
    && (forall m | m in s.heads :: CurrentStatus(s, m))
  }

  ghost predicate RevisionsExact(s: Store) {
    && (forall m | m in s.heads :: s.heads[m].memoryId == m && 1 <= s.heads[m].currentRevision)
    && forall k: RevisionKey :: k in s.revisions <==> k.0 in s.heads && 1 <= k.1 <= s.heads[k.0].currentRevision
  }

  ghost predicate RevisionFits(s: Store, k: RevisionKey)
    requires k in s.revisions
  {
    var r := s.revisions[k];
    && k.0 in s.heads && r.memoryId == k.0 && r.revision == k.1
    && r.scope == s.heads[k.0].scope && r.body.identity == s.heads[k.0].identity
  }

  ghost predicate CurrentStatus(s: Store, m: MemoryId)
    requires m in s.heads
  {
    var k := (m, s.heads[m].currentRevision);
    k in s.revisions && s.revisions[k].body.status == s.heads[m].status
  }

  ghost predicate KeysUnique(s: Store) {
    forall m, m' | m in s.heads && m' in s.heads && m != m' ::
      s.heads[m].scope != s.heads[m'].scope || s.heads[m].identity.semanticKey != s.heads[m'].identity.semanticKey
  }

  /** A candidate behind a revision is spent, belongs to the scope, and is behind no other revision. */
  ghost predicate Spent(s: Store, k: RevisionKey)
    requires k in s.revisions
  {
    var id := s.revisions[k].provenance.candidateId;
    && id in s.candidates && s.candidates[id].status != Pending && s.candidates[id].scope == s.revisions[k].scope
  }

  ghost predicate CandidatesSpent(s: Store) {
    && (forall k | k in s.revisions :: Spent(s, k))
    && forall k, k' | k in s.revisions && k' in s.revisions && k != k' ::
        s.revisions[k].provenance.candidateId != s.revisions[k'].provenance.candidateId
  }

  /** A stored result is a committed one of its scope. */
  ghost predicate ResultKept(s: Store, rk: (Scope, string))
    requires rk in s.results
  {
    var r := s.results[rk];
    && (r.revision.memoryId, r.revision.revision) in s.revisions
    && s.revisions[(r.revision.memoryId, r.revision.revision)] == r.revision
    && r.revision.scope == rk.0
    && r.change in s.changes && r.change.idempotencyKey == rk.1
    && KeyOf(r.change) == (r.revision.memoryId, r.revision.revision)
  }

  ghost predicate ResultsKept(s: Store) {
    forall rk | rk in s.results :: ResultKept(s, rk)
  }

  /** The lifecycle rule of one commit, from the previous revision and the candidate behind the new one. */
  ghost predicate Evolves(operation: Operation, before: Body, after: Body, c: Candidate) {
    && after.identity == before.identity
    && match operation
       case Update => before.status == Active && after == CandidateBody(c)
       case MergeEvidence =>
         && before.status == Active && after.status == Active
         && after.content == before.content && after.validity == before.validity && after.epistemic == before.epistemic
         && after.evidence == Merged(EvidenceKey, before.evidence + c.evidence)
         && after.sources == Merged(SourceKey, before.sources + c.sources)
         && after.producer == c.producer && after.fingerprint == c.fingerprint
       case Tombstone => before.status != Tombstoned && after == before.(status := Tombstoned)
       case Restore => before.status == Tombstoned && after == before.(status := Active)
       case _ => false
  }

  ghost predicate Evolved(s: Store, i: nat)
    requires i < |s.changes|
  {
    var c := s.changes[i];
    && KeyOf(c) in s.revisions
    && var r := s.revisions[KeyOf(c)];
       var id := r.provenance.candidateId;
    && id in s.candidates && s.candidates[id].operation == c.operation
    && s.candidates[id].fingerprint == r.provenance.fingerprint
    && (c.newRevision == 1 ==> c.operation == Create && r.body == CandidateBody(s.candidates[id]))
    && (c.newRevision != 1 ==>
          && (c.memoryId, c.newRevision - 1) in s.revisions
          && Evolves(c.operation, s.revisions[(c.memoryId, c.newRevision - 1)].body, r.body, s.candidates[id]))
  }

  ghost predicate Lifecycles(s: Store) {
    forall i | 0 <= i < |s.changes| :: Evolved(s, i)
  }

  /** Every stored revision carries validated content and consistent provenance. */
  ghost predicate Sound(r: Revision) {
    && r.contentHash == r.body.content
    && r.provenance.producer == r.body.producer && r.provenance.sources == r.body.sources
    && OrderedValidity(r.body.validity) && !IsBlank(r.body.identity.semanticKey) && !IsBlank(r.body.producer.id)
  }

  ghost predicate AllSound(s: Store) {
    (forall k | k in s.revisions :: Sound(s.revisions[k])) && AllValidated(s)
  }

  ghost predicate AllValidated(s: Store) {
    forall id | id in s.candidates :: Validated(s.candidates[id])
  }

  ghost predicate Inv(s: Store) {
    && LogMirrored(s) && LogExact(s) && Numbered(s) && Chained(s) && KeysUnique(s)
    && CandidatesSpent(s) && ResultsKept(s) && Lifecycles(s) && AllSound(s)
  }

  // ---------------------------------------------------------------- one accepted commit

  /** What a plan that revises guarantees. */
  ghost predicate Planned(s: Store, c: Candidate, p: Plan) {
    && p.Revise?
    && p.body.identity == c.identity
    && (c.operation == Create ==> p.newRevision == 1 && p.body == CandidateBody(c))
    && (c.operation != Create ==> PlannedMutation(s, c, p))
  }

  ghost predicate PlannedMutation(s: Store, c: Candidate, p: Plan)
    requires p.Revise?
  {
    && p.memoryId in s.heads && s.heads[p.memoryId].scope == c.scope && s.heads[p.memoryId].identity == c.identity
    && p.newRevision == s.heads[p.memoryId].currentRevision + 1
    && (p.memoryId, p.newRevision - 1) in s.revisions
    && Evolves(c.operation, s.revisions[(p.memoryId, p.newRevision - 1)].body, p.body, c)
  }

  lemma PlanIsPlanned(s: Store, c: Candidate, newMemoryId: MemoryId, now: int)
    requires Chained(s) && PlanFor(s, c, newMemoryId, now).Revise?
    ensures Planned(s, c, PlanFor(s, c, newMemoryId, now))
  {
    if c.operation != Create {
      var m := c.baseMemoryId.value;
      assert RevisionFits(s, (m, s.heads[m].currentRevision)) && CurrentStatus(s, m);
    }
  }

  /** A commit that writes: its plan holds, its candidate is unspent, and revision 1 meets no collision. */
  ghost predicate Accepts(s: Store, id: CandidateId, key: string, p: Plan, now: int) {
    && id in s.candidates
    && s.candidates[id].status == Pending
    && Planned(s, s.candidates[id], p)
    && (p.newRevision == 1 ==>
          p.memoryId !in s.heads && !KeyTaken(s, s.candidates[id].scope, p.body.identity.semanticKey))
    && (s.candidates[id].scope, key) !in s.results
  }

  function AcceptResult(s: Store, id: CandidateId, key: string, p: Plan, now: int): CommitResult
    requires id in s.candidates && p.Revise?
  {
    ResultFor(s, id, s.candidates[id], key, p, now)
  }

  function AcceptedStore(s: Store, id: CandidateId, key: string, p: Plan, now: int): Store
    requires id in s.candidates && p.Revise?
  {
    Written(s, id, key, AcceptResult(s, id, key, p, now))
  }

  /** Every commit leaves the store alone, records a conflict, or accepts. */
  lemma CommitCases(s: Store, request: Request, verified: Option<AdmissionState>, newMemoryId: MemoryId, now: int)
    requires Chained(s)
    ensures var (s', outcome) := Transact(s, request, verified, newMemoryId, now);
      var id, key := request.candidateId, request.idempotencyKey;
      || s' == s
      || (outcome.Conflicted? && id in s.candidates
          && s' == WithStatus(s, id, Conflicting).(conflicts := s.conflicts + [outcome.conflict]))
      || (&& id in s.candidates
          && var p := PlanFor(s, s.candidates[id], newMemoryId, now);
          && Accepts(s, id, key, p, now)
          && s' == AcceptedStore(s, id, key, p, now)
          && outcome == Committed(AcceptResult(s, id, key, p, now)))
  {
    var id := request.candidateId;
    if id in s.candidates && PlanFor(s, s.candidates[id], newMemoryId, now).Revise? {
      PlanIsPlanned(s, s.candidates[id], newMemoryId, now);
    }
  }

  lemma LogAppend(changes: seq<Change>, c: Change, scope: Scope)
    ensures Log(changes + [c], scope) == Log(changes, scope) + (if c.scope == scope then [c] else [])
  {
    assert (changes + [c])[..|changes|] == changes;
  }

  /** The new revision key is fresh. */
  lemma AcceptFresh(s: Store, id: CandidateId, key: string, p: Plan, now: int)
    requires Chained(s) && Accepts(s, id, key, p, now)
    ensures p.newRevision >= 1 && (p.memoryId, p.newRevision) !in s.revisions
  {
  }

  lemma AcceptKeepsMirrors(s: Store, id: CandidateId, key: string, p: Plan, now: int)
    requires LogMirrored(s) && id in s.candidates && p.Revise? && (p.memoryId, p.newRevision) !in s.revisions
    ensures LogMirrored(AcceptedStore(s, id, key, p, now))
  {
    var s' := AcceptedStore(s, id, key, p, now);
    forall i | 0 <= i < |s'.changes| ensures Mirrored(s', i) {
      if i < |s.changes| {
        assert Mirrored(s, i);
      }
    }
  }

  lemma AcceptKeepsExact(s: Store, id: CandidateId, key: string, p: Plan, now: int)
    requires LogMirrored(s) && LogExact(s)
    requires id in s.candidates && p.Revise? && (p.memoryId, p.newRevision) !in s.revisions
    ensures LogExact(AcceptedStore(s, id, key, p, now))
  {
    var s', change := AcceptedStore(s, id, key, p, now), AcceptResult(s, id, key, p, now).change;
    assert s'.changes == s.changes + [change];
    forall i | 0 <= i < |s.changes| ensures KeyOf(s.changes[i]) != KeyOf(change) {
      assert Mirrored(s, i);
    }
    forall k | k in s'.revisions ensures Logged(s', k) {
      if k == KeyOf(change) {
        assert s'.changes[|s.changes|] == change;
      } else {
        assert Logged(s, k);
        var i :| 0 <= i < |s.changes| && KeyOf(s.changes[i]) == k;
        assert s'.changes[i] == s.changes[i];
      }
    }
  }

  lemma AcceptKeepsNumbers(s: Store, id: CandidateId, key: string, p: Plan, now: int)
    requires Numbered(s) && id in s.candidates && p.Revise?
    ensures Numbered(AcceptedStore(s, id, key, p, now))
  {
    var s', change := AcceptedStore(s, id, key, p, now), AcceptResult(s, id, key, p, now).change;
    forall scope ensures NumberedScope(s', scope) {
      assert NumberedScope(s, scope);
      LogAppend(s.changes, change, scope);
    }
  }

  lemma AcceptKeepsRevisionsExact(s: Store, id: CandidateId, key: string, p: Plan, now: int)
    requires RevisionsExact(s) && Accepts(s, id, key, p, now)
    ensures RevisionsExact(AcceptedStore(s, id, key, p, now))
  {
    var s' := AcceptedStore(s, id, key, p, now);
    assert s'.heads[p.memoryId].currentRevision == p.newRevision;
    assert forall k: RevisionKey :: k in s'.revisions <==> k in s.revisions || k == (p.memoryId, p.newRevision);
  }

  lemma AcceptKeepsFits(s: Store, id: CandidateId, key: string, p: Plan, now: int)
    requires (forall k | k in s.revisions :: RevisionFits(s, k)) && Accepts(s, id, key, p, now)
    ensures var s' := AcceptedStore(s, id, key, p, now); forall k | k in s'.revisions :: RevisionFits(s', k)
  {
    var s' := AcceptedStore(s, id, key, p, now);
    forall k | k in s'.revisions ensures RevisionFits(s', k) {
      if k != (p.memoryId, p.newRevision) {
        assert RevisionFits(s, k);
      }
    }
  }

  lemma AcceptKeepsStatus(s: Store, id: CandidateId, key: string, p: Plan, now: int)
    requires (forall m | m in s.heads :: CurrentStatus(s, m)) && Accepts(s, id, key, p, now)
    ensures var s' := AcceptedStore(s, id, key, p, now); forall m | m in s'.heads :: CurrentStatus(s', m)
  {
    var s' := AcceptedStore(s, id, key, p, now);
    forall m | m in s'.heads ensures CurrentStatus(s', m) {
      if m != p.memoryId {
        assert CurrentStatus(s, m);
      }
    }
  }

  lemma AcceptKeepsChains(s: Store, id: CandidateId, key: string, p: Plan, now: int)
    requires Chained(s) && Accepts(s, id, key, p, now)
    ensures Chained(AcceptedStore(s, id, key, p, now))
  {
    AcceptKeepsRevisionsExact(s, id, key, p, now);
    AcceptKeepsFits(s, id, key, p, now);
    AcceptKeepsStatus(s, id, key, p, now);
  }

  lemma AcceptKeepsKeys(s: Store, id: CandidateId, key: string, p: Plan, now: int)
    requires KeysUnique(s) && Accepts(s, id, key, p, now)
    ensures KeysUnique(AcceptedStore(s, id, key, p, now))
  {
  }

  lemma AcceptKeepsCandidates(s: Store, id: CandidateId, key: string, p: Plan, now: int)
    requires CandidatesSpent(s) && id in s.candidates && s.candidates[id].status == Pending && p.Revise?
    ensures CandidatesSpent(AcceptedStore(s, id, key, p, now))
  {
    var s' := AcceptedStore(s, id, key, p, now);
    forall k | k in s'.revisions && k in s.revisions
      ensures Spent(s, k) && s.revisions[k].provenance.candidateId != id
    {
      assert Spent(s, k);
    }
    forall k | k in s'.revisions ensures Spent(s', k) {
    }
  }

  lemma AcceptKeepsSound(s: Store, id: CandidateId, key: string, p: Plan, now: int)
    requires AllSound(s) && Accepts(s, id, key, p, now)
    ensures AllSound(AcceptedStore(s, id, key, p, now))
  {
    var s' := AcceptedStore(s, id, key, p, now);
    assert Validated(s.candidates[id]);
    if s.candidates[id].operation != Create {
      assert Sound(s.revisions[(p.memoryId, p.newRevision - 1)]);
    }
    forall k | k in s'.revisions ensures Sound(s'.revisions[k]) {
    }
  }

  lemma AcceptKeepsResults(s: Store, id: CandidateId, key: string, p: Plan, now: int)
    requires ResultsKept(s) && id in s.candidates && p.Revise? && (p.memoryId, p.newRevision) !in s.revisions
    ensures ResultsKept(AcceptedStore(s, id, key, p, now))
  {
    var s', change := AcceptedStore(s, id, key, p, now), AcceptResult(s, id, key, p, now).change;
    assert s'.changes[|s.changes|] == change;
    forall rk | rk in s'.results ensures ResultKept(s', rk) {
      if s'.results[rk] != AcceptResult(s, id, key, p, now) {
        assert ResultKept(s, rk);
        var i :| 0 <= i < |s.changes| && s.changes[i] == s.results[rk].change;
        assert s'.changes[i] == s.results[rk].change;
      }
    }
  }

  lemma AcceptKeepsLifecycles(s: Store, id: CandidateId, key: string, p: Plan, now: int)
    requires Lifecycles(s) && Accepts(s, id, key, p, now) && (p.memoryId, p.newRevision) !in s.revisions
    ensures Lifecycles(AcceptedStore(s, id, key, p, now))
  {
    var s' := AcceptedStore(s, id, key, p, now);
    forall i | 0 <= i < |s'.changes| ensures Evolved(s', i) {
      if i < |s.changes| {
        assert Evolved(s, i);
      }
    }
  }

  lemma AcceptKeepsInv(s: Store, id: CandidateId, key: string, p: Plan, now: int)
    requires Inv(s) && Accepts(s, id, key, p, now)
    ensures Inv(AcceptedStore(s, id, key, p, now))
  {
    AcceptFresh(s, id, key, p, now);
    AcceptKeepsMirrors(s, id, key, p, now);
    AcceptKeepsExact(s, id, key, p, now);
    AcceptKeepsNumbers(s, id, key, p, now);
    AcceptKeepsChains(s, id, key, p, now);
    AcceptKeepsKeys(s, id, key, p, now);
    AcceptKeepsCandidates(s, id, key, p, now);
    AcceptKeepsSound(s, id, key, p, now);
    AcceptKeepsResults(s, id, key, p, now);
    AcceptKeepsLifecycles(s, id, key, p, now);
  }

  // ---------------------------------------------------------------- every step, every run

  ghost predicate CandidateKept(c: Candidate, c': Candidate) {
    c' == c.(status := c'.status) && (c.status != Pending ==> c'.status != Pending)
  }

  lemma StatusKeepsValidated(c: Candidate, status: CandidateStatus)
    requires Validated(c)
    ensures Validated(c.(status := status))
  {
  }

  /** Only candidate records and conflicts differ, and no spent candidate becomes pending again. */
  ghost predicate OnlyCandidatesDiffer(s: Store, s': Store) {
    && s'.heads == s.heads && s'.revisions == s.revisions && s'.sequences == s.sequences
    && s'.changes == s.changes && s'.outbox == s.outbox && s'.results == s.results
    && (forall id | id in s.candidates :: id in s'.candidates && CandidateKept(s.candidates[id], s'.candidates[id]))
    && AllValidated(s')
  }

  lemma CandidateChangeKeepsLog(s: Store, s': Store)
    requires LogMirrored(s) && LogExact(s) && Numbered(s) && Chained(s) && ResultsKept(s) && OnlyCandidatesDiffer(s, s')
    ensures LogMirrored(s') && LogExact(s') && Numbered(s') && Chained(s') && ResultsKept(s')
  {
    forall i | 0 <= i < |s'.changes| ensures Mirrored(s', i) {
      assert Mirrored(s, i);
    }
    forall k | k in s'.revisions ensures Logged(s', k) && RevisionFits(s', k) {
      assert Logged(s, k) && RevisionFits(s, k);
    }
    forall scope ensures NumberedScope(s', scope) {
      assert NumberedScope(s, scope);
    }
    forall m | m in s'.heads ensures CurrentStatus(s', m) {
      assert CurrentStatus(s, m);
    }
    forall rk | rk in s'.results ensures ResultKept(s', rk) {
      assert ResultKept(s, rk);
    }
  }

  lemma CandidateChangeKeepsLifecycles(s: Store, s': Store)
    requires Lifecycles(s) && CandidatesSpent(s) && OnlyCandidatesDiffer(s, s')
    ensures Lifecycles(s') && CandidatesSpent(s')
  {
    forall i | 0 <= i < |s'.changes| ensures Evolved(s', i) {
      assert Evolved(s, i);
      var id := s.revisions[KeyOf(s.changes[i])].provenance.candidateId;
      var c, c' := s.candidates[id], s'.candidates[id];
      assert c' == c.(status := c'.status);
    }
    forall k | k in s'.revisions ensures Spent(s', k) {
      assert Spent(s, k);
    }
  }

  lemma CandidateChangeKeepsInv(s: Store, s': Store)
    requires Inv(s) && OnlyCandidatesDiffer(s, s')
    ensures Inv(s')
  {
    CandidateChangeKeepsLog(s, s');
    CandidateChangeKeepsLifecycles(s, s');
  }

  lemma IngestOnlyCandidates(s: Store, id: CandidateId, candidate: Candidate)
    requires AllValidated(s)
    ensures OnlyCandidatesDiffer(s, Step(s, Ingest(id, candidate)))
  {
    if id !in s.candidates && Validated(candidate) {
      StatusKeepsValidated(candidate, Pending);
    }
  }

  lemma StatusOnlyCandidates(s: Store, id: CandidateId, status: CandidateStatus, conflicts: seq<Conflict>)
    requires AllValidated(s) && id in s.candidates && status != Pending
    ensures OnlyCandidatesDiffer(s, WithStatus(s, id, status).(conflicts := conflicts))
  {
    StatusKeepsValidated(s.candidates[id], status);
  }

  lemma CommitKeepsInv(s: Store, request: Request, verified: Option<AdmissionState>, newMemoryId: MemoryId, now: int)
    requires Inv(s)
    ensures Inv(Transact(s, request, verified, newMemoryId, now).0)
  {
    var id, key := request.candidateId, request.idempotencyKey;
    var s', outcome :=
      Transact(s, request, verified, newMemoryId, now).0, Transact(s, request, verified, newMemoryId, now).1;
    CommitCases(s, request, verified, newMemoryId, now);
    if s' != s {
      if outcome.Conflicted? {
        StatusOnlyCandidates(s, id, Conflicting, s.conflicts + [outcome.conflict]);
        CandidateChangeKeepsInv(s, s');
      } else {
        AcceptKeepsInv(s, id, key, PlanFor(s, s.candidates[id], newMemoryId, now), now);
      }
    }
  }

  lemma StepKeepsInv(s: Store, a: Action)
    requires Inv(s)
    ensures Inv(Step(s, a))
  {
    match a
    case Ingest(id, candidate) =>
      IngestOnlyCandidates(s, id, candidate);
      CandidateChangeKeepsInv(s, Step(s, a));
    case SetStatus(id, status) =>
      if Step(s, a) != s {
        StatusOnlyCandidates(s, id, status, s.conflicts);
        CandidateChangeKeepsInv(s, Step(s, a));
      }
    case Commit(request, verified, newMemoryId, now) =>
      CommitKeepsInv(s, request, verified, newMemoryId, now);
  }

  lemma {:induction false} RunKeepsInv(s: Store, actions: seq<Action>)
    requires Inv(s)
    ensures Inv(Run(s, actions))
  {
    if actions != [] {
      RunKeepsInv(s, actions[..|actions| - 1]);
      StepKeepsInv(Run(s, actions[..|actions| - 1]), actions[|actions| - 1]);
    }
  }

  lemma EmptyInv()
    ensures Inv(EMPTY)
  {
  }

  // ---------------------------------------------------------------- what a reader of the store may rely on

  /** Every revision has exactly one change, mirrored by the outbox record at the same place. */
  ghost predicate OneChangeEach(s: Store) {
    forall k | k in s.revisions :: exists i | 0 <= i < |s.changes| && i < |s.outbox| ::
      && KeyOf(s.changes[i]) == k && Mirrored(s, i)
      && forall j | 0 <= j < |s.changes| && KeyOf(s.changes[j]) == k :: j == i
  }

  ghost predicate CandidatesOnce(s: Store) {
    forall k, k' | k in s.revisions && k' in s.revisions && k != k' ::
      s.revisions[k].provenance.candidateId != s.revisions[k'].provenance.candidateId
  }

  lemma LogCorresponds(s: Store)
    requires LogMirrored(s) && LogExact(s)
    ensures OneChangeEach(s)
  {
    forall k | k in s.revisions ensures exists i | 0 <= i < |s.changes| && i < |s.outbox| ::
      && KeyOf(s.changes[i]) == k && Mirrored(s, i)
      && forall j | 0 <= j < |s.changes| && KeyOf(s.changes[j]) == k :: j == i
    {
      assert Logged(s, k);
      var i :| 0 <= i < |s.changes| && KeyOf(s.changes[i]) == k;
      assert Mirrored(s, i);
    }
  }

  /**
   After any run: per scope the commit numbers are exactly 1..n; each memory's revisions are exactly
   1..currentRevision; changes, revisions and outbox records correspond one to one; no candidate is
   behind two revisions; and no two memories of a scope share a semantic key.
   */
  lemma CommitLogIsExact(actions: seq<Action>)
    ensures var s := Run(EMPTY, actions);
      && Numbered(s) && RevisionsExact(s) && |s.changes| == |s.outbox| && OneChangeEach(s)
      && CandidatesOnce(s) && KeysUnique(s)
  {
    EmptyInv();
    RunKeepsInv(EMPTY, actions);
    LogCorresponds(Run(EMPTY, actions));
  }

  /** Revisions, results and candidate records persist; a head only ever moves to a higher revision. */
  ghost predicate Advances(s: Store, s': Store) {
    && (forall k | k in s.revisions :: k in s'.revisions && s'.revisions[k] == s.revisions[k])
    && (forall rk | rk in s.results :: rk in s'.results && s'.results[rk] == s.results[rk])
    && (forall id | id in s.candidates :: id in s'.candidates && SameButStatus(s.candidates[id], s'.candidates[id]))
    && (forall m | m in s.heads :: m in s'.heads && HeadAdvances(s.heads[m], s'.heads[m]))
    && s.changes <= s'.changes
  }

  ghost predicate SameButStatus(c: Candidate, c': Candidate) {
    c' == c.(status := c'.status)
  }

  ghost predicate HeadAdvances(h: Head, h': Head) {
    h' == h || h.currentRevision < h'.currentRevision
  }

  lemma AcceptAdvances(s: Store, id: CandidateId, key: string, p: Plan, now: int)
    requires Chained(s) && Accepts(s, id, key, p, now)
    ensures Advances(s, AcceptedStore(s, id, key, p, now))
  {
    AcceptFresh(s, id, key, p, now);
    AcceptAdvancesHeads(s, id, key, p, now);
  }

  lemma AcceptAdvancesHeads(s: Store, id: CandidateId, key: string, p: Plan, now: int)
    requires Accepts(s, id, key, p, now)
    ensures var s' := AcceptedStore(s, id, key, p, now);
      forall m | m in s.heads :: m in s'.heads && HeadAdvances(s.heads[m], s'.heads[m])
  {
  }

  /** Gap-free chains alone are kept by every step, and every step advances. */
  lemma StepAdvances(s: Store, a: Action)
    requires Chained(s)
    ensures Chained(Step(s, a)) && Advances(s, Step(s, a))
  {
    match a
    case Ingest(id, candidate) => IngestAdvances(s, id, candidate);
    case SetStatus(id, status) => StatusAdvances(s, id, status);
    case Commit(request, verified, newMemoryId, now) => CommitAdvances(s, request, verified, newMemoryId, now);
  }

  lemma IngestAdvances(s: Store, id: CandidateId, candidate: Candidate)
    requires Chained(s)
    ensures Chained(Step(s, Ingest(id, candidate))) && Advances(s, Step(s, Ingest(id, candidate)))
  {
    SameRecordsAdvance(s, Step(s, Ingest(id, candidate)));
  }

  lemma StatusAdvances(s: Store, id: CandidateId, status: CandidateStatus)
    requires Chained(s)
    ensures Chained(Step(s, SetStatus(id, status))) && Advances(s, Step(s, SetStatus(id, status)))
  {
    SameRecordsAdvance(s, Step(s, SetStatus(id, status)));
  }

  /** Only candidate statuses change, and candidates and conflicts are added. */
  lemma SameRecordsAdvance(s: Store, s': Store)
    requires Chained(s) && s' == s.(candidates := s'.candidates, conflicts := s'.conflicts)
    requires forall id | id in s.candidates :: id in s'.candidates && SameButStatus(s.candidates[id], s'.candidates[id])
    ensures Chained(s') && Advances(s, s')
  {
    SameChains(s, s');
  }

  lemma SameChains(s: Store, s': Store)
    requires Chained(s) && s'.heads == s.heads && s'.revisions == s.revisions
    ensures Chained(s')
  {
    forall k | k in s'.revisions ensures RevisionFits(s', k) {
      assert RevisionFits(s, k);
    }
    forall m | m in s'.heads ensures CurrentStatus(s', m) {
      assert CurrentStatus(s, m);
    }
  }

  lemma CommitAdvances(s: Store, request: Request, verified: Option<AdmissionState>, newMemoryId: MemoryId, now: int)
    requires Chained(s)
    ensures var s' := Transact(s, request, verified, newMemoryId, now).0; Chained(s') && Advances(s, s')
  {
    var s', outcome :=
      Transact(s, request, verified, newMemoryId, now).0, Transact(s, request, verified, newMemoryId, now).1;
    var id, key := request.candidateId, request.idempotencyKey;
    CommitCases(s, request, verified, newMemoryId, now);
    if s' != s {
      if outcome.Conflicted? {
        SameRecordsAdvance(s, s');
      } else {
        var p := PlanFor(s, s.candidates[id], newMemoryId, now);
        AcceptAdvances(s, id, key, p, now);
        AcceptKeepsChains(s, id, key, p, now);
      }
    }
  }

  lemma AdvancesTrans(s: Store, t: Store, u: Store)
    requires Advances(s, t) && Advances(t, u)
    ensures Advances(s, u)
  {
    forall m | m in s.heads ensures m in u.heads && HeadAdvances(s.heads[m], u.heads[m]) {
      assert HeadAdvances(s.heads[m], t.heads[m]) && HeadAdvances(t.heads[m], u.heads[m]);
    }
  }

  lemma {:induction false} RunAdvances(s: Store, actions: seq<Action>)
    requires Chained(s)
    ensures Chained(Run(s, actions)) && Advances(s, Run(s, actions))
  {
    if actions != [] {
      var front := actions[..|actions| - 1];
      RunAdvances(s, front);
      StepAdvances(Run(s, front), actions[|actions| - 1]);
      AdvancesTrans(s, Run(s, front), Run(s, actions));
    }
  }

  /** Replaying an idempotency key later, whatever happened since, returns the first result and changes nothing. */
  lemma ReplayReturnsFirstResult(s: Store, request: Request, verified: Option<AdmissionState>, newMemoryId: MemoryId,
                                 now: int, since: seq<Action>,
                                 verified': Option<AdmissionState>, newMemoryId': MemoryId, now': int)
    requires Chained(s) && Transact(s, request, verified, newMemoryId, now).1.Committed?
    ensures var (first, outcome) := Transact(s, request, verified, newMemoryId, now);
      var later := Run(first, since);
      Transact(later, request, verified', newMemoryId', now') == (later, outcome)
  {
    var first := Transact(s, request, verified, newMemoryId, now).0;
    CommitStoresResult(s, request, verified, newMemoryId, now);
    CommitAdvances(s, request, verified, newMemoryId, now);
    RunAdvances(first, since);
    StoredResultIsReturned(Run(first, since), request, verified', newMemoryId', now');
  }

  lemma CommitStoresResult(s: Store, request: Request, verified: Option<AdmissionState>, newMemoryId: MemoryId,
                           now: int)
    requires Transact(s, request, verified, newMemoryId, now).1.Committed?
    ensures var (first, outcome) := Transact(s, request, verified, newMemoryId, now);
      && request.candidateId in first.candidates
      && (first.candidates[request.candidateId].scope, request.idempotencyKey) in first.results
      && first.results[(first.candidates[request.candidateId].scope, request.idempotencyKey)] == outcome.result
      && outcome.result.revision.provenance.candidateId == request.candidateId
  {
  }

  lemma StoredResultIsReturned(s: Store, request: Request, verified: Option<AdmissionState>, newMemoryId: MemoryId,
                               now: int)
    requires request.candidateId in s.candidates
    requires (s.candidates[request.candidateId].scope, request.idempotencyKey) in s.results
    requires var r := s.results[(s.candidates[request.candidateId].scope, request.idempotencyKey)];
      r.revision.provenance.candidateId == request.candidateId
    ensures Transact(s, request, verified, newMemoryId, now) ==
      (s, Committed(s.results[(s.candidates[request.candidateId].scope, request.idempotencyKey)]))
  {
  }

  /** Provider admission verified at any earlier moment still stands at the commit: no run changes what it covers. */
  lemma VerifiedAdmissionStands(s: Store, since: seq<Action>, request: Request, newMemoryId: MemoryId, now: int)
    requires Chained(s) && request.candidateId in s.candidates
    requires AdmissionFingerprint(request.candidateId, s.candidates[request.candidateId]).Success?
    ensures var verified := AdmissionFingerprint(request.candidateId, s.candidates[request.candidateId]).value;
      Transact(Run(s, since), request, verified, newMemoryId, now).1 != Failed(AdmissionChanged)
  {
    RunAdvances(s, since);
    AdmissionStands(s.candidates[request.candidateId], Run(s, since), request, newMemoryId, now);
  }

  lemma AdmissionStands(c: Candidate, later: Store, request: Request, newMemoryId: MemoryId, now: int)
    requires request.candidateId in later.candidates && SameButStatus(c, later.candidates[request.candidateId])
    requires AdmissionFingerprint(request.candidateId, c).Success?
    ensures Transact(later, request, AdmissionFingerprint(request.candidateId, c).value, newMemoryId, now).1
      != Failed(AdmissionChanged)
  {
  }

  /** A spent candidate commits nothing further under any key. */
  lemma SpentCandidateCommitsNothing(s: Store, k: RevisionKey, key: string, verified: Option<AdmissionState>,
                                     newMemoryId: MemoryId, now: int)
    requires CandidatesSpent(s) && k in s.revisions
    ensures var request := Request(s.revisions[k].provenance.candidateId, key);
      Transact(s, request, verified, newMemoryId, now).0 == s
  {
    assert Spent(s, k);
  }
}
