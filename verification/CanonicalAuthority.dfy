/** The commit transaction of the canonical authority. */
module CanonicalAuthority {
  import opened Prelude
  import opened ReferenceMerge
  import opened CanonicalStore

  datatype CommitError =
    | CandidateNotFound | KeyReused | NotPending | AdmissionMissing | AdmissionInvalid | NeedsReview
    | AdmissionChanged | UnsupportedOperation | MissingBase | MemoryNotFound | ScopeMismatch
    | IdentityChanged | MissingRevision | WrongStatus | IdentityCollision | SemanticCollision | RevisionExists

  datatype Request = Request(candidateId: CandidateId, idempotencyKey: string)

  datatype Outcome = Committed(result: CommitResult) | Conflicted(conflict: Conflict) | Failed(error: CommitError)

  // ---------------------------------------------------------------- provider admission

  /** What the admission hash covers. Evidence, operation, base, validity and status are not among it. */
  datatype AdmissionState = AdmissionState(
    id: CandidateId, scope: Scope, identity: Identity, speaker: Speaker, content: Content, epistemic: Epistemic,
    producer: Producer, sources: seq<SourceRef>, fingerprint: string, proof: Proof)

  predicate ProofFits(c: Candidate, p: Proof) {
    && !IsBlank(p.policyVersion) && !IsBlank(p.curationProvider) && StartsWith(p.recordId, "cur_")
    && ((p.outcome == AdmittedCandidate && c.operation == Create)
        || (&& p.outcome == AdmittedMerge && c.operation == MergeEvidence && p.target == c.baseMemoryId
            && p.semanticPolicyVersion.Some? && !IsBlank(p.semanticPolicyVersion.value)
            && p.relation.Some? && p.relation.value !in {Contradicts, Unrelated}))
  }

  function AdmissionFingerprint(id: CandidateId, c: Candidate): Result<Option<AdmissionState>, CommitError> {
    if c.producer.kind != Provider then Success(None)
    else if c.proof.None? then Failure(AdmissionMissing)
    else if !ProofFits(c, c.proof.value) then Failure(AdmissionInvalid)
    else if c.epistemic in {Inferred, Synthesized, Uncertain} then Failure(NeedsReview)
    else
      Success(Some(AdmissionState(id, c.scope, c.identity, c.speaker, c.content, c.epistemic, c.producer, c.sources,
        c.fingerprint, c.proof.value)))
  }

  // ---------------------------------------------------------------- planning the revision

  datatype Plan =
    | Refuse(error: CommitError)
    | Behind(memoryId: MemoryId, expected: int, current: int)
    | Revise(memoryId: MemoryId, base: Option<int>, newRevision: int, createdAt: int, body: Body)

  function CandidateBody(c: Candidate): Body {
    Body(c.identity, c.speaker, Active, c.content, c.validity, c.evidence, c.epistemic, c.producer, c.sources,
         c.fingerprint)
  }

  function MergeBody(c: Candidate, current: Body): Body {
    Body(c.identity, if current.speaker == c.speaker then current.speaker else Mixed, Active, current.content,
      current.validity, Merged(EvidenceKey, current.evidence + c.evidence), current.epistemic, c.producer,
      Merged(SourceKey, current.sources + c.sources), c.fingerprint)
  }

  /** Tombstone and restore carry everything over but the status. */
  function CarriedBody(head: Head, current: Body, status: MemoryStatus): Body {
    current.(status := status, identity := head.identity.(memoryType := current.identity.memoryType,
                                                          semanticKey := current.identity.semanticKey))
  }

  function PlanMutation(c: Candidate, memoryId: MemoryId, head: Head, current: Body): Plan {
    var revise := (body: Body) =>
      Revise(memoryId, Some(head.currentRevision), head.currentRevision + 1, head.createdAt, body);
    match c.operation
    case Update =>
      if head.status != Active then Refuse(WrongStatus) else revise(CandidateBody(c))
    case MergeEvidence =>
      if head.status != Active then Refuse(WrongStatus) else revise(MergeBody(c, current))
    case Tombstone =>
      if head.status == Tombstoned then Refuse(WrongStatus) else revise(CarriedBody(head, current, Tombstoned))
    case Restore =>
      if head.status != Tombstoned then Refuse(WrongStatus) else revise(CarriedBody(head, current, Active))
    case _ => Refuse(UnsupportedOperation)
  }

  function PlanFor(s: Store, c: Candidate, newMemoryId: MemoryId, now: int): Plan {
    if c.operation == Supersede then Refuse(UnsupportedOperation)
    else if c.operation == Create then Revise(newMemoryId, None, 1, now, CandidateBody(c))
    else if c.baseMemoryId.None? || c.baseRevision.None? then Refuse(MissingBase)
    else if c.baseMemoryId.value !in s.heads then Refuse(MemoryNotFound)
    else
      var head := s.heads[c.baseMemoryId.value];
      if head.scope != c.scope then Refuse(ScopeMismatch)
      else if head.currentRevision != c.baseRevision.value then
        Behind(c.baseMemoryId.value, c.baseRevision.value, head.currentRevision)
      else if head.identity != c.identity then Refuse(IdentityChanged)
      else if (c.baseMemoryId.value, head.currentRevision) !in s.revisions then Refuse(MissingRevision)
      else PlanMutation(c, c.baseMemoryId.value, head,
        s.revisions[(c.baseMemoryId.value, head.currentRevision)].body)
  }

  // ---------------------------------------------------------------- writing it

  function ResultFor(s: Store, id: CandidateId, c: Candidate, key: string, p: Plan, now: int): CommitResult
    requires p.Revise?
  {
    var commitSeq := HighSeq(s, c.scope) + 1;
    var revision := Revision(p.memoryId, p.newRevision, c.scope, p.body, p.body.content,
      Provenance(id, c.fingerprint, p.body.producer, p.body.sources), now, commitSeq);
    CommitResult(
      Head(p.memoryId, c.scope, p.body.identity, p.newRevision, p.body.status, p.createdAt, now),
      revision,
      Change(c.scope, commitSeq, p.memoryId, c.operation, p.base, p.newRevision, key, PayloadOf(revision)),
      Outbox(c.scope, commitSeq, p.memoryId, p.newRevision, c.operation))
  }

  function Written(s: Store, id: CandidateId, key: string, r: CommitResult): Store
    requires id in s.candidates
  {
    var scope := s.candidates[id].scope;
    Store(
      s.candidates[id := s.candidates[id].(status := Accepted)],
      s.heads[r.head.memoryId := r.head],
      s.revisions[(r.revision.memoryId, r.revision.revision) := r.revision],
      s.sequences[scope := r.change.commitSeq],
      s.changes + [r.change],
      s.outbox + [r.outbox],
      s.conflicts,
      s.results[(scope, key) := r])
  }

  /** One transaction: its outcome and the store after it (unchanged when it throws). */
  function Transact(s: Store, request: Request, verified: Option<AdmissionState>, newMemoryId: MemoryId, now: int)
    : (Store, Outcome)
  {
    var id, key := request.candidateId, request.idempotencyKey;
    if id !in s.candidates then (s, Failed(CandidateNotFound))
    else
      var c := s.candidates[id];
      if (c.scope, key) in s.results then
        var prior := s.results[(c.scope, key)];
        if prior.revision.provenance.candidateId != id then (s, Failed(KeyReused)) else (s, Committed(prior))
      else if c.status != Pending then (s, Failed(NotPending))
      else if AdmissionFingerprint(id, c).Failure? then (s, Failed(AdmissionFingerprint(id, c).error))
      else if AdmissionFingerprint(id, c).value != verified then (s, Failed(AdmissionChanged))
      else
        match PlanFor(s, c, newMemoryId, now)
        case Refuse(error) => (s, Failed(error))
        case Behind(memoryId, expected, current) =>
          var conflict := Conflict(id, c.scope, memoryId, expected, current);
          (WithStatus(s, id, Conflicting).(conflicts := s.conflicts + [conflict]), Conflicted(conflict))
        case Revise(memoryId, base, newRevision, createdAt, body) =>
          if newRevision == 1 && memoryId in s.heads then (s, Failed(IdentityCollision))
          else if newRevision == 1 && KeyTaken(s, c.scope, body.identity.semanticKey) then
            (s, Failed(SemanticCollision))
          else if (memoryId, newRevision) in s.revisions then (s, Failed(RevisionExists))
          else
            var r := ResultFor(s, id, c, key, Revise(memoryId, base, newRevision, createdAt, body), now);
            (Written(s, id, key, r), Committed(r))
  }

  // ---------------------------------------------------------------- the transaction as it runs

  /** The store as one transaction sees it: a draft that replaces the store only when the work returns. */
  class Authority {
    var store: Store

    constructor (s: Store)
      ensures store == s
    {
      store := s;
    }

    /** The switch on the operation of a mutation. */
    method RevisedBody(candidate: Candidate, head: Head, current: Body, ghost memoryId: MemoryId)
      returns (r: Result<Body, CommitError>)
      ensures match PlanMutation(candidate, memoryId, head, current)
        case Refuse(error) => r == Failure(error)
        case Revise(_, _, _, _, body) => r == Success(body)
        case Behind(_, _, _) => false
    {
      var body := CandidateBody(candidate);
      match candidate.operation {
        case Update =>
          if head.status != Active {
            return Failure(WrongStatus);
          }
        case MergeEvidence =>
          if head.status != Active {
            return Failure(WrongStatus);
          }
          var evidence := MergeRefs(EvidenceKey, current.evidence, candidate.evidence);
          var sources := MergeRefs(SourceKey, current.sources, candidate.sources);
          body := body.(content := current.content, validity := current.validity, epistemic := current.epistemic,
            speaker := if current.speaker == candidate.speaker then current.speaker else Mixed,
            evidence := evidence, sources := sources);
        case Tombstone =>
          if head.status == Tombstoned {
            return Failure(WrongStatus);
          }
          body := CarriedBody(head, current, Tombstoned);
        case Restore =>
          if head.status != Tombstoned {
            return Failure(WrongStatus);
          }
          body := CarriedBody(head, current, Active);
        case _ =>
          return Failure(UnsupportedOperation);
      }
      r := Success(body);
    }

    /** The writes of an accepted commit, one by one. */
    method WriteResult(s: Store, id: CandidateId, key: string, result: CommitResult) returns (draft: Store)
      requires id in s.candidates
      ensures draft == Written(s, id, key, result)
    {
      var scope := s.candidates[id].scope;
      draft := s.(sequences := s.sequences[scope := result.change.commitSeq]);
      draft := draft.(heads := draft.heads[result.head.memoryId := result.head]);
      var revisionKey := (result.revision.memoryId, result.revision.revision);
      draft := draft.(revisions := draft.revisions[revisionKey := result.revision]);
      draft := draft.(changes := draft.changes + [result.change]);
      draft := draft.(outbox := draft.outbox + [result.outbox]);
      draft := WithStatus(draft, id, Accepted);
      draft := draft.(results := draft.results[(scope, key) := result]);
    }

    method CommitInTransaction(request: Request, verified: Option<AdmissionState>, newMemoryId: MemoryId, now: int)
      returns (outcome: Outcome)
      modifies this
      ensures store == Transact(old(store), request, verified, newMemoryId, now).0
      ensures outcome == Transact(old(store), request, verified, newMemoryId, now).1
    {
      var draft := store;
      var id, key := request.candidateId, request.idempotencyKey;
      if id !in draft.candidates {
        return Failed(CandidateNotFound);
      }
      var candidate := draft.candidates[id];
      if (candidate.scope, key) in draft.results {
        var prior := draft.results[(candidate.scope, key)];
        if prior.revision.provenance.candidateId != id {
          return Failed(KeyReused);
        }
        return Committed(prior);
      }
      if candidate.status != Pending {
        return Failed(NotPending);
      }
      var fingerprint := AdmissionFingerprint(id, candidate);
      if fingerprint.Failure? {
        return Failed(fingerprint.error);
      }
      if fingerprint.value != verified {
        return Failed(AdmissionChanged);
      }
      if candidate.operation == Supersede {
        return Failed(UnsupportedOperation);
      }
      var memoryId, base, newRevision, createdAt := newMemoryId, None, 1, now;
      var body := CandidateBody(candidate);
      if candidate.operation != Create {
        if candidate.baseMemoryId.None? || candidate.baseRevision.None? {
          return Failed(MissingBase);
        }
        memoryId := candidate.baseMemoryId.value;
        var expected := candidate.baseRevision.value;
        if memoryId !in draft.heads {
          return Failed(MemoryNotFound);
        }
        var head := draft.heads[memoryId];
        if head.scope != candidate.scope {
          return Failed(ScopeMismatch);
        }
        if head.currentRevision != expected {
          var conflict := Conflict(id, candidate.scope, memoryId, expected, head.currentRevision);
          draft := WithStatus(draft, id, Conflicting);
          draft := draft.(conflicts := draft.conflicts + [conflict]);
          store := draft;
          return Conflicted(conflict);
        }
        if head.identity != candidate.identity {
          return Failed(IdentityChanged);
        }
        if (memoryId, head.currentRevision) !in draft.revisions {
          return Failed(MissingRevision);
        }
        base, newRevision, createdAt := Some(expected), expected + 1, head.createdAt;
        var revised := RevisedBody(candidate, head, draft.revisions[(memoryId, head.currentRevision)].body, memoryId);
        if revised.Failure? {
          return Failed(revised.error);
        }
        body := revised.value;
      }
      var result := ResultFor(draft, id, candidate, key, Revise(memoryId, base, newRevision, createdAt, body), now);
      if newRevision == 1 && memoryId in draft.heads {
        return Failed(IdentityCollision);
      }
      if newRevision == 1 && KeyTaken(draft, candidate.scope, body.identity.semanticKey) {
        return Failed(SemanticCollision);
      }
      if (memoryId, newRevision) in draft.revisions {
        return Failed(RevisionExists);
      }
      draft := WriteResult(draft, id, key, result);
      store := draft;
      outcome := Committed(result);
    }
  }
}
