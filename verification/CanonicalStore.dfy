/** Candidates, heads, immutable revisions, the per-scope change log and the store that holds them. */
module CanonicalStore {
  import opened Prelude
  import opened ReferenceMerge

  /** A memory scope, identified by its joined scope key. */
  type Scope = string
  type MemoryId = string
  type CandidateId = string

  datatype MemoryClass = Episode | SemanticAssertion | PreferenceClass | RelationshipFact

  datatype MemoryType =
    | Preference | TechnicalFact | TransientState | ProjectState | Relationship | Event | Commitment | Habit
    | GeneralFact

  datatype Speaker = BySpeakerUser | ByAssistant | BySystem | ByTool | Mixed | UnknownSpeaker

  datatype Epistemic = Observed | UserAsserted | SystemObserved | Inferred | Synthesized | Uncertain

  datatype Operation = Create | Update | Supersede | Tombstone | Restore | MergeEvidence

  datatype MemoryStatus = Active | Tombstoned | Superseded

  datatype CandidateStatus = Pending | Accepted | Rejected | Conflicting | Expired

  datatype ProducerKind = UserProducer | SystemProducer | Provider | Runtime | Imported

  datatype Producer = Producer(kind: ProducerKind, id: string, details: string)

  datatype Content = Content(text: string, payload: string)

  /** A timestamp string: its parsed milliseconds, or one that `Date.parse` rejects. */
  datatype Time = Unparsable | At(millis: int)

  datatype Validity = Validity(observedAt: Option<Time>, validFrom: Option<Time>, validUntil: Option<Time>)

  /** What may never change along a memory. */
  datatype Identity = Identity(memoryClass: MemoryClass, memoryKind: string, memoryType: MemoryType,
                               semanticKey: string)

  datatype Relation = Equivalent | ExistingSubsumes | CandidateSubsumes | Contradicts | Unrelated

  datatype AdmissionOutcome = AdmittedCandidate | AdmittedMerge

  datatype Proof = Proof(policyVersion: string, curationProvider: string, recordId: string, outcome: AdmissionOutcome,
                         semanticPolicyVersion: Option<string>, relation: Option<Relation>, target: Option<MemoryId>)

  /** A candidate, stored under its id. */
  datatype Candidate = Candidate(
    scope: Scope, identity: Identity, speaker: Speaker, content: Content, validity: Validity,
    evidence: seq<EvidenceRef>, epistemic: Epistemic, producer: Producer, sources: seq<SourceRef>, fingerprint: string,
    proof: Option<Proof>, operation: Operation, baseMemoryId: Option<MemoryId>, baseRevision: Option<int>,
    status: CandidateStatus)

  datatype Head = Head(memoryId: MemoryId, scope: Scope, identity: Identity, currentRevision: int, status: MemoryStatus,
                       createdAt: int, updatedAt: int)

  datatype Provenance = Provenance(candidateId: CandidateId, fingerprint: string, producer: Producer,
                                   sources: seq<SourceRef>)

  /** The part of a revision that the operation decides. */
  datatype Body = Body(identity: Identity, speaker: Speaker, status: MemoryStatus, content: Content, validity: Validity,
                       evidence: seq<EvidenceRef>, epistemic: Epistemic, producer: Producer, sources: seq<SourceRef>,
                       fingerprint: string)

  /** Hashing is injective: the content hash is the content, the payload hash its preimage. */
  datatype Revision = Revision(memoryId: MemoryId, revision: int, scope: Scope, body: Body, contentHash: Content,
                               provenance: Provenance, committedAt: int, commitSeq: int)

  datatype PayloadHash = PayloadHash(memoryId: MemoryId, revision: int, status: MemoryStatus, content: Content,
                                     contentHash: Content, epistemic: Epistemic, memoryType: MemoryType,
                                     speaker: Speaker, semanticKey: string, fingerprint: string)

  datatype Change = Change(scope: Scope, commitSeq: int, memoryId: MemoryId, operation: Operation,
                           baseRevision: Option<int>, newRevision: int, idempotencyKey: string,
                           payloadHash: PayloadHash)

  datatype Outbox = Outbox(scope: Scope, commitSeq: int, memoryId: MemoryId, revision: int, operation: Operation)

  datatype Conflict = Conflict(candidateId: CandidateId, scope: Scope, memoryId: MemoryId, expected: int, current: int)

  datatype CommitResult = CommitResult(head: Head, revision: Revision, change: Change, outbox: Outbox)

  type RevisionKey = (MemoryId, int)

  datatype Store = Store(
    candidates: map<CandidateId, Candidate>, heads: map<MemoryId, Head>, revisions: map<RevisionKey, Revision>,
    sequences: map<Scope, int>, changes: seq<Change>, outbox: seq<Outbox>, conflicts: seq<Conflict>,
    results: map<(Scope, string), CommitResult>)

  const EMPTY: Store := Store(map[], map[], map[], map[], [], [], [], map[])

  function PayloadOf(r: Revision): PayloadHash {
    PayloadHash(r.memoryId, r.revision, r.body.status, r.body.content, r.contentHash, r.body.epistemic,
      r.body.identity.memoryType, r.body.speaker, r.body.identity.semanticKey, r.body.fingerprint)
  }

  function HeadOf(s: Store, m: MemoryId): Option<Head> {
    if m in s.heads then Some(s.heads[m]) else None
  }

  function RevisionAt(s: Store, k: RevisionKey): Option<Revision> {
    if k in s.revisions then Some(s.revisions[k]) else None
  }

  function HighSeq(s: Store, scope: Scope): int {
    if scope in s.sequences then s.sequences[scope] else 0
  }

  function WithStatus(s: Store, id: CandidateId, status: CandidateStatus): Store
    requires id in s.candidates
  {
    s.(candidates := s.candidates[id := s.candidates[id].(status := status)])
  }

  /** The changes of one scope, in commit order. */
  function Log(changes: seq<Change>, scope: Scope): seq<Change> {
    if changes == [] then []
    else
      var last := changes[|changes| - 1];
      Log(changes[..|changes| - 1], scope) + (if last.scope == scope then [last] else [])
  }

  /** The head that holds a semantic key of a scope, if any. */
  ghost predicate HoldsKey(s: Store, m: MemoryId, scope: Scope, semanticKey: string) {
    m in s.heads && s.heads[m].scope == scope && s.heads[m].identity.semanticKey == semanticKey
  }

  predicate KeyTaken(s: Store, scope: Scope, semanticKey: string) {
    exists m | m in s.heads :: s.heads[m].scope == scope && s.heads[m].identity.semanticKey == semanticKey
  }
}
