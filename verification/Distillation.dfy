/**
 The canonicalization loop of one provider unit: look up the semantic key, propose a create or a merge,
 commit, and after a retryable collision look again, at most four times, while others write freely.
 */
module Distillation {
  import opened Prelude
  import opened CanonicalStore
  import opened CanonicalAuthority
  import opened CommitLog

  const MAX_SEMANTIC_ATTEMPTS := 4

  /** What the unit contributes; the hashes and the semantic relation are arbitrary functions. */
  datatype Unit = Unit(draft: Candidate, proof: Proof, fingerprintOf: Candidate -> string, relate: Revision -> Relation,
                       keyFor: Candidate -> string)

  datatype UnitOutcome = Canonical(memoryId: MemoryId) | EvidenceOnly | PendingReview | GovernanceRejected | Thrown

  // ---------------------------------------------------------------- lookups and proposals

  predicate HoldsCurrentKey(s: Store, m: MemoryId, scope: Scope, semanticKey: string) {
    && m in s.heads && s.heads[m].scope == scope
    && (m, s.heads[m].currentRevision) in s.revisions
    && s.revisions[(m, s.heads[m].currentRevision)].body.identity.semanticKey == semanticKey
  }

  /** The current revision that holds a semantic key of a scope. */
  function FindBySemanticKey(s: Store, scope: Scope, semanticKey: string): (r: Option<Revision>)
    requires Chained(s) && KeysUnique(s)
  {
    if exists m :: m in s.heads && HoldsCurrentKey(s, m, scope, semanticKey) then
      var m :| m in s.heads && HoldsCurrentKey(s, m, scope, semanticKey);
      Some(s.revisions[(m, s.heads[m].currentRevision)])
    else None
  }

  /** The candidate for a first commit of the key, with its own fingerprint. */
  function CreateInput(u: Unit): Candidate {
    var c := u.draft.(operation := Create, baseMemoryId := None, baseRevision := None, status := Pending,
                      proof := Some(u.proof.(outcome := AdmittedCandidate, target := None)));
    c.(fingerprint := u.fingerprintOf(c))
  }

  /** The candidate that merges the unit's evidence into the revision found for the key. */
  function MergeInput(u: Unit, target: Revision): Candidate {
    var c := u.draft.(
      identity := target.body.identity, content := target.body.content, epistemic := target.body.epistemic,
      operation := MergeEvidence, baseMemoryId := Some(target.memoryId), baseRevision := Some(target.revision),
      status := Pending,
      proof := Some(u.proof.(outcome := AdmittedMerge, relation := Some(u.relate(target)),
                             target := Some(target.memoryId))));
    c.(fingerprint := u.fingerprintOf(c))
  }

  /** Contradicting and unrelated targets go to review instead of being merged. */
  predicate Mergeable(u: Unit, target: Revision) {
    u.relate(target) != Contradicts && u.relate(target) != Unrelated
  }

  // ---------------------------------------------------------------- other writers

  function CandidateOf(a: Action): CandidateId {
    match a
    case Ingest(id, _) => id
    case SetStatus(id, _) => id
    case Commit(request, _, _, _) => request.candidateId
  }

  /** The actions of others never name a candidate of this run. */
  predicate Foreign(actions: seq<Action>, ids: seq<CandidateId>) {
    forall a | a in actions :: CandidateOf(a) !in ids
  }

  ghost predicate SameCandidate(s: Store, s': Store, id: CandidateId) {
    (id in s'.candidates <==> id in s.candidates) && (id in s.candidates ==> s'.candidates[id] == s.candidates[id])
  }

  /** No revision comes from the candidate. */
  ghost predicate Unwritten(s: Store, id: CandidateId) {
    forall k | k in s.revisions :: s.revisions[k].provenance.candidateId != id
  }

  /** Neither the candidate nor what it wrote changes. */
  ghost predicate Untouched(s: Store, s': Store, id: CandidateId) {
    SameCandidate(s, s', id) && (Unwritten(s, id) ==> Unwritten(s', id))
  }

  /** A step that names another candidate leaves this one alone. */
  lemma OtherStepLeavesAlone(s: Store, a: Action, id: CandidateId)
    requires CandidateOf(a) != id
    ensures Untouched(s, Step(s, a), id)
  {
    if a.Commit? {
      OtherCommitLeavesAlone(s, a.request, a.verified, a.newMemoryId, a.now, id);
    }
  }

  lemma OtherCommitLeavesAlone(s: Store, request: Request, verified: Option<AdmissionState>, newMemoryId: MemoryId,
                               now: int, id: CandidateId)
    requires request.candidateId != id
    ensures Untouched(s, Transact(s, request, verified, newMemoryId, now).0, id)
  {
  }

  lemma {:induction false} OtherRunLeavesAlone(s: Store, actions: seq<Action>, ids: seq<CandidateId>, id: CandidateId)
    requires Foreign(actions, ids) && id in ids
    ensures Untouched(s, Run(s, actions), id)
  {
    if actions != [] {
      var front := actions[..|actions| - 1];
      OtherRunLeavesAlone(s, front, ids, id);
      OtherStepLeavesAlone(Run(s, front), actions[|actions| - 1], id);
    }
  }

  // ---------------------------------------------------------------- forgetting is respected

  /** The key is held in the scope, and only by a tombstoned memory. */
  ghost predicate Forgotten(s: Store, scope: Scope, semanticKey: string) {
    && (exists m :: HoldsKey(s, m, scope, semanticKey))
    && forall m | HoldsKey(s, m, scope, semanticKey) :: s.heads[m].status == Tombstoned
  }

  /** From `s` to `s'` no forgotten key comes back. */
  ghost predicate RespectsForgetting(s: Store, s': Store) {
    forall scope: Scope, semanticKey: string :: Forgotten(s, scope, semanticKey) ==> Forgotten(s', scope, semanticKey)
  }

  lemma SameHeadsRespect(s: Store, s': Store)
    requires s'.heads == s.heads
    ensures RespectsForgetting(s, s')
  {
    forall scope: Scope, semanticKey: string | Forgotten(s, scope, semanticKey)
      ensures Forgotten(s', scope, semanticKey)
    {
      var m :| HoldsKey(s, m, scope, semanticKey);
      assert HoldsKey(s', m, scope, semanticKey);
    }
  }

  /** Committing a create or a merge never revives a tombstoned key, whatever was read before. */
  lemma CommitRespectsForgetting(s: Store, request: Request, verified: Option<AdmissionState>, newMemoryId: MemoryId,
                                 now: int)
    requires Chained(s) && KeysUnique(s)
    requires request.candidateId in s.candidates ==>
      s.candidates[request.candidateId].operation in {Create, MergeEvidence}
    ensures RespectsForgetting(s, Transact(s, request, verified, newMemoryId, now).0)
  {
    var s', outcome :=
      Transact(s, request, verified, newMemoryId, now).0, Transact(s, request, verified, newMemoryId, now).1;
    var id := request.candidateId;
    CommitCases(s, request, verified, newMemoryId, now);
    if s' == s || outcome.Conflicted? {
      SameHeadsRespect(s, s');
    } else {
      AcceptRespectsForgetting(s, id, request.idempotencyKey, PlanFor(s, s.candidates[id], newMemoryId, now), now);
    }
  }

  lemma AcceptRespectsForgetting(s: Store, id: CandidateId, key: string, p: Plan, now: int)
    requires Chained(s) && KeysUnique(s) && Accepts(s, id, key, p, now)
    requires s.candidates[id].operation in {Create, MergeEvidence}
    ensures RespectsForgetting(s, AcceptedStore(s, id, key, p, now))
  {
    AcceptKeepsKeys(s, id, key, p, now);
    if s.candidates[id].operation == MergeEvidence {
      assert CurrentStatus(s, p.memoryId);
    }
    assert p.memoryId in s.heads ==> s.heads[p.memoryId].status == Active;
    NewHeadRespects(s, AcceptedStore(s, id, key, p, now), p.memoryId);
  }

  /** Writing one head that was absent or active keeps every tombstoned key, since keys stay unique. */
  lemma NewHeadRespects(s: Store, s': Store, m: MemoryId)
    requires KeysUnique(s') && m in s'.heads && s'.heads == s.heads[m := s'.heads[m]]
    requires m in s.heads ==> s.heads[m].status == Active
    ensures RespectsForgetting(s, s')
  {
    forall scope: Scope, semanticKey: string | Forgotten(s, scope, semanticKey)
      ensures Forgotten(s', scope, semanticKey)
    {
      var holder :| HoldsKey(s, holder, scope, semanticKey);
      assert holder != m && HoldsKey(s', holder, scope, semanticKey);
    }
  }

  // ---------------------------------------------------------------- one attempt

  /** What happens outside during one attempt: answers, and the actions of others between its steps. */
  datatype Outside = Outside(
    rejected: bool, admitted: bool, newMemoryId: MemoryId, now: int,
    beforeIngest: seq<Action>, beforeGovernance: seq<Action>, beforeCommit: seq<Action>, beforeSettle: seq<Action>,
    beforeLookup: seq<Action>)

  predicate ForeignOutside(o: Outside, ids: seq<CandidateId>) {
    && Foreign(o.beforeIngest, ids) && Foreign(o.beforeGovernance, ids) && Foreign(o.beforeCommit, ids)
    && Foreign(o.beforeSettle, ids) && Foreign(o.beforeLookup, ids)
  }

  datatype AttemptResult = Won(memoryId: MemoryId) | Collided | Refused | Aborted

  /** An attempt: the store after it, how it ended, and the store around its commit if it committed. */
  datatype Attempt = Attempt(store: Store, result: AttemptResult, commit: Option<(Store, Store)>)

  /** The commit transaction of a stored candidate and what the retry boundary makes of its outcome. */
  function Committing(s: Store, request: Request, verified: Option<AdmissionState>, o: Outside): Attempt {
    var (s', outcome) := Transact(s, request, verified, o.newMemoryId, o.now);
    match outcome
    case Committed(result) => Attempt(s', Won(result.head.memoryId), Some((s, s')))
    case Conflicted(_) =>
      Attempt(Step(Run(s', o.beforeSettle), SetStatus(request.candidateId, Conflicting)), Collided, None)
    case Failed(error) =>
      if error == SemanticCollision then
        Attempt(Step(Run(s', o.beforeSettle), SetStatus(request.candidateId, Conflicting)), Collided, None)
      else Attempt(s', Aborted, None)
  }

  /** Governance and admission of a stored candidate, then the commit. */
  function Deciding(s: Store, u: Unit, id: CandidateId, c: Candidate, o: Outside): Attempt {
    if o.rejected then Attempt(Step(s, SetStatus(id, Rejected)), Refused, None)
    else if id !in s.candidates then Attempt(s, Aborted, None)
    else
      var verified := AdmissionFingerprint(id, s.candidates[id]);
      if verified.Failure? || (verified.value.Some? && !o.admitted) then Attempt(s, Aborted, None)
      else Committing(Run(s, o.beforeCommit), Request(id, u.keyFor(c)), verified.value, o)
  }

  function Attempting(s: Store, u: Unit, id: CandidateId, c: Candidate, o: Outside): Attempt {
    var before := Run(s, o.beforeIngest);
    if !Validated(c) then Attempt(before, Aborted, None)
    else Deciding(Run(Step(before, Ingest(id, c)), o.beforeGovernance), u, id, c, o)
  }

  // ---------------------------------------------------------------- the retry loop

  /** Unique keys are what a lookup needs. */
  ghost predicate Keyed(s: Store) { Chained(s) && KeysUnique(s) }

  ghost function Lookup(s: Store, scope: Scope, semanticKey: string): Option<Revision> {
    if Keyed(s) then FindBySemanticKey(s, scope, semanticKey) else None
  }

  datatype UnitRun = UnitRun(store: Store, outcome: UnitOutcome, attempts: seq<Attempt>)

  ghost function Prefixed(attempts: seq<Attempt>, r: UnitRun): UnitRun {
    r.(attempts := attempts + r.attempts)
  }

  /** The loop from its n-th attempt on. */
  ghost function Retrying(s: Store, u: Unit, c: Candidate, ids: seq<CandidateId>, outs: seq<Outside>, n: nat): UnitRun
    requires n < |ids| == |outs|
    decreases |outs| - n, 1
  {
    var t := Attempting(s, u, ids[n], c, outs[n]);
    match t.result
    case Won(m) => UnitRun(t.store, Canonical(m), [t])
    case Refused => UnitRun(t.store, GovernanceRejected, [t])
    case Aborted => UnitRun(t.store, Thrown, [t])
    case Collided =>
      if n + 1 == |outs| then UnitRun(t.store, Thrown, [t])
      else
        var s' := Run(t.store, outs[n].beforeLookup);
        LookingAgain(s', t, u, Lookup(s', u.draft.scope, u.draft.identity.semanticKey), ids, outs, n + 1)
  }

  /** After a collision: what the key holds now decides whether the n-th attempt is made. */
  ghost function LookingAgain(s: Store, t: Attempt, u: Unit, latest: Option<Revision>, ids: seq<CandidateId>,
                              outs: seq<Outside>, n: nat): UnitRun
    requires n < |ids| == |outs|
    decreases |outs| - n, 2
  {
    match latest
    case None => UnitRun(s, Thrown, [t])
    case Some(target) =>
      if target.body.status == Tombstoned then UnitRun(s, EvidenceOnly, [t])
      else if !Mergeable(u, target) then UnitRun(s, PendingReview, [t])
      else
        Prefixed([t], Retrying(s, u, MergeInput(u, target), ids, outs, n))
  }

  /** The first proposal, from what the key holds. */
  ghost function Proposing(s: Store, u: Unit, current: Option<Revision>, ids: seq<CandidateId>,
                           outs: seq<Outside>): UnitRun
    requires |ids| == |outs| == MAX_SEMANTIC_ATTEMPTS
  {
    match current
    case None => Retrying(s, u, CreateInput(u), ids, outs, 0)
    case Some(target) =>
      if target.body.status == Tombstoned then UnitRun(s, EvidenceOnly, [])
      else if !Mergeable(u, target) then UnitRun(s, PendingReview, [])
      else Retrying(s, u, MergeInput(u, target), ids, outs, 0)
  }

  /** The whole unit: two lookups (an exact fingerprint hit saves the second), then the retry loop. */
  ghost function Canonicalizing(s: Store, u: Unit, exactFirst: bool, beforeExact: seq<Action>, beforeKey: seq<Action>,
                                ids: seq<CandidateId>, outs: seq<Outside>): UnitRun
    requires |ids| == |outs| == MAX_SEMANTIC_ATTEMPTS
  {
    var first := Run(s, beforeExact);
    var exact := Lookup(first, u.draft.scope, u.draft.identity.semanticKey);
    if exactFirst && exact.Some? && exact.value.body.fingerprint == CreateInput(u).fingerprint then
      Proposing(first, u, exact, ids, outs)
    else
      var second := Run(first, beforeKey);
      Proposing(second, u, Lookup(second, u.draft.scope, u.draft.identity.semanticKey), ids, outs)
  }

  lemma StepKeepsKeyed(s: Store, a: Action)
    requires Keyed(s)
    ensures Keyed(Step(s, a))
  {
    StepAdvances(s, a);
    if a.Commit? {
      CommitCases(s, a.request, a.verified, a.newMemoryId, a.now);
      var id, key := a.request.candidateId, a.request.idempotencyKey;
      if Step(s, a) != s && !Transact(s, a.request, a.verified, a.newMemoryId, a.now).1.Conflicted? {
        AcceptKeepsKeys(s, id, key, PlanFor(s, s.candidates[id], a.newMemoryId, a.now), a.now);
      }
    }
  }

  lemma {:induction false} RunKeepsKeyed(s: Store, actions: seq<Action>)
    requires Keyed(s)
    ensures Keyed(Run(s, actions))
  {
    if actions != [] {
      RunKeepsKeyed(s, actions[..|actions| - 1]);
      StepKeepsKeyed(Run(s, actions[..|actions| - 1]), actions[|actions| - 1]);
    }
  }

  // ---------------------------------------------------------------- what every attempt leaves behind

  /** How the candidate of an attempt stands once the attempt has ended. */
  ghost predicate Settled(s: Store, id: CandidateId, result: AttemptResult) {
    match result
    case Won(_) => id in s.candidates && s.candidates[id].status == Accepted && !Unwritten(s, id)
    case Collided => id in s.candidates && s.candidates[id].status == Conflicting && Unwritten(s, id)
    case Refused => id in s.candidates && s.candidates[id].status == Rejected && Unwritten(s, id)
    case Aborted => Unwritten(s, id)
  }

  /** The stored candidate is still pending and has written nothing. */
  ghost predicate Proposed(s: Store, id: CandidateId) {
    && id in s.candidates && s.candidates[id].status == Pending && s.candidates[id].operation in {Create, MergeEvidence}
    && Unwritten(s, id)
  }

  ghost predicate AttemptSound(t: Attempt, id: CandidateId) {
    && Inv(t.store) && Settled(t.store, id, t.result)
    && (t.commit.Some? <==> t.result.Won?)
    && (t.commit.Some? ==> RespectsForgetting(t.commit.value.0, t.commit.value.1))
  }

  lemma AbsentUnwritten(s: Store, id: CandidateId)
    requires CandidatesSpent(s) && id !in s.candidates
    ensures Unwritten(s, id)
  {
    forall k | k in s.revisions ensures s.revisions[k].provenance.candidateId != id {
      assert Spent(s, k);
    }
  }

  /** A pending candidate that commits wrote a new revision; otherwise nothing was written for it. */
  lemma CommitOfProposed(s: Store, request: Request, verified: Option<AdmissionState>, newMemoryId: MemoryId, now: int)
    requires Chained(s) && ResultsKept(s) && Proposed(s, request.candidateId)
    ensures var (s', outcome) := Transact(s, request, verified, newMemoryId, now);
      var id := request.candidateId;
      && (outcome.Committed? ==> Settled(s', id, Won(outcome.result.head.memoryId)))
      && (!outcome.Committed? ==> id in s'.candidates && Unwritten(s', id))
  {
    var id, key := request.candidateId, request.idempotencyKey;
    var c := s.candidates[id];
    NothingToReplay(s, id, key);
    if !Transact(s, request, verified, newMemoryId, now).1.Committed? {
      UncommittedWritesNothing(s, request, verified, newMemoryId, now);
    } else {
      CommitCases(s, request, verified, newMemoryId, now);
      AcceptWrites(s, id, key, PlanFor(s, c, newMemoryId, now), now);
    }
  }

  lemma NothingToReplay(s: Store, id: CandidateId, key: string)
    requires ResultsKept(s) && id in s.candidates && Unwritten(s, id)
    ensures var rk := (s.candidates[id].scope, key);
      rk in s.results ==> s.results[rk].revision.provenance.candidateId != id
  {
    var rk := (s.candidates[id].scope, key);
    if rk in s.results {
      assert ResultKept(s, rk);
    }
  }

  lemma UncommittedWritesNothing(s: Store, request: Request, verified: Option<AdmissionState>, newMemoryId: MemoryId,
                                 now: int)
    requires !Transact(s, request, verified, newMemoryId, now).1.Committed?
    ensures var s' := Transact(s, request, verified, newMemoryId, now).0;
      s'.candidates.Keys == s.candidates.Keys && s'.revisions == s.revisions
  {
  }

  lemma AcceptWrites(s: Store, id: CandidateId, key: string, p: Plan, now: int)
    requires id in s.candidates && p.Revise?
    ensures Settled(AcceptedStore(s, id, key, p, now), id, Won(p.memoryId))
  {
    var s', r := AcceptedStore(s, id, key, p, now), AcceptResult(s, id, key, p, now).revision;
    assert (r.memoryId, r.revision) in s'.revisions;
    assert s'.revisions[(r.memoryId, r.revision)] == r;
  }

  lemma StatusIsSet(s: Store, id: CandidateId, status: CandidateStatus)
    requires id in s.candidates && status != Pending && Unwritten(s, id)
    ensures var t := Step(s, SetStatus(id, status));
      id in t.candidates && t.candidates[id].status == status && Unwritten(t, id)
  {
  }

  lemma CommittingIsSound(s: Store, request: Request, verified: Option<AdmissionState>, o: Outside,
                          ids: seq<CandidateId>)
    requires Inv(s) && Proposed(s, request.candidateId) && ForeignOutside(o, ids) && request.candidateId in ids
    ensures AttemptSound(Committing(s, request, verified, o), request.candidateId)
  {
    var id := request.candidateId;
    var (s', outcome) := Transact(s, request, verified, o.newMemoryId, o.now);
    CommitOfProposed(s, request, verified, o.newMemoryId, o.now);
    CommitKeepsInv(s, request, verified, o.newMemoryId, o.now);
    CommitRespectsForgetting(s, request, verified, o.newMemoryId, o.now);
    if Committing(s, request, verified, o).result.Collided? {
      SettlingIsSound(s', id, o.beforeSettle, ids);
    }
  }

  lemma SettlingIsSound(s: Store, id: CandidateId, others: seq<Action>, ids: seq<CandidateId>)
    requires Inv(s) && id in s.candidates && Unwritten(s, id) && Foreign(others, ids) && id in ids
    ensures var t := Step(Run(s, others), SetStatus(id, Conflicting)); Inv(t) && Settled(t, id, Collided)
  {
    OtherRunLeavesAlone(s, others, ids, id);
    RunKeepsInv(s, others);
    StatusIsSet(Run(s, others), id, Conflicting);
    StepKeepsInv(Run(s, others), SetStatus(id, Conflicting));
  }

  lemma RejectingIsSound(s: Store, id: CandidateId)
    requires Inv(s) && Proposed(s, id)
    ensures AttemptSound(Attempt(Step(s, SetStatus(id, Rejected)), Refused, None), id)
  {
    StatusIsSet(s, id, Rejected);
    StepKeepsInv(s, SetStatus(id, Rejected));
  }

  lemma DecidingIsSound(s: Store, u: Unit, id: CandidateId, c: Candidate, o: Outside, ids: seq<CandidateId>)
    requires Inv(s) && Proposed(s, id) && ForeignOutside(o, ids) && id in ids
    ensures AttemptSound(Deciding(s, u, id, c, o), id)
  {
    if o.rejected {
      RejectingIsSound(s, id);
    } else {
      var verified := AdmissionFingerprint(id, s.candidates[id]);
      if verified.Success? && (verified.value.None? || o.admitted) {
        OtherRunLeavesAlone(s, o.beforeCommit, ids, id);
        RunKeepsInv(s, o.beforeCommit);
        CommittingIsSound(Run(s, o.beforeCommit), Request(id, u.keyFor(c)), verified.value, o, ids);
      }
    }
  }

  lemma AttemptingIsSound(s: Store, u: Unit, id: CandidateId, c: Candidate, o: Outside, ids: seq<CandidateId>)
    requires Inv(s) && id !in s.candidates && ForeignOutside(o, ids) && id in ids
    requires c.operation in {Create, MergeEvidence}
    ensures AttemptSound(Attempting(s, u, id, c, o), id)
  {
    var before := Run(s, o.beforeIngest);
    OtherRunLeavesAlone(s, o.beforeIngest, ids, id);
    RunKeepsInv(s, o.beforeIngest);
    AbsentUnwritten(before, id);
    if Validated(c) {
      var ingested := Step(before, Ingest(id, c));
      StepKeepsInv(before, Ingest(id, c));
      OtherRunLeavesAlone(ingested, o.beforeGovernance, ids, id);
      RunKeepsInv(ingested, o.beforeGovernance);
      DecidingIsSound(Run(ingested, o.beforeGovernance), u, id, c, o, ids);
    }
  }

  // ---------------------------------------------------------------- the whole unit

  /** The ids are the run's own: distinct, unused so far, and never named by others. */
  ghost predicate OwnIds(s: Store, ids: seq<CandidateId>, outs: seq<Outside>, n: nat) {
    && |ids| == |outs|
    && (forall i, j | 0 <= i < j < |ids| :: ids[i] != ids[j])
    && (forall i | n <= i < |ids| :: ids[i] !in s.candidates)
    && (forall i | 0 <= i < |outs| :: ForeignOutside(outs[i], ids))
  }

  /** The attempt's candidate is settled; a commit, if it made one, revived no forgotten key. */
  ghost predicate AttemptStands(store: Store, a: Attempt, id: CandidateId) {
    && Settled(store, id, a.result)
    && (a.commit.Some? <==> a.result.Won?)
    && (a.commit.Some? ==> RespectsForgetting(a.commit.value.0, a.commit.value.1))
  }

  /**
   The attempts used the ids from the n-th on. All but the last collided and left their candidate in
   CONFLICT with nothing written; only the last may have committed, and its commit revived no forgotten key.
   */
  ghost predicate UnitSound(r: UnitRun, ids: seq<CandidateId>, n: nat) {
    && n + |r.attempts| <= |ids|
    && (forall i | 0 <= i < |r.attempts| :: AttemptStands(r.store, r.attempts[i], ids[n + i]))
    && (forall i | 0 <= i < |r.attempts| - 1 :: r.attempts[i].result.Collided?)
    && (r.outcome.Canonical? <==> r.attempts != [] && r.attempts[|r.attempts| - 1].result.Won?)
  }

  lemma UntouchedTrans(s: Store, t: Store, u: Store, id: CandidateId)
    requires Untouched(s, t, id) && Untouched(t, u, id)
    ensures Untouched(s, u, id)
  {
  }

  /** An attempt leaves every other candidate of the run alone. */
  lemma AttemptLeavesOthers(s: Store, u: Unit, id: CandidateId, c: Candidate, o: Outside, ids: seq<CandidateId>,
                            other: CandidateId)
    requires ForeignOutside(o, ids) && other in ids && other != id
    ensures Untouched(s, Attempting(s, u, id, c, o).store, other)
  {
    var before := Run(s, o.beforeIngest);
    OtherRunLeavesAlone(s, o.beforeIngest, ids, other);
    if Validated(c) {
      var ingested := Step(before, Ingest(id, c));
      var decided := Run(ingested, o.beforeGovernance);
      OtherStepLeavesAlone(before, Ingest(id, c), other);
      OtherRunLeavesAlone(ingested, o.beforeGovernance, ids, other);
      DecisionLeavesOthers(decided, u, id, c, o, ids, other);
      UntouchedTrans(s, before, ingested, other);
      UntouchedTrans(s, ingested, decided, other);
      UntouchedTrans(s, decided, Deciding(decided, u, id, c, o).store, other);
    }
  }

  lemma DecisionLeavesOthers(s: Store, u: Unit, id: CandidateId, c: Candidate, o: Outside, ids: seq<CandidateId>,
                             other: CandidateId)
    requires ForeignOutside(o, ids) && other in ids && other != id
    ensures Untouched(s, Deciding(s, u, id, c, o).store, other)
  {
    OtherStepLeavesAlone(s, SetStatus(id, Rejected), other);
    if id in s.candidates && AdmissionFingerprint(id, s.candidates[id]).Success? {
      var t := Run(s, o.beforeCommit);
      OtherRunLeavesAlone(s, o.beforeCommit, ids, other);
      CommittingLeavesOthers(t, Request(id, u.keyFor(c)), AdmissionFingerprint(id, s.candidates[id]).value, o, ids,
                             other);
      UntouchedTrans(s, t, Committing(t, Request(id, u.keyFor(c)), AdmissionFingerprint(id, s.candidates[id]).value,
                                      o).store, other);
    }
  }

  lemma CommittingLeavesOthers(s: Store, request: Request, verified: Option<AdmissionState>, o: Outside,
                               ids: seq<CandidateId>, other: CandidateId)
    requires ForeignOutside(o, ids) && other in ids && other != request.candidateId
    ensures Untouched(s, Committing(s, request, verified, o).store, other)
  {
    var s' := Transact(s, request, verified, o.newMemoryId, o.now).0;
    var t := Run(s', o.beforeSettle);
    OtherCommitLeavesAlone(s, request, verified, o.newMemoryId, o.now, other);
    OtherRunLeavesAlone(s', o.beforeSettle, ids, other);
    OtherStepLeavesAlone(t, SetStatus(request.candidateId, Conflicting), other);
    UntouchedTrans(s, s', t, other);
    UntouchedTrans(s, t, Step(t, SetStatus(request.candidateId, Conflicting)), other);
  }

  ghost predicate AllUntouched(s: Store, s': Store, ids: seq<CandidateId>) {
    forall j | 0 <= j < |ids| :: Untouched(s, s', ids[j])
  }

  ghost predicate OthersUntouched(s: Store, s': Store, ids: seq<CandidateId>, n: nat) {
    forall j | 0 <= j < |ids| && j != n :: Untouched(s, s', ids[j])
  }

  ghost predicate EarlierUntouched(s: Store, s': Store, ids: seq<CandidateId>, n: nat) {
    forall j | 0 <= j < n && j < |ids| :: Untouched(s, s', ids[j])
  }

  lemma ForeignLeavesAllAlone(s: Store, actions: seq<Action>, ids: seq<CandidateId>)
    requires Foreign(actions, ids)
    ensures AllUntouched(s, Run(s, actions), ids)
  {
    forall j | 0 <= j < |ids| ensures Untouched(s, Run(s, actions), ids[j]) {
      OtherRunLeavesAlone(s, actions, ids, ids[j]);
    }
  }

  lemma OthersThenAll(s: Store, t: Store, u: Store, ids: seq<CandidateId>, n: nat)
    requires OthersUntouched(s, t, ids, n) && AllUntouched(t, u, ids)
    ensures OthersUntouched(s, u, ids, n)
  {
    forall j | 0 <= j < |ids| && j != n ensures Untouched(s, u, ids[j]) {
      UntouchedTrans(s, t, u, ids[j]);
    }
  }

  lemma OthersThenEarlier(s: Store, t: Store, u: Store, ids: seq<CandidateId>, n: nat)
    requires OthersUntouched(s, t, ids, n) && EarlierUntouched(t, u, ids, n)
    ensures EarlierUntouched(s, u, ids, n)
  {
    forall j | 0 <= j < n && j < |ids| ensures Untouched(s, u, ids[j]) {
      UntouchedTrans(s, t, u, ids[j]);
    }
  }

  /** The n-th attempt leaves the other ids alone, so the later ones are still unused. */
  lemma AttemptLeavesIds(s: Store, u: Unit, c: Candidate, ids: seq<CandidateId>, outs: seq<Outside>, n: nat)
    requires OwnIds(s, ids, outs, n) && n < |ids|
    ensures var t := Attempting(s, u, ids[n], c, outs[n]);
      OthersUntouched(s, t.store, ids, n) && OwnIds(t.store, ids, outs, n + 1)
  {
    forall j | 0 <= j < |ids| && j != n ensures Untouched(s, Attempting(s, u, ids[n], c, outs[n]).store, ids[j]) {
      AttemptLeavesOthers(s, u, ids[n], c, outs[n], ids, ids[j]);
    }
  }

  lemma IdsStayUnused(s: Store, s': Store, ids: seq<CandidateId>, outs: seq<Outside>, n: nat)
    requires OwnIds(s, ids, outs, n) && AllUntouched(s, s', ids)
    ensures OwnIds(s', ids, outs, n)
  {
  }

  lemma LastAttemptIsSound(s: Store, t: Attempt, outcome: UnitOutcome, ids: seq<CandidateId>, n: nat)
    requires n < |ids| && AttemptStands(s, t, ids[n]) && (outcome.Canonical? <==> t.result.Won?)
    ensures UnitSound(UnitRun(s, outcome, [t]), ids, n)
  {
  }

  lemma CollisionStands(s: Store, s': Store, t: Attempt, id: CandidateId)
    requires AttemptStands(s, t, id) && t.result.Collided? && Untouched(s, s', id)
    ensures AttemptStands(s', t, id)
  {
  }

  lemma RetryExtends(t: Attempt, rest: UnitRun, ids: seq<CandidateId>, n: nat)
    requires n < |ids| && UnitSound(rest, ids, n + 1) && rest.attempts != []
    requires t.result.Collided? && AttemptStands(rest.store, t, ids[n])
    ensures UnitSound(rest.(attempts := [t] + rest.attempts), ids, n)
  {
    var r := rest.(attempts := [t] + rest.attempts);
    forall i | 0 <= i < |r.attempts| ensures AttemptStands(r.store, r.attempts[i], ids[n + i]) {
      if i > 0 {
        assert r.attempts[i] == rest.attempts[i - 1] && n + i == n + 1 + (i - 1);
      }
    }
  }

  /** What the loop from its n-th attempt on guarantees. */
  ghost predicate LoopSound(s: Store, r: UnitRun, ids: seq<CandidateId>, n: nat) {
    Inv(r.store) && r.attempts != [] && UnitSound(r, ids, n) && EarlierUntouched(s, r.store, ids, n)
  }

  lemma LoopExtends(s: Store, s': Store, t: Attempt, rest: UnitRun, ids: seq<CandidateId>, n: nat)
    requires 0 < n < |ids| && OthersUntouched(s, s', ids, n - 1) && LoopSound(s', rest, ids, n)
    requires AttemptStands(s', t, ids[n - 1]) && t.result.Collided?
    ensures LoopSound(s, rest.(attempts := [t] + rest.attempts), ids, n - 1)
  {
    CollisionStands(s', rest.store, t, ids[n - 1]);
    RetryExtends(t, rest, ids, n - 1);
    OthersThenEarlier(s, s', rest.store, ids, n - 1);
  }

  lemma {:induction false} RetryingIsSound(s: Store, u: Unit, c: Candidate, ids: seq<CandidateId>, outs: seq<Outside>,
                                           n: nat)
    requires Inv(s) && OwnIds(s, ids, outs, n) && n < |ids| && c.operation in {Create, MergeEvidence}
    ensures LoopSound(s, Retrying(s, u, c, ids, outs, n), ids, n)
    decreases |outs| - n, 1
  {
    var t := Attempting(s, u, ids[n], c, outs[n]);
    AttemptingIsSound(s, u, ids[n], c, outs[n], ids);
    AttemptLeavesIds(s, u, c, ids, outs, n);
    if t.result.Collided? && n + 1 < |outs| {
      var s' := Run(t.store, outs[n].beforeLookup);
      ForeignLeavesAllAlone(t.store, outs[n].beforeLookup, ids);
      OthersThenAll(s, t.store, s', ids, n);
      CollisionStands(t.store, s', t, ids[n]);
      RunKeepsInv(t.store, outs[n].beforeLookup);
      IdsStayUnused(t.store, s', ids, outs, n + 1);
      LookingAgainIsSound(s, s', t, u, Lookup(s', u.draft.scope, u.draft.identity.semanticKey), ids, outs, n + 1);
    } else {
      LastAttemptIsSound(t.store, t, Retrying(s, u, c, ids, outs, n).outcome, ids, n);
    }
  }

  lemma {:induction false} LookingAgainIsSound(s: Store, s': Store, t: Attempt, u: Unit, latest: Option<Revision>,
                                               ids: seq<CandidateId>, outs: seq<Outside>, n: nat)
    requires 0 < n < |ids| == |outs| && Inv(s') && OwnIds(s', ids, outs, n) && OthersUntouched(s, s', ids, n - 1)
    requires AttemptStands(s', t, ids[n - 1]) && t.result.Collided?
    ensures LoopSound(s, LookingAgain(s', t, u, latest, ids, outs, n), ids, n - 1)
    decreases |outs| - n, 2
  {
    if latest.None? || latest.value.body.status == Tombstoned || !Mergeable(u, latest.value) {
      LastAttemptIsSound(s', t, LookingAgain(s', t, u, latest, ids, outs, n).outcome, ids, n - 1);
    } else {
      RetryingIsSound(s', u, MergeInput(u, latest.value), ids, outs, n);
      LoopExtends(s, s', t, Retrying(s', u, MergeInput(u, latest.value), ids, outs, n), ids, n);
    }
  }

  lemma ProposingIsSound(s: Store, u: Unit, current: Option<Revision>, ids: seq<CandidateId>, outs: seq<Outside>)
    requires Inv(s) && |ids| == |outs| == MAX_SEMANTIC_ATTEMPTS && OwnIds(s, ids, outs, 0)
    ensures var r := Proposing(s, u, current, ids, outs); Inv(r.store) && UnitSound(r, ids, 0)
  {
    if current.None? {
      RetryingIsSound(s, u, CreateInput(u), ids, outs, 0);
    } else if current.value.body.status != Tombstoned && Mergeable(u, current.value) {
      RetryingIsSound(s, u, MergeInput(u, current.value), ids, outs, 0);
    }
  }

  /**
   Whatever others commit between any two steps: the unit makes at most four attempts, commits in at most
   the last one, never revives a forgotten key, leaves every collided candidate in CONFLICT, and keeps the
   commit log intact.
   */
  lemma UnitNeverResurrects(s: Store, u: Unit, exactFirst: bool, beforeExact: seq<Action>, beforeKey: seq<Action>,
                            ids: seq<CandidateId>, outs: seq<Outside>)
    requires Inv(s) && |ids| == |outs| == MAX_SEMANTIC_ATTEMPTS && OwnIds(s, ids, outs, 0)
    requires Foreign(beforeExact, ids) && Foreign(beforeKey, ids)
    ensures var r := Canonicalizing(s, u, exactFirst, beforeExact, beforeKey, ids, outs);
      Inv(r.store) && UnitSound(r, ids, 0)
  {
    var first := Run(s, beforeExact);
    var second := Run(first, beforeKey);
    OthersBeforeLookup(s, beforeExact, ids, outs);
    OthersBeforeLookup(first, beforeKey, ids, outs);
    ProposingIsSound(first, u, Lookup(first, u.draft.scope, u.draft.identity.semanticKey), ids, outs);
    ProposingIsSound(second, u, Lookup(second, u.draft.scope, u.draft.identity.semanticKey), ids, outs);
  }

  lemma OthersBeforeLookup(s: Store, actions: seq<Action>, ids: seq<CandidateId>, outs: seq<Outside>)
    requires Inv(s) && OwnIds(s, ids, outs, 0) && Foreign(actions, ids)
    ensures Inv(Run(s, actions)) && OwnIds(Run(s, actions), ids, outs, 0)
  {
    RunKeepsInv(s, actions);
    ForeignLeavesAllAlone(s, actions, ids);
    IdsStayUnused(s, Run(s, actions), ids, outs, 0);
  }

  // ---------------------------------------------------------------- the loop as the service runs it

  lemma PrefixedTwice(before: seq<Attempt>, t: Attempt, r: UnitRun)
    ensures Prefixed(before, Prefixed([t], r)) == Prefixed(before + [t], r)
  {
    assert before + ([t] + r.attempts) == before + [t] + r.attempts;
  }

  lemma CommitKeepsKeyed(s: Store, request: Request, verified: Option<AdmissionState>, newMemoryId: MemoryId, now: int)
    requires Keyed(s)
    ensures Keyed(Transact(s, request, verified, newMemoryId, now).0)
  {
    StepKeepsKeyed(s, Commit(request, verified, newMemoryId, now));
  }

  class Distiller {
    var store: Store

    constructor (store: Store)
      ensures this.store == store
    {
      this.store := store;
    }

    /** The transaction, and the retry boundary that turns a retryable collision into CONFLICT. */
    method CommitOrSettle(request: Request, verified: Option<AdmissionState>, o: Outside)
      returns (result: AttemptResult)
      requires Keyed(store)
      modifies this
      ensures var t := Committing(old(store), request, verified, o); store == t.store && result == t.result
      ensures Keyed(store)
    {
      CommitKeepsKeyed(store, request, verified, o.newMemoryId, o.now);
      var committed := Transact(store, request, verified, o.newMemoryId, o.now);
      store := committed.0;
      if committed.1.Committed? {
        return Won(committed.1.result.head.memoryId);
      }
      if committed.1.Failed? && committed.1.error != SemanticCollision {
        return Aborted;
      }
      RunKeepsKeyed(store, o.beforeSettle);
      StepKeepsKeyed(Run(store, o.beforeSettle), SetStatus(request.candidateId, Conflicting));
      store := Step(Run(store, o.beforeSettle), SetStatus(request.candidateId, Conflicting));
      result := Collided;
    }

    /** One attempt: ingest, governance, admission, commit. */
    method TryOnce(u: Unit, id: CandidateId, candidate: Candidate, o: Outside) returns (result: AttemptResult)
      requires Keyed(store)
      modifies this
      ensures var t := Attempting(old(store), u, id, candidate, o); store == t.store && result == t.result
      ensures Keyed(store)
    {
      RunKeepsKeyed(store, o.beforeIngest);
      store := Run(store, o.beforeIngest);
      if !Validated(candidate) {
        return Aborted;
      }
      StepKeepsKeyed(store, Ingest(id, candidate));
      store := Step(store, Ingest(id, candidate));
      RunKeepsKeyed(store, o.beforeGovernance);
      store := Run(store, o.beforeGovernance);
      if o.rejected {
        StepKeepsKeyed(store, SetStatus(id, Rejected));
        store := Step(store, SetStatus(id, Rejected));
        return Refused;
      }
      if id !in store.candidates {
        return Aborted;
      }
      var verified := AdmissionFingerprint(id, store.candidates[id]);
      if verified.Failure? || (verified.value.Some? && !o.admitted) {
        return Aborted;
      }
      RunKeepsKeyed(store, o.beforeCommit);
      store := Run(store, o.beforeCommit);
      result := CommitOrSettle(Request(id, u.keyFor(candidate)), verified.value, o);
    }

    /** At most four attempts, each on what the key holds after the one before. */
    method Retry(u: Unit, proposal: Candidate, ids: seq<CandidateId>, outs: seq<Outside>)
      returns (outcome: UnitOutcome, ghost attempts: seq<Attempt>)
      requires Keyed(store) && |ids| == |outs| == MAX_SEMANTIC_ATTEMPTS
      modifies this
      ensures UnitRun(store, outcome, attempts) == Retrying(old(store), u, proposal, ids, outs, 0)
    {
      ghost var whole := Retrying(store, u, proposal, ids, outs, 0);
      var candidate, n, finished := proposal, 0, false;
      attempts, outcome := [], Thrown;
      while !finished
        invariant Keyed(store)
        invariant finished ==> whole == UnitRun(store, outcome, attempts)
        invariant !finished ==> n < |ids| && whole == Prefixed(attempts, Retrying(store, u, candidate, ids, outs, n))
        decreases !finished, |ids| - n
      {
        ghost var before, t := attempts, Attempting(store, u, ids[n], candidate, outs[n]);
        var result := TryOnce(u, ids[n], candidate, outs[n]);
        attempts, finished := attempts + [t], true;
        match result
        case Won(m) => outcome := Canonical(m);
        case Refused => outcome := GovernanceRejected;
        case Aborted => outcome := Thrown;
        case Collided =>
          if n + 1 == |outs| {
            outcome := Thrown;
          } else {
            RunKeepsKeyed(store, outs[n].beforeLookup);
            store := Run(store, outs[n].beforeLookup);
            var latest := FindBySemanticKey(store, u.draft.scope, u.draft.identity.semanticKey);
            if latest.None? {
              outcome := Thrown;
            } else if latest.value.body.status == Tombstoned {
              outcome := EvidenceOnly;
            } else if !Mergeable(u, latest.value) {
              outcome := PendingReview;
            } else {
              candidate, n, finished := MergeInput(u, latest.value), n + 1, false;
              PrefixedTwice(before, t, Retrying(store, u, candidate, ids, outs, n));
            }
          }
      }
    }

    method Propose(u: Unit, current: Option<Revision>, ids: seq<CandidateId>, outs: seq<Outside>)
      returns (outcome: UnitOutcome, ghost attempts: seq<Attempt>)
      requires Keyed(store) && |ids| == |outs| == MAX_SEMANTIC_ATTEMPTS
      modifies this
      ensures UnitRun(store, outcome, attempts) == Proposing(old(store), u, current, ids, outs)
    {
      var candidate := CreateInput(u);
      if current.Some? {
        if current.value.body.status == Tombstoned {
          return EvidenceOnly, [];
        }
        if !Mergeable(u, current.value) {
          return PendingReview, [];
        }
        candidate := MergeInput(u, current.value);
      }
      outcome, attempts := Retry(u, candidate, ids, outs);
    }

    method Canonicalize(u: Unit, exactFirst: bool, beforeExact: seq<Action>, beforeKey: seq<Action>,
                        ids: seq<CandidateId>, outs: seq<Outside>)
      returns (outcome: UnitOutcome, ghost attempts: seq<Attempt>)
      requires Keyed(store) && |ids| == |outs| == MAX_SEMANTIC_ATTEMPTS
      modifies this
      ensures UnitRun(store, outcome, attempts) ==
        Canonicalizing(old(store), u, exactFirst, beforeExact, beforeKey, ids, outs)
    {
      var scope, semanticKey := u.draft.scope, u.draft.identity.semanticKey;
      RunKeepsKeyed(store, beforeExact);
      store := Run(store, beforeExact);
      var current := FindBySemanticKey(store, scope, semanticKey);
      if !(exactFirst && current.Some? && current.value.body.fingerprint == CreateInput(u).fingerprint) {
        RunKeepsKeyed(store, beforeKey);
        store := Run(store, beforeKey);
        current := FindBySemanticKey(store, scope, semanticKey);
      }
      outcome, attempts := Propose(u, current, ids, outs);
    }
  }
}
