/** The optimistic verifier: read heads, read revisions, read heads again, and allow what did not move. */
module CanonicalVerifier {
  import opened Prelude
  import opened CanonicalStore
  import opened CommitLog
  import opened Lifecycle

  datatype Reason =
    | NotFound | ScopeMismatched | IsTombstoned | IsSuperseded | RevisionMissing | RevisionMismatch | RevisionIntegrity
    | NotYetValid | NoLongerValid | HeadChanged

  datatype Verdict = Allow(revision: Revision) | Suppress(reason: Reason)

  datatype VerificationRequest = VerificationRequest(memoryId: MemoryId, expected: Option<int>)

  datatype VerifyError = InvalidEffectiveAt | InvalidExpectedRevision

  function SuppressHead(head: Option<Head>, expected: Option<int>, scope: Scope): Option<Reason> {
    match head
    case None => Some(NotFound)
    case Some(h) =>
      if h.scope != scope then Some(ScopeMismatched)
      else if h.status == Tombstoned then Some(IsTombstoned)
      else if h.status == Superseded then Some(IsSuperseded)
      else if expected.Some? && h.currentRevision != expected.value then Some(RevisionMismatch)
      else None
  }

  /** The field checks of a revision against its head; the enumerated fields are valid by their types. */
  predicate Intact(h: Head, r: Revision, scope: Scope) {
    var v := r.body.validity;
    && r.memoryId == h.memoryId && r.revision == h.currentRevision && r.scope == scope
    && r.body.status == h.status && r.body.identity == h.identity
    && !IsBlank(r.body.identity.semanticKey) && r.contentHash == r.body.content
    && !IsBlank(r.body.fingerprint) && !IsBlank(r.body.producer.id)
    && r.provenance.fingerprint == r.body.fingerprint && r.provenance.producer == r.body.producer
    && r.provenance.sources == r.body.sources
    && v.validFrom != Some(Unparsable) && v.validUntil != Some(Unparsable)
    && (v.validFrom.Some? && v.validUntil.Some? ==> v.validFrom.value.millis <= v.validUntil.value.millis)
  }

  function VerifyRevision(h: Head, revision: Option<Revision>, scope: Scope, at: int): Verdict {
    match revision
    case None => Suppress(RevisionMissing)
    case Some(r) =>
      var v := r.body.validity;
      if !Intact(h, r, scope) then Suppress(RevisionIntegrity)
      else if v.validFrom.Some? && at < v.validFrom.value.millis then Suppress(NotYetValid)
      else if v.validUntil.Some? && v.validUntil.value.millis < at then Suppress(NoLongerValid)
      else Allow(r)
  }

  /** One request against the three store states that its reads saw. */
  function VerifyOne(q: VerificationRequest, scope: Scope, at: int, first: Store, middle: Store, last: Store): Verdict {
    var initial := HeadOf(first, q.memoryId);
    var suppressed := SuppressHead(initial, q.expected, scope);
    if suppressed.Some? then Suppress(suppressed.value)
    else
      var verdict := VerifyRevision(initial.value,
        RevisionAt(middle, (initial.value.memoryId, initial.value.currentRevision)), scope, at);
      if verdict.Allow? && HeadOf(last, q.memoryId) != initial then Suppress(HeadChanged) else verdict
  }

  predicate PositiveExpectation(q: VerificationRequest) {
    q.expected.Some? ==> q.expected.value >= 1
  }

  ghost predicate Answers(requests: seq<VerificationRequest>, scope: Scope, at: int, first: Store, middle: Store,
                          last: Store, verdicts: seq<Verdict>) {
    && |verdicts| == |requests|
    && forall i | 0 <= i < |requests| :: verdicts[i] == VerifyOne(requests[i], scope, at, first, middle, last)
  }

  /** What the pass over the first heads leaves in `provisional`. */
  function HeadVerdict(q: VerificationRequest, scope: Scope, first: Store): Option<Verdict> {
    var suppressed := SuppressHead(HeadOf(first, q.memoryId), q.expected, scope);
    if suppressed.Some? then Some(Suppress(suppressed.value)) else None
  }

  /** The three passes over the `provisional` array. */
  method VerifyMany(requests: seq<VerificationRequest>, scope: Scope, effectiveAt: Time, first: Store, middle: Store,
                    last: Store)
    returns (r: Result<seq<Verdict>, VerifyError>)
    ensures requests == [] ==> r == Success([])
    ensures requests != [] && effectiveAt.Unparsable? ==> r == Failure(InvalidEffectiveAt)
    ensures requests != [] && effectiveAt.At? && !(forall q | q in requests :: PositiveExpectation(q))
      ==> r == Failure(InvalidExpectedRevision)
    ensures requests != [] && effectiveAt.At? && (forall q | q in requests :: PositiveExpectation(q)) ==>
      r.Success? && Answers(requests, scope, effectiveAt.millis, first, middle, last, r.value)
  {
    if requests == [] {
      return Success([]);
    }
    if effectiveAt.Unparsable? {
      return Failure(InvalidEffectiveAt);
    }
    if exists q | q in requests :: !PositiveExpectation(q) {
      return Failure(InvalidExpectedRevision);
    }
    var at := effectiveAt.millis;
    var provisional := new Option<Verdict>[|requests|](_ => None);
    var references := HeadPass(requests, scope, first, provisional);
    RevisionPass(requests, scope, at, first, middle, references, provisional);
    for index := 0 to |requests|
      invariant forall i | 0 <= i < index ::
          provisional[i] == Some(VerifyOne(requests[i], scope, at, first, middle, last))
      invariant forall i | index <= i < |requests| ::
        provisional[i] == Some(Provisional(requests[i], scope, at, first, middle))
    {
      var m := requests[index].memoryId;
      if provisional[index].value.Allow? && HeadOf(first, m) != HeadOf(last, m) {
        provisional[index] := Some(Suppress(HeadChanged));
      }
    }
    var results: seq<Verdict> := [];
    for index := 0 to |requests|
      invariant |results| == index
      invariant forall i | 0 <= i < index :: results[i] == VerifyOne(requests[i], scope, at, first, middle, last)
    {
      results := results + [if provisional[index].Some? then provisional[index].value else Suppress(NotFound)];
    }
    r := Success(results);
  }

  /** Suppress by head, and collect the requests whose revision must be read. */
  method HeadPass(requests: seq<VerificationRequest>, scope: Scope, first: Store, provisional: array<Option<Verdict>>)
    returns (references: seq<nat>)
    requires provisional.Length == |requests| && forall i | 0 <= i < |requests| :: provisional[i] == None
    modifies provisional
    ensures forall i | 0 <= i < |requests| :: provisional[i] == HeadVerdict(requests[i], scope, first)
    ensures forall i: nat :: i in references <==> i < |requests| && HeadVerdict(requests[i], scope, first) == None
  {
    references := [];
    for index := 0 to |requests|
      invariant forall i | 0 <= i < index :: provisional[i] == HeadVerdict(requests[i], scope, first)
      invariant forall i | index <= i < |requests| :: provisional[i] == None
      invariant forall i: nat :: i in references <==> i < index && HeadVerdict(requests[i], scope, first) == None
    {
      var suppressed := SuppressHead(HeadOf(first, requests[index].memoryId), requests[index].expected, scope);
      if suppressed.Some? {
        provisional[index] := Some(Suppress(suppressed.value));
      } else {
        references := references + [index];
      }
    }
  }

  /** Judge the referenced revisions. */
  method RevisionPass(requests: seq<VerificationRequest>, scope: Scope, at: int, first: Store, middle: Store,
                      references: seq<nat>, provisional: array<Option<Verdict>>)
    requires provisional.Length == |requests|
    requires forall i | 0 <= i < |requests| :: provisional[i] == HeadVerdict(requests[i], scope, first)
    requires forall i: nat :: i in references <==> i < |requests| && HeadVerdict(requests[i], scope, first) == None
    modifies provisional
    ensures forall i | 0 <= i < |requests| :: provisional[i] == Some(Provisional(requests[i], scope, at, first, middle))
  {
    for index := 0 to |references|
      invariant forall i: nat | i < |requests| ::
        provisional[i] == (if i in references[..index] then Some(Provisional(requests[i], scope, at, first, middle))
                           else HeadVerdict(requests[i], scope, first))
    {
      var reference := references[index];
      assert reference in references;
      var head := HeadOf(first, requests[reference].memoryId).value;
      provisional[reference] :=
        Some(VerifyRevision(head, RevisionAt(middle, (head.memoryId, head.currentRevision)), scope, at));
      assert references[..index + 1] == references[..index] + [reference];
    }
    assert references[..|references|] == references;
  }

  /** The verdict before the second head read. */
  function Provisional(q: VerificationRequest, scope: Scope, at: int, first: Store, middle: Store): Verdict {
    var initial := HeadOf(first, q.memoryId);
    var suppressed := SuppressHead(initial, q.expected, scope);
    if suppressed.Some? then Suppress(suppressed.value)
    else VerifyRevision(initial.value, RevisionAt(middle, (initial.value.memoryId, initial.value.currentRevision)),
                        scope, at)
  }

  // ---------------------------------------------------------------- linearization

  lemma {:induction false} RunSplit(s: Store, actions: seq<Action>, i: nat)
    requires i <= |actions|
    ensures Run(s, actions) == Run(Run(s, actions[..i]), actions[i..])
  {
    if i < |actions| {
      var front := actions[..|actions| - 1];
      RunSplit(s, front, i);
      var back := actions[i..];
      assert front[..i] == actions[..i] && back[..|back| - 1] == front[i..];
      assert back[|back| - 1] == actions[|actions| - 1];
    } else {
      assert actions[..i] == actions && actions[i..] == [];
    }
  }

  /** The state after the first `i` actions and the state after the first `j`. */
  lemma StatesAdvance(actions: seq<Action>, i: nat, j: nat)
    requires i <= j <= |actions|
    ensures Chained(Run(EMPTY, actions[..i])) && Advances(Run(EMPTY, actions[..i]), Run(EMPTY, actions[..j]))
  {
    RunAdvances(EMPTY, actions[..i]);
    RunAdvances(Run(EMPTY, actions[..i]), actions[..j][i..]);
    RunSplit(EMPTY, actions[..j], i);
    assert actions[..j][..i] == actions[..i];
  }

  /**
   With any commits interleaved between the three reads, an allowed revision was the current, active,
   in-scope revision of its memory in every state from the first read to the last.
   */
  lemma AllowWasCurrentThroughout(q: VerificationRequest, scope: Scope, at: int, actions: seq<Action>,
                                  i: nat, j: nat, k: nat, t: nat)
    requires i <= j <= k <= |actions| && i <= t <= k
    requires VerifyOne(q, scope, at, Run(EMPTY, actions[..i]), Run(EMPTY, actions[..j]),
                       Run(EMPTY, actions[..k])).Allow?
    ensures var r := VerifyOne(q, scope, at, Run(EMPTY, actions[..i]), Run(EMPTY, actions[..j]),
                               Run(EMPTY, actions[..k])).revision;
      var s := Run(EMPTY, actions[..t]);
      && q.memoryId in s.heads
      && s.heads[q.memoryId].scope == scope == r.scope
      && s.heads[q.memoryId].status == Active == r.body.status
      && (q.memoryId, s.heads[q.memoryId].currentRevision) in s.revisions
      && s.revisions[(q.memoryId, s.heads[q.memoryId].currentRevision)] == r
      && (q.expected.Some? ==> r.revision == q.expected.value)
      && (r.body.validity.validFrom.Some? ==> r.body.validity.validFrom.value.millis <= at)
      && (r.body.validity.validUntil.Some? ==> at <= r.body.validity.validUntil.value.millis)
  {
    StatesAdvance(actions, i, t);
    StatesAdvance(actions, t, k);
    StatesAdvance(actions, i, j);
    var first, now, last := Run(EMPTY, actions[..i]), Run(EMPTY, actions[..t]), Run(EMPTY, actions[..k]);
    assert HeadAdvances(first.heads[q.memoryId], now.heads[q.memoryId]);
    assert HeadAdvances(now.heads[q.memoryId], last.heads[q.memoryId]);
    assert first.heads[q.memoryId].memoryId == q.memoryId;
    assert CurrentStatus(first, q.memoryId);
  }

  // ---------------------------------------------------------------- the verifier accepts what the authority writes

  /**
   The current revision of an active memory fails the integrity checks exactly when its fingerprint is
   blank or differs from the fingerprint of the candidate that wrote it.
   */
  lemma IntegrityExactly(s: Store, m: MemoryId)
    requires Chained(s) && AllSound(s) && m in s.heads
    ensures (m, s.heads[m].currentRevision) in s.revisions
    ensures var r := s.revisions[(m, s.heads[m].currentRevision)];
      Intact(s.heads[m], r, s.heads[m].scope) <==>
        !IsBlank(r.body.fingerprint) && r.provenance.fingerprint == r.body.fingerprint
  {
    assert CurrentStatus(s, m);
    var k := (m, s.heads[m].currentRevision);
    assert RevisionFits(s, k) && Sound(s.revisions[k]);
  }

  /** Create, update and merge write the candidate's own fingerprint; a restore carries the old one over. */
  lemma FingerprintOfWriter(s: Store, k: RevisionKey)
    requires Governed(s) && k in s.revisions
    ensures s.revisions[k].provenance.candidateId in s.candidates
    ensures var c := s.candidates[s.revisions[k].provenance.candidateId];
      var operation := ChangeOf(s, k).operation;
      && s.revisions[k].provenance.fingerprint == c.fingerprint
      && (operation in {Create, Update, MergeEvidence} ==> s.revisions[k].body.fingerprint == c.fingerprint)
      && (operation == Restore ==>
            && (k.0, k.1 - 1) in s.revisions
            && s.revisions[k].body.fingerprint == s.revisions[(k.0, k.1 - 1)].body.fingerprint)
  {
    var c := ChangeOf(s, k);
    var i :| 0 <= i < |s.changes| && s.changes[i] == c;
    assert Evolved(s, i);
  }

  /**
   What the authority writes for an active memory is never suppressed for integrity after a create,
   update or merge with a non-blank fingerprint; after a restore it passes exactly when the restore
   candidate repeats the carried-over fingerprint.
   */
  lemma VerifierAcceptsAuthority(s: Store, m: MemoryId, at: int)
    requires Governed(s) && AllSound(s) && m in s.heads && s.heads[m].status == Active
    ensures (m, s.heads[m].currentRevision) in s.revisions
    ensures var k := (m, s.heads[m].currentRevision);
      var r := s.revisions[k];
      var id := r.provenance.candidateId;
      var passes := VerifyRevision(s.heads[m], Some(r), s.heads[m].scope, at) != Suppress(RevisionIntegrity);
      && id in s.candidates
      && (ChangeOf(s, k).operation in {Create, Update, MergeEvidence} ==>
            (passes <==> !IsBlank(s.candidates[id].fingerprint)))
      && (ChangeOf(s, k).operation == Restore && !IsBlank(r.body.fingerprint) ==>
            (passes <==> s.candidates[id].fingerprint == r.body.fingerprint))
      && ChangeOf(s, k).operation in {Create, Update, MergeEvidence, Restore}
  {
    IntegrityExactly(s, m);
    var k := (m, s.heads[m].currentRevision);
    FingerprintOfWriter(s, k);
    assert CurrentStatus(s, m);
    if k.1 == 1 {
      FirstRevision(s, m);
    } else {
      ConsecutiveRevisions(s, m, k.1);
    }
  }

  /** The two invariants above hold after every run. */
  lemma RunIsSound(actions: seq<Action>)
    ensures Governed(Run(EMPTY, actions)) && AllSound(Run(EMPTY, actions))
  {
    EmptyInv();
    RunKeepsInv(EMPTY, actions);
  }

  predicate ValidAt(v: Validity, at: int) {
    && (v.validFrom.Some? ==> v.validFrom.value.At? && v.validFrom.value.millis <= at)
    && (v.validUntil.Some? ==> v.validUntil.value.At? && at <= v.validUntil.value.millis)
  }

  /** The memory is active in the scope, at the expected revision, and its head is the same in both states. */
  ghost predicate Settled(q: VerificationRequest, scope: Scope, first: Store, last: Store) {
    && q.memoryId in first.heads && q.memoryId in last.heads
    && last.heads[q.memoryId] == first.heads[q.memoryId]
    && first.heads[q.memoryId].scope == scope && first.heads[q.memoryId].status == Active
    && (q.expected.Some? ==> first.heads[q.memoryId].currentRevision == q.expected.value)
  }

  /** The revision's fingerprint is its writer's and not blank, and it is valid at the given time. */
  ghost predicate Showable(s: Store, m: MemoryId, at: int)
    requires m in s.heads && (m, s.heads[m].currentRevision) in s.revisions
  {
    var r := s.revisions[(m, s.heads[m].currentRevision)];
    !IsBlank(r.body.fingerprint) && r.provenance.fingerprint == r.body.fingerprint && ValidAt(r.body.validity, at)
  }

  /** What the first read of a settled memory finds, it still finds between the reads. */
  lemma FoundBetween(first: Store, middle: Store, m: MemoryId)
    requires Chained(first) && AllSound(first) && Advances(first, middle) && m in first.heads
    requires first.heads[m].status == Active
    ensures var k := (m, first.heads[m].currentRevision);
      && first.heads[m].memoryId == m
      && k in first.revisions && RevisionAt(middle, k) == Some(first.revisions[k])
      && OrderedValidity(first.revisions[k].body.validity)
  {
    assert CurrentStatus(first, m);
    assert Sound(first.revisions[(m, first.heads[m].currentRevision)]);
  }

  lemma SettledAllowsExactly(q: VerificationRequest, scope: Scope, at: int, first: Store, middle: Store, last: Store)
    requires Chained(first) && AllSound(first) && Advances(first, middle) && Settled(q, scope, first, last)
    ensures (q.memoryId, first.heads[q.memoryId].currentRevision) in first.revisions
    ensures VerifyOne(q, scope, at, first, middle, last).Allow? <==> Showable(first, q.memoryId, at)
  {
    IntegrityExactly(first, q.memoryId);
    FoundBetween(first, middle, q.memoryId);
    AllowsShowable(q, scope, at, first, middle, last);
  }

  lemma AllowsShowable(q: VerificationRequest, scope: Scope, at: int, first: Store, middle: Store, last: Store)
    requires Settled(q, scope, first, last) && first.heads[q.memoryId].memoryId == q.memoryId
    requires var k := (q.memoryId, first.heads[q.memoryId].currentRevision);
      && k in first.revisions && RevisionAt(middle, k) == Some(first.revisions[k])
      && OrderedValidity(first.revisions[k].body.validity)
      && (Intact(first.heads[q.memoryId], first.revisions[k], scope) <==>
            !IsBlank(first.revisions[k].body.fingerprint)
            && first.revisions[k].provenance.fingerprint == first.revisions[k].body.fingerprint)
    ensures VerifyOne(q, scope, at, first, middle, last).Allow? <==> Showable(first, q.memoryId, at)
  {
  }

  /**
   With any commits interleaved between the three reads, a request is allowed exactly when its memory is
   settled from the first read to the last and its current revision can be shown.
   */
  lemma AllowedExactly(q: VerificationRequest, scope: Scope, at: int, actions: seq<Action>, i: nat, j: nat, k: nat)
    requires i <= j <= k <= |actions|
    ensures RevisionsExact(Run(EMPTY, actions[..i]))
    ensures var first, middle, last := Run(EMPTY, actions[..i]), Run(EMPTY, actions[..j]), Run(EMPTY, actions[..k]);
      VerifyOne(q, scope, at, first, middle, last).Allow? <==>
      Settled(q, scope, first, last) && Showable(first, q.memoryId, at)
  {
    var first, middle, last := Run(EMPTY, actions[..i]), Run(EMPTY, actions[..j]), Run(EMPTY, actions[..k]);
    StatesAdvance(actions, i, j);
    RunIsSound(actions[..i]);
    if Settled(q, scope, first, last) {
      SettledAllowsExactly(q, scope, at, first, middle, last);
    }
  }

  ghost predicate FailsOnlyRestored(s: Store, m: MemoryId, at: int)
    requires LogExact(s) && RevisionsExact(s) && m in s.heads
  {
    var k := (m, s.heads[m].currentRevision);
    VerifyRevision(s.heads[m], Some(s.revisions[k]), s.heads[m].scope, at) == Suppress(RevisionIntegrity) ==>
      IsBlank(s.revisions[k].body.fingerprint) || ChangeOf(s, k).operation == Restore
  }

  /** After every run, an active memory fails integrity only on a blank fingerprint or after a restore. */
  lemma RunPassesIntegrity(actions: seq<Action>, s: Store, m: MemoryId, at: int)
    requires s == Run(EMPTY, actions) && m in s.heads && s.heads[m].status == Active
    ensures LogExact(s) && RevisionsExact(s) && FailsOnlyRestored(s, m, at)
  {
    RunIsSound(actions);
    PassesIntegrity(s, m, at);
  }

  lemma PassesIntegrity(s: Store, m: MemoryId, at: int)
    requires Governed(s) && AllSound(s) && m in s.heads && s.heads[m].status == Active
    ensures FailsOnlyRestored(s, m, at)
  {
    VerifierAcceptsAuthority(s, m, at);
    assert CurrentStatus(s, m);
    assert RevisionFits(s, (m, s.heads[m].currentRevision));
    FingerprintOfWriter(s, (m, s.heads[m].currentRevision));
  }
}
