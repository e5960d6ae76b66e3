/** Governance over a whole revision chain: what may change, and what tombstone and restore give back. */
module Lifecycle {
  import opened ReferenceMerge
  import opened CanonicalStore
  import opened CommitLog

  /** The part of the store invariant that governs lifecycles. */
  ghost predicate Governed(s: Store) {
    LogExact(s) && Lifecycles(s) && Chained(s)
  }

  lemma RunIsGoverned(actions: seq<Action>)
    ensures Governed(Run(EMPTY, actions))
  {
    EmptyInv();
    RunKeepsInv(EMPTY, actions);
  }

  /** The change that wrote a revision. */
  ghost function ChangeOf(s: Store, k: RevisionKey): (c: Change)
    requires LogExact(s) && k in s.revisions
    ensures c in s.changes && KeyOf(c) == k
  {
    assert Logged(s, k);
    var i :| 0 <= i < |s.changes| && KeyOf(s.changes[i]) == k;
    s.changes[i]
  }

  /** The lifecycle rule that connects two consecutive revisions. */
  lemma ConsecutiveRevisions(s: Store, m: MemoryId, r: int)
    requires Governed(s) && (m, r) in s.revisions && r != 1
    ensures (m, r - 1) in s.revisions
    ensures var id := s.revisions[(m, r)].provenance.candidateId;
      && id in s.candidates
      && Evolves(ChangeOf(s, (m, r)).operation, s.revisions[(m, r - 1)].body, s.revisions[(m, r)].body,
                 s.candidates[id])
  {
    var c := ChangeOf(s, (m, r));
    var i :| 0 <= i < |s.changes| && s.changes[i] == c;
    assert Evolved(s, i);
  }

  lemma FirstRevision(s: Store, m: MemoryId)
    requires Governed(s) && (m, 1) in s.revisions
    ensures ChangeOf(s, (m, 1)).operation == Create && s.revisions[(m, 1)].body.status == Active
  {
    var c := ChangeOf(s, (m, 1));
    var i :| 0 <= i < |s.changes| && s.changes[i] == c;
    assert Evolved(s, i);
  }

  /** Class, kind, type and semantic key are the same in every revision of a memory. */
  lemma IdentityNeverChanges(s: Store, m: MemoryId, r: int, r': int)
    requires Governed(s) && (m, r) in s.revisions && (m, r') in s.revisions
    ensures s.revisions[(m, r)].body.identity == s.revisions[(m, r')].body.identity
  {
    assert RevisionFits(s, (m, r)) && RevisionFits(s, (m, r'));
  }

  /** A memory is active or tombstoned, never superseded. */
  lemma {:induction false} NeverSuperseded(s: Store, m: MemoryId, r: int)
    requires Governed(s) && (m, r) in s.revisions
    ensures s.revisions[(m, r)].body.status != Superseded
    decreases r
  {
    assert RevisionFits(s, (m, r));
    if r == 1 {
      FirstRevision(s, m);
    } else {
      ConsecutiveRevisions(s, m, r);
    }
  }

  /** Content differs between two revisions only if an update was committed between them. */
  lemma {:induction false} ContentChangesOnlyByUpdate(s: Store, m: MemoryId, r: int, r': int)
    requires Governed(s) && (m, r) in s.revisions && (m, r') in s.revisions && r <= r'
    requires forall q | r < q <= r' && (m, q) in s.revisions :: ChangeOf(s, (m, q)).operation != Update
    ensures s.revisions[(m, r)].body.content == s.revisions[(m, r')].body.content
    ensures s.revisions[(m, r)].body.validity == s.revisions[(m, r')].body.validity
    decreases r' - r
  {
    if r < r' {
      assert 1 <= r;
      ConsecutiveRevisions(s, m, r');
      ContentChangesOnlyByUpdate(s, m, r, r' - 1);
    }
  }

  /** After a tombstone only a restore can follow, and it gives back exactly what was there before. */
  lemma TombstoneThenRestore(s: Store, m: MemoryId, r: int)
    requires Governed(s) && (m, r) in s.revisions && (m, r + 1) in s.revisions
    requires ChangeOf(s, (m, r)).operation == Tombstone
    ensures (m, r - 1) in s.revisions
    ensures ChangeOf(s, (m, r + 1)).operation == Restore
    ensures s.revisions[(m, r + 1)].body == s.revisions[(m, r - 1)].body
  {
    if r == 1 {
      FirstRevision(s, m);
    } else {
      ConsecutiveRevisions(s, m, r);
      ConsecutiveRevisions(s, m, r + 1);
      NeverSuperseded(s, m, r - 1);
    }
  }

  /** The same over every run of the authority: change `j` follows tombstone `i` on its memory. */
  lemma RunRestoresExactly(actions: seq<Action>, i: nat, j: nat)
    requires var changes := Run(EMPTY, actions).changes;
      && i < |changes| && j < |changes| && changes[i].operation == Tombstone
      && changes[j].memoryId == changes[i].memoryId && changes[j].newRevision == changes[i].newRevision + 1
    ensures var s := Run(EMPTY, actions);
      var m, r := s.changes[i].memoryId, s.changes[i].newRevision;
      && s.changes[j].operation == Restore
      && (m, r - 1) in s.revisions && (m, r + 1) in s.revisions
      && s.revisions[(m, r + 1)].body == s.revisions[(m, r - 1)].body
  {
    RunIsGoverned(actions);
    RestoresAfter(Run(EMPTY, actions), i, j);
  }

  lemma ChangeAt(s: Store, i: nat)
    requires Governed(s) && i < |s.changes|
    ensures KeyOf(s.changes[i]) in s.revisions && ChangeOf(s, KeyOf(s.changes[i])) == s.changes[i]
  {
    assert Evolved(s, i);
  }

  lemma RestoresAfter(s: Store, i: nat, j: nat)
    requires Governed(s) && i < |s.changes| && j < |s.changes| && s.changes[i].operation == Tombstone
    requires s.changes[j].memoryId == s.changes[i].memoryId && s.changes[j].newRevision == s.changes[i].newRevision + 1
    ensures var m, r := s.changes[i].memoryId, s.changes[i].newRevision;
      && s.changes[j].operation == Restore
      && (m, r - 1) in s.revisions && (m, r + 1) in s.revisions
      && s.revisions[(m, r + 1)].body == s.revisions[(m, r - 1)].body
  {
    ChangeAt(s, i);
    ChangeAt(s, j);
    TombstoneThenRestore(s, s.changes[i].memoryId, s.changes[i].newRevision);
  }

  /** A merge keeps content and validity, and its evidence is the union when reference keys separate. */
  lemma MergeAddsEvidence(s: Store, m: MemoryId, r: int)
    requires Governed(s) && (m, r) in s.revisions && ChangeOf(s, (m, r)).operation == MergeEvidence
    ensures (m, r - 1) in s.revisions && s.revisions[(m, r)].provenance.candidateId in s.candidates
    ensures var before, after := s.revisions[(m, r - 1)].body, s.revisions[(m, r)].body;
      var c := s.candidates[s.revisions[(m, r)].provenance.candidateId];
      && after.content == before.content && after.validity == before.validity
      && (forall i, j | 0 <= i < j < |after.evidence| :: after.evidence[i] != after.evidence[j])
      && ((forall e :: e in after.evidence <==> e in before.evidence || e in c.evidence)
          <==> KeysSeparate(EvidenceKey, before.evidence + c.evidence))
      && ((forall e :: e in after.sources <==> e in before.sources || e in c.sources)
          <==> KeysSeparate(SourceKey, before.sources + c.sources))
  {
    if r == 1 {
      FirstRevision(s, m);
    } else {
      ConsecutiveRevisions(s, m, r);
      var before := s.revisions[(m, r - 1)].body;
      var c := s.candidates[s.revisions[(m, r)].provenance.candidateId];
      MergeIsUnionExactly(EvidenceKey, before.evidence, c.evidence);
      MergeIsUnionExactly(SourceKey, before.sources, c.sources);
    }
  }
}
