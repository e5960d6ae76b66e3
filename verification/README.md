# Verified model of the Digital Life memory services

A Dafny model of the parts of the repository that must not lose, duplicate or revive memory, with proofs of what
those parts promise over every input and every interleaving. It covers five cores.

* **Visible context.** The context publisher aligns two message lists with two longest-common-subsequence tables,
  merges them around a unique alignment, and writes the result to the capture inbox with a compare-and-set, several
  publishers at a time and each behind a promise-chain lock. Modules `Alignment`, `Subsequences`, `Supersequences`,
  `VisibleContext`, `CaptureInbox`, `ContextPublisher`, `PromiseLock`.
* **Mutable sources.** A checkpoint store made of a snapshot and an append-only journal that may end torn, and the
  sync loop that reads a source which may change between any two reads. Modules `DeltaCodec`, `CheckpointStore`,
  `SourceSync`.
* **Historical migration.** A concurrent window whose durable effect must be the sequential one. Module
  `HistoricalMigration`.
* **Canonical memory.** The commit transaction, the per-scope commit log, lifecycles over whole revision chains, the
  optimistic verifier, device sync, and the retry loop of distillation. Modules `ReferenceMerge`, `CanonicalStore`,
  `CanonicalAuthority`, `CommitLog`, `Lifecycle`, `CanonicalVerifier`, `MemorySync`, `ReplicaFold`, `DeviceReplicas`,
  `Distillation`.
* **Evidence and retrieval.** Greedy chunking of source evidence, verified retrieval, and read federation over mounts.
  Modules `EvidenceChunks`, `VerifiedRetrieval`, `RetrievalView`, `FederatedForgetting`.

Code that works step by step is a method or a class whose contract equates the new state with a function of the old
one; what the source promises is then proved about that function. Concurrency is a step machine over all interleavings.
`dafny verify dfyconfig.toml` checks everything.

Three conventions hold throughout. Hashes and digests are injective: a digest is represented by what it hashes.
Identifiers, clocks, classifiers, relation judgements and the answers of sources, providers and other writers are
parameters, so the results hold for all of them; where an answer may differ from call to call, it is a separate
parameter for each call. A store transaction is atomic: a throw inside it leaves the store as it was, so an aborted
transaction does not use up a commit number.

Where code and expectation part ways the model follows the code and says exactly when the expectation holds:
a merge by joined keys is a union exactly when the keys separate (`ReferenceMerge.MergeIsUnionExactly`); a second
publication of the same list is accepted exactly when the merged list equals it or the boundary guards are clear
(`VisibleContext.RepublishStable`); a window differs from the sequential run exactly when an unusable page hides behind
a usable one (`HistoricalMigration.WindowedRefinesSequential`); replacing a snapshot over a journal is atomic under
crashes exactly when the journal holds no deltas, or deltas of the new snapshot's identity whose last values agree with
the new snapshot, or outside whose sources the old and the new snapshot agree
(`CheckpointStore.ReplacementIsAtomicExactly`); and a restored memory whose fingerprint is not blank passes the
verifier exactly when its restore candidate repeats the carried-over fingerprint
(`CanonicalVerifier.VerifierAcceptsAuthority`).

## Model

| member | source | states |
|---|---|---|
| Alignment.FillForward | src/integration/chatgpt-context-publisher.ts:209-221 | every 16-bit cell of the forward table holds the length of a longest order-preserving exact-match pairing of the two prefixes; no store wraps |
| Alignment.FillBackward | src/integration/chatgpt-context-publisher.ts:226-236 | every 16-bit cell of the backward table holds that length for the two suffixes; no store wraps |
| Alignment.UniqueOrderedAlignment | src/integration/chatgpt-context-publisher.ts:205-259 | the nested loops and the two checks after them compute `Align`, whose meaning is the next row |
| Alignment.AlignExact | src/integration/chatgpt-context-publisher.ts:205-259 | the answer is `unique` exactly when one maximum-length pairing exists, and then it is that pairing; `ambiguous` exactly when two exist; and the strict-increase check cannot fail once the count matches |
| Alignment.MaximumPairingLength | src/integration/chatgpt-context-publisher.ts:215-224 | the overlap number is the size of a maximum pairing: a pairing is maximum if and only if it has that many pairs |
| Alignment.OnPathExact | src/integration/chatgpt-context-publisher.ts:238-248 | a cell passes the candidate test if and only if some maximum pairing uses it |
| Supersequences.SupersequenceBound | src/integration/chatgpt-context-publisher.ts:316-418 | no list that contains both inputs in order is shorter than the sum of their lengths minus the overlap |
| Supersequences.EmbeddingUnique | src/integration/chatgpt-context-publisher.ts:345-418 | when the best pairing is unique, each input sits in a shortest common supersequence in only one way |
| VisibleContext.ValidateMessageSet | src/integration/chatgpt-context-publisher.ts:120-143 | accepts exactly the lists within the count, role, blank-text, message-size and total-size limits |
| VisibleContext.LegalAlignmentOffsets | src/integration/chatgpt-context-publisher.ts:267-289 | returns, ascending, exactly the offsets at which the whole overlap of the two lists matches |
| VisibleContext.WeaveAround | src/integration/chatgpt-context-publisher.ts:357-416 | the two-cursor loop builds the woven list, or refuses a gap that both sides fill |
| VisibleContext.MergeVisibleContext | src/integration/chatgpt-context-publisher.ts:316-418 | the imperative merge computes `Merge`, with its refusals in the source's order |
| VisibleContext.MergeIsShortestSupersequence | src/integration/chatgpt-context-publisher.ts:316-418 | a successful merge keeps every prior message with id, content and order, contains the incoming list in order, has length sum minus overlap, and no common supersequence is shorter |
| VisibleContext.RepublishAligns | src/integration/chatgpt-context-publisher.ts:334-368 | aligning a merged list with the list just merged is always unique and matches all of it |
| VisibleContext.RepublishStable | src/integration/chatgpt-context-publisher.ts:334-368 | merging the same list again gives the merged list unchanged exactly when the lists are equal or the boundary guards are clear, and otherwise the ambiguous-overlap refusal: never a third list |
| VisibleContext.RepublishCanBeRefused | src/integration/chatgpt-context-publisher.ts:338-344 | the refusal really occurs: [a,b,c] merged with [b,c,b], then [b,c,b] again |
| CaptureInbox.Inbox.Put | src/integration/chatgpt-capture-inbox.ts:341-380 | the put takes the decision of `Decide` (precondition, idempotence, staleness, conflict, lifecycle, in that order); a refusal changes nothing and anything else stores the snapshot |
| CaptureInbox.WritesOnlyAdvance | src/integration/chatgpt-capture-inbox.ts:341-374 | under any sequence of writers a kept snapshot is the same one or strictly newer, and its lifecycle never regresses |
| ContextPublisher.BuildContinues | src/integration/chatgpt-context-publisher.ts:464-546 | what one attempt offers is the prior snapshot itself or a strictly newer one whose messages extend the prior's |
| ContextPublisher.NoAba | src/integration/chatgpt-context-publisher.ts:502-517 | along a durable history equal revisions mean equal snapshots |
| ContextPublisher.WriteAccepted | src/integration/chatgpt-context-publisher.ts:548-584 | a prepared write whose precondition holds is accepted, unless its own message ids repeat |
| ContextPublisher.RunKeepsInv | src/integration/chatgpt-context-publisher.ts:462-585 | every interleaving of publishers keeps the durable history a chain and every pending attempt built from a durable prior |
| ContextPublisher.PublishedHistoryIsMonotone | src/integration/chatgpt-context-publisher.ts:462-585 | for every interleaving: each durable message list is a subsequence of the next (ids included), update times strictly grow, revisions never come back, and a write that meets its precondition is never stale, conflicting or regressing |
| PromiseLock.RunKeepsInv | src/integration/chatgpt-context-publisher.ts:590-609 | the links between callers, the tail map and the phases stay consistent over every interleaving, including removal of one's own tail only |
| PromiseLock.MutualExclusionInArrivalOrder | src/integration/chatgpt-context-publisher.ts:590-609 | at most one caller of a key runs, and whoever has entered was preceded only by callers that have left |
| PromiseLock.EarliestCanProceed | src/integration/chatgpt-capture-inbox.ts:88-106 | the lock is never stuck: the earliest caller of a key that has not left runs or may enter, whatever failed before it |
| PromiseLock.EntryIsInTurn | src/integration/chatgpt-capture-inbox.ts:88-106 | a caller may enter only when every earlier caller of its key has left |
| ReferenceMerge.MergeRefs | src/authority/canonical-memory-authority.ts:92-115 | the loop over an insertion-ordered map computes `Merged` |
| ReferenceMerge.MergedMember | src/authority/canonical-memory-authority.ts:92-115 | a reference survives exactly when it is the last one with its key |
| ReferenceMerge.MergeIsUnionExactly | src/authority/canonical-memory-authority.ts:92-115 | the merged list never repeats a reference, and is exactly the union if and only if no two different references share a key |
| ReferenceMerge.PlainEvidenceSeparates | src/authority/canonical-memory-authority.ts:92-101 | evidence keys separate when no source type contains a NUL |
| ReferenceMerge.PlainSourceSeparates | src/authority/canonical-memory-authority.ts:103-115 | source-experience keys separate when the joined fields contain no NUL and omitted fields are not also spelled empty |
| ReferenceMerge.NulLosesEvidence | src/authority/canonical-memory-authority.ts:92-101 | with a NUL inside a source type two different references share a key and one is lost |
| CanonicalAuthority.Authority.RevisedBody | src/authority/canonical-memory-authority.ts:369-444 | the switch on the operation gives the body, or the refusal, of `PlanMutation` |
| CanonicalAuthority.Authority.WriteResult | src/authority/canonical-memory-authority.ts:447-541 | the writes of an accepted commit, one after the other, amount to `Written` |
| CanonicalAuthority.Authority.CommitInTransaction | src/authority/canonical-memory-authority.ts:244-541 | the transaction leaves the store and the outcome of `Transact`; a throw leaves the store as it was |
| CommitLog.CommitCases | src/authority/canonical-memory-authority.ts:244-541 | every commit leaves the store alone, records one conflict, or accepts a pending candidate under all collision checks |
| CommitLog.StepKeepsInv | src/authority/canonical-memory-authority.ts:244-541 | every ingest, status change and commit keeps the whole store invariant |
| CommitLog.CommitLogIsExact | src/authority/canonical-memory-authority.ts:244-541 | after any run: commit numbers of a scope are exactly 1..n, revisions of a memory exactly 1..current, changes, revisions and outbox records correspond one to one, no candidate is behind two revisions, and no two memories of a scope share a key |
| CommitLog.RunAdvances | src/authority/canonical-memory-authority.ts:360-363 | over any run revisions, results and candidates persist, the log only grows, and a head that changes gets a strictly higher revision |
| CommitLog.ReplayReturnsFirstResult | src/authority/canonical-memory-authority.ts:254-265 | repeating an idempotency key after any further run returns the first result and changes nothing |
| CommitLog.SpentCandidateCommitsNothing | src/authority/canonical-memory-authority.ts:86-90 | a candidate behind a revision commits nothing more, under any key |
| CommitLog.VerifiedAdmissionStands | src/authority/canonical-memory-authority.ts:117-205 | provider admission verified at any earlier moment still stands at the commit: no run changes what its hash covers |
| Lifecycle.ConsecutiveRevisions | src/authority/canonical-memory-authority.ts:339-445 | two consecutive revisions are related by the lifecycle rule of the operation between them |
| Lifecycle.IdentityNeverChanges | src/authority/canonical-memory-authority.ts:339-367 | class, kind, type and semantic key are the same in every revision of a memory |
| Lifecycle.NeverSuperseded | src/authority/canonical-memory-authority.ts:339-445 | no revision is ever superseded |
| Lifecycle.ContentChangesOnlyByUpdate | src/authority/canonical-memory-authority.ts:339-445 | content and validity of two revisions agree unless an update lies between them |
| Lifecycle.TombstoneThenRestore | src/authority/canonical-memory-authority.ts:404-441 | after a tombstone only a restore follows, and it gives back exactly the body from before |
| Lifecycle.RunRestoresExactly | src/authority/canonical-memory-authority.ts:404-441 | after any run: the change that follows a tombstone on its memory is a restore to exactly the body from before |
| Lifecycle.MergeAddsEvidence | src/authority/canonical-memory-authority.ts:382-403 | a merge keeps content and validity, repeats no evidence, and its evidence and sources are the unions exactly when the keys separate |
| CanonicalVerifier.VerifyMany | src/verification/canonical-verifier.ts:112-191 | the three passes over the provisional array give every request its `VerifyOne` verdict, in order, and refuse bad input |
| CanonicalVerifier.HeadPass | src/verification/canonical-verifier.ts:146-160 | the first pass suppresses by head and collects exactly the requests that still need their revision |
| CanonicalVerifier.RevisionPass | src/verification/canonical-verifier.ts:165-176 | the second pass judges exactly the collected requests and leaves the others alone |
| CanonicalVerifier.AllowWasCurrentThroughout | src/verification/canonical-verifier.ts:112-191 | an allowed revision was the current, active, in-scope revision at every moment between the two head reads, under any concurrent commits |
| CanonicalVerifier.AllowedExactly | src/verification/canonical-verifier.ts:112-276 | under any concurrent commits a request is allowed if and only if its memory keeps one active, in-scope, expected head from the first head read to the last, whose revision has its writer's fingerprint and is valid at the given time |
| CanonicalVerifier.IntegrityExactly | src/verification/canonical-verifier.ts:220-276 | the current revision of an authority-written memory fails integrity exactly when its fingerprint is blank or differs from its writer's |
| CanonicalVerifier.VerifierAcceptsAuthority | src/verification/canonical-verifier.ts:220-276 | after a create, update or merge with a non-blank fingerprint integrity always passes; after a restore exactly when the restore candidate repeats the carried-over fingerprint |
| CanonicalVerifier.RunPassesIntegrity | src/verification/canonical-verifier.ts:220-276 | after any run an active memory fails integrity only on a blank fingerprint or after a restore |
| MemorySync.EnvelopeHydrates | src/sync/memory-sync-service.ts:68-112 | hydration accepts every change the authority wrote, now and in every later state, with the same revision |
| MemorySync.ReadNeverFails | src/sync/memory-sync-service.ts:120-143 | a page is the next slice of the log, whatever commits fall between its two reads, and says truthfully whether more follows |
| ReplicaFold.StepKeepsFold | src/authority/canonical-memory-authority.ts:475-541 | folding a scope's log stays equal to its current revisions at every step |
| ReplicaFold.FoldDelivered | src/sync/memory-sync-service.ts:68-112 | folding delivered changes is folding the log prefix they came from |
| DeviceReplicas.FleetRunKeepsInv | src/sync/memory-sync-service.ts:149-230 | every interleaving of commits, pulls, acknowledgements of any ranges and compare-and-sets keeps checkpoints, deliveries and open pages consistent with the log |
| DeviceReplicas.ReplicasDeliverThePrefix | src/sync/memory-sync-service.ts:120-230 | whatever ranges are acknowledged, every checkpoint stays inside its log; a device whose clients acknowledged only what they held (the only kind the convergence row below speaks of) has exactly a prefix of its log, once and in order; pulls fail only on their own limit and compare-and-sets only by losing |
| DeviceReplicas.AcknowledgementAllowedExactly | src/sync/memory-sync-service.ts:169-212 | the checks pass exactly for a forward range of at most one batch that is empty or ends inside the log |
| DeviceReplicas.PulledPageCanBeAcknowledged | src/sync/memory-sync-service.ts:120-212 | any part of a pulled page from its start passes those checks in every state of a run |
| DeviceReplicas.AcknowledgementWinsExactly | src/sync/memory-sync-service.ts:208-230 | an acknowledgement past its checks moves the checkpoint exactly when the checkpoint is still the expected one, and otherwise changes nothing |
| DeviceReplicas.CheckpointsNeverMoveBack | src/sync/memory-sync-service.ts:169-230 | no step moves a checkpoint back or takes a delivery away |
| DeviceReplicas.NumberWasLatest | src/authority/canonical-memory-authority.ts:475-541 | every commit number up to the latest was the latest in some state of the run |
| DeviceReplicas.ReplicaConverges | src/sync/memory-sync-service.ts:120-230 | what such a device holds folds to exactly the heads its scope had in every state of the run whose latest commit is the last one acknowledged, and there is such a state |
| Distillation.Distiller.CommitOrSettle | src/distillation/transcript-distillation-service.ts:856-892 | the commit and its catch block: a retryable collision ends in CONFLICT, other errors propagate |
| Distillation.Distiller.Retry | src/distillation/transcript-distillation-service.ts:769-931 | the bounded loop makes exactly the attempts of `Retrying` |
| Distillation.Distiller.Canonicalize | src/distillation/transcript-distillation-service.ts:681-931 | lookups, first proposal and loop together are `Canonicalizing` |
| Distillation.CommitRespectsForgetting | src/authority/canonical-memory-authority.ts:324-403 | a create or merge commit never makes a tombstoned key active, whatever was read before it |
| Distillation.AttemptingIsSound | src/distillation/transcript-distillation-service.ts:781-887 | one attempt ends with its candidate accepted, rejected, in CONFLICT with nothing written, or unwritten, under any interleaving |
| Distillation.RetryingIsSound | src/distillation/transcript-distillation-service.ts:769-931 | from its n-th attempt on the loop keeps earlier candidates as they were left |
| Distillation.UnitNeverResurrects | src/distillation/transcript-distillation-service.ts:681-931 | with others committing between any two steps: at most four attempts, a commit only in the last one, no forgotten key revived, every collided candidate in CONFLICT, and the store invariant kept |
| EvidenceChunks.RenderSegmentFragments | src/distillation/hindsight-memory-adapter.ts:345-371 | the loop renders `SegmentFragments` |
| EvidenceChunks.SliceCountIsCeiling | src/distillation/hindsight-memory-adapter.ts:359 | the number of parts is the rounded-up quotient |
| EvidenceChunks.FragmentsRebuildSegment | src/distillation/hindsight-memory-adapter.ts:345-371 | every fragment carries the segment id and its header, and the payloads concatenate to the trimmed segment, in order |
| EvidenceChunks.SegmentRefusedExactly | src/distillation/hindsight-memory-adapter.ts:355-367 | below 10^16 characters the overlong-fragment throw is unreachable, and a segment is refused exactly when it does not fit and its header leaves no room |
| EvidenceChunks.CollectFragments | src/distillation/hindsight-memory-adapter.ts:379-392 | fragments of all segments in order, or plain slices of the text when there are none |
| EvidenceChunks.PlainFragmentsRebuildText | src/distillation/hindsight-memory-adapter.ts:385-389 | without segments the fragments concatenate to the text |
| EvidenceChunks.TakeFragment | src/distillation/hindsight-memory-adapter.ts:405-412 | a fragment joins the group unless that would break a bound; then the group is closed first |
| EvidenceChunks.PackFragments | src/distillation/hindsight-memory-adapter.ts:394-418 | the greedy loop produces the chunks of `Packed`, or the bounds error |
| EvidenceChunks.FullSourceEvidenceChunks | src/distillation/hindsight-memory-adapter.ts:373-429 | the whole function computes `Chunks` and gives each chunk its fingerprint |
| EvidenceChunks.FingerprintsTellChunks | src/distillation/hindsight-memory-adapter.ts:420-428 | two chunkings with the same set of fingerprints are the same list of chunks, order and number included |
| EvidenceChunks.PackedIsMinimal | src/distillation/hindsight-memory-adapter.ts:394-418 | no partition within both bounds has fewer groups than the greedy one |
| EvidenceChunks.ChunkingIsOptimal | src/distillation/hindsight-memory-adapter.ts:373-429 | chunking always succeeds on renderable fragments (the bounds throw is unreachable), loses and reorders nothing, respects both bounds and has the fewest chunks possible |
| EvidenceChunks.ChunkingRefusedExactly | src/distillation/hindsight-memory-adapter.ts:373-429 | it fails exactly for an empty source or a segment whose header leaves no room |
| VerifiedRetrieval.Deduplicate | src/retrieval/verified-retrieval-service.ts:426-446 | succeeds exactly when all candidates with one memory id agree on the revision, and then returns the first of each id and the number of others |
| VerifiedRetrieval.FirstsRepresent | src/retrieval/verified-retrieval-service.ts:426-446 | every candidate is represented by an earlier or equal one with its memory id |
| VerifiedRetrieval.FirstsAreDistinct | src/retrieval/verified-retrieval-service.ts:426-446 | the kept candidates are in provider order and have distinct memory ids |
| VerifiedRetrieval.Retrieve | src/retrieval/verified-retrieval-service.ts:84-147 | fails on disagreeing revisions, then on what the verifier refuses to judge, and nothing else; otherwise received = allowed + suppressed = allowed + sum of the counts, the items are the allowed ones in order, and the counts are the suppression reasons plus the duplicates; the cardinality guard cannot fire |
| VerifiedRetrieval.ItemsAreClaimedAndDistinct | src/retrieval/verified-retrieval-service.ts:84-120 | through the canonical verifier, items have distinct memory ids, are in scope, and are exactly the revisions claimed for them |
| VerifiedRetrieval.RetrievedExactly | src/retrieval/verified-retrieval-service.ts:84-147 | while others commit between the verifier's reads: items have distinct memory ids, each is a claimed revision that was current from the first read to the last, and a candidate's memory is shown if and only if its claim is settled and its revision can be shown |
| RetrievalView.FederatedReader.Held | src/retrieval/verified-retrieval-view-service.ts:144-157 | what the primary scope holds under a key, asking the store once per key |
| RetrievalView.FederatedReader.Override | src/retrieval/verified-retrieval-view-service.ts:159-196 | a held key puts the verified primary revision, or a suppression, in place of the mounted item |
| RetrievalView.FederatedReader.AddMount | src/retrieval/verified-retrieval-view-service.ts:136-207 | one mount's counts and items are merged as `MountView` |
| RetrievalView.FederatedReader.Retrieve | src/retrieval/verified-retrieval-view-service.ts:82-243 | the method computes `Federating`, with an error exactly when a list or item escapes its scope |
| RetrievalView.OrderIsStableSort | src/retrieval/verified-retrieval-view-service.ts:214-216 | the order has every position once, by rank and then by position |
| RetrievalView.FederationConservesAndShadows | src/retrieval/verified-retrieval-view-service.ts:82-243 | counts are conserved, memory ids are distinct, no mounted item appears whose key the primary list holds or whose key the primary store was not found to lack, and the kept items are the topK by stable rank |
| RetrievalView.EveryItemIsAccountedFor | src/retrieval/verified-retrieval-view-service.ts:116-207 | before the cut every primary memory is shown, and every mounted one unless its key was found in the primary scope |
| FederatedForgetting.MergedLawful | src/retrieval/verified-retrieval-view-service.ts:82-207 | with the store's lookups and the verifier's verdicts taken in any states of a stretch of a run, everything merged is rightful: a primary revision current at some moment, or under a key found to be held by nothing |
| FederatedForgetting.RetrievedIsLawful | src/retrieval/verified-retrieval-service.ts:84-147 | what a verified retrieval of the primary scope returns meets the assumptions of the merge |
| FederatedForgetting.ForgottenNeverSurfaces | src/retrieval/verified-retrieval-view-service.ts:82-243 | a shadowing item is the primary revision under the very key it shadows, current at some moment of the retrieval, and a key whose memory stays tombstoned in the primary scope throughout never surfaces, from the primary list or any mount |
| HistoricalMigration.Runner.FillWindow | src/source-adapters/historical-migration-runner.ts:147-185 | one window is discovered page by page as `Discover` |
| HistoricalMigration.Runner.CommitWindow | src/source-adapters/historical-migration-runner.ts:193-217 | exactly the leading successes of a window are saved, in order |
| HistoricalMigration.Runner.Run | src/source-adapters/historical-migration-runner.ts:122-244 | refuses invalid bounds, an adapter without historical import and the state of another owner, untouched and in that order; otherwise the loop saves the states and ends the way of `Migrated`, and leaves a state that the same runner accepts |
| HistoricalMigration.WindowedRefinesSequential | src/source-adapters/historical-migration-runner.ts:146-243 | any concurrency saves a prefix of what the sequential run saves; the two are equal, failing unit included, if and only if no window finds an unusable page behind a usable one |
| HistoricalMigration.ConcurrencyIsUnobservable | src/source-adapters/historical-migration-runner.ts:146-243 | for a well-formed source any two concurrencies save the same states and end alike |
| HistoricalMigration.WindowCanSaveLess | src/source-adapters/historical-migration-runner.ts:152-166 | a concrete source on which a window of two saves nothing where the sequential run saves one unit |
| HistoricalMigration.RunSavesContiguously | src/source-adapters/historical-migration-runner.ts:285-346 | every state a run saves stands after exactly its processed units of the source, ingested plus skipped, and never behind its start |
| HistoricalMigration.DurableStateIsContiguous | src/source-adapters/historical-migration-runner.ts:122-346 | across restarts with any windows, unit outcomes and crashes after any save, the checkpoint is a contiguous processed prefix and never moves back |
| DeltaCodec.DecodeEncode | src/source-adapters/incremental-source-sync.ts:452 | every delta line that is written reads back as the delta |
| DeltaCodec.EncodedLine | src/source-adapters/incremental-source-sync.ts:452 | a written line has no line break and is not blank, whatever the fields contain |
| CheckpointStore.NonEmptyIsTrimmed | src/source-adapters/incremental-source-sync.ts:84-89 | a required field passes exactly when it is not blank and equals its trimmed self |
| CheckpointStore.TailIsCut | src/source-adapters/incremental-source-sync.ts:603-613 | recovery keeps the complete lines and cuts any fragment without a line break |
| CheckpointStore.SoundLoads | src/source-adapters/incremental-source-sync.ts:246-293 | a disk whose journal holds complete lines of the snapshot's identity, and perhaps a torn one, always loads, as the snapshot overridden by the journal's last values |
| CheckpointStore.AppendStates | src/source-adapters/incremental-source-sync.ts:355-458 | of all durable steps of an append, character by character, only the last changes what the next load returns |
| CheckpointStore.CheckedSaveStates | src/source-adapters/incremental-source-sync.ts:302-341 | every durable step of a save that is checked outside the run lock loads the old fingerprints or the new, the last one of a save that goes through the new |
| CheckpointStore.ReplacingSaveStates | src/source-adapters/incremental-source-sync.ts:335-341 | the same for a replacement inside the run lock that the journal allows |
| CheckpointStore.ReplacingMidway | src/source-adapters/incremental-source-sync.ts:335-338 | between rename and journal removal, with no deltas or deltas of the new identity, the next load succeeds and returns the new snapshot under the old deltas |
| CheckpointStore.MidwayExactly | src/source-adapters/incremental-source-sync.ts:335-338 | for every identity: that half-done state loads the old or the new fingerprints if and only if the journal holds no deltas, or deltas of the new identity whose last values agree with the new snapshot or outside whose sources both snapshots agree |
| CheckpointStore.ReplacementIsAtomicExactly | src/source-adapters/incremental-source-sync.ts:335-341 | a replacement loads as old or new after a crash at every step if and only if that condition holds |
| CheckpointStore.AtomicIsAllowed | src/source-adapters/incremental-source-sync.ts:295-341 | what `CrashSafety` asks of a save inside the run lock is exact: a replacement is allowed if and only if it is atomic |
| CheckpointStore.DroppingSaveMixes | src/source-adapters/incremental-source-sync.ts:335-338 | a replacement that drops a journalled source and adds another is seen as neither the old nor the new map in between |
| CheckpointStore.ForeignReplacementFails | src/source-adapters/incremental-source-sync.ts:277-281 | a replacement with another identity over a journal with deltas does not load in between |
| CheckpointStore.CrashSafety | src/source-adapters/incremental-source-sync.ts:246-458 | after any run of loads, appends and saves with crashes at any step, replacements inside the run lock being atomic ones, the next load succeeds, and whatever operation follows, crashed or not, the load after it returns the map from just before or just after it |
| CheckpointStore.FileStore.ReadRecoverableJournal | src/source-adapters/incremental-source-sync.ts:574-616 | the journal file is truncated to its last complete line |
| CheckpointStore.FileStore.ReplayJournal | src/source-adapters/incremental-source-sync.ts:265-290 | the loop over the lines computes `Replay`, with its three errors |
| CheckpointStore.FileStore.LoadUnlocked | src/source-adapters/incremental-source-sync.ts:246-293 | returns `Load` of the files as they were, and leaves them truncated |
| CheckpointStore.FileStore.Read | src/source-adapters/incremental-source-sync.ts:233-238 | outside the lock a load takes it, and a held lock refuses it untouched; otherwise the load of the files as they were |
| CheckpointStore.FileStore.SaveUnlocked | src/source-adapters/incremental-source-sync.ts:302-341 | takes exactly the durable steps of `SaveSteps`, with its error |
| CheckpointStore.FileStore.AppendUnlocked | src/source-adapters/incremental-source-sync.ts:355-458 | takes exactly the durable steps of `AppendSteps`, with its error |
| CheckpointStore.FileStore.Save | src/source-adapters/incremental-source-sync.ts:295-300 | outside the lock a save is checked and a held lock refuses it untouched; inside the run lock it replaces |
| CheckpointStore.FileStore.AppendFingerprint | src/source-adapters/incremental-source-sync.ts:343-353 | the same lock rule for an append |
| SourceSync.ConsumeSound | src/source-adapters/incremental-source-sync.ts:923-1040 | one visit, whatever the source answers between its reads, has the effects submit, persist, record in that order up to some point, records only an admissible version, and sets the fingerprint exactly if it recorded |
| SourceSync.ConsumeBalances | src/source-adapters/incremental-source-sync.ts:923-1040 | every visit without an error keeps the counters balanced |
| SourceSync.RunRecordsOnlyVerified | src/source-adapters/incremental-source-sync.ts:914-1045 | wherever a run stops, every recorded fingerprint is of a version normalized and read back unchanged through every reread, not deferred, persisted first and, if distilled, with a terminal receipt; a completed run accounts for every unit and holds exactly what it recorded |
| SourceSync.FinalSaveKeepsProgress | src/source-adapters/incremental-source-sync.ts:1042-1043 | the save that ends a completed run keeps progress, so no crash in it can lose or mix fingerprints |
| SourceSync.CutRunLoadsOnlyJustified | src/source-adapters/incremental-source-sync.ts:914-1045 | wherever a run is cut, between two of its effects or at any character of an append, a refused append included, the store loads, and every fingerprint it returns was there before the run or was brought by a storing effect that the run justified in order |
| SourceSync.Syncer.PersistThenAdvance | src/source-adapters/incremental-source-sync.ts:1047-1053 | the reference is persisted before the fingerprint is set and stored |
| SourceSync.Syncer.ConsumeUnit | src/source-adapters/incremental-source-sync.ts:923-1040 | the visit of one unit computes `Consume` |
| SourceSync.Syncer.RunOnce | src/source-adapters/incremental-source-sync.ts:914-1045 | the scan computes `ScanPages`; a checkpoint of another identity stops it before it starts |

## Left out

- HTTP ingress, bearer checks, runtime composition, the Python scripts, PostgreSQL stores and SQL: plumbing and foreign
  calls; of the stores only the interface in src/store/canonical-memory-store.ts is modelled, as one atomic value.
- Regex classifiers and the concept registry under src/semantic: arbitrary functions here.
- Insight promotion, semantic review, prune eligibility, receipts, Obsidian projection, source adapters and outbox
  claiming: field-by-field validation, or logic in stores that are not part of this model.
- `baselineCurrent` of the source sync: a smaller version of the same scan that never distills.
- Shape checks of parsed input (types, identifier patterns, lengths) except where a modelled branch depends on them.
- Characters are Unicode scalar values, while the program counts UTF-16 units; text lengths and byte sizes are otherwise
  computed as in the program.
- VisibleContext.MergeIsShortestSupersequence: does not claim that minted message ids are distinct from one another or
  over several merges; the id depends only on direction, anchor, offset and message and can repeat.
- ContextPublisher.WriteAccepted: excepts a snapshot whose message ids repeat, which the inbox refuses as invalid.
- ContextPublisher.NoAba: assumes four-digit years, so that the 17 digits in a revision are the whole timestamp.
- ContextPublisher.PublishedHistoryIsMonotone: the publisher is a step machine rather than a class with its maps, since
  publishers interleave at every await; the promise chain is the separate machine in `PromiseLock`.
- CaptureInbox.Inbox.Put: leaves out file modes, symbolic links, recovery locks and process identity around the write.
- CanonicalAuthority.Authority.CommitInTransaction: the admission verification before the transaction is a parameter
  (the state it verified); the candidate type, source ids, distillation policy version and provider run id that its hash
  also covers are not fields here; scopes are their joined scope keys; author and event ids are not stored.
- CanonicalVerifier.VerifyMany: enumerated fields are valid by their types, so those checks are not repeated.
- DeviceReplicas.ReplicasDeliverThePrefix: devices are taken as registered; unknown-device errors are not modelled.
- Distillation.UnitNeverResurrects: covers one provider unit; the receipt, curation records and counters around it are
  not stored. Candidate ids of a run are its own, as the id generator promises. The exact-fingerprint lookup is modelled
  as a hit on the holder of the key or a miss.
- VerifiedRetrieval.Retrieve: the provider call, its timeout and its shape checks come before what is modelled; the
  store states that the verifier's three reads see are parameters.
- RetrievalView.FederatedReader.Retrieve: effective time and provider scores are not carried; the counts by reason are
  one multiset of reasons.
- RetrievalView.FederatedReader.Override: the answers of the store and the verifier are parameters, connected to them by
  `FederatedForgetting.ForgottenNeverSurfaces`.
- FederatedForgetting.ForgottenNeverSurfaces: the mounted lists are arbitrary verified lists; their own stores are not
  modelled.
- HistoricalMigration.Runner.Run: the window's units are processed at once with outcomes that depend on the unit only;
  timestamps are left out; a checkpoint is resolved by the adapter to its cursor.
- DeltaCodec.DecodeEncode: the parser accepts the writer's own field order and spacing only, not every JSON text, and no
  surrogate escapes; a line of another contract counts as a bad line.
- CheckpointStore.CrashSafety: the snapshot file is a value replaced by rename, so its own JSON text and temporary file
  are left out; the journal can be cut at any character, not inside one; paths, modes, links and the content of the lock
  file are left out, and a leftover lock blocks every writer as in the program.
- CheckpointStore.ReplacingMidway: claims the fingerprint map only; between rename and journal removal the update time
  that loads is that of the last delta.
- CheckpointStore.FileStore.LoadUnlocked: a snapshot file that is not JSON is not represented; the program only ever
  replaces it as a whole.
- SourceSync.Syncer.RunOnce: the appends and the closing save enter as success flags, connected to the store by
  `StoredFollowsRecords`, `CutRunLoadsOnlyJustified` and `FinalSaveKeepsProgress`; a store without an append operation,
  adapter inspection and the projected references are left out; the answers of the source end where the process stops.
