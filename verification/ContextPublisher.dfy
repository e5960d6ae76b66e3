/**
 Publishers of one conversation as a step machine: each attempt reads a prior snapshot, builds the
 merged one, and later writes it with the prior revision as precondition; attempts interleave freely.
 */
module ContextPublisher {
  import opened Prelude
  import opened Subsequences
  import opened Alignment
  import opened VisibleContext
  import opened CaptureInbox

  const MAX_CAS_ATTEMPTS := 4

  datatype Input = Input(completeness: Completeness, messages: seq<Message>, title: Option<string>)

  /** The conversation, its message-id hash and the truncation of a digest to 16 digits. */
  datatype Config = Config(conversationId: string, mint: Mint, shorten: Digest -> string)

  datatype BuildError = NotOwned | Unmergeable(error: MergeError)

  function Identified(c: Captured): (string, Message) { (c.id, VisibleOf(c)) }

  function DigestOf(messages: seq<Captured>, completeness: Completeness, latestVisible: nat,
                    title: Option<string>): Digest {
    Digest(Map(Identified, messages), completeness, latestVisible, title)
  }

  function TitleFor(prior: Option<Snapshot>, input: Input): Option<string> {
    if input.title.Some? then input.title
    else if prior.Some? then prior.value.metadata.title
    else None
  }

  function UpdatedAtFor(prior: Option<Snapshot>, digest: Digest, now: int): int {
    if prior.None? then now
    else if prior.value.metadata.digest == Some(digest) then prior.value.updatedAt
    else Max(now, prior.value.updatedAt + 1)
  }

  /** The snapshot one attempt offers to the inbox. */
  function Build(cfg: Config, prior: Option<Snapshot>, input: Input, now: int): Result<Snapshot, BuildError> {
    if prior.Some? && !prior.value.metadata.owned then Failure(NotOwned)
    else if prior.Some? && !ValidSet(Visible(prior.value.messages)) then Failure(Unmergeable(InvalidMessages))
    else
      var merged := Merge(cfg.mint, if prior.Some? then prior.value.messages else [], input.messages);
      if merged.Failure? then Failure(Unmergeable(merged.error))
      else
        var title := TitleFor(prior, input);
        var digest := DigestOf(merged.value, input.completeness, |input.messages|, title);
        var updatedAt := UpdatedAtFor(prior, digest, now);
        Success(Snapshot(
          cfg.conversationId, Revision(updatedAt, cfg.shorten(digest)), Completed, updatedAt, merged.value,
          Metadata(true, input.completeness, Some(digest), |input.messages|, title)))
  }

  function ExpectedFor(prior: Option<Snapshot>): Expected {
    if prior.Some? then Exactly(prior.value.revision) else Absent
  }

  // ---------------------------------------------------------------- the step machine

  datatype Phase =
    | Ready(attempt: nat)
    | Prepared(attempt: nat, prior: Option<Snapshot>, snapshot: Snapshot)
    | Done(result: PutResult)
    | Failed

  /** One publisher: its in-memory last snapshot, whether it can read the inbox, its current publish. */
  datatype Worker = Worker(last: Option<Snapshot>, readsInbox: bool, phase: Phase)

  /** `history` lists every durable snapshot in order; the last one is current. */
  datatype Publishers = Publishers(history: seq<Snapshot>, workers: map<nat, Worker>)

  datatype Action =
    | Start(worker: nat, readsInbox: bool)
    | Attempt(worker: nat, input: Input, now: int)
    | Submit(worker: nat)

  function Current(s: Publishers): Option<Snapshot> {
    if s.history == [] then None else Some(s.history[|s.history| - 1])
  }

  function PriorFor(s: Publishers, w: Worker): Option<Snapshot> {
    if w.readsInbox && Current(s).Some? then Current(s) else w.last
  }

  function Step(cfg: Config, s: Publishers, a: Action): Publishers {
    match a
    case Start(id, readsInbox) =>
      var last := if id in s.workers then s.workers[id].last else None;
      if id in s.workers && (s.workers[id].phase.Ready? || s.workers[id].phase.Prepared?) then s
      else s.(workers := s.workers[id := Worker(last, readsInbox, Ready(1))])
    case Attempt(id, input, now) =>
      if id !in s.workers || !s.workers[id].phase.Ready? then s
      else
        var w := s.workers[id];
        var prior := PriorFor(s, w);
        var built := Build(cfg, prior, input, now);
        s.(workers := s.workers[id := w.(phase :=
          if built.Success? then Prepared(w.phase.attempt, prior, built.value) else Failed)])
    case Submit(id) =>
      if id !in s.workers || !s.workers[id].phase.Prepared? then s
      else
        var w := s.workers[id];
        var result := Decide(Current(s), w.phase.snapshot, ExpectedFor(w.phase.prior));
        Publishers(Extended(s.history, w.phase.snapshot, result), s.workers[id := Settled(w, result)])
  }

  function Extended(history: seq<Snapshot>, s: Snapshot, result: PutResult): seq<Snapshot> {
    if result.Created? || result.Updated? then history + [s] else history
  }

  /** Success remembers the snapshot; a failed precondition is retried while attempts remain. */
  function Settled(w: Worker, result: PutResult): Worker
    requires w.phase.Prepared?
  {
    if !result.Refused? then w.(last := Some(w.phase.snapshot), phase := Done(result))
    else if result.reason == PreconditionFailed && w.readsInbox && w.phase.attempt < MAX_CAS_ATTEMPTS then
      w.(phase := Ready(w.phase.attempt + 1))
    else w.(phase := Done(result))
  }

  function Run(cfg: Config, s: Publishers, actions: seq<Action>): Publishers {
    if actions == [] then s else Step(cfg, Run(cfg, s, actions[..|actions| - 1]), actions[|actions| - 1])
  }

  // ---------------------------------------------------------------- what every step keeps

  /** A snapshot as a publisher writes it: owned, completed, digest and revision match the contents. */
  ghost predicate Published(cfg: Config, s: Snapshot) {
    var digest := DigestOf(s.messages, s.metadata.completeness, s.metadata.latestVisible, s.metadata.title);
    && s.conversationId == cfg.conversationId
    && s.status == Completed
    && s.metadata.owned
    && s.metadata.digest == Some(digest)
    && s.revision == Revision(s.updatedAt, cfg.shorten(digest))
    && ValidSet(Visible(s.messages))
  }

  /** `later` continues `earlier`: nothing lost or reordered, strictly newer. */
  ghost predicate Continues(earlier: Snapshot, later: Snapshot) {
    Subsequence(earlier.messages, later.messages) && earlier.updatedAt < later.updatedAt
  }

  ghost predicate Chain(cfg: Config, history: seq<Snapshot>) {
    && (forall i | 0 <= i < |history| :: Published(cfg, history[i]))
    && forall i, j | 0 <= i < j < |history| :: Continues(history[i], history[j])
  }

  ghost predicate Remembered(history: seq<Snapshot>, s: Option<Snapshot>) {
    s.Some? ==> s.value in history
  }

  ghost predicate BuiltFrom(cfg: Config, prior: Option<Snapshot>, s: Snapshot) {
    exists input, now :: Build(cfg, prior, input, now) == Success(s)
  }

  ghost predicate WorkerOk(cfg: Config, history: seq<Snapshot>, w: Worker) {
    && Remembered(history, w.last)
    && (w.phase.Ready? ==> 1 <= w.phase.attempt <= MAX_CAS_ATTEMPTS)
    && (w.phase.Prepared? ==>
          && 1 <= w.phase.attempt <= MAX_CAS_ATTEMPTS
          && Remembered(history, w.phase.prior)
          && BuiltFrom(cfg, w.phase.prior, w.phase.snapshot))
  }

  ghost predicate Inv(cfg: Config, s: Publishers) {
    Chain(cfg, s.history) && forall id | id in s.workers :: WorkerOk(cfg, s.history, s.workers[id])
  }

  /** What one attempt offers: a published snapshot that continues its prior, or the prior itself. */
  lemma BuildContinues(cfg: Config, prior: Option<Snapshot>, s: Snapshot)
    requires BuiltFrom(cfg, prior, s) && (prior.Some? ==> Published(cfg, prior.value))
    ensures Published(cfg, s)
    ensures prior.Some? ==> s == prior.value || Continues(prior.value, s)
  {
    var input, now :| Build(cfg, prior, input, now) == Success(s);
    MergeIsShortestSupersequence(cfg.mint, if prior.Some? then prior.value.messages else [], input.messages);
    if prior.Some? && prior.value.metadata.digest == s.metadata.digest {
      assert Map(Identified, prior.value.messages) == Map(Identified, s.messages);
      SubsequenceLength(prior.value.messages, s.messages);
    }
  }

  /** Equal revisions name equal snapshots along a chain: a revision never comes back. */
  lemma NoAba(cfg: Config, history: seq<Snapshot>, a: Snapshot, b: Snapshot)
    requires Chain(cfg, history) && a in history && b in history && a.revision == b.revision
    ensures a == b
  {
    var i, j :| 0 <= i < |history| && 0 <= j < |history| && history[i] == a && history[j] == b;
    assert history[i].updatedAt == history[j].updatedAt;
  }

  /** A prepared write that meets its precondition is accepted, unless its message ids repeat. */
  lemma WriteAccepted(cfg: Config, s: Publishers, w: Worker)
    requires Inv(cfg, s) && w.phase.Prepared? && WorkerOk(cfg, s.history, w)
    requires Meets(Current(s), ExpectedFor(w.phase.prior))
    ensures Current(s) == w.phase.prior
    ensures Published(cfg, w.phase.snapshot)
    ensures s.history == [] || w.phase.snapshot == s.history[|s.history| - 1]
      || Continues(s.history[|s.history| - 1], w.phase.snapshot)
    ensures Decide(Current(s), w.phase.snapshot, ExpectedFor(w.phase.prior)) ==
      if !DistinctIds(w.phase.snapshot.messages) then Refused(InvalidSnapshot)
      else if Current(s).None? then Created
      else if Current(s).value == w.phase.snapshot then Idempotent
      else Updated
  {
    if w.phase.prior.Some? {
      NoAba(cfg, s.history, w.phase.prior.value, Current(s).value);
    }
    BuildContinues(cfg, w.phase.prior, w.phase.snapshot);
  }

  lemma ChainExtends(cfg: Config, history: seq<Snapshot>, s: Snapshot)
    requires Chain(cfg, history) && Published(cfg, s)
    requires history == [] || Continues(history[|history| - 1], s)
    ensures Chain(cfg, history + [s])
  {
    forall i | 0 <= i < |history| ensures Continues(history[i], s) {
      if i < |history| - 1 {
        assert Continues(history[i], history[|history| - 1]);
        SubsequenceTrans(history[i].messages, history[|history| - 1].messages, s.messages);
      }
    }
  }

  lemma WorkerKeeps(cfg: Config, history: seq<Snapshot>, s: Snapshot, w: Worker)
    requires WorkerOk(cfg, history, w)
    ensures WorkerOk(cfg, history + [s], w)
  {
  }

  lemma AttemptKeepsInv(cfg: Config, s: Publishers, id: nat, input: Input, now: int)
    requires Inv(cfg, s) && id in s.workers && s.workers[id].phase.Ready?
    ensures Inv(cfg, Step(cfg, s, Attempt(id, input, now)))
  {
    var w := s.workers[id];
    var s' := Step(cfg, s, Attempt(id, input, now));
    var built := Build(cfg, PriorFor(s, w), input, now);
    assert built.Success? ==> BuiltFrom(cfg, PriorFor(s, w), built.value);
    assert WorkerOk(cfg, s.history, s'.workers[id]);
  }

  /** A write that was not refused offers what the history ends with, or a continuation of it. */
  ghost predicate Fits(cfg: Config, history: seq<Snapshot>, s: Snapshot, result: PutResult) {
    && (result.Idempotent? ==> history != [] && history[|history| - 1] == s)
    && (result.Created? || result.Updated? ==>
          Published(cfg, s) && (history == [] || Continues(history[|history| - 1], s)))
  }

  lemma WriteKeepsChain(cfg: Config, history: seq<Snapshot>, s: Snapshot, result: PutResult)
    requires Chain(cfg, history) && Fits(cfg, history, s, result)
    ensures Chain(cfg, Extended(history, s, result))
    ensures !result.Refused? ==> s in Extended(history, s, result)
  {
    if result.Created? || result.Updated? {
      ChainExtends(cfg, history, s);
      assert (history + [s])[|history|] == s;
    }
  }

  /** The durable history after one submission is again a chain and holds what the worker remembers. */
  lemma SubmissionKeepsChain(cfg: Config, s: Publishers, w: Worker, result: PutResult)
    requires Inv(cfg, s) && w.phase.Prepared? && WorkerOk(cfg, s.history, w)
    requires result == Decide(Current(s), w.phase.snapshot, ExpectedFor(w.phase.prior))
    ensures Chain(cfg, Extended(s.history, w.phase.snapshot, result))
    ensures !result.Refused? ==> w.phase.snapshot in Extended(s.history, w.phase.snapshot, result)
  {
    if Meets(Current(s), ExpectedFor(w.phase.prior)) {
      WriteAccepted(cfg, s, w);
    }
    WriteKeepsChain(cfg, s.history, w.phase.snapshot, result);
  }

  lemma SubmitKeepsInv(cfg: Config, s: Publishers, id: nat)
    requires Inv(cfg, s) && id in s.workers && s.workers[id].phase.Prepared?
    ensures Inv(cfg, Step(cfg, s, Submit(id)))
  {
    var w := s.workers[id];
    var s' := Step(cfg, s, Submit(id));
    var result := Decide(Current(s), w.phase.snapshot, ExpectedFor(w.phase.prior));
    SubmissionKeepsChain(cfg, s, w, result);
    forall id' | id' in s'.workers ensures WorkerOk(cfg, s'.history, s'.workers[id']) {
      WorkerKeeps(cfg, s.history, w.phase.snapshot, s.workers[id']);
      assert WorkerOk(cfg, s'.history, s.workers[id']);
    }
  }

  lemma StepKeepsInv(cfg: Config, s: Publishers, a: Action)
    requires Inv(cfg, s)
    ensures Inv(cfg, Step(cfg, s, a))
  {
    if Step(cfg, s, a) != s {
      match a
      case Start(id, readsInbox) =>
      case Attempt(id, input, now) => AttemptKeepsInv(cfg, s, id, input, now);
      case Submit(id) => SubmitKeepsInv(cfg, s, id);
    }
  }

  ghost predicate Initial(cfg: Config, s: Publishers) {
    && s.workers == map[] && |s.history| <= 1 && forall i | 0 <= i < |s.history| :: Published(cfg, s.history[i])
  }

  lemma {:induction false} RunKeepsInv(cfg: Config, s: Publishers, actions: seq<Action>)
    requires Initial(cfg, s)
    ensures Inv(cfg, Run(cfg, s, actions))
  {
    if actions != [] {
      RunKeepsInv(cfg, s, actions[..|actions| - 1]);
      StepKeepsInv(cfg, Run(cfg, s, actions[..|actions| - 1]), actions[|actions| - 1]);
    }
  }

  /**
   For every interleaving of publishers: the durable history is a monotone chain of message lists with
   strictly growing update times, equal revisions mean equal snapshots, and a pending write whose
   precondition holds is not refused as stale, conflicting or regressing.
   */
  lemma PublishedHistoryIsMonotone(cfg: Config, s: Publishers, actions: seq<Action>)
    requires Initial(cfg, s)
    ensures var now := Run(cfg, s, actions);
      && (forall i, j | 0 <= i < j < |now.history| ::
            && Subsequence(now.history[i].messages, now.history[j].messages)
            && now.history[i].updatedAt < now.history[j].updatedAt)
      && (forall a, b | a in now.history && b in now.history && a.revision == b.revision :: a == b)
      && forall id | id in now.workers && now.workers[id].phase.Prepared? ::
            var w := now.workers[id];
            var result := Decide(Current(now), w.phase.snapshot, ExpectedFor(w.phase.prior));
            result.Refused? ==> result.reason == PreconditionFailed || result.reason == InvalidSnapshot
  {
    var now := Run(cfg, s, actions);
    RunKeepsInv(cfg, s, actions);
    assert forall i, j | 0 <= i < j < |now.history| :: Continues(now.history[i], now.history[j]);
    forall a, b | a in now.history && b in now.history && a.revision == b.revision ensures a == b {
      NoAba(cfg, now.history, a, b);
    }
    forall id | id in now.workers && now.workers[id].phase.Prepared?
      ensures var w := now.workers[id];
        var result := Decide(Current(now), w.phase.snapshot, ExpectedFor(w.phase.prior));
        result.Refused? ==> result.reason == PreconditionFailed || result.reason == InvalidSnapshot
    {
      var w := now.workers[id];
      if Meets(Current(now), ExpectedFor(w.phase.prior)) {
        WriteAccepted(cfg, now, w);
      }
    }
  }
}
