/**
 Polling a mutable source: every unit is read several times while it may change between any two reads, and
 only what was normalized and read back unchanged is checkpointed, after its reference is durable.
 */
module SourceSync {
  import opened Prelude
  import opened DeltaCodec
  import opened CheckpointStore

  datatype Print = Print(algorithm: string, value: string)

  /** One normalized read: whether it is well formed and of this unit, its fingerprint, state key and text. */
  datatype Sample = Sample(fits: bool, mark: Print, stateKey: string, textual: bool)

  datatype Decision = Distill | SourceOnly(wellFormed: bool) | Defer(wellFormed: bool) | UnknownAction

  datatype Status = Terminal | NotTerminal

  /** Whatever the source and the sinks answer during one visit of a unit, in the order of the calls. */
  datatype Visit = Visit(
    sourceId: string, sameIdentity: bool, before: Print, first: Sample, after: Print, second: Sample,
    decision: Decision, third: Sample, ingests: bool, status: Status, persists: bool, stores: bool)

  datatype Page = Page(visits: seq<Visit>, next: Option<string>)

  datatype Config = Config(identity: Identity, referenceOnly: bool, decides: bool, hasStateKey: bool, hasIngestor: bool,
                           hasSink: bool)

  datatype SyncError =
    | BadFingerprint | BadExperience | SourceChanged | EmptyStateKey | StateChanged | BadDecision | NoIngestor
    | IngestFailed
    | PersistFailed | StoreFailed | ForeignUnit | CursorStuck | IncompatibleCheckpoint | SaveFailed

  /** What others can see of the run, in order; `visit` numbers the visits. */
  datatype Effect =
    | Submitted(visit: nat, sourceId: string, value: string, status: Status)
    | Persisted(visit: nat, sourceId: string, value: string)
    | Appending(visit: nat, sourceId: string, value: string)
    | Recorded(visit: nat, sourceId: string, value: string)

  datatype Counts = Counts(scanned: nat, changed: nat, ingested: nat, sourceOnly: nat, deferred: nat, noText: nat,
                           same: nat, receipts: nat)

  datatype Progress = Progress(fingerprints: map<string, string>, counts: Counts, effects: seq<Effect>)

  /** Progress with the error that stops the run, if one does. */
  datatype Outcome = Outcome(progress: Progress, error: Option<SyncError>)

  // ---------------------------------------------------------------- checks

  predicate ValidPrint(p: Print) { p.algorithm == "sha256" && Sha256(p.value) }

  /** The reread must have the same fingerprint and the same state key as the sample before it. */
  function Revalidated(cfg: Config, initial: Sample, reread: Sample): Result<Sample, SyncError> {
    if !cfg.hasStateKey then Success(initial)
    else if IsBlank(initial.stateKey) then Failure(EmptyStateKey)
    else if !reread.fits then Failure(BadExperience)
    else if !ValidPrint(reread.mark) then Failure(BadFingerprint)
    else if reread.mark != initial.mark then Failure(SourceChanged)
    else if IsBlank(reread.stateKey) then Failure(EmptyStateKey)
    else if reread.stateKey != initial.stateKey then Failure(StateChanged)
    else Success(reread)
  }

  function DecisionOf(cfg: Config, v: Visit): Decision { if cfg.decides then v.decision else Distill }

  predicate ValidDecision(d: Decision) {
    match d
    case Distill => true
    case SourceOnly(wellFormed) => wellFormed
    case Defer(wellFormed) => wellFormed
    case UnknownAction => false
  }

  // ---------------------------------------------------------------- one visit

  function Stop(p: Progress, e: SyncError): Outcome { Outcome(p, Some(e)) }

  function Emit(p: Progress, e: Effect): Progress { p.(effects := p.effects + [e]) }

  /** Persist the reference, then append the fingerprint; the run stops when either fails. */
  function PersistAndAdvance(cfg: Config, p: Progress, i: nat, v: Visit): Outcome {
    if cfg.hasSink && !v.persists then Stop(p, PersistFailed)
    else
      var q := if cfg.hasSink then Emit(p, Persisted(i, v.sourceId, v.after.value)) else p;
      var r :=
        Emit(q.(fingerprints := q.fingerprints[v.sourceId := v.after.value]), Appending(i, v.sourceId, v.after.value));
      if !v.stores then Stop(r, StoreFailed) else Outcome(Emit(r, Recorded(i, v.sourceId, v.after.value)), None)
  }

  /** The final sample is to be distilled. */
  function Distilling(cfg: Config, p: Progress, i: nat, v: Visit): Outcome {
    if !cfg.hasIngestor then Stop(p, NoIngestor)
    else if !v.ingests then Stop(p, IngestFailed)
    else
      var q :=
        Emit(p.(counts := p.counts.(receipts := p.counts.receipts + 1)),
             Submitted(i, v.sourceId, v.after.value, v.status));
      if v.status != Terminal then Outcome(q, None)
      else if cfg.hasSink && !v.persists then Stop(q, PersistFailed)
      else PersistAndAdvance(cfg, q.(counts := q.counts.(ingested := q.counts.ingested + 1)), i, v)
  }

  /** A decision that is not to defer, on the sample after the last revalidation. */
  function Acting(cfg: Config, p: Progress, i: nat, v: Visit, final: Sample): Outcome {
    if DecisionOf(cfg, v).SourceOnly? then
      PersistAndAdvance(cfg, p.(counts := p.counts.(sourceOnly := p.counts.sourceOnly + 1)), i, v)
    else if !final.textual then
      PersistAndAdvance(cfg, p.(counts := p.counts.(noText := p.counts.noText + 1)), i, v)
    else Distilling(cfg, p, i, v)
  }

  function Deciding(cfg: Config, p: Progress, i: nat, v: Visit): Outcome {
    var stable := Revalidated(cfg, v.first, v.second);
    if stable.Failure? then Stop(p, stable.error)
    else if !ValidDecision(DecisionOf(cfg, v)) then Stop(p, BadDecision)
    else if DecisionOf(cfg, v).Defer? then Outcome(p.(counts := p.counts.(deferred := p.counts.deferred + 1)), None)
    else
      var final := Revalidated(cfg, stable.value, v.third);
      if final.Failure? then Stop(p, final.error) else Acting(cfg, p, i, v, final.value)
  }

  /** A changed unit: it is normalized and read back before anything is decided. */
  function Changed(cfg: Config, p: Progress, i: nat, v: Visit): Outcome {
    if !v.first.fits then Stop(p, BadExperience)
    else if !ValidPrint(v.after) || !ValidPrint(v.first.mark) then Stop(p, BadFingerprint)
    else if v.after != v.first.mark then Stop(p, SourceChanged)
    else if cfg.referenceOnly then
      PersistAndAdvance(cfg, p.(counts := p.counts.(sourceOnly := p.counts.sourceOnly + 1)), i, v)
    else Deciding(cfg, p, i, v)
  }

  /** A counted unit: unchanged against the checkpoint, or changed. */
  function Compared(cfg: Config, p: Progress, i: nat, v: Visit): Outcome {
    if !ValidPrint(v.before) then Stop(p, BadFingerprint)
    else if v.sourceId in p.fingerprints && p.fingerprints[v.sourceId] == v.before.value then
      Outcome(p.(counts := p.counts.(same := p.counts.same + 1)), None)
    else Changed(cfg, p.(counts := p.counts.(changed := p.counts.changed + 1)), i, v)
  }

  function Consume(cfg: Config, p: Progress, i: nat, v: Visit): Outcome {
    if !v.sameIdentity then Stop(p, ForeignUnit)
    else Compared(cfg, p.(counts := p.counts.(scanned := p.counts.scanned + 1)), i, v)
  }

  // ---------------------------------------------------------------- the scan

  /** The first `n` visits of a page; `from` visits came before the page. */
  function ConsumeAll(cfg: Config, p: Progress, from: nat, visits: seq<Visit>, n: nat): Outcome
    requires n <= |visits|
  {
    if n == 0 then Outcome(p, None)
    else
      var before := ConsumeAll(cfg, p, from, visits, n - 1);
      if before.error.Some? then before else Consume(cfg, before.progress, from + n - 1, visits[n - 1])
  }

  datatype ScanEnd = Completed | Interrupted | Threw(error: SyncError)

  /** Where the scan is: the cursor it holds, the cursors it has seen, and the visits made. */
  datatype Scan = Scan(progress: Progress, cursor: Option<string>, seen: set<string>, visits: seq<Visit>,
                       end: Option<ScanEnd>)

  predicate Stuck(s: Scan, next: string) {
    IsBlank(next) || s.cursor == Some(next) || next in s.seen
  }

  /** One turn of the loop with the page that the source answers. */
  function ScanPage(cfg: Config, s: Scan, page: Page): Scan {
    if s.end.Some? then s
    else
      var r := ConsumeAll(cfg, s.progress, |s.visits|, page.visits, |page.visits|);
      var t := s.(progress := r.progress, visits := s.visits + page.visits);
      if r.error.Some? then t.(end := Some(Threw(r.error.value)))
      else
        match page.next
        case None => t.(cursor := None, end := Some(Completed))
        case Some(next) =>
          if Stuck(s, next) then t.(end := Some(Threw(CursorStuck)))
          else t.(cursor := Some(next), seen := s.seen + {next})
  }

  function ScanPages(cfg: Config, s: Scan, pages: seq<Page>, n: nat): Scan
    requires n <= |pages|
  {
    if n == 0 then s else ScanPage(cfg, ScanPages(cfg, s, pages, n - 1), pages[n - 1])
  }

  const NO_COUNTS := Counts(0, 0, 0, 0, 0, 0, 0, 0)

  function PriorMap(prior: Option<Checkpoint>): map<string, string> {
    match prior case None => map[] case Some(c) => c.fingerprints
  }

  function Start(m: map<string, string>): Scan {
    Scan(Progress(m, NO_COUNTS, []), None, {}, [], None)
  }

  /** The answers of the source run out: the process was stopped there. */
  function Ended(s: Scan): ScanEnd {
    match s.end case None => Interrupted case Some(end) => end
  }

  // ---------------------------------------------------------------- what one visit can leave behind

  /** The sample that is acted on: the last revalidation, or the first read when there is no state key. */
  function FinalSample(cfg: Config, v: Visit): Sample {
    if cfg.referenceOnly || !cfg.hasStateKey then v.first else v.third
  }

  /** The normalized version was read back with the same fingerprint. */
  predicate Verified(v: Visit) {
    v.first.fits && ValidPrint(v.after) && v.first.mark == v.after
  }

  /** The reread is of this unit, with the same fingerprint and the same state key. */
  predicate Steady(v: Visit, reread: Sample) {
    reread.fits && reread.mark == v.after && reread.stateKey == v.first.stateKey && !IsBlank(reread.stateKey)
  }

  /** The version that would be recorded was verified, stayed the same through every reread, and was not deferred. */
  predicate Admissible(cfg: Config, v: Visit) {
    && v.sameIdentity && Verified(v)
    && (!cfg.referenceOnly ==> !DecisionOf(cfg, v).Defer? && ValidDecision(DecisionOf(cfg, v)))
    && (!cfg.referenceOnly && cfg.hasStateKey ==> Steady(v, v.second) && Steady(v, v.third))
  }

  predicate Distilled(cfg: Config, v: Visit) {
    !cfg.referenceOnly && DecisionOf(cfg, v).Distill? && FinalSample(cfg, v).textual
  }

  /** The effects of a visit that records, in their order. */
  function Expected(cfg: Config, v: Visit, i: nat): seq<Effect> {
    (if Distilled(cfg, v) then [Submitted(i, v.sourceId, v.after.value, v.status)] else [])
    + (if cfg.hasSink then [Persisted(i, v.sourceId, v.after.value)] else [])
    + [Appending(i, v.sourceId, v.after.value), Recorded(i, v.sourceId, v.after.value)]
  }

  /** The effects are the expected ones up to some point; past the submission only with a terminal receipt. */
  ghost predicate Orderly(cfg: Config, v: Visit, i: nat, es: seq<Effect>) {
    && es <= Expected(cfg, v, i)
    && (es != [] ==> Admissible(cfg, v))
    && (Distilled(cfg, v) && |es| > 1 ==> v.status == Terminal)
  }

  /** What a visit adds: effects in order, and without an error the new fingerprint exactly if it was recorded. */
  ghost predicate VisitSound(cfg: Config, p: Progress, i: nat, v: Visit, r: Outcome, es: seq<Effect>) {
    && r.progress.effects == p.effects + es
    && Orderly(cfg, v, i, es)
    && (r.error.None? ==>
          r.progress.fingerprints ==
            if |es| == |Expected(cfg, v, i)| then p.fingerprints[v.sourceId := v.after.value] else p.fingerprints)
  }

  /** Persisting and recording after the effects that are already there. */
  lemma AdvanceSound(cfg: Config, p: Progress, i: nat, v: Visit, done: seq<Effect>) returns (es: seq<Effect>)
    requires Admissible(cfg, v)
    requires done == if Distilled(cfg, v) then [Submitted(i, v.sourceId, v.after.value, v.status)] else []
    requires Distilled(cfg, v) ==> v.status == Terminal
    ensures var r := PersistAndAdvance(cfg, p, i, v);
      && r.progress.effects == p.effects + es && r.progress.counts == p.counts && done + es <= Expected(cfg, v, i)
      && (r.error.None? ==>
            done + es == Expected(cfg, v, i) && r.progress.fingerprints == p.fingerprints[v.sourceId := v.after.value])
  {
    var appending, recorded := Appending(i, v.sourceId, v.after.value), Recorded(i, v.sourceId, v.after.value);
    if cfg.hasSink && !v.persists {
      es := [];
    } else {
      var first := if cfg.hasSink then [Persisted(i, v.sourceId, v.after.value)] else [];
      es := first + [appending] + (if v.stores then [recorded] else []);
      assert p.effects + first + [appending] + [recorded] == p.effects + (first + [appending] + [recorded]);
      assert p.effects + first + [appending] == p.effects + (first + [appending]);
      assert done + first + [appending, recorded] == done + (first + [appending] + [recorded]);
      assert done + (first + [appending]) == (done + first + [appending, recorded])[..|done + first| + 1];
    }
  }

  lemma DistillingSound(cfg: Config, p: Progress, i: nat, v: Visit) returns (es: seq<Effect>)
    requires Admissible(cfg, v) && Distilled(cfg, v)
    ensures VisitSound(cfg, p, i, v, Distilling(cfg, p, i, v), es)
  {
    var submitted := [Submitted(i, v.sourceId, v.after.value, v.status)];
    if !cfg.hasIngestor || !v.ingests {
      es := [];
    } else if v.status != Terminal || (cfg.hasSink && !v.persists) {
      es := submitted;
    } else {
      var q := Emit(p.(counts := p.counts.(receipts := p.counts.receipts + 1)), submitted[0]);
      var more := AdvanceSound(cfg, q.(counts := q.counts.(ingested := q.counts.ingested + 1)), i, v, submitted);
      es := submitted + more;
      assert p.effects + submitted + more == p.effects + es;
    }
  }

  lemma RecordingSound(cfg: Config, p: Progress, i: nat, v: Visit, c: Counts) returns (es: seq<Effect>)
    requires Admissible(cfg, v) && !Distilled(cfg, v)
    ensures VisitSound(cfg, p, i, v, PersistAndAdvance(cfg, p.(counts := c), i, v), es)
  {
    es := AdvanceSound(cfg, p.(counts := c), i, v, []);
    assert [] + es == es;
  }

  lemma DecidingSound(cfg: Config, p: Progress, i: nat, v: Visit) returns (es: seq<Effect>)
    requires v.sameIdentity && Verified(v) && !cfg.referenceOnly
    ensures VisitSound(cfg, p, i, v, Deciding(cfg, p, i, v), es)
  {
    es := [];
    var stable := Revalidated(cfg, v.first, v.second);
    if stable.Success? && ValidDecision(DecisionOf(cfg, v)) && !DecisionOf(cfg, v).Defer? {
      var final := Revalidated(cfg, stable.value, v.third);
      if final.Success? {
        assert final.value == FinalSample(cfg, v) && Admissible(cfg, v);
        if DecisionOf(cfg, v).SourceOnly? {
          es := RecordingSound(cfg, p, i, v, p.counts.(sourceOnly := p.counts.sourceOnly + 1));
        } else if !final.value.textual {
          es := RecordingSound(cfg, p, i, v, p.counts.(noText := p.counts.noText + 1));
        } else {
          es := DistillingSound(cfg, p, i, v);
        }
      }
    }
  }

  lemma NoEffectsSound(cfg: Config, p: Progress, i: nat, v: Visit, r: Outcome)
    requires r.progress.effects == p.effects && r.progress.fingerprints == p.fingerprints
    ensures VisitSound(cfg, p, i, v, r, [])
  {
  }

  /** Counting does not matter to what a visit leaves behind. */
  lemma CountedSound(cfg: Config, p: Progress, c: Counts, i: nat, v: Visit, r: Outcome, es: seq<Effect>)
    requires VisitSound(cfg, p.(counts := c), i, v, r, es)
    ensures VisitSound(cfg, p, i, v, r, es)
  {
  }

  lemma ChangedSound(cfg: Config, p: Progress, i: nat, v: Visit) returns (r: Outcome, es: seq<Effect>)
    requires v.sameIdentity
    ensures r == Changed(cfg, p, i, v) && VisitSound(cfg, p, i, v, r, es)
  {
    r := Changed(cfg, p, i, v);
    if !(v.first.fits && ValidPrint(v.after) && ValidPrint(v.first.mark) && v.after == v.first.mark) {
      es := [];
      NoEffectsSound(cfg, p, i, v, r);
    } else if cfg.referenceOnly {
      es := RecordingSound(cfg, p, i, v, p.counts.(sourceOnly := p.counts.sourceOnly + 1));
    } else {
      es := DecidingSound(cfg, p, i, v);
    }
  }

  lemma ComparedSound(cfg: Config, p: Progress, i: nat, v: Visit) returns (r: Outcome, es: seq<Effect>)
    requires v.sameIdentity
    ensures r == Compared(cfg, p, i, v) && VisitSound(cfg, p, i, v, r, es)
  {
    if !ValidPrint(v.before) || (v.sourceId in p.fingerprints && p.fingerprints[v.sourceId] == v.before.value) {
      r, es := Compared(cfg, p, i, v), [];
      NoEffectsSound(cfg, p, i, v, r);
    } else {
      var c := p.counts.(changed := p.counts.changed + 1);
      r, es := ChangedSound(cfg, p.(counts := c), i, v);
      CountedSound(cfg, p, c, i, v, r, es);
    }
  }

  lemma ConsumeSound(cfg: Config, p: Progress, i: nat, v: Visit) returns (r: Outcome, es: seq<Effect>)
    ensures r == Consume(cfg, p, i, v) && VisitSound(cfg, p, i, v, r, es)
  {
    if !v.sameIdentity {
      r, es := Consume(cfg, p, i, v), [];
      NoEffectsSound(cfg, p, i, v, r);
    } else {
      var c := p.counts.(scanned := p.counts.scanned + 1);
      r, es := ComparedSound(cfg, p.(counts := c), i, v);
      CountedSound(cfg, p, c, i, v, r, es);
    }
  }

  // ---------------------------------------------------------------- the counters

  ghost predicate Balanced(c: Counts) {
    && c.scanned == c.same + c.changed
    && c.changed == c.sourceOnly + c.deferred + c.noText + c.receipts && c.ingested <= c.receipts
  }

  lemma ConsumeBalances(cfg: Config, p: Progress, i: nat, v: Visit)
    requires Balanced(p.counts)
    ensures Consume(cfg, p, i, v).error.None? ==> Balanced(Consume(cfg, p, i, v).progress.counts)
  {
  }

  // ---------------------------------------------------------------- a whole run

  /** What the recorded effects make of the fingerprints. */
  function Records(m: map<string, string>, effects: seq<Effect>): map<string, string> {
    if effects == [] then m
    else
      var before := Records(m, effects[..|effects| - 1]);
      match effects[|effects| - 1]
      case Recorded(_, sourceId, value) => before[sourceId := value]
      case _ => before
  }

  /** An effect that brings a fingerprint to the store, or reports that it is there. */
  predicate Stores(e: Effect) { e.Appending? || e.Recorded? }

  /** The effect stores the version that an admissible visit verified; a distilled one has a terminal receipt. */
  ghost predicate Sanctioned(cfg: Config, visits: seq<Visit>, e: Effect) {
    && Stores(e) && e.visit < |visits|
    && var v := visits[e.visit];
    && Admissible(cfg, v) && (Distilled(cfg, v) ==> v.status == Terminal)
    && e.sourceId == v.sourceId && e.value == v.after.value
  }

  /** What has to happen up to and including a storing effect, in order. */
  function Required(cfg: Config, visits: seq<Visit>, e: Effect): seq<Effect>
    requires e.visit < |visits|
  {
    var all := Expected(cfg, visits[e.visit], e.visit);
    if e.Recorded? then all else all[..|all| - 1]
  }

  /** The effects up to `j` end with these. */
  predicate EndsWith(effects: seq<Effect>, j: nat, all: seq<Effect>)
    requires j < |effects|
  {
    |all| <= j + 1 && effects[j + 1 - |all|..j + 1] == all
  }

  /** The storing effect follows, in order and without a gap, what an admissible visit must do before it. */
  ghost predicate JustifiedAt(cfg: Config, effects: seq<Effect>, visits: seq<Visit>, j: nat)
    requires j < |effects|
  {
    Sanctioned(cfg, visits, effects[j]) && EndsWith(effects, j, Required(cfg, visits, effects[j]))
  }

  ghost predicate AllJustified(cfg: Config, effects: seq<Effect>, visits: seq<Visit>) {
    forall j | 0 <= j < |effects| && Stores(effects[j]) :: JustifiedAt(cfg, effects, visits, j)
  }

  lemma MoreVisitsJustify(cfg: Config, effects: seq<Effect>, visits: seq<Visit>, more: seq<Visit>)
    requires AllJustified(cfg, effects, visits)
    ensures AllJustified(cfg, effects, visits + more)
  {
    forall j | 0 <= j < |effects| && Stores(effects[j]) ensures JustifiedAt(cfg, effects, visits + more, j) {
      assert JustifiedAt(cfg, effects, visits, j);
    }
  }

  /** In the expected effects only the last two store. */
  lemma OnlyLastStore(cfg: Config, v: Visit, i: nat, es: seq<Effect>, j: nat)
    requires es <= Expected(cfg, v, i) && j < |es| && Stores(es[j])
    ensures var all := Expected(cfg, v, i);
      && j == (if es[j].Recorded? then |all| - 1 else |all| - 2)
      && (Distilled(cfg, v) ==> j > 0)
    ensures es[j].visit == i && es[j].sourceId == v.sourceId && es[j].value == v.after.value
  {
    assert es[j] == Expected(cfg, v, i)[j];
  }

  lemma EndsWithGrows(effects: seq<Effect>, es: seq<Effect>, j: nat, all: seq<Effect>)
    requires j < |effects| && EndsWith(effects, j, all)
    ensures EndsWith(effects + es, j, all)
  {
    assert (effects + es)[j + 1 - |all|..j + 1] == effects[j + 1 - |all|..j + 1];
  }

  lemma NewEffectIsJustified(cfg: Config, effects: seq<Effect>, visits: seq<Visit>, i: nat, es: seq<Effect>, j: nat)
    requires i < |visits| && Orderly(cfg, visits[i], i, es) && j < |es| && Stores(es[j])
    ensures Sanctioned(cfg, visits, es[j])
    ensures EndsWith(effects + es, |effects| + j, Required(cfg, visits, es[j]))
  {
    OnlyLastStore(cfg, visits[i], i, es, j);
    var up := Required(cfg, visits, es[j]);
    assert |up| == j + 1 && up == es[..j + 1];
    assert (effects + es)[|effects|..|effects| + j + 1] == es[..j + 1];
  }

  lemma VisitJustifies(cfg: Config, effects: seq<Effect>, visits: seq<Visit>, i: nat, es: seq<Effect>)
    requires AllJustified(cfg, effects, visits) && i < |visits| && Orderly(cfg, visits[i], i, es)
    ensures AllJustified(cfg, effects + es, visits)
  {
    var longer := effects + es;
    forall j | 0 <= j < |longer| && Stores(longer[j]) ensures JustifiedAt(cfg, longer, visits, j) {
      if j < |effects| {
        assert longer[j] == effects[j] && JustifiedAt(cfg, effects, visits, j);
        EndsWithGrows(effects, es, j, Required(cfg, visits, effects[j]));
      } else {
        assert longer[j] == es[j - |effects|];
        NewEffectIsJustified(cfg, effects, visits, i, es, j - |effects|);
      }
    }
  }

  lemma {:induction false} RecordsSplit(m: map<string, string>, effects: seq<Effect>, es: seq<Effect>)
    ensures Records(m, effects + es) == Records(Records(m, effects), es)
  {
    if es == [] {
      assert effects + es == effects;
    } else {
      RecordsSplit(m, effects, es[..|es| - 1]);
      assert (effects + es)[..|effects + es| - 1] == effects + es[..|es| - 1];
    }
  }

  lemma {:induction false} NothingRecorded(m: map<string, string>, es: seq<Effect>)
    requires forall j | 0 <= j < |es| :: !es[j].Recorded?
    ensures Records(m, es) == m
  {
    if es != [] {
      NothingRecorded(m, es[..|es| - 1]);
    }
  }

  lemma RecordsLast(m: map<string, string>, front: seq<Effect>, i: nat, sourceId: string, value: string)
    ensures Records(m, front + [Recorded(i, sourceId, value)]) == Records(m, front)[sourceId := value]
  {
    assert (front + [Recorded(i, sourceId, value)])[..|front|] == front;
  }

  lemma RecordsOfVisit(cfg: Config, v: Visit, i: nat, es: seq<Effect>, m: map<string, string>)
    requires es <= Expected(cfg, v, i)
    ensures Records(m, es) == if |es| == |Expected(cfg, v, i)| then m[v.sourceId := v.after.value] else m
  {
    var all := Expected(cfg, v, i);
    var front := all[..|all| - 1];
    assert all == front + [Recorded(i, v.sourceId, v.after.value)];
    if |es| == |all| {
      assert es == all;
      NothingRecorded(m, front);
      RecordsLast(m, front, i, v.sourceId, v.after.value);
    } else {
      forall j | 0 <= j < |es| ensures !es[j].Recorded? {
        assert es[j] == front[j];
      }
      NothingRecorded(m, es);
    }
  }

  /** What holds all through a run without an error: balanced counters, and the fingerprints that were recorded. */
  ghost predicate InStep(m: map<string, string>, p: Progress) {
    Balanced(p.counts) && p.fingerprints == Records(m, p.effects)
  }

  lemma ConsumeStaysInStep(cfg: Config, m: map<string, string>, p: Progress, i: nat, visits: seq<Visit>)
    requires i < |visits| && InStep(m, p) && AllJustified(cfg, p.effects, visits)
    ensures var r := Consume(cfg, p, i, visits[i]);
      AllJustified(cfg, r.progress.effects, visits) && (r.error.None? ==> InStep(m, r.progress))
  {
    var r, es := ConsumeSound(cfg, p, i, visits[i]);
    ConsumeBalances(cfg, p, i, visits[i]);
    VisitJustifies(cfg, p.effects, visits, i, es);
    RecordsSplit(m, p.effects, es);
    RecordsOfVisit(cfg, visits[i], i, es, Records(m, p.effects));
  }

  /** Every storing effect so far is justified, and without an error the run is in step. */
  ghost predicate OutcomeSound(cfg: Config, m: map<string, string>, visits: seq<Visit>, r: Outcome) {
    AllJustified(cfg, r.progress.effects, visits) && (r.error.None? ==> InStep(m, r.progress))
  }

  lemma NextStaysInStep(cfg: Config, m: map<string, string>, p: Progress, i: nat, visits: seq<Visit>)
    returns (r: Outcome)
    requires i < |visits| && OutcomeSound(cfg, m, visits, Outcome(p, None))
    ensures r == Consume(cfg, p, i, visits[i]) && OutcomeSound(cfg, m, visits, r)
  {
    ConsumeStaysInStep(cfg, m, p, i, visits);
    r := Consume(cfg, p, i, visits[i]);
  }

  lemma {:induction false} PageStaysInStep(cfg: Config, m: map<string, string>, p: Progress, from: nat,
                                           page: seq<Visit>, visits: seq<Visit>, n: nat) returns (r: Outcome)
    requires n <= |page| && from + |page| == |visits| && visits[from..] == page
    requires OutcomeSound(cfg, m, visits, Outcome(p, None))
    ensures r == ConsumeAll(cfg, p, from, page, n) && OutcomeSound(cfg, m, visits, r)
  {
    if n == 0 {
      r := Outcome(p, None);
    } else {
      r := PageStaysInStep(cfg, m, p, from, page, visits, n - 1);
      if r.error.None? {
        assert visits[from + n - 1] == visits[from..][n - 1];
        r := NextStaysInStep(cfg, m, r.progress, from + n - 1, visits);
      }
    }
  }

  ghost predicate ScanSound(cfg: Config, m: map<string, string>, s: Scan) {
    && AllJustified(cfg, s.progress.effects, s.visits)
    && (s.end.None? || s.end == Some(Completed) ==> InStep(m, s.progress))
  }

  lemma {:induction false} ScanStaysSound(cfg: Config, m: map<string, string>, s: Scan, pages: seq<Page>, n: nat)
    requires n <= |pages| && ScanSound(cfg, m, s)
    ensures ScanSound(cfg, m, ScanPages(cfg, s, pages, n))
  {
    if n > 0 {
      ScanStaysSound(cfg, m, s, pages, n - 1);
      var t, visits := ScanPages(cfg, s, pages, n - 1), pages[n - 1].visits;
      if t.end.None? {
        MoreVisitsJustify(cfg, t.progress.effects, t.visits, visits);
        assert (t.visits + visits)[|t.visits|..] == visits;
        var r := PageStaysInStep(cfg, m, t.progress, |t.visits|, visits, t.visits + visits, |visits|);
      }
    }
  }

  lemma StartIsSound(cfg: Config, m: map<string, string>) returns (s: Scan)
    ensures s == Start(m) && ScanSound(cfg, m, s)
  {
    s := Start(m);
    var p := s.progress;
    assert p.effects == [] && p.fingerprints == m;
    assert Records(m, p.effects) == m;
  }

  lemma RunIsSound(cfg: Config, m: map<string, string>, pages: seq<Page>) returns (s: Scan)
    ensures s == ScanPages(cfg, Start(m), pages, |pages|) && ScanSound(cfg, m, s)
  {
    var start := StartIsSound(cfg, m);
    ScanStaysSound(cfg, m, start, pages, |pages|);
    s := ScanPages(cfg, start, pages, |pages|);
  }

  /**
   Whatever the source answers, and wherever the run stops: a fingerprint is recorded only for a version that
   was normalized and read back unchanged through every reread, was not deferred, had its reference persisted,
   and had a terminal receipt first if it was distilled. A completed scan accounts for every unit, and holds
   exactly the fingerprints that were recorded.
   */
  lemma RunRecordsOnlyVerified(cfg: Config, m: map<string, string>, pages: seq<Page>)
    ensures var s := ScanPages(cfg, Start(m), pages, |pages|);
      && AllJustified(cfg, s.progress.effects, s.visits)
      && (Ended(s).Completed? ==>
            Balanced(s.progress.counts) && s.progress.fingerprints == Records(m, s.progress.effects))
  {
    var s := RunIsSound(cfg, m, pages);
  }

  // ---------------------------------------------------------------- the checkpoint store under a run

  /** The append that stores the last of the effects, if that one records; `at` gives the clock. */
  function StoreEvent(id: Identity, at: nat -> string, m: map<string, string>, effects: seq<Effect>): Event {
    if effects == [] then Event(LoadOp, Some(0))
    else
      match effects[|effects| - 1]
      case Recorded(_, sourceId, _) =>
        Event(AppendOp(Checkpoint(id, Records(m, effects), at(|effects|)), sourceId), None)
      case _ => Event(LoadOp, Some(0))
  }

  /** The disk after the appends of the recorded effects. */
  function Stored(codec: Codec, disk: Disk, id: Identity, at: nat -> string, m: map<string, string>,
                  effects: seq<Effect>): Disk {
    if effects == [] then disk
    else After(codec, Stored(codec, disk, id, at, m, effects[..|effects| - 1]), StoreEvent(id, at, m, effects))
  }

  /** Every append went through; a refused one stops the run instead. */
  ghost predicate AllStored(codec: Codec, disk: Disk, id: Identity, at: nat -> string, m: map<string, string>,
                            effects: seq<Effect>) {
    effects != [] ==>
      && AllStored(codec, disk, id, at, m, effects[..|effects| - 1])
      && StepsOf(codec, Stored(codec, disk, id, at, m, effects[..|effects| - 1]),
                 StoreEvent(id, at, m, effects).op).error.None?
  }

  ghost predicate IdentityIs(disk: Disk, id: Identity) {
    disk.snapshot.Some? ==> disk.snapshot.value.identity == id
  }

  lemma AppendKeepsIdentity(codec: Codec, disk: Disk, c: Checkpoint, sourceId: string)
    requires IdentityIs(disk, c.identity)
    ensures IdentityIs(After(codec, disk, Event(AppendOp(c, sourceId), None)), c.identity)
  {
    var steps := AppendSteps(codec, disk, c, sourceId);
    if steps.error.None? {
      var text := codec.encode(DeltaFor(c, sourceId)) + "\n";
      AppendIsWriting(codec, disk, c, sourceId, BaseFor(Truncated(disk), c));
    }
  }

  /** One recorded effect and its append change the fingerprints and the disk alike. */
  lemma StoreStep(codec: Codec, disk: Disk, id: Identity, at: nat -> string, m: map<string, string>,
                  effects: seq<Effect>)
    requires Good(codec) && effects != [] && Sound(codec, disk) && IdentityIs(disk, id)
    requires Meaning(codec, disk) == Records(m, effects[..|effects| - 1])
    requires StepsOf(codec, disk, StoreEvent(id, at, m, effects).op).error.None?
    ensures var disk' := After(codec, disk, StoreEvent(id, at, m, effects));
      Stands(codec, disk', Records(m, effects)) && IdentityIs(disk', id)
  {
    var e := StoreEvent(id, at, m, effects);
    if effects[|effects| - 1].Recorded? {
      AppendKeepsIdentity(codec, disk, e.op.checkpoint, e.op.sourceId);
      var stands := EventIsAtomic(codec, disk, e);
    } else {
      SoundStands(codec, disk);
    }
  }

  lemma {:induction false} StoredFollowsRecords(codec: Codec, disk: Disk, id: Identity, at: nat -> string,
                                                m: map<string, string>, effects: seq<Effect>) returns (now: Disk)
    requires Good(codec) && Stands(codec, disk, m) && IdentityIs(disk, id) && AllStored(codec, disk, id, at, m, effects)
    ensures now == Stored(codec, disk, id, at, m, effects)
    ensures Stands(codec, now, Records(m, effects)) && IdentityIs(now, id)
  {
    if effects == [] {
      now := disk;
    } else {
      var before := StoredFollowsRecords(codec, disk, id, at, m, effects[..|effects| - 1]);
      StoreStep(codec, before, id, at, m, effects);
      now := After(codec, before, StoreEvent(id, at, m, effects));
    }
  }

  lemma StandsKeepsProgress(codec: Codec, disk: Disk, id: Identity, m: map<string, string>, now: string)
    requires Good(codec) && Stands(codec, disk, m) && IdentityIs(disk, id)
    ensures Allowed(codec, disk, Event(SaveOp(Checkpoint(id, m, now), true), None))
  {
    var c := Checkpoint(id, m, now);
    var ds: seq<Delta>, partial: string :| Holds(codec, disk, ds, partial);
    ProgressIsReplaceable(codec, disk, ds, partial, c);
    assert AllowsReplacement(codec, disk, c);
  }

  /**
   The save that ends a completed run keeps progress, so it is one of the saves that no crash can harm: the
   durable fingerprints at that point are exactly the run's.
   */
  lemma FinalSaveKeepsProgress(disk: Disk, cfg: Config, m: map<string, string>, pages: seq<Page>,
                               at: nat -> string, now: string)
    requires Stands(JSON, disk, m) && IdentityIs(disk, cfg.identity)
    requires var s := ScanPages(cfg, Start(m), pages, |pages|);
      Ended(s).Completed? && AllStored(JSON, disk, cfg.identity, at, m, s.progress.effects)
    ensures var s := ScanPages(cfg, Start(m), pages, |pages|);
      var stored := Stored(JSON, disk, cfg.identity, at, m, s.progress.effects);
      && Stands(JSON, stored, s.progress.fingerprints)
      && Allowed(JSON, stored, Event(SaveOp(Checkpoint(cfg.identity, s.progress.fingerprints, now), true), None))
  {
    JsonIsGood();
    var s := RunIsSound(cfg, m, pages);
    var stored := StoredFollowsRecords(JSON, disk, cfg.identity, at, m, s.progress.effects);
    StandsKeepsProgress(JSON, stored, cfg.identity, s.progress.fingerprints, now);
  }

  // ---------------------------------------------------------------- a run that is cut short

  /** The append under way when the effects end with its start. */
  function UnderWay(id: Identity, at: nat -> string, m: map<string, string>, effects: seq<Effect>): Op
    requires effects != [] && effects[|effects| - 1].Appending?
  {
    var e := effects[|effects| - 1];
    AppendOp(Checkpoint(id, Records(m, effects)[e.sourceId := e.value], at(|effects|)), e.sourceId)
  }

  /** What the disk may be when the run is cut after these effects, and `n` durable steps into an append under way. */
  function CutAfter(codec: Codec, disk: Disk, id: Identity, at: nat -> string, m: map<string, string>,
                    effects: seq<Effect>, n: nat): Disk {
    var stored := Stored(codec, disk, id, at, m, effects);
    if effects == [] || !effects[|effects| - 1].Appending? then stored
    else After(codec, stored, Event(UnderWay(id, at, m, effects), Some(n)))
  }

  /** Before the run the source had this fingerprint, or one of the first `k` effects brings it. */
  ghost predicate Grounded(m: map<string, string>, effects: seq<Effect>, k: nat, sourceId: string, value: string) {
    || (sourceId in m && m[sourceId] == value)
    || exists j :: 0 <= j < k && j < |effects| && Brings(effects[j], sourceId, value)
  }

  predicate Brings(e: Effect, sourceId: string, value: string) {
    Stores(e) && e.sourceId == sourceId && e.value == value
  }

  lemma {:induction false} RecordsGrounded(m: map<string, string>, effects: seq<Effect>, k: nat, sourceId: string)
    requires k <= |effects| && sourceId in Records(m, effects[..k])
    ensures Grounded(m, effects, k, sourceId, Records(m, effects[..k])[sourceId])
  {
    if k > 0 {
      assert effects[..k][..k - 1] == effects[..k - 1];
      var e := effects[k - 1];
      if e.Recorded? && e.sourceId == sourceId {
        assert Brings(effects[k - 1], sourceId, e.value);
      } else {
        RecordsGrounded(m, effects, k - 1, sourceId);
      }
    }
  }

  lemma CutStands(codec: Codec, disk: Disk, id: Identity, at: nat -> string, m: map<string, string>,
                  effects: seq<Effect>, n: nat) returns (now: map<string, string>)
    requires Good(codec) && Stands(codec, disk, m) && IdentityIs(disk, id) && AllStored(codec, disk, id, at, m, effects)
    ensures Stands(codec, CutAfter(codec, disk, id, at, m, effects, n), now)
    ensures now == Records(m, effects)
      || (&& effects != [] && effects[|effects| - 1].Appending?
          && now == Records(m, effects)[effects[|effects| - 1].sourceId := effects[|effects| - 1].value])
  {
    var stored := StoredFollowsRecords(codec, disk, id, at, m, effects);
    if effects == [] || !effects[|effects| - 1].Appending? {
      now := Records(m, effects);
    } else {
      now := EventIsAtomic(codec, stored, Event(UnderWay(id, at, m, effects), Some(n)));
    }
  }

  /**
   Wherever a run is cut, between two of its effects or at any character of an append, a refused append
   included: the store loads, and every fingerprint it returns was there before the run or belongs to a
   storing effect, and every storing effect of a run is justified.
   */
  lemma CutRunLoadsOnlyJustified(disk: Disk, cfg: Config, m: map<string, string>, pages: seq<Page>, at: nat -> string,
                                 k: nat, n: nat)
    requires Stands(JSON, disk, m) && IdentityIs(disk, cfg.identity)
    requires var s := ScanPages(cfg, Start(m), pages, |pages|);
      k <= |s.progress.effects| && AllStored(JSON, disk, cfg.identity, at, m, s.progress.effects[..k])
    ensures var s := ScanPages(cfg, Start(m), pages, |pages|);
      var cut := CutAfter(JSON, disk, cfg.identity, at, m, s.progress.effects[..k], n);
      && AllJustified(cfg, s.progress.effects, s.visits)
      && Load(JSON, cut).Success?
      && forall id | id in Meaning(JSON, cut) :: Grounded(m, s.progress.effects, k, id, Meaning(JSON, cut)[id])
  {
    JsonIsGood();
    var s := RunIsSound(cfg, m, pages);
    var effects := s.progress.effects;
    var now := CutStands(JSON, disk, cfg.identity, at, m, effects[..k], n);
    forall id | id in now ensures Grounded(m, effects, k, id, now[id]) {
      if id in Records(m, effects[..k]) && now[id] == Records(m, effects[..k])[id] {
        RecordsGrounded(m, effects, k, id);
      } else {
        assert Brings(effects[k - 1], id, now[id]);
      }
    }
  }

  // ---------------------------------------------------------------- the service

  class Syncer {
    const config: Config
    var fingerprints: map<string, string>
    var counts: Counts
    var effects: seq<Effect>

    constructor (config: Config)
      ensures this.config == config
    {
      this.config := config;
      fingerprints, counts, effects := map[], NO_COUNTS, [];
    }

    function State(): Progress
      reads this
    {
      Progress(fingerprints, counts, effects)
    }

    method Happen(e: Effect)
      modifies this`effects
      ensures effects == old(effects) + [e]
    {
      effects := effects + [e];
    }

    /** Persist the reference before the fingerprint is set and stored. */
    method PersistThenAdvance(i: nat, v: Visit) returns (error: Option<SyncError>)
      modifies this`effects, this`fingerprints
      ensures Outcome(State(), error) == PersistAndAdvance(config, old(State()), i, v)
    {
      if config.hasSink {
        if !v.persists {
          return Some(PersistFailed);
        }
        Happen(Persisted(i, v.sourceId, v.after.value));
      }
      fingerprints := fingerprints[v.sourceId := v.after.value];
      Happen(Appending(i, v.sourceId, v.after.value));
      if !v.stores {
        return Some(StoreFailed);
      }
      Happen(Recorded(i, v.sourceId, v.after.value));
      error := None;
    }

    method Submit(i: nat, v: Visit) returns (error: Option<SyncError>)
      modifies this`effects, this`fingerprints, this`counts
      ensures Outcome(State(), error) == Distilling(config, old(State()), i, v)
    {
      if !config.hasIngestor {
        return Some(NoIngestor);
      }
      if !v.ingests {
        return Some(IngestFailed);
      }
      counts := counts.(receipts := counts.receipts + 1);
      Happen(Submitted(i, v.sourceId, v.after.value, v.status));
      if v.status != Terminal {
        return None;
      }
      if config.hasSink && !v.persists {
        return Some(PersistFailed);
      }
      counts := counts.(ingested := counts.ingested + 1);
      error := PersistThenAdvance(i, v);
    }

    method Decide(i: nat, v: Visit) returns (error: Option<SyncError>)
      modifies this`effects, this`fingerprints, this`counts
      ensures Outcome(State(), error) == Deciding(config, old(State()), i, v)
    {
      var stable := Revalidated(config, v.first, v.second);
      if stable.Failure? {
        return Some(stable.error);
      }
      var decision := DecisionOf(config, v);
      if !ValidDecision(decision) {
        return Some(BadDecision);
      }
      if decision.Defer? {
        counts := counts.(deferred := counts.deferred + 1);
        return None;
      }
      var final := Revalidated(config, stable.value, v.third);
      if final.Failure? {
        return Some(final.error);
      }
      if decision.SourceOnly? {
        counts := counts.(sourceOnly := counts.sourceOnly + 1);
        error := PersistThenAdvance(i, v);
      } else if !final.value.textual {
        counts := counts.(noText := counts.noText + 1);
        error := PersistThenAdvance(i, v);
      } else {
        error := Submit(i, v);
      }
    }

    /** A changed unit: normalize, read back, then decide. */
    method ConsumeChanged(i: nat, v: Visit) returns (error: Option<SyncError>)
      modifies this`effects, this`fingerprints, this`counts
      ensures Outcome(State(), error) == Changed(config, old(State()), i, v)
    {
      if !v.first.fits {
        return Some(BadExperience);
      }
      if !ValidPrint(v.after) || !ValidPrint(v.first.mark) {
        return Some(BadFingerprint);
      }
      if v.after != v.first.mark {
        return Some(SourceChanged);
      }
      if config.referenceOnly {
        counts := counts.(sourceOnly := counts.sourceOnly + 1);
        error := PersistThenAdvance(i, v);
      } else {
        error := Decide(i, v);
      }
    }

    method CompareUnit(i: nat, v: Visit) returns (error: Option<SyncError>)
      modifies this`effects, this`fingerprints, this`counts
      ensures Outcome(State(), error) == Compared(config, old(State()), i, v)
    {
      if !ValidPrint(v.before) {
        return Some(BadFingerprint);
      }
      if v.sourceId in fingerprints && fingerprints[v.sourceId] == v.before.value {
        counts := counts.(same := counts.same + 1);
        return None;
      }
      counts := counts.(changed := counts.changed + 1);
      error := ConsumeChanged(i, v);
    }

    method ConsumeUnit(i: nat, v: Visit) returns (error: Option<SyncError>)
      modifies this`effects, this`fingerprints, this`counts
      ensures Outcome(State(), error) == Consume(config, old(State()), i, v)
    {
      if !v.sameIdentity {
        return Some(ForeignUnit);
      }
      counts := counts.(scanned := counts.scanned + 1);
      error := CompareUnit(i, v);
    }

    /** The units of one page, up to the first error. */
    method ConsumePage(from: nat, visits: seq<Visit>) returns (error: Option<SyncError>)
      modifies this`effects, this`fingerprints, this`counts
      ensures Outcome(State(), error) == ConsumeAll(config, old(State()), from, visits, |visits|)
    {
      var n := 0;
      error := None;
      ghost var start := State();
      while n < |visits| && error.None?
        invariant n <= |visits| && Outcome(State(), error) == ConsumeAll(config, start, from, visits, n)
      {
        ghost var before := State();
        error := ConsumeUnit(from + n, visits[n]);
        NextVisit(config, start, from, visits, n, before, Outcome(State(), error));
        n := n + 1;
      }
      if error.Some? {
        StoppedPage(config, start, from, visits, n, |visits|);
      }
    }

    /** Scan the pages that the source answers, then save; a run with the wrong checkpoint does not start. */
    method RunOnce(prior: Option<Checkpoint>, pages: seq<Page>, saves: bool) returns (end: ScanEnd)
      modifies this
      ensures prior.Some? && prior.value.identity != config.identity ==>
        end == Threw(IncompatibleCheckpoint) && State() == old(State())
      ensures !(prior.Some? && prior.value.identity != config.identity) ==>
        && var s := ScanPages(config, Start(PriorMap(prior)), pages, |pages|);
        && State() == s.progress
        && end == if Ended(s).Completed? && !saves then Threw(SaveFailed) else Ended(s)
    {
      if prior.Some? && prior.value.identity != config.identity {
        return Threw(IncompatibleCheckpoint);
      }
      fingerprints, counts, effects := PriorMap(prior), NO_COUNTS, [];
      var cursor: Option<string>, seen: set<string>, visits: seq<Visit> := None, {}, [];
      ghost var start := Start(PriorMap(prior));
      for n := 0 to |pages|
        invariant Scan(State(), cursor, seen, visits, None) == ScanPages(config, start, pages, n)
      {
        var page := pages[n];
        ghost var before := Scan(State(), cursor, seen, visits, None);
        var error := ConsumePage(|visits|, page.visits);
        StoppedScan(config, start, pages, n + 1, |pages|);
        if error.Some? {
          return Threw(error.value);
        }
        visits := visits + page.visits;
        if page.next.None? {
          return if saves then Completed else Threw(SaveFailed);
        }
        if IsBlank(page.next.value) || cursor == page.next || page.next.value in seen {
          return Threw(CursorStuck);
        }
        seen, cursor := seen + {page.next.value}, page.next;
      }
      end := Interrupted;
    }
  }

  lemma NextVisit(cfg: Config, start: Progress, from: nat, visits: seq<Visit>, n: nat, before: Progress, after: Outcome)
    requires n < |visits| && ConsumeAll(cfg, start, from, visits, n) == Outcome(before, None)
    requires after == Consume(cfg, before, from + n, visits[n])
    ensures ConsumeAll(cfg, start, from, visits, n + 1) == after
  {
  }

  lemma {:induction false} StoppedPage(cfg: Config, p: Progress, from: nat, visits: seq<Visit>, n: nat, m: nat)
    requires n <= m <= |visits| && ConsumeAll(cfg, p, from, visits, n).error.Some?
    ensures ConsumeAll(cfg, p, from, visits, m) == ConsumeAll(cfg, p, from, visits, n)
    decreases m
  {
    if n < m {
      StoppedPage(cfg, p, from, visits, n, m - 1);
    }
  }

  lemma {:induction false} StoppedScan(cfg: Config, s: Scan, pages: seq<Page>, n: nat, m: nat)
    requires n <= m <= |pages|
    ensures ScanPages(cfg, s, pages, n).end.Some? ==> ScanPages(cfg, s, pages, m) == ScanPages(cfg, s, pages, n)
    decreases m
  {
    if n < m {
      StoppedScan(cfg, s, pages, n, m - 1);
    }
  }
}
