/**
 Devices pulling and acknowledging while the authority commits: every read of a session may see a
 different store, any number of sessions may work for one device, and a client may acknowledge any
 range at all, whether it holds those changes or not.
 */
module DeviceReplicas {
  import opened Prelude
  import opened CanonicalStore
  import opened CommitLog
  import opened MemorySync
  import opened ReplicaFold

  type Device = (Scope, string)

  /**
   Where a session stands. `Listing` remembers the store state that its change list was read from;
   `Asked` has passed the checks of an acknowledgement and holds the changes acknowledged, if its
   client has them.
   */
  datatype Session =
    | Idle
    | Started(device: Device, after: int, limit: Option<int>)
    | Listing(device: Device, after: int, limit: Option<int>, listed: Store)
    | Pulled(device: Device, page: Page)
    | Asked(device: Device, expected: int, through: int, held: Option<seq<SyncChange>>)
    | Refused(error: SyncError)
    | Broken(error: SyncError)

  /**
   `delivered` records the changes acknowledged for each device, in order; `skipped` the devices for
   which a client has acknowledged changes that it did not hold.
   */
  datatype Fleet = Fleet(store: Store, checkpoints: map<Device, int>, delivered: map<Device, seq<SyncChange>>,
                         skipped: set<Device>, sessions: map<nat, Session>)

  datatype FleetAction =
    | Canonical(action: Action)
    | Start(session: nat, device: Device, limit: Option<int>)
    | List(session: nat)
    | HydratePage(session: nat)
    | Ask(session: nat, device: Device, expected: int, through: int)
    | Advance(session: nat)

  const NEW_FLEET: Fleet := Fleet(EMPTY, map[], map[], {}, map[])

  function Checkpoint(f: Fleet, d: Device): int {
    if d in f.checkpoints then f.checkpoints[d] else 0
  }

  function Delivered(f: Fleet, d: Device): seq<SyncChange> {
    if d in f.delivered then f.delivered[d] else []
  }

  function SessionOf(f: Fleet, id: nat): Session {
    if id in f.sessions then f.sessions[id] else Idle
  }

  /** No call of the session is under way. */
  predicate AtRest(session: Session) {
    session.Idle? || session.Pulled? || session.Refused? || session.Broken?
  }

  /** What the client of a session holds of a range: part of the page it has pulled, or nothing is asked for. */
  function HeldBy(session: Session, device: Device, expected: int, through: int): Option<seq<SyncChange>> {
    if expected == through then Some([])
    else if session.Pulled? && session.device == device && session.page.after == expected
            && 0 <= through - expected <= |session.page.changes| then
      Some(session.page.changes[..through - expected])
    else None
  }

  /** What a session step other than the compare-and-set does. */
  function Proceed(f: Fleet, session: Session, a: FleetAction): Session {
    match a
    case Start(_, device, limit) => if AtRest(session) then Started(device, Checkpoint(f, device), limit) else session
    case List(_) =>
      if session.Started? then Listing(session.device, session.after, session.limit, f.store) else session
    case HydratePage(_) =>
      if !session.Listing? then session
      else
        (match ReadChanges(session.listed, f.store, session.device.0, session.after, session.limit)
         case Success(page) => Pulled(session.device, page)
         case Failure(error) => Broken(error))
    case Ask(_, device, expected, through) =>
      if !AtRest(session) then session
      else
        (match CheckAcknowledgement(f.store, device.0, expected, through)
         case None => Asked(device, expected, through, HeldBy(session, device, expected, through))
         case Some(error) => Refused(error))
    case _ => session
  }

  /** The compare-and-set of one acknowledgement. */
  function Acknowledge(f: Fleet, id: nat, device: Device, expected: int, through: int,
                       held: Option<seq<SyncChange>>): Fleet {
    if Checkpoint(f, device) != expected then f.(sessions := f.sessions[id := Broken(CheckpointConflict)])
    else if through > HighSeq(f.store, device.0) then f.(sessions := f.sessions[id := Broken(InvalidSequence)])
    else
      f.(checkpoints := f.checkpoints[device := through],
         delivered := f.delivered[device := Delivered(f, device) + (if held.Some? then held.value else [])],
         skipped := if held.Some? then f.skipped else f.skipped + {device},
         sessions := f.sessions[id := Idle])
  }

  function FleetStep(f: Fleet, a: FleetAction): Fleet {
    match a
    case Canonical(action) => f.(store := Step(f.store, action))
    case Advance(id) =>
      (match SessionOf(f, id)
       case Asked(device, expected, through, held) => Acknowledge(f, id, device, expected, through, held)
       case _ => f)
    case _ => f.(sessions := f.sessions[a.session := Proceed(f, SessionOf(f, a.session), a)])
  }

  function FleetRun(f: Fleet, actions: seq<FleetAction>): Fleet {
    if actions == [] then f else FleetStep(FleetRun(f, actions[..|actions| - 1]), actions[|actions| - 1])
  }

  // ---------------------------------------------------------------- the invariant

  /** The log facts that sync relies on. */
  ghost predicate Synced(s: Store) {
    LogMirrored(s) && Chained(s) && Numbered(s)
  }

  ghost predicate PageOk(s: Store, d: Device, page: Page) {
    && Delivers(s, d.0, page.after, page.changes)
    && page.next == page.after + |page.changes| <= HighSeq(s, d.0)
    && |page.changes| <= MAX_SYNC_BATCH_SIZE
  }

  ghost predicate SessionOk(s: Store, session: Session) {
    match session
    case Idle => true
    case Started(d, after, _) => 0 <= after <= HighSeq(s, d.0)
    case Listing(d, after, _, listed) => 0 <= after <= HighSeq(listed, d.0) && Synced(listed) && Advances(listed, s)
    case Pulled(d, page) => PageOk(s, d, page)
    case Asked(d, expected, through, held) => RangeOk(s, d, expected, through, held)
    case Refused(_) => true
    case Broken(error) => error == InvalidLimit || error == CheckpointConflict
  }

  /** An empty range may lie anywhere; any other lies in the log, and what is held of it is what the log says. */
  ghost predicate RangeOk(s: Store, d: Device, expected: int, through: int, held: Option<seq<SyncChange>>) {
    && 0 <= expected <= through
    && (expected < through ==> through <= HighSeq(s, d.0))
    && (held.Some? ==> |held.value| == through - expected && Delivers(s, d.0, expected, held.value))
  }

  ghost predicate DeviceOk(f: Fleet, d: Device) {
    && 0 <= Checkpoint(f, d) <= HighSeq(f.store, d.0)
    && (d !in f.skipped ==> |Delivered(f, d)| == Checkpoint(f, d) && Delivers(f.store, d.0, 0, Delivered(f, d)))
  }

  ghost predicate SessionsOk(f: Fleet) {
    forall id: nat :: SessionOk(f.store, SessionOf(f, id))
  }

  ghost predicate DevicesOk(f: Fleet) {
    forall d: Device :: DeviceOk(f, d)
  }

  ghost predicate FleetInv(f: Fleet) {
    Inv(f.store) && FoldsToHeads(f.store) && SessionsOk(f) && DevicesOk(f)
  }

  lemma HighSeqGrows(s: Store, s': Store, scope: Scope)
    requires Numbered(s) && Numbered(s') && s.changes <= s'.changes
    ensures Log(s.changes, scope) <= Log(s'.changes, scope) && HighSeq(s, scope) <= HighSeq(s', scope)
  {
    assert NumberedScope(s, scope) && NumberedScope(s', scope);
    LogGrows(s.changes, s'.changes, scope);
  }

  lemma DeliversStable(s: Store, s': Store, scope: Scope, after: int, changes: seq<SyncChange>)
    requires Delivers(s, scope, after, changes) && Numbered(s) && Numbered(s') && Advances(s, s')
    ensures Delivers(s', scope, after, changes)
  {
    HighSeqGrows(s, s', scope);
  }

  lemma SessionStable(s: Store, s': Store, session: Session)
    requires SessionOk(s, session) && Numbered(s) && Numbered(s') && Advances(s, s')
    ensures SessionOk(s', session)
  {
    match session
    case Started(d, _, _) => HighSeqGrows(s, s', d.0);
    case Listing(_, _, _, listed) => AdvancesTrans(listed, s, s');
    case Pulled(d, page) =>
      HighSeqGrows(s, s', d.0);
      DeliversStable(s, s', d.0, page.after, page.changes);
    case Asked(d, expected, through, held) =>
      HighSeqGrows(s, s', d.0);
      if held.Some? {
        DeliversStable(s, s', d.0, expected, held.value);
      }
    case _ =>
  }

  lemma AdvancesSelf(s: Store)
    ensures Advances(s, s)
  {
  }

  lemma DeviceStable(f: Fleet, f': Fleet, d: Device)
    requires DeviceOk(f, d) && f' == f.(store := f'.store)
    requires Numbered(f.store) && Numbered(f'.store) && Advances(f.store, f'.store)
    ensures DeviceOk(f', d)
  {
    HighSeqGrows(f.store, f'.store, d.0);
    if d !in f.skipped {
      DeliversStable(f.store, f'.store, d.0, 0, Delivered(f, d));
    }
  }

  lemma CanonicalKeepsInv(f: Fleet, a: Action)
    requires FleetInv(f)
    ensures FleetInv(FleetStep(f, Canonical(a)))
  {
    var f' := FleetStep(f, Canonical(a));
    StepKeepsInv(f.store, a);
    StepAdvances(f.store, a);
    StepKeepsFold(f.store, a);
    forall id: nat ensures SessionOk(f'.store, SessionOf(f', id)) {
      SessionStable(f.store, f'.store, SessionOf(f, id));
    }
    forall d: Device ensures DeviceOk(f', d) {
      assert DeviceOk(f, d);
      DeviceStable(f, f', d);
    }
  }

  /** The page hydrated from a listing never fails but for its limit. */
  lemma HydrateKeepsSession(s: Store, d: Device, after: int, limit: Option<int>, listed: Store)
    requires SessionOk(s, Listing(d, after, limit, listed)) && Numbered(s)
    ensures match ReadChanges(listed, s, d.0, after, limit)
      case Success(page) => PageOk(s, d, page)
      case Failure(error) => error == InvalidLimit
  {
    if ResolveLimit(limit).Success? {
      assert NumberedScope(listed, d.0);
      ReadNeverFails(listed, s, d.0, after, limit);
      var page := ReadChanges(listed, s, d.0, after, limit).value;
      HighSeqGrows(listed, s, d.0);
      DeliversStable(listed, s, d.0, after, page.changes);
    }
  }

  /** The checks of an acknowledgement pass exactly for a forward range of at most one batch inside the log. */
  lemma AcknowledgementAllowedExactly(s: Store, scope: Scope, expected: int, through: int)
    requires NumberedScope(s, scope)
    ensures CheckAcknowledgement(s, scope, expected, through) == None <==>
      && 0 <= expected <= through <= expected + MAX_SYNC_BATCH_SIZE
      && (expected < through ==> through <= HighSeq(s, scope))
  {
    if 0 <= expected < through <= expected + MAX_SYNC_BATCH_SIZE {
      ListedIsListing(s, scope, expected, through - expected);
    }
  }

  lemma AskedIsOk(s: Store, session: Session, d: Device, expected: int, through: int)
    requires SessionOk(s, session) && Numbered(s)
    requires CheckAcknowledgement(s, d.0, expected, through) == None
    ensures SessionOk(s, Asked(d, expected, through, HeldBy(session, d, expected, through)))
  {
    assert NumberedScope(s, d.0);
    AcknowledgementAllowedExactly(s, d.0, expected, through);
  }

  lemma ProceedKeepsSession(f: Fleet, session: Session, a: FleetAction)
    requires SessionOk(f.store, session) && Synced(f.store)
    requires DevicesOk(f)
    ensures SessionOk(f.store, Proceed(f, session, a))
  {
    match a
    case Start(_, device, limit) => assert DeviceOk(f, device);
    case List(_) => AdvancesSelf(f.store);
    case HydratePage(_) =>
      if session.Listing? {
        HydrateKeepsSession(f.store, session.device, session.after, session.limit, session.listed);
      }
    case Ask(_, device, expected, through) =>
      if AtRest(session) && CheckAcknowledgement(f.store, device.0, expected, through) == None {
        AskedIsOk(f.store, session, device, expected, through);
      }
    case _ =>
  }

  lemma DeliversConcat(s: Store, scope: Scope, front: seq<SyncChange>, back: seq<SyncChange>)
    requires Delivers(s, scope, 0, front) && Delivers(s, scope, |front|, back)
    ensures Delivers(s, scope, 0, front + back)
  {
  }

  lemma AcknowledgeKeepsDevices(f: Fleet, id: nat, device: Device, expected: int, through: int,
                                held: Option<seq<SyncChange>>)
    requires RangeOk(f.store, device, expected, through, held) && DevicesOk(f)
    ensures DevicesOk(Acknowledge(f, id, device, expected, through, held))
  {
    var f' := Acknowledge(f, id, device, expected, through, held);
    forall d: Device ensures DeviceOk(f', d) {
      assert DeviceOk(f, d);
      if d == device && Checkpoint(f, device) == expected && d !in f'.skipped {
        DeliversConcat(f.store, d.0, Delivered(f, d), held.value);
      }
    }
  }

  lemma AdvanceKeeps(f: Fleet, id: nat)
    requires SessionsOk(f) && DevicesOk(f)
    ensures SessionsOk(FleetStep(f, Advance(id))) && DevicesOk(FleetStep(f, Advance(id)))
    ensures FleetStep(f, Advance(id)).store == f.store
  {
    var f', session := FleetStep(f, Advance(id)), SessionOf(f, id);
    if session.Asked? {
      assert SessionOk(f.store, session);
      AcknowledgeKeepsDevices(f, id, session.device, session.expected, session.through, session.held);
      assert DeviceOk(f, session.device);
      forall i: nat ensures SessionOk(f'.store, SessionOf(f', i)) {
        assert SessionOk(f.store, SessionOf(f, i));
      }
    }
  }

  lemma ProceedKeeps(f: Fleet, a: FleetAction)
    requires !a.Canonical? && !a.Advance?
    requires Synced(f.store) && SessionsOk(f) && DevicesOk(f)
    ensures SessionsOk(FleetStep(f, a)) && DevicesOk(FleetStep(f, a))
    ensures FleetStep(f, a).store == f.store
  {
    var f' := FleetStep(f, a);
    assert SessionOk(f.store, SessionOf(f, a.session));
    ProceedKeepsSession(f, SessionOf(f, a.session), a);
    forall i: nat ensures SessionOk(f'.store, SessionOf(f', i)) {
      assert SessionOk(f.store, SessionOf(f, i));
    }
    forall d: Device ensures DeviceOk(f', d) {
      assert DeviceOk(f, d);
    }
  }

  lemma FleetStepKeepsInv(f: Fleet, a: FleetAction)
    requires FleetInv(f)
    ensures FleetInv(FleetStep(f, a))
  {
    if a.Canonical? {
      CanonicalKeepsInv(f, a.action);
    } else if a.Advance? {
      AdvanceKeeps(f, a.session);
    } else {
      ProceedKeeps(f, a);
    }
  }

  lemma {:induction false} FleetRunKeepsInv(actions: seq<FleetAction>)
    ensures FleetInv(FleetRun(NEW_FLEET, actions))
  {
    if actions == [] {
      EmptyInv();
      EmptyFolds();
      forall d: Device ensures DeviceOk(NEW_FLEET, d) {
      }
    } else {
      FleetRunKeepsInv(actions[..|actions| - 1]);
      FleetStepKeepsInv(FleetRun(NEW_FLEET, actions[..|actions| - 1]), actions[|actions| - 1]);
    }
  }

  // ---------------------------------------------------------------- convergence

  /** What a device has acknowledged is exactly the first `checkpoint` changes of its scope, once and in order. */
  ghost predicate HoldsPrefix(f: Fleet, d: Device) {
    var log, delivered := Log(f.store.changes, d.0), Delivered(f, d);
    && Checkpoint(f, d) == |delivered| <= |log|
    && forall i | 0 <= i < |delivered| ::
        && delivered[i].envelope == log[i] && log[i].commitSeq == i + 1
        && RevisionAt(f.store, KeyOf(log[i])) == Some(delivered[i].revision)
  }

  lemma PrefixHeld(f: Fleet, d: Device)
    requires DeviceOk(f, d) && NumberedScope(f.store, d.0) && d !in f.skipped
    ensures HoldsPrefix(f, d)
  {
  }

  /**
   For every interleaving, whatever ranges are acknowledged: checkpoints stay within the log, each device
   whose clients only acknowledged what they held has exactly a prefix of its scope's log, and a session
   only ever breaks on its own invalid limit or on losing the compare-and-set.
   */
  lemma ReplicasDeliverThePrefix(actions: seq<FleetAction>, d: Device, session: nat)
    ensures var f := FleetRun(NEW_FLEET, actions);
      && 0 <= Checkpoint(f, d) <= |Log(f.store.changes, d.0)|
      && (d !in f.skipped ==> HoldsPrefix(f, d))
      && (SessionOf(f, session).Broken? ==> SessionOf(f, session).error in {InvalidLimit, CheckpointConflict})
  {
    var f := FleetRun(NEW_FLEET, actions);
    FleetRunKeepsInv(actions);
    assert DeviceOk(f, d) && NumberedScope(f.store, d.0);
    if d !in f.skipped {
      PrefixHeld(f, d);
    }
    assert SessionOk(f.store, SessionOf(f, session));
  }

  /**
   Acknowledging any part of a pulled page from its start passes the checks in every state of a run, and
   what is then acknowledged is held.
   */
  lemma PulledPageCanBeAcknowledged(f: Fleet, id: nat, through: int)
    requires FleetInv(f) && SessionOf(f, id).Pulled?
    requires SessionOf(f, id).page.after <= through <= SessionOf(f, id).page.next
    ensures SessionOf(f, id).page.next == SessionOf(f, id).page.after + |SessionOf(f, id).page.changes|
    ensures var session := SessionOf(f, id);
      SessionOf(FleetStep(f, Ask(id, session.device, session.page.after, through)), id) ==
      Asked(session.device, session.page.after, through, Some(session.page.changes[..through - session.page.after]))
  {
    var session := SessionOf(f, id);
    assert SessionOk(f.store, session) && NumberedScope(f.store, session.device.0);
    PartPasses(f.store, session, through);
  }

  lemma PartPasses(s: Store, session: Session, through: int)
    requires session.Pulled? && PageOk(s, session.device, session.page) && NumberedScope(s, session.device.0)
    requires session.page.after <= through <= session.page.next
    ensures CheckAcknowledgement(s, session.device.0, session.page.after, through) == None
    ensures HeldBy(session, session.device, session.page.after, through) ==
      Some(session.page.changes[..through - session.page.after])
  {
    AcknowledgementAllowedExactly(s, session.device.0, session.page.after, through);
    assert session.page.changes[..0] == [];
  }

  /** An acknowledgement that passed its checks is refused exactly when the checkpoint has moved from `expected`. */
  lemma AcknowledgementWinsExactly(actions: seq<FleetAction>, id: nat)
    requires SessionOf(FleetRun(NEW_FLEET, actions), id).Asked?
    ensures var f := FleetRun(NEW_FLEET, actions);
      var f', session := FleetStep(f, Advance(id)), SessionOf(f, id);
      if Checkpoint(f, session.device) == session.expected
      then SessionOf(f', id) == Idle && Checkpoint(f', session.device) == session.through
      else f' == f.(sessions := f.sessions[id := Broken(CheckpointConflict)])
  {
    var f := FleetRun(NEW_FLEET, actions);
    FleetRunKeepsInv(actions);
    assert SessionOk(f.store, SessionOf(f, id)) && DeviceOk(f, SessionOf(f, id).device);
  }

  /** A checkpoint never moves back, and what was delivered stays delivered. */
  lemma CheckpointsNeverMoveBack(actions: seq<FleetAction>, a: FleetAction, d: Device)
    ensures var f, f' := FleetRun(NEW_FLEET, actions), FleetStep(FleetRun(NEW_FLEET, actions), a);
      Checkpoint(f, d) <= Checkpoint(f', d) && Delivered(f, d) <= Delivered(f', d)
  {
    FleetRunKeepsInv(actions);
    StepMovesForward(FleetRun(NEW_FLEET, actions), a, d);
  }

  lemma StepMovesForward(f: Fleet, a: FleetAction, d: Device)
    requires SessionsOk(f)
    ensures Checkpoint(f, d) <= Checkpoint(FleetStep(f, a), d) && Delivered(f, d) <= Delivered(FleetStep(f, a), d)
  {
    if a.Advance? {
      assert SessionOk(f.store, SessionOf(f, a.session));
    }
  }

  lemma {:induction false} FleetAdvances(actions: seq<FleetAction>, i: nat)
    requires i <= |actions|
    ensures Advances(FleetRun(NEW_FLEET, actions[..i]).store, FleetRun(NEW_FLEET, actions).store)
  {
    if i == |actions| {
      assert actions[..i] == actions;
      AdvancesSelf(FleetRun(NEW_FLEET, actions).store);
    } else {
      var front := actions[..|actions| - 1];
      FleetAdvances(front, i);
      assert front[..i] == actions[..i];
      FleetRunKeepsInv(front);
      var f := FleetRun(NEW_FLEET, front);
      StoreAdvances(f, actions[|actions| - 1]);
      AdvancesTrans(FleetRun(NEW_FLEET, actions[..i]).store, f.store, FleetRun(NEW_FLEET, actions).store);
    }
  }

  lemma StoreAdvances(f: Fleet, a: FleetAction)
    requires Chained(f.store)
    ensures Advances(f.store, FleetStep(f, a).store)
  {
    if a.Canonical? {
      StepAdvances(f.store, a.action);
    } else {
      AdvancesSelf(f.store);
    }
  }

  /** A commit takes one number at most. */
  lemma StepNumbersOne(s: Store, a: Action, scope: Scope)
    requires Chained(s)
    ensures HighSeq(s, scope) <= HighSeq(Step(s, a), scope) <= HighSeq(s, scope) + 1
  {
    if a.Commit? {
      CommitCases(s, a.request, a.verified, a.newMemoryId, a.now);
    }
  }

  /** Every commit number of a run was the latest one in some state of the run. */
  lemma {:induction false} NumberWasLatest(actions: seq<FleetAction>, scope: Scope, n: int) returns (i: nat)
    requires 0 <= n <= HighSeq(FleetRun(NEW_FLEET, actions).store, scope)
    ensures i <= |actions| && HighSeq(FleetRun(NEW_FLEET, actions[..i]).store, scope) == n
  {
    if n == HighSeq(FleetRun(NEW_FLEET, actions).store, scope) {
      i := |actions|;
      assert actions[..i] == actions;
    } else {
      var front := actions[..|actions| - 1];
      FleetRunKeepsInv(front);
      var f := FleetRun(NEW_FLEET, front);
      if actions[|actions| - 1].Canonical? {
        StepNumbersOne(f.store, actions[|actions| - 1].action, scope);
      }
      assert FleetRun(NEW_FLEET, actions) == FleetStep(f, actions[|actions| - 1]);
      i := NumberWasLatest(front, scope, n);
      assert front[..i] == actions[..i];
    }
  }

  /**
   Convergence: what a device holds, folded, is exactly the map of current revisions that its scope had in
   every state of the run whose latest commit is the last one acknowledged, and there is such a state.
   */
  lemma ReplicaConverges(actions: seq<FleetAction>, d: Device) returns (i: nat)
    requires d !in FleetRun(NEW_FLEET, actions).skipped
    ensures i <= |actions|
    ensures HighSeq(FleetRun(NEW_FLEET, actions[..i]).store, d.0) == Checkpoint(FleetRun(NEW_FLEET, actions), d)
    ensures forall j: nat | j <= |actions| ::
      HighSeq(FleetRun(NEW_FLEET, actions[..j]).store, d.0) == Checkpoint(FleetRun(NEW_FLEET, actions), d) ==>
      IsHeadMap(FleetRun(NEW_FLEET, actions[..j]).store, d.0, Fold(Delivered(FleetRun(NEW_FLEET, actions), d)))
  {
    var f := FleetRun(NEW_FLEET, actions);
    FleetRunKeepsInv(actions);
    assert DeviceOk(f, d);
    i := NumberWasLatest(actions, d.0, Checkpoint(f, d));
    forall j: nat | j <= |actions| && HighSeq(FleetRun(NEW_FLEET, actions[..j]).store, d.0) == Checkpoint(f, d)
      ensures IsHeadMap(FleetRun(NEW_FLEET, actions[..j]).store, d.0, Fold(Delivered(f, d)))
    {
      ConvergesAt(actions, j, d);
    }
  }

  lemma ConvergesAt(actions: seq<FleetAction>, j: nat, d: Device)
    requires j <= |actions| && d !in FleetRun(NEW_FLEET, actions).skipped
    requires HighSeq(FleetRun(NEW_FLEET, actions[..j]).store, d.0) == Checkpoint(FleetRun(NEW_FLEET, actions), d)
    ensures IsHeadMap(FleetRun(NEW_FLEET, actions[..j]).store, d.0, Fold(Delivered(FleetRun(NEW_FLEET, actions), d)))
  {
    FleetRunKeepsInv(actions);
    FleetRunKeepsInv(actions[..j]);
    FleetAdvances(actions, j);
    ConvergesTo(FleetRun(NEW_FLEET, actions), FleetRun(NEW_FLEET, actions[..j]).store, d);
  }

  lemma ConvergesTo(f: Fleet, past: Store, d: Device)
    requires DeviceOk(f, d) && d !in f.skipped && Numbered(f.store) && Numbered(past) && LogMirrored(past)
    requires FoldsToHeads(past)
    requires Advances(past, f.store) && HighSeq(past, d.0) == Checkpoint(f, d)
    ensures IsHeadMap(past, d.0, Fold(Delivered(f, d)))
  {
    assert NumberedScope(past, d.0);
    HighSeqGrows(past, f.store, d.0);
    FoldDelivered(f.store, d.0, Delivered(f, d));
    var log := Log(past.changes, d.0);
    assert Log(f.store.changes, d.0)[..|log|] == log;
    LogIsStored(past, d.0);
    FoldLogStable(past, f.store, log);
  }
}
