/** The write decision of the capture inbox: precondition, idempotence, staleness, conflict, lifecycle. */
module CaptureInbox {
  import opened Prelude
  import opened Alignment
  import opened VisibleContext

  datatype Status = Active | Completed | Archived

  function Rank(s: Status): nat {
    match s case Active => 0 case Completed => 1 case Archived => 2
  }

  /** `context-<17 digits of updatedAt>-<16 digits of the digest>`; four-digit years make the stamp exact. */
  datatype Revision = Revision(stamp: int, tag: string)

  datatype Completeness = FullVisibleContext | PartialVisibleContext | Unknown

  /** The hashed capture body. Hashing is injective here, so a digest is its preimage. */
  datatype Digest = Digest(messages: seq<(string, Message)>, completeness: Completeness, latestVisible: nat,
                           title: Option<string>)

  datatype Metadata = Metadata(owned: bool, completeness: Completeness, digest: Option<Digest>, latestVisible: nat,
                               title: Option<string>)

  datatype Snapshot = Snapshot(conversationId: string, revision: Revision, status: Status, updatedAt: int,
                               messages: seq<Captured>, metadata: Metadata)

  /** The `expectedRevision` option: not given, null, or a revision. */
  datatype Expected = Anything | Absent | Exactly(revision: Revision)

  datatype Refusal = InvalidSnapshot | PreconditionFailed | Stale | RevisionConflict | LifecycleRegression

  datatype PutResult = Created | Updated | Idempotent | Refused(reason: Refusal)

  predicate DistinctIds(ms: seq<Captured>) {
    forall i, j | 0 <= i < j < |ms| :: ms[i].id != ms[j].id
  }

  predicate Meets(existing: Option<Snapshot>, expected: Expected) {
    match expected
    case Anything => true
    case Absent => existing.None?
    case Exactly(revision) => existing.Some? && existing.value.revision == revision
  }

  function Decide(existing: Option<Snapshot>, snapshot: Snapshot, expected: Expected): PutResult {
    if !DistinctIds(snapshot.messages) then Refused(InvalidSnapshot)
    else if !Meets(existing, expected) then Refused(PreconditionFailed)
    else match existing
      case None => Created
      case Some(current) =>
        if current == snapshot then Idempotent
        else if snapshot.updatedAt < current.updatedAt then Refused(Stale)
        else if snapshot.updatedAt == current.updatedAt || current.revision == snapshot.revision then
          Refused(RevisionConflict)
        else if Rank(snapshot.status) < Rank(current.status) then Refused(LifecycleRegression)
        else Updated
  }

  class Inbox {
    /** One durable snapshot a conversation. */
    var stored: map<string, Snapshot>

    constructor ()
      ensures stored == map[]
    {
      stored := map[];
    }

    function Stored(conversationId: string): Option<Snapshot>
      reads this
    {
      if conversationId in stored then Some(stored[conversationId]) else None
    }

    method Put(snapshot: Snapshot, expected: Expected) returns (r: PutResult)
      modifies this
      ensures r == Decide(old(Stored(snapshot.conversationId)), snapshot, expected)
      ensures r.Refused? ==> stored == old(stored)
      ensures !r.Refused? ==> stored == old(stored)[snapshot.conversationId := snapshot]
    {
      if !DistinctIds(snapshot.messages) {
        return Refused(InvalidSnapshot);
      }
      var existing := Stored(snapshot.conversationId);
      if expected != Anything {
        var actual := if existing.Some? then Some(existing.value.revision) else None;
        var wanted := if expected.Exactly? then Some(expected.revision) else None;
        if actual != wanted {
          return Refused(PreconditionFailed);
        }
      }
      if existing.Some? {
        var current := existing.value;
        if current == snapshot {
          return Idempotent;
        }
        if snapshot.updatedAt < current.updatedAt {
          return Refused(Stale);
        }
        if snapshot.updatedAt == current.updatedAt || current.revision == snapshot.revision {
          return Refused(RevisionConflict);
        }
        if Rank(snapshot.status) < Rank(current.status) {
          return Refused(LifecycleRegression);
        }
      }
      stored := stored[snapshot.conversationId := snapshot];
      r := if existing.None? then Created else Updated;
    }
  }

  // ---------------------------------------------------------------- any sequence of writers

  datatype Write = Write(snapshot: Snapshot, expected: Expected)

  function After(existing: Option<Snapshot>, w: Write): Option<Snapshot> {
    if Decide(existing, w.snapshot, w.expected).Refused? then existing else Some(w.snapshot)
  }

  function AfterAll(existing: Option<Snapshot>, ws: seq<Write>): Option<Snapshot> {
    if ws == [] then existing else After(AfterAll(existing, ws[..|ws| - 1]), ws[|ws| - 1])
  }

  /** Whatever is written, a kept snapshot is the same one or strictly newer, and its lifecycle never regresses. */
  lemma {:induction false} WritesOnlyAdvance(existing: Option<Snapshot>, ws: seq<Write>)
    requires existing.Some?
    ensures var now := AfterAll(existing, ws);
      && now.Some?
      && (now == existing || existing.value.updatedAt < now.value.updatedAt)
      && Rank(existing.value.status) <= Rank(now.value.status)
  {
    if ws != [] {
      WritesOnlyAdvance(existing, ws[..|ws| - 1]);
    }
  }
}
