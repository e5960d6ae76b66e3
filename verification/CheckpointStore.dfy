/**
 The file checkpoint store: a snapshot replaced by rename and an append-only delta journal, with torn-tail
 truncation; and what any crash in the middle of an operation leaves for the next load.
 */
module CheckpointStore {
  import opened Prelude
  import opened DeltaCodec

  datatype Checkpoint = Checkpoint(identity: Identity, fingerprints: map<string, string>, updatedAt: string)

  /** The snapshot file is only ever replaced as a whole; the journal file is text that may end torn. */
  datatype Disk = Disk(snapshot: Option<Checkpoint>, journal: Option<string>)

  /** How a delta becomes a journal line and back. */
  datatype Codec = Codec(encode: Delta -> string, decode: string -> Option<Delta>)

  const JSON: Codec := Codec(Encode, Decode)

  ghost predicate GoodLine(codec: Codec, d: Delta) {
    codec.decode(codec.encode(d)) == Some(d) && OneLine(codec.encode(d)) && !IsBlank(codec.encode(d))
  }

  /** Lines read back, have no line break and are not blank. */
  ghost predicate Good(codec: Codec) {
    forall d :: GoodLine(codec, d)
  }

  lemma JsonIsGood()
    ensures Good(JSON)
  {
    forall d ensures GoodLine(JSON, d) {
      DecodeEncode(d);
      EncodedLine(d);
    }
  }

  datatype StoreError =
    | OrphanJournal | BadJournalLine | InvalidCheckpoint | InvalidDelta | ForeignDelta | IdentityConflict | StaleSave
    | MissingFingerprint | ActiveWriter

  // ---------------------------------------------------------------- validation

  /** Not blank and not surrounded by white space, by `NonEmptyIsTrimmed`. */
  predicate NonEmpty(s: string) { s != "" && !IsSpace(s[0]) && !IsSpace(s[|s| - 1]) }

  /** `value.trim().length > 0 && value.trim() === value` */
  lemma NonEmptyIsTrimmed(s: string)
    ensures NonEmpty(s) <==> !IsBlank(s) && Trim(s) == s
  {
    TrimStartShortens(s);
    TrimEndShortens(TrimStart(s));
  }

  lemma {:induction false} TrimStartShortens(s: string)
    ensures |TrimStart(s)| <= |s|
    ensures |TrimStart(s)| == |s| <==> s == "" || !IsSpace(s[0])
  {
    if s != "" {
      TrimStartShortens(s[1..]);
    }
  }

  lemma {:induction false} TrimEndShortens(s: string)
    ensures |TrimEnd(s)| <= |s|
    ensures |TrimEnd(s)| == |s| <==> s == "" || !IsSpace(s[|s| - 1])
  {
    if s != "" {
      TrimEndShortens(s[..|s| - 1]);
    }
  }

  predicate Sha256(s: string) {
    |s| == 64 && forall i | 0 <= i < |s| :: '0' <= s[i] <= '9' || 'a' <= s[i] <= 'f'
  }

  predicate ValidIdentity(id: Identity) {
    && NonEmpty(id.adapterName) && NonEmpty(id.adapterVersion) && NonEmpty(id.sourceSystem) && NonEmpty(id.sourceType)
    && NonEmpty(id.tenantId) && NonEmpty(id.lifeDid) && NonEmpty(id.memoryNamespace)
    && (id.processingMode == "reference_only" || id.processingMode == "distillation") && NonEmpty(id.policyId)
  }

  predicate ValidEntry(sourceId: string, fingerprint: string) { NonEmpty(sourceId) && Sha256(fingerprint) }

  predicate ValidCheckpoint(c: Checkpoint) {
    && ValidIdentity(c.identity) && NonEmpty(c.updatedAt)
    && forall k | k in c.fingerprints :: ValidEntry(k, c.fingerprints[k])
  }

  predicate ValidDelta(d: Delta) {
    ValidIdentity(d.identity) && ValidEntry(d.sourceId, d.fingerprint) && NonEmpty(d.updatedAt)
  }

  // ---------------------------------------------------------------- reading the journal

  /** The text up to its last line break: an unterminated final fragment is cut off. */
  function Recovered(text: string): string {
    if text == "" || text[|text| - 1] == '\n' then text else Recovered(text[..|text| - 1])
  }

  function StripReturn(line: string): string {
    if line != "" && line[|line| - 1] == '\r' then line[..|line| - 1] else line
  }

  /** `text.split(/\r?\n/)`, with `line` already read. */
  function SplitFrom(text: string, line: string): seq<string>
    decreases |text|
  {
    if text == "" then [line]
    else if text[0] == '\n' then [StripReturn(line)] + SplitFrom(text[1..], "")
    else SplitFrom(text[1..], line + [text[0]])
  }

  function Apply(c: Checkpoint, d: Delta): Checkpoint {
    c.(fingerprints := c.fingerprints[d.sourceId := d.fingerprint], updatedAt := d.updatedAt)
  }

  /** What one journal line does to the checkpoint. */
  function ReplayLine(codec: Codec, c: Checkpoint, line: string): Result<Checkpoint, StoreError> {
    if IsBlank(line) then Success(c)
    else
      match codec.decode(line)
      case None => Failure(BadJournalLine)
      case Some(d) =>
        if !ValidDelta(d) then Failure(InvalidDelta)
        else if d.identity != c.identity then Failure(ForeignDelta)
        else Success(Apply(c, d))
  }

  function Replay(codec: Codec, c: Checkpoint, lines: seq<string>): Result<Checkpoint, StoreError>
    decreases |lines|
  {
    if lines == [] then Success(c)
    else
      var first := ReplayLine(codec, c, lines[0]);
      if first.Failure? then first else Replay(codec, first.value, lines[1..])
  }

  function Truncated(disk: Disk): Disk {
    match disk.journal
    case None => disk
    case Some(text) => disk.(journal := Some(Recovered(text)))
  }

  function Load(codec: Codec, disk: Disk): Result<Option<Checkpoint>, StoreError> {
    match (disk.snapshot, disk.journal)
    case (None, None) => Success(None)
    case (None, Some(text)) => if IsBlank(Recovered(text)) then Success(None) else Failure(OrphanJournal)
    case (Some(c), journal) =>
      if !ValidCheckpoint(c) then Failure(InvalidCheckpoint)
      else if journal.None? then Success(Some(c))
      else
        match Replay(codec, c, SplitFrom(Recovered(journal.value), ""))
        case Failure(e) => Failure(e)
        case Success(r) => Success(Some(r))
  }

  // ---------------------------------------------------------------- the durable steps of the operations

  /** The states on disk after each durable step, and the error that stops the operation. */
  datatype Steps = Steps(states: seq<Disk>, error: Option<StoreError>)

  function DeltaFor(c: Checkpoint, sourceId: string): Delta
    requires sourceId in c.fingerprints
  {
    Delta(c.identity, sourceId, c.fingerprints[sourceId], c.updatedAt)
  }

  /** The text of an absent journal is empty once the file is created. */
  function JournalText(disk: Disk): string {
    match disk.journal case None => "" case Some(text) => text
  }

  /** The journal with the first `k` characters of the new text written. */
  function Writing(disk: Disk, text: string, k: nat): Disk
    requires k <= |text|
  {
    disk.(journal := Some(JournalText(disk) + text[..k]))
  }

  function WritingStates(disk: Disk, text: string): (r: seq<Disk>)
    ensures |r| == |text| + 1
    ensures forall k | 0 <= k <= |text| :: r[k] == Writing(disk, text, k)
  {
    seq(|text| + 1, k requires 0 <= k <= |text| => Writing(disk, text, k))
  }

  /** Append recovers the tail, creates a base snapshot if there is none, and writes one line. */
  function AppendSteps(codec: Codec, disk: Disk, c: Checkpoint, sourceId: string): Steps {
    if !NonEmpty(sourceId) then Steps([], Some(InvalidDelta))
    else if sourceId !in c.fingerprints then Steps([], Some(MissingFingerprint))
    else if !ValidDelta(DeltaFor(c, sourceId)) then Steps([], Some(InvalidDelta))
    else
      var t := Truncated(disk);
      var base := if t.snapshot.None? then t.(snapshot := Some(Checkpoint(c.identity, map[], c.updatedAt))) else t;
      if !ValidCheckpoint(base.snapshot.value) then Steps([t], Some(InvalidCheckpoint))
      else if base.snapshot.value.identity != c.identity then Steps([t, base], Some(ForeignDelta))
      else Steps([t, base] + WritingStates(base, codec.encode(DeltaFor(c, sourceId)) + "\n"), None)
  }

  /** Nothing durable is missing or different in what is about to be saved. */
  predicate Keeps(current: map<string, string>, next: map<string, string>) {
    forall k | k in current :: k in next && next[k] == current[k]
  }

  /** Why a save outside the run lock is refused. */
  function SaveRefusal(codec: Codec, disk: Disk, c: Checkpoint): Option<StoreError> {
    match Load(codec, disk)
    case Failure(e) => Some(e)
    case Success(None) => None
    case Success(Some(current)) =>
      if current.identity != c.identity then Some(IdentityConflict)
      else if !Keeps(current.fingerprints, c.fingerprints) then Some(StaleSave)
      else None
  }

  /** Save replaces the snapshot, then removes the journal; outside the run lock it first refuses stale input. */
  function SaveSteps(codec: Codec, disk: Disk, c: Checkpoint, allowReplace: bool): Steps {
    if !ValidCheckpoint(c) then Steps([], Some(InvalidCheckpoint))
    else if allowReplace then Steps(Replacing(disk, c), None)
    else
      var t, refusal := Truncated(disk), SaveRefusal(codec, disk, c);
      Steps(if refusal.Some? then [t] else [t] + Replacing(t, c), refusal)
  }

  function Replacing(disk: Disk, c: Checkpoint): seq<Disk> {
    [disk.(snapshot := Some(c)), Disk(Some(c), None)]
  }

  // ---------------------------------------------------------------- runs with crashes

  datatype Op =
    | LoadOp
    | AppendOp(checkpoint: Checkpoint, sourceId: string)
    | SaveOp(checkpoint: Checkpoint, allowReplace: bool)

  /** An operation that completes, or that a crash stops after some of its durable steps. */
  datatype Event = Event(op: Op, crash: Option<nat>)

  function StepsOf(codec: Codec, disk: Disk, op: Op): Steps {
    match op
    case LoadOp => Steps([Truncated(disk)], None)
    case AppendOp(c, sourceId) => AppendSteps(codec, disk, c, sourceId)
    case SaveOp(c, allowReplace) => SaveSteps(codec, disk, c, allowReplace)
  }

  /** The disk after `n` of the steps. */
  function Reached(disk: Disk, states: seq<Disk>, n: nat): Disk {
    if n == 0 || states == [] then disk else states[Min(n, |states|) - 1]
  }

  function After(codec: Codec, disk: Disk, e: Event): Disk {
    var states := StepsOf(codec, disk, e.op).states;
    Reached(disk, states, match e.crash case None => |states| case Some(n) => n)
  }

  function Run(codec: Codec, events: seq<Event>): Disk {
    if events == [] then Disk(None, None) else After(codec, Run(codec, events[..|events| - 1]), events[|events| - 1])
  }

  /** The fingerprints that the next load returns; an absent checkpoint counts as the empty map. */
  function Meaning(codec: Codec, disk: Disk): map<string, string> {
    match Load(codec, disk)
    case Success(Some(c)) => c.fingerprints
    case _ => map[]
  }

  /** What a completed operation makes of the fingerprints. */
  function Intended(m: map<string, string>, op: Op): map<string, string> {
    match op
    case LoadOp => m
    case AppendOp(c, sourceId) => if sourceId in c.fingerprints then m[sourceId := c.fingerprints[sourceId]] else m
    case SaveOp(c, _) => c.fingerprints
  }

  // ---------------------------------------------------------------- journals that the store writes

  function Written(codec: Codec, ds: seq<Delta>): string {
    if ds == [] then "" else codec.encode(ds[0]) + "\n" + Written(codec, ds[1..])
  }

  function Lines(codec: Codec, ds: seq<Delta>): seq<string> {
    if ds == [] then [""] else [codec.encode(ds[0])] + Lines(codec, ds[1..])
  }

  function Overlay(c: Checkpoint, ds: seq<Delta>): Checkpoint
    decreases |ds|
  {
    if ds == [] then c else Overlay(Apply(c, ds[0]), ds[1..])
  }

  /** The last fingerprint that the journal has for each source. */
  function Last(ds: seq<Delta>): map<string, string> {
    if ds == [] then map[] else Last(ds[..|ds| - 1])[ds[|ds| - 1].sourceId := ds[|ds| - 1].fingerprint]
  }

  lemma {:induction false} WrittenAppend(codec: Codec, ds: seq<Delta>, d: Delta)
    ensures Written(codec, ds + [d]) == Written(codec, ds) + (codec.encode(d) + "\n")
  {
    if ds == [] {
      assert [] + [d] == [d] && [d][1..] == [];
      assert Written(codec, [d]) == codec.encode(d) + "\n" + "";
    } else {
      WrittenAppend(codec, ds[1..], d);
      assert (ds + [d])[1..] == ds[1..] + [d];
      assert Written(codec, ds + [d]) ==
        codec.encode(ds[0]) + "\n" + (Written(codec, ds[1..]) + (codec.encode(d) + "\n"));
    }
  }

  lemma {:induction false} WrittenEnds(codec: Codec, ds: seq<Delta>)
    ensures Written(codec, ds) == "" || Written(codec, ds)[|Written(codec, ds)| - 1] == '\n'
  {
    if ds != [] {
      WrittenEnds(codec, ds[1..]);
    }
  }

  /** A fragment without a line break is cut off, whatever it is; complete lines stay. */
  lemma {:induction false} TailIsCut(text: string, partial: string)
    requires (text == "" || text[|text| - 1] == '\n') && '\n' !in partial
    ensures Recovered(text + partial) == text
    decreases |partial|
  {
    if partial == "" {
      assert text + partial == text;
    } else {
      var front := partial[..|partial| - 1];
      assert partial[|partial| - 1] in partial;
      TailIsCut(text, front);
      assert (text + partial)[..|text + partial| - 1] == text + front;
    }
  }

  lemma {:induction false} SplitLine(s: string, rest: string, line: string)
    requires OneLine(s) && OneLine(line)
    ensures SplitFrom(s + ("\n" + rest), line) == [line + s] + SplitFrom(rest, "")
    decreases |s|
  {
    var text := s + ("\n" + rest);
    if s == "" {
      assert text == "\n" + rest && text[1..] == rest;
      assert line + s == line;
      assert line != "" ==> line[|line| - 1] in line;
    } else {
      assert s[0] in s;
      assert text[1..] == s[1..] + ("\n" + rest);
      SplitLine(s[1..], rest, line + [s[0]]);
      assert line + [s[0]] + s[1..] == line + s;
    }
  }

  lemma {:induction false} WrittenSplits(codec: Codec, ds: seq<Delta>)
    requires Good(codec)
    ensures SplitFrom(Written(codec, ds), "") == Lines(codec, ds)
    decreases |ds|
  {
    if ds != [] {
      assert GoodLine(codec, ds[0]);
      WrittenSplits(codec, ds[1..]);
      SplitLine(codec.encode(ds[0]), Written(codec, ds[1..]), "");
      assert Written(codec, ds) == codec.encode(ds[0]) + ("\n" + Written(codec, ds[1..]));
      assert "" + codec.encode(ds[0]) == codec.encode(ds[0]);
    }
  }

  ghost predicate Belongs(d: Delta, id: Identity) { ValidDelta(d) && d.identity == id }

  ghost predicate AllBelong(ds: seq<Delta>, id: Identity) {
    forall i | 0 <= i < |ds| :: Belongs(ds[i], id)
  }

  lemma {:induction false} LinesReplay(codec: Codec, c: Checkpoint, ds: seq<Delta>)
    requires Good(codec) && AllBelong(ds, c.identity)
    ensures Replay(codec, c, Lines(codec, ds)) == Success(Overlay(c, ds))
    decreases |ds|
  {
    if ds == [] {
      assert Lines(codec, ds)[1..] == [];
    } else {
      assert Belongs(ds[0], c.identity);
      assert GoodLine(codec, ds[0]);
      LinesReplay(codec, Apply(c, ds[0]), ds[1..]);
      assert Lines(codec, ds)[1..] == Lines(codec, ds[1..]);
    }
  }

  lemma {:induction false} OverlayAppend(c: Checkpoint, ds: seq<Delta>, d: Delta)
    ensures Overlay(c, ds + [d]) == Apply(Overlay(c, ds), d)
    decreases |ds|
  {
    if ds == [] {
      assert [] + [d] == [d] && [d][1..] == [];
    } else {
      OverlayAppend(Apply(c, ds[0]), ds[1..], d);
      assert (ds + [d])[1..] == ds[1..] + [d];
    }
  }

  /** Replaying the journal overrides the snapshot with the journal's last values. */
  lemma {:induction false} OverlayIsLast(c: Checkpoint, ds: seq<Delta>)
    ensures Overlay(c, ds).fingerprints == c.fingerprints + Last(ds)
    ensures Overlay(c, ds).identity == c.identity
  {
    if ds == [] {
      assert c.fingerprints + map[] == c.fingerprints;
    } else {
      var front, d := ds[..|ds| - 1], ds[|ds| - 1];
      OverlayIsLast(c, front);
      OverlayAppend(c, front, d);
      assert ds == front + [d];
    }
  }

  // ---------------------------------------------------------------- what the disk always holds

  /** The journal is complete lines of deltas of the snapshot's identity, then perhaps a torn fragment. */
  ghost predicate Holds(codec: Codec, disk: Disk, ds: seq<Delta>, partial: string) {
    && (disk.journal.None? ==> ds == [] && partial == "")
    && (disk.journal.Some? ==> disk.journal.value == Written(codec, ds) + partial && '\n' !in partial)
    && (disk.snapshot.None? ==> ds == [])
    && (disk.snapshot.Some? ==> ValidCheckpoint(disk.snapshot.value) && AllBelong(ds, disk.snapshot.value.identity))
  }

  ghost predicate Sound(codec: Codec, disk: Disk) {
    exists ds: seq<Delta>, partial: string :: Holds(codec, disk, ds, partial)
  }

  lemma RecoversWritten(codec: Codec, disk: Disk, ds: seq<Delta>, partial: string)
    requires Holds(codec, disk, ds, partial)
    ensures disk.journal.Some? ==> Recovered(disk.journal.value) == Written(codec, ds)
    ensures Holds(codec, Truncated(disk), ds, "")
  {
    if disk.journal.Some? {
      WrittenEnds(codec, ds);
      TailIsCut(Written(codec, ds), partial);
      assert Written(codec, ds) + "" == Written(codec, ds);
    }
  }

  /** A sound disk always loads: the snapshot with the journal's deltas replayed over it. */
  lemma SoundLoads(codec: Codec, disk: Disk, ds: seq<Delta>, partial: string)
    requires Good(codec) && Holds(codec, disk, ds, partial)
    ensures Load(codec, disk)
      == Success(match disk.snapshot case None => None case Some(c) => Some(Overlay(c, ds)))
    ensures Meaning(codec, disk) == match disk.snapshot case None => map[] case Some(c) => c.fingerprints + Last(ds)
  {
    RecoversWritten(codec, disk, ds, partial);
    if disk.snapshot.Some? {
      OverlayIsLast(disk.snapshot.value, ds);
      WrittenSplits(codec, ds);
      LinesReplay(codec, disk.snapshot.value, ds);
      assert disk.journal.None? ==> Overlay(disk.snapshot.value, []) == disk.snapshot.value;
    }
  }

  /** The fingerprints that a sound disk loads. */
  ghost function Durable(codec: Codec, disk: Disk): Option<map<string, string>> {
    if Sound(codec, disk) && Load(codec, disk).Success? then Some(Meaning(codec, disk)) else None
  }

  ghost predicate Stands(codec: Codec, disk: Disk, m: map<string, string>) {
    Durable(codec, disk) == Some(m)
  }

  lemma HoldsStands(codec: Codec, disk: Disk, ds: seq<Delta>, partial: string)
    requires Good(codec) && Holds(codec, disk, ds, partial)
    ensures Stands(codec, disk, match disk.snapshot case None => map[] case Some(c) => c.fingerprints + Last(ds))
  {
    SoundLoads(codec, disk, ds, partial);
  }

  // ---------------------------------------------------------------- append

  lemma TruncatedKeeps(codec: Codec, disk: Disk, ds: seq<Delta>, partial: string)
    requires Good(codec) && Holds(codec, disk, ds, partial)
    ensures Stands(codec, Truncated(disk), Meaning(codec, disk)) && Load(codec, Truncated(disk)) == Load(codec, disk)
  {
    RecoversWritten(codec, disk, ds, partial);
    SoundLoads(codec, disk, ds, partial);
    SoundLoads(codec, Truncated(disk), ds, "");
    HoldsStands(codec, Truncated(disk), ds, "");
  }

  /** While the line is being written, the fragment so far is torn and counts for nothing. */
  lemma PartialLineKeeps(codec: Codec, disk: Disk, ds: seq<Delta>, line: string, k: nat) returns (torn: Disk)
    requires Good(codec) && Holds(codec, disk, ds, "") && disk.snapshot.Some? && OneLine(line) && k <= |line|
    ensures torn == Writing(disk, line + "\n", k) && Stands(codec, torn, Meaning(codec, disk))
  {
    torn := Writing(disk, line + "\n", k);
    assert (line + "\n")[..k] == line[..k];
    assert JournalText(disk) == Written(codec, ds);
    assert forall c | c in line[..k] :: c in line;
    assert Holds(codec, torn, ds, line[..k]);
    SoundLoads(codec, disk, ds, "");
    HoldsStands(codec, torn, ds, line[..k]);
  }

  lemma WholeLineHolds(codec: Codec, disk: Disk, ds: seq<Delta>, d: Delta, text: string)
    requires Holds(codec, disk, ds, "") && disk.snapshot.Some? && Belongs(d, disk.snapshot.value.identity)
    requires text == codec.encode(d) + "\n"
    ensures Holds(codec, Writing(disk, text, |text|), ds + [d], "")
  {
    assert text[..|text|] == text;
    WrittenAppend(codec, ds, d);
    assert JournalText(disk) == Written(codec, ds);
    assert Written(codec, ds + [d]) + "" == Written(codec, ds + [d]);
  }

  lemma WholeLineAppends(codec: Codec, disk: Disk, ds: seq<Delta>, d: Delta, text: string) returns (written: Disk)
    requires Good(codec) && Holds(codec, disk, ds, "") && disk.snapshot.Some?
    requires Belongs(d, disk.snapshot.value.identity)
    requires text == codec.encode(d) + "\n"
    ensures written == Writing(disk, text, |text|)
    ensures Stands(codec, written, Meaning(codec, disk)[d.sourceId := d.fingerprint])
  {
    written := Writing(disk, text, |text|);
    WholeLineHolds(codec, disk, ds, d, text);
    SoundLoads(codec, disk, ds, "");
    HoldsStands(codec, written, ds + [d], "");
    LastAppend(ds, d);
  }

  /** Of all the states while the line is written, only the last has the new fingerprint. */
  lemma WritingStands(codec: Codec, disk: Disk, ds: seq<Delta>, d: Delta, text: string, k: nat) returns (written: Disk)
    requires Good(codec) && Holds(codec, disk, ds, "") && disk.snapshot.Some?
    requires Belongs(d, disk.snapshot.value.identity)
    requires text == codec.encode(d) + "\n" && k <= |text|
    ensures written == Writing(disk, text, k)
    ensures k < |text| ==> Stands(codec, written, Meaning(codec, disk))
    ensures k == |text| ==> Stands(codec, written, Meaning(codec, disk)[d.sourceId := d.fingerprint])
  {
    if k < |text| {
      assert GoodLine(codec, d);
      written := PartialLineKeeps(codec, disk, ds, codec.encode(d), k);
    } else {
      written := WholeLineAppends(codec, disk, ds, d, text);
    }
  }

  lemma LastAppend(ds: seq<Delta>, d: Delta)
    ensures Last(ds + [d]) == Last(ds)[d.sourceId := d.fingerprint]
    ensures forall m: map<string, string> :: m + Last(ds + [d]) == (m + Last(ds))[d.sourceId := d.fingerprint]
  {
    assert (ds + [d])[..|ds|] == ds;
  }

  /**
   The disk that append works on once the tail is recovered: with a snapshot, made from the checkpoint if
   there was none.
   */
  function BaseFor(disk: Disk, c: Checkpoint): Disk {
    if disk.snapshot.None? then disk.(snapshot := Some(Checkpoint(c.identity, map[], c.updatedAt))) else disk
  }

  lemma BaseKeeps(codec: Codec, disk: Disk, ds: seq<Delta>, c: Checkpoint)
    requires Good(codec) && Holds(codec, disk, ds, "") && ValidIdentity(c.identity) && NonEmpty(c.updatedAt)
    ensures Holds(codec, BaseFor(disk, c), ds, "") && Stands(codec, BaseFor(disk, c), Meaning(codec, disk))
  {
    assert Holds(codec, BaseFor(disk, c), ds, "");
    SoundLoads(codec, disk, ds, "");
    HoldsStands(codec, BaseFor(disk, c), ds, "");
    assert ds == [] ==> map[] + Last(ds) == map[];
  }

  /** Before the line is written an append recovers the tail and finds its base. */
  lemma AppendStarts(codec: Codec, disk: Disk, c: Checkpoint, sourceId: string, i: nat)
    requires i < |AppendSteps(codec, disk, c, sourceId).states| && i < 2
    ensures ValidIdentity(c.identity) && NonEmpty(c.updatedAt)
    ensures var steps, t := AppendSteps(codec, disk, c, sourceId), Truncated(disk);
      && (steps.error.None? ==> i < |steps.states| - 1)
      && steps.states[i] == if i == 0 then t else BaseFor(t, c)
  {
  }

  lemma AppendWrites(codec: Codec, disk: Disk, c: Checkpoint, sourceId: string, i: nat)
    requires 2 <= i < |AppendSteps(codec, disk, c, sourceId).states|
    ensures sourceId in c.fingerprints && ValidDelta(DeltaFor(c, sourceId))
    ensures var steps, base := AppendSteps(codec, disk, c, sourceId), BaseFor(Truncated(disk), c);
      var text := codec.encode(DeltaFor(c, sourceId)) + "\n";
      && base.snapshot.value.identity == c.identity
      && |steps.states| == |text| + 3 && steps.error.None?
      && steps.states[i] == Writing(base, text, i - 2)
  {
    var text := codec.encode(DeltaFor(c, sourceId)) + "\n";
    var base := BaseFor(Truncated(disk), c);
    assert AppendSteps(codec, disk, c, sourceId).states[2..] == WritingStates(base, text);
    assert AppendSteps(codec, disk, c, sourceId).states[i] == WritingStates(base, text)[i - 2];
  }

  lemma StartStands(codec: Codec, disk: Disk, ds: seq<Delta>, partial: string, c: Checkpoint, i: nat) returns (at: Disk)
    requires Good(codec) && Holds(codec, disk, ds, partial) && i < 2
    requires ValidIdentity(c.identity) && NonEmpty(c.updatedAt)
    ensures at == if i == 0 then Truncated(disk) else BaseFor(Truncated(disk), c)
    ensures Stands(codec, at, Meaning(codec, disk))
  {
    RecoversWritten(codec, disk, ds, partial);
    TruncatedKeeps(codec, disk, ds, partial);
    if i == 0 {
      at := Truncated(disk);
    } else {
      at := BaseFor(Truncated(disk), c);
      BaseKeeps(codec, Truncated(disk), ds, c);
    }
  }

  lemma LineStands(codec: Codec, disk: Disk, ds: seq<Delta>, partial: string, c: Checkpoint, d: Delta, k: nat)
    returns (at: Disk, now: map<string, string>)
    requires Good(codec) && Holds(codec, disk, ds, partial)
    requires ValidDelta(d) && d.identity == c.identity && d.updatedAt == c.updatedAt
    requires BaseFor(Truncated(disk), c).snapshot.value.identity == c.identity && k <= |codec.encode(d)| + 1
    ensures at == Writing(BaseFor(Truncated(disk), c), codec.encode(d) + "\n", k) && Stands(codec, at, now)
    ensures now == var m := Meaning(codec, disk); if k <= |codec.encode(d)| then m else m[d.sourceId := d.fingerprint]
  {
    var base := BaseFor(Truncated(disk), c);
    RecoversWritten(codec, disk, ds, partial);
    TruncatedKeeps(codec, disk, ds, partial);
    BaseKeeps(codec, Truncated(disk), ds, c);
    assert Belongs(d, base.snapshot.value.identity);
    at := WritingStands(codec, base, ds, d, codec.encode(d) + "\n", k);
    now := if k <= |codec.encode(d)| then Meaning(codec, disk) else Meaning(codec, disk)[d.sourceId := d.fingerprint];
  }

  /** Every durable step of an append leaves the old fingerprints, and only the last one the new. */
  lemma AppendStates(codec: Codec, disk: Disk, ds: seq<Delta>, partial: string, c: Checkpoint, sourceId: string, i: nat)
    returns (at: Disk, now: map<string, string>)
    requires Good(codec) && Holds(codec, disk, ds, partial) && i < |AppendSteps(codec, disk, c, sourceId).states|
    ensures at == AppendSteps(codec, disk, c, sourceId).states[i] && Stands(codec, at, now)
    ensures now == var steps, m := AppendSteps(codec, disk, c, sourceId), Meaning(codec, disk);
      if steps.error.None? && i == |steps.states| - 1 then Intended(m, AppendOp(c, sourceId)) else m
  {
    if i < 2 {
      AppendStarts(codec, disk, c, sourceId, i);
      at := StartStands(codec, disk, ds, partial, c, i);
      now := Meaning(codec, disk);
    } else {
      AppendWrites(codec, disk, c, sourceId, i);
      at, now := LineStands(codec, disk, ds, partial, c, DeltaFor(c, sourceId), i - 2);
    }
  }

  // ---------------------------------------------------------------- save

  lemma KeptIsAbsorbed(base: map<string, string>, last: map<string, string>, next: map<string, string>)
    requires Keeps(base + last, next)
    ensures Keeps(last, next) && next + last == next
  {
    forall k | k in last ensures k in next && next[k] == last[k] {
      assert k in base + last;
    }
  }

  /** Two maps agree on every source that the journal does not mention. */
  predicate AgreeOutside(last: map<string, string>, a: map<string, string>, b: map<string, string>) {
    && (forall k | k in a && k !in last :: k in b && b[k] == a[k])
    && forall k | k in b && k !in last :: k in a
  }

  lemma OverlaysEqual(last: map<string, string>, a: map<string, string>, b: map<string, string>)
    ensures a + last == b + last <==> AgreeOutside(last, a, b)
  {
    if a + last == b + last {
      forall k | k in a && k !in last ensures k in b && b[k] == a[k] {
        assert k in a + last;
      }
      forall k | k in b && k !in last ensures k in a {
        assert k in b + last;
      }
    }
  }

  lemma OverlayAbsorbed(last: map<string, string>, a: map<string, string>)
    ensures a + last == a <==> Keeps(last, a)
  {
    if a + last == a {
      forall k | k in last ensures k in a && a[k] == last[k] {
        assert k in a + last;
      }
    }
  }

  /** Between the rename and the removal of the journal, the next load sees the new snapshot under the old deltas. */
  lemma ReplacingMidway(codec: Codec, disk: Disk, ds: seq<Delta>, partial: string, c: Checkpoint)
    requires Good(codec) && Holds(codec, disk, ds, partial) && ValidCheckpoint(c)
    requires ds == [] || disk.snapshot.value.identity == c.identity
    ensures var mid := disk.(snapshot := Some(c));
      Holds(codec, mid, ds, partial) && Stands(codec, mid, c.fingerprints + Last(ds))
  {
    HoldsStands(codec, disk.(snapshot := Some(c)), ds, partial);
  }

  /** A snapshot of another identity over a journal that still holds deltas does not load. */
  lemma ForeignReplacementFails(codec: Codec, disk: Disk, ds: seq<Delta>, partial: string, c: Checkpoint)
    requires Good(codec) && Holds(codec, disk, ds, partial) && ValidCheckpoint(c) && ds != []
    requires disk.snapshot.value.identity != c.identity
    ensures Load(codec, disk.(snapshot := Some(c))) == Failure(ForeignDelta)
  {
    RecoversWritten(codec, disk, ds, partial);
    WrittenSplits(codec, ds);
    assert Belongs(ds[0], disk.snapshot.value.identity);
    assert GoodLine(codec, ds[0]);
    assert Lines(codec, ds)[0] == codec.encode(ds[0]);
  }

  /**
   The journal lets the snapshot be replaced: it holds no deltas, or deltas of the new snapshot's identity whose
   last values agree with the new snapshot, or outside whose sources the two snapshots agree.
   */
  predicate Replaceable(disk: Disk, ds: seq<Delta>, c: Checkpoint)
    requires ds != [] ==> disk.snapshot.Some?
  {
    || ds == []
    || (&& disk.snapshot.value.identity == c.identity
        && (Keeps(Last(ds), c.fingerprints)
            || AgreeOutside(Last(ds), c.fingerprints, disk.snapshot.value.fingerprints)))
  }

  /** The old fingerprints or the new ones load. */
  ghost predicate OldOrNew(codec: Codec, disk: Disk, m: map<string, string>, m': map<string, string>) {
    Load(codec, disk).Success? && Meaning(codec, disk) in {m, m'}
  }

  /** The half-done replacement loads the old or the new fingerprints exactly when the journal lets it. */
  lemma MidwayExactly(codec: Codec, disk: Disk, ds: seq<Delta>, partial: string, c: Checkpoint)
    requires Good(codec) && Holds(codec, disk, ds, partial) && ValidCheckpoint(c)
    ensures OldOrNew(codec, disk.(snapshot := Some(c)), Meaning(codec, disk), c.fingerprints)
      <==> Replaceable(disk, ds, c)
  {
    if ds != [] && disk.snapshot.value.identity != c.identity {
      ForeignReplacementFails(codec, disk, ds, partial, c);
    } else {
      ReplacingMidway(codec, disk, ds, partial, c);
      SoundLoads(codec, disk, ds, partial);
      OverlayAbsorbed(Last(ds), c.fingerprints);
      if disk.snapshot.Some? {
        OverlaysEqual(Last(ds), c.fingerprints, disk.snapshot.value.fingerprints);
      }
    }
  }

  lemma ReplacedStands(codec: Codec, c: Checkpoint)
    requires Good(codec) && ValidCheckpoint(c)
    ensures Stands(codec, Disk(Some(c), None), c.fingerprints)
  {
    assert Holds(codec, Disk(Some(c), None), [], "");
    HoldsStands(codec, Disk(Some(c), None), [], "");
    assert c.fingerprints + Last([]) == c.fingerprints;
  }

  /** Wherever a crash stops the replacement, the old or the new fingerprints load. */
  ghost predicate AtomicReplacement(codec: Codec, disk: Disk, c: Checkpoint) {
    forall crash :: AtomicAt(codec, disk, c, crash)
  }

  ghost predicate AtomicAt(codec: Codec, disk: Disk, c: Checkpoint, crash: Option<nat>) {
    OldOrNew(codec, After(codec, disk, Event(SaveOp(c, true), crash)), Meaning(codec, disk), c.fingerprints)
  }

  lemma ReplacementSteps(codec: Codec, disk: Disk, c: Checkpoint, crash: Option<nat>)
    requires ValidCheckpoint(c)
    ensures After(codec, disk, Event(SaveOp(c, true), crash)) ==
      match crash
      case None => Disk(Some(c), None)
      case Some(n) => if n == 0 then disk else if n == 1 then disk.(snapshot := Some(c)) else Disk(Some(c), None)
  {
  }

  /** A replacement is atomic under crashes if and only if the journal lets the snapshot be replaced. */
  lemma ReplacementIsAtomicExactly(codec: Codec, disk: Disk, ds: seq<Delta>, partial: string, c: Checkpoint)
    requires Good(codec) && Holds(codec, disk, ds, partial) && ValidCheckpoint(c)
    ensures AtomicReplacement(codec, disk, c) <==> Replaceable(disk, ds, c)
  {
    MidwayExactly(codec, disk, ds, partial, c);
    if Replaceable(disk, ds, c) {
      ReplacedStands(codec, c);
      SoundLoads(codec, disk, ds, partial);
      forall crash ensures AtomicAt(codec, disk, c, crash) {
        ReplacementSteps(codec, disk, c, crash);
      }
    } else {
      ReplacementSteps(codec, disk, c, Some(1));
      assert !AtomicAt(codec, disk, c, Some(1));
    }
  }

  /** A replacement that drops a journalled source and adds a new one can be seen half done. */
  lemma DroppingSaveMixes(codec: Codec, disk: Disk, ds: seq<Delta>, partial: string, c: Checkpoint,
                          dropped: string, added: string)
    requires Good(codec) && Holds(codec, disk, ds, partial) && ValidCheckpoint(c)
    requires disk.snapshot.Some? && disk.snapshot.value.identity == c.identity
    requires dropped in Last(ds) && dropped !in c.fingerprints
    requires added in c.fingerprints && added !in Meaning(codec, disk)
    ensures Meaning(codec, disk.(snapshot := Some(c))) !in {Meaning(codec, disk), c.fingerprints}
  {
    ReplacingMidway(codec, disk, ds, partial, c);
    SoundLoads(codec, disk, ds, partial);
    assert dropped in c.fingerprints + Last(ds) && added in c.fingerprints + Last(ds);
  }

  /** What a save outside the run lock checks: the identity, and that no durable progress is missing. */
  ghost predicate KeepsProgress(codec: Codec, disk: Disk, c: Checkpoint) {
    && (disk.snapshot.Some? ==> disk.snapshot.value.identity == c.identity)
    && Keeps(Meaning(codec, disk), c.fingerprints)
  }

  lemma ProgressIsReplaceable(codec: Codec, disk: Disk, ds: seq<Delta>, partial: string, c: Checkpoint)
    requires Good(codec) && Holds(codec, disk, ds, partial) && KeepsProgress(codec, disk, c)
    ensures Replaceable(disk, ds, c)
  {
    SoundLoads(codec, disk, ds, partial);
    if disk.snapshot.Some? {
      KeptIsAbsorbed(disk.snapshot.value.fingerprints, Last(ds), c.fingerprints);
    }
  }

  /** Outside the run lock, a save that gets past its checks keeps progress. */
  lemma CheckedKeepsProgress(codec: Codec, disk: Disk, ds: seq<Delta>, partial: string, c: Checkpoint)
    requires Good(codec) && Holds(codec, disk, ds, partial) && SaveSteps(codec, disk, c, false).error.None?
    ensures ValidCheckpoint(c) && KeepsProgress(codec, Truncated(disk), c)
  {
    SoundLoads(codec, disk, ds, partial);
    TruncatedKeeps(codec, disk, ds, partial);
    if disk.snapshot.Some? {
      OverlayIsLast(disk.snapshot.value, ds);
    }
  }

  /** Both durable steps of a replacement that the journal allows: the old or the new map, then the new one. */
  lemma ReplacingStands(codec: Codec, disk: Disk, ds: seq<Delta>, partial: string, c: Checkpoint, i: nat)
    returns (at: Disk, now: map<string, string>)
    requires Good(codec) && Holds(codec, disk, ds, partial) && ValidCheckpoint(c) && Replaceable(disk, ds, c) && i < 2
    ensures at == Replacing(disk, c)[i] && Stands(codec, at, now)
    ensures now in {Meaning(codec, disk), c.fingerprints} && (i == 1 ==> now == c.fingerprints)
  {
    at := Replacing(disk, c)[i];
    if i == 0 {
      ReplacingMidway(codec, disk, ds, partial, c);
      MidwayExactly(codec, disk, ds, partial, c);
      now := c.fingerprints + Last(ds);
    } else {
      ReplacedStands(codec, c);
      now := c.fingerprints;
    }
  }

  /** Every durable step of a save outside the run lock leaves the old fingerprints or the new. */
  lemma CheckedSaveStates(codec: Codec, disk: Disk, ds: seq<Delta>, partial: string, c: Checkpoint, i: nat)
    returns (at: Disk, now: map<string, string>)
    requires Good(codec) && Holds(codec, disk, ds, partial) && i < |SaveSteps(codec, disk, c, false).states|
    ensures at == SaveSteps(codec, disk, c, false).states[i] && Stands(codec, at, now)
    ensures now in {Meaning(codec, disk), c.fingerprints}
    ensures var steps := SaveSteps(codec, disk, c, false);
      if steps.error.Some? then now == Meaning(codec, disk)
      else |steps.states| == 3 && (i == 2 ==> now == c.fingerprints)
  {
    TruncatedKeeps(codec, disk, ds, partial);
    if i == 0 {
      at, now := Truncated(disk), Meaning(codec, disk);
    } else {
      CheckedKeepsProgress(codec, disk, ds, partial, c);
      RecoversWritten(codec, disk, ds, partial);
      ProgressIsReplaceable(codec, Truncated(disk), ds, "", c);
      at, now := ReplacingStands(codec, Truncated(disk), ds, "", c, i - 1);
    }
  }

  /** Every durable step of a replacement inside the run lock, when the journal allows it. */
  lemma ReplacingSaveStates(codec: Codec, disk: Disk, ds: seq<Delta>, partial: string, c: Checkpoint, i: nat)
    returns (at: Disk, now: map<string, string>)
    requires Good(codec) && Holds(codec, disk, ds, partial) && Replaceable(disk, ds, c)
    requires i < |SaveSteps(codec, disk, c, true).states|
    ensures at == SaveSteps(codec, disk, c, true).states[i] && Stands(codec, at, now)
    ensures now in {Meaning(codec, disk), c.fingerprints}
    ensures SaveSteps(codec, disk, c, true).error.None? && |SaveSteps(codec, disk, c, true).states| == 2
    ensures i == 1 ==> now == c.fingerprints
  {
    at, now := ReplacingStands(codec, disk, ds, partial, c, i);
  }

  // ---------------------------------------------------------------- crash safety

  /** The journal on disk lets the snapshot be replaced. */
  ghost predicate AllowsReplacement(codec: Codec, disk: Disk, c: Checkpoint) {
    exists ds: seq<Delta>, partial: string :: Holds(codec, disk, ds, partial) && Replaceable(disk, ds, c)
  }

  /** A valid save inside the run lock must be one that the journal allows; nothing else is asked of any operation. */
  ghost predicate Allowed(codec: Codec, disk: Disk, e: Event) {
    e.op.SaveOp? && e.op.allowReplace && ValidCheckpoint(e.op.checkpoint) ==>
      AllowsReplacement(codec, disk, e.op.checkpoint)
  }

  /** The demand on saves inside the run lock is exact: an atomic one is allowed. */
  lemma AtomicIsAllowed(codec: Codec, disk: Disk, c: Checkpoint)
    requires Good(codec) && Sound(codec, disk) && ValidCheckpoint(c)
    ensures AtomicReplacement(codec, disk, c) <==> Allowed(codec, disk, Event(SaveOp(c, true), None))
  {
    if Allowed(codec, disk, Event(SaveOp(c, true), None)) {
      var ds: seq<Delta>, partial: string :| Holds(codec, disk, ds, partial) && Replaceable(disk, ds, c);
      ReplacementIsAtomicExactly(codec, disk, ds, partial, c);
    } else {
      var ds: seq<Delta>, partial: string :| Holds(codec, disk, ds, partial);
      ReplacementIsAtomicExactly(codec, disk, ds, partial, c);
    }
  }

  lemma LoadStands(codec: Codec, disk: Disk) returns (now: map<string, string>)
    requires Good(codec) && Sound(codec, disk)
    ensures Stands(codec, Truncated(disk), now) && now == Meaning(codec, disk)
  {
    var ds: seq<Delta>, partial: string :| Holds(codec, disk, ds, partial);
    TruncatedKeeps(codec, disk, ds, partial);
    now := Meaning(codec, disk);
  }

  lemma AppendStands(codec: Codec, disk: Disk, c: Checkpoint, sourceId: string, i: nat)
    returns (at: Disk, now: map<string, string>)
    requires Good(codec) && Sound(codec, disk) && i < |AppendSteps(codec, disk, c, sourceId).states|
    ensures at == AppendSteps(codec, disk, c, sourceId).states[i] && Stands(codec, at, now)
    ensures now == var steps, m := AppendSteps(codec, disk, c, sourceId), Meaning(codec, disk);
      if steps.error.None? && i == |steps.states| - 1 then Intended(m, AppendOp(c, sourceId)) else m
  {
    var ds: seq<Delta>, partial: string :| Holds(codec, disk, ds, partial);
    at, now := AppendStates(codec, disk, ds, partial, c, sourceId, i);
  }

  /**
   Every durable step of a save leaves the old fingerprints or the new; the last one of a save that goes
   through, the new.
   */
  lemma SaveStands(codec: Codec, disk: Disk, c: Checkpoint, allowReplace: bool, i: nat)
    returns (at: Disk, now: map<string, string>)
    requires Good(codec) && Sound(codec, disk) && i < |SaveSteps(codec, disk, c, allowReplace).states|
    requires allowReplace && ValidCheckpoint(c) ==> AllowsReplacement(codec, disk, c)
    ensures at == SaveSteps(codec, disk, c, allowReplace).states[i] && Stands(codec, at, now)
    ensures now in {Meaning(codec, disk), c.fingerprints}
    ensures var steps := SaveSteps(codec, disk, c, allowReplace);
      if steps.error.Some? then now == Meaning(codec, disk) else i == |steps.states| - 1 ==> now == c.fingerprints
  {
    if allowReplace {
      var ds: seq<Delta>, partial: string :| Holds(codec, disk, ds, partial) && Replaceable(disk, ds, c);
      at, now := ReplacingSaveStates(codec, disk, ds, partial, c, i);
    } else {
      var ds: seq<Delta>, partial: string :| Holds(codec, disk, ds, partial);
      at, now := CheckedSaveStates(codec, disk, ds, partial, c, i);
    }
  }

  lemma StepStands(codec: Codec, disk: Disk, op: Op, i: nat) returns (at: Disk, now: map<string, string>)
    requires Good(codec) && Sound(codec, disk) && Allowed(codec, disk, Event(op, None))
    requires i < |StepsOf(codec, disk, op).states|
    ensures at == StepsOf(codec, disk, op).states[i] && Stands(codec, at, now)
    ensures now in {Meaning(codec, disk), Intended(Meaning(codec, disk), op)}
    ensures StepsOf(codec, disk, op).error.Some? ==> now == Meaning(codec, disk)
    ensures StepsOf(codec, disk, op).error.None? && i == |StepsOf(codec, disk, op).states| - 1 ==>
      now == Intended(Meaning(codec, disk), op)
  {
    match op
    case LoadOp =>
      at := Truncated(disk);
      now := LoadStands(codec, disk);
    case AppendOp(c, sourceId) =>
      at, now := AppendStands(codec, disk, c, sourceId, i);
    case SaveOp(c, allowReplace) =>
      at, now := SaveStands(codec, disk, c, allowReplace, i);
  }

  lemma SoundStands(codec: Codec, disk: Disk)
    requires Good(codec) && Sound(codec, disk)
    ensures Stands(codec, disk, Meaning(codec, disk))
  {
    var ds: seq<Delta>, partial: string :| Holds(codec, disk, ds, partial);
    SoundLoads(codec, disk, ds, partial);
  }

  /** An operation without an error takes at least one durable step. */
  lemma StepsToDo(codec: Codec, disk: Disk, op: Op)
    ensures StepsOf(codec, disk, op).error.None? ==> StepsOf(codec, disk, op).states != []
  {
  }

  /** Completed or crashed, an operation leaves a disk that loads the fingerprints from just before or just after it. */
  lemma EventIsAtomic(codec: Codec, disk: Disk, e: Event) returns (now: map<string, string>)
    requires Good(codec) && Sound(codec, disk) && Allowed(codec, disk, e)
    ensures Stands(codec, After(codec, disk, e), now)
    ensures now in {Meaning(codec, disk), Intended(Meaning(codec, disk), e.op)}
    ensures StepsOf(codec, disk, e.op).error.Some? ==> now == Meaning(codec, disk)
    ensures StepsOf(codec, disk, e.op).error.None? && e.crash.None? ==> now == Intended(Meaning(codec, disk), e.op)
  {
    var i := LastStep(codec, disk, e);
    if i.Some? {
      var at;
      at, now := StepStands(codec, disk, e.op, i.value);
    } else {
      SoundStands(codec, disk);
      now := Meaning(codec, disk);
    }
  }

  /** The step that an event got to, if it got to any. */
  lemma LastStep(codec: Codec, disk: Disk, e: Event) returns (i: Option<nat>)
    ensures var steps := StepsOf(codec, disk, e.op);
      && (i.None? ==> After(codec, disk, e) == disk && (steps.error.None? ==> e.crash.Some?))
      && (i.Some? ==> i.value < |steps.states| && After(codec, disk, e) == steps.states[i.value])
      && (i.Some? && e.crash.None? ==> i.value == |steps.states| - 1)
  {
    var states := StepsOf(codec, disk, e.op).states;
    var n := match e.crash case None => |states| case Some(n) => n;
    StepsToDo(codec, disk, e.op);
    i := if n > 0 && states != [] then Some(Min(n, |states|) - 1) else None;
  }

  ghost predicate RunAllowed(codec: Codec, events: seq<Event>) {
    events != [] ==>
      && RunAllowed(codec, events[..|events| - 1])
      && Allowed(codec, Run(codec, events[..|events| - 1]), events[|events| - 1])
  }

  lemma {:induction false} RunStaysSound(codec: Codec, events: seq<Event>)
    requires Good(codec) && RunAllowed(codec, events)
    ensures Sound(codec, Run(codec, events)) && Load(codec, Run(codec, events)).Success?
  {
    if events == [] {
      assert Holds(codec, Disk(None, None), [], "");
    } else {
      RunStaysSound(codec, events[..|events| - 1]);
      var m := EventIsAtomic(codec, Run(codec, events[..|events| - 1]), events[|events| - 1]);
    }
  }

  /**
   After any run of loads, appends and saves, with a crash at any durable step, the next load succeeds: never an
   orphan journal, a bad line or a foreign delta. And whatever operation comes next, crashed or not, the load
   after it returns the fingerprints from just before or just after that operation. All that is asked is that
   replacements inside the run lock are atomic ones, by `AtomicIsAllowed`.
   */
  lemma CrashSafety(events: seq<Event>, e: Event)
    requires RunAllowed(JSON, events) && Allowed(JSON, Run(JSON, events), e)
    ensures Load(JSON, Run(JSON, events)).Success? && Load(JSON, After(JSON, Run(JSON, events), e)).Success?
    ensures var m := Meaning(JSON, Run(JSON, events));
      && Meaning(JSON, After(JSON, Run(JSON, events), e)) in {m, Intended(m, e.op)}
      && (e.crash.None? && StepsOf(JSON, Run(JSON, events), e.op).error.None? ==>
            Meaning(JSON, After(JSON, Run(JSON, events), e)) == Intended(m, e.op))
  {
    JsonIsGood();
    RunStaysSound(JSON, events);
    var m := EventIsAtomic(JSON, Run(JSON, events), e);
  }

  // ---------------------------------------------------------------- the store

  lemma WritingStarts(disk: Disk, text: string)
    ensures Writing(disk, text, 0) == disk.(journal := Some(JournalText(disk)))
    ensures WritingStates(disk, text)[..1] == [Writing(disk, text, 0)]
  {
    assert JournalText(disk) + text[..0] == JournalText(disk);
  }

  lemma WritingNext(disk: Disk, text: string, k: nat)
    requires k < |text|
    ensures Writing(disk, text, k + 1) ==
      Writing(disk, text, k).(journal := Some(Writing(disk, text, k).journal.value + [text[k]]))
    ensures WritingStates(disk, text)[..k + 2] == WritingStates(disk, text)[..k + 1] + [Writing(disk, text, k + 1)]
  {
    assert JournalText(disk) + text[..k + 1] == JournalText(disk) + text[..k] + [text[k]];
  }

  lemma AppendIsWriting(codec: Codec, disk: Disk, c: Checkpoint, sourceId: string, base: Disk)
    requires NonEmpty(sourceId) && sourceId in c.fingerprints && ValidDelta(DeltaFor(c, sourceId))
    requires base == BaseFor(Truncated(disk), c) && ValidCheckpoint(base.snapshot.value)
    requires base.snapshot.value.identity == c.identity
    ensures var steps, text := AppendSteps(codec, disk, c, sourceId), codec.encode(DeltaFor(c, sourceId)) + "\n";
      && steps == Steps([Truncated(disk), base] + WritingStates(base, text), None)
      && Reached(disk, steps.states, |steps.states|) == Writing(base, text, |text|)
  {
  }

  lemma AppendStops(codec: Codec, disk: Disk, c: Checkpoint, sourceId: string, t: Disk, base: Disk)
    requires NonEmpty(sourceId) && sourceId in c.fingerprints && ValidDelta(DeltaFor(c, sourceId))
    requires t == Truncated(disk) && base == BaseFor(t, c)
    requires !ValidCheckpoint(base.snapshot.value) || base.snapshot.value.identity != c.identity
    ensures var steps := AppendSteps(codec, disk, c, sourceId);
      && steps == (if !ValidCheckpoint(base.snapshot.value) then Steps([t], Some(InvalidCheckpoint))
                   else Steps([t, base], Some(ForeignDelta)))
      && Reached(disk, steps.states, |steps.states|) == (if !ValidCheckpoint(base.snapshot.value) then t else base)
  {
  }

  lemma TraceGrows(trace: seq<Disk>, first: seq<Disk>, more: seq<Disk>)
    ensures trace + first + more == trace + (first + more)
  {
  }

  class FileStore {
    const codec: Codec
    /** The files. */
    var snapshot: Option<Checkpoint>
    var journal: Option<string>
    var locked: bool
    var identityCache: Option<Identity>
    /** Every durable state, in order. */
    ghost var trace: seq<Disk>

    constructor (codec: Codec, disk: Disk, locked: bool)
      ensures this.codec == codec && Files() == disk && this.locked == locked && identityCache == None && trace == []
    {
      this.codec, snapshot, journal, this.locked := codec, disk.snapshot, disk.journal, locked;
      identityCache, trace := None, [];
    }

    function Files(): Disk
      reads this
    {
      Disk(snapshot, journal)
    }

    /** The cache is only set while the snapshot has that identity. */
    ghost predicate Valid()
      reads this
    {
      identityCache.Some? ==>
        snapshot.Some? && ValidCheckpoint(snapshot.value) && snapshot.value.identity == identityCache.value
    }

    /** What a completed operation leaves: its durable steps in the trace, the last of them on disk. */
    twostate predicate Took(steps: Steps)
      reads this
    {
      trace == old(trace) + steps.states && Files() == Reached(old(Files()), steps.states, |steps.states|)
    }

    method Flush()
      modifies this`trace
      ensures trace == old(trace) + [Files()]
    {
      trace := trace + [Files()];
    }

    /** Cut a torn tail off the journal file. */
    method ReadRecoverableJournal() returns (text: Option<string>)
      modifies this`journal, this`trace
      ensures Files() == Truncated(old(Files())) && text == journal && trace == old(trace) + [Files()]
    {
      if journal.Some? {
        var complete := journal.value;
        while complete != "" && complete[|complete| - 1] != '\n'
          invariant Recovered(complete) == Recovered(journal.value)
          decreases |complete|
        {
          complete := complete[..|complete| - 1];
        }
        journal := Some(complete);
      }
      Flush();
      text := journal;
    }

    /** Replay the lines over the snapshot, skipping blank ones. */
    method ReplayJournal(c: Checkpoint, text: string) returns (r: Result<Checkpoint, StoreError>)
      ensures r == Replay(codec, c, SplitFrom(text, ""))
    {
      var lines, checkpoint, index := SplitFrom(text, ""), c, 0;
      while index < |lines|
        invariant index <= |lines| && Replay(codec, c, lines) == Replay(codec, checkpoint, lines[index..])
      {
        var line := lines[index];
        assert lines[index..][1..] == lines[index + 1..];
        if !IsBlank(line) {
          var delta := codec.decode(line);
          if delta.None? {
            return Failure(BadJournalLine);
          }
          if !ValidDelta(delta.value) {
            return Failure(InvalidDelta);
          }
          if delta.value.identity != checkpoint.identity {
            return Failure(ForeignDelta);
          }
          checkpoint := Apply(checkpoint, delta.value);
        }
        index := index + 1;
      }
      r := Success(checkpoint);
    }

    method LoadUnlocked() returns (r: Result<Option<Checkpoint>, StoreError>)
      requires Valid()
      modifies this`journal, this`trace, this`identityCache
      ensures Valid() && r == Load(codec, old(Files())) && Took(StepsOf(codec, old(Files()), LoadOp))
    {
      var text := ReadRecoverableJournal();
      if snapshot.None? {
        if text.Some? && !IsBlank(text.value) {
          return Failure(OrphanJournal);
        }
        return Success(None);
      }
      if !ValidCheckpoint(snapshot.value) {
        return Failure(InvalidCheckpoint);
      }
      var checkpoint := snapshot.value;
      if text.Some? {
        var replayed := ReplayJournal(checkpoint, text.value);
        if replayed.Failure? {
          return Failure(replayed.error);
        }
        checkpoint := replayed.value;
      }
      identityCache := Some(snapshot.value.identity);
      r := Success(Some(checkpoint));
    }

    /** Rename the new snapshot into place, then remove the journal. */
    method Replace(c: Checkpoint)
      requires ValidCheckpoint(c)
      modifies this`snapshot, this`journal, this`trace, this`identityCache
      ensures Valid() && Files() == Disk(Some(c), None) && trace == old(trace) + Replacing(old(Files()), c)
    {
      snapshot := Some(c);
      Flush();
      journal := None;
      Flush();
      identityCache := Some(c.identity);
    }

    /** What a save outside the run lock compares with the durable state. */
    method CheckCurrent(c: Checkpoint) returns (error: Option<StoreError>)
      requires Valid() && ValidCheckpoint(c)
      modifies this`journal, this`trace, this`identityCache
      ensures Valid() && Files() == Truncated(old(Files())) && trace == old(trace) + [Files()]
      ensures error == SaveRefusal(codec, old(Files()), c)
    {
      var current := LoadUnlocked();
      if current.Failure? {
        return Some(current.error);
      }
      if current.value.Some? {
        if current.value.value.identity != c.identity {
          return Some(IdentityConflict);
        }
        if !Keeps(current.value.value.fingerprints, c.fingerprints) {
          return Some(StaleSave);
        }
      }
      error := None;
    }

    method SaveUnlocked(c: Checkpoint, allowReplace: bool) returns (error: Option<StoreError>)
      requires Valid()
      modifies this`snapshot, this`journal, this`trace, this`identityCache
      ensures Valid() && error == SaveSteps(codec, old(Files()), c, allowReplace).error
      ensures Took(SaveSteps(codec, old(Files()), c, allowReplace))
    {
      if !ValidCheckpoint(c) {
        return Some(InvalidCheckpoint);
      }
      if !allowReplace {
        error := CheckCurrent(c);
        if error.Some? {
          return;
        }
      }
      Replace(c);
      error := None;
    }

    /** The line reaches the disk character by character. */
    method WriteJournal(text: string)
      modifies this`journal, this`trace
      ensures Files() == Writing(old(Files()), text, |text|) && trace == old(trace) + WritingStates(old(Files()), text)
    {
      ghost var base := Files();
      journal := Some(if journal.Some? then journal.value else "");
      WritingStarts(base, text);
      Flush();
      for k := 0 to |text|
        invariant Files() == Writing(base, text, k)
        invariant trace == old(trace) + WritingStates(base, text)[..k + 1]
      {
        WritingNext(base, text, k);
        journal := Some(journal.value + [text[k]]);
        Flush();
      }
      assert WritingStates(base, text)[..|text| + 1] == WritingStates(base, text);
    }

    /** The snapshot that the journal belongs to: the cached identity, the snapshot on disk, or a new base. */
    method EnsureBase(c: Checkpoint) returns (error: Option<StoreError>)
      requires Valid() && ValidIdentity(c.identity) && NonEmpty(c.updatedAt)
      modifies this`snapshot, this`trace, this`identityCache
      ensures Valid()
      ensures error ==
        if ValidCheckpoint(BaseFor(old(Files()), c).snapshot.value) then None else Some(InvalidCheckpoint)
      ensures error.None? ==> Files() == BaseFor(old(Files()), c) && trace == old(trace) + [Files()]
      ensures error.None? ==> identityCache == Some(snapshot.value.identity)
      ensures error.Some? ==> Files() == old(Files()) && trace == old(trace)
    {
      if identityCache.None? {
        if snapshot.None? {
          snapshot := Some(Checkpoint(c.identity, map[], c.updatedAt));
        } else if !ValidCheckpoint(snapshot.value) {
          return Some(InvalidCheckpoint);
        }
        identityCache := Some(snapshot.value.identity);
      }
      Flush();
      error := None;
    }

    /** Recover the tail and find the base, before the line is written. */
    method PrepareAppend(c: Checkpoint) returns (error: Option<StoreError>)
      requires Valid() && ValidIdentity(c.identity) && NonEmpty(c.updatedAt)
      modifies this`snapshot, this`journal, this`trace, this`identityCache
      ensures Valid()
      ensures var t := Truncated(old(Files())); var base := BaseFor(t, c);
        if !ValidCheckpoint(base.snapshot.value) then
          error == Some(InvalidCheckpoint) && Files() == t && trace == old(trace) + [t]
        else
          && error == (if base.snapshot.value.identity == c.identity then None else Some(ForeignDelta))
          && Files() == base && trace == old(trace) + [t, base]
    {
      var recovered := ReadRecoverableJournal();
      error := EnsureBase(c);
      if error.None? && identityCache.value != c.identity {
        error := Some(ForeignDelta);
      }
    }

    method AppendUnlocked(c: Checkpoint, sourceId: string) returns (error: Option<StoreError>)
      requires Valid()
      modifies this`snapshot, this`journal, this`trace, this`identityCache
      ensures Valid() && error == AppendSteps(codec, old(Files()), c, sourceId).error
      ensures Took(AppendSteps(codec, old(Files()), c, sourceId))
    {
      if !NonEmpty(sourceId) {
        return Some(InvalidDelta);
      }
      if sourceId !in c.fingerprints {
        return Some(MissingFingerprint);
      }
      var delta := DeltaFor(c, sourceId);
      if !ValidDelta(delta) {
        return Some(InvalidDelta);
      }
      error := PrepareAppend(c);
      if error.None? {
        ghost var base := Files();
        AppendIsWriting(codec, old(Files()), c, sourceId, base);
        WriteJournal(codec.encode(delta) + "\n");
        TraceGrows(old(trace), [Truncated(old(Files())), base], WritingStates(base, codec.encode(delta) + "\n"));
      } else {
        AppendStops(codec, old(Files()), c, sourceId, Truncated(old(Files())), BaseFor(Truncated(old(Files())), c));
      }
    }

    /** Take the lock file unless the caller already runs under it; a leftover lock blocks every writer. */
    method Acquire(owner: bool) returns (error: Option<StoreError>)
      requires Valid()
      modifies this`locked, this`identityCache
      ensures Valid() && locked == (old(locked) || !owner)
      ensures error == if !owner && old(locked) then Some(ActiveWriter) else None
    {
      if owner {
        return None;
      }
      if locked {
        return Some(ActiveWriter);
      }
      locked, identityCache := true, None;
      error := None;
    }

    method Read(owner: bool) returns (r: Result<Option<Checkpoint>, StoreError>)
      requires Valid() && (owner ==> locked)
      modifies this
      ensures Valid() && locked == old(locked)
      ensures !owner && old(locked) ==> r == Failure(ActiveWriter) && Files() == old(Files()) && trace == old(trace)
      ensures owner || !old(locked) ==> r == Load(codec, old(Files())) && Took(StepsOf(codec, old(Files()), LoadOp))
    {
      var error := Acquire(owner);
      if error.Some? {
        return Failure(error.value);
      }
      r := LoadUnlocked();
      locked := owner;
    }

    /** Outside the lock a save is checked against the durable state; inside a run it replaces. */
    method Save(c: Checkpoint, owner: bool) returns (error: Option<StoreError>)
      requires Valid() && (owner ==> locked)
      modifies this
      ensures Valid() && locked == old(locked)
      ensures !owner && old(locked) ==> error == Some(ActiveWriter) && Files() == old(Files()) && trace == old(trace)
      ensures owner || !old(locked) ==> error == SaveSteps(codec, old(Files()), c, owner).error
      ensures owner || !old(locked) ==> Took(SaveSteps(codec, old(Files()), c, owner))
    {
      error := Acquire(owner);
      if error.Some? {
        return;
      }
      error := SaveUnlocked(c, owner);
      locked := owner;
    }

    method AppendFingerprint(c: Checkpoint, sourceId: string, owner: bool) returns (error: Option<StoreError>)
      requires Valid() && (owner ==> locked)
      modifies this
      ensures Valid() && locked == old(locked)
      ensures !owner && old(locked) ==> error == Some(ActiveWriter) && Files() == old(Files()) && trace == old(trace)
      ensures owner || !old(locked) ==> error == AppendSteps(codec, old(Files()), c, sourceId).error
      ensures owner || !old(locked) ==> Took(AppendSteps(codec, old(Files()), c, sourceId))
    {
      error := Acquire(owner);
      if error.Some? {
        return;
      }
      error := AppendUnlocked(c, sourceId);
      locked := owner;
    }
  }
}
