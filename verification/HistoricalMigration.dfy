/**
 Historical migration: discovery in source order, a bounded window processed concurrently, and a durable
 checkpoint that only ever advances along the contiguous successful prefix.
 */
module HistoricalMigration {
  import opened Prelude

  type Cursor = string

  datatype Unit = Unit(experienceId: string, compatible: bool)

  datatype Page = Page(units: seq<Unit>, next: Option<Cursor>)

  datatype ReceiptStatus = Complete | AwaitingReview | OtherStatus

  /** What happens to a unit: its two fingerprints, its eligibility, and the receipt if it is ingested. */
  datatype Handling = Handling(normalizes: bool, normalized: string, current: string, eligible: bool,
                               receipt: ReceiptStatus)

  /** Discovery is a function of the cursor, and the outcome of a unit a function of the unit. */
  datatype Source = Source(discover: Option<Cursor> -> Page, handle: Unit -> Handling)

  datatype State = State(cursor: Option<Cursor>, last: Option<(string, string)>, processed: nat, ingested: nat,
                         skipped: nat, complete: bool)

  datatype DiscoveryError = TooManyUnits | NotAdvancing | Incompatible

  datatype End =
    | Bounded | SourceExhausted | UnitFailed(experienceId: string) | DiscoveryFailed(error: DiscoveryError)
    | InvalidRequest | ImportUnsupported | IncompatibleState

  /** The source identity that an adapter reports when it is inspected. */
  datatype Adapter = Adapter(name: string, version: string, sourceSystem: string, sourceType: string)

  /** What a stored state must belong to. */
  datatype Owner = Owner(adapter: Adapter, eligibilityPolicy: string, migrationId: string)

  const MAX_UNITS := 1000
  const MAX_CONCURRENCY := 128

  // ---------------------------------------------------------------- one unit

  /** The unit's fingerprint and whether it was ingested, if it was processed. */
  function ProcessUnit(src: Source, unit: Unit): Option<(string, bool)> {
    var h := src.handle(unit);
    if !h.normalizes || h.current != h.normalized then None
    else if !h.eligible then Some((h.current, false))
    else if h.receipt == OtherStatus then None
    else Some((h.current, true))
  }

  function Advanced(prior: Option<State>, experienceId: string, fingerprint: string, next: Option<Cursor>,
                    ingested: bool): State {
    var (processed, done, skipped) :=
      match prior case None => (0, 0, 0) case Some(s) => (s.processed, s.ingested, s.skipped);
    State(next, Some((experienceId, fingerprint)), processed + 1, done + (if ingested then 1 else 0),
      skipped + (if ingested then 0 else 1), next.None?)
  }

  function Completed(prior: Option<State>): State {
    match prior
    case None => State(None, None, 0, 0, 0, true)
    case Some(s) => s.(complete := true)
  }

  // ---------------------------------------------------------------- a window

  datatype Entry = Entry(unit: Unit, next: Option<Cursor>)

  datatype Window = Broken(error: DiscoveryError) | Found(entries: seq<Entry>, exhausted: bool)

  function CursorOf(s: Option<State>): Option<Cursor> {
    match s case None => None case Some(state) => state.cursor
  }

  /** Why a page cannot be used at this cursor. */
  function PageError(cursor: Option<Cursor>, page: Page): Option<DiscoveryError> {
    if |page.units| > 1 then Some(TooManyUnits)
    else if page.units == [] then None
    else if cursor.Some? && page.next == cursor then Some(NotAdvancing)
    else if !page.units[0].compatible then Some(Incompatible)
    else None
  }

  function Discover(src: Source, cursor: Option<Cursor>, capacity: nat): (w: Window)
    ensures w.Found? ==> |w.entries| <= capacity
    decreases capacity
  {
    if capacity == 0 then Found([], false)
    else
      var page := src.discover(cursor);
      var error := PageError(cursor, page);
      if error.Some? then Broken(error.value)
      else if page.units == [] then Found([], true)
      else if page.next.None? then Found([Entry(page.units[0], page.next)], true)
      else
        match Discover(src, page.next, capacity - 1)
        case Broken(e) => Broken(e)
        case Found(entries, exhausted) => Found([Entry(page.units[0], page.next)] + entries, exhausted)
  }

  /** How many leading entries are processed successfully. */
  function Successes(src: Source, entries: seq<Entry>): (n: nat)
    ensures n <= |entries|
  {
    if entries == [] || ProcessUnit(src, entries[0].unit).None? then 0 else 1 + Successes(src, entries[1..])
  }

  /** The states saved for the leading successful entries. */
  function Commits(src: Source, prior: Option<State>, entries: seq<Entry>): (r: seq<State>)
    ensures |r| == Successes(src, entries)
    decreases entries
  {
    if entries == [] || ProcessUnit(src, entries[0].unit).None? then []
    else
      var (fingerprint, ingested) := ProcessUnit(src, entries[0].unit).value;
      var s := Advanced(prior, entries[0].unit.experienceId, fingerprint, entries[0].next, ingested);
      [s] + Commits(src, Some(s), entries[1..])
  }

  function Latest(prior: Option<State>, saves: seq<State>): Option<State> {
    if saves == [] then prior else Some(saves[|saves| - 1])
  }

  // ---------------------------------------------------------------- a run

  datatype RunResult = RunResult(saves: seq<State>, end: End)

  function Prepend(saves: seq<State>, r: RunResult): RunResult { r.(saves := saves + r.saves) }

  /** All of the window succeeded and the source has more. */
  predicate Continues(src: Source, entries: seq<Entry>, exhausted: bool) {
    entries != [] && Successes(src, entries) == |entries| && !exhausted
  }

  /** A window that ends the run: its successful prefix is saved, then the failure or the exhausted source. */
  function Settled(src: Source, state: Option<State>, entries: seq<Entry>, exhausted: bool): RunResult {
    var saves := Commits(src, state, entries);
    if |saves| < |entries| then RunResult(saves, UnitFailed(entries[|saves|].unit.experienceId))
    else
      var last := Latest(state, saves);
      RunResult(saves + (if Finished(last) then [] else [Completed(last)]), SourceExhausted)
  }

  predicate Finished(state: Option<State>) { state.Some? && state.value.complete }

  /** The states saved by a run of at most `n` more units with windows of `c`, and how it ends. */
  function Migrated(src: Source, state: Option<State>, c: nat, n: nat): RunResult
    requires c >= 1
    decreases n, 1
  {
    if Finished(state) then RunResult([], SourceExhausted)
    else if n == 0 then RunResult([], Bounded)
    else MigratedFrom(src, state, c, n, Discover(src, CursorOf(state), Min(c, n)))
  }

  /** The same from the first window on. */
  function MigratedFrom(src: Source, state: Option<State>, c: nat, n: nat, window: Window): RunResult
    requires c >= 1 && (window.Found? ==> |window.entries| <= n)
    decreases n, 0
  {
    match window
    case Broken(e) => RunResult([], DiscoveryFailed(e))
    case Found(entries, exhausted) =>
      if !Continues(src, entries, exhausted) then Settled(src, state, entries, exhausted)
      else
        var saves := Commits(src, state, entries);
        Prepend(saves, Migrated(src, Latest(state, saves), c, n - |entries|))
  }

  lemma MigratedContinues(src: Source, state: Option<State>, c: nat, n: nat, window: Window, saves: seq<State>)
    requires c >= 1 && window.Found? && |window.entries| <= n && saves == Commits(src, state, window.entries)
    requires Continues(src, window.entries, window.exhausted)
    ensures MigratedFrom(src, state, c, n, window) ==
      Prepend(saves, Migrated(src, Latest(state, saves), c, n - |window.entries|))
  {
  }

  // ---------------------------------------------------------------- any window refines the sequential run

  /** The first unit of a page that can be used, and what saving it leaves. */
  lemma CommitsCons(src: Source, state: Option<State>, e: Entry, rest: seq<Entry>)
    requires ProcessUnit(src, e.unit).Some?
    ensures var (fingerprint, ingested) := ProcessUnit(src, e.unit).value;
      var s := Advanced(state, e.unit.experienceId, fingerprint, e.next, ingested);
      Commits(src, state, [e] + rest) == [s] + Commits(src, Some(s), rest) && Commits(src, state, [e]) == [s]
  {
    assert ([e] + rest)[1..] == rest;
    assert [e][1..] == [];
  }

  lemma CommitsNone(src: Source, state: Option<State>, e: Entry, rest: seq<Entry>)
    requires ProcessUnit(src, e.unit).None?
    ensures Commits(src, state, [e] + rest) == [] && Commits(src, state, [e]) == []
  {
  }

  /** What follows a discovered window when the units after it are processed one at a time. */
  function OneByOne(src: Source, state: Option<State>, entries: seq<Entry>, exhausted: bool, n: nat): RunResult
    requires |entries| <= n
  {
    if !Continues(src, entries, exhausted) then Settled(src, state, entries, exhausted)
    else
      var saves := Commits(src, state, entries);
      Prepend(saves, Migrated(src, Latest(state, saves), 1, n - |entries|))
  }

  lemma PrependTwice(a: seq<State>, b: seq<State>, r: RunResult)
    ensures Prepend(a, Prepend(b, r)) == Prepend(a + b, r)
  {
    assert a + (b + r.saves) == a + b + r.saves;
  }

  lemma SuccessesCons(src: Source, e: Entry, rest: seq<Entry>)
    requires ProcessUnit(src, e.unit).Some?
    ensures Successes(src, [e] + rest) == 1 + Successes(src, rest)
  {
    assert ([e] + rest)[1..] == rest;
  }

  /** Settling a window that ends the run is saving its first unit and settling the others. */
  lemma SettledCons(src: Source, state: Option<State>, s: State, e: Entry, rest: seq<Entry>, exhausted: bool)
    requires ProcessUnit(src, e.unit).Some? && Commits(src, state, [e]) == [s]
    ensures Settled(src, state, [e] + rest, exhausted) == Prepend([s], Settled(src, Some(s), rest, exhausted))
  {
    CommitsCons(src, state, e, rest);
    SuccessesCons(src, e, rest);
    var saves := Commits(src, Some(s), rest);
    if |saves| == |rest| {
      assert Latest(state, [s] + saves) == Latest(Some(s), saves);
    }
  }

  lemma OneByOneCons(src: Source, state: Option<State>, s: State, e: Entry, rest: seq<Entry>, exhausted: bool, n: nat)
    requires 1 + |rest| <= n && ProcessUnit(src, e.unit).Some? && Commits(src, state, [e]) == [s]
    requires rest == [] ==> exhausted
    ensures OneByOne(src, state, [e] + rest, exhausted, n) ==
      Prepend([s], OneByOne(src, Some(s), rest, exhausted, n - 1))
  {
    SuccessesCons(src, e, rest);
    if Continues(src, rest, exhausted) {
      CommitsCons(src, state, e, rest);
      var saves := Commits(src, Some(s), rest);
      PrependTwice([s], saves, Migrated(src, Latest(Some(s), saves), 1, n - 1 - |rest|));
      assert Latest(state, [s] + saves) == Latest(Some(s), saves);
    } else {
      SettledCons(src, state, s, e, rest, exhausted);
    }
  }

  /** A window that was discovered settles exactly as one unit after another would. */
  lemma {:induction false} WindowIsSequential(src: Source, state: Option<State>, k: nat, n: nat)
    requires !Finished(state) && 1 <= k <= n && Discover(src, CursorOf(state), k).Found?
    ensures var w := Discover(src, CursorOf(state), k);
      Migrated(src, state, 1, n) == OneByOne(src, state, w.entries, w.exhausted, n)
    decreases k
  {
    var page := src.discover(CursorOf(state));
    if page.units == [] || page.next.None? || k == 1 {
      FirstPageAlone(src, CursorOf(state), k);
      RunOne(src, state, n);
    } else {
      var e := Entry(page.units[0], page.next);
      var rest := Discover(src, page.next, k - 1);
      FirstPageFirst(src, CursorOf(state), k);
      if ProcessUnit(src, e.unit).None? {
        RunFailsAtFirst(src, state, e, rest.entries, rest.exhausted, n);
      } else {
        var s := FirstOfMany(src, state, e, n);
        WindowIsSequential(src, Some(s), k - 1, n - 1);
        FirstThenRest(src, state, s, e, rest, n);
      }
    }
  }

  lemma FirstThenRest(src: Source, state: Option<State>, s: State, e: Entry, rest: Window, n: nat)
    requires rest.Found? && 1 + |rest.entries| <= n && (rest.entries == [] ==> rest.exhausted)
    requires ProcessUnit(src, e.unit).Some? && Commits(src, state, [e]) == [s]
    requires Migrated(src, state, 1, n) == Prepend([s], Migrated(src, Some(s), 1, n - 1))
    requires Migrated(src, Some(s), 1, n - 1) == OneByOne(src, Some(s), rest.entries, rest.exhausted, n - 1)
    ensures Migrated(src, state, 1, n) == OneByOne(src, state, [e] + rest.entries, rest.exhausted, n)
  {
    OneByOneCons(src, state, s, e, rest.entries, rest.exhausted, n);
  }

  lemma RunFailsAtFirst(src: Source, state: Option<State>, e: Entry, rest: seq<Entry>, exhausted: bool, n: nat)
    requires !Finished(state) && 1 + |rest| <= n && ProcessUnit(src, e.unit).None?
    requires Discover(src, CursorOf(state), 1).Found? && Discover(src, CursorOf(state), 1).entries == [e]
    ensures Migrated(src, state, 1, n) == OneByOne(src, state, [e] + rest, exhausted, n)
  {
    RunOne(src, state, n);
    FailsAtFirst(src, state, e, rest, exhausted, n);
    FailsAtFirst(src, state, e, [], Discover(src, CursorOf(state), 1).exhausted, n);
    assert [e] + [] == [e];
  }

  lemma RunOne(src: Source, state: Option<State>, n: nat)
    requires !Finished(state) && 1 <= n && Discover(src, CursorOf(state), 1).Found?
    ensures var w := Discover(src, CursorOf(state), 1);
      Migrated(src, state, 1, n) == OneByOne(src, state, w.entries, w.exhausted, n)
  {
  }

  lemma FailsAtFirst(src: Source, state: Option<State>, e: Entry, rest: seq<Entry>, exhausted: bool, n: nat)
    requires 1 + |rest| <= n && ProcessUnit(src, e.unit).None?
    ensures OneByOne(src, state, [e] + rest, exhausted, n) == RunResult([], UnitFailed(e.unit.experienceId))
  {
    CommitsNone(src, state, e, rest);
  }

  lemma FirstPageAlone(src: Source, cursor: Option<Cursor>, k: nat)
    requires k >= 1 && (src.discover(cursor).units == [] || src.discover(cursor).next.None? || k == 1)
    ensures Discover(src, cursor, k) == Discover(src, cursor, 1)
  {
  }

  lemma FirstPageFirst(src: Source, cursor: Option<Cursor>, k: nat)
    requires k > 1 && src.discover(cursor).units != [] && src.discover(cursor).next.Some?
    requires Discover(src, cursor, k).Found?
    ensures var page := src.discover(cursor);
      var e, rest := Entry(page.units[0], page.next), Discover(src, page.next, k - 1);
      && rest.Found? && Discover(src, cursor, k) == Found([e] + rest.entries, rest.exhausted)
      && Discover(src, cursor, 1) == Found([e], false) && (rest.entries == [] ==> rest.exhausted)
  {
  }

  /** Sequentially, a usable page with a successor is saved before anything else is discovered. */
  lemma FirstOfMany(src: Source, state: Option<State>, e: Entry, n: nat) returns (s: State)
    requires !Finished(state) && n >= 1 && Discover(src, CursorOf(state), 1) == Found([e], false)
    requires e.next.Some? && ProcessUnit(src, e.unit).Some?
    ensures Commits(src, state, [e]) == [s] && s.cursor == e.next && !s.complete
    ensures Migrated(src, state, 1, n) == Prepend([s], Migrated(src, Some(s), 1, n - 1))
  {
    SuccessesCons(src, e, []);
    assert [e] + [] == [e];
    CommitsCons(src, state, e, []);
    s := Commits(src, state, [e])[0];
  }

  /** Somewhere in the run, a window finds a usable page first and then one that it cannot use. */
  predicate BreaksMidWindow(src: Source, state: Option<State>, c: nat, n: nat)
    requires c >= 1
    decreases n
  {
    && !Finished(state) && n > 0
    && match Discover(src, CursorOf(state), Min(c, n))
       case Broken(_) => PageError(CursorOf(state), src.discover(CursorOf(state))).None?
       case Found(entries, exhausted) =>
         && Continues(src, entries, exhausted)
         && BreaksMidWindow(src, Latest(state, Commits(src, state, entries)), c, n - |entries|)
  }

  /** A window broken after a usable page has saved nothing; the sequential run has saved that page or failed on it. */
  lemma BrokenWindow(src: Source, state: Option<State>, k: nat, n: nat)
    requires !Finished(state) && 1 <= k <= n && Discover(src, CursorOf(state), k).Broken?
    ensures var stopped := RunResult([], DiscoveryFailed(Discover(src, CursorOf(state), k).error));
      Migrated(src, state, 1, n) == stopped <==> PageError(CursorOf(state), src.discover(CursorOf(state))).Some?
  {
    var page := src.discover(CursorOf(state));
    if PageError(CursorOf(state), page).None? {
      var e := Entry(page.units[0], page.next);
      assert Discover(src, CursorOf(state), 1) == Found([e], page.next.None?);
      RunOne(src, state, n);
      assert [e] + [] == [e];
      if ProcessUnit(src, e.unit).None? {
        FailsAtFirst(src, state, e, [], false, n);
      } else if page.next.Some? {
        var s := FirstOfMany(src, state, e, n);
      } else {
        CommitsCons(src, state, e, []);
      }
    }
  }

  lemma PrependCancels(saves: seq<State>, a: RunResult, b: RunResult)
    ensures Prepend(saves, a) == Prepend(saves, b) <==> a == b
    ensures Prepend(saves, a).saves <= Prepend(saves, b).saves <==> a.saves <= b.saves
  {
    if saves + a.saves == saves + b.saves {
      assert a.saves == (saves + a.saves)[|saves|..] && b.saves == (saves + b.saves)[|saves|..];
    }
    if saves + a.saves <= saves + b.saves {
      assert forall i | 0 <= i < |a.saves| ::
        a.saves[i] == (saves + a.saves)[|saves| + i] == (saves + b.saves)[|saves| + i];
    }
  }

  /**
   With any concurrency the run saves a prefix of what the sequential run saves. It saves exactly the same
   states and ends the same way, with the same failing unit, unless a page that cannot be used turns up
   behind a usable one in the same window.
   */
  lemma {:induction false} WindowedRefinesSequential(src: Source, state: Option<State>, c: nat, n: nat)
    requires c >= 1
    ensures Migrated(src, state, c, n).saves <= Migrated(src, state, 1, n).saves
    ensures Migrated(src, state, c, n) == Migrated(src, state, 1, n) <==> !BreaksMidWindow(src, state, c, n)
    decreases n
  {
    if !Finished(state) && n > 0 {
      var w := Discover(src, CursorOf(state), Min(c, n));
      if w.Broken? {
        BrokenWindow(src, state, Min(c, n), n);
      } else {
        WindowIsSequential(src, state, Min(c, n), n);
        if Continues(src, w.entries, w.exhausted) {
          ContinuedWindow(src, state, c, n);
        }
      }
    }
  }

  lemma {:induction false} ContinuedWindow(src: Source, state: Option<State>, c: nat, n: nat)
    requires c >= 1 && n > 0 && !Finished(state) && Discover(src, CursorOf(state), Min(c, n)).Found?
    requires var w := Discover(src, CursorOf(state), Min(c, n));
      && Continues(src, w.entries, w.exhausted)
      && Migrated(src, state, 1, n) == OneByOne(src, state, w.entries, w.exhausted, n)
    ensures Migrated(src, state, c, n).saves <= Migrated(src, state, 1, n).saves
    ensures Migrated(src, state, c, n) == Migrated(src, state, 1, n) <==> !BreaksMidWindow(src, state, c, n)
    decreases n, 0
  {
    var entries := Discover(src, CursorOf(state), Min(c, n)).entries;
    var saves := Commits(src, state, entries);
    var next, m := Latest(state, saves), n - |entries|;
    WindowedRefinesSequential(src, next, c, m);
    PrependCancels(saves, Migrated(src, next, c, m), Migrated(src, next, 1, m));
  }

  /** Every page has at most one unit, compatible, with a cursor that moves on. */
  ghost predicate WellFormed(src: Source) {
    forall cursor :: PageError(cursor, src.discover(cursor)).None?
  }

  lemma {:induction false} WellFormedDiscovers(src: Source, cursor: Option<Cursor>, k: nat)
    requires WellFormed(src)
    ensures Discover(src, cursor, k).Found?
    decreases k
  {
    if k > 0 {
      assert PageError(cursor, src.discover(cursor)).None?;
      WellFormedDiscovers(src, src.discover(cursor).next, k - 1);
    }
  }

  lemma {:induction false} WellFormedNeverBreaks(src: Source, state: Option<State>, c: nat, n: nat)
    requires WellFormed(src) && c >= 1
    ensures !BreaksMidWindow(src, state, c, n)
    decreases n
  {
    if !Finished(state) && n > 0 {
      WellFormedDiscovers(src, CursorOf(state), Min(c, n));
      var entries := Discover(src, CursorOf(state), Min(c, n)).entries;
      if entries != [] {
        WellFormedNeverBreaks(src, Latest(state, Commits(src, state, entries)), c, n - |entries|);
      }
    }
  }

  /** For a well-formed source, concurrency is unobservable in what is saved and in how the run ends. */
  lemma ConcurrencyIsUnobservable(src: Source, state: Option<State>, c: nat, c': nat, n: nat)
    requires WellFormed(src) && c >= 1 && c' >= 1
    ensures Migrated(src, state, c, n) == Migrated(src, state, c', n)
  {
    WellFormedNeverBreaks(src, state, c, n);
    WellFormedNeverBreaks(src, state, c', n);
    WindowedRefinesSequential(src, state, c, n);
    WindowedRefinesSequential(src, state, c', n);
  }

  /** A good unit followed by a page of two units: sequentially the unit is saved, in a window of two it never is. */
  const STUCK: Source := Source(
    (cursor: Option<Cursor>) => if cursor.None? then Page([Unit("first", true)], Some("a"))
                                else Page([Unit("second", true), Unit("third", true)], None),
    (unit: Unit) => Handling(true, "f", "f", true, Complete))

  lemma WindowCanSaveLess()
    ensures Migrated(STUCK, None, 2, 2) == RunResult([], DiscoveryFailed(TooManyUnits))
    ensures Migrated(STUCK, None, 1, 2).saves == [State(Some("a"), Some(("first", "f")), 1, 1, 0, false)]
  {
    assert Discover(STUCK, Some("a"), 1) == Broken(TooManyUnits);
    assert Discover(STUCK, None, 2) == Broken(TooManyUnits);
    var e := Entry(Unit("first", true), Some("a"));
    assert Discover(STUCK, None, 1) == Found([e], false);
    assert [e] + [] == [e];
    CommitsCons(STUCK, None, e, []);
    var s := FirstOfMany(STUCK, None, e, 2);
    assert Migrated(STUCK, Some(s), 1, 1) == RunResult([], DiscoveryFailed(TooManyUnits));
  }

  // ---------------------------------------------------------------- restarts

  type Discovery = Option<Cursor> -> Page

  function CursorAfter(entries: seq<Entry>): Option<Cursor> {
    if entries == [] then None else entries[|entries| - 1].next
  }

  /** The first `k` units of the source, if it has that many usable pages in a row. */
  function Walk(d: Discovery, k: nat): (r: Option<seq<Entry>>)
    ensures r.Some? ==> |r.value| == k
  {
    if k == 0 then Some([])
    else
      match Walk(d, k - 1)
      case None => None
      case Some(entries) =>
        var cursor := CursorAfter(entries);
        var page := d(cursor);
        if (k > 1 && cursor.None?) || page.units == [] || PageError(cursor, page).Some? then None
        else Some(entries + [Entry(page.units[0], page.next)])
  }

  /** The state stands after exactly the first `processed` units of the source, each ingested or skipped. */
  ghost predicate Contiguous(d: Discovery, state: Option<State>) {
    match state
    case None => true
    case Some(s) =>
      && s.ingested + s.skipped == s.processed && (s.complete || s.cursor.Some?)
      && var walk := Walk(d, s.processed);
      && walk.Some? && s.cursor == CursorAfter(walk.value)
      && (s.last.Some? <==> s.processed > 0)
      && (s.processed > 0 ==> s.last.value.0 == walk.value[s.processed - 1].unit.experienceId)
  }

  function ProcessedBy(state: Option<State>): nat {
    match state case None => 0 case Some(s) => s.processed
  }

  lemma AdvanceIsContiguous(d: Discovery, state: Option<State>, fingerprint: string, ingested: bool)
    requires Contiguous(d, state) && !Finished(state)
    requires PageError(CursorOf(state), d(CursorOf(state))).None? && d(CursorOf(state)).units != []
    ensures var page := d(CursorOf(state));
      var s := Advanced(state, page.units[0].experienceId, fingerprint, page.next, ingested);
      Contiguous(d, Some(s)) && s.processed == ProcessedBy(state) + 1 && (s.complete <==> s.cursor.None?)
  {
    var k := ProcessedBy(state);
    assert Walk(d, k).Some? && CursorAfter(Walk(d, k).value) == CursorOf(state);
    assert Walk(d, k + 1).Some?;
  }

  /** Saved states count up by one and stay contiguous. */
  ghost predicate SavedInOrder(d: Discovery, from: nat, saves: seq<State>) {
    forall i | 0 <= i < |saves| :: SavedAt(d, saves[i], from + i + 1)
  }

  ghost predicate SavedAt(d: Discovery, s: State, position: nat) {
    s.processed == position && Contiguous(d, Some(s))
  }

  lemma SavedCons(d: Discovery, from: nat, s: State, saves: seq<State>)
    requires SavedAt(d, s, from + 1) && SavedInOrder(d, from + 1, saves)
    ensures SavedInOrder(d, from, [s] + saves)
  {
    forall i | 0 <= i < 1 + |saves| ensures SavedAt(d, ([s] + saves)[i], from + i + 1) {
      assert i > 0 ==> SavedAt(d, saves[i - 1], from + 1 + (i - 1) + 1);
    }
  }

  lemma {:induction false} CommitsInOrder(src: Source, state: Option<State>, k: nat)
    requires Contiguous(src.discover, state) && !Finished(state) && Discover(src, CursorOf(state), k).Found?
    ensures var saves := Commits(src, state, Discover(src, CursorOf(state), k).entries);
      SavedInOrder(src.discover, ProcessedBy(state), saves) && Contiguous(src.discover, Latest(state, saves))
    decreases k
  {
    var page := src.discover(CursorOf(state));
    var entries := Discover(src, CursorOf(state), k).entries;
    if k > 0 && page.units != [] && ProcessUnit(src, page.units[0]).Some? {
      var e := Entry(page.units[0], page.next);
      var (fingerprint, ingested) := ProcessUnit(src, e.unit).value;
      var s := Advanced(state, e.unit.experienceId, fingerprint, e.next, ingested);
      AdvanceIsContiguous(src.discover, state, fingerprint, ingested);
      var rest := if page.next.None? then [] else Discover(src, page.next, k - 1).entries;
      assert entries == [e] + rest;
      CommitsCons(src, state, e, rest);
      if page.next.Some? {
        CommitsInOrder(src, Some(s), k - 1);
      }
      SavedCons(src.discover, ProcessedBy(state), s, Commits(src, Some(s), rest));
    }
  }

  /** A saved state is contiguous and not behind the state the run started from. */
  ghost predicate SavedAfter(d: Discovery, state: Option<State>, s: State) {
    Contiguous(d, Some(s)) && ProcessedBy(state) <= s.processed
  }

  lemma CommitSavedAfter(src: Source, state: Option<State>, k: nat, i: nat)
    requires Contiguous(src.discover, state) && !Finished(state) && Discover(src, CursorOf(state), k).Found?
    requires i < |Commits(src, state, Discover(src, CursorOf(state), k).entries)|
    ensures SavedAfter(src.discover, state, Commits(src, state, Discover(src, CursorOf(state), k).entries)[i])
  {
    CommitsInOrder(src, state, k);
    assert SavedAt(src.discover, Commits(src, state, Discover(src, CursorOf(state), k).entries)[i],
                   ProcessedBy(state) + i + 1);
  }

  lemma LatestSavedAfter(src: Source, state: Option<State>, k: nat)
    requires Contiguous(src.discover, state) && !Finished(state) && Discover(src, CursorOf(state), k).Found?
    ensures var last := Latest(state, Commits(src, state, Discover(src, CursorOf(state), k).entries));
      Contiguous(src.discover, last) && ProcessedBy(state) <= ProcessedBy(last)
  {
    CommitsInOrder(src, state, k);
    var saves := Commits(src, state, Discover(src, CursorOf(state), k).entries);
    if saves != [] {
      CommitSavedAfter(src, state, k, |saves| - 1);
    }
  }

  lemma CompletedSavedAfter(d: Discovery, state: Option<State>, last: Option<State>)
    requires Contiguous(d, last) && ProcessedBy(state) <= ProcessedBy(last)
    ensures SavedAfter(d, state, Completed(last))
  {
  }

  lemma SettledSavedAfter(src: Source, state: Option<State>, k: nat, i: nat)
    requires Contiguous(src.discover, state) && !Finished(state) && Discover(src, CursorOf(state), k).Found?
    requires var w := Discover(src, CursorOf(state), k); i < |Settled(src, state, w.entries, w.exhausted).saves|
    ensures var w := Discover(src, CursorOf(state), k);
      SavedAfter(src.discover, state, Settled(src, state, w.entries, w.exhausted).saves[i])
  {
    var saves := Commits(src, state, Discover(src, CursorOf(state), k).entries);
    if i < |saves| {
      CommitSavedAfter(src, state, k, i);
    } else {
      LatestSavedAfter(src, state, k);
      CompletedSavedAfter(src.discover, state, Latest(state, saves));
    }
  }

  /** Every state that a run saves is contiguous, and none is behind the state it started from. */
  lemma {:induction false} RunSavesContiguously(src: Source, state: Option<State>, c: nat, n: nat, i: nat)
    requires c >= 1 && Contiguous(src.discover, state) && i < |Migrated(src, state, c, n).saves|
    ensures SavedAfter(src.discover, state, Migrated(src, state, c, n).saves[i])
    decreases n
  {
    var w := Discover(src, CursorOf(state), Min(c, n));
    var saves := Commits(src, state, w.entries);
    if !Continues(src, w.entries, w.exhausted) {
      SettledSavedAfter(src, state, Min(c, n), i);
    } else if i < |saves| {
      CommitSavedAfter(src, state, Min(c, n), i);
    } else {
      var next, m := Latest(state, saves), n - |w.entries|;
      LatestSavedAfter(src, state, Min(c, n));
      MigratedContinues(src, state, c, n, w, saves);
      RunSavesContiguously(src, next, c, m, i - |saves|);
    }
  }

  /** One start of the runner: what happens to the units this time, and how many saves a crash lets through. */
  datatype Start = Start(handle: Unit -> Handling, concurrency: nat, maxUnits: nat, kept: nat)

  function Restarted(d: Discovery, state: Option<State>, start: Start): Option<State>
    requires start.concurrency >= 1
  {
    var saves := Migrated(Source(d, start.handle), state, start.concurrency, start.maxUnits).saves;
    Latest(state, saves[..Min(start.kept, |saves|)])
  }

  function Durable(d: Discovery, starts: seq<Start>): Option<State>
    requires forall i | 0 <= i < |starts| :: starts[i].concurrency >= 1
  {
    if starts == [] then None else Restarted(d, Durable(d, starts[..|starts| - 1]), starts[|starts| - 1])
  }

  lemma RestartKeepsContiguous(d: Discovery, state: Option<State>, start: Start)
    requires start.concurrency >= 1 && Contiguous(d, state)
    ensures Contiguous(d, Restarted(d, state, start)) && ProcessedBy(state) <= ProcessedBy(Restarted(d, state, start))
  {
    var src := Source(d, start.handle);
    var saves := Migrated(src, state, start.concurrency, start.maxUnits).saves;
    var kept := Min(start.kept, |saves|);
    if kept > 0 {
      RunSavesContiguously(src, state, start.concurrency, start.maxUnits, kept - 1);
    }
  }

  /**
   After any number of starts, with any windows, any unit outcomes and a crash after any save, the durable
   state is a contiguous processed prefix of the source, and no start moves it back.
   */
  lemma {:induction false} DurableStateIsContiguous(d: Discovery, starts: seq<Start>)
    requires forall i | 0 <= i < |starts| :: starts[i].concurrency >= 1
    ensures Contiguous(d, Durable(d, starts))
    ensures starts != [] ==> ProcessedBy(Durable(d, starts[..|starts| - 1])) <= ProcessedBy(Durable(d, starts))
  {
    if starts != [] {
      DurableStateIsContiguous(d, starts[..|starts| - 1]);
      RestartKeepsContiguous(d, Durable(d, starts[..|starts| - 1]), starts[|starts| - 1]);
    }
  }

  // ---------------------------------------------------------------- the runner

  lemma CommitsFrom(src: Source, state: Option<State>, entries: seq<Entry>, i: nat)
    requires i < |entries| && ProcessUnit(src, entries[i].unit).Some?
    ensures var (fingerprint, ingested) := ProcessUnit(src, entries[i].unit).value;
      var s := Advanced(state, entries[i].unit.experienceId, fingerprint, entries[i].next, ingested);
      Commits(src, state, entries[i..]) == [s] + Commits(src, Some(s), entries[i + 1..])
  {
    assert entries[i..] == [entries[i]] + entries[i + 1..];
    CommitsCons(src, state, entries[i], entries[i + 1..]);
  }

  /** The window whose first entries are known. */
  function Behind(entries: seq<Entry>, w: Window): Window {
    match w case Broken(e) => Broken(e) case Found(more, exhausted) => Found(entries + more, exhausted)
  }

  lemma BehindTwice(entries: seq<Entry>, e: Entry, w: Window)
    ensures Behind(entries, Behind([e], w)) == Behind(entries + [e], w)
  {
    if w.Found? {
      assert entries + ([e] + w.entries) == entries + [e] + w.entries;
    }
  }

  lemma DiscoverNext(src: Source, cursor: Option<Cursor>, k: nat, e: Entry)
    requires k > 0 && src.discover(cursor).units != [] && PageError(cursor, src.discover(cursor)).None?
    requires e == Entry(src.discover(cursor).units[0], src.discover(cursor).next) && e.next.Some?
    ensures Discover(src, cursor, k) == Behind([e], Discover(src, e.next, k - 1))
  {
  }

  class Runner {
    const source: Source
    const owner: Owner
    /** The adapter declares full or partial historical import. */
    const supported: bool
    /** The state store: the state, whom it belongs to, and the adapter its checkpoint names. */
    var state: Option<State>
    var stateOwner: Owner
    var checkpointAdapter: Adapter
    /** Everything saved to it, in order. */
    ghost var saved: seq<State>

    constructor (source: Source, owner: Owner, supported: bool, state: Option<State>, stateOwner: Owner,
                 checkpointAdapter: Adapter)
      ensures this.source == source && this.owner == owner && this.supported == supported
      ensures this.state == state && this.stateOwner == stateOwner && this.checkpointAdapter == checkpointAdapter
      ensures saved == []
    {
      this.source, this.owner, this.supported := source, owner, supported;
      this.state, this.stateOwner, this.checkpointAdapter, saved := state, stateOwner, checkpointAdapter, [];
    }

    /** The stored state, if any, is one of this runner's. */
    predicate Ours()
      reads this
    {
      state.Some? ==> stateOwner == owner && checkpointAdapter == owner.adapter
    }

    method Save(s: State)
      modifies this
      ensures state == Some(s) && saved == old(saved) + [s] && Ours()
    {
      state, stateOwner, checkpointAdapter, saved := Some(s), owner, owner.adapter, saved + [s];
    }

    /** Discovery of one window, one unit a page. */
    method FillWindow(capacity: nat) returns (window: Window)
      ensures window == Discover(source, CursorOf(state), capacity)
    {
      var entries: seq<Entry>, cursor := [], CursorOf(state);
      var left: nat := capacity;
      while left > 0
        invariant left <= capacity
        invariant Discover(source, CursorOf(state), capacity) == Behind(entries, Discover(source, cursor, left))
      {
        var page := source.discover(cursor);
        var error := PageError(cursor, page);
        if error.Some? {
          return Broken(error.value);
        }
        if page.units == [] {
          return Found(entries, true);
        }
        var e := Entry(page.units[0], page.next);
        if page.next.None? {
          return Found(entries + [e], true);
        }
        DiscoverNext(source, cursor, left, e);
        BehindTwice(entries, e, Discover(source, page.next, left - 1));
        entries, cursor, left := entries + [e], page.next, left - 1;
      }
      window := Found(entries, false);
    }

    /** `done` was saved since `state0`, and what the entries from `i` on save completes `all`. */
    ghost predicate Committing(entries: seq<Entry>, i: nat, all: seq<State>, saved0: seq<State>, state0: Option<State>,
                               done: seq<State>)
      requires i <= |entries|
      reads this
    {
      && i == |done| && all == done + Commits(source, state, entries[i..])
      && saved == saved0 + done && state == Latest(state0, done)
    }

    method CommitOne(entries: seq<Entry>, i: nat, ghost all: seq<State>, ghost saved0: seq<State>,
                     ghost state0: Option<State>, ghost done: seq<State>)
      returns (ghost done': seq<State>)
      requires i < |entries| && ProcessUnit(source, entries[i].unit).Some?
      requires Committing(entries, i, all, saved0, state0, done)
      modifies this
      ensures Ours()
      ensures Committing(entries, i + 1, all, saved0, state0, done')
    {
      var (fingerprint, ingested) := ProcessUnit(source, entries[i].unit).value;
      CommitsFrom(source, state, entries, i);
      Save(Advanced(state, entries[i].unit.experienceId, fingerprint, entries[i].next, ingested));
      done' := done + [state.value];
    }

    /** Save the leading successes of a settled window. */
    method CommitWindow(entries: seq<Entry>) returns (committed: nat)
      requires Ours()
      modifies this
      ensures Ours()
      ensures committed == Successes(source, entries)
      ensures saved == old(saved) + Commits(source, old(state), entries)
      ensures state == Latest(old(state), Commits(source, old(state), entries))
    {
      committed := 0;
      ghost var done: seq<State>, all := [], Commits(source, state, entries);
      while committed < |entries| && ProcessUnit(source, entries[committed].unit).Some?
        invariant Ours() && committed <= |entries|
        invariant Committing(entries, committed, all, old(saved), old(state), done)
      {
        done := CommitOne(entries, committed, all, old(saved), old(state), done);
        committed := committed + 1;
      }
      assert Commits(source, state, entries[committed..]) == [];
    }

    /** The end of a run whose last window was discovered but does not continue. */
    method CommitAndSettle(window: Window) returns (ended: Option<End>, ghost saves: seq<State>)
      requires window.Found? && !Finished(state) && Ours()
      modifies this
      ensures Ours()
      ensures saved == old(saved) + saves && state == Latest(old(state), saves)
      ensures ended.None? <==> Continues(source, window.entries, window.exhausted)
      ensures ended.None? ==> saves == Commits(source, old(state), window.entries)
      ensures ended.Some? ==>
        RunResult(saves, ended.value) == Settled(source, old(state), window.entries, window.exhausted)
    {
      saves := Commits(source, state, window.entries);
      var committed := CommitWindow(window.entries);
      if committed < |window.entries| {
        return Some(UnitFailed(window.entries[committed].unit.experienceId)), saves;
      }
      if window.exhausted || window.entries == [] {
        if !Finished(state) {
          saves := saves + [Completed(state)];
          Save(Completed(state));
        }
        return Some(SourceExhausted), saves;
      }
      ended := None;
    }

    /** One turn of the loop: it ends the run, or leaves `left - used` units to the turns after it. */
    method RunWindow(concurrency: nat, left: nat)
      returns (ended: Option<End>, used: nat, ghost saves: seq<State>, ghost tail: RunResult)
      requires concurrency >= 1 && left > 0 && !Finished(state) && Ours()
      modifies this
      ensures Ours()
      ensures saved == old(saved) + saves && state == Latest(old(state), saves)
      ensures ended.Some? ==> Migrated(source, old(state), concurrency, left) == RunResult(saves, ended.value)
      ensures ended.None? ==> !Finished(state) && 1 <= used <= left
      ensures ended.None? ==> tail == Migrated(source, state, concurrency, left - used)
      ensures ended.None? ==> Migrated(source, old(state), concurrency, left) == Prepend(saves, tail)
    {
      used, saves, tail := 0, [], RunResult([], Bounded);
      var window := FillWindow(Min(concurrency, left));
      if window.Broken? {
        return Some(DiscoveryFailed(window.error)), used, saves, tail;
      }
      NotFinishedBefore(source, state, Min(concurrency, left));
      ghost var before := state;
      ended, saves := CommitAndSettle(window);
      used := |window.entries|;
      if ended.None? {
        MigratedContinues(source, before, concurrency, left, window, saves);
        tail := Migrated(source, Latest(before, saves), concurrency, left - used);
      }
    }

    /** `done` was saved since `state0`, and what the rest of the run saves and its end make up `whole`. */
    ghost predicate Resumes(whole: RunResult, saved0: seq<State>, state0: Option<State>, done: seq<State>,
                            concurrency: nat, left: nat)
      requires concurrency >= 1
      reads this
    {
      && whole == Prepend(done, Migrated(source, state, concurrency, left))
      && saved == saved0 + done && state == Latest(state0, done)
    }

    ghost predicate Ended(whole: RunResult, saved0: seq<State>, state0: Option<State>, end: End)
      reads this
    {
      saved == saved0 + whole.saves && state == Latest(state0, whole.saves) && whole.end == end
    }

    method Turn(concurrency: nat, left: nat, ghost whole: RunResult, ghost saved0: seq<State>,
                ghost state0: Option<State>, ghost done: seq<State>)
      returns (ended: Option<End>, left': nat, ghost done': seq<State>)
      requires concurrency >= 1 && left > 0 && !Finished(state) && Ours()
      requires Resumes(whole, saved0, state0, done, concurrency, left)
      modifies this
      ensures Ours()
      ensures ended.Some? ==> Ended(whole, saved0, state0, ended.value)
      ensures ended.None? ==>
        left' < left && !Finished(state) && Resumes(whole, saved0, state0, done', concurrency, left')
    {
      var used;
      ghost var saves, tail;
      ended, used, saves, tail := RunWindow(concurrency, left);
      PrependTwice(done, saves, tail);
      SavedTwice(saved0, state0, done, saves);
      done' := done + saves;
      left' := if ended.None? then left - used else left;
    }

    predicate InBounds(maxUnits: int, concurrency: int) {
      1 <= maxUnits <= MAX_UNITS && 1 <= concurrency <= MAX_CONCURRENCY
    }

    /** What stops a run before it looks at the source. */
    function Refusal(maxUnits: int, concurrency: int): Option<End>
      reads this
    {
      if !InBounds(maxUnits, concurrency) then Some(InvalidRequest)
      else if !supported then Some(ImportUnsupported)
      else if !Ours() then Some(IncompatibleState)
      else None
    }

    /**
     Windows until `maxUnits` are processed, a unit fails, or the source is exhausted. What a run leaves
     behind, the same runner accepts; the state of another owner is refused and left alone.
     */
    method Run(maxUnits: int, concurrency: int) returns (end: End)
      modifies this
      ensures old(Refusal(maxUnits, concurrency)).Some? ==> Some(end) == old(Refusal(maxUnits, concurrency))
      ensures old(Refusal(maxUnits, concurrency)).Some? ==>
        saved == old(saved) && state == old(state) && stateOwner == old(stateOwner)
        && checkpointAdapter == old(checkpointAdapter)
      ensures old(Refusal(maxUnits, concurrency)).None? ==>
        && var r := Migrated(source, old(state), concurrency, maxUnits);
        && end == r.end && saved == old(saved) + r.saves && state == Latest(old(state), r.saves)
        && Refusal(maxUnits, concurrency).None?
    {
      if !InBounds(maxUnits, concurrency) {
        return InvalidRequest;
      }
      if !supported {
        return ImportUnsupported;
      }
      if state.Some? && (stateOwner != owner || checkpointAdapter != stateOwner.adapter) {
        return IncompatibleState;
      }
      if Finished(state) {
        return SourceExhausted;
      }
      var left: nat := maxUnits;
      ghost var done: seq<State> := [];
      ghost var whole := Migrated(source, state, concurrency, maxUnits);
      while left > 0
        invariant !Finished(state) && Ours()
        invariant Resumes(whole, old(saved), old(state), done, concurrency, left)
      {
        var ended;
        ended, left, done := Turn(concurrency, left, whole, old(saved), old(state), done);
        if ended.Some? {
          return ended.value;
        }
      }
      end := Bounded;
    }
  }

  lemma SavedTwice(prior: seq<State>, state: Option<State>, done: seq<State>, saves: seq<State>)
    ensures prior + done + saves == prior + (done + saves)
    ensures Latest(Latest(state, done), saves) == Latest(state, done + saves)
  {
  }

  /** Inside a window only its last entry can complete the source. */
  lemma {:induction false} NotFinishedBefore(src: Source, state: Option<State>, k: nat)
    requires !Finished(state) && Discover(src, CursorOf(state), k).Found?
    ensures var w := Discover(src, CursorOf(state), k);
      Continues(src, w.entries, w.exhausted) ==> !Finished(Latest(state, Commits(src, state, w.entries)))
    decreases k
  {
    var page := src.discover(CursorOf(state));
    if k > 0 && page.units != [] && page.next.Some? && ProcessUnit(src, page.units[0]).Some? {
      var e := Entry(page.units[0], page.next);
      DiscoverNext(src, CursorOf(state), k, e);
      var rest := Discover(src, page.next, k - 1).entries;
      CommitsCons(src, state, e, rest);
      SuccessesCons(src, e, rest);
      var s := Commits(src, state, [e])[0];
      if rest != [] {
        NotFinishedBefore(src, Some(s), k - 1);
      }
    }
  }
}
