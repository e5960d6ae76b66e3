/**
 Read federation: verified items of the primary scope and of read-only historical mounts are merged;
 whatever the primary scope holds under a semantic key shadows the mounted items with that key.
 */
module RetrievalView {
  import opened Prelude
  import opened CanonicalStore
  import opened CanonicalVerifier
  import opened VerifiedRetrieval

  /** One verified list: the scope it was asked for, the scope it says it answers, and its content. */
  datatype Listing = Listing(scope: Scope, answered: Scope, result: Retrieved)

  /** The primary store and verifier may answer every call differently; calls are numbered. */
  datatype World = World(ask: (nat, string) -> Option<Revision>, verify: (nat, Revision) -> Verdict)

  /** A remembered answer and the number of the call that gave it. */
  datatype Answer = Answer(call: nat, held: Option<Revision>)

  datatype View = View(
    output: seq<Item>, seen: set<MemoryId>, received: nat, unique: nat, suppressed: int, counts: multiset<Suppression>,
    lookups: map<string, Answer>, asked: nat, verified: nat,
    overrides: nat, primarySuppressions: nat, mountedAllowed: nat)

  datatype ViewResult = ViewResult(result: Retrieved, overrides: nat, primarySuppressions: nat, mountedAllowed: nat)

  predicate Contained(l: Listing) {
    l.answered == l.scope && forall i | 0 <= i < |l.result.items| :: l.result.items[i].revision.scope == l.scope
  }

  predicate AllContained(listings: seq<Listing>) {
    forall i | 0 <= i < |listings| :: Contained(listings[i])
  }

  // ---------------------------------------------------------------- the steps of the merge

  function Suppressing(v: View, key: Suppression): View {
    v.(suppressed := v.suppressed + 1, counts := Increment(v.counts, key, 1))
  }

  function Showing(v: View, item: Item): View {
    v.(output := v.output + [item], seen := v.seen + {item.memoryId})
  }

  /** The counts a list brings with it. */
  function Counting(v: View, r: Retrieved): View {
    v.(received := v.received + r.received, unique := v.unique + r.unique, suppressed := v.suppressed + r.suppressed,
       counts := v.counts + r.counts)
  }

  function AddingPrimary(v: View, item: Item): View {
    if item.memoryId in v.seen then Suppressing(v, ViewDuplicate) else Showing(v, item)
  }

  /** What the primary scope holds under the key, asking the store at most once per key. */
  function Holder(v: View, byKey: map<string, Revision>, w: World, key: string): Option<Revision> {
    if key in byKey then Some(byKey[key])
    else if key in v.lookups then v.lookups[key].held
    else w.ask(v.asked, key)
  }

  function Remembering(v: View, byKey: map<string, Revision>, w: World, key: string): View {
    if key in byKey || key in v.lookups then v
    else v.(lookups := v.lookups[key := Answer(v.asked, w.ask(v.asked, key))], asked := v.asked + 1)
  }

  function ShadowItem(r: Revision, mount: nat, historical: Item): Item {
    Item(r.memoryId, r.revision, r, historical.rank, Shadowing(mount, historical.memoryId))
  }

  /** The primary scope holds the key: its verified revision takes the place of the mounted item. */
  function Overriding(v: View, w: World, held: Revision, mount: nat, historical: Item): View {
    var t := v.(verified := v.verified + 1);
    match w.verify(v.verified, held)
    case Suppress(_) => Suppressing(t, ViewPrimarySuppression).(primarySuppressions := t.primarySuppressions + 1)
    case Allow(r) =>
      var u := t.(overrides := t.overrides + 1);
      if r.memoryId in u.seen then Suppressing(u, ViewPrimaryOverride) else Showing(u, ShadowItem(r, mount, historical))
  }

  function AddingMounted(v: View, byKey: map<string, Revision>, w: World, mount: nat, historical: Item): View {
    var key := historical.revision.body.identity.semanticKey;
    var u := Remembering(v, byKey, w, key);
    match Holder(v, byKey, w, key)
    case Some(held) => Overriding(u, w, held, mount, historical)
    case None =>
      if historical.memoryId in u.seen then Suppressing(u, ViewDuplicate)
      else Showing(u, historical).(mountedAllowed := u.mountedAllowed + 1)
  }

  // ---------------------------------------------------------------- the merge

  function Beginning(primary: Retrieved): View {
    View([], {}, primary.received, primary.unique, primary.suppressed, primary.counts, map[], 0, 0, 0, 0, 0)
  }

  function PrimaryView(primary: Retrieved, n: nat): View
    requires n <= |primary.items|
  {
    if n == 0 then Beginning(primary)
    else AddingPrimary(PrimaryView(primary, n - 1), primary.items[n - 1])
  }

  /** The keys of the primary list; the last item with a key wins. */
  function ByKey(items: seq<Item>, n: nat): map<string, Revision>
    requires n <= |items|
  {
    if n == 0 then map[]
    else ByKey(items, n - 1)[items[n - 1].revision.body.identity.semanticKey := items[n - 1].revision]
  }

  function MountView(v: View, byKey: map<string, Revision>, w: World, mount: nat, r: Retrieved, n: nat): View
    requires n <= |r.items|
  {
    if n == 0 then Counting(v, r)
    else AddingMounted(MountView(v, byKey, w, mount, r, n - 1), byKey, w, mount, r.items[n - 1])
  }

  function MountsView(v: View, byKey: map<string, Revision>, mounts: seq<Listing>, w: World, m: nat): View
    requires m <= |mounts|
  {
    if m == 0 then v
    else
      var r := mounts[m - 1].result;
      MountView(MountsView(v, byKey, mounts, w, m - 1), byKey, w, m - 1, r, |r.items|)
  }

  function MergedView(primary: Retrieved, mounts: seq<Listing>, w: World): View {
    MountsView(PrimaryView(primary, |primary.items|), ByKey(primary.items, |primary.items|), mounts, w, |mounts|)
  }

  // ---------------------------------------------------------------- induction over the merge

  lemma MountViewStep(v: View, before: View, after: View, byKey: map<string, Revision>, w: World, mount: nat,
                      r: Retrieved, n: nat)
    requires n < |r.items| && before == MountView(v, byKey, w, mount, r, n)
    requires after == AddingMounted(before, byKey, w, mount, r.items[n])
    ensures after == MountView(v, byKey, w, mount, r, n + 1)
  {
  }

  ghost predicate KeptByItems(keeps: View -> bool, byKey: map<string, Revision>, w: World, mount: nat, r: Retrieved) {
    forall u: View, x: nat | keeps(u) && x < |r.items| :: keeps(AddingMounted(u, byKey, w, mount, r.items[x]))
  }

  ghost predicate KeptByMounts(keeps: View -> bool, byKey: map<string, Revision>, mounts: seq<Listing>, w: World) {
    forall u: View, x: nat | keeps(u) && x < |mounts| ::
      keeps(MountView(u, byKey, w, x, mounts[x].result, |mounts[x].result.items|))
  }

  lemma NoItemsView(v: View, byKey: map<string, Revision>, w: World, mount: nat, r: Retrieved) returns (u: View)
    ensures u == Counting(v, r) == MountView(v, byKey, w, mount, r, 0)
  {
    u := Counting(v, r);
  }

  lemma NextItemView(keeps: View -> bool, v: View, before: View, byKey: map<string, Revision>, w: World, mount: nat,
                     r: Retrieved, n: nat) returns (u: View)
    requires KeptByItems(keeps, byKey, w, mount, r) && keeps(before)
    requires n < |r.items| && before == MountView(v, byKey, w, mount, r, n)
    ensures u == MountView(v, byKey, w, mount, r, n + 1) && keeps(u)
  {
    u := AddingMounted(before, byKey, w, mount, r.items[n]);
    MountViewStep(v, before, u, byKey, w, mount, r, n);
  }

  /** Whatever every mounted item keeps, a whole mount keeps. */
  lemma MountInduction(keeps: View -> bool, v: View, byKey: map<string, Revision>, w: World, mount: nat, r: Retrieved)
    returns (u: View)
    requires keeps(Counting(v, r)) && KeptByItems(keeps, byKey, w, mount, r)
    ensures u == MountView(v, byKey, w, mount, r, |r.items|) && keeps(u)
  {
    u := NoItemsView(v, byKey, w, mount, r);
    for n := 0 to |r.items|
      invariant u == MountView(v, byKey, w, mount, r, n) && keeps(u)
    {
      u := NextItemView(keeps, v, u, byKey, w, mount, r, n);
    }
  }

  /** Whatever every mount keeps, the merge keeps. */
  lemma {:induction false} MountsInduction(keeps: View -> bool, v: View, byKey: map<string, Revision>,
                                           mounts: seq<Listing>, w: World, m: nat)
    requires keeps(v) && m <= |mounts| && KeptByMounts(keeps, byKey, mounts, w)
    ensures keeps(MountsView(v, byKey, mounts, w, m))
  {
    if m > 0 {
      MountsInduction(keeps, v, byKey, mounts, w, m - 1);
    }
  }

  // ---------------------------------------------------------------- rank fusion

  /** Item `i` of the output goes before item `j`: by provider rank, ties in output order. */
  predicate Before(output: seq<Item>, i: nat, j: nat)
    requires i < |output| && j < |output|
  {
    output[i].rank < output[j].rank || (output[i].rank == output[j].rank && i < j)
  }

  predicate Positions(output: seq<Item>, order: seq<nat>, n: nat) {
    n <= |output| && forall a | 0 <= a < |order| :: order[a] < n
  }

  function Insert(output: seq<Item>, order: seq<nat>, i: nat): (r: seq<nat>)
    requires i < |output| && Positions(output, order, i)
    ensures |r| == |order| + 1 && Positions(output, r, i + 1)
  {
    if order == [] || output[order[|order| - 1]].rank <= output[i].rank then order + [i]
    else Insert(output, order[..|order| - 1], i) + [order[|order| - 1]]
  }

  /** The stable order of the first `n` items by rank. */
  function Order(output: seq<Item>, n: nat): (r: seq<nat>)
    requires n <= |output|
    ensures |r| == n && Positions(output, r, n)
  {
    if n == 0 then [] else Insert(output, Order(output, n - 1), n - 1)
  }

  function TopK(output: seq<Item>, topK: nat): (r: seq<Item>)
    ensures |r| == Min(topK, |output|)
  {
    var order := Order(output, |output|);
    seq(Min(topK, |output|), a requires 0 <= a < Min(topK, |output|) => output[order[a]])
  }

  ghost predicate Ordered(output: seq<Item>, order: seq<nat>) {
    && (forall a | 0 <= a < |order| :: order[a] < |output|)
    && forall a, b | 0 <= a < b < |order| :: Before(output, order[a], order[b])
  }

  ghost predicate Covers(order: seq<nat>, n: nat) {
    forall i: nat | i < n :: i in order
  }

  lemma {:induction false} InsertKeepsOrder(output: seq<Item>, order: seq<nat>, i: nat)
    requires i < |output| && Positions(output, order, i) && Ordered(output, order)
    ensures Ordered(output, Insert(output, order, i))
    ensures forall x :: x in Insert(output, order, i) <==> x in order || x == i
  {
    if order != [] && output[order[|order| - 1]].rank > output[i].rank {
      var front, last := order[..|order| - 1], order[|order| - 1];
      InsertKeepsOrder(output, front, i);
      var r := Insert(output, front, i);
      forall a | 0 <= a < |r| ensures Before(output, r[a], last) {
        assert r[a] in r;
        if r[a] != i {
          var b :| 0 <= b < |front| && front[b] == r[a];
          assert Before(output, order[b], order[|order| - 1]);
        }
      }
      assert order == front + [last];
    } else if order != [] {
      forall a | 0 <= a < |order| ensures Before(output, order[a], i) {
        assert a < |order| - 1 ==> Before(output, order[a], order[|order| - 1]);
      }
    }
  }

  /** The order is the stable sort: every position once, by rank and then by position. */
  lemma {:induction false} OrderIsStableSort(output: seq<Item>, n: nat)
    requires n <= |output|
    ensures Ordered(output, Order(output, n)) && Covers(Order(output, n), n)
  {
    if n > 0 {
      OrderIsStableSort(output, n - 1);
      InsertKeepsOrder(output, Order(output, n - 1), n - 1);
    }
  }

  function Finishing(v: View, topK: nat): ViewResult {
    var items := TopK(v.output, topK);
    var truncated := |v.output| - |items|;
    ViewResult(Retrieved(items, v.received, v.unique, v.suppressed + truncated,
                         Increment(v.counts, ViewTopK, truncated)),
      v.overrides, v.primarySuppressions, v.mountedAllowed)
  }

  /** The whole retrieval, from the verified lists of the primary scope and of the mounts. */
  function Federating(primary: Listing, mounts: seq<Listing>, w: World, topK: nat): Result<ViewResult, RetrievalError> {
    if Contained(primary) && AllContained(mounts) then Success(Finishing(MergedView(primary.result, mounts, w), topK))
    else Failure(EscapedScope)
  }

  // ---------------------------------------------------------------- what the merge keeps

  /** Everything received is shown, counted as suppressed, or still to come. */
  ghost predicate Balanced(v: View, pending: nat) {
    v.received == |v.output| + v.suppressed + pending && v.suppressed == |v.counts|
  }

  ghost predicate IdsSeen(v: View) {
    DistinctIds(v.output) && forall i | 0 <= i < |v.output| :: v.output[i].memoryId in v.seen
  }

  /**
   A mounted item is shown only if the primary list lacks its key and the primary store answered that nothing
   holds it.
   */
  predicate Unshadowed(lookups: map<string, Answer>, byKey: map<string, Revision>, scope: Scope, item: Item) {
    var key := item.revision.body.identity.semanticKey;
    item.evidence.FromProvider? && item.revision.scope != scope ==>
      key !in byKey && key in lookups && lookups[key].held.None?
  }

  ghost predicate AllUnshadowed(v: View, byKey: map<string, Revision>, scope: Scope) {
    forall i | 0 <= i < |v.output| :: Unshadowed(v.lookups, byKey, scope, v.output[i])
  }

  /** Every remembered answer was given by the store, in a call that was made. */
  ghost predicate AllAnswered(v: View, w: World) {
    forall key | key in v.lookups ::
      v.lookups[key].call < v.asked && v.lookups[key].held == w.ask(v.lookups[key].call, key)
  }

  ghost predicate Federated(v: View, byKey: map<string, Revision>, scope: Scope, w: World, pending: nat) {
    Balanced(v, pending) && IdsSeen(v) && AllUnshadowed(v, byKey, scope) && AllAnswered(v, w)
  }

  lemma SuppressingKeeps(v: View, key: Suppression, byKey: map<string, Revision>, scope: Scope, w: World, pending: nat)
    requires pending > 0 && Federated(v, byKey, scope, w, pending)
    ensures Federated(Suppressing(v, key), byKey, scope, w, pending - 1)
  {
  }

  lemma ShowingKeeps(v: View, item: Item, byKey: map<string, Revision>, scope: Scope, w: World, pending: nat)
    requires pending > 0 && Federated(v, byKey, scope, w, pending)
    requires item.memoryId !in v.seen && Unshadowed(v.lookups, byKey, scope, item)
    ensures Federated(Showing(v, item), byKey, scope, w, pending - 1)
  {
  }

  lemma RememberingKeeps(v: View, byKey: map<string, Revision>, scope: Scope, w: World, key: string, pending: nat)
    requires Federated(v, byKey, scope, w, pending)
    ensures Federated(Remembering(v, byKey, w, key), byKey, scope, w, pending)
    ensures var u := Remembering(v, byKey, w, key); key !in byKey ==>
      key in u.lookups && u.lookups[key].held == Holder(v, byKey, w, key)
  {
  }

  lemma OverridingKeeps(v: View, w: World, held: Revision, mount: nat, historical: Item, byKey: map<string, Revision>,
                        scope: Scope, pending: nat)
    requires pending > 0 && Federated(v, byKey, scope, w, pending)
    ensures Federated(Overriding(v, w, held, mount, historical), byKey, scope, w, pending - 1)
  {
    var t := v.(verified := v.verified + 1);
    match w.verify(v.verified, held)
    case Suppress(_) =>
      SuppressingKeeps(t, ViewPrimarySuppression, byKey, scope, w, pending);
    case Allow(r) =>
      var u := t.(overrides := t.overrides + 1);
      if r.memoryId in u.seen {
        SuppressingKeeps(u, ViewPrimaryOverride, byKey, scope, w, pending);
      } else {
        ShowingKeeps(u, ShadowItem(r, mount, historical), byKey, scope, w, pending);
      }
  }

  lemma AddingMountedKeeps(v: View, byKey: map<string, Revision>, w: World, mount: nat, historical: Item, scope: Scope,
                           pending: nat)
    requires pending > 0 && Federated(v, byKey, scope, w, pending)
    ensures Federated(AddingMounted(v, byKey, w, mount, historical), byKey, scope, w, pending - 1)
  {
    var key := historical.revision.body.identity.semanticKey;
    var u := Remembering(v, byKey, w, key);
    RememberingKeeps(v, byKey, scope, w, key, pending);
    match Holder(v, byKey, w, key)
    case Some(held) =>
      OverridingKeeps(u, w, held, mount, historical, byKey, scope, pending);
    case None =>
      if historical.memoryId in u.seen {
        SuppressingKeeps(u, ViewDuplicate, byKey, scope, w, pending);
      } else {
        ShowingKeeps(u, historical, byKey, scope, w, pending);
      }
  }

  lemma {:induction false} PrimaryKeeps(primary: Listing, n: nat, byKey: map<string, Revision>, w: World)
    requires Contained(primary) && Conserves(primary.result) && n <= |primary.result.items|
    ensures Federated(PrimaryView(primary.result, n), byKey, primary.scope, w, |primary.result.items| - n)
  {
    if n > 0 {
      PrimaryKeeps(primary, n - 1, byKey, w);
      var v, item, pending :=
        PrimaryView(primary.result, n - 1), primary.result.items[n - 1], |primary.result.items| - (n - 1);
      if item.memoryId in v.seen {
        SuppressingKeeps(v, ViewDuplicate, byKey, primary.scope, w, pending);
      } else {
        ShowingKeeps(v, item, byKey, primary.scope, w, pending);
      }
    }
  }

  lemma CountingKeeps(v: View, r: Retrieved, byKey: map<string, Revision>, scope: Scope, w: World)
    requires Federated(v, byKey, scope, w, 0) && Conserves(r)
    ensures Federated(Counting(v, r), byKey, scope, w, |r.items|)
  {
  }

  lemma {:induction false} MountKeeps(v: View, byKey: map<string, Revision>, w: World, mount: nat, r: Retrieved, n: nat,
                                      scope: Scope)
    requires Federated(v, byKey, scope, w, 0) && Conserves(r) && n <= |r.items|
    ensures Federated(MountView(v, byKey, w, mount, r, n), byKey, scope, w, |r.items| - n)
  {
    if n == 0 {
      CountingKeeps(v, r, byKey, scope, w);
    } else {
      MountKeeps(v, byKey, w, mount, r, n - 1, scope);
      AddingMountedKeeps(MountView(v, byKey, w, mount, r, n - 1), byKey, w, mount, r.items[n - 1], scope,
                         |r.items| - (n - 1));
    }
  }

  ghost predicate AllConserve(listings: seq<Listing>) {
    forall i | 0 <= i < |listings| :: Conserves(listings[i].result)
  }

  lemma MountsKeep(v: View, byKey: map<string, Revision>, mounts: seq<Listing>, w: World, scope: Scope)
    requires Federated(v, byKey, scope, w, 0) && AllConserve(mounts)
    ensures Federated(MountsView(v, byKey, mounts, w, |mounts|), byKey, scope, w, 0)
  {
    forall u: View, x: nat | Federated(u, byKey, scope, w, 0) && x < |mounts|
      ensures Federated(MountView(u, byKey, w, x, mounts[x].result, |mounts[x].result.items|), byKey, scope, w, 0)
    {
      MountKeeps(u, byKey, w, x, mounts[x].result, |mounts[x].result.items|, scope);
    }
    MountsInduction(u => Federated(u, byKey, scope, w, 0), v, byKey, mounts, w, |mounts|);
  }

  lemma MergeKeeps(primary: Listing, mounts: seq<Listing>, w: World)
    requires Contained(primary) && Conserves(primary.result) && AllConserve(mounts)
    ensures var items := primary.result.items;
      Federated(MergedView(primary.result, mounts, w), ByKey(items, |items|), primary.scope, w, 0)
  {
    var items := primary.result.items;
    var byKey := ByKey(items, |items|);
    PrimaryKeeps(primary, |items|, byKey, w);
    MountsKeep(PrimaryView(primary.result, |items|), byKey, mounts, w, primary.scope);
  }

  lemma {:induction false} KeysOfItems(items: seq<Item>, n: nat, i: nat)
    requires i < n <= |items|
    ensures items[i].revision.body.identity.semanticKey in ByKey(items, n)
  {
    if i < n - 1 {
      KeysOfItems(items, n - 1, i);
    }
  }

  /** The first `topK` of the output in the stable order by provider rank. */
  ghost predicate BestByRank(output: seq<Item>, items: seq<Item>, topK: nat) {
    exists order: seq<nat> ::
      && Ordered(output, order) && |order| == |output| && Covers(order, |output|)
      && |items| == Min(topK, |output|) && forall a | 0 <= a < |items| :: items[a] == output[order[a]]
  }

  /**
   A mounted item is shown only if the primary list lacks its key and one of the calls answered that nothing
   holds it.
   */
  ghost predicate ShadowedByPrimary(primary: Listing, w: World, asked: nat, item: Item) {
    var key := item.revision.body.identity.semanticKey;
    item.evidence.FromProvider? && item.revision.scope != primary.scope ==>
      && (forall i | 0 <= i < |primary.result.items| ::
            primary.result.items[i].revision.body.identity.semanticKey != key)
      && exists n: nat :: n < asked && w.ask(n, key).None?
  }

  lemma ShownIsUnshadowed(primary: Listing, mounts: seq<Listing>, w: World, i: nat)
    requires Contained(primary) && Conserves(primary.result) && AllConserve(mounts)
    requires i < |MergedView(primary.result, mounts, w).output|
    ensures var v := MergedView(primary.result, mounts, w); ShadowedByPrimary(primary, w, v.asked, v.output[i])
  {
    MergeKeeps(primary, mounts, w);
    var v, items := MergedView(primary.result, mounts, w), primary.result.items;
    var item := v.output[i];
    assert Unshadowed(v.lookups, ByKey(items, |items|), primary.scope, item);
    if item.evidence.FromProvider? && item.revision.scope != primary.scope {
      var key := item.revision.body.identity.semanticKey;
      forall j | 0 <= j < |items| ensures items[j].revision.body.identity.semanticKey != key {
        KeysOfItems(items, |items|, j);
      }
      assert v.lookups[key].call < v.asked && w.ask(v.lookups[key].call, key).None?;
    }
  }

  lemma TopKIsBest(output: seq<Item>, topK: nat)
    ensures BestByRank(output, TopK(output, topK), topK)
  {
    OrderIsStableSort(output, |output|);
    var order := Order(output, |output|);
    assert Ordered(output, order) && Covers(order, |output|);
  }

  lemma BestKeepsDistinct(output: seq<Item>, items: seq<Item>, topK: nat)
    requires BestByRank(output, items, topK) && DistinctIds(output)
    ensures DistinctIds(items)
    ensures forall a | 0 <= a < |items| :: items[a] in output
  {
    var order: seq<nat> :| && Ordered(output, order) && |order| == |output| && Covers(order, |output|)
      && |items| == Min(topK, |output|) && forall a | 0 <= a < |items| :: items[a] == output[order[a]];
    forall a, b | 0 <= a < b < |items| ensures items[a].memoryId != items[b].memoryId {
      assert Before(output, order[a], order[b]);
    }
  }

  /**
   Federation conserves counts, never repeats a memory, never shows a mounted item whose key the primary
   scope holds, and keeps exactly the topK of the merged output by stable provider rank.
   */
  lemma FederationConservesAndShadows(primary: Listing, mounts: seq<Listing>, w: World, topK: nat)
    requires Contained(primary) && AllContained(mounts) && Conserves(primary.result) && AllConserve(mounts)
    ensures Federating(primary, mounts, w, topK).Success?
    ensures var r := Federating(primary, mounts, w, topK).value.result;
      && Conserves(r) && DistinctIds(r.items)
      && (forall i | 0 <= i < |r.items| ::
            ShadowedByPrimary(primary, w, MergedView(primary.result, mounts, w).asked, r.items[i]))
      && BestByRank(MergedView(primary.result, mounts, w).output, r.items, topK)
  {
    var v := MergedView(primary.result, mounts, w);
    MergeKeeps(primary, mounts, w);
    var items := TopK(v.output, topK);
    TopKIsBest(v.output, topK);
    BestKeepsDistinct(v.output, items, topK);
    forall i | 0 <= i < |items| ensures ShadowedByPrimary(primary, w, v.asked, items[i]) {
      assert items[i] in v.output;
      var j :| 0 <= j < |v.output| && v.output[j] == items[i];
      ShownIsUnshadowed(primary, mounts, w, j);
    }
  }

  // ---------------------------------------------------------------- nothing else is dropped

  /** Ids seen are shown, and what was seen or answered before still is. */
  ghost predicate SeenAreShown(v: View) {
    forall m | m in v.seen :: ShowsId(v.output, m)
  }

  /** The item's memory is shown, or the primary scope was found to hold its key. */
  predicate AccountedFor(v: View, byKey: map<string, Revision>, item: Item) {
    var key := item.revision.body.identity.semanticKey;
    item.memoryId in v.seen || key in byKey || (key in v.lookups && v.lookups[key].held.Some?)
  }

  ghost predicate StillSeen(v: View, v': View) {
    v.seen <= v'.seen && forall key | key in v.lookups :: key in v'.lookups && v'.lookups[key] == v.lookups[key]
  }

  lemma ShowingShows(v: View, item: Item)
    requires SeenAreShown(v)
    ensures SeenAreShown(Showing(v, item))
  {
    var u := Showing(v, item);
    forall m | m in u.seen ensures ShowsId(u.output, m) {
      if m == item.memoryId {
        assert u.output[|v.output|].memoryId == m;
      } else {
        assert ShowsId(v.output, m);
        var i :| 0 <= i < |v.output| && v.output[i].memoryId == m;
        assert u.output[i].memoryId == m;
      }
    }
  }

  lemma AddingPrimaryAccounts(v: View, item: Item)
    requires SeenAreShown(v)
    ensures var u := AddingPrimary(v, item); SeenAreShown(u) && StillSeen(v, u) && item.memoryId in u.seen
  {
    ShowingShows(v, item);
  }

  lemma AddingMountedAccounts(v: View, byKey: map<string, Revision>, w: World, mount: nat, historical: Item)
    returns (u: View)
    requires SeenAreShown(v)
    ensures u == AddingMounted(v, byKey, w, mount, historical)
    ensures SeenAreShown(u) && StillSeen(v, u) && AccountedFor(u, byKey, historical)
  {
    var key := historical.revision.body.identity.semanticKey;
    var t := Remembering(v, byKey, w, key);
    u := AddingMounted(v, byKey, w, mount, historical);
    match Holder(v, byKey, w, key)
    case None =>
      ShowingShows(t, historical);
    case Some(held) =>
      match w.verify(t.verified, held)
      case Suppress(_) =>
      case Allow(r) => ShowingShows(t.(verified := t.verified + 1, overrides := t.overrides + 1),
                                    ShadowItem(r, mount, historical));
  }

  lemma StillSeenTrans(u: View, v: View, w: View)
    requires StillSeen(u, v) && StillSeen(v, w)
    ensures StillSeen(u, w)
  {
  }

  lemma StaysAccountedFor(v: View, u: View, byKey: map<string, Revision>, item: Item)
    requires StillSeen(v, u) && AccountedFor(v, byKey, item)
    ensures AccountedFor(u, byKey, item)
  {
  }

  lemma {:induction false} PrimaryAccounts(primary: Retrieved, n: nat, i: nat)
    requires n <= |primary.items|
    ensures SeenAreShown(PrimaryView(primary, n))
    ensures i < n ==> primary.items[i].memoryId in PrimaryView(primary, n).seen
  {
    if n > 0 {
      PrimaryAccounts(primary, n - 1, i);
      AddingPrimaryAccounts(PrimaryView(primary, n - 1), primary.items[n - 1]);
    }
  }

  lemma CountingAccounts(v: View, byKey: map<string, Revision>, w: World, mount: nat, r: Retrieved) returns (u: View)
    requires SeenAreShown(v)
    ensures u == MountView(v, byKey, w, mount, r, 0) && SeenAreShown(u) && StillSeen(v, u)
  {
    u := Counting(v, r);
  }

  lemma NextMountedAccounts(v: View, before: View, byKey: map<string, Revision>, w: World, mount: nat, r: Retrieved,
                            n: nat)
    returns (u: View)
    requires n < |r.items| && before == MountView(v, byKey, w, mount, r, n) && SeenAreShown(before)
    ensures u == MountView(v, byKey, w, mount, r, n + 1)
    ensures SeenAreShown(u) && StillSeen(before, u) && AccountedFor(u, byKey, r.items[n])
  {
    u := AddingMountedAccounts(before, byKey, w, mount, r.items[n]);
    MountViewStep(v, before, u, byKey, w, mount, r, n);
  }

  lemma {:induction false} MountExtends(v: View, byKey: map<string, Revision>, w: World, mount: nat, r: Retrieved,
                                        n: nat)
    returns (u: View)
    requires SeenAreShown(v) && n <= |r.items|
    ensures u == MountView(v, byKey, w, mount, r, n) && SeenAreShown(u) && StillSeen(v, u)
  {
    if n == 0 {
      u := CountingAccounts(v, byKey, w, mount, r);
    } else {
      var before := MountExtends(v, byKey, w, mount, r, n - 1);
      u := NextMountedAccounts(v, before, byKey, w, mount, r, n - 1);
      StillSeenTrans(v, before, u);
    }
  }

  lemma {:induction false} MountAccounts(v: View, byKey: map<string, Revision>, w: World, mount: nat, r: Retrieved,
                                         n: nat, i: nat)
    returns (u: View)
    requires SeenAreShown(v) && i < n <= |r.items|
    ensures u == MountView(v, byKey, w, mount, r, n) && AccountedFor(u, byKey, r.items[i])
  {
    var before := MountExtends(v, byKey, w, mount, r, n - 1);
    u := NextMountedAccounts(v, before, byKey, w, mount, r, n - 1);
    if i < n - 1 {
      var same := MountAccounts(v, byKey, w, mount, r, n - 1, i);
      StaysAccountedFor(before, u, byKey, r.items[i]);
    }
  }

  lemma NextMountAccounts(v: View, before: View, byKey: map<string, Revision>, mounts: seq<Listing>, w: World, n: nat,
                          i: nat)
    returns (u: View)
    requires n < |mounts| && before == MountsView(v, byKey, mounts, w, n) && SeenAreShown(before)
    ensures u == MountsView(v, byKey, mounts, w, n + 1) && SeenAreShown(u) && StillSeen(before, u)
    ensures i < |mounts[n].result.items| ==> AccountedFor(u, byKey, mounts[n].result.items[i])
  {
    u := MountExtends(before, byKey, w, n, mounts[n].result, |mounts[n].result.items|);
    if i < |mounts[n].result.items| {
      var same := MountAccounts(before, byKey, w, n, mounts[n].result, |mounts[n].result.items|, i);
    }
  }

  lemma {:induction false} MountsAccount(v: View, byKey: map<string, Revision>, mounts: seq<Listing>, w: World, n: nat,
                                         m: nat, i: nat)
    returns (u: View)
    requires SeenAreShown(v) && n <= |mounts|
    ensures u == MountsView(v, byKey, mounts, w, n) && SeenAreShown(u) && StillSeen(v, u)
    ensures m < n && i < |mounts[m].result.items| ==> AccountedFor(u, byKey, mounts[m].result.items[i])
  {
    if n == 0 {
      u := v;
    } else {
      var before := MountsAccount(v, byKey, mounts, w, n - 1, m, i);
      u := NextMountAccounts(v, before, byKey, mounts, w, n - 1, i);
      StillSeenTrans(v, before, u);
      if m < n - 1 && i < |mounts[m].result.items| {
        StaysAccountedFor(before, u, byKey, mounts[m].result.items[i]);
      }
    }
  }

  /**
   Before the cut to topK nothing is lost: every primary memory is shown, and every mounted memory is shown
   unless the primary list holds its key or the primary store answered that something does.
   */
  lemma EveryItemIsAccountedFor(primary: Retrieved, mounts: seq<Listing>, w: World, m: nat, i: nat)
    ensures var v := MergedView(primary, mounts, w);
      && (i < |primary.items| ==> ShowsId(v.output, primary.items[i].memoryId))
      && (m < |mounts| && i < |mounts[m].result.items| ==>
            var item := mounts[m].result.items[i];
            var key := item.revision.body.identity.semanticKey;
            || ShowsId(v.output, item.memoryId)
            || (exists j :: 0 <= j < |primary.items| && primary.items[j].revision.body.identity.semanticKey == key)
            || (key in v.lookups && v.lookups[key].held.Some?))
  {
    var n := |primary.items|;
    PrimaryAccounts(primary, n, i);
    var v := MountsAccount(PrimaryView(primary, n), ByKey(primary.items, n), mounts, w, |mounts|, m, i);
    if m < |mounts| && i < |mounts[m].result.items| {
      KeyIsOfSomeItem(primary.items, n, mounts[m].result.items[i].revision.body.identity.semanticKey);
    }
  }

  lemma {:induction false} KeyIsOfSomeItem(items: seq<Item>, n: nat, key: string)
    requires n <= |items|
    ensures key in ByKey(items, n) ==> exists j :: 0 <= j < n && items[j].revision.body.identity.semanticKey == key
  {
    if n > 0 {
      KeyIsOfSomeItem(items, n - 1, key);
      if items[n - 1].revision.body.identity.semanticKey == key {
        assert 0 <= n - 1 < n;
      }
    }
  }

  // ---------------------------------------------------------------- the service

  class FederatedReader {
    const world: World
    var output: seq<Item>
    var seenMemoryIds: set<MemoryId>
    var receivedCandidates: nat
    var uniqueCandidates: nat
    var suppressed: int
    var suppressionCounts: multiset<Suppression>
    var semanticLookup: map<string, Answer>
    var asked: nat
    var verified: nat
    var primaryOverrides: nat
    var primarySuppressions: nat
    var mountedAllowed: nat

    constructor (world: World)
      ensures this.world == world
    {
      this.world := world;
    }

    function State(): View
      reads this
    {
      View(output, seenMemoryIds, receivedCandidates, uniqueCandidates, suppressed, suppressionCounts, semanticLookup,
        asked, verified, primaryOverrides, primarySuppressions, mountedAllowed)
    }

    method Suppress(key: Suppression)
      modifies this
      ensures State() == Suppressing(old(State()), key)
    {
      suppressionCounts := Increment(suppressionCounts, key, 1);
      suppressed := suppressed + 1;
    }

    method Show(item: Item)
      modifies this
      ensures State() == Showing(old(State()), item)
    {
      seenMemoryIds := seenMemoryIds + {item.memoryId};
      output := output + [item];
    }

    method CountIn(r: Retrieved)
      modifies this
      ensures State() == Counting(old(State()), r)
    {
      receivedCandidates := receivedCandidates + r.received;
      uniqueCandidates := uniqueCandidates + r.unique;
      suppressed := suppressed + r.suppressed;
      suppressionCounts := suppressionCounts + r.counts;
    }

    method Start(primary: Retrieved)
      modifies this
      ensures State() == Beginning(primary)
    {
      output, seenMemoryIds, receivedCandidates, uniqueCandidates := [], {}, primary.received, primary.unique;
      suppressed, suppressionCounts, semanticLookup := primary.suppressed, primary.counts, map[];
      asked, verified, primaryOverrides, primarySuppressions, mountedAllowed := 0, 0, 0, 0, 0;
    }

    /** The primary list comes first, without repeated memories. */
    method AddPrimary(primary: Retrieved)
      modifies this
      ensures State() == PrimaryView(primary, |primary.items|)
    {
      Start(primary);
      for n := 0 to |primary.items|
        invariant State() == PrimaryView(primary, n)
      {
        var item := primary.items[n];
        if item.memoryId in seenMemoryIds {
          Suppress(ViewDuplicate);
        } else {
          Show(item);
        }
      }
    }

    /** The revision that the primary scope holds under the key; the store is asked once per key. */
    method Held(byKey: map<string, Revision>, key: string) returns (held: Option<Revision>)
      modifies this
      ensures held == Holder(old(State()), byKey, world, key)
      ensures State() == Remembering(old(State()), byKey, world, key)
    {
      if key in byKey {
        return Some(byKey[key]);
      }
      if key !in semanticLookup {
        semanticLookup := semanticLookup[key := Answer(asked, world.ask(asked, key))];
        asked := asked + 1;
      }
      held := semanticLookup[key].held;
    }

    method Override(held: Revision, mount: nat, historical: Item)
      modifies this
      ensures State() == Overriding(old(State()), world, held, mount, historical)
    {
      var decision := world.verify(verified, held);
      verified := verified + 1;
      match decision
      case Suppress(_) =>
        Suppress(ViewPrimarySuppression);
        primarySuppressions := primarySuppressions + 1;
      case Allow(revision) =>
        primaryOverrides := primaryOverrides + 1;
        if revision.memoryId in seenMemoryIds {
          Suppress(ViewPrimaryOverride);
        } else {
          Show(ShadowItem(revision, mount, historical));
        }
    }

    method AddMounted(byKey: map<string, Revision>, mount: nat, historical: Item)
      modifies this
      ensures State() == AddingMounted(old(State()), byKey, world, mount, historical)
    {
      var held := Held(byKey, historical.revision.body.identity.semanticKey);
      if held.Some? {
        Override(held.value, mount, historical);
      } else if historical.memoryId in seenMemoryIds {
        Suppress(ViewDuplicate);
      } else {
        Show(historical);
        mountedAllowed := mountedAllowed + 1;
      }
    }

    method AddMount(byKey: map<string, Revision>, mount: nat, r: Retrieved)
      modifies this
      ensures State() == MountView(old(State()), byKey, world, mount, r, |r.items|)
    {
      ghost var v := State();
      CountIn(r);
      for n := 0 to |r.items|
        invariant State() == MountView(v, byKey, world, mount, r, n)
      {
        ghost var before := State();
        AddMounted(byKey, mount, r.items[n]);
        MountViewStep(v, before, State(), byKey, world, mount, r, n);
      }
    }

    /** Rank-fuse, keep the first `topK`, and count what is cut off. */
    method Finish(topK: nat) returns (r: ViewResult)
      modifies this
      ensures r == Finishing(old(State()), topK)
    {
      var items := TopK(output, topK);
      var truncated := |output| - |items|;
      assert truncated == 0 ==> Increment(suppressionCounts, ViewTopK, truncated) == suppressionCounts;
      if truncated > 0 {
        suppressionCounts := Increment(suppressionCounts, ViewTopK, truncated);
        suppressed := suppressed + truncated;
      }
      r := ViewResult(Retrieved(items, receivedCandidates, uniqueCandidates, suppressed, suppressionCounts),
        primaryOverrides, primarySuppressions, mountedAllowed);
    }

    method Retrieve(primary: Listing, mounts: seq<Listing>, topK: nat) returns (r: Result<ViewResult, RetrievalError>)
      modifies this
      ensures r == Federating(primary, mounts, world, topK)
    {
      if !Contained(primary) || !AllContained(mounts) {
        return Failure(EscapedScope);
      }
      AddPrimary(primary.result);
      var byKey: map<string, Revision> := map[];
      for n := 0 to |primary.result.items|
        invariant byKey == ByKey(primary.result.items, n)
      {
        byKey := byKey[primary.result.items[n].revision.body.identity.semanticKey := primary.result.items[n].revision];
      }
      ghost var v := State();
      for m := 0 to |mounts|
        invariant State() == MountsView(v, byKey, mounts, world, m)
      {
        AddMount(byKey, m, mounts[m].result);
      }
      var view := Finish(topK);
      r := Success(view);
    }
  }
}
