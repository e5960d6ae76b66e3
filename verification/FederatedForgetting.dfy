/**
 Federation over the canonical store: the view's lookups and verdicts are those of the authority, taken in
 any states of a stretch of a run, while others commit between any two of them.
 */
module FederatedForgetting {
  import opened Prelude
  import opened CanonicalStore
  import opened CommitLog
  import opened CanonicalVerifier
  import opened VerifiedRetrieval
  import opened RetrievalView
  import Distillation

  /** The part of a run in which one retrieval happens, its primary scope and its effective time. */
  datatype Stretch = Stretch(actions: seq<Action>, from: nat, to: nat, scope: Scope, at: int)

  ghost predicate Proper(w: Stretch) {
    w.from <= w.to <= |w.actions|
  }

  ghost predicate Within(w: Stretch, t: nat) {
    Proper(w) && w.from <= t <= w.to
  }

  ghost function StateAt(w: Stretch, t: nat): Store
    requires Within(w, t)
  {
    Run(EMPTY, w.actions[..t])
  }

  function SemanticKey(r: Revision): string { r.body.identity.semanticKey }

  // ---------------------------------------------------------------- the calls of the view

  ghost predicate FoundAt(w: Stretch, t: nat, key: string, answer: Option<Revision>) {
    Within(w, t) && Distillation.Lookup(StateAt(w, t), w.scope, key) == answer
  }

  /** The store's answer to a lookup of the key, in some state of the stretch. */
  ghost predicate Found(w: Stretch, key: string, answer: Option<Revision>) {
    exists t: nat :: FoundAt(w, t, key, answer)
  }

  ghost predicate JudgedAt(w: Stretch, i: nat, j: nat, k: nat, held: Revision, verdict: Verdict) {
    && Within(w, i) && Within(w, j) && Within(w, k) && i <= j <= k
    && VerifyOne(VerificationRequest(held.memoryId, Some(held.revision)), w.scope, w.at,
                 StateAt(w, i), StateAt(w, j), StateAt(w, k)) == verdict
  }

  /** The verifier's answer on a held revision, its reads in some states of the stretch. */
  ghost predicate Judged(w: Stretch, held: Revision, verdict: Verdict) {
    exists i: nat, j: nat, k: nat :: JudgedAt(w, i, j, k, held, verdict)
  }

  /** Every call of the view is answered by the primary store and its verifier. */
  ghost predicate Canonical(w: Stretch, world: World) {
    && (forall n: nat, key: string :: Found(w, key, world.ask(n, key)))
    && forall n: nat, held: Revision :: Judged(w, held, world.verify(n, held))
  }

  // ---------------------------------------------------------------- what may be shown

  /** The revision was current and active in the primary scope at some moment of the retrieval. */
  ghost predicate CurrentDuring(w: Stretch, r: Revision) {
    exists t: nat :: Within(w, t) && CurrentIn(StateAt(w, t), w.scope, r)
  }

  /** The revision is one of the primary store, under the key. */
  ghost predicate HeldUnder(w: Stretch, key: string, r: Revision) {
    && Proper(w) && SemanticKey(r) == key
    && RevisionAt(StateAt(w, w.to), (r.memoryId, r.revision)) == Some(r)
  }

  /** One of the items of the mount has the memory id and the key. */
  ghost predicate MountHas(mounts: seq<Listing>, mount: nat, historical: MemoryId, key: string) {
    mount < |mounts| && exists x: nat :: HasAt(mounts[mount].result.items, x, historical, key)
  }

  predicate HasAt(items: seq<Item>, x: nat, m: MemoryId, key: string) {
    x < |items| && items[x].memoryId == m && SemanticKey(items[x].revision) == key
  }

  /**
   An item of a provider is a primary revision, current during the retrieval, or its key was found to be
   held by nothing. An item that shadows a mounted one is such a revision too, under the same key.
   */
  ghost predicate Rightful(w: Stretch, mounts: seq<Listing>, item: Item) {
    match item.evidence
    case FromProvider(_) => CurrentDuring(w, item.revision) || Found(w, SemanticKey(item.revision), None)
    case Shadowing(mount, historical) =>
      CurrentDuring(w, item.revision) && MountHas(mounts, mount, historical, SemanticKey(item.revision))
  }

  ghost predicate AllRightful(w: Stretch, mounts: seq<Listing>, items: seq<Item>) {
    forall i | 0 <= i < |items| :: Rightful(w, mounts, items[i])
  }

  /** The lists come from provider candidates. */
  ghost predicate Provided(r: Retrieved) {
    forall i | 0 <= i < |r.items| :: r.items[i].evidence.FromProvider?
  }

  ghost predicate AllProvided(mounts: seq<Listing>) {
    forall m | 0 <= m < |mounts| :: Provided(mounts[m].result)
  }

  ghost predicate Remembered(w: Stretch, lookups: map<string, Answer>) {
    forall key | key in lookups :: Found(w, key, lookups[key].held)
  }

  ghost predicate KeysHeld(w: Stretch, byKey: map<string, Revision>) {
    forall key | key in byKey :: HeldUnder(w, key, byKey[key])
  }

  ghost predicate Lawful(w: Stretch, mounts: seq<Listing>, v: View) {
    AllRightful(w, mounts, v.output) && Remembered(w, v.lookups)
  }

  // ---------------------------------------------------------------- states of the run

  lemma StateIsSound(w: Stretch, t: nat)
    requires Within(w, t)
    ensures var s := StateAt(w, t); Chained(s) && KeysUnique(s) && Distillation.Keyed(s)
  {
    EmptyInv();
    RunKeepsInv(EMPTY, w.actions[..t]);
  }

  /** A revision of any state of the stretch is still there at its end. */
  lemma StillHeld(w: Stretch, t: nat, k: RevisionKey)
    requires Within(w, t) && k in StateAt(w, t).revisions
    ensures RevisionAt(StateAt(w, w.to), k) == Some(StateAt(w, t).revisions[k])
  {
    StatesAdvance(w.actions, t, w.to);
  }

  lemma CurrentIsHeld(w: Stretch, r: Revision)
    requires CurrentDuring(w, r)
    ensures HeldUnder(w, SemanticKey(r), r)
  {
    var t: nat :| Within(w, t) && CurrentIn(StateAt(w, t), w.scope, r);
    StillHeld(w, t, (r.memoryId, r.revision));
  }

  lemma LookupHolds(s: Store, scope: Scope, key: string, r: Revision)
    requires Chained(s) && KeysUnique(s) && Distillation.FindBySemanticKey(s, scope, key) == Some(r)
    ensures SemanticKey(r) == key && RevisionAt(s, (r.memoryId, r.revision)) == Some(r)
  {
    var m :| m in s.heads && Distillation.HoldsCurrentKey(s, m, scope, key)
      && s.revisions[(m, s.heads[m].currentRevision)] == r;
    assert RevisionFits(s, (m, s.heads[m].currentRevision));
  }

  lemma ForgottenIsFound(s: Store, scope: Scope, key: string)
    requires Chained(s) && KeysUnique(s) && Distillation.Forgotten(s, scope, key)
    ensures Distillation.FindBySemanticKey(s, scope, key).Some?
  {
    var m :| HoldsKey(s, m, scope, key);
    assert CurrentStatus(s, m) && RevisionFits(s, (m, s.heads[m].currentRevision));
    assert Distillation.HoldsCurrentKey(s, m, scope, key);
  }

  lemma FoundIsHeld(w: Stretch, key: string, r: Revision)
    requires Found(w, key, Some(r))
    ensures HeldUnder(w, key, r)
  {
    var t: nat :| FoundAt(w, t, key, Some(r));
    StateIsSound(w, t);
    LookupHolds(StateAt(w, t), w.scope, key, r);
    StillHeld(w, t, (r.memoryId, r.revision));
  }

  /** What the verifier allows for a held revision is that revision, and it was current. */
  lemma AllowedIsHeld(w: Stretch, key: string, held: Revision, r: Revision)
    requires HeldUnder(w, key, held) && Judged(w, held, Allow(r))
    ensures r == held && CurrentDuring(w, r)
  {
    var i: nat, j: nat, k: nat :| JudgedAt(w, i, j, k, held, Allow(r));
    var c := ProviderCandidate(held.memoryId, held.revision, 0, "");
    StatesAdvance(w.actions, i, j);
    AllowedAsAsked(c, w.scope, w.at, StateAt(w, i), StateAt(w, j), StateAt(w, k));
    AllowedIsCurrent(c, w.scope, w.at, w.actions, i, j, k, r);
    assert CurrentIn(StateAt(w, i), w.scope, r);
    CurrentIsHeld(w, r);
  }

  // ---------------------------------------------------------------- the merge

  lemma ShowingLawful(w: Stretch, mounts: seq<Listing>, v: View, item: Item)
    requires Lawful(w, mounts, v) && Rightful(w, mounts, item)
    ensures Lawful(w, mounts, Showing(v, item))
  {
  }

  lemma RememberingLawful(w: Stretch, mounts: seq<Listing>, v: View, byKey: map<string, Revision>, world: World,
                          key: string)
    requires Lawful(w, mounts, v) && Canonical(w, world)
    ensures Lawful(w, mounts, Remembering(v, byKey, world, key))
  {
    assert Found(w, key, world.ask(v.asked, key));
  }

  lemma HolderIsHeld(w: Stretch, mounts: seq<Listing>, v: View, byKey: map<string, Revision>, world: World, key: string)
    requires Lawful(w, mounts, v) && Canonical(w, world) && KeysHeld(w, byKey)
    ensures match Holder(v, byKey, world, key)
      case Some(held) => HeldUnder(w, key, held)
      case None => Found(w, key, None)
  {
    if key !in byKey {
      assert Found(w, key, world.ask(v.asked, key));
      var held := Holder(v, byKey, world, key);
      if held.Some? {
        FoundIsHeld(w, key, held.value);
      }
    }
  }

  lemma OverridingLawful(w: Stretch, mounts: seq<Listing>, v: View, world: World, held: Revision, mount: nat, x: nat)
    requires Lawful(w, mounts, v) && Canonical(w, world)
    requires mount < |mounts| && x < |mounts[mount].result.items|
    requires HeldUnder(w, SemanticKey(mounts[mount].result.items[x].revision), held)
    ensures Lawful(w, mounts, Overriding(v, world, held, mount, mounts[mount].result.items[x]))
  {
    var historical := mounts[mount].result.items[x];
    var verdict := world.verify(v.verified, held);
    assert Judged(w, held, verdict);
    if verdict.Allow? {
      AllowedIsHeld(w, SemanticKey(historical.revision), held, verdict.revision);
      assert HasAt(mounts[mount].result.items, x, historical.memoryId, SemanticKey(verdict.revision));
      ShadowIsLawful(w, mounts, v, verdict.revision, mount, historical);
    }
  }

  lemma ShadowIsLawful(w: Stretch, mounts: seq<Listing>, v: View, r: Revision, mount: nat, historical: Item)
    requires Lawful(w, mounts, v) && CurrentDuring(w, r)
    requires MountHas(mounts, mount, historical.memoryId, SemanticKey(r))
    ensures Lawful(w, mounts, Showing(v, ShadowItem(r, mount, historical)))
  {
    ShowingLawful(w, mounts, v, ShadowItem(r, mount, historical));
  }

  lemma AddingMountedLawful(w: Stretch, mounts: seq<Listing>, v: View, byKey: map<string, Revision>, world: World,
                            mount: nat, x: nat) returns (u: View)
    requires Lawful(w, mounts, v) && Canonical(w, world) && KeysHeld(w, byKey)
    requires mount < |mounts| && x < |mounts[mount].result.items|
    requires mounts[mount].result.items[x].evidence.FromProvider?
    ensures u == AddingMounted(v, byKey, world, mount, mounts[mount].result.items[x]) && Lawful(w, mounts, u)
  {
    var historical := mounts[mount].result.items[x];
    var key := SemanticKey(historical.revision);
    var t := Remembering(v, byKey, world, key);
    u := AddingMounted(v, byKey, world, mount, historical);
    RememberingLawful(w, mounts, v, byKey, world, key);
    HolderIsHeld(w, mounts, v, byKey, world, key);
    match Holder(v, byKey, world, key)
    case Some(held) => OverridingLawful(w, mounts, t, world, held, mount, x);
    case None => ShowingLawful(w, mounts, t, historical);
  }

  lemma MountLawful(w: Stretch, mounts: seq<Listing>, v: View, byKey: map<string, Revision>, world: World, mount: nat)
    requires Lawful(w, mounts, v) && Canonical(w, world) && KeysHeld(w, byKey)
    requires mount < |mounts| && Provided(mounts[mount].result)
    ensures Lawful(w, mounts, MountView(v, byKey, world, mount, mounts[mount].result, |mounts[mount].result.items|))
  {
    var r := mounts[mount].result;
    forall u: View, x: nat | Lawful(w, mounts, u) && x < |r.items|
      ensures Lawful(w, mounts, AddingMounted(u, byKey, world, mount, r.items[x]))
    {
      var t := AddingMountedLawful(w, mounts, u, byKey, world, mount, x);
    }
    var t := MountInduction(u => Lawful(w, mounts, u), v, byKey, world, mount, r);
  }

  lemma MountsLawful(w: Stretch, mounts: seq<Listing>, v: View, byKey: map<string, Revision>, world: World)
    requires Lawful(w, mounts, v) && Canonical(w, world) && KeysHeld(w, byKey) && AllProvided(mounts)
    ensures Lawful(w, mounts, MountsView(v, byKey, mounts, world, |mounts|))
  {
    forall u: View, x: nat | Lawful(w, mounts, u) && x < |mounts|
      ensures Lawful(w, mounts, MountView(u, byKey, world, x, mounts[x].result, |mounts[x].result.items|))
    {
      MountLawful(w, mounts, u, byKey, world, x);
    }
    MountsInduction(u => Lawful(w, mounts, u), v, byKey, mounts, world, |mounts|);
  }

  /** The primary list: provider items whose revisions were current during the retrieval. */
  ghost predicate PrimaryLawful(w: Stretch, primary: Retrieved) {
    Provided(primary) && forall i | 0 <= i < |primary.items| :: CurrentDuring(w, primary.items[i].revision)
  }

  lemma NextPrimaryLawful(w: Stretch, mounts: seq<Listing>, primary: Retrieved, before: View, n: nat) returns (u: View)
    requires n < |primary.items| && before == PrimaryView(primary, n) && Lawful(w, mounts, before)
    requires Rightful(w, mounts, primary.items[n])
    ensures u == PrimaryView(primary, n + 1) && Lawful(w, mounts, u)
  {
    u := AddingPrimary(before, primary.items[n]);
    ShowingLawful(w, mounts, before, primary.items[n]);
  }

  lemma PrimaryViewLawful(w: Stretch, mounts: seq<Listing>, primary: Retrieved) returns (u: View)
    requires PrimaryLawful(w, primary)
    ensures u == PrimaryView(primary, |primary.items|) && Lawful(w, mounts, u)
  {
    u := Beginning(primary);
    for n := 0 to |primary.items|
      invariant u == PrimaryView(primary, n) && Lawful(w, mounts, u)
    {
      u := NextPrimaryLawful(w, mounts, primary, u, n);
    }
  }

  lemma {:induction false} PrimaryKeysHeld(w: Stretch, primary: Retrieved, n: nat)
    requires PrimaryLawful(w, primary) && n <= |primary.items|
    ensures KeysHeld(w, ByKey(primary.items, n))
  {
    if n > 0 {
      PrimaryKeysHeld(w, primary, n - 1);
      CurrentIsHeld(w, primary.items[n - 1].revision);
    }
  }

  lemma MergedLawful(w: Stretch, primary: Retrieved, mounts: seq<Listing>, world: World)
    requires PrimaryLawful(w, primary) && AllProvided(mounts) && Canonical(w, world)
    ensures AllRightful(w, mounts, MergedView(primary, mounts, world).output)
  {
    var n := |primary.items|;
    var v := PrimaryViewLawful(w, mounts, primary);
    PrimaryKeysHeld(w, primary, n);
    MountsLawful(w, mounts, v, ByKey(primary.items, n), world);
  }

  // ---------------------------------------------------------------- forgetting through the view

  /** Only tombstoned memories hold the key, in every state of the stretch. */
  ghost predicate ForgottenThroughout(w: Stretch, key: string) {
    forall t: nat | Within(w, t) :: Distillation.Forgotten(StateAt(w, t), w.scope, key)
  }

  lemma CurrentIsNotForgotten(s: Store, scope: Scope, r: Revision)
    requires Chained(s) && CurrentIn(s, scope, r)
    ensures !Distillation.Forgotten(s, scope, SemanticKey(r))
  {
    assert RevisionFits(s, (r.memoryId, r.revision));
    assert HoldsKey(s, r.memoryId, scope, SemanticKey(r));
  }

  lemma RightfulIsNotForgotten(w: Stretch, mounts: seq<Listing>, item: Item)
    requires Rightful(w, mounts, item)
    ensures !ForgottenThroughout(w, SemanticKey(item.revision))
  {
    var key := SemanticKey(item.revision);
    if CurrentDuring(w, item.revision) {
      var t: nat :| Within(w, t) && CurrentIn(StateAt(w, t), w.scope, item.revision);
      StateIsSound(w, t);
      CurrentIsNotForgotten(StateAt(w, t), w.scope, item.revision);
    } else {
      var t: nat :| FoundAt(w, t, key, None);
      StateIsSound(w, t);
      if Distillation.Forgotten(StateAt(w, t), w.scope, key) {
        ForgottenIsFound(StateAt(w, t), w.scope, key);
      }
    }
  }

  lemma TopKIsShown(output: seq<Item>, topK: nat, a: nat)
    requires a < |TopK(output, topK)|
    ensures TopK(output, topK)[a] in output
  {
  }

  /** What `Retrieve` of the primary scope returns is lawful for the view. */
  lemma RetrievedIsLawful(w: Stretch, candidates: seq<ProviderCandidate>, i: nat, j: nat, k: nat, primary: Retrieved)
    requires Within(w, i) && Within(w, k) && i <= j <= k && Agreeing(candidates)
    requires RetrievedBy(candidates, RetrievalVerdicts(candidates, w.scope, At(w.at),
               Run(EMPTY, w.actions[..i]), Run(EMPTY, w.actions[..j]), Run(EMPTY, w.actions[..k])), primary)
    ensures PrimaryLawful(w, primary)
  {
    RetrievedExactly(candidates, w.scope, w.at, w.actions, i, j, k, primary);
    forall x | 0 <= x < |primary.items| ensures CurrentDuring(w, primary.items[x].revision)
    {
      assert CurrentIn(Run(EMPTY, w.actions[..i]), w.scope, primary.items[x].revision);
      assert CurrentIn(StateAt(w, i), w.scope, primary.items[x].revision);
    }
    var verdicts := RetrievalVerdicts(candidates, w.scope, At(w.at),
      Run(EMPTY, w.actions[..i]), Run(EMPTY, w.actions[..j]), Run(EMPTY, w.actions[..k]));
    forall x | 0 <= x < |primary.items| ensures primary.items[x].evidence.FromProvider? {
      var p := ItemCameFrom(Unique(candidates), verdicts, |verdicts|, x);
    }
  }

  /**
   Whatever is committed during the retrieval, everything shown is rightful: a shadowing item is the primary
   revision of the key it shadows, current at some moment of the retrieval, and a key whose memory stays
   tombstoned in the primary scope throughout never surfaces, from the primary list or from any mount.
   */
  lemma ForgottenNeverSurfaces(w: Stretch, candidates: seq<ProviderCandidate>, i: nat, j: nat, k: nat,
                               primary: Listing, mounts: seq<Listing>, world: World, topK: nat)
    requires Within(w, i) && Within(w, k) && i <= j <= k && Agreeing(candidates)
    requires RetrievedBy(candidates, RetrievalVerdicts(candidates, w.scope, At(w.at),
               Run(EMPTY, w.actions[..i]), Run(EMPTY, w.actions[..j]), Run(EMPTY, w.actions[..k])), primary.result)
    requires AllProvided(mounts) && Canonical(w, world) && Federating(primary, mounts, world, topK).Success?
    ensures var items := Federating(primary, mounts, world, topK).value.result.items;
      forall x | 0 <= x < |items| ::
        Rightful(w, mounts, items[x]) && !ForgottenThroughout(w, SemanticKey(items[x].revision))
  {
    RetrievedIsLawful(w, candidates, i, j, k, primary.result);
    MergedLawful(w, primary.result, mounts, world);
    var output := MergedView(primary.result, mounts, world).output;
    forall x | 0 <= x < |TopK(output, topK)|
      ensures Rightful(w, mounts, TopK(output, topK)[x])
      ensures !ForgottenThroughout(w, SemanticKey(TopK(output, topK)[x].revision))
    {
      TopKIsShown(output, topK, x);
      RightfulIsNotForgotten(w, mounts, TopK(output, topK)[x]);
    }
  }
}
