/** Provider candidates become items: deduplicate, verify canonically, and count what is suppressed. */
module VerifiedRetrieval {
  import opened Prelude
  import opened CanonicalStore
  import opened CommitLog
  import opened CanonicalVerifier

  datatype Suppression =
    | ByVerifier(reason: Reason) | DuplicateCandidate
    | ViewDuplicate | ViewPrimarySuppression | ViewPrimaryOverride | ViewTopK

  datatype ProviderCandidate = ProviderCandidate(memoryId: MemoryId, revision: int, rank: int, objectId: string)

  datatype Evidence = FromProvider(objectId: string) | Shadowing(mount: nat, historical: MemoryId)

  datatype Item = Item(memoryId: MemoryId, number: int, revision: Revision, rank: int, evidence: Evidence)

  datatype Retrieved = Retrieved(
    items: seq<Item>, received: nat, unique: nat, suppressed: int, counts: multiset<Suppression>)

  datatype RetrievalError =
    | RevisionDisagreement | Unverifiable(error: VerifyError) | LostCardinality | EscapedScope

  /** Everything received is either shown or counted under one reason. */
  ghost predicate Conserves(r: Retrieved) {
    r.received == |r.items| + r.suppressed && r.suppressed == |r.counts|
  }

  ghost predicate DistinctIds(items: seq<Item>) {
    forall i, j | 0 <= i < j < |items| :: items[i].memoryId != items[j].memoryId
  }

  ghost predicate ShowsId(items: seq<Item>, m: MemoryId) {
    exists i :: 0 <= i < |items| && items[i].memoryId == m
  }

  // ---------------------------------------------------------------- deduplication

  predicate SeenBefore(candidates: seq<ProviderCandidate>, i: nat)
    requires i < |candidates|
  {
    exists j | 0 <= j < i :: candidates[j].memoryId == candidates[i].memoryId
  }

  predicate Agree(candidates: seq<ProviderCandidate>, i: nat, j: nat)
    requires i < |candidates| && j < |candidates|
  {
    candidates[i].memoryId == candidates[j].memoryId ==> candidates[i].revision == candidates[j].revision
  }

  ghost predicate Agreeing(candidates: seq<ProviderCandidate>) {
    forall i: nat, j: nat | i < |candidates| && j < |candidates| :: Agree(candidates, i, j)
  }

  /** The positions, below `n`, where a memory id occurs for the first time. */
  function Firsts(candidates: seq<ProviderCandidate>, n: nat): (r: seq<nat>)
    requires n <= |candidates|
    ensures |r| <= n && forall k | 0 <= k < |r| :: r[k] < n
  {
    if n == 0 then []
    else if SeenBefore(candidates, n - 1) then Firsts(candidates, n - 1)
    else Firsts(candidates, n - 1) + [n - 1]
  }

  function Pick(candidates: seq<ProviderCandidate>, positions: seq<nat>): (r: seq<ProviderCandidate>)
    requires forall k | 0 <= k < |positions| :: positions[k] < |candidates|
    ensures |r| == |positions|
  {
    seq(|positions|, k requires 0 <= k < |positions| => candidates[positions[k]])
  }

  function Unique(candidates: seq<ProviderCandidate>): seq<ProviderCandidate> {
    Pick(candidates, Firsts(candidates, |candidates|))
  }

  ghost predicate Represented(candidates: seq<ProviderCandidate>, firsts: seq<nat>, i: nat)
    requires i < |candidates| && forall k | 0 <= k < |firsts| :: firsts[k] < |candidates|
  {
    exists a :: 0 <= a < |firsts| && firsts[a] <= i && candidates[firsts[a]].memoryId == candidates[i].memoryId
  }

  lemma RepresentedByMore(candidates: seq<ProviderCandidate>, firsts: seq<nat>, more: seq<nat>, i: nat)
    requires i < |candidates| && forall k | 0 <= k < |firsts| :: firsts[k] < |candidates|
    requires firsts <= more && forall k | 0 <= k < |more| :: more[k] < |candidates|
    requires Represented(candidates, firsts, i)
    ensures Represented(candidates, more, i)
  {
    var a :| 0 <= a < |firsts| && firsts[a] <= i && candidates[firsts[a]].memoryId == candidates[i].memoryId;
    assert more[a] == firsts[a];
  }

  /** Every candidate is represented by an earlier or equal first occurrence of its memory id. */
  lemma {:induction false} FirstsRepresent(candidates: seq<ProviderCandidate>, n: nat, i: nat)
    requires i < n <= |candidates|
    ensures Represented(candidates, Firsts(candidates, n), i)
  {
    var firsts := Firsts(candidates, n);
    if i < n - 1 {
      FirstsRepresent(candidates, n - 1, i);
      RepresentedByMore(candidates, Firsts(candidates, n - 1), firsts, i);
    } else if SeenBefore(candidates, i) {
      var j :| 0 <= j < i && candidates[j].memoryId == candidates[i].memoryId;
      FirstsRepresent(candidates, n - 1, j);
      var a :| 0 <= a < |firsts| && firsts[a] <= j && candidates[firsts[a]].memoryId == candidates[j].memoryId;
      assert firsts[a] <= i;
    } else {
      assert firsts[|firsts| - 1] == i;
    }
  }

  /** First occurrences keep the provider's order and never repeat a memory id. */
  lemma {:induction false} FirstsAreDistinct(candidates: seq<ProviderCandidate>, n: nat, a: nat, b: nat)
    requires n <= |candidates| && a < b < |Firsts(candidates, n)|
    ensures var firsts := Firsts(candidates, n);
      firsts[a] < firsts[b] && candidates[firsts[a]].memoryId != candidates[firsts[b]].memoryId
  {
    if b < |Firsts(candidates, n - 1)| {
      FirstsAreDistinct(candidates, n - 1, a, b);
    }
  }

  /** The map remembers, for every id seen so far, a candidate that carries it. */
  ghost predicate Remembers(candidates: seq<ProviderCandidate>, n: nat, byMemoryId: map<MemoryId, ProviderCandidate>) {
    && n <= |candidates|
    && (forall i | 0 <= i < n :: Recalls(byMemoryId, candidates[i]))
    && forall m | m in byMemoryId :: Occurs(candidates, n, m)
  }

  predicate Recalls(byMemoryId: map<MemoryId, ProviderCandidate>, c: ProviderCandidate) {
    c.memoryId in byMemoryId && byMemoryId[c.memoryId].revision == c.revision
  }

  ghost predicate Occurs(candidates: seq<ProviderCandidate>, n: nat, m: MemoryId)
    requires n <= |candidates|
  {
    exists i :: 0 <= i < n && candidates[i].memoryId == m
  }

  lemma SeenIsRemembered(candidates: seq<ProviderCandidate>, n: nat, byMemoryId: map<MemoryId, ProviderCandidate>)
    requires Remembers(candidates, n, byMemoryId) && n < |candidates|
    ensures candidates[n].memoryId in byMemoryId <==> SeenBefore(candidates, n)
  {
    if candidates[n].memoryId in byMemoryId {
      assert Occurs(candidates, n, candidates[n].memoryId);
    }
    if SeenBefore(candidates, n) {
      var i :| 0 <= i < n && candidates[i].memoryId == candidates[n].memoryId;
      assert Recalls(byMemoryId, candidates[i]);
    }
  }

  /** A candidate whose id is new, or whose revision is the one remembered, keeps the memory. */
  lemma RemembersNext(candidates: seq<ProviderCandidate>, n: nat, byMemoryId: map<MemoryId, ProviderCandidate>)
    requires Remembers(candidates, n, byMemoryId) && n < |candidates|
    requires candidates[n].memoryId in byMemoryId ==> Recalls(byMemoryId, candidates[n])
    ensures Remembers(candidates, n + 1,
              if candidates[n].memoryId in byMemoryId then byMemoryId
              else byMemoryId[candidates[n].memoryId := candidates[n]])
  {
    var next := if candidates[n].memoryId in byMemoryId then byMemoryId
      else byMemoryId[candidates[n].memoryId := candidates[n]];
    forall i | 0 <= i < n + 1 ensures Recalls(next, candidates[i]) {
      assert i < n ==> Recalls(byMemoryId, candidates[i]);
    }
    forall m | m in next ensures Occurs(candidates, n + 1, m) {
      if m in byMemoryId {
        assert Occurs(candidates, n, m);
        var i :| 0 <= i < n && candidates[i].memoryId == m;
        assert candidates[i].memoryId == m;
      } else {
        assert candidates[n].memoryId == m;
      }
    }
  }

  lemma Disagrees(candidates: seq<ProviderCandidate>, n: nat, byMemoryId: map<MemoryId, ProviderCandidate>)
    requires Remembers(candidates, n, byMemoryId) && n < |candidates|
    requires candidates[n].memoryId in byMemoryId && !Recalls(byMemoryId, candidates[n])
    ensures !Agreeing(candidates)
  {
    assert Occurs(candidates, n, candidates[n].memoryId);
    var i: nat :| i < n && candidates[i].memoryId == candidates[n].memoryId;
    assert Recalls(byMemoryId, candidates[i]) && !Agree(candidates, i, n);
  }

  lemma RememberedAgree(candidates: seq<ProviderCandidate>, byMemoryId: map<MemoryId, ProviderCandidate>)
    requires Remembers(candidates, |candidates|, byMemoryId)
    ensures Agreeing(candidates)
  {
    forall i: nat, j: nat | i < |candidates| && j < |candidates| ensures Agree(candidates, i, j) {
      assert Recalls(byMemoryId, candidates[i]) && Recalls(byMemoryId, candidates[j]);
    }
  }

  method Deduplicate(candidates: seq<ProviderCandidate>)
    returns (r: Result<(seq<ProviderCandidate>, nat), RetrievalError>)
    ensures r.Success? <==> Agreeing(candidates)
    ensures r.Failure? ==> r.error == RevisionDisagreement
    ensures r.Success? ==> r.value.0 == Unique(candidates) && r.value.1 == |candidates| - |Unique(candidates)|
  {
    var byMemoryId: map<MemoryId, ProviderCandidate> := map[];
    var unique: seq<ProviderCandidate>, duplicateCount := [], 0;
    for n := 0 to |candidates|
      invariant Remembers(candidates, n, byMemoryId)
      invariant unique == Pick(candidates, Firsts(candidates, n))
      invariant duplicateCount == n - |Firsts(candidates, n)|
    {
      var candidate := candidates[n];
      SeenIsRemembered(candidates, n, byMemoryId);
      if candidate.memoryId !in byMemoryId {
        RemembersNext(candidates, n, byMemoryId);
        byMemoryId, unique := byMemoryId[candidate.memoryId := candidate], unique + [candidate];
      } else {
        if byMemoryId[candidate.memoryId].revision != candidate.revision {
          Disagrees(candidates, n, byMemoryId);
          return Failure(RevisionDisagreement);
        }
        RemembersNext(candidates, n, byMemoryId);
        duplicateCount := duplicateCount + 1;
      }
    }
    RememberedAgree(candidates, byMemoryId);
    r := Success((unique, duplicateCount));
  }

  // ---------------------------------------------------------------- verify and count

  function ItemOf(c: ProviderCandidate, revision: Revision): Item {
    Item(revision.memoryId, revision.revision, revision, c.rank, FromProvider(c.objectId))
  }

  function AllowedItems(unique: seq<ProviderCandidate>, verdicts: seq<Verdict>, n: nat): seq<Item>
    requires n <= |unique| && n <= |verdicts|
  {
    if n == 0 then []
    else
      AllowedItems(unique, verdicts, n - 1)
      + (match verdicts[n - 1] case Allow(revision) => [ItemOf(unique[n - 1], revision)] case Suppress(_) => [])
  }

  function Reasons(verdicts: seq<Verdict>, n: nat): multiset<Suppression>
    requires n <= |verdicts|
  {
    if n == 0 then multiset{}
    else
      Reasons(verdicts, n - 1)
      + (match verdicts[n - 1] case Allow(_) => multiset{} case Suppress(reason) => multiset{ByVerifier(reason)})
  }

  /** `counts[key] = (counts[key] ?? 0) + amount` */
  function Increment(counts: multiset<Suppression>, key: Suppression, amount: nat): (r: multiset<Suppression>)
    ensures |r| == |counts| + amount
  {
    counts[key := counts[key] + amount]
  }

  lemma {:induction false} AllowedOrCounted(unique: seq<ProviderCandidate>, verdicts: seq<Verdict>, n: nat)
    requires n <= |unique| && n <= |verdicts|
    ensures |AllowedItems(unique, verdicts, n)| + |Reasons(verdicts, n)| == n
  {
    if n > 0 {
      AllowedOrCounted(unique, verdicts, n - 1);
    }
  }

  method VerifyAndCount(unique: seq<ProviderCandidate>, verdicts: seq<Verdict>, start: multiset<Suppression>)
    returns (r: Result<(seq<Item>, multiset<Suppression>), RetrievalError>)
    ensures r.Success? <==> |unique| <= |verdicts|
    ensures r.Success? ==> r.value.0 == AllowedItems(unique, verdicts, |unique|)
    ensures r.Success? ==> r.value.1 == start + Reasons(verdicts, |unique|)
  {
    var items: seq<Item>, counts := [], start;
    for n := 0 to |unique|
      invariant n <= |verdicts|
      invariant items == AllowedItems(unique, verdicts, n)
      invariant counts == start + Reasons(verdicts, n)
    {
      if n >= |verdicts| {
        return Failure(LostCardinality);
      }
      match verdicts[n]
      case Suppress(reason) => counts := Increment(counts, ByVerifier(reason), 1);
      case Allow(revision) => items := items + [ItemOf(unique[n], revision)];
    }
    r := Success((items, counts));
  }

  function Requests(unique: seq<ProviderCandidate>): (r: seq<VerificationRequest>)
    ensures |r| == |unique|
  {
    seq(|unique|, i requires 0 <= i < |unique| => RequestFor(unique[i]))
  }

  function RequestFor(c: ProviderCandidate): VerificationRequest {
    VerificationRequest(c.memoryId, Some(c.revision))
  }

  /** The verifier's answers to all requests, from the three store states that its reads see. */
  function Verdicts(requests: seq<VerificationRequest>, scope: Scope, at: int, first: Store, middle: Store, last: Store)
    : (r: seq<Verdict>)
    ensures Answers(requests, scope, at, first, middle, last, r)
  {
    seq(|requests|, i requires 0 <= i < |requests| => VerifyOne(requests[i], scope, at, first, middle, last))
  }

  /** What the verifier refuses to judge. */
  ghost predicate Verifiable(unique: seq<ProviderCandidate>, effectiveAt: Time) {
    unique != [] ==> effectiveAt.At? && forall q | q in Requests(unique) :: PositiveExpectation(q)
  }

  /** What is returned for agreeing candidates and the verdicts on the unique ones. */
  ghost predicate RetrievedBy(candidates: seq<ProviderCandidate>, verdicts: seq<Verdict>, r: Retrieved)
    requires |verdicts| == |Unique(candidates)|
  {
    var unique := Unique(candidates);
    && Conserves(r) && r.received == |candidates| && r.unique == |unique|
    && r.items == AllowedItems(unique, verdicts, |unique|)
    && r.counts == Reasons(verdicts, |unique|)[DuplicateCandidate := |candidates| - |unique|]
  }

  /** Verify the unique candidates and assemble the answer; the cardinality guard of the loop cannot fire. */
  method VerifyUnique(candidates: seq<ProviderCandidate>, unique: seq<ProviderCandidate>, duplicateCount: nat,
                      verdicts: seq<Verdict>)
    returns (r: Retrieved)
    requires unique == Unique(candidates) && duplicateCount == |candidates| - |unique| && |verdicts| == |unique|
    ensures RetrievedBy(candidates, verdicts, r)
  {
    var counts: multiset<Suppression> := multiset{};
    if duplicateCount > 0 {
      counts := counts[DuplicateCandidate := duplicateCount];
    }
    var verified := VerifyAndCount(unique, verdicts, counts);
    var items := verified.value.0;
    AllowedOrCounted(unique, verdicts, |unique|);
    OnlyVerifierReasons(verdicts, |unique|);
    r := Retrieved(items, |candidates|, |unique|, |candidates| - |items|, verified.value.1);
  }

  /** The retrieval of one scope, once the provider has answered. */
  method Retrieve(candidates: seq<ProviderCandidate>, scope: Scope, effectiveAt: Time, first: Store, middle: Store,
                  last: Store)
    returns (r: Result<Retrieved, RetrievalError>)
    ensures r == Failure(RevisionDisagreement) <==> !Agreeing(candidates)
    ensures r.Success? <==> Agreeing(candidates) && Verifiable(Unique(candidates), effectiveAt)
    ensures r.Failure? && Agreeing(candidates) ==> r.error.Unverifiable?
    ensures r.Success? ==>
      RetrievedBy(candidates, RetrievalVerdicts(candidates, scope, effectiveAt, first, middle, last), r.value)
  {
    var deduplicated := Deduplicate(candidates);
    if deduplicated.Failure? {
      return Failure(deduplicated.error);
    }
    var unique := deduplicated.value.0;
    var decisions := VerifyMany(Requests(unique), scope, effectiveAt, first, middle, last);
    if decisions.Failure? {
      return Failure(Unverifiable(decisions.error));
    }
    AnswersAreVerdicts(Requests(unique), scope, effectiveAt, first, middle, last, decisions.value);
    var retrieved := VerifyUnique(candidates, unique, deduplicated.value.1, decisions.value);
    r := Success(retrieved);
  }

  function Millis(t: Time): int {
    match t case At(millis) => millis case Unparsable => 0
  }

  function RetrievalVerdicts(candidates: seq<ProviderCandidate>, scope: Scope, effectiveAt: Time, first: Store,
                             middle: Store, last: Store): (r: seq<Verdict>)
    ensures |r| == |Unique(candidates)|
  {
    Verdicts(Requests(Unique(candidates)), scope, Millis(effectiveAt), first, middle, last)
  }

  lemma AnswersAreVerdicts(requests: seq<VerificationRequest>, scope: Scope, effectiveAt: Time, first: Store,
                           middle: Store, last: Store, verdicts: seq<Verdict>)
    requires if requests == [] then verdicts == []
             else Answers(requests, scope, Millis(effectiveAt), first, middle, last, verdicts)
    ensures verdicts == Verdicts(requests, scope, Millis(effectiveAt), first, middle, last)
  {
  }

  lemma {:induction false} OnlyVerifierReasons(verdicts: seq<Verdict>, n: nat)
    requires n <= |verdicts|
    ensures Reasons(verdicts, n)[DuplicateCandidate] == 0
  {
    if n > 0 {
      OnlyVerifierReasons(verdicts, n - 1);
    }
  }

  // ---------------------------------------------------------------- what the verifier's answers make of it

  /** The item is the claimed revision of one of the first `n` candidates, in the requested scope. */
  ghost predicate Claimed(unique: seq<ProviderCandidate>, n: nat, scope: Scope, item: Item)
    requires n <= |unique|
  {
    && item.revision.scope == scope && item.memoryId == item.revision.memoryId && item.number == item.revision.revision
    && exists i :: 0 <= i < n && ClaimedBy(unique[i], item)
  }

  predicate ClaimedBy(c: ProviderCandidate, item: Item) {
    c.memoryId == item.memoryId && c.revision == item.number && c.rank == item.rank
  }

  ghost predicate DistinctCandidates(unique: seq<ProviderCandidate>) {
    forall i, j | 0 <= i < j < |unique| :: unique[i].memoryId != unique[j].memoryId
  }

  lemma UniqueIsDistinct(candidates: seq<ProviderCandidate>)
    ensures DistinctCandidates(Unique(candidates))
  {
    var firsts := Firsts(candidates, |candidates|);
    forall i, j | 0 <= i < j < |firsts| ensures candidates[firsts[i]].memoryId != candidates[firsts[j]].memoryId {
      FirstsAreDistinct(candidates, |candidates|, i, j);
    }
  }

  lemma AllowedAsAsked(c: ProviderCandidate, scope: Scope, at: int, first: Store, middle: Store, last: Store)
    requires RevisionsExact(first) && VerifyOne(RequestFor(c), scope, at, first, middle, last).Allow?
    ensures var item := ItemOf(c, VerifyOne(RequestFor(c), scope, at, first, middle, last).revision);
      ClaimedBy(c, item) && item.revision.scope == scope
  {
  }

  /** Every item comes from a candidate that the verifier allowed. */
  lemma {:induction false} ItemCameFrom(unique: seq<ProviderCandidate>, verdicts: seq<Verdict>, n: nat, x: nat)
    returns (p: nat)
    requires n <= |unique| && n <= |verdicts| && x < |AllowedItems(unique, verdicts, n)|
    ensures p < n && verdicts[p].Allow?
    ensures AllowedItems(unique, verdicts, n)[x] == ItemOf(unique[p], verdicts[p].revision)
  {
    if x < |AllowedItems(unique, verdicts, n - 1)| {
      p := ItemCameFrom(unique, verdicts, n - 1, x);
    } else {
      p := n - 1;
    }
  }

  /** Every allowed candidate becomes an item. */
  lemma {:induction false} AllowedIsShown(unique: seq<ProviderCandidate>, verdicts: seq<Verdict>, n: nat, p: nat)
    returns (x: nat)
    requires p < n <= |unique| && n <= |verdicts| && verdicts[p].Allow?
    ensures x < |AllowedItems(unique, verdicts, n)|
    ensures AllowedItems(unique, verdicts, n)[x] == ItemOf(unique[p], verdicts[p].revision)
  {
    if p < n - 1 {
      x := AllowedIsShown(unique, verdicts, n - 1, p);
    } else {
      x := |AllowedItems(unique, verdicts, n)| - 1;
    }
  }

  /** Through the canonical verifier, items have distinct memory ids and are exactly the revisions claimed for them. */
  lemma {:induction false} ItemsAreClaimedAndDistinct(unique: seq<ProviderCandidate>, scope: Scope, at: int,
                                                      first: Store, middle: Store, last: Store,
                                                      verdicts: seq<Verdict>, n: nat)
    requires RevisionsExact(first) && DistinctCandidates(unique) && n <= |unique|
    requires Answers(Requests(unique), scope, at, first, middle, last, verdicts)
    ensures DistinctIds(AllowedItems(unique, verdicts, n))
    ensures forall k | 0 <= k < |AllowedItems(unique, verdicts, n)| ::
      Claimed(unique, n, scope, AllowedItems(unique, verdicts, n)[k])
  {
    if n > 0 {
      ItemsAreClaimedAndDistinct(unique, scope, at, first, middle, last, verdicts, n - 1);
      var before, items := AllowedItems(unique, verdicts, n - 1), AllowedItems(unique, verdicts, n);
      if verdicts[n - 1].Allow? {
        AllowedAsAsked(unique[n - 1], scope, at, first, middle, last);
      }
      forall k | 0 <= k < |items| ensures Claimed(unique, n, scope, items[k]) {
        assert k < |before| ==> items[k] == before[k] && Claimed(unique, n - 1, scope, before[k]);
      }
      forall k | 0 <= k < |before| ensures before[k].memoryId != unique[n - 1].memoryId {
        assert Claimed(unique, n - 1, scope, before[k]);
      }
    }
  }

  // ---------------------------------------------------------------- the retrieval while others commit

  /** The revision was the current, active one of its memory in every state from action `i` to action `k`. */
  ghost predicate CurrentThroughout(actions: seq<Action>, i: nat, k: nat, scope: Scope, r: Revision)
    requires i <= k <= |actions|
  {
    forall t: nat | i <= t <= k :: CurrentIn(Run(EMPTY, actions[..t]), scope, r)
  }

  ghost predicate CurrentIn(s: Store, scope: Scope, r: Revision) {
    && r.memoryId in s.heads && s.heads[r.memoryId].scope == scope && s.heads[r.memoryId].status == Active
    && s.heads[r.memoryId].currentRevision == r.revision
    && RevisionAt(s, (r.memoryId, r.revision)) == Some(r)
  }

  ghost predicate IsClaimed(candidates: seq<ProviderCandidate>, item: Item) {
    exists c :: 0 <= c < |candidates| && ClaimedBy(candidates[c], item)
  }

  /** The request for a memory is allowed, or not, by the states at three moments of a run. */
  ghost predicate Allowable(c: ProviderCandidate, scope: Scope, at: int, first: Store, last: Store)
    requires RevisionsExact(first)
  {
    Settled(RequestFor(c), scope, first, last) && Showable(first, c.memoryId, at)
  }

  /** The position among the unique candidates of the one that stands for candidate `c`. */
  lemma StandsFor(candidates: seq<ProviderCandidate>, c: nat) returns (p: nat)
    requires c < |candidates| && Agreeing(candidates)
    ensures p < |Unique(candidates)| && RequestFor(Unique(candidates)[p]) == RequestFor(candidates[c])
  {
    FirstsRepresent(candidates, |candidates|, c);
    var firsts := Firsts(candidates, |candidates|);
    p :| p < |firsts| && firsts[p] <= c && candidates[firsts[p]].memoryId == candidates[c].memoryId;
    assert Agree(candidates, firsts[p], c);
  }

  lemma AllowedIsCurrent(c: ProviderCandidate, scope: Scope, at: int, actions: seq<Action>, i: nat, j: nat, k: nat,
                         r: Revision)
    requires i <= j <= k <= |actions|
    requires VerifyOne(RequestFor(c), scope, at,
               Run(EMPTY, actions[..i]), Run(EMPTY, actions[..j]), Run(EMPTY, actions[..k])) == Allow(r)
    ensures CurrentThroughout(actions, i, k, scope, r)
  {
    StatesAdvance(actions, i, j);
    AllowedAsAsked(c, scope, at, Run(EMPTY, actions[..i]), Run(EMPTY, actions[..j]), Run(EMPTY, actions[..k]));
    forall t: nat | i <= t <= k ensures CurrentIn(Run(EMPTY, actions[..t]), scope, r) {
      AllowedIsCurrentAt(c, scope, at, actions, i, j, k, t, r);
    }
  }

  lemma AllowedIsCurrentAt(c: ProviderCandidate, scope: Scope, at: int, actions: seq<Action>, i: nat, j: nat, k: nat,
                           t: nat, r: Revision)
    requires i <= j <= k <= |actions| && i <= t <= k && r.memoryId == c.memoryId
    requires VerifyOne(RequestFor(c), scope, at,
               Run(EMPTY, actions[..i]), Run(EMPTY, actions[..j]), Run(EMPTY, actions[..k])) == Allow(r)
    ensures CurrentIn(Run(EMPTY, actions[..t]), scope, r)
  {
    AllowWasCurrentThroughout(RequestFor(c), scope, at, actions, i, j, k, t);
    StatesAdvance(actions, t, k);
    var s := Run(EMPTY, actions[..t]);
    assert RevisionFits(s, (c.memoryId, s.heads[c.memoryId].currentRevision));
  }

  lemma ItemIsRight(candidates: seq<ProviderCandidate>, scope: Scope, at: int, actions: seq<Action>, i: nat, j: nat,
                    k: nat, verdicts: seq<Verdict>, x: nat)
    requires i <= j <= k <= |actions|
    requires Answers(Requests(Unique(candidates)), scope, at,
               Run(EMPTY, actions[..i]), Run(EMPTY, actions[..j]), Run(EMPTY, actions[..k]), verdicts)
    requires x < |AllowedItems(Unique(candidates), verdicts, |verdicts|)|
    ensures var item := AllowedItems(Unique(candidates), verdicts, |verdicts|)[x];
      IsClaimed(candidates, item) && CurrentThroughout(actions, i, k, scope, item.revision)
  {
    var unique := Unique(candidates);
    var p := ItemCameFrom(unique, verdicts, |verdicts|, x);
    var first, middle, last := Run(EMPTY, actions[..i]), Run(EMPTY, actions[..j]), Run(EMPTY, actions[..k]);
    StatesAdvance(actions, i, j);
    AllowedAsAsked(unique[p], scope, at, first, middle, last);
    assert ClaimedBy(candidates[Firsts(candidates, |candidates|)[p]], ItemOf(unique[p], verdicts[p].revision));
    AllowedIsCurrent(unique[p], scope, at, actions, i, j, k, verdicts[p].revision);
  }

  lemma ShownExactly(candidates: seq<ProviderCandidate>, scope: Scope, at: int, actions: seq<Action>, i: nat, j: nat,
                     k: nat, verdicts: seq<Verdict>, c: nat)
    requires i <= j <= k <= |actions| && Agreeing(candidates) && c < |candidates|
    requires Answers(Requests(Unique(candidates)), scope, at,
               Run(EMPTY, actions[..i]), Run(EMPTY, actions[..j]), Run(EMPTY, actions[..k]), verdicts)
    ensures RevisionsExact(Run(EMPTY, actions[..i]))
    ensures ShowsId(AllowedItems(Unique(candidates), verdicts, |verdicts|), candidates[c].memoryId) <==>
      Allowable(candidates[c], scope, at, Run(EMPTY, actions[..i]), Run(EMPTY, actions[..k]))
  {
    var unique := Unique(candidates);
    var items := AllowedItems(unique, verdicts, |verdicts|);
    var first, middle, last := Run(EMPTY, actions[..i]), Run(EMPTY, actions[..j]), Run(EMPTY, actions[..k]);
    var p := StandsFor(candidates, c);
    AllowedExactly(RequestFor(candidates[c]), scope, at, actions, i, j, k);
    if verdicts[p].Allow? {
      AllowedAsAsked(unique[p], scope, at, first, middle, last);
      var x := AllowedIsShown(unique, verdicts, |verdicts|, p);
      assert items[x].memoryId == candidates[c].memoryId;
    }
    if ShowsId(items, candidates[c].memoryId) {
      var x: nat :| x < |items| && items[x].memoryId == candidates[c].memoryId;
      var q := ItemCameFrom(unique, verdicts, |verdicts|, x);
      AllowedAsAsked(unique[q], scope, at, first, middle, last);
      UniqueIsDistinct(candidates);
      assert q == p;
    }
  }

  /**
   While others commit between the verifier's reads: the items that `Retrieve` returns have distinct memory
   ids, each is a claimed revision that was current from the first read to the last, and the memory of a
   candidate is shown exactly when its claim is settled in that stretch and its revision can be shown.
   */
  lemma RetrievedExactly(candidates: seq<ProviderCandidate>, scope: Scope, at: int, actions: seq<Action>,
                         i: nat, j: nat, k: nat, r: Retrieved)
    requires i <= j <= k <= |actions| && Agreeing(candidates)
    requires RetrievedBy(candidates, RetrievalVerdicts(candidates, scope, At(at),
               Run(EMPTY, actions[..i]), Run(EMPTY, actions[..j]), Run(EMPTY, actions[..k])), r)
    ensures DistinctIds(r.items) && RevisionsExact(Run(EMPTY, actions[..i]))
    ensures forall x | 0 <= x < |r.items| ::
      IsClaimed(candidates, r.items[x]) && CurrentThroughout(actions, i, k, scope, r.items[x].revision)
    ensures forall c | 0 <= c < |candidates| :: ShowsId(r.items, candidates[c].memoryId) <==>
      Allowable(candidates[c], scope, at, Run(EMPTY, actions[..i]), Run(EMPTY, actions[..k]))
  {
    var first, middle, last := Run(EMPTY, actions[..i]), Run(EMPTY, actions[..j]), Run(EMPTY, actions[..k]);
    var verdicts := RetrievalVerdicts(candidates, scope, At(at), first, middle, last);
    StatesAdvance(actions, i, j);
    UniqueIsDistinct(candidates);
    ItemsAreClaimedAndDistinct(Unique(candidates), scope, at, first, middle, last, verdicts, |verdicts|);
    forall x | 0 <= x < |r.items|
      ensures IsClaimed(candidates, r.items[x]) && CurrentThroughout(actions, i, k, scope, r.items[x].revision)
    {
      ItemIsRight(candidates, scope, at, actions, i, j, k, verdicts, x);
    }
    forall c | 0 <= c < |candidates| ensures ShowsId(r.items, candidates[c].memoryId) <==>
      Allowable(candidates[c], scope, at, first, last)
    {
      ShownExactly(candidates, scope, at, actions, i, j, k, verdicts, c);
    }
  }
}
