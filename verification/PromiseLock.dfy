/**
 The promise-chain lock: a caller queues behind the tail stored under its key, stores its own tail,
 runs when the stored one has resolved, and on leaving removes the entry only if it is still its own.
 Callers are numbered in order of arrival.
 */
module PromiseLock {
  import opened Prelude

  datatype Phase = Waiting | Running | Finished(failed: bool)

  datatype Caller = Caller(key: string, previous: Option<nat>, phase: Phase)

  datatype Lock = Lock(callers: seq<Caller>, tails: map<string, nat>)

  datatype Action = Arrive(key: string) | Enter(caller: nat) | Leave(caller: nat, failed: bool)

  /** A caller's tail resolves once the tail before it has resolved and its own gate was released. */
  predicate TailResolved(l: Lock, c: nat) {
    && c < |l.callers|
    && l.callers[c].phase.Finished?
    && match l.callers[c].previous
       case None => true
       case Some(p) => p < c && TailResolved(l, p)
  }

  predicate MayEnter(l: Lock, c: nat) {
    && c < |l.callers|
    && l.callers[c].phase.Waiting?
    && (l.callers[c].previous.Some? ==> TailResolved(l, l.callers[c].previous.value))
  }

  function Step(l: Lock, a: Action): Lock {
    match a
    case Arrive(key) =>
      var previous := if key in l.tails then Some(l.tails[key]) else None;
      Lock(l.callers + [Caller(key, previous, Waiting)], l.tails[key := |l.callers|])
    case Enter(c) =>
      if MayEnter(l, c) then l.(callers := l.callers[c := l.callers[c].(phase := Running)]) else l
    case Leave(c, failed) =>
      if c < |l.callers| && l.callers[c].phase.Running? then
        var key := l.callers[c].key;
        Lock(l.callers[c := l.callers[c].(phase := Finished(failed))],
          if key in l.tails && l.tails[key] == c then l.tails - {key} else l.tails)
      else l
  }

  function Run(actions: seq<Action>): Lock {
    if actions == [] then Lock([], map[]) else Step(Run(actions[..|actions| - 1]), actions[|actions| - 1])
  }

  // ---------------------------------------------------------------- what every step keeps

  ghost predicate AllFinishedBefore(l: Lock, key: string, c: nat) {
    forall d | 0 <= d < c && d < |l.callers| :: l.callers[d].key == key ==> l.callers[d].phase.Finished?
  }

  /** `previous` is the nearest earlier caller of the key, or there is none still unfinished. */
  ghost predicate Linked(l: Lock, c: nat)
    requires c < |l.callers|
  {
    match l.callers[c].previous
    case None => AllFinishedBefore(l, l.callers[c].key, c)
    case Some(p) =>
      && p < c
      && l.callers[p].key == l.callers[c].key
      && forall d | p < d < c :: l.callers[d].key != l.callers[c].key
  }

  ghost predicate TailIsLast(l: Lock, key: string)
    requires key in l.tails
  {
    && l.tails[key] < |l.callers|
    && l.callers[l.tails[key]].key == key
    && forall d | l.tails[key] < d < |l.callers| :: l.callers[d].key != key
  }

  ghost predicate Inv(l: Lock) {
    && (forall c | 0 <= c < |l.callers| :: Linked(l, c))
    && (forall c | 0 <= c < |l.callers| ::
          !l.callers[c].phase.Waiting? ==> AllFinishedBefore(l, l.callers[c].key, c))
    && (forall key | key in l.tails :: TailIsLast(l, key))
    && (forall c | 0 <= c < |l.callers| :: l.callers[c].key !in l.tails ==> l.callers[c].phase.Finished?)
  }

  /** A resolved tail means that it and every earlier caller of the key have left. */
  lemma {:induction false} ResolvedMeansFinished(l: Lock, c: nat)
    requires Inv(l) && TailResolved(l, c)
    ensures AllFinishedBefore(l, l.callers[c].key, c + 1)
  {
    assert Linked(l, c);
    if l.callers[c].previous.Some? {
      ResolvedMeansFinished(l, l.callers[c].previous.value);
    }
  }

  lemma {:induction false} FinishedMeansResolved(l: Lock, c: nat)
    requires Inv(l) && c < |l.callers| && AllFinishedBefore(l, l.callers[c].key, c + 1)
    ensures TailResolved(l, c)
  {
    assert Linked(l, c);
    if l.callers[c].previous.Some? {
      FinishedMeansResolved(l, l.callers[c].previous.value);
    }
  }

  lemma EnterKeepsInv(l: Lock, c: nat)
    requires Inv(l) && MayEnter(l, c)
    ensures Inv(Step(l, Enter(c)))
  {
    assert Linked(l, c);
    if l.callers[c].previous.Some? {
      ResolvedMeansFinished(l, l.callers[c].previous.value);
    }
    var l' := Step(l, Enter(c));
    forall d | 0 <= d < |l'.callers| ensures Linked(l', d) {
      assert Linked(l, d);
    }
    forall key | key in l'.tails ensures TailIsLast(l', key) {
      assert TailIsLast(l, key);
    }
  }

  lemma LeaveKeepsInv(l: Lock, c: nat, failed: bool)
    requires Inv(l) && c < |l.callers| && l.callers[c].phase.Running?
    ensures Inv(Step(l, Leave(c, failed)))
  {
    var l' := Step(l, Leave(c, failed));
    forall d | 0 <= d < |l'.callers| ensures Linked(l', d) {
      assert Linked(l, d);
    }
    forall key | key in l'.tails ensures TailIsLast(l', key) {
      assert TailIsLast(l, key);
    }
    forall d | 0 <= d < |l'.callers| && l'.callers[d].key !in l'.tails ensures l'.callers[d].phase.Finished? {
      if l'.callers[d].key in l.tails {
        assert TailIsLast(l, l'.callers[d].key);
      }
    }
  }

  lemma ArriveKeepsInv(l: Lock, key: string)
    requires Inv(l)
    ensures Inv(Step(l, Arrive(key)))
  {
    var l' := Step(l, Arrive(key));
    forall d | 0 <= d < |l'.callers| ensures Linked(l', d) {
      if d < |l.callers| {
        assert Linked(l, d);
      } else if key in l.tails {
        assert TailIsLast(l, key);
      }
    }
    forall k | k in l'.tails ensures TailIsLast(l', k) {
      if k != key {
        assert TailIsLast(l, k);
      }
    }
  }

  lemma {:induction false} RunKeepsInv(actions: seq<Action>)
    ensures Inv(Run(actions))
  {
    if actions != [] {
      var l, a := Run(actions[..|actions| - 1]), actions[|actions| - 1];
      RunKeepsInv(actions[..|actions| - 1]);
      if Step(l, a) != l {
        match a
        case Arrive(key) => ArriveKeepsInv(l, key);
        case Enter(c) => EnterKeepsInv(l, c);
        case Leave(c, failed) => LeaveKeepsInv(l, c, failed);
      }
    }
  }

  /**
   For every interleaving of arrivals, entries and exits (failed or not): at most one caller of a key
   runs, and whoever has entered was preceded, in arrival order, only by callers that have left.
   */
  lemma MutualExclusionInArrivalOrder(actions: seq<Action>)
    ensures var l := Run(actions);
      && (forall c, d | 0 <= c < d < |l.callers| ::
            l.callers[c].key == l.callers[d].key ==> !(l.callers[c].phase.Running? && l.callers[d].phase.Running?))
      && (forall c, d | 0 <= c < d < |l.callers| ::
            l.callers[c].key == l.callers[d].key && !l.callers[d].phase.Waiting? ==> l.callers[c].phase.Finished?)
  {
    RunKeepsInv(actions);
  }

  /** The lock is never stuck: the earliest caller of a key that has not left runs or may enter. */
  lemma EarliestCanProceed(actions: seq<Action>, c: nat)
    requires c < |Run(actions).callers| && !Run(actions).callers[c].phase.Finished?
    requires AllFinishedBefore(Run(actions), Run(actions).callers[c].key, c)
    ensures Run(actions).callers[c].phase.Running? || MayEnter(Run(actions), c)
  {
    var l := Run(actions);
    RunKeepsInv(actions);
    assert Linked(l, c);
    if l.callers[c].previous.Some? {
      FinishedMeansResolved(l, l.callers[c].previous.value);
    }
  }

  /** Nobody can enter out of turn. */
  lemma EntryIsInTurn(actions: seq<Action>, c: nat)
    requires MayEnter(Run(actions), c)
    ensures AllFinishedBefore(Run(actions), Run(actions).callers[c].key, c)
  {
    var l := Run(actions);
    RunKeepsInv(actions);
    assert Linked(l, c);
    if l.callers[c].previous.Some? {
      ResolvedMeansFinished(l, l.callers[c].previous.value);
    }
  }
}
