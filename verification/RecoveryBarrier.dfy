/** The barrier between listeners and recovery: any number of listeners or one recovery,
    recoveries first come first served and ahead of new listeners. */
module RecoveryBarrier {
  import opened Blocks

  /** Who holds the barrier and who waits for it. */
  datatype State = State(listeners: set<nat>, recovery: Option<nat>, listenerQueue: seq<nat>, recoveryQueue: seq<nat>)

  datatype Event =
    | ListenerArrives(id: nat)
    | RecoveryArrives(id: nat)
    | ListenerLeaves(id: nat)
    | RecoveryLeaves(id: nat)

  const IDLE := State({}, None, [], [])

  predicate Known(s: State, id: nat) {
    id in s.listeners || s.recovery == Some(id) || id in s.listenerQueue || id in s.recoveryQueue
  }

  predicate Enabled(s: State, e: Event) {
    match e
    case ListenerArrives(id) => !Known(s, id)
    case RecoveryArrives(id) => !Known(s, id)
    case ListenerLeaves(id) => id in s.listeners
    case RecoveryLeaves(id) => s.recovery == Some(id)
  }

  function Members(q: seq<nat>): set<nat> {
    set id | id in q
  }

  function StartNext(s: State): State {
    if s.recovery.Some? || s.listeners != {} || s.recoveryQueue == [] then s
    else s.(recovery := Some(s.recoveryQueue[0]), recoveryQueue := s.recoveryQueue[1..])
  }

  function Step(s: State, e: Event): State {
    match e
    case ListenerArrives(id) =>
      if s.recovery.None? && s.recoveryQueue == [] then s.(listeners := s.listeners + {id})
      else s.(listenerQueue := s.listenerQueue + [id])
    case RecoveryArrives(id) =>
      if s.recovery.None? && s.listeners == {} then s.(recovery := Some(id))
      else s.(recoveryQueue := s.recoveryQueue + [id])
    case ListenerLeaves(id) => StartNext(s.(listeners := s.listeners - {id}))
    case RecoveryLeaves(_) =>
      if s.recoveryQueue != [] then StartNext(s.(recovery := None))
      else State(s.listeners + Members(s.listenerQueue), None, [], [])
  }

  predicate NoRepeats(q: seq<nat>) {
    forall i, k :: 0 <= i < k < |q| ==> q[i] != q[k]
  }

  /** Nobody is in two places. */
  predicate Placed(s: State) {
    && NoRepeats(s.listenerQueue) && NoRepeats(s.recoveryQueue)
    && (forall id :: id in s.listenerQueue ==> id !in s.listeners && s.recovery != Some(id) && id !in s.recoveryQueue)
    && (forall id :: id in s.recoveryQueue ==> id !in s.listeners && s.recovery != Some(id))
    && (s.recovery.Some? ==> s.recovery.value !in s.listeners)
  }

  /** A recovery is alone; an idle barrier has nobody waiting; a listener only waits behind a recovery. */
  predicate Inv(s: State) {
    && Placed(s)
    && (s.recovery.Some? ==> s.listeners == {})
    && (s.recovery.None? && s.listeners == {} ==> s.listenerQueue == [] && s.recoveryQueue == [])
    && (s.listenerQueue != [] ==> s.recovery.Some? || s.recoveryQueue != [])
  }

  class RuntimeRecoveryBarrier {
    var activeListeners: nat
    var recoveryActive: bool
    var listenerWaiters: seq<nat>
    var recoveryWaiters: seq<nat>
    ghost var listeners: set<nat>
    ghost var recovery: Option<nat>

    constructor ()
      ensures Valid() && Now() == IDLE
    {
      activeListeners, recoveryActive, listenerWaiters, recoveryWaiters := 0, false, [], [];
      listeners, recovery := {}, None;
    }

    ghost function Now(): State
      reads this
    {
      State(listeners, recovery, listenerWaiters, recoveryWaiters)
    }

    ghost predicate Valid()
      reads this
    {
      activeListeners == |listeners| && recoveryActive == recovery.Some? && Inv(Now())
    }

    /** Enter as a listener.  Inside a listener that is still running it never waits. */
    method AcquireListener(id: nat, nested: bool) returns (granted: bool)
      requires Valid() && (!nested ==> Enabled(Now(), ListenerArrives(id)))
      modifies this
      ensures Valid()
      ensures nested ==> granted && Now() == old(Now())
      ensures !nested ==> Now() == Step(old(Now()), ListenerArrives(id)) && (granted <==> id in listeners)
    {
      if nested {
        return true;
      }
      StepKeeps(Now(), ListenerArrives(id));
      if !recoveryActive && |recoveryWaiters| == 0 {
        activeListeners := activeListeners + 1;
        listeners := listeners + {id};
        return true;
      }
      listenerWaiters := listenerWaiters + [id];
      granted := false;
    }

    method ReleaseListener(ghost id: nat)
      requires Valid() && Enabled(Now(), ListenerLeaves(id))
      modifies this
      ensures Valid() && Now() == Step(old(Now()), ListenerLeaves(id))
    {
      StepKeeps(Now(), ListenerLeaves(id));
      activeListeners := activeListeners - 1;
      listeners := listeners - {id};
      if activeListeners == 0 {
        StartNextRecovery();
      }
    }

    method AcquireRecovery(id: nat) returns (granted: bool)
      requires Valid() && Enabled(Now(), RecoveryArrives(id))
      modifies this
      ensures Valid() && Now() == Step(old(Now()), RecoveryArrives(id))
      ensures granted <==> recovery == Some(id)
    {
      StepKeeps(Now(), RecoveryArrives(id));
      if !recoveryActive && activeListeners == 0 {
        recoveryActive, recovery := true, Some(id);
        return true;
      }
      recoveryWaiters := recoveryWaiters + [id];
      granted := false;
    }

    method ReleaseRecovery(ghost id: nat)
      requires Valid() && Enabled(Now(), RecoveryLeaves(id))
      modifies this
      ensures Valid() && Now() == Step(old(Now()), RecoveryLeaves(id))
    {
      StepKeeps(Now(), RecoveryLeaves(id));
      recoveryActive, recovery := false, None;
      if |recoveryWaiters| > 0 {
        StartNextRecovery();
        return;
      }
      CardinalityOf(listenerWaiters);
      activeListeners := activeListeners + |listenerWaiters|;
      listeners := listeners + Members(listenerWaiters);
      listenerWaiters := [];
    }

    method StartNextRecovery()
      requires activeListeners == |listeners| && recoveryActive == recovery.Some?
      modifies this
      ensures activeListeners == |listeners| && recoveryActive == recovery.Some?
      ensures Now() == StartNext(old(Now()))
    {
      if recoveryActive || activeListeners > 0 || recoveryWaiters == [] {
        return;
      }
      recoveryActive, recovery := true, Some(recoveryWaiters[0]);
      recoveryWaiters := recoveryWaiters[1..];
    }
  }

  lemma {:induction false} CardinalityOf(q: seq<nat>)
    requires NoRepeats(q)
    ensures |Members(q)| == |q|
  {
    if q != [] {
      var n := |q| - 1;
      CardinalityOf(q[..n]);
      assert q == q[..n] + [q[n]];
      assert Members(q) == Members(q[..n]) + {q[n]};
    }
  }

  lemma StepKeeps(s: State, e: Event)
    requires Inv(s) && Enabled(s, e)
    ensures Inv(Step(s, e))
  {
  }

  // -------------------------------------------------------------- whole runs

  predicate Runs(s: State, es: seq<Event>)
    decreases |es|
  {
    es == [] || (Enabled(s, es[0]) && Runs(Step(s, es[0]), es[1..]))
  }

  function Final(s: State, es: seq<Event>): State
    decreases |es|
  {
    if es == [] then s else Final(Step(s, es[0]), es[1..])
  }

  /** In every run: no recovery ever overlaps a listener or another recovery, and no wakeup is lost. */
  lemma {:induction false} RunKeeps(s: State, es: seq<Event>)
    requires Inv(s) && Runs(s, es)
    ensures Inv(Final(s, es))
    decreases |es|
  {
    if es != [] {
      StepKeeps(s, es[0]);
      RunKeeps(Step(s, es[0]), es[1..]);
    }
  }

  function Index(q: seq<nat>, id: nat): (i: nat)
    requires id in q
    ensures i < |q| && q[i] == id
  {
    if q[0] == id then 0 else 1 + Index(q[1..], id)
  }

  function Leaves(es: seq<Event>): nat {
    if es == [] then 0 else
      (if es[0].ListenerLeaves? || es[0].RecoveryLeaves? then 1 else 0) + Leaves(es[1..])
  }

  /** How many holders have to leave before a waiting recovery gets its turn. */
  function Ahead(s: State, id: nat): nat
    requires id in s.recoveryQueue
  {
    |s.listeners| + (if s.recovery.Some? then 1 else 0) + Index(s.recoveryQueue, id)
  }

  lemma IndexUnique(q: seq<nat>, id: nat, i: nat)
    requires NoRepeats(q) && i < |q| && q[i] == id
    ensures Index(q, id) == i
  {
  }

  /** One step for a waiting recovery: only a departure brings it closer, by exactly one. */
  lemma WaitingStep(s: State, e: Event, id: nat)
    requires Inv(s) && Enabled(s, e) && id in s.recoveryQueue
    ensures var t := Step(s, e); var left := if e.ListenerLeaves? || e.RecoveryLeaves? then 1 else 0;
      && t.listeners <= s.listeners
      && Ahead(s, id) >= 1
      && (id in t.recoveryQueue ==> Ahead(t, id) == Ahead(s, id) - left)
      && (id !in t.recoveryQueue ==> t.recovery == Some(id) && Ahead(s, id) == left == 1)
  {
    var t := Step(s, e);
    var i := Index(s.recoveryQueue, id);
    match e
    case ListenerArrives(_) =>
    case RecoveryArrives(x) =>
      IndexUnique(t.recoveryQueue, id, i);
    case ListenerLeaves(x) =>
      if s.listeners != {x} {
        assert s.listeners - {x} != {};
      }
      if i > 0 && t.recoveryQueue != s.recoveryQueue {
        assert t.recoveryQueue[i - 1] == id;
        IndexUnique(t.recoveryQueue, id, i - 1);
      }
    case RecoveryLeaves(_) =>
      if i > 0 {
        assert t.recoveryQueue[i - 1] == id;
        IndexUnique(t.recoveryQueue, id, i - 1);
      }
  }

  /** The recovery's turn, exactly: as long as fewer holders have left than were ahead of
      it, it still waits and no listener has got in; with the last of them it holds the
      barrier.  What arrives in the meantime makes no difference. */
  lemma {:induction false} Turn(s: State, es: seq<Event>, id: nat)
    requires Inv(s) && Runs(s, es) && id in s.recoveryQueue
    requires Leaves(es) < Ahead(s, id)
    ensures id in Final(s, es).recoveryQueue
    ensures Final(s, es).listeners <= s.listeners
    ensures Ahead(Final(s, es), id) == Ahead(s, id) - Leaves(es)
    decreases |es|
  {
    if es != [] {
      WaitingStep(s, es[0], id);
      StepKeeps(s, es[0]);
      Turn(Step(s, es[0]), es[1..], id);
    }
  }

  lemma TurnComes(s: State, es: seq<Event>, last: Event, id: nat)
    requires Inv(s) && Runs(s, es) && id in s.recoveryQueue && Leaves(es) + 1 == Ahead(s, id)
    requires Enabled(Final(s, es), last) && (last.ListenerLeaves? || last.RecoveryLeaves?)
    ensures Step(Final(s, es), last).recovery == Some(id)
  {
    Turn(s, es, id);
    RunKeeps(s, es);
    WaitingStep(Final(s, es), last, id);
  }

  /** The recovery that a step lets in, if any. */
  function LetIn(s: State, e: Event): seq<nat> {
    var t := Step(s, e);
    if t.recovery != s.recovery && t.recovery.Some? then [t.recovery.value] else []
  }

  function AllLetIn(s: State, es: seq<Event>): seq<nat>
    decreases |es|
  {
    if es == [] then [] else LetIn(s, es[0]) + AllLetIn(Step(s, es[0]), es[1..])
  }

  /** A step lets in the first of the queue or nobody, and nobody leaves the queue otherwise. */
  lemma QueueStep(s: State, e: Event)
    requires Inv(s) && Enabled(s, e) && s.recoveryQueue != []
    ensures if LetIn(s, e) == [] then s.recoveryQueue <= Step(s, e).recoveryQueue
            else LetIn(s, e) == [s.recoveryQueue[0]] && Step(s, e).recoveryQueue == s.recoveryQueue[1..]
  {
  }

  lemma LetInStep(s: State, e: Event, id: nat)
    requires Inv(s) && Enabled(s, e) && id in s.recoveryQueue && id in Step(s, e).recoveryQueue
    ensures LetIn(s, e) <= s.recoveryQueue && s.recoveryQueue[|LetIn(s, e)|..] <= Step(s, e).recoveryQueue
    ensures Index(Step(s, e).recoveryQueue, id) == Index(s.recoveryQueue, id) - |LetIn(s, e)|
  {
    QueueStep(s, e);
    StepKeeps(s, e);
    ShiftedIndex(s.recoveryQueue, Step(s, e).recoveryQueue, |LetIn(s, e)|, id);
  }

  lemma ShiftedIndex(q: seq<nat>, r: seq<nat>, n: nat, id: nat)
    requires NoRepeats(q) && NoRepeats(r) && id in q && id in r && n <= 1 <= |q| && q[n..] <= r
    requires n == 1 ==> r == q[1..]
    ensures Index(r, id) == Index(q, id) - n
  {
    if n == 1 {
      var k := Index(r, id);
      assert q[k + 1] == r[k];
      IndexUnique(q, id, k + 1);
    } else {
      var i := Index(q, id);
      assert q[n..][i] == r[i];
      IndexUnique(r, id, i);
    }
  }

  /** First come, first served: while a recovery waits, those let in are exactly the first
      of those queued before it, in their order. */
  lemma {:induction false} FirstComeFirstServed(s: State, es: seq<Event>, id: nat)
    requires Inv(s) && Runs(s, es) && id in s.recoveryQueue && Leaves(es) < Ahead(s, id)
    ensures AllLetIn(s, es) <= s.recoveryQueue[..Index(s.recoveryQueue, id)]
    decreases |es|
  {
    if es != [] {
      var t := Step(s, es[0]);
      WaitingStep(s, es[0], id);
      StepKeeps(s, es[0]);
      FirstComeFirstServed(t, es[1..], id);
      LetInStep(s, es[0], id);
      PrefixJoin(s.recoveryQueue, t.recoveryQueue, LetIn(s, es[0]), AllLetIn(t, es[1..]), Index(s.recoveryQueue, id));
    }
  }

  lemma PrefixJoin(q: seq<nat>, r: seq<nat>, got: seq<nat>, rest: seq<nat>, i: nat)
    requires |got| <= i <= |q| && got <= q && q[|got|..] <= r && rest <= r[..i - |got|]
    ensures got + rest <= q[..i]
  {
    var n := |got|;
    assert r[..i - n] == q[n..i];
    assert q[..i] == q[..n] + q[n..i];
  }
}
