/** Coalescing of reconciliation requests: one pass at a time, each taking a snapshot of
    the pairs requested, and waiters answered when the pass that took their pair up ends. */
module Orchestrator {
  import opened Blocks

  /** `Leaving`: the last pass of a series has ended, but its promise has not been cleared yet. */
  datatype Phase = Idle | InPass(snapshot: set<string>, targets: set<string>) | Leaving

  /** `Resolved(k, over)`: by the end of the `k`-th pass; was the pair among those it ran over? */
  datatype Outcome = Resolved(pass: nat, over: bool) | Rejected

  /** When a waiter came: for which pair, how many passes had begun, and whether the running one had taken the pair up. */
  datatype Asked = Asked(pair: string, begun: nat, taken: bool)

  datatype State = State(
    listeners: set<string>, pending: map<nat, string>, requested: set<string>, requestAll: bool,
    rerun: bool, scheduled: bool, stopped: bool, phase: Phase,
    begun: nat, outcomes: map<nat, Outcome>, asked: map<nat, Asked>,
    registered: seq<set<string>>)  // the pairs registered when each pass began

  /** What happens between two awaits.  `canRun` is what the caller's guard answers. */
  datatype Event =
    | Register(pair: string)
    | Unregister(pair: string)
    | Stop
    | Signal(about: Option<string>, canRun: bool)
    | RequestAndWait(pair: string, waiter: nat, canRun: bool)
    | ScheduledStart(canRun: bool)
    | PassEnds(ok: bool, canRun: bool)
    | PromiseCleared

  predicate Enabled(s: State, e: Event) {
    match e
    case RequestAndWait(_, w, _) => w !in s.pending && w !in s.outcomes && w !in s.asked
    case ScheduledStart(_) => s.scheduled
    case PassEnds(_, _) => s.phase.InPass?
    case PromiseCleared => s.phase.Leaving?
    case _ => true
  }

  /** Reject everybody who waits for one of the pairs. */
  function FailPairs(s: State, pairs: set<string>): State {
    s.(pending := map w | w in s.pending && s.pending[w] !in pairs :: s.pending[w],
       outcomes := s.outcomes + map w | w in s.pending && s.pending[w] in pairs :: Rejected)
  }

  function OnSignal(s: State, pair: Option<string>, canRun: bool): State {
    if s.stopped then s
    else if pair.Some? && pair.value !in s.listeners then FailPairs(s, {pair.value})
    else
      var t := if pair.Some? then s.(requested := s.requested + {pair.value}) else s.(requestAll := true);
      if !s.phase.Idle? then t.(rerun := true)
      else if !canRun || s.scheduled then t
      else t.(scheduled := true)
  }

  /** The running pass took the request for this pair up, and answers its waiters. */
  predicate Takes(s: State, pair: string) {
    s.phase.InPass? && pair in s.phase.snapshot
  }

  /** The running pass runs over this pair. */
  predicate Covers(s: State, pair: string) {
    s.phase.InPass? && pair in s.phase.targets
  }

  function OnRequest(s: State, pair: string, w: nat, canRun: bool): State {
    if s.stopped || pair !in s.listeners then s.(outcomes := s.outcomes[w := Rejected])
    else OnSignal(s.(pending := s.pending[w := pair], asked := s.asked[w := Asked(pair, s.begun, Takes(s, pair))]), Some(pair), canRun)
  }

  /** Take the requests as they are and start a pass over them. */
  function Begin(s: State): State {
    s.(rerun := false, requested := {}, requestAll := false, begun := s.begun + 1, registered := s.registered + [s.listeners],
       phase := InPass(s.requested, if s.requestAll then s.listeners else s.requested * s.listeners))
  }

  /** What a waiter of a pair that was taken up is told. */
  function Verdict(s: State, pair: string, ok: bool): Outcome
    requires s.phase.InPass?
  {
    if pair in s.phase.targets then (if ok then Resolved(s.begun, true) else Rejected)
    else if pair in s.listeners then Resolved(s.begun, false) else Rejected
  }

  function SettleSnapshot(s: State, ok: bool): State
    requires s.phase.InPass?
  {
    s.(pending := map w | w in s.pending && s.pending[w] !in s.phase.snapshot :: s.pending[w],
       outcomes := s.outcomes + map w | w in s.pending && s.pending[w] in s.phase.snapshot :: Verdict(s, s.pending[w], ok))
  }

  function Step(s: State, e: Event): State
    requires Enabled(s, e)
  {
    match e
    case Register(p) => s.(listeners := s.listeners + {p})
    case Unregister(p) =>
      var t := s.(listeners := s.listeners - {p});
      if s.phase.InPass? && p in s.phase.targets then t else FailPairs(t, {p})
    case Stop =>
      FailPairs(s, if s.requestAll then s.pending.Values else s.requested).(requested := {}, requestAll := false, stopped := true)
    case Signal(p, canRun) => OnSignal(s, p, canRun)
    case RequestAndWait(p, w, canRun) => OnRequest(s, p, w, canRun)
    case ScheduledStart(canRun) =>
      if s.stopped || !s.phase.Idle? || !canRun then s.(scheduled := false) else Begin(s.(scheduled := false))
    case PassEnds(ok, canRun) =>
      var t := SettleSnapshot(s, ok);
      if s.rerun && !s.stopped && canRun then Begin(t) else t.(phase := Leaving)
    case PromiseCleared => s.(phase := Idle)
  }

  const FRESH := State({}, map[], {}, false, false, false, false, Idle, 0, map[], map[], [])

  // ------------------------------------------------------------- invariants

  /** A waiter's pair is requested, or the running pass has taken it up. */
  predicate Attended(s: State, w: nat)
    requires w in s.pending
  {
    s.pending[w] in s.requested || Takes(s, s.pending[w])
  }

  /** A waiter is answered by the pass that had taken its pair up when it came, otherwise by the next one to begin. */
  predicate OnTime(s: State, w: nat)
    requires w in s.pending
  {
    && w in s.asked && s.asked[w].pair == s.pending[w]
    && if s.asked[w].taken then s.begun == s.asked[w].begun && Takes(s, s.pending[w])
       else (s.begun == s.asked[w].begun && s.pending[w] in s.requested && !Takes(s, s.pending[w]))
            || (s.begun == s.asked[w].begun + 1 && Takes(s, s.pending[w]))
  }

  /** Which pass answered, and whether it ran over the pair: exactly when the pair was registered as it began. */
  predicate AnsweredOnTime(s: State, w: nat)
    requires w in s.outcomes
  {
    s.outcomes[w].Resolved? ==>
      && w in s.asked && s.outcomes[w].pass == s.asked[w].begun + (if s.asked[w].taken then 0 else 1)
      && 1 <= s.outcomes[w].pass <= |s.registered|
      && (s.outcomes[w].over <==> s.asked[w].pair in s.registered[s.outcomes[w].pass - 1])
  }

  /** One entry for every pass begun; the running pass runs over what it took up and was registered then. */
  predicate Kept(s: State) {
    && |s.registered| == s.begun
    && (s.phase.InPass? ==> s.begun > 0 && forall p :: p in s.phase.snapshot ==> (p in s.phase.targets <==> p in s.registered[s.begun - 1]))
  }

  predicate Inv(s: State) {
    && (forall w :: w in s.pending ==> w !in s.outcomes && Attended(s, w) && OnTime(s, w))
    && (forall w :: w in s.outcomes ==> AnsweredOnTime(s, w))
    && (s.scheduled ==> s.phase.Idle?)
    && Kept(s)
  }

  lemma FailKeeps(s: State, pairs: set<string>)
    requires Inv(s)
    ensures Inv(FailPairs(s, pairs))
  {
  }

  lemma SignalKeeps(s: State, pair: Option<string>, canRun: bool)
    requires (forall w :: w in s.pending ==> w !in s.outcomes && OnTime(s.(requested := s.requested + SetOf(pair)), w)
                                             && Attended(s.(requested := s.requested + SetOf(pair)), w))
    requires (forall w :: w in s.outcomes ==> AnsweredOnTime(s, w)) && (s.scheduled ==> s.phase.Idle?) && Kept(s)
    requires !s.stopped && (pair.Some? ==> pair.value in s.listeners)
    ensures Inv(OnSignal(s, pair, canRun))
  {
  }

  function SetOf(pair: Option<string>): set<string> {
    if pair.Some? then {pair.value} else {}
  }

  /** Between passes: every waiter waits for the next one, and nobody was answered early. */
  ghost predicate Between(t: State) {
    && (forall w :: w in t.pending ==> w !in t.outcomes && t.pending[w] in t.requested && w in t.asked && !t.asked[w].taken
                                       && t.asked[w].pair == t.pending[w] && t.begun == t.asked[w].begun)
    && (forall w :: w in t.outcomes ==> AnsweredOnTime(t, w)) && |t.registered| == t.begun && !t.scheduled
  }

  lemma SettleKeeps(s: State, ok: bool)
    requires Inv(s) && s.phase.InPass?
    ensures Between(SettleSnapshot(s, ok))
  {
    var t := SettleSnapshot(s, ok);
    forall w | w in t.outcomes ensures AnsweredOnTime(t, w) {
      if w in s.outcomes {
        assert AnsweredOnTime(s, w);
      }
    }
  }

  lemma StepKeeps(s: State, e: Event)
    requires Inv(s) && Enabled(s, e)
    ensures Inv(Step(s, e))
  {
    match e
    case Unregister(p) =>
      FailKeeps(s.(listeners := s.listeners - {p}), {p});
    case Stop =>
      StopKeeps(s);
    case Signal(p, canRun) =>
      if !s.stopped {
        if p.Some? && p.value !in s.listeners {
          FailKeeps(s, {p.value});
        } else {
          SignalKeeps(s, p, canRun);
        }
      }
    case RequestAndWait(p, w, canRun) =>
      RequestKeeps(s, p, w, canRun);
    case PassEnds(ok, canRun) =>
      EndKeeps(s, ok, canRun);
    case ScheduledStart(canRun) =>
      StartKeeps(s, canRun);
    case Register(_) =>
    case PromiseCleared =>
  }

  lemma EndKeeps(s: State, ok: bool, canRun: bool)
    requires Inv(s) && s.phase.InPass?
    ensures Inv(Step(s, PassEnds(ok, canRun)))
  {
    SettleKeeps(s, ok);
    if s.rerun && !s.stopped && canRun {
      BeginKeeps(SettleSnapshot(s, ok));
    } else {
      LeaveKeeps(SettleSnapshot(s, ok));
    }
  }

  lemma LeaveKeeps(s: State)
    requires Between(s)
    ensures Inv(s.(phase := Leaving))
  {
  }

  lemma StartKeeps(s: State, canRun: bool)
    requires Inv(s) && s.scheduled
    ensures Inv(Step(s, ScheduledStart(canRun)))
  {
    if !s.stopped && canRun {
      BeginKeeps(s.(scheduled := false));
    }
  }

  lemma RequestKeeps(s: State, p: string, w: nat, canRun: bool)
    requires Inv(s) && Enabled(s, RequestAndWait(p, w, canRun))
    ensures Inv(OnRequest(s, p, w, canRun))
  {
    if !s.stopped && p in s.listeners {
      SignalKeeps(s.(pending := s.pending[w := p], asked := s.asked[w := Asked(p, s.begun, Takes(s, p))]), Some(p), canRun);
    }
  }

  lemma BeginKeeps(s: State)
    requires Between(s)
    ensures Inv(Begin(s))
  {
  }

  lemma StopKeeps(s: State)
    requires Inv(s)
    ensures Inv(Step(s, Stop))
  {
  }

  /** The orchestrator itself.  Its methods are the parts between two awaits. */
  class SwapReconcileOrchestrator {
    var listeners: set<string>
    var pairWaiters: map<nat, string>
    var requestedPairs: set<string>
    var requestAll: bool
    var rerunRequested: bool
    var startScheduled: bool
    var stopped: bool
    var running: Phase
    ghost var begun: nat
    ghost var outcomes: map<nat, Outcome>
    ghost var asked: map<nat, Asked>
    ghost var registered: seq<set<string>>

    constructor ()
      ensures Now() == FRESH
    {
      listeners, pairWaiters, requestedPairs, requestAll := {}, map[], {}, false;
      rerunRequested, startScheduled, stopped, running := false, false, false, Idle;
      begun, outcomes, asked, registered := 0, map[], map[], [];
    }

    ghost function Now(): State
      reads this
    {
      State(listeners, pairWaiters, requestedPairs, requestAll, rerunRequested, startScheduled, stopped, running,
            begun, outcomes, asked, registered)
    }

    method RegisterPair(pair: string)
      modifies this
      ensures Now() == Step(old(Now()), Register(pair))
    {
      listeners := listeners + {pair};
    }

    method FailWaiters(pairs: set<string>)
      modifies this
      ensures Now() == FailPairs(old(Now()), pairs)
    {
      outcomes := outcomes + map w | w in pairWaiters && pairWaiters[w] in pairs :: Rejected;
      pairWaiters := map w | w in pairWaiters && pairWaiters[w] !in pairs :: pairWaiters[w];
    }

    method UnregisterPair(pair: string)
      modifies this
      ensures Now() == Step(old(Now()), Unregister(pair))
    {
      listeners := listeners - {pair};
      if running.InPass? && pair in running.targets {
        return;
      }
      FailWaiters({pair});
    }

    method StopAll()
      modifies this
      ensures Now() == Step(old(Now()), Stop)
    {
      stopped := true;
      FailWaiters(if requestAll then pairWaiters.Values else requestedPairs);
      requestedPairs, requestAll := {}, false;
    }

    method SignalPair(pair: Option<string>, canRun: bool)
      modifies this
      ensures Now() == OnSignal(old(Now()), pair, canRun)
    {
      if stopped {
        return;
      }
      if pair.Some? {
        if pair.value !in listeners {
          FailWaiters({pair.value});
          return;
        }
        requestedPairs := requestedPairs + {pair.value};
      } else {
        requestAll := true;
      }
      if !running.Idle? {
        rerunRequested := true;
        return;
      }
      if !canRun || startScheduled {
        return;
      }
      startScheduled := true;
    }

    method RequestPair(pair: string, waiter: nat, canRun: bool)
      requires Enabled(Now(), RequestAndWait(pair, waiter, canRun))
      modifies this
      ensures Now() == Step(old(Now()), RequestAndWait(pair, waiter, canRun))
    {
      if stopped || pair !in listeners {
        outcomes := outcomes[waiter := Rejected];
        return;
      }
      asked := asked[waiter := Asked(pair, begun, Takes(Now(), pair))];
      pairWaiters := pairWaiters[waiter := pair];
      SignalPair(Some(pair), canRun);
    }

    /** The part of a pass before the shared reconciliation is awaited. */
    method BeginPass()
      modifies this
      ensures Now() == Begin(old(Now()))
    {
      rerunRequested := false;
      var runAll, snapshot := requestAll, requestedPairs;
      requestAll, requestedPairs := false, {};
      running := InPass(snapshot, if runAll then listeners else snapshot * listeners);
      begun, registered := begun + 1, registered + [listeners];
    }

    method FireScheduledStart(canRun: bool)
      requires startScheduled
      modifies this
      ensures Now() == Step(old(Now()), ScheduledStart(canRun))
    {
      startScheduled := false;
      if stopped || !running.Idle? || !canRun {
        return;
      }
      BeginPass();
    }

    method SettleWaiters(ok: bool)
      requires running.InPass?
      modifies this
      ensures Now() == SettleSnapshot(old(Now()), ok)
    {
      ghost var s := Now();
      outcomes := outcomes + map w | w in pairWaiters && pairWaiters[w] in running.snapshot :: Verdict(s, pairWaiters[w], ok);
      pairWaiters := map w | w in pairWaiters && pairWaiters[w] !in running.snapshot :: pairWaiters[w];
    }

    /** The part of a pass after it, and the decision about another one. */
    method EndPass(ok: bool, canRun: bool)
      requires running.InPass?
      modifies this
      ensures Now() == Step(old(Now()), PassEnds(ok, canRun))
    {
      SettleWaiters(ok);
      if rerunRequested && !stopped && canRun {
        BeginPass();
      } else {
        running := Leaving;
      }
    }

    method ClearPromise()
      requires running.Leaving?
      modifies this
      ensures Now() == Step(old(Now()), PromiseCleared)
    {
      running := Idle;
    }
  }

  // --------------------------------------------------------------- whole runs

  predicate Runs(s: State, es: seq<Event>)
    decreases |es|
  {
    es == [] || (Enabled(s, es[0]) && Runs(Step(s, es[0]), es[1..]))
  }

  function Final(s: State, es: seq<Event>): State
    requires Runs(s, es)
    decreases |es|
  {
    if es == [] then s else Final(Step(s, es[0]), es[1..])
  }

  /** In every run each pending waiter is attended to, and each answered one was answered by the
      running pass if that had taken its pair up when it came, otherwise by the next pass to begin;
      that pass ran over the pair exactly when the pair was registered as the pass began. */
  lemma {:induction false} RunKeeps(s: State, es: seq<Event>)
    requires Inv(s) && Runs(s, es)
    ensures Inv(Final(s, es))
    decreases |es|
  {
    if es != [] {
      StepKeeps(s, es[0]);
      RunKeeps(Step(s, es[0]), es[1..]);
    }
  }

  /** Who answered: the pass that had taken the pair up when the waiter came, else the next one; and it
      ran over the pair if and only if the pair was registered when that pass began. */
  lemma WhoAnswered(es: seq<Event>, w: nat)
    requires Runs(FRESH, es) && w in Final(FRESH, es).outcomes && Final(FRESH, es).outcomes[w].Resolved?
    ensures var t := Final(FRESH, es);
      && w in t.asked && t.outcomes[w].pass == t.asked[w].begun + (if t.asked[w].taken then 0 else 1)
      && 1 <= t.outcomes[w].pass <= |t.registered|
      && (t.outcomes[w].over <==> t.asked[w].pair in t.registered[t.outcomes[w].pass - 1])
  {
    RunKeeps(FRESH, es);
    assert AnsweredOnTime(Final(FRESH, es), w);
  }

  /** `w` has its answer in both states, and the same. */
  predicate SameAnswer(s: State, t: State, w: nat) {
    w in s.outcomes && w in t.outcomes && t.outcomes[w] == s.outcomes[w] && w !in t.pending
  }

  lemma SignalAnswer(s: State, pair: Option<string>, canRun: bool, w: nat)
    requires w in s.outcomes && w !in s.pending
    ensures SameAnswer(s, OnSignal(s, pair, canRun), w)
  {
  }

  lemma SettleAnswer(s: State, ok: bool, w: nat)
    requires w in s.outcomes && w !in s.pending && s.phase.InPass?
    ensures SameAnswer(s, SettleSnapshot(s, ok), w)
  {
  }

  lemma OutcomeStep(s: State, e: Event, w: nat)
    requires Enabled(s, e) && w in s.outcomes && w !in s.pending
    ensures SameAnswer(s, Step(s, e), w)
  {
    match e
    case Signal(p, canRun) => SignalAnswer(s, p, canRun, w);
    case RequestAndWait(p, x, canRun) =>
      if !s.stopped && p in s.listeners {
        SignalAnswer(s.(pending := s.pending[x := p], asked := s.asked[x := Asked(p, s.begun, Takes(s, p))]), Some(p), canRun, w);
      }
    case PassEnds(ok, canRun) => SettleAnswer(s, ok, w);
    case _ =>
  }

  /** A waiter is answered at most once: its answer never changes, and it never waits again. */
  lemma {:induction false} AnsweredOnce(s: State, es: seq<Event>, w: nat)
    requires Inv(s) && Runs(s, es) && w in s.outcomes
    ensures SameAnswer(s, Final(s, es), w)
    decreases |es|
  {
    if es != [] {
      StepKeeps(s, es[0]);
      OutcomeStep(s, es[0], w);
      AnsweredOnce(Step(s, es[0]), es[1..], w);
    }
  }

  lemma SignalOnlyAdds(s: State, pair: Option<string>, canRun: bool)
    ensures s.requested <= OnSignal(s, pair, canRun).requested && OnSignal(s, pair, canRun).begun == s.begun
  {
  }

  lemma RequestOnlyAdds(s: State, pair: string, w: nat, canRun: bool)
    ensures s.requested <= OnRequest(s, pair, w, canRun).requested && OnRequest(s, pair, w, canRun).begun == s.begun
  {
    SignalOnlyAdds(s.(pending := s.pending[w := pair], asked := s.asked[w := Asked(pair, s.begun, Takes(s, pair))]), Some(pair), canRun);
  }

  /** Only a beginning pass and stopping take requests away. */
  lemma StepRequests(s: State, e: Event)
    requires Enabled(s, e)
    ensures var t := Step(s, e);
      || (t.begun == s.begun && (s.requested <= t.requested || e.Stop?))
      || (t.begun == s.begun + 1 && t.phase.InPass? && t.phase.snapshot == s.requested
          && ((s.phase.Idle? && e.ScheduledStart?) || (s.phase.InPass? && e.PassEnds?)))
  {
    match e
    case Signal(p, canRun) => SignalOnlyAdds(s, p, canRun);
    case RequestAndWait(p, w, canRun) => RequestOnlyAdds(s, p, w, canRun);
    case _ =>
  }

  /** A requested pair is only ever taken out by the snapshot of a beginning pass, or by stopping. */
  lemma RequestsLeaveBySnapshot(s: State, e: Event, p: string)
    requires Enabled(s, e) && p in s.requested && p !in Step(s, e).requested
    ensures e.Stop? || (Step(s, e).begun == s.begun + 1 && Takes(Step(s, e), p))
  {
    StepRequests(s, e);
  }

  /** A pass begins only when none is running, or as the running one ends. */
  lemma OnePassAtATime(s: State, e: Event)
    requires Enabled(s, e) && Step(s, e).begun != s.begun
    ensures Step(s, e).begun == s.begun + 1 && (s.phase.Idle? || (s.phase.InPass? && e.PassEnds?))
  {
    StepRequests(s, e);
  }

  /** A waiter may be told that a pass succeeded which never ran over its pair: the pair had left
      when the pass began and was back when it ended. */
  lemma ResolvedUncovered(p: string)
    ensures var es := AwayAndBack(p);
      && Runs(FRESH, es) && 0 in Final(FRESH, es).outcomes
      && Final(FRESH, es).outcomes[0] == Resolved(1, false) && Final(FRESH, es).registered == [{}]
  {
    var es := AwayAndBack(p);
    var t4 := BeginsWithout(p);
    var t5 := Play(es, 4, t4);
    assert t5 == t4.(listeners := {p});
    var t6 := Play(es, 5, t5);
    assert t6 == t5.(pending := map[0 := p], requested := {p}, rerun := true, asked := map[0 := Asked(p, 1, true)]);
    var t7 := Play(es, 6, t6);
    assert es[..7] == es;
  }

  function AwayAndBack(p: string): seq<Event> {
    [Register(p), Signal(Some(p), true), Unregister(p), ScheduledStart(true), Register(p), RequestAndWait(p, 0, true), PassEnds(true, false)]
  }

  lemma BeginsWithout(p: string) returns (t: State)
    ensures Runs(FRESH, AwayAndBack(p)[..4]) && t == Final(FRESH, AwayAndBack(p)[..4])
    ensures t == State({}, map[], {}, false, false, false, false, InPass({p}, {}), 1, map[], map[], [{}])
  {
    var es := AwayAndBack(p);
    var t1 := Play(es, 0, FRESH);
    var t2 := Play(es, 1, t1);
    assert t2 == FRESH.(listeners := {p}, requested := {p}, scheduled := true);
    var t3 := Play(es, 2, t2);
    assert t3 == FRESH.(requested := {p}, scheduled := true);
    t := Play(es, 3, t3);
    assert {p} * t3.listeners == {};
  }

  /** One more event of `es`, from the state `t` that the first `n` lead to. */
  lemma Play(es: seq<Event>, n: nat, t: State) returns (u: State)
    requires n < |es| && Runs(FRESH, es[..n]) && t == Final(FRESH, es[..n]) && Enabled(t, es[n])
    ensures u == Step(t, es[n]) && Runs(FRESH, es[..n + 1]) && u == Final(FRESH, es[..n + 1])
  {
    RunsAppend(FRESH, es[..n], es[n]);
    assert es[..n + 1] == es[..n] + [es[n]];
    u := Step(t, es[n]);
  }

  lemma RunsAppend(s: State, es: seq<Event>, e: Event)
    requires Runs(s, es) && Enabled(Final(s, es), e)
    ensures Runs(s, es + [e]) && Final(s, es + [e]) == Step(Final(s, es), e)
    decreases |es|
  {
    if es == [] {
      assert es + [e] == [e] && [e][1..] == [];
    } else {
      RunsAppend(Step(s, es[0]), es[1..], e);
      assert (es + [e])[1..] == es[1..] + [e];
    }
  }

  /** A waiter that comes while a pass over its pair is running is told that the pass succeeded,
      although the pass began before the waiter came. */
  lemma AnsweredByRunningPass(s: State, p: string, w: nat, canRun: bool)
    requires Inv(s) && Enabled(s, RequestAndWait(p, w, canRun)) && !s.stopped && p in s.listeners && Takes(s, p) && Covers(s, p)
    ensures var t := Step(s, RequestAndWait(p, w, canRun));
      t.phase == s.phase && Step(t, PassEnds(true, canRun)).outcomes[w] == Resolved(s.begun, true)
  {
  }

  /** Nothing that was asked for is forgotten. */
  predicate Awake(s: State) {
    var asking := s.requested != {} || s.requestAll;
    && (s.phase.Idle? && !s.scheduled && !s.stopped ==> !asking)
    && (s.phase.InPass? && asking && !s.stopped ==> s.rerun)
    && (s.phase.Leaving? && !s.stopped ==> !asking)
  }

  /** Requests are made, or start being forgotten, only by these events; when does each leave nothing behind? */
  predicate Heard(s: State, e: Event) {
    var asking := s.requested != {} || s.requestAll;
    match e
    case Signal(pair, canRun) => s.stopped || (pair.Some? && pair.value !in s.listeners) || Answerable(s, canRun)
    case RequestAndWait(pair, _, canRun) => s.stopped || pair !in s.listeners || Answerable(s, canRun)
    case ScheduledStart(canRun) => s.stopped || canRun || !asking
    case PassEnds(_, canRun) => s.stopped || canRun || !asking
    case _ => true
  }

  /** A request made now finds a pass running, or a start that is on its way or is let through by the guard. */
  predicate Answerable(s: State, canRun: bool) {
    s.phase.InPass? || (s.phase.Idle? && (canRun || s.scheduled))
  }

  predicate AllHeard(s: State, es: seq<Event>)
    requires Runs(s, es)
    decreases |es|
  {
    es == [] || (Heard(s, es[0]) && AllHeard(Step(s, es[0]), es[1..]))
  }

  /** The exact condition, event by event, for nothing to be forgotten. */
  lemma AwakeIff(s: State, e: Event)
    requires Inv(s) && Awake(s) && Enabled(s, e)
    ensures Awake(Step(s, e)) <==> Heard(s, e)
  {
    match e
    case Signal(pair, canRun) => SignalAwakeIff(s, pair, canRun);
    case RequestAndWait(pair, w, canRun) =>
      if !s.stopped && pair in s.listeners {
        SignalAwakeIff(s.(pending := s.pending[w := pair], asked := s.asked[w := Asked(pair, s.begun, Takes(s, pair))]), Some(pair), canRun);
      }
    case _ =>
  }

  lemma SignalAwakeIff(s: State, pair: Option<string>, canRun: bool)
    requires Awake(s)
    ensures Awake(OnSignal(s, pair, canRun)) <==> s.stopped || (pair.Some? && pair.value !in s.listeners) || Answerable(s, canRun)
  {
    if !s.stopped && (pair.Some? ==> pair.value in s.listeners) {
      assert pair.Some? ==> pair.value in OnSignal(s, pair, canRun).requested;
    }
  }

  /** A pass begins that takes up everything asked for: the start is on its way, or the running pass goes over into it. */
  ghost predicate PassFollows(s: State) {
    || (s.phase.Idle? && s.scheduled && TakesAll(s, Step(s, ScheduledStart(true))))
    || (s.phase.InPass? && forall ok :: TakesAll(s, Step(s, PassEnds(ok, true))))
  }

  ghost predicate TakesAll(s: State, t: State) {
    && t.begun == s.begun + 1 && t.phase.InPass? && t.phase.snapshot == s.requested
    && (s.requestAll ==> t.phase.targets == s.listeners)
  }

  /** In every run whose requests are all heard, everything asked for is taken up by a pass about to begin. */
  lemma {:induction false} NoLostWakeup(s: State, es: seq<Event>)
    requires Inv(s) && Awake(s) && Runs(s, es) && AllHeard(s, es)
    ensures var t := Final(s, es);
      Awake(t) && ((t.requested != {} || t.requestAll) && !t.stopped ==> PassFollows(t))
    decreases |es|
  {
    if es == [] {
      if (s.requested != {} || s.requestAll) && !s.stopped {
        AwakeFollows(s);
      }
    } else {
      StepKeeps(s, es[0]);
      AwakeIff(s, es[0]);
      NoLostWakeup(Step(s, es[0]), es[1..]);
    }
  }

  /** What was asked for is followed by a pass exactly when nothing is being forgotten. */
  lemma AwakeFollows(s: State)
    requires (s.requested != {} || s.requestAll) && !s.stopped
    ensures Awake(s) <==> PassFollows(s)
  {
    if s.phase.InPass? {
      assert Step(s, PassEnds(true, true)).begun == s.begun + 1 <==> s.rerun;
    }
  }

  /** A request of a registered pair, or of all, is followed by a pass that takes it up if and only if it finds one
      running, or a start on its way, or nothing and an open guard: not in the gap, and not while the guard is closed. */
  lemma FollowedIff(s: State, pair: Option<string>, w: nat, canRun: bool)
    requires Inv(s) && Awake(s) && !s.stopped && (pair.Some? ==> pair.value in s.listeners)
    ensures PassFollows(Step(s, Signal(pair, canRun))) <==> s.phase.InPass? || (s.phase.Idle? && (canRun || s.scheduled))
    ensures pair.Some? && Enabled(s, RequestAndWait(pair.value, w, canRun)) ==>
      (PassFollows(Step(s, RequestAndWait(pair.value, w, canRun))) <==> s.phase.InPass? || (s.phase.Idle? && (canRun || s.scheduled)))
  {
    var t := Step(s, Signal(pair, canRun));
    assert pair.Some? ==> pair.value in t.requested;
    AwakeIff(s, Signal(pair, canRun));
    AwakeFollows(t);
    if pair.Some? && Enabled(s, RequestAndWait(pair.value, w, canRun)) {
      var u := Step(s, RequestAndWait(pair.value, w, canRun));
      assert pair.value in u.requested;
      AwakeIff(s, RequestAndWait(pair.value, w, canRun));
      AwakeFollows(u);
    }
  }

  /** A request made in the gap, with the guard open throughout, that no pass of its own accord follows: the orchestrator
      ends up idle, with nothing scheduled and the pair still requested after the one pass there was. */
  lemma LostWakeup(p: string)
    ensures var es := AskedInTheGap(p);
      && Runs(FRESH, es)
      && Final(FRESH, es) == State({p}, map[], {p}, false, true, false, false, Idle, 1, map[], map[], [{p}])
      && !Awake(Final(FRESH, es)) && !PassFollows(Final(FRESH, es))
  {
    var es := AskedInTheGap(p);
    var t1 := Play(es, 0, FRESH);
    var t2 := Play(es, 1, t1);
    assert t2 == FRESH.(listeners := {p}, requested := {p}, scheduled := true);
    var t3 := Play(es, 2, t2);
    assert {p} * {p} == {p};
    assert t3 == State({p}, map[], {}, false, false, false, false, InPass({p}, {p}), 1, map[], map[], [{p}]);
    var t4 := Play(es, 3, t3);
    assert t4 == t3.(phase := Leaving);
    var t5 := Play(es, 4, t4);
    assert t5 == t4.(requested := {p}, rerun := true);
    var t6 := Play(es, 5, t5);
    assert es[..6] == es;
  }

  function AskedInTheGap(p: string): seq<Event> {
    [Register(p), Signal(Some(p), true), ScheduledStart(true), PassEnds(true, true), Signal(Some(p), true), PromiseCleared]
  }
}
