/** The coordinator's own state while passes are queued, run, cancelled, and a
    re-organisation is detected, replayed and completed. */
module CoordinatorStatus {
  import opened Blocks
  import opened ChainStore  // for MaxKey

  /** Old and new tip of a re-organisation. */
  type Identity = (Block, Block)

  datatype Mode = Healthy | Reconciling | ManualReview

  datatype Progress = InProgress | Recovered | UnderReview

  datatype Last = Last(identity: Identity, progress: Progress)

  /** A running pass: did it get past the guard, and what about a divergence of its own?  Once its handler is over, does it throw? */
  datatype Stage = Fresh | Detecting(identity: Identity) | Over(throws: bool)

  datatype Request = Queued | Running(entered: bool, stage: Stage) | Done

  /** The queue's head: nobody, one pass, the replay after a re-organisation and whether anything in it has thrown, or its last part. */
  datatype Tail = Free | Serving(id: nat) | Replaying(failed: bool) | Promoting

  datatype State = State(mode: Mode, last: Option<Last>, ready: bool, tail: Tail, pending: int, active: int, requests: map<nat, Request>)

  datatype Event =
    | Arrive(r: nat)
    | ArriveInReplay(r: nat)
    | Abort(r: nat)
    | FailBeforeStart(r: nat)
    | Start(r: nat)
    | Detect(r: nat, identity: Identity)
    | HandlerReturns(r: nat, ancestor: bool, manual: bool)
    | HandlerThrows(r: nat, ancestor: bool)
    | Leave(r: nat, threw: bool)
    | StartReplay
    | ReplayThrows
    | ReplayFails
    | ReplayEnds
    | Promote(completion: Option<Identity>, handler: bool)
    | RequireManual(identity: Identity)

  const FRESH := State(Healthy, None, false, Free, 0, 0, map[])

  predicate IsRunning(s: State, r: nat) {
    r in s.requests && s.requests[r].Running?
  }

  predicate IsQueued(s: State, r: nat) {
    r in s.requests && s.requests[r].Queued?
  }

  predicate IsDetecting(s: State, r: nat) {
    IsRunning(s, r) && s.requests[r].entered && s.requests[r].stage.Detecting?
  }

  predicate NobodyRuns(s: State) {
    forall r :: r in s.requests ==> !s.requests[r].Running?
  }

  /** A pass that was turned away at the guard does not throw; one that found a divergence leaves once its handler is over. */
  predicate MayLeave(q: Request, threw: bool)
    requires q.Running?
  {
    match q.stage
    case Fresh => threw ==> q.entered
    case Detecting(_) => false
    case Over(throws) => threw == throws
  }

  predicate Enabled(s: State, e: Event) {
    match e
    case Arrive(r) => r !in s.requests
    case ArriveInReplay(r) => r !in s.requests && s.tail.Replaying?
    case Abort(_) => true
    case FailBeforeStart(r) => r in s.requests && !s.requests[r].Running?
    case Start(r) => IsQueued(s, r) && s.tail.Free?
    case Detect(r, _) => IsRunning(s, r) && s.requests[r].entered && s.requests[r].stage.Fresh?
    case HandlerReturns(r, _, _) => IsDetecting(s, r)
    case HandlerThrows(r, _) => IsDetecting(s, r)
    case Leave(r, threw) => IsRunning(s, r) && MayLeave(s.requests[r], threw)
    case StartReplay => s.tail.Free? && s.ready
    case ReplayThrows => s.tail.Replaying?
    case ReplayFails => (s.tail.Replaying? && s.tail.failed && NobodyRuns(s)) || s.tail.Promoting?
    case ReplayEnds => s.tail.Replaying? && !s.tail.failed && NobodyRuns(s)
    case Promote(_, _) => s.tail.Promoting?
    case RequireManual(_) => true
  }

  function With(s: State, r: nat, q: Request): State {
    s.(requests := s.requests[r := q])
  }

  /** A request that never started gives its place up, once. */
  function Release(s: State, r: nat): State
    requires r in s.requests
  {
    if s.requests[r].Queued? then With(s, r, Done).(pending := s.pending - 1) else s
  }

  function Marked(last: Option<Last>, progress: Progress): Option<Last> {
    if last.Some? then Some(last.value.(progress := progress)) else None
  }

  /** Does the completion belong to the re-organisation in progress? */
  predicate Matches(last: Last, completion: Option<Identity>, handler: bool) {
    completion == Some(last.identity) || (completion.None? && !handler)
  }

  /** The queue's head once a pass has left: a replay remembers that one of its passes threw. */
  function After(tail: Tail, r: nat, threw: bool): Tail {
    match tail
    case Replaying(failed) => Replaying(failed || threw)
    case Serving(id) => if id == r then Free else tail
    case _ => tail
  }

  function Step(s: State, e: Event): State
    requires Enabled(s, e)
  {
    match e
    case Arrive(r) => With(s, r, Queued).(pending := s.pending + 1)
    case ArriveInReplay(r) => With(s, r, Running(!s.mode.ManualReview?, Fresh)).(pending := s.pending + 1, active := s.active + 1)
    case Abort(r) => if r in s.requests then Release(s, r) else s
    case FailBeforeStart(r) => Release(s, r)
    case Start(r) => With(s, r, Running(s.mode.Healthy?, Fresh)).(active := s.active + 1, tail := Serving(r))
    case Detect(r, id) =>
      With(s, r, s.requests[r].(stage := Detecting(id))).(mode := Reconciling, last := Some(Last(id, InProgress)), ready := false)
    case HandlerReturns(r, ancestor, manual) =>
      var recovers := ancestor && !manual;
      With(s, r, s.requests[r].(stage := Over(!ancestor))).(
        mode := if recovers then Reconciling else ManualReview,
        last := Some(Last(s.requests[r].stage.identity, if recovers then InProgress else UnderReview)),
        ready := recovers)
    case HandlerThrows(r, ancestor) =>
      var t := With(s, r, s.requests[r].(stage := Over(true)));
      if ancestor then t else t.(mode := ManualReview, last := Marked(s.last, UnderReview))
    case Leave(r, threw) =>
      With(s, r, Done).(active := s.active - 1, pending := s.pending - 1, tail := After(s.tail, r, threw))
    case StartReplay => s.(tail := Replaying(false))
    case ReplayThrows => s.(tail := Replaying(true))
    case ReplayFails =>
      if s.mode.Healthy? then s.(mode := Reconciling, last := Marked(s.last, InProgress), tail := Free) else s.(tail := Free)
    case ReplayEnds => s.(tail := Promoting)
    case Promote(completion, handler) =>
      if s.mode.Reconciling? && s.last.Some? && s.last.value.progress.InProgress? && Matches(s.last.value, completion, handler)
      then s.(mode := Healthy, last := Marked(s.last, Recovered), ready := false, tail := Free)
      else s.(tail := Free)
    case RequireManual(id) =>
      if s.mode.Reconciling? && s.last == Some(Last(id, InProgress)) then s.(mode := ManualReview, last := Marked(s.last, UnderReview), ready := false)
      else s
  }

  // --------------------------------------------------------------- invariant

  /** State and the last re-organisation tell the same story. */
  ghost predicate Agree(s: State) {
    match s.mode
    case Healthy => s.last.None? || s.last.value.progress.Recovered?
    case Reconciling => s.last.Some? && s.last.value.progress.InProgress?
    case ManualReview => s.last.Some? && s.last.value.progress.UnderReview?
  }

  function Unsettled(requests: map<nat, Request>): set<nat> {
    set r | r in requests && !requests[r].Done?
  }

  function RunningSet(requests: map<nat, Request>): set<nat> {
    set r | r in requests && requests[r].Running?
  }

  /** The counters are the numbers of requests. */
  ghost predicate Counted(s: State) {
    s.pending == |Unsettled(s.requests)| && s.active == |RunningSet(s.requests)|
  }

  /** Passes only run where the queue allows, and a detected divergence has taken the state out of health. */
  ghost predicate Staged(s: State) {
    && (s.tail.Serving? ==> IsRunning(s, s.tail.id) && forall r :: r in s.requests && s.requests[r].Running? ==> r == s.tail.id)
    && (s.tail.Free? || s.tail.Promoting? ==> NobodyRuns(s))
    && (s.ready ==> !s.mode.Healthy?)
    && (s.tail.Replaying? || s.tail.Promoting? ==> !s.mode.Healthy?)
    && (forall r :: r in s.requests && s.requests[r].Running? && s.requests[r].stage.Detecting? ==> !s.mode.Healthy?)
    && (forall r :: r in s.requests && s.requests[r].Running? && !s.requests[r].entered ==> s.requests[r].stage.Fresh?)
  }

  ghost predicate Inv(s: State) {
    Agree(s) && Counted(s) && Staged(s)
  }

  function One(b: bool): int { if b then 1 else 0 }

  lemma CountOne(m: map<nat, Request>, r: nat, q: Request)
    ensures |Unsettled(m[r := q])| == |Unsettled(m)| + One(!q.Done?) - One(r in m && !m[r].Done?)
    ensures |RunningSet(m[r := q])| == |RunningSet(m)| + One(q.Running?) - One(r in m && m[r].Running?)
  {
    var n := m[r := q];
    assert Unsettled(n) - {r} == Unsettled(m) - {r};
    assert RunningSet(n) - {r} == RunningSet(m) - {r};
    DifferInOne(Unsettled(m), Unsettled(n), r);
    DifferInOne(RunningSet(m), RunningSet(n), r);
  }

  lemma Without(a: set<nat>, x: nat)
    ensures |a| == |a - {x}| + One(x in a)
  {
    if x in a {
      assert a == (a - {x}) + {x};
    } else {
      assert a == a - {x};
    }
  }

  lemma DifferInOne(a: set<nat>, b: set<nat>, x: nat)
    requires a - {x} == b - {x}
    ensures |b| == |a| + One(x in b) - One(x in a)
  {
    Without(a, x);
    Without(b, x);
  }

  lemma CountedArrival(s: State, e: Event)
    requires Counted(s) && Enabled(s, e) && (e.Arrive? || e.ArriveInReplay? || e.Start?)
    ensures Counted(Step(s, e))
  {
    match e
    case Arrive(r) => CountOne(s.requests, r, Queued);
    case ArriveInReplay(r) => CountOne(s.requests, r, Running(!s.mode.ManualReview?, Fresh));
    case Start(r) => CountOne(s.requests, r, Running(s.mode.Healthy?, Fresh));
  }

  lemma CountedDeparture(s: State, e: Event)
    requires Counted(s) && Enabled(s, e) && (e.Abort? || e.FailBeforeStart? || e.Leave?)
    ensures Counted(Step(s, e))
  {
    CountOne(s.requests, e.r, Done);
  }

  lemma CountedReorg(s: State, e: Event)
    requires Counted(s) && Enabled(s, e) && (e.Detect? || e.HandlerReturns? || e.HandlerThrows?)
    ensures Counted(Step(s, e))
  {
    CountOne(s.requests, e.r, Step(s, e).requests[e.r]);
  }

  lemma CountedStep(s: State, e: Event)
    requires Counted(s) && Enabled(s, e)
    ensures Counted(Step(s, e))
  {
    if e.Arrive? || e.ArriveInReplay? || e.Start? {
      CountedArrival(s, e);
    } else if e.Abort? || e.FailBeforeStart? || e.Leave? {
      CountedDeparture(s, e);
    } else if e.Detect? || e.HandlerReturns? || e.HandlerThrows? {
      CountedReorg(s, e);
    }
  }

  lemma StagedStep(s: State, e: Event)
    requires Agree(s) && Staged(s) && Enabled(s, e)
    ensures Agree(Step(s, e)) && Staged(Step(s, e))
  {
  }

  /** Every step keeps the invariant: state and last re-organisation agree, the counters are
      exact, nothing runs beside the pass being served except during a replay. */
  lemma StepKeeps(s: State, e: Event)
    requires Inv(s) && Enabled(s, e)
    ensures Inv(Step(s, e))
  {
    CountedStep(s, e);
    StagedStep(s, e);
  }

  /** What the closure of a queued request remembers. */
  datatype Closure = Closure(requestStarted: bool, requestCancelled: bool, pendingReleased: bool)

  const UNTOUCHED := Closure(false, false, false)

  /** A closure tells what became of its request: it still waits, it was started, or its place was released. */
  predicate Tells(c: Closure, q: Request) {
    match q
    case Queued => c == UNTOUCHED
    case Running(_, _) => c == UNTOUCHED.(requestStarted := true)
    case Done => c.requestStarted != c.pendingReleased && (c.requestCancelled ==> c.pendingReleased)
  }

  /** The coordinator's fields and the closures of the requests it has queued; who is queued
      and what runs is otherwise known to the promise queue only. */
  class CanonicalChainCoordinator {
    var mode: Mode
    var lastReorg: Option<Last>
    var hasError: bool  // of the replay's scope
    var reorgReadyForFinalization: bool
    var pendingRequests: int
    var activeRequests: int
    var closures: map<nat, Closure>
    ghost var tail: Tail
    ghost var requests: map<nat, Request>

    constructor ()
      ensures Valid() && Now() == FRESH
    {
      mode, lastReorg, reorgReadyForFinalization, pendingRequests, activeRequests := Healthy, None, false, 0, 0;
      closures, hasError := map[], false;
      tail, requests := Free, map[];
    }

    ghost function Now(): State
      reads this
    {
      State(mode, lastReorg, reorgReadyForFinalization, tail, pendingRequests, activeRequests, requests)
    }

    /** The invariant of every run, and closures that tell the truth; requests of a replay have none. */
    ghost predicate Valid()
      reads this
    {
      && Inv(Now()) && (tail.Replaying? ==> tail.failed == hasError)
      && forall r :: r in closures ==> r in requests && Tells(closures[r], requests[r])
    }

    method Enqueue(r: nat)
      requires Valid() && Enabled(Now(), Arrive(r))
      modifies this
      ensures Valid() && Now() == Step(old(Now()), Arrive(r))
      ensures closures == old(closures)[r := UNTOUCHED]
    {
      StepKeeps(Now(), Arrive(r));
      pendingRequests := pendingRequests + 1;
      closures := closures[r := UNTOUCHED];
      requests := requests[r := Queued];
    }

    /** Give the place of a request up, unless that has been done. */
    method ReleasePending(r: nat)
      requires r in closures
      modifies this`pendingRequests, this`closures
      ensures closures == old(closures)[r := old(closures)[r].(pendingReleased := true)]
      ensures pendingRequests == old(pendingRequests) - if old(closures)[r].pendingReleased then 0 else 1
    {
      if closures[r].pendingReleased {
        assert closures == closures[r := closures[r].(pendingReleased := true)];
        return;
      }
      closures := closures[r := closures[r].(pendingReleased := true)];
      pendingRequests := pendingRequests - 1;
    }

    /** An abort.  Only a request that has neither started nor been cancelled is affected, and its
        place is given up at most once, whatever happens to it before or after. */
    method CancelQueuedRequest(r: nat) returns (cancelled: bool)
      requires Valid() && r in closures
      modifies this
      ensures Valid() && Now() == Step(old(Now()), Abort(r))
      ensures cancelled <==> !old(closures)[r].requestStarted && !old(closures)[r].requestCancelled
      ensures closures == if cancelled then old(closures)[r := Closure(false, true, true)] else old(closures)
    {
      StepKeeps(Now(), Abort(r));
      if closures[r].requestStarted || closures[r].requestCancelled {
        return false;
      }
      closures := closures[r := closures[r].(requestCancelled := true)];
      ReleasePending(r);
      requests := Release(old(Now()), r).requests;
      cancelled := true;
    }

    /** Something failed before the request could start. */
    method FailRequest(r: nat)
      requires Valid() && r in closures && Enabled(Now(), FailBeforeStart(r))
      modifies this
      ensures Valid() && Now() == Step(old(Now()), FailBeforeStart(r))
    {
      StepKeeps(Now(), FailBeforeStart(r));
      if !closures[r].requestStarted {
        ReleasePending(r);
        requests := Release(old(Now()), r).requests;
      }
    }

    /** The head of the queue starts, unless it was aborted; then the guard at the start of a pass. */
    method BeginRequest(r: nat, aborted: bool) returns (started: bool, entered: bool)
      requires Valid() && r in closures && tail.Free? && !requests[r].Running? && !closures[r].requestStarted
      requires closures[r].pendingReleased ==> closures[r].requestCancelled
      modifies this
      ensures started <==> !aborted && !old(closures)[r].requestCancelled
      ensures Valid() && (started ==> Enabled(old(Now()), Start(r)))
      ensures Now() == if started then Step(old(Now()), Start(r)) else Step(old(Now()), Abort(r))
      ensures started ==> requests[r] == Running(entered, Fresh)
    {
      if !closures[r].requestCancelled && aborted {
        var c := CancelQueuedRequest(r);
      }
      if closures[r].requestCancelled {
        return false, false;
      }
      StepKeeps(Now(), Start(r));
      closures := closures[r := closures[r].(requestStarted := true)];
      activeRequests := activeRequests + 1;
      started, entered := true, mode.Healthy?;
      tail, requests := Serving(r), requests[r := Running(entered, Fresh)];
    }

    /** A request made during the replay runs at once. */
    method BeginInReplay(r: nat) returns (entered: bool)
      requires Valid() && Enabled(Now(), ArriveInReplay(r))
      modifies this
      ensures Valid() && Now() == Step(old(Now()), ArriveInReplay(r)) && requests[r] == Running(entered, Fresh)
    {
      StepKeeps(Now(), ArriveInReplay(r));
      pendingRequests, activeRequests := pendingRequests + 1, activeRequests + 1;
      entered := mode.Healthy? || mode.Reconciling?;
      requests := requests[r := Running(entered, Fresh)];
    }

    method EndRequest(r: nat, threw: bool)
      requires Valid() && Enabled(Now(), Leave(r, threw))
      modifies this
      ensures Valid() && Now() == Step(old(Now()), Leave(r, threw))
    {
      StepKeeps(Now(), Leave(r, threw));
      activeRequests := activeRequests - 1;
      pendingRequests := pendingRequests - 1;
      hasError := hasError || threw;
      tail := After(tail, r, threw);
      requests := requests[r := Done];
    }

    method AnnounceReorg(r: nat, identity: Identity)
      requires Valid() && Enabled(Now(), Detect(r, identity))
      modifies this
      ensures Valid() && Now() == Step(old(Now()), Detect(r, identity))
    {
      StepKeeps(Now(), Detect(r, identity));
      reorgReadyForFinalization := false;
      mode, lastReorg := Reconciling, Some(Last(identity, InProgress));
      requests := requests[r := requests[r].(stage := Detecting(identity))];
    }

    method RecordImpact(r: nat, identity: Identity, ancestor: bool, manual: bool)
      requires Valid() && Enabled(Now(), HandlerReturns(r, ancestor, manual)) && requests[r].stage == Detecting(identity)
      modifies this
      ensures Valid() && Now() == Step(old(Now()), HandlerReturns(r, ancestor, manual))
    {
      StepKeeps(Now(), HandlerReturns(r, ancestor, manual));
      var recovers := ancestor && !manual;
      mode := if recovers then Reconciling else ManualReview;
      lastReorg := Some(Last(identity, if recovers then InProgress else UnderReview));
      reorgReadyForFinalization := recovers;
      requests := requests[r := requests[r].(stage := Over(!ancestor))];
    }

    method BeginReplay()
      requires Valid() && Enabled(Now(), StartReplay)
      modifies this
      ensures Valid() && Now() == Step(old(Now()), StartReplay)
    {
      StepKeeps(Now(), StartReplay);
      hasError := false;
      tail := Replaying(false);
    }

    /** The replay handler itself throws; its passes still have to leave. */
    method FailHandler()
      requires Valid() && Enabled(Now(), ReplayThrows)
      modifies this
      ensures Valid() && Now() == Step(old(Now()), ReplayThrows)
    {
      StepKeeps(Now(), ReplayThrows);
      hasError := true;
      tail := Replaying(true);
    }

    /** All passes of the replay have left: it fails if and only if anything in it has thrown. */
    method EndReplay() returns (ok: bool)
      requires Valid() && tail.Replaying? && NobodyRuns(Now())
      modifies this
      ensures ok <==> !old(tail).failed
      ensures Valid() && Now() == Step(old(Now()), if ok then ReplayEnds else ReplayFails)
    {
      if hasError {
        FailReplay();
        return false;
      }
      StepKeeps(Now(), ReplayEnds);
      tail := Promoting;
      ok := true;
    }

    /** A replay that fails leaves the re-organisation in progress, even if health was already announced. */
    method FailReplay()
      requires Enabled(Now(), ReplayFails)
      modifies this
      ensures Now() == Step(old(Now()), ReplayFails) && (old(Valid()) ==> Valid())
    {
      if Valid() {
        StepKeeps(Now(), ReplayFails);
      }
      if mode.Healthy? {
        mode, lastReorg := Reconciling, Marked(lastReorg, InProgress);
      }
      tail := Free;
    }

    method HandlerFailed(r: nat, ancestor: bool)
      requires Valid() && Enabled(Now(), HandlerThrows(r, ancestor))
      modifies this
      ensures Valid() && Now() == Step(old(Now()), HandlerThrows(r, ancestor))
    {
      StepKeeps(Now(), HandlerThrows(r, ancestor));
      if !ancestor {
        mode := ManualReview;
        lastReorg := Marked(lastReorg, UnderReview);
      }
      requests := requests[r := requests[r].(stage := Over(true))];
    }

    /** `completion` is what the replay reported; without a replay handler there is none. */
    method PromoteRecoveredReorg(completion: Option<Identity>, handler: bool) returns (ok: bool)
      requires Valid() && tail.Promoting?
      modifies this
      ensures Valid() && Now() == Step(old(Now()), Promote(completion, handler))
      ensures ok <==> (old(mode).Reconciling? && old(lastReorg).Some? && old(lastReorg).value.progress.InProgress?
                       ==> Matches(old(lastReorg).value, completion, handler))
    {
      StepKeeps(Now(), Promote(completion, handler));
      tail := Free;
      if !mode.Reconciling? || lastReorg.None? || !lastReorg.value.progress.InProgress? {
        return true;
      }
      var finalized := if completion.Some? then completion else if !handler then Some(lastReorg.value.identity) else None;
      if finalized != Some(lastReorg.value.identity) {
        return false;
      }
      mode, lastReorg, reorgReadyForFinalization := Healthy, Some(lastReorg.value.(progress := Recovered)), false;
      ok := true;
    }

    method RequireManualReview(identity: Identity) returns (ok: bool)
      requires Valid()
      modifies this
      ensures Valid() && Now() == Step(old(Now()), RequireManual(identity))
      ensures ok <==> old(mode).Reconciling? && old(lastReorg) == Some(Last(identity, InProgress))
    {
      StepKeeps(Now(), RequireManual(identity));
      if !mode.Reconciling? || lastReorg != Some(Last(identity, InProgress)) {
        return false;
      }
      mode, lastReorg, reorgReadyForFinalization := ManualReview, Some(lastReorg.value.(progress := UnderReview)), false;
      ok := true;
    }
  }

  predicate Runs(s: State, es: seq<Event>)
    decreases |es|
  {
    es == [] || (Enabled(s, es[0]) && Runs(Step(s, es[0]), es[1..]))
  }

  function Final(s: State, es: seq<Event>): State
    requires Runs(s, es)
    decreases |es|
  {
    if es == [] then s else Final(Step(s, es[0]), es[1..])
  }

  lemma {:induction false} RunKeeps(s: State, es: seq<Event>)
    requires Inv(s) && Runs(s, es)
    ensures Inv(Final(s, es))
    decreases |es|
  {
    if es != [] {
      StepKeeps(s, es[0]);
      RunKeeps(Step(s, es[0]), es[1..]);
    }
  }

  // ------------------------------------------------------- what follows from it

  /** Health is regained only by completing the re-organisation in progress. */
  lemma HealthyOnlyByCompletion(s: State, e: Event)
    requires Inv(s) && Enabled(s, e) && !s.mode.Healthy? && Step(s, e).mode.Healthy?
    ensures e.Promote? && s.mode.Reconciling? && s.last.Some? && Matches(s.last.value, e.completion, e.handler)
    ensures Step(s, e).last == Some(Last(s.last.value.identity, Recovered))
  {
  }

  /** A request is settled once: whatever happens afterwards it stays settled. */
  lemma SettledOnce(s: State, e: Event, r: nat)
    requires Enabled(s, e) && r in s.requests && s.requests[r].Done?
    ensures r in Step(s, e).requests && Step(s, e).requests[r].Done?
  {
  }

  predicate IsOpen(s: State, r: nat) {
    r in s.requests && !s.requests[r].Done?
  }

  /** How often the place of request `r` is given up in a run. */
  function Releases(s: State, es: seq<Event>, r: nat): nat
    requires Runs(s, es)
    decreases |es|
  {
    if es == [] then 0 else
      (if IsOpen(s, r) && !IsOpen(Step(s, es[0]), r) then 1 else 0) + Releases(Step(s, es[0]), es[1..], r)
  }

  /** Exactly once for a request that gets settled, never for one that does not, whatever aborts and failures come in between. */
  lemma {:induction false} ReleasedOnce(s: State, es: seq<Event>, r: nat)
    requires Runs(s, es) && r in s.requests
    ensures r in Final(s, es).requests
    ensures Releases(s, es, r) == if IsOpen(s, r) && !IsOpen(Final(s, es), r) then 1 else 0
    ensures !IsOpen(s, r) ==> !IsOpen(Final(s, es), r)
    decreases |es|
  {
    if es != [] {
      if !IsOpen(s, r) {
        SettledOnce(s, es[0], r);
      }
      ReleasedOnce(Step(s, es[0]), es[1..], r);
    }
  }

  /** A pass under way that can still change the state. */
  predicate CanStillDetect(s: State, r: nat) {
    IsRunning(s, r) && s.requests[r].entered && !s.requests[r].stage.Over?
  }

  ghost predicate SomeCanStillDetect(s: State) {
    exists r :: CanStillDetect(s, r)
  }

  lemma NobodyDetectsStep(s: State, e: Event)
    requires Inv(s) && Enabled(s, e) && s.mode.ManualReview? && !SomeCanStillDetect(s)
    ensures Step(s, e).mode.ManualReview? && !SomeCanStillDetect(Step(s, e))
  {
    StepKeeps(s, e);
    var t := Step(s, e);
    assert e.Detect? || e.HandlerReturns? ==> CanStillDetect(s, e.r);
    forall r ensures !CanStillDetect(t, r) {
      assert !CanStillDetect(s, r);
    }
  }

  lemma {:induction false} NobodyDetectsStays(s: State, es: seq<Event>)
    requires Inv(s) && Runs(s, es) && s.mode.ManualReview? && !SomeCanStillDetect(s)
    ensures Final(s, es).mode.ManualReview?
    decreases |es|
  {
    if es != [] {
      NobodyDetectsStep(s, es[0]);
      StepKeeps(s, es[0]);
      NobodyDetectsStays(Step(s, es[0]), es[1..]);
    }
  }

  /** A manual review can still be left if and only if some pass under way got past the guard
      and has not finished with a divergence of its own. */
  lemma ManualReviewLeft(s: State)
    requires Inv(s) && s.mode.ManualReview?
    ensures (exists es :: Runs(s, es) && !Final(s, es).mode.ManualReview?) <==> SomeCanStillDetect(s)
  {
    if SomeCanStillDetect(s) {
      var r :| CanStillDetect(s, r);
      var e := if s.requests[r].stage.Fresh? then Detect(r, (Genesis(0), Genesis(1))) else HandlerReturns(r, true, false);
      OneStep(s, e);
      assert !Final(s, [e]).mode.ManualReview?;
    } else {
      forall es | Runs(s, es) ensures Final(s, es).mode.ManualReview? {
        NobodyDetectsStays(s, es);
      }
    }
  }

  /** A run of one step more. */
  lemma Longer(s: State, e: Event, es: seq<Event>)
    requires Enabled(s, e) && Runs(Step(s, e), es)
    ensures Runs(s, [e] + es) && Final(s, [e] + es) == Final(Step(s, e), es)
  {
    assert ([e] + es)[1..] == es;
  }

  lemma OneStep(s: State, e: Event)
    requires Enabled(s, e)
    ensures Runs(s, [e]) && Final(s, [e]) == Step(s, e)
  {
    Longer(s, e, []);
    assert [e] + [] == [e];
  }

  /** One pass at a time, also during a replay; reviews are only called for between passes. */
  ghost predicate OneByOne(s: State, e: Event) {
    match e
    case ArriveInReplay(_) => NobodyRuns(s)
    case RequireManual(_) => NobodyRuns(s)
    case _ => true
  }

  ghost predicate AllOneByOne(s: State, es: seq<Event>)
    requires Runs(s, es)
    decreases |es|
  {
    es == [] || (OneByOne(s, es[0]) && AllOneByOne(Step(s, es[0]), es[1..]))
  }

  /** No pass is under way that could still touch the state. */
  ghost predicate Harmless(s: State) {
    && (forall r, q :: r in s.requests && q in s.requests && s.requests[r].Running? && s.requests[q].Running? ==> r == q)
    && (s.mode.ManualReview? ==> forall r :: r in s.requests && s.requests[r].Running? ==> !s.requests[r].entered || s.requests[r].stage.Over?)
  }

  lemma HarmlessStep(s: State, e: Event)
    requires Inv(s) && Harmless(s) && Enabled(s, e) && OneByOne(s, e)
    ensures Harmless(Step(s, e))
    ensures s.mode.ManualReview? ==> Step(s, e).mode.ManualReview?
  {
  }

  /** Without overlapping passes a manual review is never left. */
  lemma {:induction false} ManualReviewStays(s: State, es: seq<Event>)
    requires Inv(s) && Harmless(s) && Runs(s, es) && AllOneByOne(s, es)
    ensures Harmless(Final(s, es)) && (s.mode.ManualReview? ==> Final(s, es).mode.ManualReview?)
    decreases |es|
  {
    if es != [] {
      StepKeeps(s, es[0]);
      HarmlessStep(s, es[0]);
      ManualReviewStays(Step(s, es[0]), es[1..]);
    }
  }

  function Overlapping(a: Identity, b: Identity, c: Identity): seq<Event> {
    [Arrive(0), Start(0), Detect(0, a), HandlerReturns(0, true, false), Leave(0, false), StartReplay,
     ArriveInReplay(1), ArriveInReplay(2), Detect(1, b), HandlerReturns(1, false, false), Detect(2, c)]
  }

  /** With two overlapping passes of one replay it is left: the first asks for a review, the second,
      which had already got past the guard, then finds a divergence of its own. */
  lemma ManualReviewOverwritten(a: Identity, b: Identity, c: Identity)
    ensures var es := Overlapping(a, b, c);
      && Runs(FRESH, es[..10]) && Final(FRESH, es[..10]).mode.ManualReview?
      && Runs(FRESH, es) && Final(FRESH, es).mode.Reconciling?
  {
    var es := Overlapping(a, b, c);
    var t3 := FirstDetection(es, a);
    var t6 := ReplayBegins(es, a, t3);
    var t8 := TwoReplays(es, a, t6);
    var t9 := Play(es, 8, t8);
    var t10 := Play(es, 9, t9);
    var t11 := Play(es, 10, t10);
    assert es[..11] == es;
  }

  /** A first pass finds a divergence. */
  lemma FirstDetection(es: seq<Event>, a: Identity) returns (t: State)
    requires |es| >= 3 && es[0] == Arrive(0) && es[1] == Start(0) && es[2] == Detect(0, a)
    ensures Runs(FRESH, es[..3]) && t == Final(FRESH, es[..3])
    ensures t == State(Reconciling, Some(Last(a, InProgress)), false, Serving(0), 1, 1, map[0 := Running(true, Detecting(a))])
  {
    var t1 := Play(es, 0, FRESH);
    var t2 := Play(es, 1, t1);
    t := Play(es, 2, t2);
  }

  /** It is rolled back, and the replay begins. */
  lemma ReplayBegins(es: seq<Event>, a: Identity, t3: State) returns (t: State)
    requires |es| >= 6 && es[3] == HandlerReturns(0, true, false) && es[4] == Leave(0, false) && es[5] == StartReplay
    requires Runs(FRESH, es[..3]) && t3 == Final(FRESH, es[..3])
    requires t3 == State(Reconciling, Some(Last(a, InProgress)), false, Serving(0), 1, 1, map[0 := Running(true, Detecting(a))])
    ensures Runs(FRESH, es[..6]) && t == Final(FRESH, es[..6])
    ensures t == State(Reconciling, Some(Last(a, InProgress)), true, Replaying(false), 0, 0, map[0 := Done])
  {
    var t4 := Play(es, 3, t3);
    var t5 := Play(es, 4, t4);
    t := Play(es, 5, t5);
  }

  /** Two passes of the replay get past the guard. */
  lemma TwoReplays(es: seq<Event>, a: Identity, t6: State) returns (t: State)
    requires |es| >= 8 && es[6] == ArriveInReplay(1) && es[7] == ArriveInReplay(2)
    requires Runs(FRESH, es[..6]) && t6 == Final(FRESH, es[..6])
    requires t6 == State(Reconciling, Some(Last(a, InProgress)), true, Replaying(false), 0, 0, map[0 := Done])
    ensures Runs(FRESH, es[..8]) && t == Final(FRESH, es[..8])
    ensures t == State(Reconciling, Some(Last(a, InProgress)), true, Replaying(false), 2, 2,
                       map[0 := Done, 1 := Running(true, Fresh), 2 := Running(true, Fresh)])
  {
    var t7 := Play(es, 6, t6);
    t := Play(es, 7, t7);
  }

  lemma RunsAppend(s: State, es: seq<Event>, e: Event)
    requires Runs(s, es) && Enabled(Final(s, es), e)
    ensures Runs(s, es + [e]) && Final(s, es + [e]) == Step(Final(s, es), e)
    decreases |es|
  {
    if es == [] {
      OneStep(s, e);
      assert es + [e] == [e];
    } else {
      RunsAppend(Step(s, es[0]), es[1..], e);
      assert (es + [e])[1..] == es[1..] + [e];
    }
  }

  /** One more event of `es`, from the state `t` that the first `n` lead to. */
  lemma Play(es: seq<Event>, n: nat, t: State) returns (u: State)
    requires n < |es| && Runs(FRESH, es[..n]) && t == Final(FRESH, es[..n]) && Enabled(t, es[n])
    ensures u == Step(t, es[n]) && Runs(FRESH, es[..n + 1]) && u == Final(FRESH, es[..n + 1])
  {
    RunsAppend(FRESH, es[..n], es[n]);
    assert es[..n + 1] == es[..n] + [es[n]];
    u := Step(t, es[n]);
  }

  // ------------------------------------------------------- when recovery is still possible

  /** A re-organisation whose handler failed although an ancestor was found: nothing is ready to be
      replayed, and the pass in service, if any, can no longer find a divergence. */
  predicate Stuck(s: State) {
    s.mode.Reconciling? && !s.ready && match s.tail
      case Free => true
      case Serving(r) => IsRunning(s, r) && (!s.requests[r].entered || s.requests[r].stage.Over?)
      case _ => false
  }

  ghost predicate NoReview(es: seq<Event>) {
    forall e :: e in es ==> !e.RequireManual?
  }

  lemma StuckStep(s: State, e: Event)
    requires Inv(s) && Enabled(s, e) && Stuck(s) && !e.RequireManual?
    ensures Stuck(Step(s, e))
  {
    StepKeeps(s, e);
  }

  lemma {:induction false} StuckStays(s: State, es: seq<Event>)
    requires Inv(s) && Stuck(s) && Runs(s, es) && NoReview(es)
    ensures Stuck(Final(s, es))
    decreases |es|
  {
    if es != [] {
      assert es[0] in es;
      StepKeeps(s, es[0]);
      StuckStep(s, es[0]);
      StuckStays(Step(s, es[0]), es[1..]);
    }
  }

  /** A run without reviews that ends in health. */
  ghost predicate Heals(s: State, es: seq<Event>) {
    Runs(s, es) && NoReview(es) && Final(s, es).mode.Healthy?
  }

  lemma HealsLonger(s: State, e: Event, es: seq<Event>)
    requires Enabled(s, e) && !e.RequireManual? && Heals(Step(s, e), es)
    ensures Heals(s, [e] + es)
  {
    Longer(s, e, es);
  }

  lemma PromotingHeals(s: State) returns (es: seq<Event>)
    requires Inv(s) && s.mode.Reconciling? && s.tail.Promoting?
    ensures Heals(s, es)
  {
    var e := Promote(Some(s.last.value.identity), true);
    assert Heals(Step(s, e), []);
    HealsLonger(s, e, []);
    es := [e] + [];
  }

  /** A replay in which nothing has thrown, and nobody runs any more. */
  lemma QuietHeals(s: State) returns (es: seq<Event>)
    requires Inv(s) && s.mode.Reconciling? && s.tail == Replaying(false) && NobodyRuns(s)
    ensures Heals(s, es)
  {
    StepKeeps(s, ReplayEnds);
    es := PromotingHeals(Step(s, ReplayEnds));
    HealsLonger(s, ReplayEnds, es);
    es := [ReplayEnds] + es;
  }

  lemma ReadyHeals(s: State) returns (es: seq<Event>)
    requires Inv(s) && s.mode.Reconciling? && s.ready && s.tail.Free?
    ensures Heals(s, es)
  {
    StepKeeps(s, StartReplay);
    es := QuietHeals(Step(s, StartReplay));
    HealsLonger(s, StartReplay, es);
    es := [StartReplay] + es;
  }

  /** A replay that has failed is over, and the next request starts it again. */
  lemma SettledHeals(s: State) returns (es: seq<Event>)
    requires Inv(s) && s.mode.Reconciling? && s.tail.Replaying? && s.ready && NobodyRuns(s)
    ensures Heals(s, es)
  {
    if s.tail.failed {
      StepKeeps(s, ReplayFails);
      es := ReadyHeals(Step(s, ReplayFails));
      HealsLonger(s, ReplayFails, es);
      es := [ReplayFails] + es;
    } else {
      es := QuietHeals(s);
    }
  }

  lemma NewRequest(requests: map<nat, Request>) returns (r: nat)
    ensures r !in requests
  {
    r := if requests == map[] then 0 else MaxKey(requests.Keys) + 1;
    assert requests != map[] ==> forall q :: q in requests ==> q <= MaxKey(requests.Keys);
  }

  /** A pass of a replay that finds a divergence whose handler returns makes the replay ready again. */
  lemma AnotherPassHeals(s: State) returns (es: seq<Event>)
    requires Inv(s) && s.mode.Reconciling? && s.tail.Replaying? && NobodyRuns(s)
    ensures Heals(s, es)
  {
    var r := NewRequest(s.requests);
    var e1, e2, e3, e4 := ArriveInReplay(r), Detect(r, (Genesis(0), Genesis(1))), HandlerReturns(r, true, false), Leave(r, false);
    StepKeeps(s, e1);
    StepKeeps(Step(s, e1), e2);
    var t := Step(Step(s, e1), e2);
    StepKeeps(t, e3);
    StepKeeps(Step(t, e3), e4);
    es := SettledHeals(Step(Step(t, e3), e4));
    HealsLonger(Step(t, e3), e4, es);
    HealsLonger(t, e3, [e4] + es);
    HealsLonger(Step(s, e1), e2, [e3] + ([e4] + es));
    HealsLonger(s, e1, [e2] + ([e3] + ([e4] + es)));
    es := [e1] + ([e2] + ([e3] + ([e4] + es)));
  }

  /** The passes of a replay leave one after the other, those in a handler once it has returned. */
  lemma {:induction false} ReplayingHeals(s: State) returns (es: seq<Event>)
    requires Inv(s) && s.mode.Reconciling? && s.tail.Replaying? && s.active >= 0
    ensures Heals(s, es)
    decreases s.active
  {
    if NobodyRuns(s) {
      es := AnotherPassHeals(s);
    } else {
      var r :| r in s.requests && s.requests[r].Running?;
      if s.requests[r].stage.Detecting? {
        var e := HandlerReturns(r, true, false);
        StepKeeps(s, e);
        es := LeavingHeals(Step(s, e), r);
        HealsLonger(s, e, es);
        es := [e] + es;
      } else {
        es := LeavingHeals(s, r);
      }
    }
  }

  lemma {:induction false} LeavingHeals(s: State, r: nat) returns (es: seq<Event>)
    requires Inv(s) && s.mode.Reconciling? && s.tail.Replaying? && IsRunning(s, r) && !s.requests[r].stage.Detecting? && s.active >= 0
    ensures Heals(s, es)
    decreases s.active, 0
  {
    var e := Leave(r, s.requests[r].stage.Over? && s.requests[r].stage.throws);
    StepKeeps(s, e);
    es := ReplayingHeals(Step(s, e));
    HealsLonger(s, e, es);
    es := [e] + es;
  }

  /** A pass in service that has done its part, or never had one. */
  lemma ServedHeals(s: State) returns (es: seq<Event>)
    requires Inv(s) && s.mode.Reconciling? && s.ready && s.tail.Serving? && !s.requests[s.tail.id].stage.Detecting?
    ensures Heals(s, es)
  {
    var q := s.requests[s.tail.id];
    var e := Leave(s.tail.id, q.stage.Over? && q.stage.throws);
    StepKeeps(s, e);
    es := ReadyHeals(Step(s, e));
    HealsLonger(s, e, es);
    es := [e] + es;
  }

  lemma DetectingHeals(s: State) returns (es: seq<Event>)
    requires Inv(s) && s.mode.Reconciling? && s.tail.Serving? && IsDetecting(s, s.tail.id)
    ensures Heals(s, es)
  {
    var e := HandlerReturns(s.tail.id, true, false);
    StepKeeps(s, e);
    es := ServedHeals(Step(s, e));
    HealsLonger(s, e, es);
    es := [e] + es;
  }

  lemma ServingHeals(s: State) returns (es: seq<Event>)
    requires Inv(s) && s.mode.Reconciling? && s.tail.Serving? && !Stuck(s)
    ensures Heals(s, es)
  {
    if s.requests[s.tail.id].stage.Detecting? {
      es := DetectingHeals(s);
    } else if s.ready {
      es := ServedHeals(s);
    } else {
      var e := Detect(s.tail.id, (Genesis(0), Genesis(1)));
      StepKeeps(s, e);
      es := DetectingHeals(Step(s, e));
      HealsLonger(s, e, es);
      es := [e] + es;
    }
  }

  lemma Recovers(s: State) returns (es: seq<Event>)
    requires Inv(s) && s.mode.Reconciling? && !Stuck(s)
    ensures Heals(s, es)
  {
    match s.tail {
      case Free => es := ReadyHeals(s);
      case Serving(_) => es := ServingHeals(s);
      case Replaying(_) => es := ReplayingHeals(s);
      case Promoting => es := PromotingHeals(s);
    }
  }

  /** Without a manual review a re-organisation can still be recovered from if and only if it is
      not stuck; a stuck one gets no readier and stays in progress whatever else happens, until the
      review of its own fork is required. */
  lemma RecoverableIff(s: State)
    requires Inv(s) && s.mode.Reconciling?
    ensures (exists es :: Heals(s, es)) <==> !Stuck(s)
    ensures (exists es :: Runs(s, es) && NoReview(es) && (Final(s, es).ready || !Final(s, es).mode.Reconciling?)) <==> !Stuck(s)
    ensures Stuck(s) ==> Step(s, RequireManual(s.last.value.identity)).mode.ManualReview?
  {
    if Stuck(s) {
      forall es | Runs(s, es) && NoReview(es) ensures Stuck(Final(s, es)) {
        StuckStays(s, es);
      }
    } else {
      var es := Recovers(s);
      assert Heals(s, es);
      assert Runs(s, es) && NoReview(es) && !Final(s, es).mode.Reconciling?;
    }
  }

  /** A stuck state is reached: the handler of the first divergence throws.  It is stuck from there on,
      before its pass has left and after. */
  lemma StuckReached(a: Identity)
    ensures var es := [Arrive(0), Start(0), Detect(0, a), HandlerThrows(0, true), Leave(0, true)];
      && Runs(FRESH, es[..4]) && Stuck(Final(FRESH, es[..4])) && Final(FRESH, es[..4]).tail == Serving(0)
      && Runs(FRESH, es) && Stuck(Final(FRESH, es)) && Final(FRESH, es).tail.Free?
  {
    var es := [Arrive(0), Start(0), Detect(0, a), HandlerThrows(0, true), Leave(0, true)];
    var t3 := FirstDetection(es, a);
    var t4 := Play(es, 3, t3);
    var t5 := Play(es, 4, t4);
    assert es[..5] == es;
  }

  // ------------------------------------------------------- a request that waits

  function Waiting(a: Identity): seq<Event> {
    [Arrive(0), Arrive(1), Start(0), Detect(0, a), HandlerReturns(0, true, false), Leave(0, false),
     StartReplay, ArriveInReplay(2), Leave(2, false), ReplayEnds, Promote(Some(a), true), Start(1)]
  }

  /** A request queued in health behind a pass that finds a divergence waits through the rollback and the whole replay;
      its pass then gets past the guard as if nothing had happened. */
  lemma QueuedThroughReplay(a: Identity)
    ensures var es := Waiting(a);
      && Runs(FRESH, es[..2]) && Final(FRESH, es[..2]) == State(Healthy, None, false, Free, 2, 0, map[0 := Queued, 1 := Queued])
      && Runs(FRESH, es) && Final(FRESH, es) == State(Healthy, Some(Last(a, Recovered)), false, Serving(1), 1, 1,
                                                      map[0 := Done, 1 := Running(true, Fresh), 2 := Done])
  {
    var es := Waiting(a);
    var t2 := BothQueued(es);
    var t4 := WaitsForDivergence(es, a, t2);
    var t7 := WaitsForRollback(es, a, t4);
    var t9 := WaitsForReplay(es, a, t7);
    var t12 := StartsAfterReplay(es, a, t9);
    assert es[..12] == es;
  }

  lemma BothQueued(es: seq<Event>) returns (t: State)
    requires |es| >= 2 && es[0] == Arrive(0) && es[1] == Arrive(1)
    ensures Runs(FRESH, es[..2]) && t == Final(FRESH, es[..2])
    ensures t == State(Healthy, None, false, Free, 2, 0, map[0 := Queued, 1 := Queued])
  {
    var t1 := Play(es, 0, FRESH);
    t := Play(es, 1, t1);
  }

  lemma WaitsForDivergence(es: seq<Event>, a: Identity, t2: State) returns (t: State)
    requires |es| >= 4 && es[2] == Start(0) && es[3] == Detect(0, a) && Runs(FRESH, es[..2]) && t2 == Final(FRESH, es[..2])
    requires t2 == State(Healthy, None, false, Free, 2, 0, map[0 := Queued, 1 := Queued])
    ensures Runs(FRESH, es[..4]) && t == Final(FRESH, es[..4])
    ensures t == State(Reconciling, Some(Last(a, InProgress)), false, Serving(0), 2, 1, map[0 := Running(true, Detecting(a)), 1 := Queued])
  {
    var t3 := Play(es, 2, t2);
    t := Play(es, 3, t3);
  }

  lemma WaitsForRollback(es: seq<Event>, a: Identity, t4: State) returns (t: State)
    requires |es| >= 7 && es[4] == HandlerReturns(0, true, false) && es[5] == Leave(0, false) && es[6] == StartReplay
    requires Runs(FRESH, es[..4]) && t4 == Final(FRESH, es[..4])
    requires t4 == State(Reconciling, Some(Last(a, InProgress)), false, Serving(0), 2, 1, map[0 := Running(true, Detecting(a)), 1 := Queued])
    ensures Runs(FRESH, es[..7]) && t == Final(FRESH, es[..7])
    ensures t == State(Reconciling, Some(Last(a, InProgress)), true, Replaying(false), 1, 0, map[0 := Done, 1 := Queued])
  {
    var t5 := Play(es, 4, t4);
    var t6 := Play(es, 5, t5);
    t := Play(es, 6, t6);
  }

  lemma WaitsForReplay(es: seq<Event>, a: Identity, t7: State) returns (t: State)
    requires |es| >= 9 && es[7] == ArriveInReplay(2) && es[8] == Leave(2, false) && Runs(FRESH, es[..7]) && t7 == Final(FRESH, es[..7])
    requires t7 == State(Reconciling, Some(Last(a, InProgress)), true, Replaying(false), 1, 0, map[0 := Done, 1 := Queued])
    ensures Runs(FRESH, es[..9]) && t == Final(FRESH, es[..9])
    ensures t == State(Reconciling, Some(Last(a, InProgress)), true, Replaying(false), 1, 0, map[0 := Done, 1 := Queued, 2 := Done])
  {
    var t8 := Play(es, 7, t7);
    t := Play(es, 8, t8);
  }

  lemma StartsAfterReplay(es: seq<Event>, a: Identity, t9: State) returns (t: State)
    requires |es| >= 12 && es[9] == ReplayEnds && es[10] == Promote(Some(a), true) && es[11] == Start(1)
    requires Runs(FRESH, es[..9]) && t9 == Final(FRESH, es[..9])
    requires t9 == State(Reconciling, Some(Last(a, InProgress)), true, Replaying(false), 1, 0, map[0 := Done, 1 := Queued, 2 := Done])
    ensures Runs(FRESH, es[..12]) && t == Final(FRESH, es[..12])
    ensures t == State(Healthy, Some(Last(a, Recovered)), false, Serving(1), 1, 1, map[0 := Done, 1 := Running(true, Fresh), 2 := Done])
  {
    var t10 := Play(es, 9, t9);
    var t11 := Play(es, 10, t10);
    t := Play(es, 11, t11);
  }
}
