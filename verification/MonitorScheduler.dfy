/** Which sessions are monitored when there are more of them than slots: admission in
    priority order, preemption for open positions, and passes until nothing changes. */
module MonitorScheduler {
  import opened Blocks
  import opened CursorOrder

  datatype Status = Holding | WaitingFirstBuy | InFlight | Ended

  datatype Session = Session(pair: nat, status: Status, created: nat)

  datatype StartOutcome = Started | Refused | Failed

  /** What the outside answers during one pass, pair by pair. */
  datatype Env = Env(
    now: nat,
    ignoredFirst: nat -> bool,
    canStart: nat -> bool,
    reload: nat -> Option<Session>,
    ignored: nat -> bool,
    later: nat -> nat,
    start: nat -> StartOutcome)

  function Rank(s: Status): nat {
    match s
    case Holding => 0
    case WaitingFirstBuy => 1
    case _ => 2
  }

  /** Open positions first, then the oldest, then by pair. */
  function Priority(): Session -> Cursor { (s: Session) => Cursor(Rank(s.status), s.created, s.pair) }

  predicate Monitorable(s: Session) {
    s.status.WaitingFirstBuy? || s.status.Holding?
  }

  predicate DistinctPairs(ss: seq<Session>) {
    forall i, k :: 0 <= i < k < |ss| ==> ss[i].pair != ss[k].pair
  }

  function Pairs(ss: seq<Session>): set<nat> {
    set s | s in ss :: s.pair
  }

  // -------------------------------------------------------------- admission

  datatype End = Going | NoCapacity | CannotStart | StartRefused

  /** `failed`: open positions whose start failed in this pass; each keeps a slot reserved. */
  datatype Admission = Admission(active: set<nat>, failed: set<nat>, rerun: bool, end: End)

  predicate Observed(s: Session, active: set<nat>) {
    s.status.WaitingFirstBuy? && s.pair in active
  }

  function Observing(active: set<nat>): Session -> bool { (s: Session) => Observed(s, active) }

  /** The active observation that is given up first. */
  function Lowest(eligible: seq<Session>, active: set<nat>): Option<Session> {
    var o := Sort(Filter(eligible, Observing(active)), Priority());
    if o == [] then None else Some(o[|o| - 1])
  }

  function Used(a: Admission): nat { |a.active| + |a.failed| }

  function Attempt(a: Admission, q: Session, env: Env, ttl: nat): Admission {
    var r := env.reload(q.pair);
    if r.None? || !Monitorable(r.value) || env.ignored(q.pair)
       || (r.value.status.WaitingFirstBuy? && env.later(q.pair) >= r.value.created + ttl) then a.(rerun := true)
    else match env.start(q.pair)
      case Started => a.(active := a.active + {q.pair})
      case Refused => a.(end := StartRefused)
      case Failed => if r.value.status.Holding? then a.(failed := a.failed + {q.pair}) else a
  }

  /** One queued session: skip it, stop the queue, or try to start it, giving up `lowest` if need be. */
  function AdmitGivingUp(a: Admission, lowest: Option<Session>, q: Session, env: Env, capacity: nat, ttl: nat): Admission {
    if !a.end.Going? || q.pair in a.active then a
    else if !env.canStart(q.pair) then a.(end := CannotStart)
    else if Used(a) < capacity then Attempt(a, q, env, ttl)
    else if !q.status.Holding? || lowest.None? then a.(end := NoCapacity)
    else Attempt(a.(active := a.active - {lowest.value.pair}, rerun := true), q, env, ttl)
  }

  /** Which active observation to give up, if any. */
  type Choice = set<nat> -> Option<Session>

  function LowestOf(eligible: seq<Session>): Choice { (active: set<nat>) => Lowest(eligible, active) }

  /** The first `n` of the queue. */
  function AdmitFirst(a: Admission, choose: Choice, queue: seq<Session>, n: nat, env: Env, capacity: nat, ttl: nat): Admission
    requires n <= |queue|
  {
    if n == 0 then a else
      var b := AdmitFirst(a, choose, queue, n - 1, env, capacity, ttl);
      AdmitGivingUp(b, choose(b.active), queue[n - 1], env, capacity, ttl)
  }

  lemma Next(a: Admission, choose: Choice, queue: seq<Session>, n: nat, env: Env, capacity: nat, ttl: nat, b: Admission)
    requires n < |queue| && b == AdmitFirst(a, choose, queue, n, env, capacity, ttl)
    ensures AdmitFirst(a, choose, queue, n + 1, env, capacity, ttl) == AdmitGivingUp(b, choose(b.active), queue[n], env, capacity, ttl)
  {
  }

  /** What admission goes through, one queued session at a time. */
  ghost predicate IsStep(trace: seq<Admission>, k: nat, choose: Choice, queue: seq<Session>, env: Env, capacity: nat, ttl: nat)
    requires k + 1 < |trace| <= |queue| + 1
  {
    trace[k + 1] == AdmitGivingUp(trace[k], choose(trace[k].active), queue[k], env, capacity, ttl)
  }

  ghost predicate IsTrace(trace: seq<Admission>, choose: Choice, queue: seq<Session>, env: Env, capacity: nat, ttl: nat) {
    1 <= |trace| <= |queue| + 1 && forall k :: 0 <= k < |trace| - 1 ==> IsStep(trace, k, choose, queue, env, capacity, ttl)
  }

  lemma TraceExtend(trace: seq<Admission>, choose: Choice, queue: seq<Session>, env: Env, capacity: nat, ttl: nat, next: Admission)
    requires IsTrace(trace, choose, queue, env, capacity, ttl) && |trace| <= |queue|
    requires next == AdmitGivingUp(trace[|trace| - 1], choose(trace[|trace| - 1].active), queue[|trace| - 1], env, capacity, ttl)
    ensures IsTrace(trace + [next], choose, queue, env, capacity, ttl)
  {
    forall k | 0 <= k < |trace| ensures IsStep(trace + [next], k, choose, queue, env, capacity, ttl) {
      assert k < |trace| - 1 ==> IsStep(trace, k, choose, queue, env, capacity, ttl);
    }
  }

  lemma {:induction false} TraceLeadsTo(trace: seq<Admission>, choose: Choice, queue: seq<Session>, n: nat, env: Env, capacity: nat, ttl: nat)
    requires IsTrace(trace, choose, queue, env, capacity, ttl) && n < |trace|
    ensures AdmitFirst(trace[0], choose, queue, n, env, capacity, ttl) == trace[n]
  {
    if n > 0 {
      TraceLeadsTo(trace, choose, queue, n - 1, env, capacity, ttl);
      assert IsStep(trace, n - 1, choose, queue, env, capacity, ttl);
    }
  }

  lemma TraceEnds(trace: seq<Admission>, choose: Choice, queue: seq<Session>, env: Env, capacity: nat, ttl: nat)
    requires IsTrace(trace, choose, queue, env, capacity, ttl)
    requires trace[|trace| - 1].end.Going? ==> |trace| == |queue| + 1
    ensures AdmitFirst(trace[0], choose, queue, |queue|, env, capacity, ttl) == trace[|trace| - 1]
  {
    var n := |trace| - 1;
    TraceLeadsTo(trace, choose, queue, n, env, capacity, ttl);
    EndStays(trace[0], choose, queue, n, |queue|, env, capacity, ttl);
  }

  class MonitorScheduler {
    const capacity: nat
    const ttl: nat
    var active: set<nat>
    var rerunRequested: bool

    constructor (capacity: nat, ttl: nat)
      ensures this.capacity == capacity && this.ttl == ttl && active == {} && !rerunRequested
    {
      this.capacity, this.ttl, active, rerunRequested := capacity, ttl, {}, false;
    }

    /** One session: it takes part, keeps its reservation, loses its monitor, or is left alone. */
    method ClassifyOne(s: Session, env: Env, eligible: seq<Session>, reserved: set<nat>) returns (more: seq<Session>, kept: set<nat>)
      modifies this
      ensures active == if Kept(s, old(active), env, ttl) then old(active) else old(active) - {s.pair}
      ensures rerunRequested <==> old(rerunRequested) || (Ignored(s, env) && s.pair in old(active))
      ensures more == if IsEligible(s, old(active), env, ttl) then eligible + [s] else eligible
      ensures kept == if s.status.InFlight? && s.pair in old(active) then reserved + {s.pair} else reserved
    {
      more, kept := eligible, reserved;
      if Expired(s, env, ttl) && s.pair !in active {
        return;
      }
      if Ignored(s, env) {
        if s.pair in active {
          active := active - {s.pair};
          rerunRequested := true;
        }
        return;
      }
      if Monitorable(s) {
        more := eligible + [s];
      } else if s.pair in active && s.status.InFlight? {
        kept := reserved + {s.pair};
      } else if s.pair in active {
        active := active - {s.pair};
      }
    }

    method ClassifyNext(sessions: seq<Session>, i: nat, env: Env, eligible: seq<Session>, reserved: set<nat>, ghost before: set<nat>, ghost asked: bool)
      returns (more: seq<Session>, kept: set<nat>)
      requires i < |sessions| && DistinctPairs(sessions)
      requires Sorting(sessions[..i], before, asked, active, rerunRequested, eligible, reserved, env, ttl)
      modifies this
      ensures Sorting(sessions[..i + 1], before, asked, active, rerunRequested, more, kept, env, ttl)
    {
      StillActive(sessions, i, before, env, ttl);
      SameSession(sessions[i], before, active, env, ttl);
      SortingStep(sessions, i, before, asked, active, rerunRequested, eligible, reserved, env, ttl);
      more, kept := ClassifyOne(sessions[i], env, eligible, reserved);
    }

    /** Sort out which sessions take part, and stop every monitor that has no business running. */
    method Classify(sessions: seq<Session>, env: Env) returns (eligible: seq<Session>)
      requires DistinctPairs(sessions)
      modifies this
      ensures eligible == Filter(sessions, Eligible(old(active), env, ttl))
      ensures active == old(active) * KeptPairs(sessions, old(active), env, ttl)
      ensures rerunRequested <==> old(rerunRequested) || exists s :: s in sessions && Ignored(s, env) && s.pair in old(active)
    {
      ghost var before, asked := active, rerunRequested;
      eligible := [];
      var reserved: set<nat> := {};
      assert sessions[..0] == [];
      for i := 0 to |sessions|
        invariant Sorting(sessions[..i], before, asked, active, rerunRequested, eligible, reserved, env, ttl)
      {
        eligible, reserved := ClassifyNext(sessions, i, env, eligible, reserved, before, asked);
      }
      assert sessions[..|sessions|] == sessions;
      SortedOut(sessions, before, asked, active, rerunRequested, eligible, reserved, env, ttl);
      active := active * (reserved + Pairs(eligible));
    }

    /** Start one session, unless it has changed since it was queued. */
    method Try(q: Session, failed: set<nat>, env: Env) returns (failing: set<nat>, end: End)
      modifies this
      ensures Admission(active, failing, rerunRequested, end)
           == Attempt(Admission(old(active), failed, old(rerunRequested), Going), q, env, ttl)
    {
      failing, end := failed, Going;
      var r := env.reload(q.pair);
      if r.None? || !Monitorable(r.value) {
        rerunRequested := true;
      } else if env.ignored(q.pair) || (r.value.status.WaitingFirstBuy? && env.later(q.pair) >= r.value.created + ttl) {
        rerunRequested := true;
      } else {
        match env.start(q.pair) {
          case Started => active := active + {q.pair};
          case Refused => end := StartRefused;
          case Failed =>
            if r.value.status.Holding? {
              failing := failed + {q.pair};
            }
        }
      }
    }

    method AdmitNext(eligible: seq<Session>, q: Session, failed: set<nat>, env: Env, ghost choose: Choice) returns (failing: set<nat>, end: End)
      requires choose == LowestOf(eligible)
      modifies this
      ensures Admission(active, failing, rerunRequested, end)
           == AdmitGivingUp(Admission(old(active), failed, old(rerunRequested), Going), choose(old(active)), q, env, capacity, ttl)
    {
      if q.pair in active {
        return failed, Going;
      }
      if !env.canStart(q.pair) {
        return failed, CannotStart;
      }
      if |active| + |failed| >= capacity {
        var victim := if q.status.Holding? then Lowest(eligible, active) else None;
        if victim.None? {
          return failed, NoCapacity;
        }
        active := active - {victim.value.pair};
        rerunRequested := true;
      }
      failing, end := Try(q, failed, env);
    }

    /** Go through the queue until it ends or stops; `trace` is what admission goes through. */
    method AdmitQueue(eligible: seq<Session>, env: Env, ghost choose: Choice) returns (failed: set<nat>, end: End, ghost trace: seq<Admission>)
      requires choose == LowestOf(eligible)
      modifies this
      ensures IsTrace(trace, choose, eligible, env, capacity, ttl)
      ensures trace[0] == Admission(old(active), {}, old(rerunRequested), Going)
      ensures trace[|trace| - 1] == Admission(active, failed, rerunRequested, end)
      ensures end == Going ==> |trace| == |eligible| + 1
    {
      trace := [Admission(active, {}, rerunRequested, Going)];
      failed, end := {}, Going;
      for i := 0 to |eligible|
        invariant end == Going && |trace| == i + 1 && trace[i] == Admission(active, failed, rerunRequested, end)
        invariant trace[0] == Admission(old(active), {}, old(rerunRequested), Going)
        invariant IsTrace(trace, choose, eligible, env, capacity, ttl)
      {
        failed, end := AdmitNext(eligible, eligible[i], failed, env, choose);
        TraceExtend(trace, choose, eligible, env, capacity, ttl, Admission(active, failed, rerunRequested, end));
        trace := trace + [Admission(active, failed, rerunRequested, end)];
        if end != Going {
          return;
        }
      }
    }

    /** Admission, best priority first. */
    method Admit(eligible: seq<Session>, env: Env) returns (failed: set<nat>, end: End)
      modifies this
      ensures Admission(active, failed, rerunRequested, end)
           == AdmitFirst(Admission(old(active), {}, old(rerunRequested), Going), LowestOf(eligible), eligible, |eligible|, env, capacity, ttl)
    {
      ghost var choose := LowestOf(eligible);
      ghost var trace;
      failed, end, trace := AdmitQueue(eligible, env, choose);
      TraceEnds(trace, choose, eligible, env, capacity, ttl);
    }

    method RunPass(sessions: seq<Session>, env: Env) returns (eligible: seq<Session>, failed: set<nat>, end: End)
      requires DistinctPairs(sessions)
      modifies this
      ensures PassOf(State(old(active), old(rerunRequested)), sessions, env, capacity, ttl)
           == Pass(State(active, rerunRequested), eligible, failed, end)
    {
      FilterDistinct(sessions, Eligible(active, env, ttl));
      var unsorted := Classify(sessions, env);
      eligible := Sort(unsorted, Priority());
      SortDistinct(unsorted);
      failed, end := Admit(eligible, env);
    }

    method NextPass(sessions: seq<Session>, env: Env)
      requires DistinctPairs(sessions)
      modifies this
      ensures State(active, rerunRequested) == NextState(State(old(active), old(rerunRequested)), sessions, env, capacity, ttl)
    {
      rerunRequested := false;
      var eligible, failed, end := RunPass(sessions, env);
    }

    method QuietPass(sessions: seq<Session>, env: Env)
      requires DistinctPairs(sessions)
      modifies this
      ensures Quiet(sessions, env, ttl) && |old(active)| <= capacity ==>
        |active| <= capacity && AtRest(sessions, active, capacity) && (AtRest(sessions, old(active), capacity) ==> !rerunRequested)
      ensures State(active, rerunRequested) == NextState(State(old(active), old(rerunRequested)), sessions, env, capacity, ttl)
    {
      ghost var st := State(active, rerunRequested);
      NextPass(sessions, env);
      if Quiet(sessions, env, ttl) && |st.active| <= capacity {
        PassSettles(st, sessions, env, capacity, ttl);
        if AtRest(sessions, st.active, capacity) {
          SettledPassIsLast(st, sessions, env, capacity, ttl);
        }
      }
    }

    /** A pass that asks for another one has given observations up. */
    method UndisturbedPass(sessions: seq<Session>, env: Env)
      requires DistinctPairs(sessions)
      modifies this
      ensures Quiet(sessions, env, ttl) && |old(active)| <= capacity ==>
        |active| <= capacity && AtRest(sessions, active, capacity) && (AtRest(sessions, old(active), capacity) ==> !rerunRequested)
      ensures Undisturbed(sessions, env, ttl) && rerunRequested ==>
        |Observations(Queue(sessions), active)| < |Observations(Queue(sessions), old(active))|
    {
      ghost var st := State(active, rerunRequested);
      QuietPass(sessions, env);
      if Undisturbed(sessions, env, ttl) && rerunRequested {
        AsksAgainIff(st, sessions, env, capacity, ttl);
        ProperSubsetSize(Observations(Queue(sessions), active), Observations(Queue(sessions), st.active));
      }
    }

    /** Passes until nobody asks for another one, at most `limit` of them.  When nothing changes
        outside and nothing expires or is ignored, each further pass has cost an observation, so
        their number is bounded by that of the observations; when moreover no start is held back
        or refused, the second pass is the last. */
    method RunUntilStable(sessions: seq<Session>, envs: nat -> Env, limit: nat) returns (passes: nat)
      requires DistinctPairs(sessions)
      modifies this
      ensures passes <= limit && (passes < limit ==> passes > 0 && !rerunRequested)
      ensures AllQuiet(sessions, envs, ttl) && |old(active)| <= capacity ==> passes <= 2 && |active| <= capacity
      ensures AllUndisturbed(sessions, envs, ttl) ==> passes <= |Observations(Queue(sessions), old(active))| + 1
    {
      ghost var calm := AllQuiet(sessions, envs, ttl) && |active| <= capacity;
      ghost var o := |Observations(Queue(sessions), active)|;
      passes := 0;
      while passes < limit && (passes == 0 || rerunRequested)
        invariant passes <= limit
        invariant calm ==> |active| <= capacity && AllQuiet(sessions, envs, ttl) && passes <= 2 && (passes == 2 ==> !rerunRequested)
        invariant calm && passes > 0 ==> AtRest(sessions, active, capacity)
        invariant AllUndisturbed(sessions, envs, ttl) ==>
          (if passes == 0 || rerunRequested then passes + |Observations(Queue(sessions), active)| <= o else passes <= o + 1)
      {
        UndisturbedPass(sessions, envs(passes));
        passes := passes + 1;
      }
    }
  }

  datatype State = State(active: set<nat>, rerun: bool)

  datatype Pass = Pass(state: State, eligible: seq<Session>, failed: set<nat>, end: End)

  predicate Expired(s: Session, env: Env, ttl: nat) {
    s.status.WaitingFirstBuy? && env.now >= s.created + ttl
  }

  predicate Ignored(s: Session, env: Env) {
    s.status.WaitingFirstBuy? && env.ignoredFirst(s.pair)
  }

  predicate IsEligible(s: Session, active: set<nat>, env: Env, ttl: nat) {
    !(Expired(s, env, ttl) && s.pair !in active) && !Ignored(s, env) && Monitorable(s)
  }

  function Eligible(active: set<nat>, env: Env, ttl: nat): Session -> bool {
    (s: Session) => IsEligible(s, active, env, ttl)
  }

  /** A session whose monitor, if it runs, keeps running. */
  predicate Kept(s: Session, active: set<nat>, env: Env, ttl: nat) {
    IsEligible(s, active, env, ttl) || (s.status.InFlight? && s.pair in active)
  }

  function KeptPairs(sessions: seq<Session>, active: set<nat>, env: Env, ttl: nat): set<nat> {
    set s | s in sessions && Kept(s, active, env, ttl) :: s.pair
  }

  /** One whole pass. */
  function PassOf(st: State, sessions: seq<Session>, env: Env, capacity: nat, ttl: nat): Pass {
    var eligible := Sort(Filter(sessions, Eligible(st.active, env, ttl)), Priority());
    var start := Admission(st.active * KeptPairs(sessions, st.active, env, ttl), {},
                           st.rerun || exists s :: s in sessions && Ignored(s, env) && s.pair in st.active, Going);
    var a := AdmitFirst(start, LowestOf(eligible), eligible, |eligible|, env, capacity, ttl);
    Pass(State(a.active, a.rerun), eligible, a.failed, a.end)
  }

  /** Where one more pass leads. */
  function NextState(st: State, sessions: seq<Session>, env: Env, capacity: nat, ttl: nat): State {
    PassOf(st.(rerun := false), sessions, env, capacity, ttl).state
  }

  /** Running monitors of listed sessions that have no business running. */
  function Dropped(sessions: seq<Session>, active: set<nat>, env: Env, ttl: nat): set<nat> {
    set s | s in sessions && !Kept(s, active, env, ttl) :: s.pair
  }

  /** What has been sorted out among the sessions seen so far. */
  ghost predicate Sorting(seen: seq<Session>, before: set<nat>, asked: bool, active: set<nat>, rerun: bool,
                          eligible: seq<Session>, reserved: set<nat>, env: Env, ttl: nat) {
    && eligible == Filter(seen, Eligible(before, env, ttl))
    && reserved == InFlightPairs(seen, before)
    && active == before - Dropped(seen, before, env, ttl)
    && (rerun <==> asked || exists s :: s in seen && Ignored(s, env) && s.pair in before)
  }

  function InFlightPairs(sessions: seq<Session>, active: set<nat>): set<nat> {
    set s | s in sessions && s.status.InFlight? && s.pair in active :: s.pair
  }

  /** One more session: exactly one of eligible, reserved, stopped or left alone. */
  lemma SortingStep(sessions: seq<Session>, i: nat, before: set<nat>, asked: bool, active: set<nat>, rerun: bool,
                    eligible: seq<Session>, reserved: set<nat>, env: Env, ttl: nat)
    requires i < |sessions| && Sorting(sessions[..i], before, asked, active, rerun, eligible, reserved, env, ttl)
    ensures var s := sessions[i];
      Sorting(sessions[..i + 1], before, asked,
              if Kept(s, before, env, ttl) then active else active - {s.pair},
              rerun || (Ignored(s, env) && s.pair in before),
              if IsEligible(s, before, env, ttl) then eligible + [s] else eligible,
              if s.status.InFlight? && s.pair in before then reserved + {s.pair} else reserved, env, ttl)
  {
    var s, seen, more := sessions[i], sessions[..i], sessions[..i + 1];
    assert more == seen + [s] && more[..i] == seen;
    assert forall x :: x in more <==> x in seen || x == s;
  }

  lemma SameSession(s: Session, before: set<nat>, active: set<nat>, env: Env, ttl: nat)
    requires s.pair in before <==> s.pair in active
    ensures Kept(s, before, env, ttl) == Kept(s, active, env, ttl) && IsEligible(s, before, env, ttl) == IsEligible(s, active, env, ttl)
  {
  }

  lemma SortedOut(sessions: seq<Session>, before: set<nat>, asked: bool, active: set<nat>, rerun: bool,
                  eligible: seq<Session>, reserved: set<nat>, env: Env, ttl: nat)
    requires DistinctPairs(sessions) && Sorting(sessions, before, asked, active, rerun, eligible, reserved, env, ttl)
    ensures active * (reserved + Pairs(eligible)) == before * KeptPairs(sessions, before, env, ttl)
    ensures eligible == Filter(sessions, Eligible(before, env, ttl))
    ensures rerun <==> asked || exists s :: s in sessions && Ignored(s, env) && s.pair in before
  {
    KeptAre(sessions, before, env, ttl);
    DroppedAreNotKept(sessions, before, env, ttl);
  }

  lemma StillActive(sessions: seq<Session>, i: nat, before: set<nat>, env: Env, ttl: nat)
    requires i < |sessions| && DistinctPairs(sessions)
    ensures sessions[i].pair !in Dropped(sessions[..i], before, env, ttl)
  {
  }

  lemma DroppedAreNotKept(sessions: seq<Session>, active: set<nat>, env: Env, ttl: nat)
    requires DistinctPairs(sessions)
    ensures Dropped(sessions, active, env, ttl) !! KeptPairs(sessions, active, env, ttl)
  {
  }

  lemma KeptAre(sessions: seq<Session>, active: set<nat>, env: Env, ttl: nat)
    ensures KeptPairs(sessions, active, env, ttl)
         == InFlightPairs(sessions, active) + Pairs(Filter(sessions, Eligible(active, env, ttl)))
  {
    forall s ensures s in Filter(sessions, Eligible(active, env, ttl)) <==> s in sessions && IsEligible(s, active, env, ttl) {
      FilterMember(sessions, Eligible(active, env, ttl), s);
    }
  }

  lemma {:induction false} FilterDistinct(s: seq<Session>, p: Session -> bool)
    requires DistinctPairs(s)
    ensures DistinctPairs(Filter(s, p))
  {
    if s != [] {
      var n := |s| - 1;
      FilterDistinct(s[..n], p);
      var f := Filter(s[..n], p);
      forall i | 0 <= i < |f| ensures f[i].pair != s[n].pair {
        FilterMember(s[..n], p, f[i]);
      }
    }
  }

  lemma SortDistinct(s: seq<Session>)
    requires DistinctPairs(s)
    ensures DistinctPairs(Sort(s, Priority())) && Strict(Sort(s, Priority()), Priority())
    ensures forall x :: x in Sort(s, Priority()) <==> x in s
  {
    SortStrict(s, Priority());
    var t := Sort(s, Priority());
    forall x ensures x in t <==> x in s {
      SortMembers(s, Priority(), x);
    }
    forall i, k | 0 <= i < k < |t| ensures t[i].pair != t[k].pair {
      assert t[i] in s && t[k] in s && Before(Priority()(t[i]), Priority()(t[k]));
    }
  }

  lemma {:induction false} EndStays(a: Admission, choose: Choice, eligible: seq<Session>, n: nat, m: nat, env: Env, capacity: nat, ttl: nat)
    requires n <= m <= |eligible|
    ensures !AdmitFirst(a, choose, eligible, n, env, capacity, ttl).end.Going? ==>
      AdmitFirst(a, choose, eligible, m, env, capacity, ttl) == AdmitFirst(a, choose, eligible, n, env, capacity, ttl)
    decreases m
  {
    if n < m {
      var k := m - 1;
      EndStays(a, choose, eligible, n, k, env, capacity, ttl);
      Next(a, choose, eligible, k, env, capacity, ttl, AdmitFirst(a, choose, eligible, k, env, capacity, ttl));
    }
  }

  // ----------------------------------------------------------- what admission keeps

  lemma LowestFacts(eligible: seq<Session>, active: set<nat>)
    ensures var v := Lowest(eligible, active);
      && (v.None? <==> forall s :: s in eligible ==> !Observed(s, active))
      && (v.Some? ==> v.value in eligible && Observed(v.value, active)
                      && forall s :: s in eligible && Observed(s, active) ==> !Before(Priority()(v.value), Priority()(s)))
  {
    var f := Filter(eligible, Observing(active));
    var o := Sort(f, Priority());
    SortOrdered(f, Priority());
    forall s ensures s in o <==> s in eligible && Observed(s, active) {
      SortMembers(f, Priority(), s);
      FilterMember(eligible, Observing(active), s);
    }
    if o != [] {
      var n := |o| - 1;
      assert o[n] in o;
      forall s | s in o ensures !Before(Priority()(o[n]), Priority()(s)) {
        var i :| 0 <= i < |o| && o[i] == s;
        if i < n {
          assert !Before(Priority()(o[n]), Priority()(o[i]));
        }
      }
    } else {
      forall s | s in eligible ensures !Observed(s, active) {
        assert s !in o;
      }
    }
  }

  /** No slot is used twice, and reserved slots belong to sessions already tried. */
  ghost predicate Sound(a: Admission, tried: set<nat>, capacity: nat) {
    Used(a) <= capacity && a.failed !! a.active && a.failed <= tried
  }

  /** `lowest` is an active observation, and there is none only if there is none. */
  ghost predicate IsVictim(lowest: Option<Session>, eligible: seq<Session>, active: set<nat>) {
    if lowest.None? then NoObservation(eligible, active) else lowest.value in eligible && Observed(lowest.value, active)
  }

  ghost predicate NoObservation(eligible: seq<Session>, active: set<nat>) {
    forall s :: s in eligible ==> !Observed(s, active)
  }

  ghost predicate Chooses(choose: Choice, eligible: seq<Session>) {
    forall active :: IsVictim(choose(active), eligible, active)
  }

  lemma LowestIsVictim(eligible: seq<Session>)
    ensures Chooses(LowestOf(eligible), eligible)
  {
    forall active ensures IsVictim(LowestOf(eligible)(active), eligible, active) {
      LowestFacts(eligible, active);
    }
  }

  lemma NotTriedBefore(eligible: seq<Session>, k: nat)
    requires k < |eligible| && DistinctPairs(eligible)
    ensures eligible[k].pair !in Pairs(eligible[..k]) && Pairs(eligible[..k + 1]) == Pairs(eligible[..k]) + {eligible[k].pair}
  {
    assert eligible[..k + 1] == eligible[..k] + [eligible[k]];
  }

  lemma AddOne(s: set<nat>, x: nat)
    requires x !in s
    ensures |s + {x}| == |s| + 1
  {
  }

  lemma TakeOne(s: set<nat>, x: nat)
    requires x in s
    ensures |s - {x}| == |s| - 1
  {
  }

  lemma AttemptIsSound(a: Admission, q: Session, env: Env, tried: set<nat>, capacity: nat, ttl: nat)
    requires Sound(a, tried, capacity) && Used(a) < capacity && q.pair !in tried && q.pair !in a.active
    ensures Sound(Attempt(a, q, env, ttl), tried + {q.pair}, capacity)
  {
    AddOne(a.active, q.pair);
    AddOne(a.failed, q.pair);
    AttemptCases(a, q, env, ttl);
  }

  /** What an attempt can change. */
  lemma AttemptCases(a: Admission, q: Session, env: Env, ttl: nat)
    ensures var b := Attempt(a, q, env, ttl);
      || (b.active == a.active + {q.pair} && b.failed == a.failed)
      || (b.active == a.active && b.failed == a.failed + {q.pair})
      || (b.active == a.active && b.failed == a.failed)
  {
  }

  lemma StepIsSound(a: Admission, lowest: Option<Session>, q: Session, env: Env, tried: set<nat>, capacity: nat, ttl: nat)
    requires Sound(a, tried, capacity) && q.pair !in tried && (lowest.Some? ==> lowest.value.pair in a.active)
    ensures Sound(AdmitGivingUp(a, lowest, q, env, capacity, ttl), tried + {q.pair}, capacity)
  {
    if a.end.Going? && q.pair !in a.active && env.canStart(q.pair) {
      if Used(a) < capacity {
        AttemptIsSound(a, q, env, tried, capacity, ttl);
      } else if q.status.Holding? && lowest.Some? {
        TakeOne(a.active, lowest.value.pair);
        AttemptIsSound(a.(active := a.active - {lowest.value.pair}, rerun := true), q, env, tried, capacity, ttl);
      }
    }
  }

  /** At every step of a pass the monitors running and the slots reserved for open positions
      that failed to start fit the capacity. */
  lemma {:induction false} CapacityHolds(a: Admission, choose: Choice, eligible: seq<Session>, n: nat, env: Env, capacity: nat, ttl: nat)
    requires n <= |eligible| && DistinctPairs(eligible) && Chooses(choose, eligible) && a.failed == {} && Used(a) <= capacity
    ensures Sound(AdmitFirst(a, choose, eligible, n, env, capacity, ttl), Pairs(eligible[..n]), capacity)
  {
    if n > 0 {
      CapacityHolds(a, choose, eligible, n - 1, env, capacity, ttl);
      var b := AdmitFirst(a, choose, eligible, n - 1, env, capacity, ttl);
      assert IsVictim(choose(b.active), eligible, b.active);
      NotTriedBefore(eligible, n - 1);
      StepIsSound(b, choose(b.active), eligible[n - 1], env, Pairs(eligible[..n - 1]), capacity, ttl);
    }
  }

  lemma StepKeepsHolding(a: Admission, lowest: Option<Session>, eligible: seq<Session>, q: Session, env: Env, capacity: nat, ttl: nat, h: Session)
    requires DistinctPairs(eligible) && h in eligible && h.status.Holding? && h.pair in a.active && IsVictim(lowest, eligible, a.active)
    ensures h.pair in AdmitGivingUp(a, lowest, q, env, capacity, ttl).active
  {
    assert lowest.Some? ==> lowest.value.pair != h.pair;
  }

  /** An open position that is monitored stays monitored. */
  lemma {:induction false} HoldingNeverPreempted(a: Admission, choose: Choice, eligible: seq<Session>, n: nat, env: Env, capacity: nat, ttl: nat, h: Session)
    requires n <= |eligible| && DistinctPairs(eligible) && Chooses(choose, eligible) && h in eligible && h.status.Holding? && h.pair in a.active
    ensures h.pair in AdmitFirst(a, choose, eligible, n, env, capacity, ttl).active
  {
    if n > 0 {
      HoldingNeverPreempted(a, choose, eligible, n - 1, env, capacity, ttl, h);
      var b := AdmitFirst(a, choose, eligible, n - 1, env, capacity, ttl);
      assert IsVictim(choose(b.active), eligible, b.active);
      StepKeepsHolding(b, choose(b.active), eligible, eligible[n - 1], env, capacity, ttl, h);
    }
  }

  lemma HoldingFirst(eligible: seq<Session>, i: nat, k: nat)
    requires Strict(eligible, Priority()) && i <= k < |eligible| && eligible[k].status.Holding?
    ensures eligible[i].status.Holding?
  {
    if i < k {
      assert Before(Priority()(eligible[i]), Priority()(eligible[k]));
    }
  }

  lemma StepStops(a: Admission, lowest: Option<Session>, eligible: seq<Session>, q: Session, env: Env, capacity: nat, ttl: nat)
    requires a.end.Going? && IsVictim(lowest, eligible, a.active)
    ensures var b := AdmitGivingUp(a, lowest, q, env, capacity, ttl);
      b.end.NoCapacity? ==> b.active == a.active && Used(b) >= capacity && (q.status.Holding? ==> NoObservation(eligible, a.active))
  {
  }

  /** When the queue stops for lack of capacity before an open position, no observation is being monitored. */
  lemma {:induction false} HoldingWaitsOnlyForHolding(a: Admission, choose: Choice, eligible: seq<Session>, n: nat, env: Env, capacity: nat, ttl: nat) returns (k: nat)
    requires n <= |eligible| && Strict(eligible, Priority()) && Chooses(choose, eligible) && a.end.Going?
    requires AdmitFirst(a, choose, eligible, n, env, capacity, ttl).end.NoCapacity?
    ensures k < n && AdmitFirst(a, choose, eligible, k, env, capacity, ttl).end.Going?
    ensures forall i :: k <= i < |eligible| && eligible[i].status.Holding? ==>
      NoObservation(eligible, AdmitFirst(a, choose, eligible, n, env, capacity, ttl).active)
    ensures Used(AdmitFirst(a, choose, eligible, n, env, capacity, ttl)) >= capacity
  {
    var m := n - 1;
    var b := AdmitFirst(a, choose, eligible, m, env, capacity, ttl);
    assert IsVictim(choose(b.active), eligible, b.active);
    Next(a, choose, eligible, m, env, capacity, ttl, b);
    if b.end.Going? {
      k := m;
      StepStops(b, choose(b.active), eligible, eligible[k], env, capacity, ttl);
      forall i | k <= i < |eligible| && eligible[i].status.Holding? ensures NoObservation(eligible, b.active) {
        HoldingFirst(eligible, k, i);
      }
    } else {
      k := HoldingWaitsOnlyForHolding(a, choose, eligible, m, env, capacity, ttl);
    }
  }

  // ------------------------------------------------- when the passes come to an end

  function Watchable(): Session -> bool { (s: Session) => Monitorable(s) }

  /** The queue when nothing has expired and nothing is ignored. */
  function Queue(sessions: seq<Session>): seq<Session> {
    Sort(Filter(sessions, Watchable()), Priority())
  }

  /** Nothing changes outside while the pass runs, and no start is refused. */
  predicate Quiet(sessions: seq<Session>, env: Env, ttl: nat) {
    forall s :: s in sessions ==>
      && !env.ignoredFirst(s.pair) && !env.ignored(s.pair)
      && env.canStart(s.pair) && env.reload(s.pair) == Some(s) && !env.start(s.pair).Refused?
      && (s.status.WaitingFirstBuy? ==> env.now < s.created + ttl && env.later(s.pair) < s.created + ttl)
  }

  ghost predicate AllQuiet(sessions: seq<Session>, envs: nat -> Env, ttl: nat) {
    forall k: nat :: Quiet(sessions, envs(k), ttl)
  }

  /** Every running monitor belongs to a listed session that keeps it running. */
  predicate Within(sessions: seq<Session>, active: set<nat>) {
    forall p :: p in active ==> exists s :: s in sessions && s.pair == p && (Monitorable(s) || s.status.InFlight?)
  }

  /** Open positions of the queue, from place `k` on, that are not monitored. */
  function Idle(queue: seq<Session>, active: set<nat>, k: nat): set<nat>
    requires k <= |queue|
  {
    set i | k <= i < |queue| && queue[i].status.Holding? && queue[i].pair !in active :: queue[i].pair
  }

  /** Either there is a slot for every open position, or no observation is left to give up. */
  ghost predicate Settled(queue: seq<Session>, active: set<nat>, capacity: nat) {
    |active| + |Idle(queue, active, 0)| <= capacity || NoObservation(queue, active)
  }

  ghost predicate AtRest(sessions: seq<Session>, active: set<nat>, capacity: nat) {
    Settled(Queue(sessions), active, capacity) && Within(sessions, active)
  }

  lemma {:induction false} FilterSame(s: seq<Session>, p: Session -> bool, q: Session -> bool)
    requires forall x :: x in s ==> p(x) == q(x)
    ensures Filter(s, p) == Filter(s, q)
  {
    if s != [] {
      FilterSame(s[..|s| - 1], p, q);
    }
  }

  lemma QuietQueue(sessions: seq<Session>, active: set<nat>, env: Env, ttl: nat)
    requires Quiet(sessions, env, ttl) && DistinctPairs(sessions)
    ensures Sort(Filter(sessions, Eligible(active, env, ttl)), Priority()) == Queue(sessions)
    ensures DistinctPairs(Queue(sessions)) && Strict(Queue(sessions), Priority())
    ensures forall s :: s in Queue(sessions) <==> s in sessions && Monitorable(s)
    ensures !exists s :: s in sessions && Ignored(s, env) && s.pair in active
  {
    FilterSame(sessions, Eligible(active, env, ttl), Watchable());
    FilterDistinct(sessions, Watchable());
    SortDistinct(Filter(sessions, Watchable()));
    forall s ensures s in Queue(sessions) <==> s in sessions && Monitorable(s) {
      FilterMember(sessions, Watchable(), s);
    }
  }

  /** In a quiet pass an attempt starts the monitor, or reserves a slot for an open position. */
  lemma QuietAttempt(a: Admission, q: Session, sessions: seq<Session>, env: Env, ttl: nat)
    requires Quiet(sessions, env, ttl) && q in sessions && Monitorable(q)
    ensures var b := Attempt(a, q, env, ttl);
      && b.rerun == a.rerun && b.end == a.end
      && ((b.active == a.active + {q.pair} && b.failed == a.failed)
          || (b.active == a.active && b.failed == if q.status.Holding? then a.failed + {q.pair} else a.failed))
  {
  }

  /** Every open position before place `k` is monitored or has a slot reserved. */
  ghost predicate Tried(a: Admission, queue: seq<Session>, k: nat)
    requires k <= |queue|
  {
    forall i :: 0 <= i < k && queue[i].status.Holding? ==> queue[i].pair in a.active || queue[i].pair in a.failed
  }

  /** What a quiet pass has reached before place `k`. */
  ghost predicate Settling(a: Admission, queue: seq<Session>, k: nat)
    requires k <= |queue|
  {
    && (a.end.Going? || a.end.NoCapacity?)
    && (a.end.Going? ==> Tried(a, queue, k))
    && (a.end.NoCapacity? ==> Tried(a, queue, |queue|) || NoObservation(queue, a.active))
  }

  lemma GivingUpKeepsTried(a: Admission, v: Session, queue: seq<Session>, k: nat)
    requires k <= |queue| && DistinctPairs(queue) && Tried(a, queue, k) && v in queue && v.status.WaitingFirstBuy?
    ensures Tried(a.(active := a.active - {v.pair}, rerun := true), queue, k)
  {
  }

  lemma TriedAll(a: Admission, queue: seq<Session>, k: nat)
    requires k < |queue| && Strict(queue, Priority()) && Tried(a, queue, k) && !queue[k].status.Holding?
    ensures Tried(a, queue, |queue|)
  {
    forall i | k <= i < |queue| ensures !queue[i].status.Holding? {
      if queue[i].status.Holding? {
        HoldingFirst(queue, k, i);
      }
    }
  }

  lemma SettlingStep(a: Admission, lowest: Option<Session>, queue: seq<Session>, k: nat, sessions: seq<Session>, env: Env, capacity: nat, ttl: nat)
    requires k < |queue| && DistinctPairs(queue) && Strict(queue, Priority()) && Quiet(sessions, env, ttl)
    requires queue[k] in sessions && Monitorable(queue[k]) && IsVictim(lowest, queue, a.active) && Settling(a, queue, k)
    ensures Settling(AdmitGivingUp(a, lowest, queue[k], env, capacity, ttl), queue, k + 1)
  {
    var q := queue[k];
    if a.end.Going? && q.pair !in a.active {
      if Used(a) < capacity {
        QuietAttempt(a, q, sessions, env, ttl);
      } else if q.status.Holding? && lowest.Some? {
        GivingUpKeepsTried(a, lowest.value, queue, k);
        QuietAttempt(a.(active := a.active - {lowest.value.pair}, rerun := true), q, sessions, env, ttl);
      } else if !q.status.Holding? {
        TriedAll(a, queue, k);
      }
    }
  }

  lemma {:induction false} QuietPassSettles(a: Admission, choose: Choice, queue: seq<Session>, n: nat, sessions: seq<Session>, env: Env, capacity: nat, ttl: nat)
    requires n <= |queue| && DistinctPairs(queue) && Strict(queue, Priority()) && Chooses(choose, queue) && Quiet(sessions, env, ttl) && a.end.Going?
    requires forall i :: 0 <= i < |queue| ==> queue[i] in sessions && Monitorable(queue[i])
    ensures Settling(AdmitFirst(a, choose, queue, n, env, capacity, ttl), queue, n)
  {
    if n > 0 {
      var k := n - 1;
      QuietPassSettles(a, choose, queue, k, sessions, env, capacity, ttl);
      var b := AdmitFirst(a, choose, queue, k, env, capacity, ttl);
      assert IsVictim(choose(b.active), queue, b.active);
      var c := AdmitGivingUp(b, choose(b.active), queue[k], env, capacity, ttl);
      assert Settling(c, queue, k + 1) by {
        SettlingStep(b, choose(b.active), queue, k, sessions, env, capacity, ttl);
      }
      assert c == AdmitFirst(a, choose, queue, n, env, capacity, ttl);
    }
  }

  lemma ProperSubsetSize(a: set<nat>, b: set<nat>)
    requires a < b
    ensures |a| < |b|
  {
    var x :| x in b && x !in a;
    TakeOne(b, x);
    SubsetSize(a, b - {x});
  }

  lemma SubsetSize(a: set<nat>, b: set<nat>)
    requires a <= b
    ensures |a| <= |b|
  {
    assert b == a + (b - a);
  }

  lemma SettlingEnds(a: Admission, queue: seq<Session>, capacity: nat)
    requires Settling(a, queue, |queue|) && Used(a) <= capacity
    ensures Settled(queue, a.active, capacity)
  {
    if !NoObservation(queue, a.active) {
      assert Idle(queue, a.active, 0) <= a.failed;
      SubsetSize(Idle(queue, a.active, 0), a.failed);
    }
  }

  /** Monitors come from those already running or from the queue. */
  lemma {:induction false} ActiveWithin(a: Admission, choose: Choice, eligible: seq<Session>, n: nat, env: Env, capacity: nat, ttl: nat)
    requires n <= |eligible|
    ensures AdmitFirst(a, choose, eligible, n, env, capacity, ttl).active <= a.active + Pairs(eligible)
  {
    if n > 0 {
      ActiveWithin(a, choose, eligible, n - 1, env, capacity, ttl);
      assert eligible[n - 1].pair in Pairs(eligible);
      var b := AdmitFirst(a, choose, eligible, n - 1, env, capacity, ttl);
      StepWithin(b, choose(b.active), eligible[n - 1], env, capacity, ttl);
    }
  }

  lemma StepWithin(a: Admission, lowest: Option<Session>, q: Session, env: Env, capacity: nat, ttl: nat)
    ensures AdmitGivingUp(a, lowest, q, env, capacity, ttl).active <= a.active + {q.pair}
  {
  }

  lemma QuietAdmission(a0: Admission, choose: Choice, queue: seq<Session>, sessions: seq<Session>, env: Env, capacity: nat, ttl: nat)
    requires DistinctPairs(queue) && Strict(queue, Priority()) && Chooses(choose, queue) && Quiet(sessions, env, ttl)
    requires forall s :: s in queue ==> s in sessions && Monitorable(s)
    requires a0.end.Going? && a0.failed == {} && Used(a0) <= capacity
    ensures var a := AdmitFirst(a0, choose, queue, |queue|, env, capacity, ttl);
      |a.active| <= capacity && Settled(queue, a.active, capacity) && a.active <= a0.active + Pairs(queue)
  {
    QuietPassSettles(a0, choose, queue, |queue|, sessions, env, capacity, ttl);
    CapacityHolds(a0, choose, queue, |queue|, env, capacity, ttl);
    SettlingEnds(AdmitFirst(a0, choose, queue, |queue|, env, capacity, ttl), queue, capacity);
    ActiveWithin(a0, choose, queue, |queue|, env, capacity, ttl);
  }

  lemma WithinAfter(sessions: seq<Session>, queue: seq<Session>, before: set<nat>, active: set<nat>, env: Env, ttl: nat)
    requires forall s :: s in queue ==> s in sessions && Monitorable(s)
    requires active <= KeptPairs(sessions, before, env, ttl) + Pairs(queue)
    ensures Within(sessions, active)
  {
    forall p | p in active ensures exists s :: s in sessions && s.pair == p && (Monitorable(s) || s.status.InFlight?) {
      if p in KeptPairs(sessions, before, env, ttl) {
        var s :| s in sessions && Kept(s, before, env, ttl) && s.pair == p;
      } else {
        var s :| s in queue && s.pair == p;
      }
    }
  }

  /** After a quiet pass there is a slot for every open position, or nothing left to give up. */
  lemma PassSettles(st: State, sessions: seq<Session>, env: Env, capacity: nat, ttl: nat)
    requires DistinctPairs(sessions) && Quiet(sessions, env, ttl) && |st.active| <= capacity
    ensures var t := NextState(st, sessions, env, capacity, ttl);
      |t.active| <= capacity && AtRest(sessions, t.active, capacity)
  {
    QuietQueue(sessions, st.active, env, ttl);
    var queue := Queue(sessions);
    var a0 := Admission(st.active * KeptPairs(sessions, st.active, env, ttl), {}, false, Going);
    LowestIsVictim(queue);
    SubsetSize(a0.active, st.active);
    QuietAdmission(a0, LowestOf(queue), queue, sessions, env, capacity, ttl);
    WithinAfter(sessions, queue, st.active, NextState(st, sessions, env, capacity, ttl).active, env, ttl);
  }

  /** Nothing to give up and nothing to wait for, from place `k` on. */
  ghost predicate Calm(a: Admission, queue: seq<Session>, k: nat, capacity: nat)
    requires k <= |queue|
  {
    && !a.rerun
    && (a.end.Going? ==>
          || (forall i :: k <= i < |queue| ==> !queue[i].status.Holding?)
          || NoObservation(queue, a.active)
          || Used(a) + |Idle(queue, a.active, k)| <= capacity)
  }

  lemma IdleStep(queue: seq<Session>, active: set<nat>, k: nat)
    requires k < |queue| && DistinctPairs(queue) && queue[k].status.Holding?
    ensures queue[k].pair in active ==> Idle(queue, active, k + 1) == Idle(queue, active, k)
    ensures queue[k].pair !in active ==>
      |Idle(queue, active, k + 1)| == |Idle(queue, active, k)| - 1 && Idle(queue, active + {queue[k].pair}, k + 1) == Idle(queue, active, k + 1)
  {
    var q := queue[k];
    if q.pair !in active {
      assert q.pair in Idle(queue, active, k);
      assert Idle(queue, active, k + 1) == Idle(queue, active, k) - {q.pair};
      TakeOne(Idle(queue, active, k), q.pair);
    }
  }

  lemma CalmStep(a: Admission, lowest: Option<Session>, queue: seq<Session>, k: nat, sessions: seq<Session>, env: Env, capacity: nat, ttl: nat)
    requires k < |queue| && DistinctPairs(queue) && Strict(queue, Priority()) && Quiet(sessions, env, ttl)
    requires queue[k] in sessions && Monitorable(queue[k]) && IsVictim(lowest, queue, a.active) && Calm(a, queue, k, capacity)
    ensures Calm(AdmitGivingUp(a, lowest, queue[k], env, capacity, ttl), queue, k + 1, capacity)
  {
    var q := queue[k];
    var b := AdmitGivingUp(a, lowest, q, env, capacity, ttl);
    if a.end.Going? {
      if !q.status.Holding? {
        forall i | k <= i < |queue| ensures !queue[i].status.Holding? {
          if queue[i].status.Holding? {
            HoldingFirst(queue, k, i);
          }
        }
        QuietAttempt(a, q, sessions, env, ttl);
      } else {
        IdleStep(queue, a.active, k);
        HoldingStep(a, lowest, queue, k, sessions, env, capacity, ttl);
      }
    }
  }

  lemma HoldingStep(a: Admission, lowest: Option<Session>, queue: seq<Session>, k: nat, sessions: seq<Session>, env: Env, capacity: nat, ttl: nat)
    requires k < |queue| && DistinctPairs(queue) && Quiet(sessions, env, ttl) && queue[k] in sessions && queue[k].status.Holding?
    requires IsVictim(lowest, queue, a.active) && a.end.Going? && !a.rerun
    requires NoObservation(queue, a.active) || Used(a) + |Idle(queue, a.active, k)| <= capacity
    ensures Calm(AdmitGivingUp(a, lowest, queue[k], env, capacity, ttl), queue, k + 1, capacity)
  {
    var q := queue[k];
    IdleStep(queue, a.active, k);
    if q.pair !in a.active && Used(a) < capacity {
      QuietAttempt(a, q, sessions, env, ttl);
      AddOne(a.active, q.pair);
      if q.pair !in a.failed {
        AddOne(a.failed, q.pair);
      } else {
        assert a.failed + {q.pair} == a.failed;
      }
      if NoObservation(queue, a.active) {
        assert NoObservation(queue, a.active + {q.pair});
      }
    }
  }

  lemma {:induction false} CalmThroughout(a: Admission, choose: Choice, queue: seq<Session>, n: nat, sessions: seq<Session>, env: Env, capacity: nat, ttl: nat)
    requires n <= |queue| && DistinctPairs(queue) && Strict(queue, Priority()) && Chooses(choose, queue) && Quiet(sessions, env, ttl)
    requires forall i :: 0 <= i < |queue| ==> queue[i] in sessions && Monitorable(queue[i])
    requires Calm(a, queue, 0, capacity)
    ensures Calm(AdmitFirst(a, choose, queue, n, env, capacity, ttl), queue, n, capacity)
  {
    if n > 0 {
      var k := n - 1;
      CalmThroughout(a, choose, queue, k, sessions, env, capacity, ttl);
      var b := AdmitFirst(a, choose, queue, k, env, capacity, ttl);
      assert IsVictim(choose(b.active), queue, b.active);
      var c := AdmitGivingUp(b, choose(b.active), queue[k], env, capacity, ttl);
      assert Calm(c, queue, k + 1, capacity) by {
        CalmStep(b, choose(b.active), queue, k, sessions, env, capacity, ttl);
      }
      assert c == AdmitFirst(a, choose, queue, n, env, capacity, ttl);
    }
  }

  /** A quiet pass over a settled state asks for no further pass. */
  lemma SettledPassIsLast(st: State, sessions: seq<Session>, env: Env, capacity: nat, ttl: nat)
    requires DistinctPairs(sessions) && Quiet(sessions, env, ttl)
    requires AtRest(sessions, st.active, capacity)
    ensures !NextState(st, sessions, env, capacity, ttl).rerun
  {
    QuietQueue(sessions, st.active, env, ttl);
    var queue := Queue(sessions);
    forall p | p in st.active ensures p in KeptPairs(sessions, st.active, env, ttl) {
      var s :| s in sessions && s.pair == p && (Monitorable(s) || s.status.InFlight?);
      assert Kept(s, st.active, env, ttl);
    }
    assert st.active * KeptPairs(sessions, st.active, env, ttl) == st.active;
    var a0 := Admission(st.active, {}, false, Going);
    var choose := LowestOf(queue);
    LowestIsVictim(queue);
    CalmThroughout(a0, choose, queue, |queue|, sessions, env, capacity, ttl);
  }

  // ---------------------------------------------------- passes with refused starts

  /** Nothing expires, is ignored or changes outside while the pass runs; starts may be held back or refused. */
  predicate Undisturbed(sessions: seq<Session>, env: Env, ttl: nat) {
    forall s :: s in sessions ==>
      && !env.ignoredFirst(s.pair) && !env.ignored(s.pair) && env.reload(s.pair) == Some(s)
      && (s.status.WaitingFirstBuy? ==> env.now < s.created + ttl && env.later(s.pair) < s.created + ttl)
  }

  ghost predicate AllUndisturbed(sessions: seq<Session>, envs: nat -> Env, ttl: nat) {
    forall k: nat :: Undisturbed(sessions, envs(k), ttl)
  }

  /** The observations being monitored. */
  function Observations(queue: seq<Session>, active: set<nat>): set<nat> {
    set s | s in queue && Observed(s, active) :: s.pair
  }

  /** Open positions before place `k` that are not monitored. */
  function IdleBefore(queue: seq<Session>, active: set<nat>, k: nat): set<nat>
    requires k <= |queue|
  {
    set i | 0 <= i < k && queue[i].status.Holding? && queue[i].pair !in active :: queue[i].pair
  }

  /** Every open position before place `k` that is not monitored is started, or fails and keeps a slot. */
  predicate AllTaken(queue: seq<Session>, active: set<nat>, env: Env, k: nat)
    requires k <= |queue|
  {
    forall i :: 0 <= i < k && queue[i].status.Holding? && queue[i].pair !in active ==>
      env.canStart(queue[i].pair) && !env.start(queue[i].pair).Refused?
  }

  /** An open position at place `k` finds every slot taken while an observation is being monitored. */
  predicate Displaces(queue: seq<Session>, active: set<nat>, env: Env, capacity: nat, k: nat)
    requires k < |queue|
  {
    && queue[k].status.Holding? && queue[k].pair !in active && env.canStart(queue[k].pair)
    && AllTaken(queue, active, env, k)
    && |active| + |IdleBefore(queue, active, k)| >= capacity
    && Observations(queue, active) != {}
  }

  ghost predicate SomeDisplaces(queue: seq<Session>, active: set<nat>, env: Env, capacity: nat, n: nat)
    requires n <= |queue|
  {
    exists k :: 0 <= k < n && Displaces(queue, active, env, capacity, k)
  }

  predicate AllHolding(queue: seq<Session>, n: nat)
    requires n <= |queue|
  {
    forall i :: 0 <= i < n ==> queue[i].status.Holding?
  }

  /** As long as nothing was given up: what was running still runs, and every open position tried uses a slot. */
  ghost predicate Filling(a: Admission, queue: seq<Session>, active: set<nat>, env: Env, n: nat)
    requires n <= |queue|
  {
    && active <= a.active <= active + Pairs(queue[..n]) && a.failed <= Pairs(queue[..n])
    && (AllHolding(queue, n) ==> AllTaken(queue, active, env, n) && Used(a) == |active| + |IdleBefore(queue, active, n)|
                                 && Observations(queue, a.active) == Observations(queue, active))
  }

  /** What an undisturbed pass has come to before place `n`. */
  ghost predicate Displacing(a: Admission, queue: seq<Session>, active: set<nat>, env: Env, capacity: nat, n: nat)
    requires n <= |queue|
  {
    && (a.rerun <==> SomeDisplaces(queue, active, env, capacity, n))
    && (!a.rerun && a.end.Going? ==> Filling(a, queue, active, env, n))
    && (!a.rerun ==> active <= a.active)
    && (!a.rerun && !a.end.Going? ==> !SomeDisplaces(queue, active, env, capacity, |queue|))
    && (a.rerun ==> Observations(queue, a.active) < Observations(queue, active) && (a.end.Going? ==> Used(a) >= capacity && a.failed <= Pairs(queue[..n])))
  }

  /** An undisturbed pass asks for another one if and only if an open position displaces an
      observation; it then ends with fewer observations, and otherwise loses none. */
  lemma AsksAgainIff(st: State, sessions: seq<Session>, env: Env, capacity: nat, ttl: nat)
    requires DistinctPairs(sessions) && Undisturbed(sessions, env, ttl)
    ensures var queue, active := Queue(sessions), st.active * KeptPairs(sessions, st.active, env, ttl);
      var t := NextState(st, sessions, env, capacity, ttl);
      && Observations(queue, active) == Observations(queue, st.active)
      && (t.rerun <==> SomeDisplaces(queue, active, env, capacity, |queue|))
      && (t.rerun <==> Observations(queue, t.active) < Observations(queue, st.active))
      && (t.rerun <==> !(Observations(queue, st.active) <= Observations(queue, t.active)))
  {
    var queue, active := Queue(sessions), st.active * KeptPairs(sessions, st.active, env, ttl);
    UndisturbedQueue(sessions, st.active, env, ttl);
    KeepsObservations(sessions, st.active, env, ttl);
    LowestIsVictim(queue);
    var a0 := Admission(active, {}, false, Going);
    DisplacingStart(a0, queue, env, capacity);
    DisplacingThroughout(a0, LowestOf(queue), queue, |queue|, sessions, env, capacity, ttl);
    DisplacingEnds(AdmitFirst(a0, LowestOf(queue), queue, |queue|, env, capacity, ttl), queue, active, env, capacity);
  }

  lemma DisplacingEnds(a: Admission, queue: seq<Session>, active: set<nat>, env: Env, capacity: nat)
    requires Displacing(a, queue, active, env, capacity, |queue|)
    ensures a.rerun <==> SomeDisplaces(queue, active, env, capacity, |queue|)
    ensures a.rerun <==> Observations(queue, a.active) < Observations(queue, active)
    ensures a.rerun <==> !(Observations(queue, active) <= Observations(queue, a.active))
  {
    if !a.rerun {
      forall p | p in Observations(queue, active) ensures p in Observations(queue, a.active) {
        var s :| s in queue && Observed(s, active) && s.pair == p;
        assert Observed(s, a.active);
      }
    }
  }

  lemma UndisturbedQueue(sessions: seq<Session>, active: set<nat>, env: Env, ttl: nat)
    requires Undisturbed(sessions, env, ttl) && DistinctPairs(sessions)
    ensures Sort(Filter(sessions, Eligible(active, env, ttl)), Priority()) == Queue(sessions)
    ensures DistinctPairs(Queue(sessions)) && Strict(Queue(sessions), Priority())
    ensures forall s :: s in Queue(sessions) <==> s in sessions && Monitorable(s)
    ensures !exists s :: s in sessions && Ignored(s, env) && s.pair in active
  {
    FilterSame(sessions, Eligible(active, env, ttl), Watchable());
    FilterDistinct(sessions, Watchable());
    SortDistinct(Filter(sessions, Watchable()));
    forall s ensures s in Queue(sessions) <==> s in sessions && Monitorable(s) {
      FilterMember(sessions, Watchable(), s);
    }
  }

  lemma KeepsObservations(sessions: seq<Session>, active: set<nat>, env: Env, ttl: nat)
    requires Undisturbed(sessions, env, ttl) && DistinctPairs(sessions)
    ensures Observations(Queue(sessions), active * KeptPairs(sessions, active, env, ttl)) == Observations(Queue(sessions), active)
  {
    UndisturbedQueue(sessions, active, env, ttl);
    var queue, kept := Queue(sessions), active * KeptPairs(sessions, active, env, ttl);
    forall s | s in queue && Observed(s, active) ensures Observed(s, kept) {
      assert Kept(s, active, env, ttl);
    }
  }

  lemma DisplacingStart(a: Admission, queue: seq<Session>, env: Env, capacity: nat)
    requires a == Admission(a.active, {}, false, Going)
    ensures Displacing(a, queue, a.active, env, capacity, 0)
  {
    assert IdleBefore(queue, a.active, 0) == {};
    assert queue[..0] == [];
  }

  lemma {:induction false} DisplacingThroughout(a: Admission, choose: Choice, queue: seq<Session>, n: nat, sessions: seq<Session>, env: Env, capacity: nat, ttl: nat)
    requires n <= |queue| && DistinctPairs(queue) && Strict(queue, Priority()) && Chooses(choose, queue) && Undisturbed(sessions, env, ttl)
    requires forall s :: s in queue ==> s in sessions && Monitorable(s)
    requires Displacing(a, queue, a.active, env, capacity, 0)
    ensures Displacing(AdmitFirst(a, choose, queue, n, env, capacity, ttl), queue, a.active, env, capacity, n)
  {
    if n > 0 {
      var k := n - 1;
      DisplacingThroughout(a, choose, queue, k, sessions, env, capacity, ttl);
      var b := AdmitFirst(a, choose, queue, k, env, capacity, ttl);
      assert IsVictim(choose(b.active), queue, b.active);
      var c := AdmitGivingUp(b, choose(b.active), queue[k], env, capacity, ttl);
      assert Displacing(c, queue, a.active, env, capacity, n) by {
        DisplacingStep(b, choose(b.active), queue, k, sessions, a.active, env, capacity, ttl);
      }
      assert c == AdmitFirst(a, choose, queue, n, env, capacity, ttl);
    }
  }

  /** In an undisturbed pass an attempt starts the monitor, reserves a slot, or stops the queue. */
  lemma UndisturbedAttempt(a: Admission, q: Session, sessions: seq<Session>, env: Env, ttl: nat)
    requires Undisturbed(sessions, env, ttl) && q in sessions && Monitorable(q) && a.end.Going?
    ensures Attempt(a, q, env, ttl) == match env.start(q.pair)
      case Started => a.(active := a.active + {q.pair})
      case Refused => a.(end := StartRefused)
      case Failed => if q.status.Holding? then a.(failed := a.failed + {q.pair}) else a
  {
  }

  lemma DisplacingStep(a: Admission, lowest: Option<Session>, queue: seq<Session>, k: nat, sessions: seq<Session>, active: set<nat>, env: Env, capacity: nat, ttl: nat)
    requires k < |queue| && DistinctPairs(queue) && Strict(queue, Priority()) && IsVictim(lowest, queue, a.active) && Undisturbed(sessions, env, ttl)
    requires queue[k] in sessions && Monitorable(queue[k]) && Displacing(a, queue, active, env, capacity, k)
    ensures Displacing(AdmitGivingUp(a, lowest, queue[k], env, capacity, ttl), queue, active, env, capacity, k + 1)
  {
    if a.rerun {
      AfterDisplacing(a, lowest, queue, k, sessions, active, env, capacity, ttl);
    } else if a.end.Going? {
      if AllHolding(queue, k) && queue[k].status.Holding? {
        HoldingDisplaces(a, lowest, queue, k, sessions, active, env, capacity, ttl);
      } else {
        ObservationNext(a, lowest, queue, k, sessions, active, env, capacity, ttl);
      }
    }
  }

  /** Once something was given up every slot stays taken. */
  lemma AfterDisplacing(a: Admission, lowest: Option<Session>, queue: seq<Session>, k: nat, sessions: seq<Session>, active: set<nat>, env: Env, capacity: nat, ttl: nat)
    requires k < |queue| && DistinctPairs(queue) && IsVictim(lowest, queue, a.active) && Undisturbed(sessions, env, ttl)
    requires queue[k] in sessions && Monitorable(queue[k]) && a.rerun && Displacing(a, queue, active, env, capacity, k)
    ensures Displacing(AdmitGivingUp(a, lowest, queue[k], env, capacity, ttl), queue, active, env, capacity, k + 1)
  {
    var q := queue[k];
    NotTriedBefore(queue, k);
    if a.end.Going? && q.pair !in a.active && env.canStart(q.pair) && q.status.Holding? && lowest.Some? {
      GivenUp(a, lowest.value, queue, q, sessions, env, ttl);
    }
  }

  /** What giving an observation up for an open position leaves. */
  lemma GivenUp(a: Admission, v: Session, queue: seq<Session>, q: Session, sessions: seq<Session>, env: Env, ttl: nat)
    requires DistinctPairs(queue) && Undisturbed(sessions, env, ttl) && q in queue && q in sessions && q.status.Holding? && a.end.Going?
    requires v in queue && Observed(v, a.active) && q.pair !in a.active && q.pair !in a.failed
    ensures var b := Attempt(a.(active := a.active - {v.pair}, rerun := true), q, env, ttl);
      && b.rerun && Observations(queue, b.active) < Observations(queue, a.active)
      && (b.end.Going? ==> Used(b) == Used(a) && b.failed <= a.failed + {q.pair})
  {
    var less := a.active - {v.pair};
    UndisturbedAttempt(a.(active := less, rerun := true), q, sessions, env, ttl);
    TakeOne(a.active, v.pair);
    AddOne(less, q.pair);
    AddOne(a.failed, q.pair);
    assert v.pair in Observations(queue, a.active);
    forall s | s in queue && Observed(s, less + {q.pair}) ensures Observed(s, a.active) && s.pair != v.pair {
    }
    assert v.pair !in Observations(queue, less + {q.pair}) && v.pair !in Observations(queue, less);
  }

  lemma IdleGrows(queue: seq<Session>, active: set<nat>, k: nat)
    requires k < |queue| && DistinctPairs(queue) && queue[k].status.Holding?
    ensures queue[k].pair in active ==> IdleBefore(queue, active, k + 1) == IdleBefore(queue, active, k)
    ensures queue[k].pair !in active ==> |IdleBefore(queue, active, k + 1)| == |IdleBefore(queue, active, k)| + 1
  {
    var q := queue[k];
    if q.pair in active {
      assert IdleBefore(queue, active, k + 1) == IdleBefore(queue, active, k);
    } else {
      assert IdleBefore(queue, active, k + 1) == IdleBefore(queue, active, k) + {q.pair};
      AddOne(IdleBefore(queue, active, k), q.pair);
    }
  }

  lemma SomeDisplacesStep(queue: seq<Session>, active: set<nat>, env: Env, capacity: nat, k: nat)
    requires k < |queue|
    ensures SomeDisplaces(queue, active, env, capacity, k + 1)
      <==> SomeDisplaces(queue, active, env, capacity, k) || Displaces(queue, active, env, capacity, k)
  {
  }

  /** An open position that is not taken stops all that come after it. */
  lemma NotTaken(queue: seq<Session>, active: set<nat>, env: Env, capacity: nat, k: nat)
    requires k < |queue| && queue[k].status.Holding? && queue[k].pair !in active
    requires !env.canStart(queue[k].pair) || env.start(queue[k].pair).Refused?
    requires !SomeDisplaces(queue, active, env, capacity, k) && !Displaces(queue, active, env, capacity, k)
    ensures !SomeDisplaces(queue, active, env, capacity, |queue|)
  {
    forall i | 0 <= i < |queue| ensures !Displaces(queue, active, env, capacity, i) {
      if i > k {
        assert !AllTaken(queue, active, env, i);
      }
    }
  }

  lemma HoldingDisplaces(a: Admission, lowest: Option<Session>, queue: seq<Session>, k: nat, sessions: seq<Session>, active: set<nat>, env: Env, capacity: nat, ttl: nat)
    requires k < |queue| && DistinctPairs(queue) && IsVictim(lowest, queue, a.active) && Undisturbed(sessions, env, ttl)
    requires queue[k] in sessions && queue[k].status.Holding? && AllHolding(queue, k)
    requires !a.rerun && a.end.Going? && Displacing(a, queue, active, env, capacity, k)
    ensures Displacing(AdmitGivingUp(a, lowest, queue[k], env, capacity, ttl), queue, active, env, capacity, k + 1)
  {
    var q := queue[k];
    NotTriedBefore(queue, k);
    IdleGrows(queue, active, k);
    SomeDisplacesStep(queue, active, env, capacity, k);
    if q.pair !in a.active {
      if !env.canStart(q.pair) {
        NotTaken(queue, active, env, capacity, k);
      } else if Used(a) < capacity {
        if env.start(q.pair).Refused? {
          NotTaken(queue, active, env, capacity, k);
        }
        FillsSlot(a, queue, k, sessions, active, env, ttl);
      } else if lowest.Some? {
        assert lowest.value.pair in Observations(queue, a.active);
        GivenUp(a, lowest.value, queue, q, sessions, env, ttl);
      } else {
        assert Observations(queue, a.active) == {};
      }
    }
  }

  /** An open position takes a free slot, unless its start is refused. */
  lemma FillsSlot(a: Admission, queue: seq<Session>, k: nat, sessions: seq<Session>, active: set<nat>, env: Env, ttl: nat)
    requires k < |queue| && DistinctPairs(queue) && Undisturbed(sessions, env, ttl) && queue[k] in sessions && queue[k].status.Holding?
    requires a.end.Going? && !a.rerun && AllHolding(queue, k) && Filling(a, queue, active, env, k)
    requires queue[k].pair !in a.active && env.canStart(queue[k].pair)
    ensures var b := Attempt(a, queue[k], env, ttl);
      && !b.rerun && active <= b.active
      && (if env.start(queue[k].pair).Refused? then !b.end.Going? else b.end.Going? && Filling(b, queue, active, env, k + 1))
  {
    var q := queue[k];
    UndisturbedAttempt(a, q, sessions, env, ttl);
    NotTriedBefore(queue, k);
    match env.start(q.pair)
    case Refused =>
    case Started => StartedFills(a, queue, k, active, env);
    case Failed => FailedFills(a, queue, k, active, env);
  }

  lemma StartedFills(a: Admission, queue: seq<Session>, k: nat, active: set<nat>, env: Env)
    requires k < |queue| && DistinctPairs(queue) && queue[k].status.Holding? && AllHolding(queue, k) && Filling(a, queue, active, env, k)
    requires queue[k].pair !in a.active && env.canStart(queue[k].pair) && !env.start(queue[k].pair).Refused?
    ensures Filling(a.(active := a.active + {queue[k].pair}), queue, active, env, k + 1)
  {
    var q := queue[k];
    NotTriedBefore(queue, k);
    IdleGrows(queue, active, k);
    AddOne(a.active, q.pair);
    HoldingIsNoObservation(queue, a.active, q);
    assert q.pair in Pairs(queue[..k + 1]);
  }

  lemma HoldingIsNoObservation(queue: seq<Session>, active: set<nat>, q: Session)
    requires DistinctPairs(queue) && q in queue && q.status.Holding?
    ensures Observations(queue, active + {q.pair}) == Observations(queue, active)
  {
    forall s | s in queue ensures Observed(s, active + {q.pair}) <==> Observed(s, active) {
    }
  }

  lemma FailedFills(a: Admission, queue: seq<Session>, k: nat, active: set<nat>, env: Env)
    requires k < |queue| && DistinctPairs(queue) && queue[k].status.Holding? && AllHolding(queue, k) && Filling(a, queue, active, env, k)
    requires queue[k].pair !in a.active && env.canStart(queue[k].pair) && !env.start(queue[k].pair).Refused?
    ensures Filling(a.(failed := a.failed + {queue[k].pair}), queue, active, env, k + 1)
  {
    var q := queue[k];
    NotTriedBefore(queue, k);
    IdleGrows(queue, active, k);
    AddOne(a.failed, q.pair);
  }

  /** Observations displace nothing. */
  lemma ObservationNext(a: Admission, lowest: Option<Session>, queue: seq<Session>, k: nat, sessions: seq<Session>, active: set<nat>, env: Env, capacity: nat, ttl: nat)
    requires k < |queue| && DistinctPairs(queue) && Strict(queue, Priority()) && Undisturbed(sessions, env, ttl)
    requires queue[k] in sessions && Monitorable(queue[k]) && !(AllHolding(queue, k) && queue[k].status.Holding?)
    requires !a.rerun && a.end.Going? && Displacing(a, queue, active, env, capacity, k)
    ensures Displacing(AdmitGivingUp(a, lowest, queue[k], env, capacity, ttl), queue, active, env, capacity, k + 1)
  {
    var q := queue[k];
    NotTriedBefore(queue, k);
    forall i | k <= i < |queue| ensures !queue[i].status.Holding? {
      if queue[i].status.Holding? {
        forall j | 0 <= j <= i ensures queue[j].status.Holding? {
          HoldingFirst(queue, j, i);
        }
      }
    }
    assert !SomeDisplaces(queue, active, env, capacity, |queue|);
    UndisturbedAttempt(a, q, sessions, env, ttl);
  }

  /** A list already in priority order in which everything is eligible is its own queue. */
  lemma QueueIsList(active: set<nat>, env: Env, ttl: nat, sessions: seq<Session>)
    requires Strict(sessions, Priority()) && DistinctPairs(sessions) && forall s :: s in sessions ==> IsEligible(s, active, env, ttl)
    ensures Sort(Filter(sessions, Eligible(active, env, ttl)), Priority()) == sessions
    ensures KeptPairs(sessions, active, env, ttl) == Pairs(sessions)
  {
    var f := Filter(sessions, Eligible(active, env, ttl));
    FilterDistinct(sessions, Eligible(active, env, ttl));
    SortDistinct(f);
    forall s ensures s in Sort(f, Priority()) <==> s in sessions {
      FilterMember(sessions, Eligible(active, env, ttl), s);
    }
    StrictUnique(Sort(f, Priority()), sessions, Priority());
  }

  lemma StepKeepsRerun(a: Admission, lowest: Option<Session>, q: Session, env: Env, capacity: nat, ttl: nat)
    requires a.rerun
    ensures AdmitGivingUp(a, lowest, q, env, capacity, ttl).rerun
  {
  }

  lemma {:induction false} RerunStays(a: Admission, choose: Choice, queue: seq<Session>, n: nat, m: nat, env: Env, capacity: nat, ttl: nat)
    requires n <= m <= |queue| && AdmitFirst(a, choose, queue, n, env, capacity, ttl).rerun
    ensures AdmitFirst(a, choose, queue, m, env, capacity, ttl).rerun
    decreases m
  {
    if n < m {
      var k := m - 1;
      RerunStays(a, choose, queue, n, k, env, capacity, ttl);
      var b := AdmitFirst(a, choose, queue, k, env, capacity, ttl);
      StepKeepsRerun(b, choose(b.active), queue[k], env, capacity, ttl);
      Next(a, choose, queue, k, env, capacity, ttl, b);
    }
  }

  predicate Willing(env: Env, q: Session, outcome: StartOutcome) {
    env.canStart(q.pair) && env.reload(q.pair) == Some(q) && !env.ignored(q.pair) && env.start(q.pair) == outcome
  }

  lemma RefusedAfterGivingUp(h: Session, w: Session, other: nat, env: Env, ttl: nat)
    requires h.status.Holding? && h.pair !in {w.pair, other} && w.pair != other && Willing(env, h, Refused)
    ensures AdmitGivingUp(Admission({other, w.pair}, {}, false, Going), Some(w), h, env, 2, ttl)
         == Admission({other}, {}, true, StartRefused)
  {
    assert {other, w.pair} - {w.pair} == {other};
  }

  lemma StartedInFreeSlot(h: Session, lowest: Option<Session>, other: nat, env: Env, ttl: nat)
    requires h.status.Holding? && h.pair != other && Willing(env, h, Started)
    ensures AdmitGivingUp(Admission({other}, {}, false, Going), lowest, h, env, 2, ttl) == Admission({other, h.pair}, {}, false, Going)
  {
    assert {other} + {h.pair} == {other, h.pair};
  }

  lemma StartedAfterGivingUp(h: Session, w: Session, other: nat, env: Env, ttl: nat)
    requires h.status.Holding? && h.pair !in {w.pair, other} && w.pair != other && Willing(env, h, Started)
    ensures AdmitGivingUp(Admission({w.pair, other}, {}, false, Going), Some(w), h, env, 2, ttl).rerun
  {
    assert {w.pair, other} - {w.pair} == {other};
  }

  /** Two passes are not enough once a start can be refused.  Two slots watch `w` and `x`; the
      start of the open position `g` is refused in the first pass, after `x` was given up for
      it; the second pass starts `g`, then gives up `w` for the open position `h`, and asks for a third. */
  lemma ThirdPass(g: Session, h: Session, w: Session, x: Session, env0: Env, env1: Env, ttl: nat)
    requires g.status.Holding? && h.status.Holding? && w.status.WaitingFirstBuy? && x.status.WaitingFirstBuy?
    requires g.created < h.created && w.created < x.created && DistinctPairs([g, h, w, x])
    requires forall s, e :: s in [g, h, w, x] && e in [env0, env1] ==> IsEligible(s, {w.pair, x.pair}, e, ttl) && IsEligible(s, {w.pair}, e, ttl)
    requires Willing(env0, g, Refused) && Willing(env1, g, Started) && Willing(env1, h, Started)
    ensures var first := NextState(State({w.pair, x.pair}, false), [g, h, w, x], env0, 2, ttl);
      first == State({w.pair}, true) && NextState(first, [g, h, w, x], env1, 2, ttl).rerun
  {
    var q := [g, h, w, x];
    FirstPassOf(g, h, w, x, env0, ttl);
    SecondPassOf(g, h, w, x, env1, ttl);
  }

  /** A pass over a list that is its own queue. */
  lemma PassOverList(st: State, q: seq<Session>, env: Env, capacity: nat, ttl: nat)
    requires Strict(q, Priority()) && DistinctPairs(q) && (forall s :: s in q ==> IsEligible(s, st.active, env, ttl)) && st.active <= Pairs(q)
    ensures var a := AdmitFirst(Admission(st.active, {}, false, Going), LowestOf(q), q, |q|, env, capacity, ttl);
      NextState(st, q, env, capacity, ttl) == State(a.active, a.rerun)
  {
    QueueIsList(st.active, env, ttl, q);
    assert st.active * Pairs(q) == st.active;
    assert !exists s :: s in q && Ignored(s, env) && s.pair in st.active;
  }

  lemma LowestIs(q: seq<Session>, active: set<nat>, v: Session)
    requires v in q && Observed(v, active)
    requires forall s :: s in q && Observed(s, active) ==> s == v || Before(Priority()(s), Priority()(v))
    ensures Lowest(q, active) == Some(v)
  {
    LowestFacts(q, active);
  }

  lemma FirstAdmission(g: Session, x: Session, w: nat, choose: Choice, q: seq<Session>, env: Env, ttl: nat)
    requires |q| > 0 && q[0] == g && g.status.Holding? && g.pair !in {x.pair, w} && x.pair != w
    requires Willing(env, g, Refused) && choose({w, x.pair}) == Some(x)
    ensures AdmitFirst(Admission({w, x.pair}, {}, false, Going), choose, q, |q|, env, 2, ttl) == Admission({w}, {}, true, StartRefused)
  {
    var a := Admission({w, x.pair}, {}, false, Going);
    Next(a, choose, q, 0, env, 2, ttl, a);
    RefusedAfterGivingUp(g, x, w, env, ttl);
    EndStays(a, choose, q, 1, |q|, env, 2, ttl);
  }

  lemma SecondAdmission(g: Session, h: Session, w: Session, choose: Choice, q: seq<Session>, env: Env, ttl: nat)
    requires |q| > 1 && q[0] == g && q[1] == h && g.status.Holding? && h.status.Holding?
    requires g.pair != w.pair && h.pair !in {w.pair, g.pair} && Willing(env, g, Started) && Willing(env, h, Started)
    requires choose({w.pair, g.pair}) == Some(w)
    ensures AdmitFirst(Admission({w.pair}, {}, false, Going), choose, q, |q|, env, 2, ttl).rerun
  {
    var a := Admission({w.pair}, {}, false, Going);
    var b := Admission({w.pair, g.pair}, {}, false, Going);
    Next(a, choose, q, 0, env, 2, ttl, a);
    StartedInFreeSlot(g, choose(a.active), w.pair, env, ttl);
    Next(a, choose, q, 1, env, 2, ttl, b);
    StartedAfterGivingUp(h, w, g.pair, env, ttl);
    RerunStays(a, choose, q, 2, |q|, env, 2, ttl);
  }

  lemma FirstPassOf(g: Session, h: Session, w: Session, x: Session, env: Env, ttl: nat)
    requires g.status.Holding? && h.status.Holding? && w.status.WaitingFirstBuy? && x.status.WaitingFirstBuy?
    requires g.created < h.created && w.created < x.created && DistinctPairs([g, h, w, x])
    requires forall s :: s in [g, h, w, x] ==> IsEligible(s, {w.pair, x.pair}, env, ttl)
    requires Willing(env, g, Refused)
    ensures NextState(State({w.pair, x.pair}, false), [g, h, w, x], env, 2, ttl) == State({w.pair}, true)
  {
    var q := [g, h, w, x];
    assert q[0] == g && q[2] == w && q[3] == x;
    PassOverList(State({w.pair, x.pair}, false), q, env, 2, ttl);
    LowestIs(q, {w.pair, x.pair}, x);
    FirstAdmission(g, x, w.pair, LowestOf(q), q, env, ttl);
  }

  lemma SecondPassOf(g: Session, h: Session, w: Session, x: Session, env: Env, ttl: nat)
    requires g.status.Holding? && h.status.Holding? && w.status.WaitingFirstBuy? && x.status.WaitingFirstBuy?
    requires g.created < h.created && w.created < x.created && DistinctPairs([g, h, w, x])
    requires forall s :: s in [g, h, w, x] ==> IsEligible(s, {w.pair}, env, ttl)
    requires Willing(env, g, Started) && Willing(env, h, Started)
    ensures NextState(State({w.pair}, true), [g, h, w, x], env, 2, ttl).rerun
  {
    var q := [g, h, w, x];
    assert q[0] == g && q[1] == h && q[2] == w && q[3] == x;
    PassOverList(State({w.pair}, true), q, env, 2, ttl);
    LowestIs(q, {w.pair, g.pair}, w);
    SecondAdmission(g, h, w, LowestOf(q), q, env, ttl);
  }
}
