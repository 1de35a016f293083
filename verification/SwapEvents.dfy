/** The event table under re-organisations: claiming, processing and orphaning
    events, and why what is canonical depends only on the chain and the
    checkpoints, never on the forks seen on the way. */
module SwapEvents {
  import opened Blocks
  import opened SwapBatch
  import opened BatchRefinement

  /** The identity of an event is its transaction hash and log index, so the same
      transaction mined again on another fork can carry the same identity. */
  type EventId = (nat, nat)

  datatype Status = Pending | Processing | Processed | Failed

  datatype Row = Row(log: RawLog, canonical: bool, status: Status)

  type Events = map<EventId, Row>

  /** How the handling of an event ends: it is turned away before it is claimed, because its session is missing or is
      not to be monitored; or else the work for a claimed one ends like this. */
  datatype Handling = TurnedAway | Succeeds | Fails | FailsUnmarked | Crashes

  /** What meets one event: is its row over a minute old, and how does the handling end? */
  datatype Circumstance = Circumstance(stale: bool, handling: Handling)

  function Revived(rows: Events, l: RawLog): (r: Events)
    ensures Identity(l) in r
  {
    if Identity(l) in rows && rows[Identity(l)].canonical then rows else rows[Identity(l) := Row(l, true, Pending)]
  }

  /** Can a claim take this row?  `stale` says its last update is over a minute old. */
  predicate Claimable(row: Row, stale: bool) {
    row.status.Pending? || row.status.Failed? || (row.status.Processing? && stale)
  }

  /** The table after an event has been handed to the engine. */
  function OnSwap(rows: Events, l: RawLog, c: Circumstance): (r: Events)
    ensures !c.handling.TurnedAway? ==> Identity(l) in r
  {
    var seen := Revived(rows, l);
    var row := seen[Identity(l)];
    if c.handling.TurnedAway? then rows
    else if !Claimable(row, c.stale) then seen
    else seen[Identity(l) := row.(status := match c.handling
                                            case Succeeds => Processed
                                            case Fails => Failed
                                            case FailsUnmarked => Processing
                                            case Crashes => Processing)]
  }

  /** Did the engine report the event as dealt with? */
  function Accepted(rows: Events, l: RawLog, c: Circumstance): bool {
    !c.handling.TurnedAway? && (!Claimable(Revived(rows, l)[Identity(l)], c.stale) || c.handling.Succeeds?)
  }

  function OrphanAbove(rows: Events, n: nat): Events {
    map id | id in rows :: if rows[id].canonical && rows[id].log.number > n
                           then rows[id].(canonical := false) else rows[id]
  }

  /** The table after the first `n` events of a stream. */
  function After(rows: Events, stream: seq<RawLog>, n: nat, met: nat -> Circumstance): Events
    requires n <= |stream|
  {
    if n == 0 then rows else OnSwap(After(rows, stream, n - 1, met), stream[n - 1], met(n - 1))
  }

  predicate AcceptedAt(rows: Events, stream: seq<RawLog>, i: nat, met: nat -> Circumstance)
    requires i < |stream|
  {
    Accepted(After(rows, stream, i, met), stream[i], met(i))
  }

  /** Each of the first `n` was accepted. */
  predicate AllAccepted(rows: Events, stream: seq<RawLog>, n: nat, met: nat -> Circumstance)
    requires n <= |stream|
  {
    forall i :: 0 <= i < n ==> AcceptedAt(rows, stream, i, met)
  }

  /** How many of the first `n` are handed out: up to and including the first that is not accepted. */
  function HandedOut(rows: Events, stream: seq<RawLog>, n: nat, met: nat -> Circumstance): (k: nat)
    requires n <= |stream|
    ensures k <= n
    ensures AllAccepted(rows, stream, n, met) ==> k == n
  {
    if n == 0 then 0
    else if AllAccepted(rows, stream, n - 1, met) then n
    else HandedOut(rows, stream, n - 1, met)
  }

  class SwapEventRepository {
    var rows: Events

    constructor ()
      ensures rows == map[]
    {
      rows := map[];
    }

    /** One transaction: insert or revive the row, then try to take it. */
    method Claim(l: RawLog, stale: bool) returns (claimed: bool)
      modifies this
      ensures claimed <==> Claimable(Revived(old(rows), l)[Identity(l)], stale)
      ensures rows == if claimed then Revived(old(rows), l)[Identity(l) := Revived(old(rows), l)[Identity(l)].(status := Processing)]
                      else Revived(old(rows), l)
    {
      var id := Identity(l);
      if id !in rows {
        rows := rows[id := Row(l, true, Pending)];
      } else if !rows[id].canonical {
        rows := rows[id := rows[id].(log := l, canonical := true, status := Pending)];
      }
      claimed := Claimable(rows[id], stale);
      if claimed {
        rows := rows[id := rows[id].(status := Processing)];
      }
    }

    method MarkProcessed(id: EventId)
      requires id in rows
      modifies this
      ensures rows == old(rows)[id := old(rows)[id].(status := Processed)]
    {
      rows := rows[id := rows[id].(status := Processed)];
    }

    method MarkFailed(id: EventId)
      requires id in rows
      modifies this
      ensures rows == old(rows)[id := old(rows)[id].(status := Failed)]
    {
      rows := rows[id := rows[id].(status := Failed)];
    }

    /** The engine's handling of one event around its session work. */
    method Handle(l: RawLog, c: Circumstance) returns (accepted: bool)
      modifies this
      ensures rows == OnSwap(old(rows), l, c)
      ensures accepted <==> Accepted(old(rows), l, c)
    {
      if c.handling.TurnedAway? {
        return false;
      }
      var claimed := Claim(l, c.stale);
      if !claimed {
        return true;
      }
      match c.handling {
        case Succeeds =>
          MarkProcessed(Identity(l));
          return true;
        case Fails =>
          MarkFailed(Identity(l));
          return false;
        case _ =>
          return false;
      }
    }

    method HandleNext(stream: seq<RawLog>, i: nat, met: nat -> Circumstance, ghost before: Events) returns (ok: bool)
      requires i < |stream| && rows == After(before, stream, i, met)
      modifies this
      ensures rows == After(before, stream, i + 1, met) && (ok <==> AcceptedAt(before, stream, i, met))
    {
      ok := Handle(stream[i], met(i));
    }

    /** A chunk's events one after the other, until one is not accepted. */
    method HandleAll(stream: seq<RawLog>, met: nat -> Circumstance) returns (ok: bool)
      modifies this
      ensures ok <==> AllAccepted(old(rows), stream, |stream|, met)
      ensures rows == After(old(rows), stream, HandedOut(old(rows), stream, |stream|, met), met)
    {
      ghost var before := rows;
      for i := 0 to |stream|
        invariant rows == After(before, stream, i, met) && AllAccepted(before, stream, i, met)
      {
        ok := HandleNext(stream, i, met, before);
        if !ok {
          StopsAt(before, stream, i, |stream|, met);
          return;
        }
      }
      ok := true;
    }

    method Orphan(n: nat)
      modifies this
      ensures rows == OrphanAbove(old(rows), n)
    {
      rows := map id | id in rows :: if rows[id].canonical && rows[id].log.number > n
                                     then rows[id].(canonical := false) else rows[id];
    }
  }

  lemma {:induction false} StopsAt(rows: Events, stream: seq<RawLog>, i: nat, n: nat, met: nat -> Circumstance)
    requires i < n <= |stream| && AllAccepted(rows, stream, i, met)
    requires !AcceptedAt(rows, stream, i, met)
    ensures HandedOut(rows, stream, n, met) == i + 1 && !AllAccepted(rows, stream, n, met)
    decreases n
  {
    assert !AllAccepted(rows, stream, n, met);
    if n > i + 1 {
      assert !AllAccepted(rows, stream, n - 1, met);
      StopsAt(rows, stream, i, n - 1, met);
    }
  }

  /** An accepted event ends up processed, with one exact exception: a canonical row
      still marked as being processed less than a minute ago is skipped as done. */
  lemma AcceptedIsProcessed(rows: Events, l: RawLog, c: Circumstance)
    requires Accepted(rows, l, c)
    ensures OnSwap(rows, l, c)[Identity(l)].status == Processed
      <==> !(Identity(l) in rows && rows[Identity(l)].canonical && rows[Identity(l)].status == Processing && !c.stale)
  {
  }

  // ------------------------------------------------------------ runs of steps

  /** The logs of a chain sit in their blocks, and each identity is used once: a transaction is mined once. */
  ghost predicate Proper(ledger: Ledger, tip: Block) {
    GoodLedger(ledger, tip) && UniqueIdentities(ledger, tip)
  }

  /** `base[p]` is the block before pair `p` is watched, `cps[p]` the last block committed for it. */
  datatype State = State(tip: Block, base: map<string, nat>, cps: map<string, nat>, rows: Events)

  /** What happens to the table and the checkpoints.  A pass extends the chain and hands out chunks; a
      chunk hands `stream` to the pairs concerned, at most `reach` events of it, and commits the pairs up to
      block `to` if all of it was handed out and accepted and the checkpoints could be written; a
      re-organisation rewinds everything at once and stops watching pairs; and pairs are admitted. */
  datatype Step =
    | Extend(top: Block)
    | Chunk(pairs: set<string>, to: nat, stream: seq<RawLog>, met: nat -> Circumstance, reach: nat, written: bool)
    | Rewind(ancestor: Block, stopped: set<string>)
    | Admit(pair: string, from: nat)

  ghost predicate Present(rows: Events, l: RawLog) {
    Identity(l) in rows && rows[Identity(l)].canonical && rows[Identity(l)].log == l
  }

  /** `l` is one of the pair's logs above block `lo` and up to block `hi`. */
  ghost predicate IsOwn(ledger: Ledger, tip: Block, l: RawLog, pair: string, lo: nat, hi: nat) {
    OnLedger(ledger, tip, l) && l.address == pair && lo < l.number <= hi
  }

  ghost predicate AllPresent(rows: Events, ledger: Ledger, tip: Block, pair: string, lo: nat, hi: nat) {
    forall l :: IsOwn(ledger, tip, l, pair, lo, hi) ==> Present(rows, l)
  }

  /** The pair's part of the stream is exactly its logs in the range. */
  ghost predicate Serves(stream: seq<RawLog>, ledger: Ledger, tip: Block, pair: string, lo: nat, hi: nat) {
    forall l :: l in stream && l.address == pair <==> IsOwn(ledger, tip, l, pair, lo, hi)
  }

  /** The pair's part of the stream begins somewhere above its base; below its checkpoint, unless the chunk does not go through. */
  ghost predicate ServesFrom(s: State, step: Step, ledger: Ledger, p: string, lo: nat)
    requires step.Chunk? && p in s.base && p in s.cps
  {
    s.base[p] <= lo <= step.to && (Commits(s.rows, step) ==> lo <= s.cps[p]) && Serves(step.stream, ledger, s.tip, p, lo, step.to)
  }

  ghost predicate ServesPair(s: State, step: Step, ledger: Ledger, p: string)
    requires step.Chunk?
  {
    p in s.base && p in s.cps && exists lo :: ServesFrom(s, step, ledger, p, lo)
  }

  /** A pair that is admitted has no canonical event yet at or below the block it is watched from; and every pair
      that was first watched above the ancestor of a re-organisation is stopped by it. */
  ghost predicate Enabled(s: State, step: Step, ledger: Ledger) {
    match step
    case Extend(top) => OnChain(top, s.tip) && Proper(ledger, top)
    case Chunk(pairs, to, stream, _, reach, _) =>
      && to <= Number(s.tip) && reach <= |stream| && (forall l :: l in stream ==> l.address in pairs)
      && forall p :: p in pairs ==> ServesPair(s, step, ledger, p)
    case Rewind(a, stopped) =>
      OnChain(s.tip, a) && forall p :: p in s.base && s.base[p] > Number(a) ==> p in stopped
    case Admit(p, from) =>
      && p !in s.base && p !in s.cps && from <= Number(s.tip)
      && forall id :: id in s.rows && s.rows[id].canonical && s.rows[id].log.address == p ==> from < s.rows[id].log.number
  }

  /** Did the chunk go through? */
  predicate Commits(rows: Events, step: Step)
    requires step.Chunk?
  {
    step.written && step.reach == |step.stream| && AllAccepted(rows, step.stream, |step.stream|, step.met)
  }

  function MovedTo(cps: map<string, nat>, pairs: set<string>, to: nat): map<string, nat> {
    map p | p in cps :: if p in pairs then to else cps[p]
  }

  function Lowered(cps: map<string, nat>, n: nat): map<string, nat> {
    map p | p in cps :: if cps[p] > n then n else cps[p]
  }

  function Without(m: map<string, nat>, stopped: set<string>): map<string, nat> {
    map p | p in m && p !in stopped :: m[p]
  }

  function Apply(s: State, step: Step): State {
    match step
    case Extend(top) => s.(tip := top)
    case Chunk(pairs, to, stream, met, reach, _) =>
      s.(rows := if reach <= |stream| then After(s.rows, stream, HandedOut(s.rows, stream, reach, met), met) else s.rows,
         cps := if Commits(s.rows, step) then MovedTo(s.cps, pairs, to) else s.cps)
    case Rewind(a, stopped) =>
      State(a, Without(s.base, stopped), Lowered(Without(s.cps, stopped), Number(a)), OrphanAbove(s.rows, Number(a)))
    case Admit(p, from) => s.(base := s.base[p := from], cps := s.cps[p := from])
  }

  ghost predicate Genuine(row: Row, id: EventId, tip: Block, base: map<string, nat>, ledger: Ledger) {
    && Identity(row.log) == id && OnLedger(ledger, tip, row.log)
    && (row.log.address in base ==> base[row.log.address] < row.log.number)
  }

  ghost predicate AllGenuine(rows: Events, tip: Block, base: map<string, nat>, ledger: Ledger) {
    forall id :: id in rows && rows[id].canonical ==> Genuine(rows[id], id, tip, base, ledger)
  }

  ghost predicate UpTo(s: State, ledger: Ledger, p: string) {
    p in s.base && p in s.cps && s.base[p] <= s.cps[p] <= Number(s.tip) && AllPresent(s.rows, ledger, s.tip, p, s.base[p], s.cps[p])
  }

  /** Canonical rows are events of the tip's own ancestry, and none is missing up to a checkpoint. */
  ghost predicate Inv(s: State, ledger: Ledger) {
    && Proper(ledger, s.tip) && s.cps.Keys == s.base.Keys
    && (forall p :: p in s.base ==> UpTo(s, ledger, p))
    && AllGenuine(s.rows, s.tip, s.base, ledger)
  }

  // ------------------------------------------------------------ extending

  /** Below the old tip an extended chain has the same logs. */
  lemma SameLogs(ledger: Ledger, tip: Block, top: Block, l: RawLog)
    requires OnChain(top, tip) && l.number <= Number(tip)
    ensures OnLedger(ledger, top, l) <==> OnLedger(ledger, tip, l)
  {
    AtAt(top, Number(tip), l.number);
  }

  lemma ExtendKeeps(s: State, top: Block, ledger: Ledger)
    requires Inv(s, ledger) && Enabled(s, Extend(top), ledger)
    ensures Inv(Apply(s, Extend(top)), ledger)
  {
    var t := Apply(s, Extend(top));
    forall p | p in s.base ensures UpTo(t, ledger, p) {
      assert UpTo(s, ledger, p);
      forall l | IsOwn(ledger, top, l, p, s.base[p], t.cps[p]) ensures Present(t.rows, l) {
        SameLogs(ledger, s.tip, top, l);
        assert IsOwn(ledger, s.tip, l, p, s.base[p], s.cps[p]);
      }
    }
    forall id | id in t.rows && t.rows[id].canonical ensures Genuine(t.rows[id], id, top, s.base, ledger) {
      assert Genuine(s.rows[id], id, s.tip, s.base, ledger);
      SameLogs(ledger, s.tip, top, s.rows[id].log);
    }
  }

  lemma AdmitKeeps(s: State, p: string, from: nat, ledger: Ledger)
    requires Inv(s, ledger) && Enabled(s, Admit(p, from), ledger)
    ensures Inv(Apply(s, Admit(p, from)), ledger)
  {
    var t := Apply(s, Admit(p, from));
    forall q | q in t.base ensures UpTo(t, ledger, q) {
      if q != p {
        assert UpTo(s, ledger, q);
      }
    }
    forall id | id in t.rows && t.rows[id].canonical ensures Genuine(t.rows[id], id, t.tip, t.base, ledger) {
      assert Genuine(s.rows[id], id, s.tip, s.base, ledger);
    }
  }

  // ------------------------------------------------------------ one chunk

  /** An event that may be handed out: on the chain, of a watched pair, after the pair was first watched. */
  ghost predicate Deliverable(l: RawLog, tip: Block, base: map<string, nat>, ledger: Ledger) {
    OnLedger(ledger, tip, l) && l.address in base && base[l.address] < l.number
  }

  /** Handing an event out leaves its row present, unless it is turned away, and disturbs no other. */
  lemma OnSwapKeeps(rows: Events, l: RawLog, c: Circumstance, tip: Block, base: map<string, nat>, ledger: Ledger)
    requires Proper(ledger, tip) && AllGenuine(rows, tip, base, ledger) && Deliverable(l, tip, base, ledger)
    ensures AllGenuine(OnSwap(rows, l, c), tip, base, ledger) && (!c.handling.TurnedAway? ==> Present(OnSwap(rows, l, c), l))
    ensures forall k :: Present(rows, k) ==> Present(OnSwap(rows, l, c), k)
  {
    var id := Identity(l);
    if id in rows && rows[id].canonical {
      assert Genuine(rows[id], id, tip, base, ledger);
      assert rows[id].log == l;
    }
    assert forall x :: x in rows && x != id ==> OnSwap(rows, l, c)[x] == rows[x];
  }

  lemma {:induction false} AfterKeeps(rows: Events, stream: seq<RawLog>, n: nat, met: nat -> Circumstance,
                                      tip: Block, base: map<string, nat>, ledger: Ledger)
    requires n <= |stream| && Proper(ledger, tip) && AllGenuine(rows, tip, base, ledger)
    requires forall l :: l in stream ==> Deliverable(l, tip, base, ledger)
    ensures AllGenuine(After(rows, stream, n, met), tip, base, ledger)
    ensures forall i :: 0 <= i < n && !met(i).handling.TurnedAway? ==> Present(After(rows, stream, n, met), stream[i])
    ensures forall k :: Present(rows, k) ==> Present(After(rows, stream, n, met), k)
  {
    if n > 0 {
      AfterKeeps(rows, stream, n - 1, met, tip, base, ledger);
      OnSwapKeeps(After(rows, stream, n - 1, met), stream[n - 1], met(n - 1), tip, base, ledger);
    }
  }

  lemma StreamDeliverable(s: State, step: Step, ledger: Ledger)
    requires Inv(s, ledger) && step.Chunk? && Enabled(s, step, ledger)
    ensures forall l :: l in step.stream ==> Deliverable(l, s.tip, s.base, ledger)
  {
    forall l | l in step.stream ensures Deliverable(l, s.tip, s.base, ledger) {
      var p := l.address;
      assert ServesPair(s, step, ledger, p);
      var lo :| ServesFrom(s, step, ledger, p, lo);
      assert IsOwn(ledger, s.tip, l, p, lo, step.to);
    }
  }

  /** However far a chunk gets, and wherever at or below the checkpoints it began, no event is missing up to the
      checkpoint it leaves. */
  lemma ChunkKeeps(s: State, step: Step, ledger: Ledger)
    requires Inv(s, ledger) && step.Chunk? && Enabled(s, step, ledger)
    ensures Inv(Apply(s, step), ledger)
  {
    var t := Apply(s, step);
    StreamDeliverable(s, step, ledger);
    AfterKeeps(s.rows, step.stream, HandedOut(s.rows, step.stream, step.reach, step.met), step.met, s.tip, s.base, ledger);
    forall p | p in s.base ensures UpTo(t, ledger, p) {
      ChunkPresent(s, step, ledger, p);
    }
  }

  lemma ChunkPresent(s: State, step: Step, ledger: Ledger, p: string)
    requires UpTo(s, ledger, p) && step.Chunk? && Enabled(s, step, ledger)
    requires forall k :: Present(s.rows, k) ==> Present(Apply(s, step).rows, k)
    requires Commits(s.rows, step) ==> forall i :: 0 <= i < |step.stream| && !step.met(i).handling.TurnedAway? ==> Present(Apply(s, step).rows, step.stream[i])
    ensures UpTo(Apply(s, step), ledger, p)
  {
    var t := Apply(s, step);
    if Commits(s.rows, step) && p in step.pairs {
      assert ServesPair(s, step, ledger, p);
      var lo :| ServesFrom(s, step, ledger, p, lo);
      forall l | IsOwn(ledger, s.tip, l, p, s.base[p], step.to) ensures Present(t.rows, l) {
        if l.number <= s.cps[p] {
          assert IsOwn(ledger, s.tip, l, p, s.base[p], s.cps[p]);
        } else {
          assert IsOwn(ledger, s.tip, l, p, lo, step.to);
          var i :| 0 <= i < |step.stream| && step.stream[i] == l;
          assert AcceptedAt(s.rows, step.stream, i, step.met);
        }
      }
    }
  }

  // ------------------------------------------------------------ rewinding

  lemma RewindPresent(s: State, a: Block, stopped: set<string>, ledger: Ledger, p: string)
    requires Inv(s, ledger) && OnChain(s.tip, a) && p in s.base && s.base[p] <= Number(a) && p !in stopped
    ensures UpTo(Apply(s, Rewind(a, stopped)), ledger, p)
  {
    var t := Apply(s, Rewind(a, stopped));
    assert UpTo(s, ledger, p);
    forall l | IsOwn(ledger, a, l, p, s.base[p], t.cps[p]) ensures Present(t.rows, l) {
      SameLogs(ledger, a, s.tip, l);
      assert IsOwn(ledger, s.tip, l, p, s.base[p], s.cps[p]);
    }
  }

  lemma ProperBelow(ledger: Ledger, tip: Block, a: Block)
    requires Proper(ledger, tip) && OnChain(tip, a)
    ensures Proper(ledger, a)
  {
    forall n | 0 <= n <= Number(a) ensures GoodBlock(ledger, At(a, n)) {
      AtAt(tip, Number(a), n);
    }
    forall k, l | OnLedger(ledger, a, k) && OnLedger(ledger, a, l) && Identity(k) == Identity(l) ensures k == l {
      SameLogs(ledger, a, tip, k);
      SameLogs(ledger, a, tip, l);
    }
  }

  lemma RewindKeeps(s: State, a: Block, stopped: set<string>, ledger: Ledger)
    requires Inv(s, ledger) && Enabled(s, Rewind(a, stopped), ledger)
    ensures Inv(Apply(s, Rewind(a, stopped)), ledger)
  {
    var t := Apply(s, Rewind(a, stopped));
    ProperBelow(ledger, s.tip, a);
    forall p | p in t.base ensures UpTo(t, ledger, p) {
      RewindPresent(s, a, stopped, ledger, p);
    }
    forall id | id in t.rows && t.rows[id].canonical ensures Genuine(t.rows[id], id, a, t.base, ledger) {
      assert Genuine(s.rows[id], id, s.tip, s.base, ledger);
      SameLogs(ledger, a, s.tip, s.rows[id].log);
    }
  }

  lemma StepKeeps(s: State, step: Step, ledger: Ledger)
    requires Inv(s, ledger) && Enabled(s, step, ledger)
    ensures Inv(Apply(s, step), ledger)
  {
    match step
    case Extend(top) => ExtendKeeps(s, top, ledger);
    case Chunk(_, _, _, _, _, _) => ChunkKeeps(s, step, ledger);
    case Rewind(a, stopped) => RewindKeeps(s, a, stopped, ledger);
    case Admit(p, from) => AdmitKeeps(s, p, from, ledger);
  }

  // ------------------------------------------------------------ whole runs

  /** The state before the `n`-th step. */
  function StateAt(s: State, run: seq<Step>, n: nat): State
    requires n <= |run|
  {
    if n == 0 then s else Apply(StateAt(s, run, n - 1), run[n - 1])
  }

  ghost predicate EnabledAt(s: State, run: seq<Step>, n: nat, ledger: Ledger)
    requires n < |run|
  {
    Enabled(StateAt(s, run, n), run[n], ledger)
  }

  ghost predicate Runs(s: State, run: seq<Step>, ledger: Ledger) {
    forall n :: 0 <= n < |run| ==> EnabledAt(s, run, n, ledger)
  }

  function Final(s: State, run: seq<Step>): State {
    StateAt(s, run, |run|)
  }

  predicate LeadsOn(states: seq<State>, run: seq<Step>, k: nat)
    requires k < |run| && |states| == |run| + 1
  {
    states[k + 1] == Apply(states[k], run[k])
  }

  /** States that lead on from one another are those of the run. */
  lemma {:induction false} TraceIsRun(states: seq<State>, run: seq<Step>, n: nat)
    requires |states| == |run| + 1 && n <= |run| && forall k :: 0 <= k < |run| ==> LeadsOn(states, run, k)
    ensures StateAt(states[0], run, n) == states[n]
  {
    if n > 0 {
      TraceIsRun(states, run, n - 1);
      assert LeadsOn(states, run, n - 1);
    }
  }

  ghost predicate EnabledIn(states: seq<State>, run: seq<Step>, k: nat, ledger: Ledger)
    requires k < |run| && |states| == |run| + 1
  {
    Enabled(states[k], run[k], ledger)
  }

  lemma TraceRuns(states: seq<State>, run: seq<Step>, ledger: Ledger)
    requires |states| == |run| + 1 && forall k :: 0 <= k < |run| ==> LeadsOn(states, run, k) && EnabledIn(states, run, k, ledger)
    ensures Runs(states[0], run, ledger) && Final(states[0], run) == states[|run|]
  {
    forall n | 0 <= n < |run| ensures EnabledAt(states[0], run, n, ledger) {
      TraceIsRun(states, run, n);
      assert EnabledIn(states, run, n, ledger);
    }
    TraceIsRun(states, run, |run|);
  }

  lemma {:induction false} StateInPieces(s: State, a: seq<Step>, b: seq<Step>, n: nat)
    requires n <= |a| + |b|
    ensures StateAt(s, a + b, n) == if n <= |a| then StateAt(s, a, n) else StateAt(Final(s, a), b, n - |a|)
  {
    if n > 0 {
      StateInPieces(s, a, b, n - 1);
    }
  }

  /** Pieces of a run that lead on from one another make a run. */
  lemma PiecesMakeRun(s: State, a: seq<Step>, b: seq<Step>, ledger: Ledger)
    requires Runs(s, a, ledger) && Runs(Final(s, a), b, ledger)
    ensures Runs(s, a + b, ledger) && Final(s, a + b) == Final(Final(s, a), b)
  {
    forall n | 0 <= n < |a + b| ensures EnabledAt(s, a + b, n, ledger) {
      StateInPieces(s, a, b, n);
      if n < |a| {
        assert EnabledAt(s, a, n, ledger);
      } else {
        assert EnabledAt(Final(s, a), b, n - |a|, ledger);
      }
    }
    StateInPieces(s, a, b, |a + b|);
  }

  lemma {:induction false} RunKeeps(s: State, run: seq<Step>, n: nat, ledger: Ledger)
    requires Inv(s, ledger) && Runs(s, run, ledger) && n <= |run|
    ensures Inv(StateAt(s, run, n), ledger)
  {
    if n > 0 {
      RunKeeps(s, run, n - 1, ledger);
      assert EnabledAt(s, run, n - 1, ledger);
      StepKeeps(StateAt(s, run, n - 1), run[n - 1], ledger);
    }
  }

  /** The step leaves a pair that stands at block `n` there, and the chain too. */
  ghost predicate Spares(s: State, run: seq<Step>, pair: string, n: nat, i: nat)
    requires i < |run|
  {
    || run[i].Admit?
    || (run[i].Chunk? && (pair in run[i].pairs && Commits(StateAt(s, run, i).rows, run[i]) ==> run[i].to == n))
  }

  /** The pair's last pass went through up to the tip: its chunk committed the tip, and what came after were admissions
      and chunks that did not set the pair back. */
  ghost predicate CaughtUpAt(s: State, run: seq<Step>, pair: string, k: nat)
    requires k < |run|
  {
    var t := StateAt(s, run, k);
    && run[k].Chunk? && pair in run[k].pairs && run[k].to == Number(t.tip) && Commits(t.rows, run[k])
    && forall i :: k < i < |run| ==> Spares(s, run, pair, Number(t.tip), i)
  }

  ghost predicate CaughtUp(s: State, run: seq<Step>, pair: string) {
    exists k :: 0 <= k < |run| && CaughtUpAt(s, run, pair, k)
  }

  predicate AtTip(t: State, tip: Block, pair: string) {
    t.tip == tip && pair in t.base && pair in t.cps && t.cps[pair] == Number(tip)
  }

  lemma CommitReachesTip(t: State, step: Step, pair: string, ledger: Ledger)
    requires step.Chunk? && Enabled(t, step, ledger) && pair in step.pairs && step.to == Number(t.tip) && Commits(t.rows, step)
    ensures AtTip(Apply(t, step), t.tip, pair)
  {
    assert ServesPair(t, step, ledger, pair);
  }

  lemma StaysAtTip(t: State, step: Step, tip: Block, pair: string, ledger: Ledger)
    requires Enabled(t, step, ledger) && AtTip(t, tip, pair)
    requires step.Admit? || (step.Chunk? && (pair in step.pairs && Commits(t.rows, step) ==> step.to == Number(tip)))
    ensures AtTip(Apply(t, step), tip, pair)
  {
  }

  lemma {:induction false} StaysCaughtUp(s: State, run: seq<Step>, tip: Block, pair: string, k: nat, n: nat, ledger: Ledger)
    requires Runs(s, run, ledger) && k <= n <= |run| && AtTip(StateAt(s, run, k), tip, pair)
    requires forall i :: k <= i < |run| ==> Spares(s, run, pair, Number(tip), i)
    ensures AtTip(StateAt(s, run, n), tip, pair)
    decreases n
  {
    if n > k {
      StaysCaughtUp(s, run, tip, pair, k, n - 1, ledger);
      assert EnabledAt(s, run, n - 1, ledger) && Spares(s, run, pair, Number(tip), n - 1);
      StaysAtTip(StateAt(s, run, n - 1), run[n - 1], tip, pair, ledger);
    }
  }

  /** A pair that has caught up has the tip as its checkpoint. */
  lemma CaughtUpIsAtTip(s: State, run: seq<Step>, pair: string, ledger: Ledger)
    requires Runs(s, run, ledger) && CaughtUp(s, run, pair)
    ensures AtTip(Final(s, run), Final(s, run).tip, pair)
  {
    var k :| 0 <= k < |run| && CaughtUpAt(s, run, pair, k);
    assert EnabledAt(s, run, k, ledger);
    var t := StateAt(s, run, k);
    CommitReachesTip(t, run[k], pair, ledger);
    StaysCaughtUp(s, run, t.tip, pair, k + 1, |run|, ledger);
  }

  /** The canonical events of a pair up to a block. */
  function View(rows: Events, pair: string, c: nat): map<EventId, RawLog> {
    map id | id in rows && rows[id].canonical && rows[id].log.address == pair && rows[id].log.number <= c :: rows[id].log
  }

  /** That canonical set is exactly the pair's logs on the final chain up to its checkpoint. */
  lemma ViewIsChain(s: State, run: seq<Step>, ledger: Ledger, pair: string, l: RawLog)
    requires Inv(s, ledger) && Runs(s, run, ledger) && pair in Final(s, run).base
    ensures pair in Final(s, run).cps
    ensures var t := Final(s, run);
      (Identity(l) in View(t.rows, pair, t.cps[pair]) && View(t.rows, pair, t.cps[pair])[Identity(l)] == l)
      <==> IsOwn(ledger, t.tip, l, pair, t.base[pair], t.cps[pair])
  {
    RunKeeps(s, run, |run|, ledger);
    ViewMember(Final(s, run), ledger, pair, l);
  }

  lemma ViewMember(t: State, ledger: Ledger, pair: string, l: RawLog)
    requires Inv(t, ledger) && pair in t.base
    ensures (Identity(l) in View(t.rows, pair, t.cps[pair]) && View(t.rows, pair, t.cps[pair])[Identity(l)] == l)
      <==> IsOwn(ledger, t.tip, l, pair, t.base[pair], t.cps[pair])
  {
    assert UpTo(t, ledger, pair);
    if Identity(l) in t.rows && t.rows[Identity(l)].canonical {
      assert Genuine(t.rows[Identity(l)], Identity(l), t.tip, t.base, ledger);
    }
  }

  /** States that agree on the chain and on where a pair is watched and stands agree on every canonical event up to there. */
  lemma SameView(t1: State, t2: State, ledger: Ledger, pair: string)
    requires Inv(t1, ledger) && Inv(t2, ledger) && pair in t1.base && pair in t2.base
    requires t1.tip == t2.tip && t1.base[pair] == t2.base[pair] && t1.cps[pair] == t2.cps[pair]
    ensures View(t1.rows, pair, t1.cps[pair]) == View(t2.rows, pair, t2.cps[pair])
  {
    var v1, v2 := View(t1.rows, pair, t1.cps[pair]), View(t2.rows, pair, t2.cps[pair]);
    forall id | id in v1 ensures id in v2 && v2[id] == v1[id] {
      assert Genuine(t1.rows[id], id, t1.tip, t1.base, ledger);
      ViewMember(t1, ledger, pair, v1[id]);
      ViewMember(t2, ledger, pair, v1[id]);
    }
    forall id | id in v2 ensures id in v1 {
      assert Genuine(t2.rows[id], id, t2.tip, t2.base, ledger);
      ViewMember(t2, ledger, pair, v2[id]);
      ViewMember(t1, ledger, pair, v2[id]);
    }
  }

  /** Re-organisation transparency.  Two runs, one of which may have ingested, rewound and
      replayed any number of forks while the other only ever saw the final one, end with the
      same checkpoint and the same canonical events of a pair as soon as they end on the same
      chain, watch the pair from the same block, and the pair has caught up. */
  lemma ReorgTransparency(s1: State, run1: seq<Step>, s2: State, run2: seq<Step>, ledger: Ledger, pair: string)
    requires Inv(s1, ledger) && Runs(s1, run1, ledger) && CaughtUp(s1, run1, pair)
    requires Inv(s2, ledger) && Runs(s2, run2, ledger) && CaughtUp(s2, run2, pair)
    requires Final(s1, run1).tip == Final(s2, run2).tip
    requires pair in Final(s1, run1).base && pair in Final(s2, run2).base ==> Final(s1, run1).base[pair] == Final(s2, run2).base[pair]
    ensures pair in Final(s1, run1).cps && pair in Final(s2, run2).cps
    ensures Final(s1, run1).cps[pair] == Final(s2, run2).cps[pair] == Number(Final(s1, run1).tip)
    ensures View(Final(s1, run1).rows, pair, Final(s1, run1).cps[pair])
         == View(Final(s2, run2).rows, pair, Final(s2, run2).cps[pair])
  {
    CaughtUpIsAtTip(s1, run1, pair, ledger);
    CaughtUpIsAtTip(s2, run2, pair, ledger);
    RunKeeps(s1, run1, |run1|, ledger);
    RunKeeps(s2, run2, |run2|, ledger);
    SameView(Final(s1, run1), Final(s2, run2), ledger, pair);
  }

  // ------------------------------------------------------------ an event that is committed unprocessed

  /** A chain whose only log is `l`, in its block `top`. */
  function OneLog(top: Block, l: RawLog): Ledger {
    (b: Block) => if b == top then [l] else []
  }

  /** One chunk with that log, its handling cut off; and the same chunk again within a minute. */
  function CutOffAndRepeated(l: RawLog): seq<Step> {
    [Chunk({l.address}, l.number, [l], (i: nat) => Circumstance(false, Crashes), 1, true),
     Chunk({l.address}, l.number, [l], (i: nat) => Circumstance(false, Succeeds), 1, true)]
  }

  /** A run in which a checkpoint moves past an event that was never processed: its first handling was cut off, and the
      second one came while the row still counted as being processed. */
  lemma PassedUnprocessed(top: Block, l: RawLog)
    requires Number(top) == l.number == 1 && l.hash == top
    ensures var s, ledger, run := State(top, map[l.address := 0], map[l.address := 0], map[]), OneLog(top, l), CutOffAndRepeated(l);
      && Inv(s, ledger) && Runs(s, run, ledger)
      && Final(s, run) == State(top, map[l.address := 0], map[l.address := 1], map[Identity(l) := Row(l, true, Processing)])
  {
    var s, ledger, run := State(top, map[l.address := 0], map[l.address := 0], map[]), OneLog(top, l), CutOffAndRepeated(l);
    OnlyLog(top, top, l);
    assert UpTo(s, ledger, l.address);
    var t, u := s.(rows := map[Identity(l) := Row(l, true, Processing)]), State(top, map[l.address := 0], map[l.address := 1], map[Identity(l) := Row(l, true, Processing)]);
    CutOff(s, l);
    Repeated(t, l);
    var states := [s, t, u];
    assert LeadsOn(states, run, 0) && LeadsOn(states, run, 1);
    TraceIsRun(states, run, 1);
    TraceIsRun(states, run, 2);
    ServesOne(s, ledger, l, run[0].met);
    ServesOne(t, ledger, l, run[1].met);
    assert StateAt(s, run, 0) == s;
    assert EnabledAt(s, run, 0, ledger) && EnabledAt(s, run, 1, ledger);
  }

  lemma OnlyLog(top: Block, b: Block, l: RawLog)
    requires OnChain(top, b) && l.number == Number(b) && l.hash == b
    ensures Proper(OneLog(b, l), top) && forall k :: OnLedger(OneLog(b, l), top, k) <==> k == l
  {
    forall n | 0 <= n <= Number(top) ensures GoodBlock(OneLog(b, l), At(top, n)) {
    }
  }

  lemma ServesOne(s: State, ledger: Ledger, l: RawLog, met: nat -> Circumstance)
    requires l.address in s.base && l.address in s.cps && s.base[l.address] <= s.cps[l.address] < l.number <= Number(s.tip)
    requires forall k :: OnLedger(ledger, s.tip, k) <==> k == l
    ensures Enabled(s, Chunk({l.address}, l.number, [l], met, 1, true), ledger)
  {
    assert ServesFrom(s, Chunk({l.address}, l.number, [l], met, 1, true), ledger, l.address, s.cps[l.address]);
  }

  lemma CutOff(s: State, l: RawLog)
    requires s.rows == map[]
    ensures Apply(s, CutOffAndRepeated(l)[0]) == s.(rows := map[Identity(l) := Row(l, true, Processing)])
  {
    var step := CutOffAndRepeated(l)[0];
    assert After(s.rows, step.stream, 0, step.met) == s.rows;
    assert !AcceptedAt(s.rows, step.stream, 0, step.met);
  }

  lemma Repeated(t: State, l: RawLog)
    requires t.rows == map[Identity(l) := Row(l, true, Processing)] && t.cps == map[l.address := 0]
    ensures Apply(t, CutOffAndRepeated(l)[1]) == t.(cps := map[l.address := l.number])
  {
    var step := CutOffAndRepeated(l)[1];
    assert After(t.rows, step.stream, 0, step.met) == t.rows;
    assert AcceptedAt(t.rows, step.stream, 0, step.met);
  }
}
