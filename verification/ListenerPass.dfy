/** The pass of a pair that scans for itself: what it reads, how it handles a chunk, and why
    the whole pass is a piece of a run of the event table, as a batched one is. */
module ListenerPass {
  import opened Blocks
  import opened ChainStore
  import opened CanonicalPass
  import opened ChunkLoop
  import opened CursorOrder
  import opened SwapBatch
  import opened BatchRefinement
  import opened ListenerTiling
  import B = BatchedPass
  import E = SwapEvents

  // ------------------------------------------------------------ one chunk

  /** The checks on one element of an answer. */
  predicate Fits(raw: Raw, from: nat, to: nat, expected: map<nat, Block>) {
    raw.Wellformed? && from <= raw.log.number <= to && raw.log.number in expected && expected[raw.log.number] == raw.log.hash
  }

  predicate AllFit(raws: seq<Raw>, chunk: Chunk) {
    forall i :: 0 <= i < |raws| ==> Fits(raws[i], chunk.from, chunk.to, Expected(chunk.headers))
  }

  predicate WellRead(raws: seq<Raw>) {
    forall i :: 0 <= i < |raws| ==> raws[i].Wellformed?
  }

  function LogsOf(raws: seq<Raw>): (r: seq<RawLog>)
    requires WellRead(raws)
    ensures |r| == |raws| && forall i :: 0 <= i < |r| ==> r[i] == raws[i].log
  {
    seq(|raws|, i requires 0 <= i < |raws| => raws[i].log)
  }

  /** What a chunk of the pair hands out: all that was read, in cursor order. */
  function Stream(raws: seq<Raw>): seq<RawLog> {
    if WellRead(raws) then Sort(LogsOf(raws), Key()) else []
  }

  /** One attempt at a chunk: what was read, what the table met, how far it got, and whether its checkpoint was written. */
  datatype Attempt = Attempt(chunk: Chunk, read: Reader, raws: seq<Raw>, met: nat -> E.Circumstance, reach: nat, written: bool)

  function StepOf(at: Attempt, pair: string): E.Step {
    E.Chunk({pair}, at.chunk.to, Stream(at.raws), at.met, at.reach, at.written)
  }

  /** Check what was read, one element after the other. */
  method Identify(raws: seq<Raw>, chunk: Chunk) returns (logs: Option<seq<RawLog>>)
    ensures logs.Some? <==> AllFit(raws, chunk)
    ensures logs.Some? ==> logs.value == LogsOf(raws)
  {
    var expected := Expected(chunk.headers);
    var identified := [];
    for i := 0 to |raws|
      invariant |identified| == i
      invariant forall k :: 0 <= k < i ==> Fits(raws[k], chunk.from, chunk.to, expected) && identified[k] == raws[k].log
    {
      if !Fits(raws[i], chunk.from, chunk.to, expected) {
        return None;
      }
      identified := identified + [raws[i].log];
    }
    assert identified == LogsOf(raws);
    logs := Some(identified);
  }

  /** Hand the logs to the engine until one is not accepted, or the session is no longer to be monitored after it. */
  method HandOut(repo: E.SwapEventRepository, stream: seq<RawLog>, met: nat -> E.Circumstance, monitorable: nat -> bool)
    returns (acked: bool, reach: nat)
    modifies repo
    ensures acked <==> E.AllAccepted(old(repo.rows), stream, |stream|, met) && forall i :: 0 <= i < |stream| ==> monitorable(i)
    ensures reach <= |stream| && (acked ==> reach == |stream|)
    ensures repo.rows == E.After(old(repo.rows), stream, E.HandedOut(old(repo.rows), stream, reach, met), met)
  {
    ghost var before := repo.rows;
    for i := 0 to |stream|
      invariant repo.rows == E.After(before, stream, i, met) && E.AllAccepted(before, stream, i, met)
      invariant forall k :: 0 <= k < i ==> monitorable(k)
    {
      var ok := repo.HandleNext(stream, i, met, before);
      if !ok || !monitorable(i) {
        assert E.HandedOut(before, stream, i + 1, met) == i + 1;
        return false, i + 1;
      }
    }
    acked, reach := true, |stream|;
  }

  /** One chunk of the pair's own pass: read, check, sort, hand out.  Once the logs are read and checked this is an
      attempt: it commits if and only if it is acknowledged and its checkpoint can be written, and in every case it
      leaves the table as the attempt's step does.  Otherwise nothing is handed out. */
  method ProcessChunk(repo: E.SwapEventRepository, pair: string, chunk: Chunk, read: Reader, met: nat -> E.Circumstance,
                      monitorable: nat -> bool, ghost writeOk: bool, ghost tip: Block, ghost base: map<string, nat>, ghost cps: map<string, nat>)
    returns (acked: bool, ghost at: Option<Attempt>)
    modifies repo
    ensures at.Some? <==> read([pair]).Some? && AllFit(read([pair]).value, chunk)
    ensures at.None? ==> !acked && repo.rows == old(repo.rows)
    ensures at.Some? ==>
      && read([pair]) == Some(at.value.raws) && at.value.chunk == chunk && at.value.read == read && at.value.reach <= |Stream(at.value.raws)|
      && repo.rows == E.Apply(E.State(tip, base, cps, old(repo.rows)), StepOf(at.value, pair)).rows
      && (E.Commits(old(repo.rows), StepOf(at.value, pair)) <==> acked && writeOk)
      && (acked <==> E.AllAccepted(old(repo.rows), Stream(at.value.raws), |Stream(at.value.raws)|, met)
                     && forall i :: 0 <= i < |Stream(at.value.raws)| ==> monitorable(i))
  {
    var raws := read([pair]);
    if raws.None? {
      return false, None;
    }
    var logs := Identify(raws.value, chunk);
    if logs.None? {
      return false, None;
    }
    var stream := Sort(logs.value, Key());
    assert WellRead(raws.value);
    var reach: nat;
    acked, reach := HandOut(repo, stream, met, monitorable);
    at := Some(Attempt(chunk, read, raws.value, met, reach, acked && writeOk));
  }

  /** The logs were read from an honest provider. */
  ghost predicate IsAttempt(at: Attempt, pair: string, ledger: Ledger, top: Block) {
    && at.chunk.from <= at.chunk.to <= Number(top) && GoodLedger(ledger, top)
    && Honest(at.read, ledger, top, at.chunk.from, at.chunk.to)
    && at.read([pair]) == Some(at.raws) && at.reach <= |Stream(at.raws)|
  }

  lemma LogMember(raws: seq<Raw>, l: RawLog)
    requires WellRead(raws)
    ensures l in LogsOf(raws) <==> Wellformed(l) in raws
  {
    if Wellformed(l) in raws {
      var i :| 0 <= i < |raws| && raws[i] == Wellformed(l);
      assert LogsOf(raws)[i] == l;
    }
  }

  /** A pair that scans for itself is served just as by the shared scan, however often a log was returned. */
  lemma OwnScanServes(at: Attempt, pair: string, ledger: Ledger, top: Block, lo: nat)
    requires IsAttempt(at, pair, ledger, top) && lo + 1 == at.chunk.from
    ensures E.Serves(Stream(at.raws), ledger, top, pair, lo, at.chunk.to)
    ensures forall l :: l in Stream(at.raws) ==> l.address == pair
  {
    assert Exact(at.raws, ledger, top, at.chunk.from, at.chunk.to, [pair]);
    forall l ensures l in Stream(at.raws) <==> lo < l.number <= at.chunk.to && l.address == pair && OnLedger(ledger, top, l) {
      SortMembers(LogsOf(at.raws), Key(), l);
      LogMember(at.raws, l);
    }
  }

  /** An attempt at the blocks above the pair's checkpoint is a step of the event table's run, however far it gets. */
  lemma AttemptIsStep(at: Attempt, pair: string, s: E.State, ledger: Ledger)
    requires IsAttempt(at, pair, ledger, s.tip) && pair in s.base && pair in s.cps && s.base[pair] <= s.cps[pair]
    requires s.cps[pair] + 1 == at.chunk.from
    ensures E.Enabled(s, StepOf(at, pair), ledger)
  {
    OwnScanServes(at, pair, ledger, s.tip, s.cps[pair]);
    assert E.ServesFrom(s, StepOf(at, pair), ledger, pair, s.cps[pair]);
  }

  // ------------------------------------------------------------ the whole pass

  /** A pass of the pair as the event table sees it: the attempts made and the states between them. */
  datatype Scan = Scan(ats: seq<Attempt>, states: seq<E.State>, pass: Pass, pair: string, from: nat, size: nat,
                       ledger: Ledger, start: Checkpoints, watched: B.Watched)

  function FromAt(from: nat, ats: seq<Attempt>, k: nat): nat
    requires k <= |ats|
  {
    if k == 0 then from else ats[k - 1].chunk.to + 1
  }

  /** Attempt `k` is on the blocks after those of the one before. */
  ghost predicate AttemptAt(sc: Scan, k: nat)
    requires k < |sc.ats| && |sc.states| == |sc.ats| + 1
  {
    IsAttempt(sc.ats[k], sc.pair, sc.ledger, sc.states[0].tip) && sc.ats[k].chunk.from == FromAt(sc.from, sc.ats, k)
  }

  predicate MovesAt(sc: Scan, k: nat)
    requires k < |sc.ats| && |sc.states| == |sc.ats| + 1
  {
    sc.states[k + 1] == E.Apply(sc.states[k], StepOf(sc.ats[k], sc.pair))
  }

  /** The attempts acknowledged are the chunks that the coordinator knows of; those whose checkpoint it could write are committed. */
  predicate ToldAt(sc: Scan, k: nat)
    requires k < |sc.ats| && |sc.states| == |sc.ats| + 1
  {
    var chunks := sc.pass.result.chunks;
    && (E.Commits(sc.states[k].rows, StepOf(sc.ats[k], sc.pair)) <==> k < |chunks| && sc.pass.world.writeOk(k))
    && (k < |chunks| ==> sc.ats[k].chunk == chunks[k])
  }

  /** Only a write that fails ends a pass without another attempt being possible. */
  predicate Attempted(sc: Scan) {
    var chunks := sc.pass.result.chunks;
    && |sc.states| == |sc.ats| + 1
    && |chunks| <= |sc.ats| <= if sc.pass.result.end == ChunkFailed(WriteThrew) then |chunks| else |chunks| + 1
  }

  ghost predicate ScanOf(sc: Scan, cfg: Config, s: Persisted, t: Persisted, rows: E.Events)
    requires t.journal != map[] && sc.pass.result.plan.Some?
  {
    && Attempted(sc)
    && (forall k :: 0 <= k < |sc.ats| ==> AttemptAt(sc, k) && MovesAt(sc, k) && ToldAt(sc, k))
    && sc.start == s.checkpoints && sc.from == sc.pass.result.plan.value.from && sc.size == cfg.chunkSize
    && sc.states[0] == B.StateOf(TipOf(t.journal), s.checkpoints, rows, sc.watched)
  }

  /** A pass of the pair's listener that no other watched pair takes part in. */
  ghost predicate Alone(p: Pass, key: string, watched: B.Watched) {
    Own(p, key) && forall a, i: nat :: a in watched && p.world.outcome(i).Ack? ==> watched[a].key !in p.world.outcome(i).keys
  }

  /** The pair is watched from no higher than its checkpoint stands, or without one from where its own scan can begin. */
  ghost predicate WatchesOwn(watched: B.Watched, pair: string, key: string, start: nat, c: Checkpoints, cutoff: Block) {
    && B.OneKeyEach(watched) && pair in watched && watched[pair].key == key
    && if key in c then watched[pair].base <= c[key].number else watched[pair].base == Max(start, Number(cutoff) + 1) - 1
  }

  /** The checkpoints after the first `k` attempts. */
  function CheckpointsAfter(sc: Scan, k: nat): Checkpoints {
    var chunks := sc.pass.result.chunks;
    AfterChunks(sc.start, sc.pass.req, chunks[..Min(k, |chunks|)], sc.pass.world)
  }

  /** Where the run of the event table stands after `k` attempts. */
  ghost predicate Along(sc: Scan, k: nat, c: Checkpoints)
    requires k <= |sc.ats| && |sc.states| == |sc.ats| + 1
  {
    && sc.states[k].tip == sc.states[0].tip && sc.states[k].base == B.Bases(sc.watched) && sc.states[k].cps == B.Stands(c, sc.watched)
    && sc.pair in sc.watched
    && (k < |sc.ats| ==> sc.watched[sc.pair].base < B.Stand(c, sc.watched[sc.pair]) + 1 == FromAt(sc.from, sc.ats, k))
  }

  ghost predicate EnabledAt(sc: Scan, k: nat)
    requires k < |sc.ats| && |sc.states| == |sc.ats| + 1
  {
    E.Enabled(sc.states[k], StepOf(sc.ats[k], sc.pair), sc.ledger)
  }

  lemma NextEnabled(sc: Scan, k: nat, c: Checkpoints)
    requires k < |sc.ats| && |sc.states| == |sc.ats| + 1 && AttemptAt(sc, k) && Along(sc, k, c)
    ensures EnabledAt(sc, k)
  {
    AttemptIsStep(sc.ats[k], sc.pair, sc.states[k], sc.ledger);
  }

  /** Writing the pair's own checkpoint moves it and no other. */
  lemma OwnMovesOnly(c: Checkpoints, keys: set<string>, cp: Checkpoint, watched: B.Watched, pair: string, ok: bool)
    requires B.OneKeyEach(watched) && pair in watched && forall a :: a in watched ==> watched[a].key !in keys
    ensures var d := if ok then SetAll(SetAll(c, keys, cp), {watched[pair].key}, cp) else SetAll(c, keys, cp);
      && B.Stands(d, watched) == (if ok then E.MovedTo(B.Stands(c, watched), {pair}, cp.number) else B.Stands(c, watched))
      && (ok ==> B.Stand(d, watched[pair]) == cp.number)
  {
  }

  lemma AfterNext(c: Checkpoints, req: Request, chunks: seq<Chunk>, w: World, n: nat)
    requires n < |chunks| && req.persist && chunks[n].headers != [] && w.outcome(n).Ack?
    ensures var d, cp := AfterChunks(c, req, chunks[..n], w), ChunkCheckpoint(chunks[n]);
      AfterChunks(c, req, chunks[..n + 1], w)
      == if w.writeOk(n) then SetAll(SetAll(d, w.outcome(n).keys, cp), {req.key}, cp) else SetAll(d, w.outcome(n).keys, cp)
  {
    assert chunks[..n + 1][..n] == chunks[..n] && chunks[..n + 1][n] == chunks[n];
  }

  ghost predicate Good(sc: Scan) {
    var p := sc.pass;
    && Attempted(sc) && Tiles(p.result.chunks, sc.from, sc.size, sc.states[0].tip)
    && WritesOk(p.result.end, p.result.chunks, p.req, p.world)
    && sc.states[0].base == B.Bases(sc.watched) && B.OneKeyEach(sc.watched) && sc.pair in sc.watched && Alone(p, sc.watched[sc.pair].key, sc.watched)
    && (forall k :: 0 <= k < |sc.ats| ==> AttemptAt(sc, k) && MovesAt(sc, k) && ToldAt(sc, k))
    && Along(sc, 0, sc.start)
  }

  lemma AcknowledgedAlong(sc: Scan, n: nat, c: Checkpoints, d: Checkpoints)
    requires |sc.states| == |sc.ats| + 1 && n < |sc.ats| && MovesAt(sc, n) && Along(sc, n, c)
    requires B.OneKeyEach(sc.watched) && sc.pair in sc.watched
    requires var ok := E.Commits(sc.states[n].rows, StepOf(sc.ats[n], sc.pair));
      && B.Stands(d, sc.watched) == (if ok then E.MovedTo(B.Stands(c, sc.watched), {sc.pair}, sc.ats[n].chunk.to) else B.Stands(c, sc.watched))
      && (n + 1 < |sc.ats| ==> B.Stand(d, sc.watched[sc.pair]) == sc.ats[n].chunk.to && sc.watched[sc.pair].base <= sc.ats[n].chunk.to)
    ensures Along(sc, n + 1, d)
  {
  }

  lemma NextAlong(sc: Scan, n: nat)
    requires Good(sc) && n < |sc.ats| && Along(sc, n, CheckpointsAfter(sc, n))
    ensures Along(sc, n + 1, CheckpointsAfter(sc, n + 1))
  {
    var p, c, d := sc.pass, CheckpointsAfter(sc, n), CheckpointsAfter(sc, n + 1);
    assert MovesAt(sc, n) && ToldAt(sc, n);
    if n < |p.result.chunks| {
      assert Tile(p.result.chunks, n, sc.from, sc.size, sc.states[0].tip);
      AfterNext(sc.start, p.req, p.result.chunks, p.world, n);
      OwnMovesOnly(c, p.world.outcome(n).keys, ChunkCheckpoint(p.result.chunks[n]), sc.watched, sc.pair, p.world.writeOk(n));
    }
    AcknowledgedAlong(sc, n, c, d);
  }

  lemma NextStep(sc: Scan, n: nat)
    requires Good(sc) && n < |sc.ats| && Along(sc, n, CheckpointsAfter(sc, n))
    ensures EnabledAt(sc, n)
  {
    assert AttemptAt(sc, n);
    NextEnabled(sc, n, CheckpointsAfter(sc, n));
  }

  /** The attempts of a pass are steps of the event table's run, and leave the checkpoints that its chunks leave. */
  lemma {:induction false} AttemptsAreSteps(sc: Scan, k: nat)
    requires Good(sc) && k <= |sc.ats|
    ensures Along(sc, k, CheckpointsAfter(sc, k)) && forall i :: 0 <= i < k ==> EnabledAt(sc, i)
  {
    if k > 0 {
      AttemptsAreSteps(sc, k - 1);
      NextStep(sc, k - 1);
      NextAlong(sc, k - 1);
    } else {
      assert sc.pass.result.chunks[..0] == [];
    }
  }

  lemma ScanIsGood(sc: Scan, cfg: Config, s: Persisted, t: Persisted, rows: E.Events, key: string, start: nat)
    requires PassStep(sc.pass.result, cfg, sc.pass.req, sc.pass.world, s, t) && JournalWritten(sc.pass.result.end)
    requires sc.pass.result.plan.Some? && ScanOf(sc, cfg, s, t, rows)
    requires WatchesOwn(sc.watched, sc.pair, key, start, s.checkpoints, cfg.cutoff) && Alone(sc.pass, key, sc.watched)
    requires key in s.checkpoints || (sc.pass.req.startBlock == start && !sc.pass.req.bootstrapHead)
    ensures Good(sc) && t.checkpoints == AfterChunks(s.checkpoints, sc.pass.req, sc.pass.result.chunks, sc.pass.world)
  {
    OwnPlan(cfg, sc.pass, s, key, start);
    OwnMoves(sc.pass.result.plan.value, sc.pass.result.chunks, sc.pass.req, sc.pass.world, cfg.cutoff, s.checkpoints, t.checkpoints);
  }

  /** The run of the event table that the pass is: the chain is extended, then come the attempts. */
  function RunOf(sc: Scan, top: Block): (run: seq<E.Step>)
    ensures |run| == |sc.ats| + 1 && run[0] == E.Extend(top) && forall k :: 0 <= k < |sc.ats| ==> run[k + 1] == StepOf(sc.ats[k], sc.pair)
  {
    seq(|sc.ats| + 1, k requires 0 <= k <= |sc.ats| => if k == 0 then E.Extend(top) else StepOf(sc.ats[k - 1], sc.pair))
  }

  lemma StepInRun(sc: Scan, before: E.State, top: Block, k: nat)
    requires |sc.states| == |sc.ats| + 1 && k <= |sc.ats| && E.Apply(before, E.Extend(top)) == sc.states[0]
    requires k > 0 ==> MovesAt(sc, k - 1)
    ensures E.LeadsOn([before] + sc.states, RunOf(sc, top), k)
  {
  }

  lemma StepEnabled(sc: Scan, before: E.State, top: Block, k: nat)
    requires |sc.states| == |sc.ats| + 1 && k <= |sc.ats| && E.Enabled(before, E.Extend(top), sc.ledger)
    requires k > 0 ==> EnabledAt(sc, k - 1)
    ensures E.EnabledIn([before] + sc.states, RunOf(sc, top), k, sc.ledger)
  {
    if k > 0 {
      assert RunOf(sc, top)[k] == StepOf(sc.ats[k - 1], sc.pair);
    }
  }

  lemma StepsAreRun(sc: Scan, before: E.State, top: Block)
    requires |sc.states| == |sc.ats| + 1 && E.Enabled(before, E.Extend(top), sc.ledger)
    requires E.Apply(before, E.Extend(top)) == sc.states[0]
    requires forall i :: 0 <= i < |sc.ats| ==> MovesAt(sc, i) && EnabledAt(sc, i)
    ensures E.Runs(before, RunOf(sc, top), sc.ledger) && E.Final(before, RunOf(sc, top)) == sc.states[|sc.ats|]
  {
    var states, run := [before] + sc.states, RunOf(sc, top);
    forall k | 0 <= k < |run| ensures E.LeadsOn(states, run, k) && E.EnabledIn(states, run, k, sc.ledger) {
      StepInRun(sc, before, top, k);
      StepEnabled(sc, before, top, k);
    }
    E.TraceRuns(states, run, sc.ledger);
  }

  lemma StateInRun(sc: Scan, before: E.State, top: Block, k: nat)
    requires |sc.states| == |sc.ats| + 1 && k <= |sc.ats| && E.Apply(before, E.Extend(top)) == sc.states[0]
    requires forall i :: 0 <= i < |sc.ats| ==> MovesAt(sc, i)
    ensures E.StateAt(before, RunOf(sc, top), k + 1) == sc.states[k]
  {
    var states, run := [before] + sc.states, RunOf(sc, top);
    forall i | 0 <= i < |run| ensures E.LeadsOn(states, run, i) {
      StepInRun(sc, before, top, i);
    }
    E.TraceIsRun(states, run, k + 1);
  }

  lemma ScanIsRun(sc: Scan, tip: Block, top: Block, rows: E.Events, c: Checkpoints)
    requires Good(sc) && sc.states[0] == B.StateOf(top, sc.start, rows, sc.watched) && OnChain(top, tip) && E.Proper(sc.ledger, top)
    requires c == AfterChunks(sc.start, sc.pass.req, sc.pass.result.chunks, sc.pass.world)
    ensures var before, run := B.StateOf(tip, sc.start, rows, sc.watched), RunOf(sc, top);
      && E.Runs(before, run, sc.ledger)
      && E.Final(before, run) == B.StateOf(top, c, sc.states[|sc.ats|].rows, sc.watched)
  {
    AttemptsAreSteps(sc, |sc.ats|);
    assert sc.pass.result.chunks[..|sc.pass.result.chunks|] == sc.pass.result.chunks;
    assert Along(sc, |sc.ats|, c);
    StepsAreRun(sc, B.StateOf(tip, sc.start, rows, sc.watched), top);
  }

  /** A pass of the pair's own listener is a run of the event table that ends where the pass leaves the chain and the
      checkpoints, whatever chunks went through, whatever writes failed and however the last attempt ended. */
  lemma ListenerPassIsRun(sc: Scan, cfg: Config, s: Persisted, t: Persisted, rows: E.Events, key: string, start: nat)
    requires PassStep(sc.pass.result, cfg, sc.pass.req, sc.pass.world, s, t) && JournalWritten(sc.pass.result.end)
    requires sc.pass.result.plan.Some? && ScanOf(sc, cfg, s, t, rows) && E.Proper(sc.ledger, TipOf(t.journal))
    requires WatchesOwn(sc.watched, sc.pair, key, start, s.checkpoints, cfg.cutoff) && Alone(sc.pass, key, sc.watched)
    requires key in s.checkpoints || (sc.pass.req.startBlock == start && !sc.pass.req.bootstrapHead)
    ensures var before, run := B.StateOf(TipOf(s.journal), s.checkpoints, rows, sc.watched), RunOf(sc, TipOf(t.journal));
      && E.Runs(before, run, sc.ledger)
      && E.Final(before, run) == B.StateOf(TipOf(t.journal), t.checkpoints, sc.states[|sc.ats|].rows, sc.watched)
  {
    ScanIsGood(sc, cfg, s, t, rows, key, start);
    ScanIsRun(sc, TipOf(s.journal), TipOf(t.journal), rows, t.checkpoints);
  }

  /** After a pass that was finished without being stopped the pair has caught up. */
  lemma ListenerCatchesUp(sc: Scan, cfg: Config, s: Persisted, t: Persisted, rows: E.Events, key: string, start: nat)
    requires PassStep(sc.pass.result, cfg, sc.pass.req, sc.pass.world, s, t) && sc.pass.result.end.Finished?
    requires sc.pass.result.plan.Some? && ScanOf(sc, cfg, s, t, rows) && E.Proper(sc.ledger, TipOf(t.journal))
    requires WatchesOwn(sc.watched, sc.pair, key, start, s.checkpoints, cfg.cutoff) && Alone(sc.pass, key, sc.watched)
    requires key in s.checkpoints || (sc.pass.req.startBlock == start && !sc.pass.req.bootstrapHead)
    requires !sc.pass.world.outcome(|sc.pass.result.chunks|).Stop? && sc.from <= Number(TipOf(t.journal))
    ensures E.CaughtUp(B.StateOf(TipOf(s.journal), s.checkpoints, rows, sc.watched), RunOf(sc, TipOf(t.journal)), sc.pair)
  {
    ScanIsGood(sc, cfg, s, t, rows, key, start);
    var before, n := B.StateOf(TipOf(s.journal), s.checkpoints, rows, sc.watched), |sc.pass.result.chunks| - 1;
    assert sc.pass.result.chunks != [] && sc.pass.result.chunks[n].to == Number(TipOf(t.journal));
    AttemptsAreSteps(sc, n);
    assert ToldAt(sc, n) && Along(sc, n, CheckpointsAfter(sc, n));
    assert forall i :: 0 <= i < |sc.ats| ==> MovesAt(sc, i) && ToldAt(sc, i);
    LastCatchesUp(sc, n, before, TipOf(t.journal));
  }

  lemma LastCatchesUp(sc: Scan, n: nat, before: E.State, top: Block)
    requires |sc.states| == |sc.ats| + 1 && n < |sc.ats| && n + 1 == |sc.pass.result.chunks| && E.Apply(before, E.Extend(top)) == sc.states[0]
    requires forall k :: 0 <= k < |sc.ats| ==> MovesAt(sc, k) && ToldAt(sc, k)
    requires sc.states[n].tip == top && sc.ats[n].chunk.to == Number(top) && E.Commits(sc.states[n].rows, StepOf(sc.ats[n], sc.pair))
    ensures E.CaughtUp(before, RunOf(sc, top), sc.pair)
  {
    var run := RunOf(sc, top);
    StateInRun(sc, before, top, n);
    assert run[n + 1] == StepOf(sc.ats[n], sc.pair);
    forall i | n + 1 < i < |run| ensures E.Spares(before, run, sc.pair, Number(top), i) {
      StateInRun(sc, before, top, i - 1);
      assert run[i] == StepOf(sc.ats[i - 1], sc.pair) && ToldAt(sc, i - 1);
    }
    assert E.CaughtUpAt(before, run, sc.pair, n + 1);
  }
}
