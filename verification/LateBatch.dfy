/** A batch whose request waited: the set-up read the checkpoints, then other passes and rollbacks came first.
    Exactly when such a pass leaves no event out. */
module LateBatch {
  import opened Blocks
  import opened ChainStore
  import opened CanonicalPass
  import opened ChunkLoop
  import opened SwapBatch
  import opened BatchRefinement
  import opened BatchRequest
  import opened BatchedPass
  import E = SwapEvents

  /** The chunks that went through were acknowledged with the checkpoints of the pairs concerned, all still active. */
  ghost predicate AcknowledgedAt(p: Late, k: nat)
    requires k < |p.r.chunks|
  {
    var entries := EntriesAt(p.entries, p.r.chunks, k);
    p.w.outcome(k) == Ack(Keys(Concerned(entries, p.r.chunks[k].to))) && Active(entries, p.r.chunks[k].to, p.live)
  }

  ghost predicate Acknowledged(p: Late) {
    forall k :: 0 <= k < |p.r.chunks| ==> AcknowledgedAt(p, k)
  }

  /** Every pair stands between its base and the tip. */
  ghost predicate InRange(c: Checkpoints, watched: Watched, tip: Block) {
    forall a :: a in watched ==> watched[a].base <= Stand(c, watched[a]) <= Number(tip)
  }

  /** With this ledger, this event table and these attempts the pass found nothing missing. */
  ghost predicate Possible(sc: Scan, p: Late, rows: E.Events)
    requires IsLate(p)
  {
    && ScanOf(sc, p, rows) && E.Proper(sc.ledger, TipOf(p.t.journal))
    && E.Inv(StateOf(TipOf(p.s.journal), p.s.checkpoints, rows, p.watched), sc.ledger)
  }

  /** And left nothing missing. */
  ghost predicate NothingMissing(sc: Scan, p: Late)
    requires IsLate(p) && Fitting(sc)
  {
    E.Inv(StateOf(TipOf(p.t.journal), p.t.checkpoints, sc.states[|sc.ats|].rows, p.watched), sc.ledger)
  }

  lemma KeepsAll(sc: Scan, p: Late, rows: E.Events)
    requires IsLate(p) && Possible(sc, p, rows) && NotSetBack(p.entries, p.r.chunks, p.watched, p.live, p.s0.checkpoints, p.s.checkpoints)
    ensures NothingMissing(sc, p)
  {
    BatchedPassIsRun(sc, p, rows);
    var before, run := StateOf(TipOf(p.s.journal), p.s.checkpoints, rows, p.watched), RunOf(sc, TipOf(p.t.journal));
    E.RunKeeps(before, run, |run|, sc.ledger);
  }

  // ------------------------------------------------------------ one log in the part left out

  function LogAt(pair: string, b: Block): RawLog { RawLog(pair, Number(b), b, 0, 0, 0, 0) }

  /** What an honest provider answers when `l` is the only log. */
  function Answer(l: RawLog, from: nat, to: nat, addresses: seq<string>): seq<Raw> {
    if l.address in addresses && from <= l.number <= to then [Wellformed(l)] else []
  }

  function ReaderOf(l: RawLog, from: nat, to: nat): Reader {
    (addresses: seq<string>) => Some(Answer(l, from, to, addresses))
  }

  /** A chunk in which nothing fails. */
  function AttemptFor(entries: seq<Entry>, chunk: Chunk, l: RawLog): Attempt {
    var raws := Answer(l, chunk.from, chunk.to, AddressList(Concerned(entries, chunk.to)));
    var env := Env((k, a) => true, a => Alive, ReaderOf(l, chunk.from, chunk.to), (k: nat) => Some(true), true);
    Attempt(chunk, entries, env, raws, (k: nat) => E.Circumstance(false, E.Succeeds), |Stream(entries, raws)|, true)
  }

  lemma ReaderIsHonest(l: RawLog, b: Block, top: Block, from: nat, to: nat)
    requires OnChain(top, b) && l == LogAt(l.address, b)
    ensures Honest(ReaderOf(l, from, to), E.OneLog(b, l), top, from, to)
  {
    E.OnlyLog(top, b, l);
    forall addresses ensures Exact(Answer(l, from, to, addresses), E.OneLog(b, l), top, from, to, addresses) {
    }
  }

  lemma AnswersAll(concerned: seq<Entry>, l: RawLog, from: nat, to: nat)
    ensures ReadFor(Answer(l, from, to, AddressList(concerned)), concerned, ReaderOf(l, from, to))
  {
    var batches := [AddressList(concerned)];
    assert batches[..0] == [] && Flatten(batches) == AddressList(concerned);
    assert Answers(batches, 1, ReaderOf(l, from, to)) == Answers(batches, 0, ReaderOf(l, from, to)) + Answer(l, from, to, AddressList(concerned));
  }

  lemma AttemptIsGenuine(entries: seq<Entry>, chunk: Chunk, l: RawLog, b: Block, top: Block)
    requires OnChain(top, b) && l == LogAt(l.address, b) && chunk.from <= chunk.to <= Number(top) && DistinctEntries(entries)
    ensures IsAttempt(AttemptFor(entries, chunk, l), E.OneLog(b, l), top)
  {
    E.OnlyLog(top, b, l);
    ReaderIsHonest(l, b, top, chunk.from, chunk.to);
    AnswersAll(Concerned(entries, chunk.to), l, chunk.from, chunk.to);
  }

  /** It goes through. */
  lemma AttemptCommits(entries: seq<Entry>, chunk: Chunk, l: RawLog, rows: E.Events)
    ensures E.Commits(rows, StepOf(AttemptFor(entries, chunk, l)))
  {
    var step := StepOf(AttemptFor(entries, chunk, l));
    forall i | 0 <= i < |step.stream| ensures E.AcceptedAt(rows, step.stream, i, step.met) {
    }
  }

  /** Nothing of the log is handed out below where the scan has the pair. */
  lemma NothingHandedOut(entries: seq<Entry>, chunk: Chunk, l: RawLog, b: Block, top: Block)
    requires OnChain(top, b) && l == LogAt(l.address, b) && chunk.from <= chunk.to <= Number(top) && DistinctEntries(entries)
    requires forall f :: f in entries && f.address == l.address ==> l.number < Max(f.nextBlock, chunk.from)
    ensures StepOf(AttemptFor(entries, chunk, l)).stream == []
  {
    var at := AttemptFor(entries, chunk, l);
    AttemptIsGenuine(entries, chunk, l, b, top);
    E.OnlyLog(top, b, l);
    if Stream(entries, at.raws) != [] {
      var f := StreamMember(at, E.OneLog(b, l), top, Stream(entries, at.raws)[0]);
    }
  }

  lemma AdvancedDistinct(before: seq<Entry>, to: nat)
    requires DistinctEntries(before)
    ensures DistinctEntries(Advanced(before, to))
  {
    var after := Advanced(before, to);
    forall i, k | 0 <= i < k < |after| ensures after[i].address != after[k].address && after[i].key != after[k].key {
      assert before[i].address != before[k].address && before[i].key != before[k].key;
    }
  }

  lemma StaysDistinct(entries: seq<Entry>, chunks: seq<Chunk>, k: nat)
    requires k <= |chunks| && DistinctEntries(entries)
    ensures DistinctEntries(EntriesAt(entries, chunks, k))
  {
    for i := 0 to k
      invariant DistinctEntries(EntriesAt(entries, chunks, i))
    {
      AdvancedDistinct(EntriesAt(entries, chunks, i), chunks[i].to);
    }
  }

  lemma AdvancedFrom(before: seq<Entry>, to: nat, f: Entry) returns (g: Entry)
    requires f in Advanced(before, to)
    ensures g in before && g.address == f.address && g.nextBlock <= Max(f.nextBlock, to + 1)
    ensures g.nextBlock == f.nextBlock || f.nextBlock == to + 1
  {
    var i :| 0 <= i < |before| && Advanced(before, to)[i] == f;
    g := before[i];
  }

  /** Each listed pair has a log right above. */
  ghost predicate NoneBelow(entries: seq<Entry>, from: nat, pair: string, n: nat) {
    forall f :: f in entries && f.address == pair ==> n < Max(f.nextBlock, from)
  }

  /** The scan never goes back for a pair. */
  lemma NeverBelow(entries: seq<Entry>, from: nat, to: nat, pair: string, n: nat)
    requires from <= to && NoneBelow(entries, from, pair, n)
    ensures NoneBelow(Advanced(entries, to), to + 1, pair, n)
  {
    forall f | f in Advanced(entries, to) && f.address == pair ensures n < Max(f.nextBlock, to + 1) {
      var g := AdvancedFrom(entries, to, f);
    }
  }

  ghost predicate Ascending(chunks: seq<Chunk>, from: nat, top: Block) {
    forall k :: 0 <= k < |chunks| ==> InOrder(chunks, from, top, k)
  }

  predicate InOrder(chunks: seq<Chunk>, from: nat, top: Block, k: nat)
    requires k < |chunks|
  {
    FromAt(from, chunks, k) == chunks[k].from <= chunks[k].to <= Number(top)
  }

  lemma TilesInOrder(chunks: seq<Chunk>, from: nat, size: nat, top: Block)
    requires Tiles(chunks, from, size, top)
    ensures Ascending(chunks, from, top)
  {
    forall k | 0 <= k < |chunks| ensures InOrder(chunks, from, top, k) {
      assert Tile(chunks, k, from, size, top);
    }
  }

  lemma NoneBelowAt(entries: seq<Entry>, chunks: seq<Chunk>, from: nat, top: Block, k: nat, pair: string, n: nat)
    requires k <= |chunks| && Ascending(chunks, from, top) && NoneBelow(entries, from, pair, n)
    ensures NoneBelow(EntriesAt(entries, chunks, k), FromAt(from, chunks, k), pair, n)
  {
    for i := 0 to k
      invariant NoneBelow(EntriesAt(entries, chunks, i), FromAt(from, chunks, i), pair, n)
    {
      assert InOrder(chunks, from, top, i);
      NeverBelow(EntriesAt(entries, chunks, i), FromAt(from, chunks, i), chunks[i].to, pair, n);
    }
  }

  function Trace(s: E.State, ats: seq<Attempt>, k: nat): E.State
    requires k <= |ats|
  {
    if k == 0 then s else E.Apply(Trace(s, ats, k - 1), StepOf(ats[k - 1]))
  }

  function AttemptsFor(entries: seq<Entry>, chunks: seq<Chunk>, l: RawLog): (ats: seq<Attempt>)
    ensures |ats| == |chunks| && forall k :: 0 <= k < |ats| ==> ats[k] == AttemptFor(EntriesAt(entries, chunks, k), chunks[k], l)
  {
    seq(|chunks|, k requires 0 <= k < |chunks| => AttemptFor(EntriesAt(entries, chunks, k), chunks[k], l))
  }

  function TraceOf(s: E.State, ats: seq<Attempt>): (states: seq<E.State>)
    ensures |states| == |ats| + 1 && forall k :: 0 <= k < |states| ==> states[k] == Trace(s, ats, k)
  {
    seq(|ats| + 1, k requires 0 <= k <= |ats| => Trace(s, ats, k))
  }

  lemma EmptyStream(s: E.State, step: E.Step)
    requires step.Chunk? && step.stream == []
    ensures E.Apply(s, step).rows == s.rows
  {
    assert step.reach <= |step.stream| ==> E.After(s.rows, step.stream, 0, step.met) == s.rows;
  }

  lemma TableStays(s: E.State, ats: seq<Attempt>, k: nat)
    requires k <= |ats| && forall i :: 0 <= i < |ats| ==> StepOf(ats[i]).stream == []
    ensures Trace(s, ats, k).rows == s.rows
  {
    for i := 0 to k
      invariant Trace(s, ats, i).rows == s.rows
    {
      EmptyStream(Trace(s, ats, i), StepOf(ats[i]));
    }
  }

  /** The pass over a chain with that one log, from an empty table. */
  ghost function ScanFor(p: Late, l: RawLog, b: Block): (sc: Scan)
    requires p.t.journal != map[] && p.r.plan.Some?
    ensures Fitting(sc) && |sc.ats| == |sc.chunks|
  {
    var ats := AttemptsFor(p.entries, p.r.chunks, l);
    Scan(ats, TraceOf(StateOf(TipOf(p.t.journal), p.s.checkpoints, map[], p.watched), ats), p.r.chunks, p.w, p.req, p.entries,
         p.r.plan.value.from, p.cfg.chunkSize, E.OneLog(b, l), p.s.checkpoints, p.watched, p.live)
  }

  lemma ScanForAttempt(p: Late, l: RawLog, b: Block, k: nat)
    requires p.t.journal != map[] && p.r.plan.Some? && k < |p.r.chunks| && AcknowledgedAt(p, k) && DistinctEntries(p.entries)
    requires InOrder(p.r.chunks, p.r.plan.value.from, TipOf(p.t.journal), k) && OnChain(TipOf(p.t.journal), b) && l == LogAt(l.address, b)
    ensures AttemptAt(ScanFor(p, l, b), k)
  {
    StaysDistinct(p.entries, p.r.chunks, k);
    AttemptIsGenuine(EntriesAt(p.entries, p.r.chunks, k), p.r.chunks[k], l, b, TipOf(p.t.journal));
  }

  lemma ScanForTold(p: Late, l: RawLog, b: Block, k: nat)
    requires p.t.journal != map[] && p.r.plan.Some? && k < |p.r.chunks| && AcknowledgedAt(p, k)
    ensures MovesAt(ScanFor(p, l, b), k) && ToldAt(ScanFor(p, l, b), k)
  {
    AttemptCommits(EntriesAt(p.entries, p.r.chunks, k), p.r.chunks[k], l, ScanFor(p, l, b).states[k].rows);
  }

  lemma ScanForIsScan(p: Late, l: RawLog, b: Block)
    requires p.t.journal != map[] && p.r.plan.Some? && Acknowledged(p) && DistinctEntries(p.entries)
    requires Ascending(p.r.chunks, p.r.plan.value.from, TipOf(p.t.journal)) && OnChain(TipOf(p.t.journal), b) && l == LogAt(l.address, b)
    ensures ScanOf(ScanFor(p, l, b), p, map[])
  {
    var sc := ScanFor(p, l, b);
    forall k | 0 <= k < |sc.ats| ensures AttemptAt(sc, k) && MovesAt(sc, k) && ToldAt(sc, k) {
      assert AcknowledgedAt(p, k) && InOrder(p.r.chunks, p.r.plan.value.from, TipOf(p.t.journal), k);
      ScanForAttempt(p, l, b, k);
      ScanForTold(p, l, b, k);
    }
  }

  lemma TableStaysEmpty(p: Late, l: RawLog, b: Block)
    requires p.t.journal != map[] && p.r.plan.Some? && DistinctEntries(p.entries)
    requires Ascending(p.r.chunks, p.r.plan.value.from, TipOf(p.t.journal)) && OnChain(TipOf(p.t.journal), b) && l == LogAt(l.address, b)
    requires NoneBelow(p.entries, p.r.plan.value.from, l.address, l.number)
    ensures ScanFor(p, l, b).states[|p.r.chunks|].rows == map[]
  {
    var chunks, from, top := p.r.chunks, p.r.plan.value.from, TipOf(p.t.journal);
    var ats := AttemptsFor(p.entries, chunks, l);
    forall k | 0 <= k < |ats| ensures StepOf(ats[k]).stream == [] {
      assert InOrder(chunks, from, top, k);
      StaysDistinct(p.entries, chunks, k);
      NoneBelowAt(p.entries, chunks, from, top, k, l.address, l.number);
      NothingHandedOut(EntriesAt(p.entries, chunks, k), chunks[k], l, b, top);
    }
    TableStays(StateOf(top, p.s.checkpoints, map[], p.watched), ats, |chunks|);
  }

  /** Before the pass the log lies above where its pair stands, so nothing is missing. */
  lemma NothingMissingBefore(tip: Block, top: Block, c: Checkpoints, watched: Watched, l: RawLog, b: Block)
    requires InRange(c, watched, tip) && OnChain(top, tip) && OnChain(top, b) && l == LogAt(l.address, b)
    requires l.address in watched && Stand(c, watched[l.address]) < l.number
    ensures E.Inv(StateOf(tip, c, map[], watched), E.OneLog(b, l))
  {
    var before := StateOf(tip, c, map[], watched);
    E.OnlyLog(top, b, l);
    E.ProperBelow(E.OneLog(b, l), top, tip);
    forall a | a in watched ensures E.UpTo(before, E.OneLog(b, l), a) {
      forall m ensures !E.IsOwn(E.OneLog(b, l), tip, m, a, before.base[a], before.cps[a]) {
        if OnLedger(E.OneLog(b, l), tip, m) {
          E.SameLogs(E.OneLog(b, l), tip, top, m);
        }
      }
    }
  }

  /** What of the pass is needed here. */
  lemma LateFacts(p: Late)
    requires IsLate(p)
    ensures p.t.journal != map[] && p.r.plan.Some? && DistinctEntries(p.entries) && OnChain(TipOf(p.t.journal), TipOf(p.s.journal))
    ensures Ascending(p.r.chunks, p.r.plan.value.from, TipOf(p.t.journal))
  {
    WrittenPass(p);
    TilesInOrder(p.r.chunks, p.r.plan.value.from, p.cfg.chunkSize, TipOf(p.t.journal));
  }

  /** Where the pair stood at the set-up lies below the end of the last chunk. */
  lemma BelowCommitted(chunks: seq<Chunk>, from: nat, top: Block)
    requires Ascending(chunks, from, top) && chunks != []
    ensures from <= CommittedTo(chunks) <= Number(top)
  {
    for i := 0 to |chunks| - 1
      invariant from <= FromAt(from, chunks, i)
    {
      assert InOrder(chunks, from, top, i);
    }
    assert InOrder(chunks, from, top, |chunks| - 1);
  }

  lemma GoodCommits(sc: Scan, e: Entry)
    requires Good(sc) && |sc.ats| == |sc.chunks| && e in sc.entries && e.address in sc.watched && e.nextBlock <= CommittedTo(sc.chunks)
    ensures e.address in sc.states[|sc.ats|].cps && sc.states[|sc.ats|].cps[e.address] == CommittedTo(sc.chunks)
  {
    var k := |sc.chunks| - 1;
    LastCommit(sc, e);
    WatchedAt(sc, k);
    LastMoves(sc.states[k], sc.states[k + 1], StepOf(sc.ats[k]), e.address);
  }

  /** The last chunk commits the pair. */
  lemma CommittedAbove(sc: Scan, p: Late, e: Entry)
    requires IsLate(p) && ScanOf(sc, p, map[]) && |sc.ats| == |p.r.chunks| && e in p.entries && e.address in p.watched
    requires e.nextBlock <= CommittedTo(p.r.chunks)
    ensures Stand(p.t.checkpoints, p.watched[e.address]) == CommittedTo(p.r.chunks)
  {
    ScanIsGood(sc, p, map[]);
    GoodCommits(sc, e);
    ScanEnds(sc, p, map[]);
  }

  lemma LastMoves(s: E.State, t: E.State, step: E.Step, pair: string)
    requires step.Chunk? && t == E.Apply(s, step) && E.Commits(s.rows, step) && pair in step.pairs && pair in s.cps
    ensures pair in t.cps && t.cps[pair] == step.to
  {
  }

  /** The log is left out. */
  lemma LogLeftOut(top: Block, c: Checkpoints, watched: Watched, l: RawLog, b: Block)
    requires l.address in watched && watched[l.address].base < l.number <= Stand(c, watched[l.address])
    requires OnLedger(E.OneLog(b, l), top, l)
    ensures !E.Inv(StateOf(top, c, map[], watched), E.OneLog(b, l))
  {
    var after := StateOf(top, c, map[], watched);
    assert E.IsOwn(E.OneLog(b, l), top, l, l.address, after.base[l.address], after.cps[l.address]) && !E.Present(map[], l);
    assert !E.UpTo(after, E.OneLog(b, l), l.address);
  }

  /** If a pair that the pass commits was set back, a log right above where it stands is left out. */
  lemma LeftOut(p: Late, e: Entry) returns (sc: Scan, b: Block)
    requires IsLate(p) && Acknowledged(p) && InRange(p.s.checkpoints, p.watched, TipOf(p.s.journal))
    requires e in p.entries && e.address in p.live && e.address in p.watched && e.nextBlock <= CommittedTo(p.r.chunks)
    requires Stand(p.s.checkpoints, p.watched[e.address]) < Stand(p.s0.checkpoints, p.watched[e.address])
    ensures Possible(sc, p, map[]) && !NothingMissing(sc, p) && sc.states[|sc.ats|].rows == map[]
    ensures OnChain(TipOf(p.t.journal), b) && Number(b) == Stand(p.s.checkpoints, p.watched[e.address]) + 1
    ensures sc.ledger == E.OneLog(b, LogAt(e.address, b))
  {
    var l;
    l, b := LogAbove(p, e);
    LateFacts(p);
    sc := ScanFor(p, l, b);
    ScanForIsScan(p, l, b);
    TableStaysEmpty(p, l, b);
    CommittedAbove(sc, p, e);
    NothingMissingBefore(TipOf(p.s.journal), TipOf(p.t.journal), p.s.checkpoints, p.watched, l, b);
    E.OnlyLog(TipOf(p.t.journal), b, l);
    LogLeftOut(TipOf(p.t.journal), p.t.checkpoints, p.watched, l, b);
  }

  /** The log right above where the pair stands lies below where the scan has the pair. */
  lemma LogAbove(p: Late, e: Entry) returns (l: RawLog, b: Block)
    requires IsLate(p) && e in p.entries && e.address in p.live && e.address in p.watched && e.nextBlock <= CommittedTo(p.r.chunks)
    requires InRange(p.s.checkpoints, p.watched, TipOf(p.s.journal))
    requires Stand(p.s.checkpoints, p.watched[e.address]) < Stand(p.s0.checkpoints, p.watched[e.address])
    ensures OnChain(TipOf(p.t.journal), b) && l == LogAt(e.address, b) && l.number == Stand(p.s.checkpoints, p.watched[e.address]) + 1
    ensures p.watched[e.address].base < l.number <= CommittedTo(p.r.chunks)
    ensures NoneBelow(p.entries, p.r.plan.value.from, l.address, l.number)
  {
    var n := Stand(p.s.checkpoints, p.watched[e.address]) + 1;
    LateFacts(p);
    BelowCommitted(p.r.chunks, p.r.plan.value.from, TipOf(p.t.journal));
    EntryAbove(p, e);
    OnlyEntry(p.entries, e);
    b := At(TipOf(p.t.journal), n);
    l := LogAt(e.address, b);
  }

  lemma EntryAbove(p: Late, e: Entry)
    requires IsLate(p) && e in p.entries && e.address in p.live && e.address in p.watched
    ensures Stand(p.s0.checkpoints, p.watched[e.address]) + 1 == Max(e.nextBlock, p.r.plan.value.from)
  {
    WrittenPass(p);
    SetUpStands(p.targets, p.s0.journal, p.s0.checkpoints, p.s.checkpoints, p.entries, p.req, p.watched, p.live, p.cfg.cutoff, p.r.plan.value.head);
  }

  /** The exact condition.  Whatever the ledger, the event table and the attempts, a batched pass leaves no event out
      if and only if no pair that it commits stands lower where the coordinator begins than where the set-up found it. */
  lemma NothingLeftOutIff(p: Late)
    requires IsLate(p) && Acknowledged(p) && InRange(p.s.checkpoints, p.watched, TipOf(p.s.journal))
    ensures (forall sc, rows :: Possible(sc, p, rows) ==> NothingMissing(sc, p))
      <==> NotSetBack(p.entries, p.r.chunks, p.watched, p.live, p.s0.checkpoints, p.s.checkpoints)
  {
    if NotSetBack(p.entries, p.r.chunks, p.watched, p.live, p.s0.checkpoints, p.s.checkpoints) {
      forall sc, rows | Possible(sc, p, rows) ensures NothingMissing(sc, p) {
        KeepsAll(sc, p, rows);
      }
    } else {
      var e :| e in p.entries && e.address in p.live && e.address in p.watched && e.nextBlock <= CommittedTo(p.r.chunks)
            && Stand(p.s.checkpoints, p.watched[e.address]) < Stand(p.s0.checkpoints, p.watched[e.address]);
      var sc, b := LeftOut(p, e);
      assert Possible(sc, p, map[]);
    }
  }
}
