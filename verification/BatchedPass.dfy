/** A batched pass as a whole: set-up, the coordinator's scan, its chunks, the checkpoints and
    the event table.  When a pass, a rollback or an admission is a piece of a run of the event table. */
module BatchedPass {
  import opened Blocks
  import opened ChainStore
  import opened CanonicalPass
  import opened ChunkLoop
  import opened CursorOrder
  import opened SwapBatch
  import opened BatchRefinement
  import opened BatchRequest
  import opened ListenerTiling
  import AncestorSearch
  import ReorgRepository
  import E = SwapEvents

  // ------------------------------------------------------------ the state of the event table's run

  /** A watched pair: the key of its checkpoint, and the block before it is watched. */
  datatype Watch = Watch(key: string, base: nat)

  /** By address. */
  type Watched = map<string, Watch>

  /** The last block committed for a pair. */
  function Stand(c: Checkpoints, w: Watch): nat {
    if w.key in c then c[w.key].number else w.base
  }

  function Stands(c: Checkpoints, watched: Watched): map<string, nat> {
    map a | a in watched :: Stand(c, watched[a])
  }

  function StateOf(tip: Block, c: Checkpoints, rows: E.Events, watched: Watched): E.State {
    E.State(tip, Bases(watched), Stands(c, watched), rows)
  }

  function Bases(watched: Watched): map<string, nat> {
    map a | a in watched :: watched[a].base
  }

  ghost predicate OneKeyEach(watched: Watched) {
    forall a, b :: a in watched && b in watched && watched[a].key == watched[b].key ==> a == b
  }

  // ------------------------------------------------------------ rollbacks, admissions and passes of others

  /** The pairs left when some are stopped. */
  function Remaining(watched: Watched, stopped: set<string>): Watched {
    map a | a in watched && a !in stopped :: watched[a]
  }

  /** A rollback is a rewinding step, and one that is already recorded is none.  The pairs first watched above the
      ancestor are among those it stops. */
  method RollBack(db: ReorgRepository.ChainDatabase, r: AncestorSearch.Reorg, watched: Watched, stopped: set<string>)
    returns (impact: Option<ReorgRepository.Impact>)
    requires db.Valid()
    requires r.ancestor.Some? ==> forall a :: a in watched && watched[a].base > Number(r.ancestor.value) ==> a in stopped
    requires r.ancestor.Some? ==> Number(r.ancestor.value) in db.store.journal && db.store.journal[Number(r.ancestor.value)] == r.ancestor.value
    modifies db, db.store`journal, db.store`checkpoints, db.events
    ensures db.Valid() && (impact.Some? ==> r.ancestor.Some?)
    ensures impact.None? || old(db.Recorded(r)) ==>
      StateOf(db.store.Tip(), db.store.checkpoints, db.events.rows, watched)
      == old(StateOf(db.store.Tip(), db.store.checkpoints, db.events.rows, watched))
    ensures impact.Some? && !old(db.Recorded(r)) ==>
      && (forall ledger :: E.Enabled(old(StateOf(db.store.Tip(), db.store.checkpoints, db.events.rows, watched)), E.Rewind(r.ancestor.value, stopped), ledger))
      && StateOf(db.store.Tip(), db.store.checkpoints, db.events.rows, Remaining(watched, stopped))
         == E.Apply(old(StateOf(db.store.Tip(), db.store.checkpoints, db.events.rows, watched)), E.Rewind(r.ancestor.value, stopped))
  {
    ghost var c := db.store.checkpoints;
    impact := db.RewindToAncestor(r);
    if impact.Some? {
      PulledDown(c, r.ancestor.value, watched, stopped);
    }
  }

  /** A pair is admitted from where its checkpoint stands, or from right below the first block of its own. */
  lemma AdmissionIsStep(tip: Block, c: Checkpoints, rows: E.Events, watched: Watched, a: string, w: Watch)
    requires a !in watched && w.base == Stand(c, w)
    ensures StateOf(tip, c, rows, watched[a := w]) == E.Apply(StateOf(tip, c, rows, watched), E.Admit(a, w.base))
  {
    assert Stands(c, watched[a := w]) == Stands(c, watched)[a := w.base];
    assert Bases(watched[a := w]) == Bases(watched)[a := w.base];
  }

  lemma PulledDown(c: Checkpoints, ancestor: Block, watched: Watched, stopped: set<string>)
    requires forall a :: a in watched && watched[a].base > Number(ancestor) ==> a in stopped
    ensures Stands(PullDown(c, ancestor), Remaining(watched, stopped)) == E.Lowered(E.Without(Stands(c, watched), stopped), Number(ancestor))
    ensures Bases(Remaining(watched, stopped)) == E.Without(Bases(watched), stopped)
  {
  }

  /** A pass of others only extends the chain. */
  lemma OtherPass(cfg: Config, p: Pass, s: Persisted, t: Persisted, rows: E.Events, watched: Watched)
    requires PassStep(p.result, cfg, p.req, p.world, s, t) && forall a :: a in watched ==> Foreign(p, watched[a].key)
    ensures StateOf(TipOf(t.journal), t.checkpoints, rows, watched)
         == E.Apply(StateOf(TipOf(s.journal), s.checkpoints, rows, watched), E.Extend(TipOf(t.journal)))
  {
    forall a | a in watched ensures SameAt(s.checkpoints, t.checkpoints, watched[a].key) {
      ForeignPass(cfg, p, s, t, watched[a].key);
    }
    SameStands(s.checkpoints, t.checkpoints, watched);
  }

  /** A pass that never got past the journal, whoever asked for it, hands out nothing: at most a torn persist has
      extended the chain. */
  lemma UnwrittenPassIsRun(cfg: Config, req: Request, w: World, r: PassResult, s: Persisted, t: Persisted, rows: E.Events,
                           watched: Watched, ledger: Ledger)
    requires PassStep(r, cfg, req, w, s, t) && !JournalWritten(r.end) && E.Proper(ledger, TipOf(t.journal))
    ensures var before, run := StateOf(TipOf(s.journal), s.checkpoints, rows, watched), [E.Extend(TipOf(t.journal))];
      && r.chunks == [] && E.Runs(before, run, ledger)
      && E.Final(before, run) == StateOf(TipOf(t.journal), t.checkpoints, rows, watched)
  {
    var before, run := StateOf(TipOf(s.journal), s.checkpoints, rows, watched), [E.Extend(TipOf(t.journal))];
    var states := [before, StateOf(TipOf(t.journal), t.checkpoints, rows, watched)];
    assert E.LeadsOn(states, run, 0) && E.EnabledIn(states, run, 0, ledger);
    E.TraceRuns(states, run, ledger);
  }

  lemma SameStands(c: Checkpoints, d: Checkpoints, watched: Watched)
    requires forall a :: a in watched ==> SameAt(c, d, watched[a].key)
    ensures Stands(d, watched) == Stands(c, watched)
  {
  }

  // ------------------------------------------------------------ one chunk of the batch

  /** One attempt at a chunk: who was listed, what was read, what the table met, how far it got. */
  datatype Attempt = Attempt(chunk: Chunk, entries: seq<Entry>, env: Env, raws: seq<Raw>, met: nat -> E.Circumstance, reach: nat, written: bool)

  ghost predicate Read(at: Attempt) {
    WellRead(at) && ReadFor(at.raws, Concerned(at.entries, at.chunk.to), at.env.read)
  }

  /** The logs were read from an honest provider. */
  ghost predicate IsAttempt(at: Attempt, ledger: Ledger, top: Block) {
    && at.chunk.from <= at.chunk.to <= Number(top) && DistinctEntries(at.entries)
    && GoodLedger(ledger, top) && Honest(at.env.read, ledger, top, at.chunk.from, at.chunk.to)
    && Read(at) && at.reach <= |Stream(at.entries, at.raws)|
  }

  predicate WellRead(at: Attempt) {
    forall i :: 0 <= i < |at.raws| ==> at.raws[i].Wellformed?
  }

  function StreamOf(at: Attempt): seq<RawLog> {
    if WellRead(at) then Stream(at.entries, at.raws) else []
  }

  function StepOf(at: Attempt): E.Step {
    E.Chunk(Addresses(Concerned(at.entries, at.chunk.to)), at.chunk.to, StreamOf(at), at.met, at.reach, at.written)
  }

  /** The pairs concerned are still those that were listed: their listeners have not been stopped since. */
  ghost predicate Active(entries: seq<Entry>, to: nat, live: set<string>) {
    Addresses(Concerned(entries, to)) <= live
  }

  /** Each listed pair that is still active is watched from below the first block that the scan has for it; and it
      stands no lower than right below that block, if the scan gets as far as `reached` with the pair concerned. */
  ghost predicate Standing(entries: seq<Entry>, base: map<string, nat>, cps: map<string, nat>, from: nat, reached: int, live: set<string>) {
    forall e :: e in entries && e.address in live ==>
      && e.address in base && e.address in cps && base[e.address] < Max(e.nextBlock, from)
      && (e.nextBlock <= reached ==> Max(e.nextBlock, from) <= cps[e.address] + 1)
  }

  lemma ConcernedMember(entries: seq<Entry>, to: nat, e: Entry)
    ensures e in Concerned(entries, to) <==> e in entries && e.nextBlock <= to
  {
    FilterMember(entries, (e: Entry) => e.nextBlock <= to, e);
  }

  /** What the stream holds for a pair is exactly its own logs. */
  lemma StreamServes(at: Attempt, ledger: Ledger, top: Block, e: Entry, lo: nat)
    requires IsAttempt(at, ledger, top) && e in at.entries && lo + 1 == Max(e.nextBlock, at.chunk.from)
    ensures E.Serves(Stream(at.entries, at.raws), ledger, top, e.address, lo, at.chunk.to)
  {
    ReadIsExact(at.raws, Concerned(at.entries, at.chunk.to), at.env.read, ledger, top, at.chunk.from, at.chunk.to);
    ShareOfStream(at.entries, at.chunk, at.raws, e, ledger, top);
    ServesOwn(Stream(at.entries, at.raws), ledger, top, e.address, lo, at.chunk.to);
  }

  lemma ServesOwn(stream: seq<RawLog>, ledger: Ledger, top: Block, address: string, lo: nat, to: nat)
    requires to <= Number(top) && GoodLedger(ledger, top)
    requires Filter(stream, For(address)) == OwnLogs(ledger, top, address, lo + 1, to)
    ensures E.Serves(stream, ledger, top, address, lo, to)
  {
    forall l ensures l in stream && l.address == address <==> E.IsOwn(ledger, top, l, address, lo, to) {
      FilterMember(stream, For(address), l);
      OwnMember(ledger, top, address, lo + 1, to, l);
    }
  }

  lemma StreamAddressed(at: Attempt, ledger: Ledger, top: Block)
    requires IsAttempt(at, ledger, top)
    ensures forall l :: l in Stream(at.entries, at.raws) ==> l.address in Addresses(Concerned(at.entries, at.chunk.to))
  {
    var concerned := Concerned(at.entries, at.chunk.to);
    ReadIsExact(at.raws, concerned, at.env.read, ledger, top, at.chunk.from, at.chunk.to);
    MergedIsStrict(at.raws, ledger, top, at.chunk.from, at.chunk.to, AddressList(concerned));
    forall l | l in Stream(at.entries, at.raws) ensures l.address in Addresses(concerned) {
      FilterMember(Sort(Distinct(at.raws), Key()), (l: RawLog) => Wanted(at.entries, l), l);
      var i :| 0 <= i < |concerned| && AddressList(concerned)[i] == l.address;
      assert concerned[i] in concerned;
    }
  }

  /** Whatever is handed out is a log of a pair concerned, and none that lies below where the scan has the pair. */
  lemma StreamMember(at: Attempt, ledger: Ledger, top: Block, m: RawLog) returns (f: Entry)
    requires IsAttempt(at, ledger, top) && m in Stream(at.entries, at.raws)
    ensures f in at.entries && f.address == m.address && f.nextBlock <= at.chunk.to
    ensures OnLedger(ledger, top, m) && Max(f.nextBlock, at.chunk.from) <= m.number
  {
    StreamAddressed(at, ledger, top);
    f :| f in Concerned(at.entries, at.chunk.to) && f.address == m.address;
    ConcernedMember(at.entries, at.chunk.to, f);
    if Max(f.nextBlock, at.chunk.from) > 0 {
      StreamServes(at, ledger, top, f, Max(f.nextBlock, at.chunk.from) - 1);
      assert E.IsOwn(ledger, top, m, f.address, Max(f.nextBlock, at.chunk.from) - 1, at.chunk.to);
    } else {
      StreamOnLedger(at, ledger, top, m);
    }
  }

  lemma StreamOnLedger(at: Attempt, ledger: Ledger, top: Block, m: RawLog)
    requires IsAttempt(at, ledger, top) && m in Stream(at.entries, at.raws)
    ensures OnLedger(ledger, top, m)
  {
    var concerned := Concerned(at.entries, at.chunk.to);
    ReadIsExact(at.raws, concerned, at.env.read, ledger, top, at.chunk.from, at.chunk.to);
    MergedIsStrict(at.raws, ledger, top, at.chunk.from, at.chunk.to, AddressList(concerned));
    FilterMember(Sort(Distinct(at.raws), Key()), (l: RawLog) => Wanted(at.entries, l), m);
  }

  /** An attempt at a chunk is a step of the event table's run, however far it gets. */
  lemma AttemptIsStep(at: Attempt, s: E.State, ledger: Ledger, reached: int, live: set<string>)
    requires IsAttempt(at, ledger, s.tip) && Active(at.entries, at.chunk.to, live)
    requires Standing(at.entries, s.base, s.cps, at.chunk.from, reached, live) && (E.Commits(s.rows, StepOf(at)) ==> at.chunk.to <= reached)
    ensures E.Enabled(s, StepOf(at), ledger)
  {
    StreamAddressed(at, ledger, s.tip);
    forall p | p in Addresses(Concerned(at.entries, at.chunk.to)) ensures E.ServesPair(s, StepOf(at), ledger, p) {
      var e :| e in Concerned(at.entries, at.chunk.to) && e.address == p;
      ConcernedMember(at.entries, at.chunk.to, e);
      var lo := Max(e.nextBlock, at.chunk.from) - 1;
      StreamServes(at, ledger, s.tip, e, lo);
      assert E.ServesFrom(s, StepOf(at), ledger, p, lo);
    }
  }

  /** After a completed chunk the pairs stand no lower than right below the next one. */
  lemma StandingNext(entries: seq<Entry>, base: map<string, nat>, cps: map<string, nat>, from: nat, to: nat, reached: int, live: set<string>)
    requires from <= to && Standing(entries, base, cps, from, reached, live) && DistinctEntries(entries)
    ensures Standing(Advanced(entries, to), base, E.MovedTo(cps, Addresses(Concerned(entries, to)), to), to + 1, reached, live)
  {
    var after, now := Advanced(entries, to), E.MovedTo(cps, Addresses(Concerned(entries, to)), to);
    forall f | f in after && f.address in live
      ensures f.address in base && f.address in now && base[f.address] < Max(f.nextBlock, to + 1)
      ensures f.nextBlock <= reached ==> Max(f.nextBlock, to + 1) <= now[f.address] + 1
    {
      var i :| 0 <= i < |after| && after[i] == f;
      ConcernedAddresses(entries, i, to);
      assert entries[i] in entries;
    }
  }

  lemma ConcernedAddresses(entries: seq<Entry>, i: nat, to: nat)
    requires i < |entries| && DistinctEntries(entries)
    ensures entries[i].address in Addresses(Concerned(entries, to)) <==> entries[i].nextBlock <= to
  {
    ConcernedMember(entries, to, entries[i]);
    if entries[i].address in Addresses(Concerned(entries, to)) {
      var g :| g in Concerned(entries, to) && g.address == entries[i].address;
      ConcernedMember(entries, to, g);
      OnlyEntry(entries, entries[i]);
    }
  }

  /** The listed pairs that are still active are watched, under their own keys. */
  ghost predicate Listed(entries: seq<Entry>, watched: Watched, live: set<string>) {
    forall e :: e in entries && e.address in live ==> e.address in watched && watched[e.address].key == e.key
  }

  /** Writing the checkpoints of the pairs concerned moves exactly those pairs. */
  lemma WrittenMoves(entries: seq<Entry>, to: nat, c: Checkpoints, cp: Checkpoint, watched: Watched, live: set<string>)
    requires Listed(entries, watched, live) && Active(entries, to, live) && OneKeyEach(watched) && cp.number == to
    ensures Stands(SetAll(c, Keys(Concerned(entries, to)), cp), watched) == E.MovedTo(Stands(c, watched), Addresses(Concerned(entries, to)), to)
  {
    var concerned := Concerned(entries, to);
    forall a | a in watched ensures watched[a].key in Keys(concerned) <==> a in Addresses(concerned) {
      if watched[a].key in Keys(concerned) {
        var e :| e in concerned && e.key == watched[a].key;
        ConcernedMember(entries, to, e);
        assert e.address in Addresses(concerned);
      }
      if a in Addresses(concerned) {
        var e :| e in concerned && e.address == a;
        ConcernedMember(entries, to, e);
      }
    }
  }

  /** What the shared scan reports as done is such an attempt, if the listener's answers are the event table's. */
  lemma DoneIsCommitted(at: Attempt, rows: E.Events)
    requires Concerned(at.entries, at.chunk.to) != [] && Delivered(at.entries, at.chunk, at.env, StreamOf(at), at.raws)
    requires AllTaken(at.entries, at.chunk, at.env, StreamOf(at)) && at.reach == |StreamOf(at)| && at.written == at.env.writeOk
    requires forall i :: 0 <= i < |StreamOf(at)| ==> (at.env.accept(i) == Some(true) <==> E.AcceptedAt(rows, StreamOf(at), i, at.met))
    ensures Read(at) && E.Commits(rows, StepOf(at))
  {
  }

  // ------------------------------------------------------------ the whole pass

  /** A pass of the batch as the event table sees it: the attempts made, the states between them, and
      what the coordinator was told.  `start` are the checkpoints that the pass found; `live` are the listed
      pairs whose listeners have not been stopped since the set-up. */
  datatype Scan = Scan(ats: seq<Attempt>, states: seq<E.State>, chunks: seq<Chunk>, world: World, req: Request, entries: seq<Entry>,
                       from: nat, size: nat, ledger: Ledger, start: Checkpoints, watched: Watched, live: set<string>)

  /** Who is listed for which blocks before the `k`-th chunk. */
  function EntriesAt(entries: seq<Entry>, chunks: seq<Chunk>, k: nat): seq<Entry>
    requires k <= |chunks|
  {
    if k == 0 then entries else Advanced(EntriesAt(entries, chunks, k - 1), chunks[k - 1].to)
  }

  function FromAt(from: nat, chunks: seq<Chunk>, k: nat): nat
    requires k <= |chunks|
  {
    if k == 0 then from else chunks[k - 1].to + 1
  }

  /** The end of the last chunk that went through. */
  function CommittedTo(chunks: seq<Chunk>): int {
    if chunks == [] then -1 else chunks[|chunks| - 1].to
  }

  predicate Fitting(sc: Scan) {
    |sc.states| == |sc.ats| + 1 && |sc.chunks| <= |sc.ats| <= |sc.chunks| + 1
  }

  /** Attempt `k` is on the blocks after those of the one before, for pairs that are still active. */
  ghost predicate AttemptAt(sc: Scan, k: nat)
    requires Fitting(sc) && k < |sc.ats|
  {
    && IsAttempt(sc.ats[k], sc.ledger, sc.states[0].tip) && Active(sc.ats[k].entries, sc.ats[k].chunk.to, sc.live)
    && sc.ats[k].entries == EntriesAt(sc.entries, sc.chunks, k) && sc.ats[k].chunk.from == FromAt(sc.from, sc.chunks, k)
  }

  predicate MovesAt(sc: Scan, k: nat)
    requires Fitting(sc) && k < |sc.ats|
  {
    sc.states[k + 1] == E.Apply(sc.states[k], StepOf(sc.ats[k]))
  }

  /** The attempts that went through are the chunks that the coordinator was told of. */
  predicate ToldAt(sc: Scan, k: nat)
    requires Fitting(sc) && k < |sc.ats|
  {
    && (E.Commits(sc.states[k].rows, StepOf(sc.ats[k])) <==> k < |sc.chunks|)
    && (k < |sc.chunks| ==> sc.ats[k].chunk == sc.chunks[k]
                            && sc.world.outcome(k) == Ack(Keys(Concerned(sc.ats[k].entries, sc.chunks[k].to))))
  }

  ghost predicate Good(sc: Scan) {
    && Fitting(sc) && (forall k :: 0 <= k < |sc.ats| ==> AttemptAt(sc, k) && MovesAt(sc, k) && ToldAt(sc, k))
    && Tiles(sc.chunks, sc.from, sc.size, sc.states[0].tip) && !sc.req.persist
    && Listed(sc.entries, sc.watched, sc.live) && OneKeyEach(sc.watched)
    && sc.states[0].base == Bases(sc.watched) && sc.states[0].cps == Stands(sc.start, sc.watched)
  }

  /** Where the scan starts, no pair that it goes on to commit has been set back below what it was listed for. */
  ghost predicate GoodStart(sc: Scan)
    requires Fitting(sc)
  {
    Standing(sc.entries, sc.states[0].base, sc.states[0].cps, sc.from, CommittedTo(sc.chunks), sc.live)
  }

  function CheckpointsAfter(sc: Scan, k: nat): Checkpoints {
    AfterChunks(sc.start, sc.req, sc.chunks[..Min(k, |sc.chunks|)], sc.world)
  }

  /** Where the run of the event table stands after `k` attempts. */
  ghost predicate Along(sc: Scan, k: nat, c: Checkpoints)
    requires Fitting(sc) && k <= |sc.ats|
  {
    && sc.states[k].tip == sc.states[0].tip && sc.states[k].base == sc.states[0].base
    && sc.states[k].cps == Stands(c, sc.watched)
  }

  ghost predicate StandingAt(sc: Scan, k: nat)
    requires Fitting(sc) && k <= |sc.ats|
  {
    k <= |sc.chunks| ==>
      Standing(EntriesAt(sc.entries, sc.chunks, k), sc.states[k].base, sc.states[k].cps, FromAt(sc.from, sc.chunks, k), CommittedTo(sc.chunks), sc.live)
  }

  ghost predicate EnabledAt(sc: Scan, k: nat)
    requires Fitting(sc) && k < |sc.ats|
  {
    E.Enabled(sc.states[k], StepOf(sc.ats[k]), sc.ledger)
  }

  lemma {:induction false} ListedAt(entries: seq<Entry>, chunks: seq<Chunk>, k: nat, watched: Watched, live: set<string>)
    requires k <= |chunks| && Listed(entries, watched, live)
    ensures Listed(EntriesAt(entries, chunks, k), watched, live)
  {
    if k > 0 {
      ListedAt(entries, chunks, k - 1, watched, live);
      AdvancedListed(EntriesAt(entries, chunks, k - 1), chunks[k - 1].to, watched, live);
    }
  }

  lemma AdvancedListed(before: seq<Entry>, to: nat, watched: Watched, live: set<string>)
    requires Listed(before, watched, live)
    ensures Listed(Advanced(before, to), watched, live)
  {
    var after := Advanced(before, to);
    forall e | e in after && e.address in live ensures e.address in watched && watched[e.address].key == e.key {
      var i :| 0 <= i < |after| && after[i] == e;
      assert before[i] in before;
    }
  }

  /** The checkpoints after one more chunk of the batch. */
  lemma AfterNext(c: Checkpoints, req: Request, chunks: seq<Chunk>, w: World, n: nat, keys: set<string>)
    requires n < |chunks| && !req.persist && chunks[n].headers != [] && w.outcome(n) == Ack(keys)
    ensures AfterChunks(c, req, chunks[..n + 1], w) == SetAll(AfterChunks(c, req, chunks[..n], w), keys, ChunkCheckpoint(chunks[n]))
  {
    assert chunks[..n + 1][..n] == chunks[..n] && chunks[..n + 1][n] == chunks[n];
  }

  /** A chunk that went through writes the checkpoints of the pairs that it commits. */
  lemma CommittedAlong(sc: Scan, n: nat, entries: seq<Entry>, c: Checkpoints, d: Checkpoints, cp: Checkpoint)
    requires Fitting(sc) && n < |sc.ats| && MovesAt(sc, n) && Along(sc, n, c) && sc.ats[n].entries == entries
    requires E.Commits(sc.states[n].rows, StepOf(sc.ats[n])) && cp.number == sc.ats[n].chunk.to
    requires Listed(entries, sc.watched, sc.live) && Active(entries, sc.ats[n].chunk.to, sc.live) && OneKeyEach(sc.watched)
    requires d == SetAll(c, Keys(Concerned(entries, sc.ats[n].chunk.to)), cp)
    ensures Along(sc, n + 1, d)
  {
    WrittenMoves(entries, sc.ats[n].chunk.to, c, cp, sc.watched, sc.live);
  }

  /** One that did not leaves them. */
  lemma FailedAlong(sc: Scan, n: nat, c: Checkpoints)
    requires Fitting(sc) && n < |sc.ats| && MovesAt(sc, n) && Along(sc, n, c) && !E.Commits(sc.states[n].rows, StepOf(sc.ats[n]))
    ensures Along(sc, n + 1, c)
  {
  }

  lemma NextAlong(sc: Scan, n: nat)
    requires Good(sc) && n < |sc.ats| && Along(sc, n, CheckpointsAfter(sc, n))
    ensures Along(sc, n + 1, CheckpointsAfter(sc, n + 1))
  {
    assert AttemptAt(sc, n) && MovesAt(sc, n) && ToldAt(sc, n);
    if n < |sc.chunks| {
      assert Tile(sc.chunks, n, sc.from, sc.size, sc.states[0].tip);
      ListedAt(sc.entries, sc.chunks, n, sc.watched, sc.live);
      AfterNext(sc.start, sc.req, sc.chunks, sc.world, n, Keys(Concerned(sc.ats[n].entries, sc.chunks[n].to)));
      CommittedAlong(sc, n, sc.ats[n].entries, CheckpointsAfter(sc, n), CheckpointsAfter(sc, n + 1), ChunkCheckpoint(sc.chunks[n]));
    } else {
      FailedAlong(sc, n, CheckpointsAfter(sc, n));
    }
  }

  /** The attempts of a pass leave the checkpoints that its chunks leave. */
  lemma {:induction false} AttemptsMove(sc: Scan, k: nat)
    requires Good(sc) && k <= |sc.ats|
    ensures Along(sc, k, CheckpointsAfter(sc, k))
  {
    if k > 0 {
      AttemptsMove(sc, k - 1);
      NextAlong(sc, k - 1);
    } else {
      assert sc.chunks[..0] == [];
    }
  }

  /** No chunk that went through ends above the last one. */
  lemma WithinCommitted(chunks: seq<Chunk>, n: nat, from: nat, size: nat, top: Block)
    requires Tiles(chunks, from, size, top) && n < |chunks|
    ensures chunks[n].from <= chunks[n].to <= CommittedTo(chunks)
  {
    assert Tile(chunks, n, from, size, top);
    assert Tile(chunks, |chunks| - 1, from, size, top);
    TilesAscend(chunks, n, |chunks| - 1, from, size, top);
  }

  lemma NextStanding(sc: Scan, n: nat)
    requires Good(sc) && n < |sc.chunks| && StandingAt(sc, n)
    ensures StandingAt(sc, n + 1)
  {
    assert AttemptAt(sc, n) && MovesAt(sc, n) && ToldAt(sc, n);
    WithinCommitted(sc.chunks, n, sc.from, sc.size, sc.states[0].tip);
    StandingNext(sc.ats[n].entries, sc.states[n].base, sc.states[n].cps, sc.ats[n].chunk.from, sc.ats[n].chunk.to, CommittedTo(sc.chunks), sc.live);
  }

  lemma NextEnabled(sc: Scan, n: nat)
    requires Good(sc) && n < |sc.ats| && StandingAt(sc, n) && sc.states[n].tip == sc.states[0].tip
    ensures EnabledAt(sc, n)
  {
    assert AttemptAt(sc, n) && ToldAt(sc, n);
    if n < |sc.chunks| {
      WithinCommitted(sc.chunks, n, sc.from, sc.size, sc.states[0].tip);
    }
    AttemptIsStep(sc.ats[n], sc.states[n], sc.ledger, CommittedTo(sc.chunks), sc.live);
  }

  lemma FirstStanding(sc: Scan)
    requires Fitting(sc) && GoodStart(sc)
    ensures StandingAt(sc, 0)
  {
  }

  lemma {:induction false} Reaches(ok: nat -> bool, k: nat)
    requires ok(0) && forall n: nat :: n < k && ok(n) ==> ok(n + 1)
    ensures ok(k)
  {
    if k > 0 {
      Reaches(ok, k - 1);
    }
  }

  lemma KeepsStanding(sc: Scan, k: nat)
    requires Good(sc) && GoodStart(sc) && k <= |sc.chunks|
    ensures StandingAt(sc, k)
  {
    ghost var ok := (n: nat) => n <= |sc.chunks| && StandingAt(sc, n);
    FirstStanding(sc);
    forall n: nat | n < k && ok(n) ensures ok(n + 1) {
      NextStanding(sc, n);
    }
    Reaches(ok, k);
  }

  /** The attempts of a pass are steps of the event table's run. */
  lemma AttemptsAreSteps(sc: Scan, k: nat)
    requires Good(sc) && GoodStart(sc) && k < |sc.ats|
    ensures EnabledAt(sc, k)
  {
    AttemptsMove(sc, k);
    KeepsStanding(sc, k);
    NextEnabled(sc, k);
  }

  // ------------------------------------------------------------ from the set-up to the end

  /** Each listed pair that is still active is watched, from no higher than its checkpoint stood at the set-up, or
      without one from where its scan can begin. */
  ghost predicate Watches(watched: Watched, targets: seq<Target>, live: set<string>, c: Checkpoints, cutoff: Block) {
    && OneKeyEach(watched)
    && forall t :: t in targets && t.capable && t.address in live ==>
         && t.address in watched && watched[t.address].key == t.key
         && if t.key in c then watched[t.address].base <= c[t.key].number else watched[t.address].base == Max(t.created, Number(cutoff) + 1) - 1
  }

  lemma SetUpLists(targets: seq<Target>, c: Checkpoints, entries: seq<Entry>, req: Request, watched: Watched, live: set<string>, cutoff: Block)
    requires IsReady(targets, c, entries, req) && Watches(watched, targets, live, c, cutoff)
    ensures Listed(entries, watched, live)
  {
    forall e | e in entries && e.address in live ensures e.address in watched && watched[e.address].key == e.key {
      var t :| t in targets && t.capable && e == EntryOf(t, c);
    }
  }

  /** At the set-up every pair stands right below the first block that the shared scan has for it; `d` are the
      checkpoints, whatever they are by then, that the coordinator's pass finds. */
  lemma SetUpStands(targets: seq<Target>, j: Journal, c: Checkpoints, d: Checkpoints, entries: seq<Entry>, req: Request,
                    watched: Watched, live: set<string>, cutoff: Block, head: nat)
    requires IsReady(targets, c, entries, req) && Watches(watched, targets, live, c, cutoff) && Consistent(j, c, cutoff)
    ensures var from := FromBlock(cutoff, req, Effective(cutoff, Chosen(req, d)), head);
      forall e :: e in entries && e.address in live ==>
        e.address in watched && watched[e.address].base <= Stand(c, watched[e.address]) && Stand(c, watched[e.address]) + 1 == Max(e.nextBlock, from)
  {
    var from := FromBlock(cutoff, req, Effective(cutoff, Chosen(req, d)), head);
    forall e | e in entries && e.address in live
      ensures e.address in watched && watched[e.address].base <= Stand(c, watched[e.address]) && Stand(c, watched[e.address]) + 1 == Max(e.nextBlock, from)
    {
      var t :| t in targets && t.capable && e == EntryOf(t, c);
      StartsWhereTheyStart(cutoff, entries, req, d, head, e);
    }
  }

  /** No pair that the pass went on to commit stands lower in `d`, where the coordinator's pass begins, than in `c`,
      where the set-up read the checkpoints. */
  ghost predicate NotSetBack(entries: seq<Entry>, chunks: seq<Chunk>, watched: Watched, live: set<string>, c: Checkpoints, d: Checkpoints) {
    forall e :: e in entries && e.address in live && e.address in watched && e.nextBlock <= CommittedTo(chunks) ==>
      Stand(c, watched[e.address]) <= Stand(d, watched[e.address])
  }

  /** The shared request never needs the cutoff anchor. */
  lemma SharedNeedsNoAnchor(targets: seq<Target>, j: Journal, c: Checkpoints, d: Checkpoints, entries: seq<Entry>, req: Request, cutoff: Block)
    requires IsReady(targets, c, entries, req) && Consistent(j, c, cutoff)
    ensures !NeedsCutoffAnchor(cutoff, Chosen(req, d))
  {
    if req.checkpoint.Some? {
      var e :| e in entries && Candidate(e, req.startBlock) && e.checkpoint == req.checkpoint;
      var t :| t in targets && t.capable && e == EntryOf(t, c);
    }
  }

  lemma BatchMoves(p: Plan, chunks: seq<Chunk>, req: Request, w: World, cutoff: Block, c: Checkpoints, d: Checkpoints)
    requires CheckpointsMoved(p, chunks, req, w, cutoff, c, d) && !p.needsAnchor && !req.persist
    ensures d == AfterChunks(c, req, chunks, w)
  {
    var legacy, anchored :| MovedBy(p, chunks, req, w, cutoff, c, d, legacy, anchored);
  }

  /** A pass of the batch that got past the journal: `s0` is the state in which the set-up read the checkpoints, `s` the
      one in which the coordinator gets round to the request. */
  datatype Late = Late(cfg: Config, targets: seq<Target>, entries: seq<Entry>, req: Request, w: World, r: PassResult,
                       s0: Persisted, s: Persisted, t: Persisted, watched: Watched, live: set<string>)

  ghost predicate IsLate(p: Late) {
    && PassStep(p.r, p.cfg, p.req, p.w, p.s, p.t) && JournalWritten(p.r.end) && p.r.plan.Some?
    && Consistent(p.s0.journal, p.s0.checkpoints, p.cfg.cutoff) && IsReady(p.targets, p.s0.checkpoints, p.entries, p.req)
    && Watches(p.watched, p.targets, p.live, p.s0.checkpoints, p.cfg.cutoff)
  }

  /** A written pass: what its plan, its chunks and its checkpoints are. */
  lemma WrittenPass(p: Late)
    requires IsLate(p)
    ensures Tiles(p.r.chunks, p.r.plan.value.from, p.cfg.chunkSize, TipOf(p.t.journal))
    ensures p.t.checkpoints == AfterChunks(p.s.checkpoints, p.req, p.r.chunks, p.w)
    ensures p.r.plan.value.from == FromBlock(p.cfg.cutoff, p.req, Effective(p.cfg.cutoff, Chosen(p.req, p.s.checkpoints)), p.r.plan.value.head)
    ensures p.r.plan.value.head == Number(TipOf(p.t.journal)) && ReachesHead(p.r.plan.value, p.r.end, p.r.chunks, p.w)
  {
    SharedNeedsNoAnchor(p.targets, p.s0.journal, p.s0.checkpoints, p.s.checkpoints, p.entries, p.req, p.cfg.cutoff);
    BatchMoves(p.r.plan.value, p.r.chunks, p.req, p.w, p.cfg.cutoff, p.s.checkpoints, p.t.checkpoints);
  }

  /** The scan belongs to this pass. */
  ghost predicate ScanOf(sc: Scan, p: Late, rows: E.Events)
    requires p.t.journal != map[] && p.r.plan.Some?
  {
    && Fitting(sc) && (forall k :: 0 <= k < |sc.ats| ==> AttemptAt(sc, k) && MovesAt(sc, k) && ToldAt(sc, k))
    && sc.chunks == p.r.chunks && sc.world == p.w && sc.req == p.req && sc.entries == p.entries && sc.start == p.s.checkpoints
    && sc.from == p.r.plan.value.from && sc.size == p.cfg.chunkSize && sc.watched == p.watched && sc.live == p.live
    && sc.states[0] == StateOf(TipOf(p.t.journal), p.s.checkpoints, rows, p.watched)
  }

  lemma ScanIsGood(sc: Scan, p: Late, rows: E.Events)
    requires IsLate(p) && ScanOf(sc, p, rows)
    ensures Good(sc)
  {
    WrittenPass(p);
    SetUpLists(p.targets, p.s0.checkpoints, p.entries, p.req, p.watched, p.live, p.cfg.cutoff);
  }

  lemma StartIsGood(sc: Scan, p: Late, rows: E.Events)
    requires IsLate(p) && ScanOf(sc, p, rows) && NotSetBack(p.entries, p.r.chunks, p.watched, p.live, p.s0.checkpoints, p.s.checkpoints)
    ensures GoodStart(sc)
  {
    WrittenPass(p);
    SetUpStands(p.targets, p.s0.journal, p.s0.checkpoints, p.s.checkpoints, p.entries, p.req, p.watched, p.live, p.cfg.cutoff, p.r.plan.value.head);
  }

  /** The run of the event table that the pass is: the chain is extended, then come the attempts. */
  function RunOf(sc: Scan, top: Block): (run: seq<E.Step>)
    ensures |run| == |sc.ats| + 1 && run[0] == E.Extend(top) && forall k :: 0 <= k < |sc.ats| ==> run[k + 1] == StepOf(sc.ats[k])
  {
    seq(|sc.ats| + 1, k requires 0 <= k <= |sc.ats| => if k == 0 then E.Extend(top) else StepOf(sc.ats[k - 1]))
  }

  lemma StepInRun(sc: Scan, before: E.State, top: Block, k: nat)
    requires Fitting(sc) && k <= |sc.ats| && E.Apply(before, E.Extend(top)) == sc.states[0] && (k > 0 ==> MovesAt(sc, k - 1))
    ensures E.LeadsOn([before] + sc.states, RunOf(sc, top), k)
  {
  }

  lemma StepEnabled(sc: Scan, before: E.State, top: Block, k: nat)
    requires Fitting(sc) && k <= |sc.ats| && E.Enabled(before, E.Extend(top), sc.ledger) && (k > 0 ==> EnabledAt(sc, k - 1))
    ensures E.EnabledIn([before] + sc.states, RunOf(sc, top), k, sc.ledger)
  {
    if k > 0 {
      assert RunOf(sc, top)[k] == StepOf(sc.ats[k - 1]);
    }
  }

  lemma RunStates(sc: Scan, before: E.State, top: Block, k: nat)
    requires Fitting(sc) && k <= |sc.ats| && E.Apply(before, E.Extend(top)) == sc.states[0] && forall i :: 0 <= i < |sc.ats| ==> MovesAt(sc, i)
    ensures E.StateAt(before, RunOf(sc, top), k + 1) == sc.states[k]
  {
    var states, run := [before] + sc.states, RunOf(sc, top);
    forall n | 0 <= n < |run| ensures E.LeadsOn(states, run, n) {
      StepInRun(sc, before, top, n);
    }
    E.TraceIsRun(states, run, k + 1);
  }

  lemma StepsAreRun(sc: Scan, before: E.State, top: Block)
    requires Fitting(sc) && E.Apply(before, E.Extend(top)) == sc.states[0] && E.Enabled(before, E.Extend(top), sc.ledger)
    requires forall i :: 0 <= i < |sc.ats| ==> MovesAt(sc, i) && EnabledAt(sc, i)
    ensures E.Runs(before, RunOf(sc, top), sc.ledger) && E.Final(before, RunOf(sc, top)) == sc.states[|sc.ats|]
  {
    var states, run := [before] + sc.states, RunOf(sc, top);
    forall k | 0 <= k < |run| ensures E.LeadsOn(states, run, k) && E.EnabledIn(states, run, k, sc.ledger) {
      StepInRun(sc, before, top, k);
      StepEnabled(sc, before, top, k);
    }
    E.TraceRuns(states, run, sc.ledger);
  }

  /** The state in which a pass leaves the event table. */
  lemma ScanEnds(sc: Scan, p: Late, rows: E.Events)
    requires IsLate(p) && ScanOf(sc, p, rows)
    ensures sc.states[|sc.ats|] == StateOf(TipOf(p.t.journal), p.t.checkpoints, sc.states[|sc.ats|].rows, p.watched)
  {
    ScanIsGood(sc, p, rows);
    WrittenPass(p);
    AttemptsMove(sc, |sc.ats|);
    assert sc.chunks[..|sc.chunks|] == sc.chunks;
  }

  /** A batched pass as a whole is a run of the event table that ends where the pass leaves the chain and
      the checkpoints, whatever chunks went through and however the last attempt ended, and however long the request
      waited after its set-up: unless a pair that it commits was set back meanwhile. */
  lemma BatchedPassIsRun(sc: Scan, p: Late, rows: E.Events)
    requires IsLate(p) && ScanOf(sc, p, rows) && E.Proper(sc.ledger, TipOf(p.t.journal))
    requires NotSetBack(p.entries, p.r.chunks, p.watched, p.live, p.s0.checkpoints, p.s.checkpoints)
    ensures var before, run := StateOf(TipOf(p.s.journal), p.s.checkpoints, rows, p.watched), RunOf(sc, TipOf(p.t.journal));
      && E.Runs(before, run, sc.ledger)
      && E.Final(before, run) == StateOf(TipOf(p.t.journal), p.t.checkpoints, sc.states[|sc.ats|].rows, p.watched)
  {
    ScanIsGood(sc, p, rows);
    StartIsGood(sc, p, rows);
    ScanEnds(sc, p, rows);
    forall i | 0 <= i < |sc.ats| ensures MovesAt(sc, i) && EnabledAt(sc, i) {
      AttemptsAreSteps(sc, i);
    }
    StepsAreRun(sc, StateOf(TipOf(p.s.journal), p.s.checkpoints, rows, p.watched), TipOf(p.t.journal));
  }

  // ------------------------------------------------------------ when a pair has caught up

  /** A listed pair stays listed; once a chunk has concerned it, it waits for the next block. */
  lemma {:induction false} StaysListed(entries: seq<Entry>, chunks: seq<Chunk>, from: nat, k: nat, e: Entry) returns (f: Entry)
    requires k <= |chunks| && e in entries && forall i :: 0 <= i < k ==> FromAt(from, chunks, i) <= chunks[i].to
    ensures f in EntriesAt(entries, chunks, k) && f.address == e.address
    ensures f.nextBlock == e.nextBlock || f.nextBlock <= FromAt(from, chunks, k)
  {
    if k == 0 {
      f := e;
    } else {
      var g := StaysListed(entries, chunks, from, k - 1, e);
      f := AdvancedEntry(EntriesAt(entries, chunks, k - 1), chunks[k - 1].to, g);
    }
  }

  lemma AdvancedEntry(before: seq<Entry>, to: nat, g: Entry) returns (f: Entry)
    requires g in before
    ensures f in Advanced(before, to) && f.address == g.address
    ensures f.nextBlock == if g.nextBlock <= to then to + 1 else g.nextBlock
  {
    var i :| 0 <= i < |before| && before[i] == g;
    f := Advanced(before, to)[i];
  }

  /** The last chunk concerns every pair listed up to its end. */
  lemma LastConcerns(sc: Scan, e: Entry)
    requires Good(sc) && sc.chunks != [] && e in sc.entries && e.nextBlock <= CommittedTo(sc.chunks)
    ensures e.address in StepOf(sc.ats[|sc.chunks| - 1]).pairs
  {
    var n := |sc.chunks| - 1;
    forall i | 0 <= i <= n ensures FromAt(sc.from, sc.chunks, i) <= sc.chunks[i].to {
      assert AttemptAt(sc, i) && ToldAt(sc, i);
    }
    assert AttemptAt(sc, n) && ToldAt(sc, n);
    var f := StaysListed(sc.entries, sc.chunks, sc.from, n, e);
    ConcernedMember(sc.ats[n].entries, sc.ats[n].chunk.to, f);
  }

  lemma LastCommit(sc: Scan, e: Entry)
    requires Good(sc) && sc.chunks != [] && e in sc.entries && e.nextBlock <= CommittedTo(sc.chunks)
    ensures var k := |sc.chunks| - 1;
      && MovesAt(sc, k) && E.Commits(sc.states[k].rows, StepOf(sc.ats[k]))
      && e.address in StepOf(sc.ats[k]).pairs && StepOf(sc.ats[k]).to == CommittedTo(sc.chunks)
  {
    LastConcerns(sc, e);
    assert MovesAt(sc, |sc.chunks| - 1) && ToldAt(sc, |sc.chunks| - 1);
  }

  lemma WatchedAt(sc: Scan, k: nat)
    requires Good(sc) && k <= |sc.ats|
    ensures sc.states[k].tip == sc.states[0].tip && sc.states[k].cps.Keys == sc.watched.Keys
  {
    AttemptsMove(sc, k);
  }

  lemma GoodMoves(sc: Scan)
    requires Good(sc)
    ensures forall k :: 0 <= k < |sc.ats| ==> MovesAt(sc, k) && ToldAt(sc, k)
  {
  }

  /** After a pass that was finished without being stopped every pair listed up to the head has caught up. */
  lemma BatchCatchesUp(sc: Scan, p: Late, rows: E.Events, e: Entry)
    requires IsLate(p) && p.r.end.Finished? && ScanOf(sc, p, rows)
    requires !p.w.outcome(|p.r.chunks|).Stop? && p.r.plan.value.from <= Number(TipOf(p.t.journal))
    requires e in p.entries && e.nextBlock <= Number(TipOf(p.t.journal))
    ensures E.CaughtUp(StateOf(TipOf(p.s.journal), p.s.checkpoints, rows, p.watched), RunOf(sc, TipOf(p.t.journal)), e.address)
  {
    WrittenPass(p);
    ScanIsGood(sc, p, rows);
    GoodCatchesUp(sc, StateOf(TipOf(p.s.journal), p.s.checkpoints, rows, p.watched), TipOf(p.t.journal), e);
  }

  lemma GoodCatchesUp(sc: Scan, before: E.State, top: Block, e: Entry)
    requires Good(sc) && sc.chunks != [] && e in sc.entries && e.nextBlock <= CommittedTo(sc.chunks) == Number(top)
    requires E.Apply(before, E.Extend(top)) == sc.states[0]
    ensures E.CaughtUp(before, RunOf(sc, top), e.address)
  {
    LastCommit(sc, e);
    WatchedAt(sc, |sc.chunks| - 1);
    GoodMoves(sc);
    LastCatchesUp(sc, before, top, e.address);
  }

  lemma LastCatchesUp(sc: Scan, before: E.State, top: Block, pair: string)
    requires Fitting(sc) && sc.chunks != [] && E.Apply(before, E.Extend(top)) == sc.states[0]
    requires forall k :: 0 <= k < |sc.ats| ==> MovesAt(sc, k) && ToldAt(sc, k)
    requires sc.states[|sc.chunks| - 1].tip == top && CommittedTo(sc.chunks) == Number(top) && pair in StepOf(sc.ats[|sc.chunks| - 1]).pairs
    ensures E.CaughtUp(before, RunOf(sc, top), pair)
  {
    var run, n := RunOf(sc, top), |sc.chunks| - 1;
    assert ToldAt(sc, n);
    RunStates(sc, before, top, n);
    assert run[n + 1] == StepOf(sc.ats[n]);
    forall i | n + 1 < i < |run| ensures E.Spares(before, run, pair, Number(top), i) {
      SparesAfter(sc, before, top, pair, i);
    }
    assert E.CaughtUpAt(before, run, pair, n + 1);
  }

  lemma SparesAfter(sc: Scan, before: E.State, top: Block, pair: string, i: nat)
    requires Fitting(sc) && |sc.chunks| < i <= |sc.ats| && E.Apply(before, E.Extend(top)) == sc.states[0]
    requires (forall k :: 0 <= k < |sc.ats| ==> MovesAt(sc, k)) && ToldAt(sc, i - 1)
    ensures E.Spares(before, RunOf(sc, top), pair, Number(top), i)
  {
    RunStates(sc, before, top, i - 1);
    assert RunOf(sc, top)[i] == StepOf(sc.ats[i - 1]);
  }
}
