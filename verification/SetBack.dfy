/** A run from a fresh start in which a batched pass leaves an event out: after its set-up a re-organisation
    sets one of its pairs back, and the replay does not bring the pair back to where it was. */
module SetBack {
  import opened Blocks
  import opened ChainStore
  import opened CanonicalPass
  import opened ChunkLoop
  import opened CursorOrder
  import opened HonestPasses
  import opened ListenerTiling
  import opened SwapBatch
  import opened BatchRequest
  import opened BatchedPass
  import opened LateBatch
  import GapRun
  import AncestorSearch
  import ReorgRepository
  import E = SwapEvents

  /** Two pairs created before the cutoff; `x` and `y` follow the cutoff, and `z` follows `y`. */
  datatype Scene = Scene(first: Target, second: Target, cutoff: Block, x: Block, y: Block, z: Block) {
    predicate Valid() {
      && first.capable && second.capable && first.created == second.created == 0
      && first.key != second.key && first.address != second.address && first.key != "pair-created" && second.key != "pair-created"
      && Follows(cutoff, x) && Follows(cutoff, y) && x != y && Follows(y, z)
    }

    function Settings(): Config { Config(cutoff, 1, 100) }

    function Targets(): seq<Target> { [first, second] }

    function Both(): ChunkOutcome { Ack({first.key, second.key}) }

    function Live(): set<string> { {first.address, second.address} }

    function Pairs(): Watched {
      map[first.address := Watch(first.key, Number(cutoff)), second.address := Watch(second.key, Number(cutoff))]
    }

    /** The request of the second pair's own listener. */
    function Own(): Request { Request(second.key, 0, None, false, true, false) }
  }

  lemma Finishes(c: Scene, r: PassResult, req: Request, s: Persisted, t: Persisted, stored: Block, tip: Block, answer: ChunkOutcome)
    requires PassStep(r, c.Settings(), req, HonestWorld(tip, stored, answer), s, t) && TipOf(s.journal) == stored && Follows(stored, tip)
    requires !answer.Throw? && StartsOn(req, s.checkpoints, c.cutoff, tip)
    ensures r.end.Finished? && TipOf(t.journal) == tip && r.plan.Some?
  {
    HonestWorldAnswers(tip, stored, c.Settings(), answer);
    HonestPassFinishes(r, c.Settings(), req, HonestWorld(tip, stored, answer), s, t, tip);
  }

  // ------------------------------------------------------------ the second pair's own pass

  lemma OwnFinishes(c: Scene, r: PassResult, s: Persisted, t: Persisted)
    requires c.Valid() && PassStep(r, c.Settings(), c.Own(), HonestWorld(c.x, c.cutoff, Ack({})), s, t) && TipOf(s.journal) == c.cutoff
    ensures r.end.Finished? && TipOf(t.journal) == c.x
  {
    assert At(c.x, Number(c.cutoff)) == At(c.cutoff, Number(c.cutoff)) == c.cutoff;
    StoredStartsOn(c.Own(), s.checkpoints, c.cutoff, c.cutoff, c.x);
    Finishes(c, r, c.Own(), s, t, c.cutoff, c.x, Ack({}));
  }

  lemma OwnRows(c: Scene, r: PassResult, s: Persisted, t: Persisted)
    requires c.Valid() && PassStep(r, c.Settings(), c.Own(), HonestWorld(c.x, c.cutoff, Ack({})), s, t) && r.end.Finished?
    requires TipOf(s.journal) == c.cutoff && TipOf(t.journal) == c.x
    ensures Number(c.cutoff) in t.journal && t.journal[Number(c.cutoff)] == c.cutoff
  {
    assert Number(c.cutoff) in s.journal;
    assert KeepsRows(s.journal, t.journal, t.checkpoints, Number(c.x));
  }

  lemma OwnNext(c: Scene, p: Pass, s: Persisted, t: Persisted)
    requires c.Valid() && p.req == c.Own() && p.world == HonestWorld(c.x, c.cutoff, Ack({})) && PassStep(p.result, c.Settings(), p.req, p.world, s, t)
    requires p.result.end.Finished? && TipOf(t.journal) == c.x && c.second.key !in s.checkpoints
    ensures NextBlock(t.checkpoints, c.second.key, 0, c.cutoff) == Number(c.x) + 1
  {
    GapRun.OwnFrom(c.Settings(), p, s, t, 0);
    GapRun.OwnEnd(c.Settings(), p, s, t, 0);
    LastHanded(p.result.chunks, p.world, p.result.plan.value, p.result.end, Number(c.x), NextBlock(s.checkpoints, c.second.key, 0, c.cutoff));
  }

  lemma LastHanded(chunks: seq<Chunk>, w: World, plan: Plan, end: PassEnd, head: nat, start: nat)
    requires ReachesHead(plan, end, chunks, w) && end.Finished? && plan.from <= plan.head == head
    requires forall i: nat :: w.outcome(i).Ack? && w.writeOk(i)
    ensures Then(HandedBy(chunks, w), start) == head + 1
  {
    assert !w.outcome(|chunks|).Stop?;
  }

  /** Where the pairs stand after it. */
  ghost predicate SecondAt(c: Scene, d: Checkpoints, b: Block) {
    c.first.key !in d && c.second.key in d && d[c.second.key].number == Number(b)
  }

  lemma OwnStands(c: Scene, r: PassResult, s: Persisted, t: Persisted)
    requires c.Valid() && PassStep(r, c.Settings(), c.Own(), HonestWorld(c.x, c.cutoff, Ack({})), s, t) && r.end.Finished?
    requires TipOf(t.journal) == c.x && c.first.key !in s.checkpoints && c.second.key !in s.checkpoints
    ensures SecondAt(c, t.checkpoints, c.x)
  {
    var p := Pass(c.Own(), HonestWorld(c.x, c.cutoff, Ack({})), r);
    ForeignPass(c.Settings(), p, s, t, c.first.key);
    OwnNext(c, p, s, t);
  }

  method FollowOwn(db: ReorgRepository.ChainDatabase, c: Scene)
    requires c.Valid() && db.Valid() && db.store.cutoff == Some(c.cutoff) && db.store.Tip() == c.cutoff
    requires c.first.key !in db.store.checkpoints && c.second.key !in db.store.checkpoints
    modifies db.store`journal, db.store`checkpoints
    ensures db.Valid() && db.store.cutoff == Some(c.cutoff) && db.store.Tip() == c.x && SecondAt(c, db.store.checkpoints, c.x)
    ensures Number(c.cutoff) in db.store.journal && db.store.journal[Number(c.cutoff)] == c.cutoff
  {
    ghost var s := Now(db.store);
    var r := Execute(db.store, c.Settings(), c.Own(), HonestWorld(c.x, c.cutoff, Ack({})));
    OwnFinishes(c, r, s, Now(db.store));
    OwnRows(c, r, s, Now(db.store));
    OwnStands(c, r, s, Now(db.store));
  }

  // ------------------------------------------------------------ the set-up

  lemma Distinguished(c: Scene, d: Checkpoints, j: Journal)
    requires c.Valid() && Consistent(j, d, c.cutoff)
    ensures Filter(c.Targets(), Capable()) == c.Targets() && DistinctTargets(c.Targets())
    ensures forall n :: !Disagreement(Entries(c.Targets(), d), n)
  {
    assert Filter([c.first], Capable()) == Filter([c.first][..0], Capable()) + [c.first] == [c.first];
    assert Filter(c.Targets(), Capable()) == Filter(c.Targets()[..1], Capable()) + [c.second] && c.Targets()[..1] == [c.first];
    forall n ensures !Disagreement(Entries(c.Targets(), d), n) {
      forall e, f | e in Entries(c.Targets(), d) && f in Entries(c.Targets(), d) && Candidate(e, n) && Candidate(f, n)
        ensures e.checkpoint == f.checkpoint
      {
        NoConflict(j, d, c.cutoff, c.Targets(), n, e, f);
      }
    }
  }

  /** What a set-up for the two pairs asks for, while the first one has no checkpoint. */
  lemma Asked(c: Scene, d: Checkpoints, entries: seq<Entry>, req: Request)
    requires c.Valid() && IsReady(c.Targets(), d, entries, req) && c.first.key !in d
    ensures req.startBlock == 0 && req.checkpoint == None && EntryOf(c.first, d) in entries && EntryOf(c.second, d) in entries
    ensures forall e :: e in entries ==> e == EntryOf(c.first, d) || e == EntryOf(c.second, d)
  {
    assert c.first in c.Targets() && c.second in c.Targets();
    assert EntryOf(c.first, d).nextBlock == 0;
  }

  method Prepare(db: ReorgRepository.ChainDatabase, c: Scene) returns (entries: seq<Entry>, req: Request)
    requires c.Valid() && db.Valid() && db.store.cutoff == Some(c.cutoff)
    ensures IsReady(c.Targets(), db.store.checkpoints, entries, req)
  {
    Distinguished(c, db.store.checkpoints, db.store.journal);
    var r := SetUp(c.Targets(), db.store.checkpoints);
    entries, req := r.entries, r.request;
  }

  // ------------------------------------------------------------ the rollback and the replay

  /** Another listener's pass meets the other fork, and what was stored above the cutoff is rolled back. */
  method Diverge(db: ReorgRepository.ChainDatabase, c: Scene) returns (r: PassResult)
    requires c.Valid() && db.Valid() && db.store.cutoff == Some(c.cutoff) && db.store.Tip() == c.x && db.audits == map[]
    requires Number(c.cutoff) in db.store.journal && db.store.journal[Number(c.cutoff)] == c.cutoff && SecondAt(c, db.store.checkpoints, c.x)
    modifies db, db.store`journal, db.store`checkpoints, db.events
    ensures db.Valid() && db.store.cutoff == Some(c.cutoff) && db.store.Tip() == c.cutoff && r.end.Diverged?
    ensures SecondAt(c, db.store.checkpoints, c.cutoff)
  {
    r := Execute(db.store, c.Settings(), Request("pair-created", 0, None, false, true, true), HonestWorld(c.y, c.y, Ack({})));
    assert r.end.Diverged?;
    var reorg := AncestorSearch.Reorg(Some(c.cutoff), c.x, c.y, Some(1));
    assert AncestorSearch.ValidShallow(reorg);
    var impact := db.RewindToAncestor(reorg);
  }

  lemma Watching(c: Scene, d: Checkpoints, j: Journal)
    requires c.Valid() && Consistent(j, d, c.cutoff)
    ensures Watches(c.Pairs(), c.Targets(), c.Live(), d, c.cutoff) && InRange(d, c.Pairs(), TipOf(j))
  {
  }

  function LateOf(c: Scene, entries: seq<Entry>, req: Request, w: World, r: PassResult, s0: Persisted, s: Persisted, t: Persisted): Late {
    Late(c.Settings(), c.Targets(), entries, req, w, r, s0, s, t, c.Pairs(), c.Live())
  }

  lemma LateIs(c: Scene, entries: seq<Entry>, req: Request, w: World, r: PassResult, s0: Persisted, s: Persisted, t: Persisted)
    requires c.Valid() && PassStep(r, c.Settings(), req, w, s, t) && r.end.Finished? && r.plan.Some?
    requires Consistent(s0.journal, s0.checkpoints, c.cutoff) && IsReady(c.Targets(), s0.checkpoints, entries, req)
    ensures IsLate(LateOf(c, entries, req, w, r, s0, s, t))
  {
    Watching(c, s0.checkpoints, s0.journal);
  }

  /** A pass of the batch that is stopped at its first chunk follows the chain and moves no checkpoint. */
  lemma StoppedPass(c: Scene, entries: seq<Entry>, req: Request, r: PassResult, s: Persisted, t: Persisted)
    requires c.Valid() && PassStep(r, c.Settings(), req, HonestWorld(c.y, c.cutoff, Stop), s, t) && TipOf(s.journal) == c.cutoff
    requires IsReady(c.Targets(), s.checkpoints, entries, req) && c.first.key !in s.checkpoints
    ensures TipOf(t.journal) == c.y && t.checkpoints == s.checkpoints
  {
    var w := HonestWorld(c.y, c.cutoff, Stop);
    Asked(c, s.checkpoints, entries, req);
    Finishes(c, r, req, s, t, c.cutoff, c.y, Stop);
    LateIs(c, entries, req, w, r, s, s, t);
    WrittenPass(LateOf(c, entries, req, w, r, s, s, t));
    NoChunks(c, r, req, w, s, t);
  }

  lemma NoChunks(c: Scene, r: PassResult, req: Request, w: World, s: Persisted, t: Persisted)
    requires PassStep(r, c.Settings(), req, w, s, t) && r.end.Finished? && forall i: nat :: !w.outcome(i).Ack?
    ensures r.chunks == []
  {
    GapRun.FinishedChunks(r, c.Settings(), req, w, s, t);
    assert !w.outcome(0).Ack?;
  }

  method Replay(db: ReorgRepository.ChainDatabase, c: Scene)
    requires c.Valid() && db.Valid() && db.store.cutoff == Some(c.cutoff) && db.store.Tip() == c.cutoff && c.first.key !in db.store.checkpoints
    modifies db.store`journal, db.store`checkpoints
    ensures db.Valid() && db.store.cutoff == Some(c.cutoff) && db.store.Tip() == c.y && db.store.checkpoints == old(db.store.checkpoints)
  {
    ghost var s := Now(db.store);
    var entries, req := Prepare(db, c);
    var r := Execute(db.store, c.Settings(), req, HonestWorld(c.y, c.cutoff, Stop));
    StoppedPass(c, entries, req, r, s, Now(db.store));
  }

  // ------------------------------------------------------------ the late pass

  /** The late pass hands out one chunk, for both pairs, up to the head. */
  lemma OneChunk(c: Scene, p: Late)
    requires c.Valid() && IsLate(p) && p.cfg == c.Settings() && p.r.end.Finished? && TipOf(p.t.journal) == c.z
    requires p.req.startBlock == 0 && p.req.checkpoint == None && forall i: nat :: p.w.outcome(i) == c.Both()
    ensures |p.r.chunks| == 1 && p.r.chunks[0].to == Number(c.z) && p.r.chunks[0].headers != []
    ensures p.t.checkpoints == SetAll(p.s.checkpoints, c.Both().keys, ChunkCheckpoint(p.r.chunks[0]))
  {
    WrittenPass(p);
    assert p.r.plan.value.from == Number(c.cutoff) + 1;
    FirstIsLast(p.r.chunks, p.r.plan.value.from, c.z);
    OneMove(p.s.checkpoints, p.req, p.r.chunks, p.w, c.Both());
  }

  lemma FirstIsLast(chunks: seq<Chunk>, from: nat, z: Block)
    requires Tiles(chunks, from, 100, z) && chunks != [] && Number(z) == from + 1
    ensures |chunks| == 1 && chunks[0].to == Number(z) && chunks[0].headers != []
  {
    assert Tile(chunks, 0, from, 100, z);
    assert |chunks| > 1 ==> Tile(chunks, 1, from, 100, z);
  }

  lemma OneMove(d: Checkpoints, req: Request, chunks: seq<Chunk>, w: World, answer: ChunkOutcome)
    requires |chunks| == 1 && chunks[0].headers != [] && !req.persist && w.outcome(0) == answer && answer.Ack?
    ensures AfterChunks(d, req, chunks, w) == SetAll(d, answer.keys, ChunkCheckpoint(chunks[0]))
  {
    assert chunks[..0] == [];
  }

  lemma BothConcerned(c: Scene, d: Checkpoints, entries: seq<Entry>, to: nat)
    requires EntryOf(c.first, d) in entries && EntryOf(c.second, d) in entries
    requires forall e :: e in entries ==> e == EntryOf(c.first, d) || e == EntryOf(c.second, d)
    requires EntryOf(c.first, d).nextBlock <= to && EntryOf(c.second, d).nextBlock <= to
    ensures Keys(Concerned(entries, to)) == c.Both().keys && Addresses(Concerned(entries, to)) == c.Live()
  {
    forall e ensures e in Concerned(entries, to) <==> e == EntryOf(c.first, d) || e == EntryOf(c.second, d) {
      ConcernedMember(entries, to, e);
    }
  }

  lemma LateAcknowledged(c: Scene, p: Late)
    requires c.Valid() && IsReady(c.Targets(), p.s0.checkpoints, p.entries, p.req) && SecondAt(c, p.s0.checkpoints, c.x)
    requires |p.r.chunks| == 1 && p.r.chunks[0].to == Number(c.z) && p.live == c.Live() && forall i: nat :: p.w.outcome(i) == c.Both()
    ensures Acknowledged(p)
  {
    Asked(c, p.s0.checkpoints, p.entries, p.req);
    BothConcerned(c, p.s0.checkpoints, p.entries, Number(c.z));
    assert AcknowledgedAt(p, 0);
  }

  /** Of this scene, and with the second pair set back to the cutoff. */
  ghost predicate IsSetBack(c: Scene, p: Late) {
    && c.Valid() && IsLate(p) && p.cfg == c.Settings() && p.targets == c.Targets() && p.watched == c.Pairs() && p.live == c.Live()
    && p.r.end.Finished? && TipOf(p.t.journal) == c.z && SecondAt(c, p.s0.checkpoints, c.x) && SecondAt(c, p.s.checkpoints, c.cutoff)
    && forall i: nat :: p.w.outcome(i) == c.Both()
  }

  lemma LateCommitsBoth(c: Scene, p: Late)
    requires IsSetBack(c, p)
    ensures Acknowledged(p) && CommittedTo(p.r.chunks) == Number(c.z)
    ensures c.second.key in p.t.checkpoints && p.t.checkpoints[c.second.key].number == Number(c.z)
  {
    Asked(c, p.s0.checkpoints, p.entries, p.req);
    OneChunk(c, p);
    LateAcknowledged(c, p);
  }

  lemma SecondLeftOut(c: Scene, p: Late, e: Entry) returns (sc: Scan)
    requires c.Valid() && IsLate(p) && Acknowledged(p) && InRange(p.s.checkpoints, p.watched, TipOf(p.s.journal)) && TipOf(p.t.journal) == c.z
    requires e in p.entries && e == EntryOf(c.second, p.s0.checkpoints) && CommittedTo(p.r.chunks) == Number(c.z)
    requires p.watched == c.Pairs() && p.live == c.Live() && SecondAt(c, p.s0.checkpoints, c.x) && SecondAt(c, p.s.checkpoints, c.cutoff)
    ensures Possible(sc, p, map[]) && !NothingMissing(sc, p) && sc.states[|sc.ats|].rows == map[]
    ensures sc.ledger == E.OneLog(c.y, LogAt(c.second.address, c.y))
  {
    var b;
    sc, b := LeftOut(p, e);
    assert b == At(c.z, Number(c.x)) == At(c.y, Number(c.x)) == c.y;
  }

  lemma LateLeavesOut(c: Scene, p: Late) returns (sc: Scan)
    requires IsSetBack(c, p)
    ensures Possible(sc, p, map[]) && !NothingMissing(sc, p) && sc.states[|sc.ats|].rows == map[]
    ensures sc.ledger == E.OneLog(c.y, LogAt(c.second.address, c.y))
  {
    LateCommitsBoth(c, p);
    Watching(c, p.s.checkpoints, p.s.journal);
    Asked(c, p.s0.checkpoints, p.entries, p.req);
    sc := SecondLeftOut(c, p, EntryOf(c.second, p.s0.checkpoints));
  }

  lemma LateIsSetBack(c: Scene, entries: seq<Entry>, req: Request, r: PassResult, s0: Persisted, s: Persisted, t: Persisted)
    requires c.Valid() && PassStep(r, c.Settings(), req, HonestWorld(c.z, c.y, c.Both()), s, t) && TipOf(s.journal) == c.y
    requires Consistent(s0.journal, s0.checkpoints, c.cutoff) && IsReady(c.Targets(), s0.checkpoints, entries, req)
    requires SecondAt(c, s0.checkpoints, c.x) && SecondAt(c, s.checkpoints, c.cutoff)
    ensures IsSetBack(c, LateOf(c, entries, req, HonestWorld(c.z, c.y, c.Both()), r, s0, s, t))
  {
    Asked(c, s0.checkpoints, entries, req);
    Finishes(c, r, req, s, t, c.y, c.z, c.Both());
    LateIs(c, entries, req, HonestWorld(c.z, c.y, c.Both()), r, s0, s, t);
  }

  /** From a fresh start to the set-up of the batch, and on to where the coordinator gets round to its request. */
  method Delay(c: Scene) returns (db: ReorgRepository.ChainDatabase, entries: seq<Entry>, req: Request, ghost s0: Persisted)
    requires c.Valid()
    ensures fresh(db) && fresh(db.store) && db.Valid() && db.store.cutoff == Some(c.cutoff) && db.store.Tip() == c.y
    ensures Consistent(s0.journal, s0.checkpoints, c.cutoff) && TipOf(s0.journal) == c.x && IsReady(c.Targets(), s0.checkpoints, entries, req)
    ensures SecondAt(c, s0.checkpoints, c.x) && SecondAt(c, db.store.checkpoints, c.cutoff)
  {
    var store := new CanonicalStore();
    var events := new E.SwapEventRepository();
    db := new ReorgRepository.ChainDatabase(store, events);
    var applied := store.FreshStart(c.cutoff);
    FollowOwn(db, c);
    s0 := Now(db.store);
    entries, req := Prepare(db, c);
    var ahead := Diverge(db, c);
    Replay(db, c);
  }

  /** The second pair follows the chain to `x`; the batch reads the checkpoints of both pairs; a pass ahead of it meets the
      other fork, and `x` is rolled back; the replay follows the chain to `y` but is stopped before it hands anything out;
      then the batch's pass follows the chain to `z`.  The second pair stands there afterwards; but if `y` holds an event
      of it, that was not missing before and is missing now: nothing of it was ever handed out. */
  method EventLeftOut(c: Scene) returns (db: ReorgRepository.ChainDatabase, ghost p: Late, ghost sc: Scan)
    requires c.Valid()
    ensures db.Valid() && db.store.Tip() == c.z && c.second.key in db.store.checkpoints && db.store.checkpoints[c.second.key].number == Number(c.z)
    ensures IsLate(p) && p.t == Now(db.store) && TipOf(p.s0.journal) == c.x && TipOf(p.s.journal) == c.y
    ensures Possible(sc, p, map[]) && !NothingMissing(sc, p)
    ensures sc.ledger == E.OneLog(c.y, LogAt(c.second.address, c.y)) && sc.states[|sc.ats|].rows == map[]
  {
    var entries, req;
    ghost var s0;
    db, entries, req, s0 := Delay(c);
    ghost var s := Now(db.store);
    var r := Execute(db.store, c.Settings(), req, HonestWorld(c.z, c.y, c.Both()));
    p := LateOf(c, entries, req, HonestWorld(c.z, c.y, c.Both()), r, s0, s, Now(db.store));
    LateIsSetBack(c, entries, req, r, s0, s, Now(db.store));
    LateCommitsBoth(c, p);
    sc := LateLeavesOut(c, p);
  }
}
