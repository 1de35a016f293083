/** A run from a fresh start in which a persist that is cut off opens a gap in the journal. */
module GapRun {
  import opened Blocks
  import opened ChainStore
  import opened CanonicalPass
  import opened ChunkLoop
  import opened HonestPasses
  import opened ListenerTiling

  /** The chain is 1000 blocks high, the cutoff is at 100, and chunks are 100 blocks wide. */
  function Settings(cutoff: Block): Config { Config(cutoff, 1, 100) }

  ghost predicate Heights(tip: Block, cutoff: Block) {
    Number(tip) == 1000 && Number(cutoff) == 100 && OnChain(tip, cutoff)
  }

  /** The first listener catches up with the whole chain. */
  function CatchUp(a: string): Request { Request(a, 0, None, false, true, true) }

  /** The second one watches a pair created at block 500. */
  function Watch(b: string): Request { Request(b, 500, None, false, true, false) }

  function Reader(tip: Block): nat -> Option<Block> {
    (n: nat) => if n <= Number(tip) then Some(At(tip, n)) else None
  }

  /** An honest reader; the first `saves` batches can be saved and `acks` chunks are acknowledged before the listener stops. */
  function WorldOf(tip: Block, stored: Block, saves: Option<nat>, acks: Option<nat>): World {
    World(Some(Number(tip) + 1), Some(stored), Reader(tip), (i: nat) => saves.None? || i < saves.value, true,
          (i: nat) => if acks.None? || i < acks.value then Ack({}) else Stop, (i: nat) => true, true, true)
  }

  function Requests(a: string, b: string): seq<Request> { [CatchUp(a), Watch(b), Watch(b)] }

  /** The first pass runs to the end; in the second the listener stops after one chunk; in the third
      the second batch cannot be saved. */
  function Worlds(tip: Block, cutoff: Block): seq<World> {
    [WorldOf(tip, cutoff, None, None), WorldOf(tip, tip, None, Some(1)), WorldOf(tip, tip, Some(1), None)]
  }

  lemma Answering(tip: Block, cutoff: Block, stored: Block, saves: Option<nat>, acks: Option<nat>)
    requires OnChain(tip, stored)
    ensures AnswersFrom(WorldOf(tip, stored, saves, acks), Settings(cutoff), tip, stored)
  {
  }

  /** What a finished pass tells about the journal. */
  lemma FinishedPass(r: PassResult, cfg: Config, req: Request, w: World, s: Persisted, t: Persisted)
    requires PassStep(r, cfg, req, w, s, t) && r.end.Finished?
    ensures r.plan.Some? && PlanFits(r.plan.value, s.journal, s.checkpoints, cfg, req, w)
    ensures Consistent(t.journal, t.checkpoints, cfg.cutoff) && r.plan.value.head == Number(TipOf(t.journal))
    ensures PrunedDown(r.plan.value, r.end, r.chunks, req, cfg.cutoff, t.journal, t.checkpoints)
    ensures WindowStored(t.journal, cfg.cutoff, r.plan.value.head)
    ensures forall n :: n in t.journal ==> n in s.journal || r.plan.value.journalStart <= n
    ensures Contiguous(s.journal) ==> Contiguous(t.journal)
  {
  }

  /** What a finished pass tells about its chunks. */
  lemma FinishedChunks(r: PassResult, cfg: Config, req: Request, w: World, s: Persisted, t: Persisted)
    requires PassStep(r, cfg, req, w, s, t) && r.end.Finished?
    ensures r.plan.Some? && r.plan.value.head == Number(TipOf(t.journal)) && PlanFits(r.plan.value, s.journal, s.checkpoints, cfg, req, w)
    ensures Tiles(r.chunks, r.plan.value.from, cfg.chunkSize, TipOf(t.journal))
    ensures ReachesHead(r.plan.value, r.end, r.chunks, w) && WritesOk(r.end, r.chunks, req, w)
  {
  }

  lemma FirstFinishes(tip: Block, cutoff: Block, r: PassResult, w: World, s: Persisted, t: Persisted, a: string)
    requires Heights(tip, cutoff) && w == WorldOf(tip, cutoff, None, None)
    requires PassStep(r, Settings(cutoff), CatchUp(a), w, s, t) && TipOf(s.journal) == cutoff
    ensures r.end.Finished? && TipOf(t.journal) == tip
  {
    Answering(tip, cutoff, cutoff, None, None);
    StoredStartsOn(CatchUp(a), s.checkpoints, cutoff, cutoff, tip);
    HonestPassFinishes(r, Settings(cutoff), CatchUp(a), w, s, t, tip);
  }

  lemma FirstCheckpoint(tip: Block, cutoff: Block, r: PassResult, w: World, s: Persisted, t: Persisted, a: string)
    requires Heights(tip, cutoff) && w == WorldOf(tip, cutoff, None, None)
    requires PassStep(r, Settings(cutoff), CatchUp(a), w, s, t) && r.end.Finished? && TipOf(t.journal) == tip
    requires s.checkpoints == map[a := Checkpoint(100, Some(cutoff))]
    ensures t.checkpoints.Keys == {a} && t.checkpoints[a].number == 1000 && r.chunks != []
  {
    var p := Pass(CatchUp(a), w, r);
    OwnFrom(Settings(cutoff), p, s, t, 0);
    OwnEnd(Settings(cutoff), p, s, t, 0);
    OnlyOwn(Settings(cutoff), p, s, t);
    OnlyKey(s.checkpoints, t.checkpoints, a);
  }

  lemma OnlyKey(c: Checkpoints, d: Checkpoints, a: string)
    requires c.Keys == {a} && a in d && forall k :: k != a ==> SameAt(c, d, k)
    ensures d.Keys == {a}
  {
    forall k | k in d ensures k == a {
      assert k != a ==> SameAt(c, d, k);
    }
  }

  lemma FirstPass(tip: Block, cutoff: Block, r: PassResult, s: Persisted, t: Persisted, a: string)
    requires Heights(tip, cutoff) && PassStep(r, Settings(cutoff), CatchUp(a), WorldOf(tip, cutoff, None, None), s, t)
    requires TipOf(s.journal) == cutoff && Contiguous(s.journal) && s.checkpoints == map[a := Checkpoint(100, Some(cutoff))]
    ensures t.journal != map[] && TipOf(t.journal) == tip && Contiguous(t.journal) && IsLowest(t.journal, 873)
    ensures t.checkpoints.Keys == {a} && t.checkpoints[a].number == 1000
  {
    var w, cfg := WorldOf(tip, cutoff, None, None), Settings(cutoff);
    FirstFinishes(tip, cutoff, r, w, s, t, a);
    FirstCheckpoint(tip, cutoff, r, w, s, t, a);
    FinishedPass(r, cfg, CatchUp(a), w, s, t);
    KeptWindow(r.plan.value, r, CatchUp(a), tip, cutoff, t, a);
  }

  /** Where a finished pass of a listener without checkpoint, or with one, leaves it. */
  lemma OwnEnd(cfg: Config, p: Pass, s: Persisted, t: Persisted, start: nat)
    requires PassStep(p.result, cfg, p.req, p.world, s, t) && Own(p, p.req.key)
    requires p.req.key in s.checkpoints || (p.req.startBlock == start && !p.req.bootstrapHead)
    ensures NextBlock(t.checkpoints, p.req.key, start, cfg.cutoff)
         == Then(HandedBy(p.result.chunks, p.world), NextBlock(s.checkpoints, p.req.key, start, cfg.cutoff))
  {
    OwnPass(cfg, p, s, t, p.req.key, start);
  }

  lemma OwnFrom(cfg: Config, p: Pass, s: Persisted, t: Persisted, start: nat)
    requires PassStep(p.result, cfg, p.req, p.world, s, t) && p.result.end.Finished? && Own(p, p.req.key)
    requires p.req.key in s.checkpoints || (p.req.startBlock == start && !p.req.bootstrapHead)
    ensures p.result.plan.Some? && p.result.plan.value.from == NextBlock(s.checkpoints, p.req.key, start, cfg.cutoff)
    ensures p.result.plan.value.head == Number(TipOf(t.journal))
    ensures Tiles(p.result.chunks, p.result.plan.value.from, cfg.chunkSize, TipOf(t.journal))
    ensures ReachesHead(p.result.plan.value, p.result.end, p.result.chunks, p.world) && WritesOk(p.result.end, p.result.chunks, p.req, p.world)
  {
    FinishedChunks(p.result, cfg, p.req, p.world, s, t);
    OwnPlan(cfg, p, s, p.req.key, start);
  }

  lemma OnlyOwn(cfg: Config, p: Pass, s: Persisted, t: Persisted)
    requires PassStep(p.result, cfg, p.req, p.world, s, t) && forall i: nat :: p.world.outcome(i).Ack? ==> p.world.outcome(i).keys == {}
    ensures forall k :: k != p.req.key ==> SameAt(s.checkpoints, t.checkpoints, k)
  {
    forall k | k != p.req.key ensures SameAt(s.checkpoints, t.checkpoints, k) {
      ForeignPass(cfg, p, s, t, k);
    }
  }

  /** After a finished pass that leaves the only checkpoint at the head, the journal reaches down to the retention window. */
  lemma KeptWindow(p: Plan, r: PassResult, req: Request, tip: Block, cutoff: Block, t: Persisted, a: string)
    requires Heights(tip, cutoff) && p.head == 1000 && r.end.Finished? && req.persist && r.chunks != []
    requires PrunedDown(p, r.end, r.chunks, req, cutoff, t.journal, t.checkpoints) && WindowStored(t.journal, cutoff, p.head)
    requires t.checkpoints.Keys == {a} && t.checkpoints[a].number == 1000
    ensures IsLowest(t.journal, 873)
  {
    var q :| IsOldest(t.checkpoints, q) && forall n :: n in t.journal ==> PruneBelow(cutoff, q, p.head) <= n;
    assert q == Some(1000);
  }

  lemma SecondFinishes(tip: Block, cutoff: Block, r: PassResult, w: World, s: Persisted, t: Persisted, b: string)
    requires Heights(tip, cutoff) && w == WorldOf(tip, tip, None, Some(1))
    requires PassStep(r, Settings(cutoff), Watch(b), w, s, t) && TipOf(s.journal) == tip
    ensures r.end.Finished? && TipOf(t.journal) == tip
  {
    Answering(tip, cutoff, tip, None, Some(1));
    StoredStartsOn(Watch(b), s.checkpoints, cutoff, tip, tip);
    HonestPassFinishes(r, Settings(cutoff), Watch(b), w, s, t, tip);
  }

  lemma SecondCheckpoint(tip: Block, cutoff: Block, r: PassResult, w: World, s: Persisted, t: Persisted, b: string)
    requires Heights(tip, cutoff) && w == WorldOf(tip, tip, None, Some(1)) && b !in s.checkpoints
    requires PassStep(r, Settings(cutoff), Watch(b), w, s, t) && r.end.Finished? && TipOf(t.journal) == tip
    ensures b in t.checkpoints && t.checkpoints[b].number == 599
    ensures forall k :: k != b ==> SameAt(s.checkpoints, t.checkpoints, k)
  {
    var cfg, p := Settings(cutoff), Pass(Watch(b), w, r);
    OwnFrom(cfg, p, s, t, 500);
    OneChunk(r.plan.value, r, w, tip, b);
    OwnEnd(cfg, p, s, t, 500);
    OnlyOwn(cfg, p, s, t);
  }

  /** A listener that stops after one chunk has been handed one. */
  lemma OneChunk(p: Plan, r: PassResult, w: World, tip: Block, b: string)
    requires Number(tip) == 1000 && w == WorldOf(tip, tip, None, Some(1)) && r.end.Finished? && p.from == 500 && p.head == 1000
    requires Tiles(r.chunks, 500, 100, tip) && ReachesHead(p, r.end, r.chunks, w) && WritesOk(r.end, r.chunks, Watch(b), w)
    ensures |r.chunks| == 1 && r.chunks[0].to == 599
  {
    assert w.outcome(0).Ack? && w.outcome(1).Stop?;
    assert |r.chunks| == 1;
    assert Tile(r.chunks, 0, 500, 100, tip);
  }

  lemma SecondPass(tip: Block, cutoff: Block, r: PassResult, w: World, s: Persisted, t: Persisted, a: string, b: string)
    requires Heights(tip, cutoff) && w == WorldOf(tip, tip, None, Some(1)) && PassStep(r, Settings(cutoff), Watch(b), w, s, t)
    requires TipOf(s.journal) == tip && Contiguous(s.journal) && IsLowest(s.journal, 873)
    requires a != b && s.checkpoints.Keys == {a} && s.checkpoints[a].number == 1000
    ensures t.journal != map[] && TipOf(t.journal) == tip && Contiguous(t.journal) && IsLowest(t.journal, 873) && IsOldest(t.checkpoints, Some(599))
  {
    SecondFinishes(tip, cutoff, r, w, s, t, b);
    SecondCheckpoint(tip, cutoff, r, w, s, t, b);
    SecondRows(cutoff, r, w, s, t, a, b);
    TwoKeys(s.checkpoints, t.checkpoints, a, b);
  }

  lemma SecondRows(cutoff: Block, r: PassResult, w: World, s: Persisted, t: Persisted, a: string, b: string)
    requires PassStep(r, Settings(cutoff), Watch(b), w, s, t) && r.end.Finished? && Number(cutoff) == 100 && Number(TipOf(t.journal)) == 1000
    requires Contiguous(s.journal) && IsLowest(s.journal, 873) && s.checkpoints.Keys == {a} && s.checkpoints[a].number == 1000
    ensures Contiguous(t.journal) && IsLowest(t.journal, 873)
  {
    FinishedPass(r, Settings(cutoff), Watch(b), w, s, t);
    RowsStay(r.plan.value, cutoff, s, t, a);
  }

  lemma TwoKeys(c: Checkpoints, d: Checkpoints, a: string, b: string)
    requires a != b && c.Keys == {a} && b in d && forall k :: k != b ==> SameAt(c, d, k)
    ensures d.Keys == {a, b} && d[a] == c[a] && IsOldest(d, Some(Min(c[a].number, d[b].number)))
  {
    forall k ensures k in d <==> k == a || k == b {
      assert k != b ==> SameAt(c, d, k);
    }
    assert SameAt(c, d, a);
  }

  /** Where a plan at this head starts its journal. */
  lemma JournalFrom(p: Plan, cutoff: Block, s: Persisted, o: nat)
    requires Number(cutoff) == 100 && p.head == 1000 && IsOldest(s.checkpoints, Some(o)) && o >= 100
    requires exists q :: IsOldest(s.checkpoints, q) && p.journalStart == JournalStart(cutoff, q, p.head)
    ensures p.journalStart == Min(o, 873)
  {
    var q :| IsOldest(s.checkpoints, q) && p.journalStart == JournalStart(cutoff, q, p.head);
    assert q == Some(o);
  }

  /** With the oldest checkpoint at the head, a pass at the same head stores nothing below the window. */
  lemma RowsStay(p: Plan, cutoff: Block, s: Persisted, t: Persisted, a: string)
    requires Number(cutoff) == 100 && p.head == 1000 && IsLowest(s.journal, 873) && WindowStored(t.journal, cutoff, p.head)
    requires s.checkpoints.Keys == {a} && s.checkpoints[a].number == 1000
    requires exists q :: IsOldest(s.checkpoints, q) && p.journalStart == JournalStart(cutoff, q, p.head)
    requires forall n :: n in t.journal ==> n in s.journal || p.journalStart <= n
    ensures IsLowest(t.journal, 873)
  {
    JournalFrom(p, cutoff, s, 1000);
  }

  lemma ThirdPlan(tip: Block, cutoff: Block, r: PassResult, w: World, s: Persisted, t: Persisted, b: string)
    requires Heights(tip, cutoff) && w == WorldOf(tip, tip, Some(1), None)
    requires PassStep(r, Settings(cutoff), Watch(b), w, s, t) && TipOf(s.journal) == tip
    requires IsOldest(s.checkpoints, Some(599)) && IsLowest(s.journal, 873)
    ensures r.plan.Some? && r.plan.value.head == 1000 && !ScanFails(r.plan.value, w)
    ensures r.plan.value.journalStart == 599 && r.plan.value.needsJournal
  {
    Answering(tip, cutoff, tip, Some(1), None);
    StoredStartsOn(Watch(b), s.checkpoints, cutoff, tip, tip);
    HonestHasPlan(r, Settings(cutoff), Watch(b), w, s, t, tip);
    NoScanFailure(r.plan.value, s, Settings(cutoff), Watch(b), w, tip);
    NeedsAll(r.plan.value, s, cutoff, w, b);
  }

  lemma NeedsAll(p: Plan, s: Persisted, cutoff: Block, w: World, b: string)
    requires PlanFits(p, s.journal, s.checkpoints, Settings(cutoff), Watch(b), w) && Number(cutoff) == 100 && p.head == 1000
    requires IsOldest(s.checkpoints, Some(599)) && IsLowest(s.journal, 873)
    ensures p.journalStart == 599 && p.needsJournal
  {
    JournalFrom(p, cutoff, s, 599);
    assert 599 !in s.journal;
  }

  /** The second batch of the third pass cannot be saved, and leaves rows 727 to 872 missing. */
  lemma ThirdPass(tip: Block, cutoff: Block, r: PassResult, w: World, s: Persisted, t: Persisted, b: string)
    requires Heights(tip, cutoff) && w == WorldOf(tip, tip, Some(1), None) && PassStep(r, Settings(cutoff), Watch(b), w, s, t)
    requires TipOf(s.journal) == tip && Contiguous(s.journal) && IsLowest(s.journal, 873) && IsOldest(s.checkpoints, Some(599))
    ensures r.end == Torn(1) && !Contiguous(t.journal)
  {
    ThirdPlan(tip, cutoff, r, w, s, t, b);
    TornAfterOne(r, r.plan.value, Settings(cutoff), w, s, t, b);
  }

  lemma TornAfterOne(r: PassResult, p: Plan, cfg: Config, w: World, s: Persisted, t: Persisted, b: string)
    requires PassStep(r, cfg, Watch(b), w, s, t) && r.plan == Some(p) && !ScanFails(p, w)
    requires p.needsJournal && p.journalStart == 599 && p.head == 1000 && Contiguous(s.journal) && IsLowest(s.journal, 873)
    requires w.saveOk(0) && forall i: nat :: w.saveOk(i) ==> i < 1
    ensures r.end == Torn(1) && !Contiguous(t.journal)
  {
    assert PlanStep(r, p, Watch(b), w) && Blamed(p, r.end, r.chunks, Watch(b), w);
    assert !w.saveOk(1) && 1 * RETENTION < p.head + 1 - p.journalStart;
    assert !AllSaved(p, w);
    assert r.end.Torn?;
    assert r.end.batches == 1;
    assert TornEffect(p, 1, s.journal, s.checkpoints, t.journal, t.checkpoints);
  }

  /** Three passes after a fresh start, with an honest reader: the journal has a gap, because one
      batch of the third could not be saved. */
  method GapOpens(tip: Block, cutoff: Block) returns (store: CanonicalStore)
    requires Heights(tip, cutoff)
    ensures store.Valid() && !Contiguous(store.journal)
  {
    store := new CanonicalStore();
    var applied := store.FreshStart(cutoff);
    assert store.checkpoints == map["pair-created" := Checkpoint(100, Some(cutoff))];
    var ps, ss := ExecuteAll(store, Settings(cutoff), Requests("pair-created", "swap"), Worlds(tip, cutoff));
    assert StepAt(Settings(cutoff), ps, ss, 0) && StepAt(Settings(cutoff), ps, ss, 1) && StepAt(Settings(cutoff), ps, ss, 2);
    FirstPass(tip, cutoff, ps[0].result, ss[0], ss[1], "pair-created");
    SecondPass(tip, cutoff, ps[1].result, Worlds(tip, cutoff)[1], ss[1], ss[2], "pair-created", "swap");
    ThirdPass(tip, cutoff, ps[2].result, Worlds(tip, cutoff)[2], ss[2], ss[3], "swap");
  }
}
