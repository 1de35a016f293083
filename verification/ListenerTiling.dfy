/** What the passes of one listener add up to, however passes of others come in between,
    and two facts about single passes: when a torn persist leaves a gap, and why the
    cutoff anchor is never needed. */
module ListenerTiling {
  import opened Blocks
  import opened ChainStore
  import opened CanonicalScan
  import opened CanonicalPass
  import opened ChunkLoop

  datatype Pass = Pass(req: Request, world: World, result: PassResult)

  /** Pass `i` of a run leads from the `i`-th persisted state to the next. */
  ghost predicate StepAt(cfg: Config, ps: seq<Pass>, ss: seq<Persisted>, i: nat)
    requires i < |ps| && |ss| == |ps| + 1
  {
    PassStep(ps[i].result, cfg, ps[i].req, ps[i].world, ss[i], ss[i + 1])
  }

  /** Passes one after the other, wherever each of them stops, with nothing rolled back in between. */
  ghost predicate IsRun(cfg: Config, ps: seq<Pass>, ss: seq<Persisted>) {
    |ss| == |ps| + 1 && forall i :: 0 <= i < |ps| ==> StepAt(cfg, ps, ss, i)
  }

  /** Executing passes one after the other is such a run. */
  method ExecuteAll(store: CanonicalStore, cfg: Config, reqs: seq<Request>, worlds: seq<World>) returns (ps: seq<Pass>, ghost ss: seq<Persisted>)
    requires cfg.Valid() && store.Valid() && store.cutoff == Some(cfg.cutoff) && |reqs| == |worlds|
    modifies store`journal, store`checkpoints
    ensures store.Valid() && |ps| == |reqs| && IsRun(cfg, ps, ss)
    ensures forall i :: 0 <= i < |ps| ==> ps[i].req == reqs[i] && ps[i].world == worlds[i]
    ensures ss[0] == old(Now(store)) && ss[|ps|] == Now(store)
  {
    ps, ss := [], [Now(store)];
    for n := 0 to |reqs|
      invariant store.Valid() && |ps| == n && IsRun(cfg, ps, ss) && ss[0] == old(Now(store)) && ss[n] == Now(store)
      invariant forall i :: 0 <= i < n ==> ps[i].req == reqs[i] && ps[i].world == worlds[i]
    {
      var p := ExecuteNext(store, cfg, reqs[n], worlds[n], ps, ss);
      ps, ss := ps + [p], ss + [Now(store)];
    }
  }

  method ExecuteNext(store: CanonicalStore, cfg: Config, req: Request, w: World, ghost ps: seq<Pass>, ghost ss: seq<Persisted>) returns (p: Pass)
    requires cfg.Valid() && store.Valid() && store.cutoff == Some(cfg.cutoff)
    requires IsRun(cfg, ps, ss) && ss[|ps|] == Now(store)
    modifies store`journal, store`checkpoints
    ensures store.Valid() && p.req == req && p.world == w && IsRun(cfg, ps + [p], ss + [Now(store)])
  {
    var r := Execute(store, cfg, req, w);
    p := Pass(req, w, r);
    RunExtend(cfg, ps, ss, p, Now(store));
  }

  lemma RunExtend(cfg: Config, ps: seq<Pass>, ss: seq<Persisted>, p: Pass, t: Persisted)
    requires IsRun(cfg, ps, ss) && PassStep(p.result, cfg, p.req, p.world, ss[|ps|], t)
    ensures IsRun(cfg, ps + [p], ss + [t])
  {
    forall i | 0 <= i <= |ps| ensures StepAt(cfg, ps + [p], ss + [t], i) {
      if i < |ps| {
        assert StepAt(cfg, ps, ss, i);
      }
    }
  }

  // ----------------------------------------------------------- one listener's passes

  /** A pass of the listener `key` itself: it keeps its own checkpoint, and nobody else's chunk handling touches it. */
  ghost predicate Own(p: Pass, key: string) {
    && p.req.key == key && p.req.persist && p.req.checkpoint.None? && !p.req.ignoreStored
    && forall i: nat :: p.world.outcome(i).Ack? ==> key !in p.world.outcome(i).keys
  }

  /** A pass of others. */
  ghost predicate Foreign(p: Pass, key: string) {
    p.req.key != key && forall i: nat :: p.world.outcome(i).Ack? ==> key !in p.world.outcome(i).keys
  }

  ghost predicate Shared(ps: seq<Pass>, key: string) {
    forall i :: 0 <= i < |ps| ==> Own(ps[i], key) || Foreign(ps[i], key)
  }

  /** The listener always names the same first block, unless a stored checkpoint makes that irrelevant. */
  ghost predicate Regular(ps: seq<Pass>, key: string, start: nat, c: Checkpoints) {
    key in c || forall i :: 0 <= i < |ps| && ps[i].req.key == key ==> ps[i].req.startBlock == start && !ps[i].req.bootstrapHead
  }

  /** The next block to hand out. */
  function NextBlock(c: Checkpoints, key: string, start: nat, cutoff: Block): nat {
    if key in c then c[key].number + 1 else Max(start, Number(cutoff) + 1)
  }

  /** An acknowledged chunk; `committed` tells whether its checkpoint was written. */
  datatype Handed = Handed(chunk: Chunk, committed: bool)

  function HandedBy(chunks: seq<Chunk>, w: World): (hs: seq<Handed>)
    ensures |hs| == |chunks| && forall i :: 0 <= i < |hs| ==> hs[i] == Handed(chunks[i], w.writeOk(i))
  {
    seq(|chunks|, i requires 0 <= i < |chunks| => Handed(chunks[i], w.writeOk(i)))
  }

  function HandedTo(p: Pass, key: string): seq<Handed> {
    if p.req.key == key then HandedBy(p.result.chunks, p.world) else []
  }

  /** Every chunk the listener acknowledged in the first `n` passes, one after the other. */
  function AllHanded(ps: seq<Pass>, key: string, n: nat): seq<Handed>
    requires n <= |ps|
  {
    if n == 0 then [] else AllHanded(ps, key, n - 1) + HandedTo(ps[n - 1], key)
  }

  /** Where the chunk after `h` begins: right above it, or at its own first block again. */
  function After(h: Handed): nat {
    if h.committed then h.chunk.to + 1 else h.chunk.from
  }

  function Then(hs: seq<Handed>, first: nat): nat {
    if hs == [] then first else After(hs[|hs| - 1])
  }

  predicate FollowsOn(hs: seq<Handed>, i: nat, first: nat, size: nat)
    requires i < |hs|
  {
    && hs[i].chunk.from == (if i == 0 then first else After(hs[i - 1]))
    && hs[i].chunk.from <= hs[i].chunk.to < hs[i].chunk.from + size
  }

  ghost predicate Chained(hs: seq<Handed>, first: nat, size: nat) {
    forall i :: 0 <= i < |hs| ==> FollowsOn(hs, i, first, size)
  }

  lemma ChainedConcat(a: seq<Handed>, b: seq<Handed>, first: nat, size: nat)
    requires Chained(a, first, size) && Chained(b, Then(a, first), size)
    ensures Chained(a + b, first, size) && Then(a + b, first) == Then(b, Then(a, first))
  {
    forall i | 0 <= i < |a + b| ensures FollowsOn(a + b, i, first, size) {
      if i < |a| {
        assert FollowsOn(a, i, first, size);
      } else {
        assert FollowsOn(b, i - |a|, Then(a, first), size);
      }
    }
  }

  /** The chunk lies above the cutoff and carries exactly the linked headers of its range on the chain ending in `tip`. */
  ghost predicate OnChainOf(h: Handed, cutoff: Block, tip: Block) {
    && Number(cutoff) < h.chunk.from <= h.chunk.to <= Number(tip)
    && IsSegment(h.chunk.headers, tip, h.chunk.from, h.chunk.to)
  }

  ghost predicate AllOn(hs: seq<Handed>, cutoff: Block, tip: Block) {
    forall i :: 0 <= i < |hs| ==> OnChainOf(hs[i], cutoff, tip)
  }

  lemma StillOn(h: Handed, cutoff: Block, tip: Block, top: Block)
    requires OnChainOf(h, cutoff, tip) && OnChain(top, tip)
    ensures OnChainOf(h, cutoff, top)
  {
    var headers := h.chunk.headers;
    forall i {:trigger headers[i]} | 0 <= i < |headers| ensures headers[i] == At(top, h.chunk.from + i) {
      AtAt(top, Number(tip), h.chunk.from + i);
    }
  }

  // --------------------------------------------------------------- single passes

  lemma TilesChained(chunks: seq<Chunk>, w: World, from: nat, size: nat, top: Block)
    requires Tiles(chunks, from, size, top) && forall i :: 0 <= i < |chunks| - 1 ==> w.writeOk(i)
    ensures Chained(HandedBy(chunks, w), from, size)
  {
    var hs := HandedBy(chunks, w);
    forall i | 0 <= i < |hs| ensures FollowsOn(hs, i, from, size) {
      assert Tile(chunks, i, from, size, top);
    }
  }

  /** The listener's checkpoint after the chunks of one of its passes: at the end of the last one
      whose write succeeded, or where it was. */
  lemma {:induction false} OwnCheckpoint(c: Checkpoints, req: Request, chunks: seq<Chunk>, w: World, key: string, n: nat)
    requires req.persist && key == req.key && n <= |chunks|
    requires forall i :: 0 <= i < |chunks| ==> w.outcome(i).Ack? && key !in w.outcome(i).keys && chunks[i].headers != []
    ensures var d := AfterChunks(c, req, chunks[..n], w);
      && (n > 0 && w.writeOk(n - 1) ==> key in d && d[key].number == chunks[n - 1].to)
      && (n == 0 ==> SameAt(c, d, key))
      && (n > 0 && !w.writeOk(n - 1) ==> SameAt(AfterChunks(c, req, chunks[..n - 1], w), d, key))
  {
    if n > 0 {
      assert chunks[..n][..n - 1] == chunks[..n - 1];
      OwnCheckpoint(c, req, chunks, w, key, n - 1);
    }
  }

  lemma {:induction false} ForeignChunks(c: Checkpoints, req: Request, chunks: seq<Chunk>, w: World, key: string)
    requires req.key != key && forall i: nat :: w.outcome(i).Ack? ==> key !in w.outcome(i).keys
    ensures var d := AfterChunks(c, req, chunks, w); (key in d <==> key in c) && (key in d ==> d[key] == c[key])
  {
    if chunks != [] {
      ForeignChunks(c, req, chunks[..|chunks| - 1], w, key);
    }
  }

  /** A pass of others leaves the listener's checkpoint alone. */
  lemma ForeignPass(cfg: Config, p: Pass, s: Persisted, t: Persisted, key: string)
    requires PassStep(p.result, cfg, p.req, p.world, s, t) && Foreign(p, key)
    ensures (key in t.checkpoints <==> key in s.checkpoints) && (key in t.checkpoints ==> t.checkpoints[key] == s.checkpoints[key])
  {
    if JournalWritten(p.result.end) {
      ForeignMoves(p.result.plan.value, p.result.chunks, p.req, p.world, cfg.cutoff, s.checkpoints, t.checkpoints, key);
    }
  }

  lemma ForeignMoves(plan: Plan, chunks: seq<Chunk>, req: Request, w: World, cutoff: Block, c: Checkpoints, d: Checkpoints, key: string)
    requires CheckpointsMoved(plan, chunks, req, w, cutoff, c, d)
    requires req.key != key && forall i: nat :: w.outcome(i).Ack? ==> key !in w.outcome(i).keys
    ensures (key in d <==> key in c) && (key in d ==> d[key] == c[key])
  {
    var legacy, anchored :| MovedBy(plan, chunks, req, w, cutoff, c, d, legacy, anchored);
    ForeignChunks(AfterLegacy(c, req, plan.effective, legacy, w.legacyOk), req, chunks, w, key);
  }

  /** In a consistent state no stored checkpoint needs to be anchored at the cutoff,
      and a listener that has one resumes exactly one block above it. */
  lemma StoredCheckpointResumes(j: Journal, c: Checkpoints, cutoff: Block, req: Request, head: nat)
    requires Consistent(j, c, cutoff) && req.checkpoint.None? && !req.ignoreStored && req.key in c
    ensures !NeedsCutoffAnchor(cutoff, Chosen(req, c))
    ensures FromBlock(cutoff, req, Effective(cutoff, Chosen(req, c)), head) == c[req.key].number + 1 > Number(cutoff)
    ensures Anchor(Chosen(req, c))
  {
    assert c[req.key].hash == Some(At(TipOf(j), c[req.key].number));
  }

  /** Where the plan of one of the listener's passes starts, and that nothing but chunks moves its checkpoint. */
  lemma OwnPlan(cfg: Config, p: Pass, s: Persisted, key: string, start: nat)
    requires p.result.plan.Some? && PlanFits(p.result.plan.value, s.journal, s.checkpoints, cfg, p.req, p.world) && Own(p, key)
    requires key in s.checkpoints || (p.req.startBlock == start && !p.req.bootstrapHead)
    ensures p.result.plan.value.from == NextBlock(s.checkpoints, key, start, cfg.cutoff) > Number(cfg.cutoff)
    ensures !p.result.plan.value.needsAnchor && !Legacy(p.result.plan.value.effective)
  {
    if key in s.checkpoints {
      StoredCheckpointResumes(s.journal, s.checkpoints, cfg.cutoff, p.req, p.result.plan.value.head);
    }
  }

  /** One of the listener's own passes: its chunks follow on from its checkpoint, and the checkpoint follows them. */
  lemma OwnPass(cfg: Config, p: Pass, s: Persisted, t: Persisted, key: string, start: nat)
    requires PassStep(p.result, cfg, p.req, p.world, s, t) && Own(p, key)
    requires key in s.checkpoints || (p.req.startBlock == start && !p.req.bootstrapHead)
    ensures var hs, first := HandedTo(p, key), NextBlock(s.checkpoints, key, start, cfg.cutoff);
      && Chained(hs, first, cfg.chunkSize) && AllOn(hs, cfg.cutoff, TipOf(t.journal))
      && NextBlock(t.checkpoints, key, start, cfg.cutoff) == Then(hs, first)
    ensures key in s.checkpoints ==> key in t.checkpoints
    ensures forall c :: c in p.result.chunks ==> p.world.latest.Some? && c.to + cfg.confirmations <= p.world.latest.value
  {
    if JournalWritten(p.result.end) {
      var plan, chunks := p.result.plan.value, p.result.chunks;
      OwnPlan(cfg, p, s, key, start);
      OwnMoves(plan, chunks, p.req, p.world, cfg.cutoff, s.checkpoints, t.checkpoints);
      OwnWrites(p, key);
      OwnChunks(p, s.checkpoints, t.checkpoints, key, plan.from, cfg.chunkSize, TipOf(t.journal), start, cfg.cutoff);
      assert plan.head == Number(TipOf(t.journal)) && p.world.latest.Some? && plan.head + cfg.confirmations == p.world.latest.value;
    }
  }

  lemma OwnMoves(plan: Plan, chunks: seq<Chunk>, req: Request, w: World, cutoff: Block, c: Checkpoints, d: Checkpoints)
    requires CheckpointsMoved(plan, chunks, req, w, cutoff, c, d) && !plan.needsAnchor && !Legacy(plan.effective)
    ensures d == AfterChunks(c, req, chunks, w)
  {
    var legacy, anchored :| MovedBy(plan, chunks, req, w, cutoff, c, d, legacy, anchored);
  }

  lemma OwnWrites(p: Pass, key: string)
    requires Own(p, key) && WritesOk(p.result.end, p.result.chunks, p.req, p.world)
    ensures forall i :: 0 <= i < |p.result.chunks| ==> p.world.outcome(i).Ack? && key !in p.world.outcome(i).keys
    ensures forall i :: 0 <= i < |p.result.chunks| - 1 ==> p.world.writeOk(i)
  {
  }

  lemma OwnChunks(p: Pass, c: Checkpoints, d: Checkpoints, key: string, from: nat, size: nat, top: Block, start: nat, cutoff: Block)
    requires p.req.key == key && p.req.persist && d == AfterChunks(c, p.req, p.result.chunks, p.world)
    requires Tiles(p.result.chunks, from, size, top) && from == NextBlock(c, key, start, cutoff) > Number(cutoff)
    requires forall i :: 0 <= i < |p.result.chunks| ==> p.world.outcome(i).Ack? && key !in p.world.outcome(i).keys
    requires forall i :: 0 <= i < |p.result.chunks| - 1 ==> p.world.writeOk(i)
    ensures Chained(HandedBy(p.result.chunks, p.world), from, size) && AllOn(HandedBy(p.result.chunks, p.world), cutoff, top)
    ensures NextBlock(d, key, start, cutoff) == Then(HandedBy(p.result.chunks, p.world), from)
    ensures key in c ==> key in d
    ensures forall x :: x in p.result.chunks ==> x.to <= Number(top)
  {
    var chunks, w := p.result.chunks, p.world;
    TilesChained(chunks, w, from, size, top);
    TilesOn(chunks, w, from, size, cutoff, top);
    forall i | 0 <= i < |chunks| ensures chunks[i].headers != [] {
      assert Tile(chunks, i, from, size, top);
    }
    OwnStands(p.req, chunks, w, c, d, key, from, size, start, cutoff);
  }

  lemma OwnStands(req: Request, chunks: seq<Chunk>, w: World, c: Checkpoints, d: Checkpoints, key: string, from: nat, size: nat, start: nat, cutoff: Block)
    requires req.persist && req.key == key && d == AfterChunks(c, req, chunks, w)
    requires Chained(HandedBy(chunks, w), from, size) && from == NextBlock(c, key, start, cutoff)
    requires forall i :: 0 <= i < |chunks| ==> w.outcome(i).Ack? && key !in w.outcome(i).keys && chunks[i].headers != []
    requires forall i :: 0 <= i < |chunks| - 1 ==> w.writeOk(i)
    ensures NextBlock(d, key, start, cutoff) == Then(HandedBy(chunks, w), from)
    ensures key in c ==> key in d
  {
    var n := |chunks|;
    assert chunks[..n] == chunks;
    OwnCheckpoint(c, req, chunks, w, key, n);
    if n > 0 {
      OwnCheckpoint(c, req, chunks, w, key, n - 1);
      LastStands(HandedBy(chunks, w), c, AfterChunks(c, req, chunks[..n - 1], w), d, key, from, size, start, cutoff);
    }
  }

  /** The checkpoint is where it was before the last chunk, or at its end. */
  lemma LastStands(hs: seq<Handed>, c: Checkpoints, e: Checkpoints, d: Checkpoints, key: string, from: nat, size: nat, start: nat, cutoff: Block)
    requires hs != [] && Chained(hs, from, size) && from == NextBlock(c, key, start, cutoff)
    requires if hs[|hs| - 1].committed then key in d && d[key].number == hs[|hs| - 1].chunk.to else SameAt(e, d, key)
    requires if |hs| > 1 then hs[|hs| - 2].committed && key in e && e[key].number == hs[|hs| - 2].chunk.to else SameAt(c, e, key)
    ensures NextBlock(d, key, start, cutoff) == Then(hs, from) && (key in c ==> key in d)
  {
    assert FollowsOn(hs, |hs| - 1, from, size);
  }

  predicate SameAt(c: Checkpoints, d: Checkpoints, key: string) {
    (key in d <==> key in c) && (key in d ==> d[key] == c[key])
  }

  lemma TilesOn(chunks: seq<Chunk>, w: World, from: nat, size: nat, cutoff: Block, top: Block)
    requires Tiles(chunks, from, size, top) && Number(cutoff) < from
    ensures AllOn(HandedBy(chunks, w), cutoff, top)
    ensures forall c :: c in chunks ==> c.to <= Number(top)
  {
    forall i | 0 <= i < |chunks| ensures OnChainOf(HandedBy(chunks, w)[i], cutoff, top) && chunks[i].to <= Number(top) {
      assert Tile(chunks, i, from, size, top);
      TilesAscend(chunks, 0, i, from, size, top);
    }
  }

  // --------------------------------------------------------------- whole runs

  /** Over any run of passes without a re-organisation the chunks a listener acknowledges follow on
      from one another: each begins right above the one before, or where that one began if its
      checkpoint could not be written.  All lie above the cutoff, none is wider than the chunk
      size, all carry the headers of one chain, and the checkpoint stands right below the next. */
  lemma {:induction false} TilingAcrossPasses(cfg: Config, ps: seq<Pass>, ss: seq<Persisted>, key: string, start: nat, n: nat)
    requires IsRun(cfg, ps, ss) && Shared(ps, key) && Regular(ps, key, start, ss[0].checkpoints)
    requires Consistent(ss[0].journal, ss[0].checkpoints, cfg.cutoff) && n <= |ps|
    ensures Consistent(ss[n].journal, ss[n].checkpoints, cfg.cutoff)
    ensures var hs, first := AllHanded(ps, key, n), NextBlock(ss[0].checkpoints, key, start, cfg.cutoff);
      && Chained(hs, first, cfg.chunkSize) && AllOn(hs, cfg.cutoff, TipOf(ss[n].journal))
      && NextBlock(ss[n].checkpoints, key, start, cfg.cutoff) == Then(hs, first)
    ensures key in ss[0].checkpoints ==> key in ss[n].checkpoints
  {
    if n > 0 {
      TilingAcrossPasses(cfg, ps, ss, key, start, n - 1);
      assert StepAt(cfg, ps, ss, n - 1);
      OneMorePass(cfg, ps[n - 1], ss[n - 1], ss[n], key, start, AllHanded(ps, key, n - 1), NextBlock(ss[0].checkpoints, key, start, cfg.cutoff));
    }
  }

  lemma OneMorePass(cfg: Config, p: Pass, s: Persisted, t: Persisted, key: string, start: nat, hs: seq<Handed>, first: nat)
    requires PassStep(p.result, cfg, p.req, p.world, s, t) && (Own(p, key) || Foreign(p, key))
    requires key in s.checkpoints || (p.req.key == key ==> p.req.startBlock == start && !p.req.bootstrapHead)
    requires Chained(hs, first, cfg.chunkSize) && AllOn(hs, cfg.cutoff, TipOf(s.journal))
    requires NextBlock(s.checkpoints, key, start, cfg.cutoff) == Then(hs, first)
    ensures Consistent(t.journal, t.checkpoints, cfg.cutoff)
    ensures var now := hs + HandedTo(p, key);
      && Chained(now, first, cfg.chunkSize) && AllOn(now, cfg.cutoff, TipOf(t.journal))
      && NextBlock(t.checkpoints, key, start, cfg.cutoff) == Then(now, first)
    ensures key in s.checkpoints ==> key in t.checkpoints
  {
    AllStillOn(hs, cfg.cutoff, TipOf(s.journal), TipOf(t.journal));
    if p.req.key == key {
      OwnPass(cfg, p, s, t, key, start);
      ChainedConcat(hs, HandedTo(p, key), first, cfg.chunkSize);
    } else {
      ForeignPass(cfg, p, s, t, key);
      assert hs + [] == hs;
    }
  }

  lemma AllStillOn(hs: seq<Handed>, cutoff: Block, tip: Block, top: Block)
    requires AllOn(hs, cutoff, tip) && OnChain(top, tip)
    ensures AllOn(hs, cutoff, top)
  {
    forall i | 0 <= i < |hs| ensures OnChainOf(hs[i], cutoff, top) {
      StillOn(hs[i], cutoff, tip, top);
    }
  }

  /** Two consecutive acknowledged chunks overlap if and only if the checkpoint of the first could
      not be written; otherwise they are adjacent. */
  lemma OverlapIff(cfg: Config, ps: seq<Pass>, ss: seq<Persisted>, key: string, start: nat, i: nat)
    requires IsRun(cfg, ps, ss) && Shared(ps, key) && Regular(ps, key, start, ss[0].checkpoints)
    requires Consistent(ss[0].journal, ss[0].checkpoints, cfg.cutoff) && i + 1 < |AllHanded(ps, key, |ps|)|
    ensures var a, b := AllHanded(ps, key, |ps|)[i], AllHanded(ps, key, |ps|)[i + 1];
      && (b.chunk.from <= a.chunk.to <==> !a.committed)
      && (a.committed ==> b.chunk.from == a.chunk.to + 1)
      && (!a.committed ==> b.chunk.from == a.chunk.from)
  {
    TilingAcrossPasses(cfg, ps, ss, key, start, |ps|);
    var hs, first := AllHanded(ps, key, |ps|), NextBlock(ss[0].checkpoints, key, start, cfg.cutoff);
    assert FollowsOn(hs, i, first, cfg.chunkSize) && FollowsOn(hs, i + 1, first, cfg.chunkSize);
  }

  /** No chunk reaches past the head that its pass had confirmed. */
  lemma NeverPastTheHead(cfg: Config, ps: seq<Pass>, ss: seq<Persisted>, key: string, start: nat, n: nat)
    requires IsRun(cfg, ps, ss) && Shared(ps, key) && Regular(ps, key, start, ss[0].checkpoints)
    requires Consistent(ss[0].journal, ss[0].checkpoints, cfg.cutoff) && n < |ps| && ps[n].req.key == key
    ensures forall c :: c in ps[n].result.chunks ==> ps[n].world.latest.Some? && c.to + cfg.confirmations <= ps[n].world.latest.value
  {
    TilingAcrossPasses(cfg, ps, ss, key, start, n);
    assert StepAt(cfg, ps, ss, n);
    OwnPass(cfg, ps[n], ss[n], ss[n + 1], key, start);
  }

  function Committed(hs: seq<Handed>): seq<Chunk> {
    if hs == [] then [] else
      var h := hs[|hs| - 1];
      Committed(hs[..|hs| - 1]) + if h.committed then [h.chunk] else []
  }

  predicate Joined(s: seq<Chunk>, i: nat, from: nat)
    requires i < |s|
  {
    s[i].from == (if i == 0 then from else s[i - 1].to + 1) && s[i].from <= s[i].to
  }

  ghost predicate Adjacent(s: seq<Chunk>, from: nat) {
    forall i :: 0 <= i < |s| ==> Joined(s, i, from)
  }

  function Frontier(s: seq<Chunk>, from: nat): nat {
    if s == [] then from else s[|s| - 1].to + 1
  }

  lemma {:induction false} CommittedAdjacent(hs: seq<Handed>, first: nat, size: nat)
    requires Chained(hs, first, size)
    ensures Adjacent(Committed(hs), first) && Frontier(Committed(hs), first) == Then(hs, first)
  {
    if hs != [] {
      var n := |hs| - 1;
      forall i | 0 <= i < n ensures FollowsOn(hs[..n], i, first, size) {
        assert FollowsOn(hs, i, first, size);
      }
      CommittedAdjacent(hs[..n], first, size);
      assert FollowsOn(hs, n, first, size);
      var before, after := Committed(hs[..n]), Committed(hs);
      forall i | 0 <= i < |after| ensures Joined(after, i, first) {
        if i < |before| {
          assert Joined(before, i, first);
        }
      }
    }
  }

  /** The committed chunks tile the range from the first checkpoint to the last: no block is skipped
      and none is committed twice. */
  lemma CommittedTile(cfg: Config, ps: seq<Pass>, ss: seq<Persisted>, key: string, start: nat)
    requires IsRun(cfg, ps, ss) && Shared(ps, key) && Regular(ps, key, start, ss[0].checkpoints)
    requires Consistent(ss[0].journal, ss[0].checkpoints, cfg.cutoff)
    ensures var cs, first := Committed(AllHanded(ps, key, |ps|)), NextBlock(ss[0].checkpoints, key, start, cfg.cutoff);
      Adjacent(cs, first) && NextBlock(ss[|ps|].checkpoints, key, start, cfg.cutoff) == Frontier(cs, first)
  {
    TilingAcrossPasses(cfg, ps, ss, key, start, |ps|);
    CommittedAdjacent(AllHanded(ps, key, |ps|), NextBlock(ss[0].checkpoints, key, start, cfg.cutoff), cfg.chunkSize);
  }

  /** A persist keeps the journal without gaps at every point where it can be interrupted
      if and only if it has one batch, or its first batch reaches the lowest stored row. */
  lemma EveryInterruption(j: Journal, tip: Block, top: Block, headers: seq<Block>, lo: nat, m: nat)
    requires Rooted(j, tip) && OnChain(top, tip) && Contiguous(j) && IsLowest(j, m)
    requires lo <= Number(tip) && IsSegment(headers, top, lo, Number(top))
    ensures (forall k: nat :: Contiguous(AfterBatches(j, headers, k))) <==> (|headers| <= RETENTION || lo + RETENTION >= m)
  {
    forall k: nat ensures Contiguous(AfterBatches(j, headers, k)) <==> Saved(headers, k) == 0 || lo + Saved(headers, k) >= m {
      UpsertSegment(j, headers[..Saved(headers, k)], top, lo);
      InterruptedPersist(j, AfterBatches(j, headers, k), tip, top, lo, Saved(headers, k), m);
    }
    assert Saved(headers, 1) == Min(RETENTION, |headers|);
    assert Contiguous(AfterBatches(j, headers, 1)) <==> lo + Saved(headers, 1) >= m;
  }
}
