/** The chunk loop of a pass: prepared headers are cut into chunks and handed to the
    listener one by one, each acknowledged chunk moving the checkpoints. */
module ChunkLoop {
  import opened Blocks
  import opened ChainStore
  import opened CanonicalScan

  datatype Request = Request(
    key: string, startBlock: nat, checkpoint: Option<Checkpoint>,
    ignoreStored: bool, persist: bool, bootstrapHead: bool)

  /** What a listener answers for a chunk.  A batch acknowledges after writing
      the checkpoints of the pairs concerned, in one transaction. */
  datatype ChunkOutcome = Ack(keys: set<string>) | Stop | Throw

  /** Everything outside the process that a pass depends on. */
  datatype World = World(
    latest: Option<nat>,
    tipAnswer: Option<Block>,
    read: HeaderSource,
    saveOk: nat -> bool,
    legacyOk: bool,
    outcome: nat -> ChunkOutcome,
    writeOk: nat -> bool,
    anchorOk: bool,
    pruneOk: bool)

  datatype Config = Config(cutoff: Block, confirmations: nat, chunkSize: nat) {
    predicate Valid() {
      1 <= confirmations <= 100 && 1 <= chunkSize <= 1500
    }
  }

  datatype Chunk = Chunk(from: nat, to: nat, headers: seq<Block>)

  function Max(a: nat, b: nat): nat { if a < b then b else a }

  function Min(a: nat, b: nat): nat { if a < b then a else b }

  // ---------------------------------------------------------------- chunks

  /** Chunk `i` starts right after the one before, is as wide as allowed unless it
      ends at the head, and carries exactly the headers of its range. */
  ghost predicate Tile(chunks: seq<Chunk>, i: nat, from: nat, size: nat, top: Block)
    requires i < |chunks|
  {
    var c := chunks[i];
    && c.from == (if i == 0 then from else chunks[i - 1].to + 1)
    && c.from <= c.to <= Number(top)
    && c.to - c.from < size
    && (c.to - c.from + 1 == size || c.to == Number(top))
    && IsSegment(c.headers, top, c.from, c.to)
  }

  ghost predicate Tiles(chunks: seq<Chunk>, from: nat, size: nat, top: Block) {
    forall i :: 0 <= i < |chunks| ==> Tile(chunks, i, from, size, top)
  }

  lemma TilesExtend(chunks: seq<Chunk>, c: Chunk, from: nat, size: nat, top: Block)
    requires Tiles(chunks, from, size, top)
    requires Tile(chunks + [c], |chunks|, from, size, top)
    ensures Tiles(chunks + [c], from, size, top)
  {
    forall i | 0 <= i < |chunks| ensures Tile(chunks + [c], i, from, size, top) {
      assert Tile(chunks, i, from, size, top);
    }
  }

  /** Later chunks lie strictly above earlier ones, so no height is handed out twice. */
  lemma {:induction false} TilesAscend(chunks: seq<Chunk>, i: nat, k: nat, from: nat, size: nat, top: Block)
    requires Tiles(chunks, from, size, top) && i <= k < |chunks|
    ensures from <= chunks[i].from <= chunks[k].from
    ensures i < k ==> chunks[i].to < chunks[k].from
    decreases k
  {
    assert Tile(chunks, k, from, size, top);
    if i < k {
      TilesAscend(chunks, i, k - 1, from, size, top);
      assert Tile(chunks, k - 1, from, size, top);
    } else if k > 0 {
      TilesAscend(chunks, k - 1, k - 1, from, size, top);
      assert Tile(chunks, k - 1, from, size, top);
    }
  }

  function ChunkCheckpoint(c: Chunk): Checkpoint
    requires c.headers != []
  {
    Checkpoint(c.to, Some(c.headers[|c.headers| - 1]))
  }

  /** The checkpoints once the `k`-th chunk has been acknowledged: the batch's keys
      move together, and the listener's own key moves if that write succeeds. */
  function AfterOne(c: Checkpoints, req: Request, chunk: Chunk, w: World, k: nat): Checkpoints {
    if chunk.headers == [] || !w.outcome(k).Ack? then c else
      var cp := ChunkCheckpoint(chunk);
      var acked := SetAll(c, w.outcome(k).keys, cp);
      if req.persist && w.writeOk(k) then SetAll(acked, {req.key}, cp) else acked
  }

  function AfterChunks(c: Checkpoints, req: Request, chunks: seq<Chunk>, w: World): Checkpoints {
    if chunks == [] then c else
      var n := |chunks| - 1;
      AfterOne(AfterChunks(c, req, chunks[..n], w), req, chunks[n], w, n)
  }

  datatype ChunkEnd = Exhausted | Stopped | ListenerThrew | WriteThrew

  lemma AfterOneAnchored(c: Checkpoints, req: Request, chunk: Chunk, w: World, k: nat, cutoff: Block, top: Block)
    requires Number(cutoff) < chunk.from <= chunk.to <= Number(top)
    requires IsSegment(chunk.headers, top, chunk.from, chunk.to)
    requires Anchored(c, cutoff, top)
    ensures Anchored(AfterOne(c, req, chunk, w, k), cutoff, top)
  {
    assert ChunkCheckpoint(chunk) == Checkpoint(chunk.to, Some(At(top, chunk.to)));
  }

  /** Checkpoints written by chunks stay on the chain they were read from. */
  lemma {:induction false} AfterChunksAnchored(c: Checkpoints, req: Request, chunks: seq<Chunk>, w: World,
                                               cutoff: Block, from: nat, size: nat, top: Block)
    requires Tiles(chunks, from, size, top) && Number(cutoff) < from && Anchored(c, cutoff, top)
    ensures Anchored(AfterChunks(c, req, chunks, w), cutoff, top)
  {
    if chunks != [] {
      var n := |chunks| - 1;
      forall i | 0 <= i < n ensures Tile(chunks[..n], i, from, size, top) {
        assert Tile(chunks, i, from, size, top);
      }
      AfterChunksAnchored(c, req, chunks[..n], w, cutoff, from, size, top);
      assert Tile(chunks, n, from, size, top);
      TilesAscend(chunks, 0, n, from, size, top);
      AfterOneAnchored(AfterChunks(c, req, chunks[..n], w), req, chunks[n], w, n, cutoff, top);
    }
  }

  method HandChunk(store: CanonicalStore, req: Request, chunk: Chunk, w: World, k: nat) returns (end: ChunkEnd)
    requires chunk.headers != []
    modifies store`checkpoints
    ensures store.checkpoints == AfterOne(old(store.checkpoints), req, chunk, w, k)
    ensures end.ListenerThrew? <==> w.outcome(k).Throw?
    ensures end.Stopped? <==> w.outcome(k).Stop?
    ensures end.WriteThrew? <==> w.outcome(k).Ack? && req.persist && !w.writeOk(k)
  {
    match w.outcome(k) {
      case Throw => return ListenerThrew;
      case Stop => return Stopped;
      case Ack(keys) => store.SetManyAtomically(keys, ChunkCheckpoint(chunk));
    }
    if req.persist {
      if !w.writeOk(k) {
        return WriteThrew;
      }
      store.SetCheckpoint(req.key, ChunkCheckpoint(chunk));
    }
    end := Exhausted;
  }

  /** `c` is what the acknowledged chunks made of `c0`, every own-checkpoint write among the first `ok` having succeeded. */
  ghost predicate Handed(c0: Checkpoints, c: Checkpoints, req: Request, chunks: seq<Chunk>, w: World, ok: int) {
    && c == AfterChunks(c0, req, chunks, w)
    && (forall i :: 0 <= i < |chunks| ==> w.outcome(i).Ack?)
    && (forall i :: 0 <= i < ok ==> !req.persist || w.writeOk(i))
  }

  method CompleteChunk(store: CanonicalStore, req: Request, w: World, done: seq<Chunk>, chunk: Chunk,
                       ghost c0: Checkpoints, ghost from: nat, ghost size: nat, ghost top: Block)
    returns (chunks: seq<Chunk>, end: ChunkEnd)
    requires chunk.headers != [] && Tiles(done, from, size, top)
    requires Tile(done + [chunk], |done|, from, size, top)
    requires Handed(c0, store.checkpoints, req, done, w, |done|)
    modifies store`checkpoints
    ensures Tiles(chunks, from, size, top)
    ensures chunks == if end.ListenerThrew? || end.Stopped? then done else done + [chunk]
    ensures Handed(c0, store.checkpoints, req, chunks, w, if end.WriteThrew? then |done| else |chunks|)
    ensures end.ListenerThrew? <==> w.outcome(|done|).Throw?
    ensures end.Stopped? <==> w.outcome(|done|).Stop?
    ensures end.WriteThrew? <==> w.outcome(|done|).Ack? && req.persist && !w.writeOk(|done|)
  {
    end := HandChunk(store, req, chunk, w, |done|);
    chunks := done;
    if end.ListenerThrew? || end.Stopped? {
      return;
    }
    TilesExtend(done, chunk, from, size, top);
    chunks := done + [chunk];
    assert chunks[..|done|] == done;
  }

  lemma SegmentExtend(s: seq<Block>, h: Block, top: Block, lo: nat, hi: int)
    requires IsSegment(s, top, lo, hi) && lo <= hi + 1 <= Number(top) && h == At(top, hi + 1)
    ensures IsSegment(s + [h], top, lo, hi + 1)
  {
  }

  /** Where the loop stands before header `i`: what is prepared follows the chunks already handed out. */
  ghost predicate Preparing(prepared: seq<Block>, chunkStart: nat, chunks: seq<Chunk>, i: nat, from: nat, head: nat, size: nat, top: Block) {
    && from <= chunkStart <= from + i
    && IsSegment(prepared, top, chunkStart, from + i - 1)
    && |prepared| < size
    && (from + i > head ==> prepared == [])
    && Tiles(chunks, from, size, top)
    && chunkStart == if chunks == [] then from else chunks[|chunks| - 1].to + 1
  }

  /** With header `i` the chunk is full, or the head is reached. */
  lemma ChunkFull(prepared: seq<Block>, chunkStart: nat, chunks: seq<Chunk>, i: nat, from: nat, head: nat, size: nat, top: Block)
    requires Preparing(prepared, chunkStart, chunks, i, from, head, size, top) && head == Number(top) && from + i <= head
    requires |prepared| + 1 == size || from + i == head
    ensures var c := Chunk(chunkStart, from + i, prepared + [At(top, from + i)]);
      Tile(chunks + [c], |chunks|, from, size, top)
  {
    SegmentExtend(prepared, At(top, from + i), top, chunkStart, from + i - 1);
  }

  /** Or it takes one more header. */
  lemma ChunkGrows(prepared: seq<Block>, chunkStart: nat, chunks: seq<Chunk>, i: nat, from: nat, head: nat, size: nat, top: Block)
    requires Preparing(prepared, chunkStart, chunks, i, from, head, size, top) && head == Number(top) && from + i < head
    requires |prepared| + 1 < size
    ensures Preparing(prepared + [At(top, from + i)], chunkStart, chunks, i + 1, from, head, size, top)
  {
    SegmentExtend(prepared, At(top, from + i), top, chunkStart, from + i - 1);
  }

  /** How handing out a chunk leaves things: `chunks` are those acknowledged. */
  ghost predicate HandedOut(c0: Checkpoints, c: Checkpoints, req: Request, chunks: seq<Chunk>, end: ChunkEnd, w: World) {
    && Handed(c0, c, req, chunks, w, if end.WriteThrew? then |chunks| - 1 else |chunks|)
    && (end.WriteThrew? ==> chunks != [] && req.persist && !w.writeOk(|chunks| - 1))
    && (end.Stopped? ==> w.outcome(|chunks|).Stop?)
    && (end.ListenerThrew? ==> w.outcome(|chunks|).Throw?)
  }

  /** Hand out a full chunk and get ready for the next one. */
  method HandFullChunk(store: CanonicalStore, req: Request, w: World, done: seq<Chunk>, chunkStart: nat, prepared: seq<Block>, header: Block,
                       ghost c0: Checkpoints, ghost i: nat, ghost from: nat, ghost head: nat, ghost size: nat, ghost top: Block)
    returns (chunks: seq<Chunk>, end: ChunkEnd)
    requires Preparing(prepared, chunkStart, done, i, from, head, size, top) && head == Number(top) && from + i <= head
    requires |prepared| + 1 == size || from + i == head
    requires header == At(top, from + i) && HandedOut(c0, store.checkpoints, req, done, Exhausted, w)
    modifies store`checkpoints
    ensures HandedOut(c0, store.checkpoints, req, chunks, end, w) && Tiles(chunks, from, size, top)
    ensures end.Exhausted? ==> Preparing([], from + i + 1, chunks, i + 1, from, head, size, top) && chunks != [] && chunks[|chunks| - 1].to == from + i
  {
    ChunkFull(prepared, chunkStart, done, i, from, head, size, top);
    var chunk := Chunk(chunkStart, Number(header), prepared + [header]);
    chunks, end := CompleteChunk(store, req, w, done, chunk, c0, from, size, top);
  }

  /** The chunk loop.  `chunks` are those the listener acknowledged. */
  method ProcessChunks(store: CanonicalStore, cfg: Config, req: Request, headers: seq<Block>, from: nat, head: nat,
                       w: World, ghost top: Block)
    returns (chunks: seq<Chunk>, end: ChunkEnd)
    requires cfg.Valid() && head == Number(top)
    requires IsSegment(headers, top, from, head)
    modifies store`checkpoints
    ensures Tiles(chunks, from, cfg.chunkSize, top) && HandedOut(old(store.checkpoints), store.checkpoints, req, chunks, end, w)
    ensures end.Exhausted? && from <= head ==> chunks != [] && chunks[|chunks| - 1].to == head
  {
    ghost var c0 := store.checkpoints;
    chunks, end := [], Exhausted;
    var chunkStart: nat := from;
    var prepared := [];
    for i := 0 to |headers|
      invariant Preparing(prepared, chunkStart, chunks, i, from, head, cfg.chunkSize, top)
      invariant HandedOut(c0, store.checkpoints, req, chunks, Exhausted, w) && end == Exhausted
      invariant from + i > head >= from ==> chunks != [] && chunks[|chunks| - 1].to == head
    {
      var header := headers[i];
      if |prepared| + 1 < cfg.chunkSize && Number(header) != head {
        ChunkGrows(prepared, chunkStart, chunks, i, from, head, cfg.chunkSize, top);
        prepared := prepared + [header];
        continue;
      }
      chunks, end := HandFullChunk(store, req, w, chunks, chunkStart, prepared, header, c0, i, from, head, cfg.chunkSize, top);
      if end != Exhausted {
        return;
      }
      prepared, chunkStart := [], Number(header) + 1;
    }
  }
}
