/** The shared scan refines the single scans: over a whole pass each pair receives
    exactly its own logs, once each and in cursor order. */
module BatchRefinement {
  import opened Blocks
  import opened ChainStore
  import opened CanonicalPass
  import opened ChunkLoop
  import opened CursorOrder
  import opened SwapBatch

  /** The Swap logs of every block, in the order of the block. */
  type Ledger = Block -> seq<RawLog>

  ghost predicate OnLedger(ledger: Ledger, top: Block, l: RawLog) {
    l.number <= Number(top) && l in ledger(At(top, l.number))
  }

  ghost predicate GoodBlock(ledger: Ledger, b: Block) {
    Strict(ledger(b), Key()) && forall l :: l in ledger(b) ==> l.number == Number(b) && l.hash == b
  }

  ghost predicate GoodLedger(ledger: Ledger, top: Block) {
    forall n :: 0 <= n <= Number(top) ==> GoodBlock(ledger, At(top, n))
  }

  function For(address: string): RawLog -> bool { (l: RawLog) => l.address == address }

  /** The logs of one pair in the blocks `lo..hi` of the chain. */
  function OwnLogs(ledger: Ledger, top: Block, address: string, lo: nat, hi: int): seq<RawLog>
    requires hi <= Number(top)
    decreases hi - lo + 1
  {
    if hi < lo then [] else
      OwnLogs(ledger, top, address, lo, hi - 1) + Filter(ledger(At(top, hi)), For(address))
  }

  lemma {:induction false} OwnMember(ledger: Ledger, top: Block, address: string, lo: nat, hi: int, l: RawLog)
    requires hi <= Number(top) && GoodLedger(ledger, top)
    ensures l in OwnLogs(ledger, top, address, lo, hi)
      <==> lo <= l.number <= hi && l.address == address && OnLedger(ledger, top, l)
    decreases hi - lo + 1
  {
    if lo <= hi {
      OwnMember(ledger, top, address, lo, hi - 1, l);
      FilterMember(ledger(At(top, hi)), For(address), l);
      assert GoodBlock(ledger, At(top, hi));
    }
  }

  lemma {:induction false} OwnStrict(ledger: Ledger, top: Block, address: string, lo: nat, hi: int)
    requires hi <= Number(top) && GoodLedger(ledger, top)
    ensures Strict(OwnLogs(ledger, top, address, lo, hi), Key())
    decreases hi - lo + 1
  {
    if lo <= hi {
      OwnStrict(ledger, top, address, lo, hi - 1);
      var a := OwnLogs(ledger, top, address, lo, hi - 1);
      var b := Filter(ledger(At(top, hi)), For(address));
      assert GoodBlock(ledger, At(top, hi));
      FilterStrict(ledger(At(top, hi)), For(address), Key());
      forall i, k | 0 <= i < |a| && 0 <= k < |b| ensures Before(KeyOf(a[i]), KeyOf(b[k])) {
        OwnMember(ledger, top, address, lo, hi - 1, a[i]);
        FilterMember(ledger(At(top, hi)), For(address), b[k]);
      }
    }
  }

  lemma {:induction false} OwnSplit(ledger: Ledger, top: Block, address: string, lo: nat, mid: nat, hi: int)
    requires lo <= mid <= hi + 1 && hi <= Number(top)
    ensures OwnLogs(ledger, top, address, lo, hi) == OwnLogs(ledger, top, address, lo, mid - 1) + OwnLogs(ledger, top, address, mid, hi)
    decreases hi
  {
    if mid <= hi {
      OwnSplit(ledger, top, address, lo, mid, hi - 1);
    }
  }

  // ------------------------------------------------------- honest providers

  /** An answer holds exactly the logs of the asked addresses in the range, in any
      order and any number of times each. */
  ghost predicate Exact(raws: seq<Raw>, ledger: Ledger, top: Block, from: nat, to: nat, addresses: seq<string>) {
    && (forall i :: 0 <= i < |raws| ==> raws[i].Wellformed?)
    && forall l :: Wellformed(l) in raws <==> from <= l.number <= to && l.address in addresses && OnLedger(ledger, top, l)
  }

  ghost predicate Honest(read: Reader, ledger: Ledger, top: Block, from: nat, to: nat) {
    forall addresses :: read(addresses).Some? ==> Exact(read(addresses).value, ledger, top, from, to, addresses)
  }

  lemma {:induction false} AnswersExact(batches: seq<seq<string>>, n: nat, read: Reader, ledger: Ledger, top: Block, from: nat, to: nat)
    requires n <= |batches| && AllAnswered(batches, read) && Honest(read, ledger, top, from, to)
    ensures Exact(Answers(batches, n, read), ledger, top, from, to, Flatten(batches[..n]))
  {
    if n > 0 {
      AnswersExact(batches, n - 1, read, ledger, top, from, to);
      assert batches[..n][..n - 1] == batches[..n - 1];
      assert Exact(read(batches[n - 1]).value, ledger, top, from, to, batches[n - 1]);
    }
  }

  /** Logs of one chain that differ have different cursors. */
  lemma KeysDiffer(ledger: Ledger, top: Block, a: RawLog, b: RawLog)
    requires GoodLedger(ledger, top) && OnLedger(ledger, top, a) && OnLedger(ledger, top, b) && a != b
    ensures KeyOf(a) != KeyOf(b)
  {
    if a.number == b.number {
      var s := ledger(At(top, a.number));
      assert GoodBlock(ledger, At(top, a.number));
      var i :| 0 <= i < |s| && s[i] == a;
      var k :| 0 <= k < |s| && s[k] == b;
      assert Before(KeyOf(s[i]), KeyOf(s[k])) || Before(KeyOf(s[k]), KeyOf(s[i]));
    }
  }

  /** What a provider answered, merged: strictly increasing, and complete. */
  lemma MergedIsStrict(raws: seq<Raw>, ledger: Ledger, top: Block, from: nat, to: nat, addresses: seq<string>)
    requires GoodLedger(ledger, top) && Exact(raws, ledger, top, from, to, addresses)
    ensures Strict(Sort(Distinct(raws), Key()), Key())
    ensures forall l :: l in Sort(Distinct(raws), Key()) <==> from <= l.number <= to && l.address in addresses && OnLedger(ledger, top, l)
  {
    DistinctFacts(raws);
    var d := Distinct(raws);
    forall i, k | 0 <= i < k < |d| ensures KeyOf(d[i]) != KeyOf(d[k]) {
      assert Wellformed(d[i]) in raws && Wellformed(d[k]) in raws;
      KeysDiffer(ledger, top, d[i], d[k]);
    }
    SortStrict(d, Key());
    forall l ensures l in Sort(d, Key()) <==> Wellformed(l) in raws {
      SortMembers(d, Key(), l);
    }
  }

  /** A pair that scans for itself sorts what it read.  When the provider returned each
      of its logs once, in any order, that is exactly its logs in cursor order. */
  lemma SingleScan(logs: seq<RawLog>, ledger: Ledger, top: Block, from: nat, to: nat, address: string)
    requires to <= Number(top) && GoodLedger(ledger, top)
    requires forall i, k :: 0 <= i < k < |logs| ==> logs[i] != logs[k]
    requires forall l :: l in logs <==> from <= l.number <= to && l.address == address && OnLedger(ledger, top, l)
    ensures Sort(logs, Key()) == OwnLogs(ledger, top, address, from, to)
  {
    forall i, k | 0 <= i < k < |logs| ensures KeyOf(logs[i]) != KeyOf(logs[k]) {
      assert logs[i] in logs && logs[k] in logs;
      KeysDiffer(ledger, top, logs[i], logs[k]);
    }
    SortStrict(logs, Key());
    OwnStrict(ledger, top, address, from, to);
    forall l ensures l in Sort(logs, Key()) <==> l in OwnLogs(ledger, top, address, from, to) {
      SortMembers(logs, Key(), l);
      OwnMember(ledger, top, address, from, to, l);
    }
    StrictUnique(Sort(logs, Key()), OwnLogs(ledger, top, address, from, to), Key());
  }

  // ------------------------------------------------------------- one chunk

  lemma ConcernedAddress(entries: seq<Entry>, to: nat, a: string)
    ensures a in AddressList(Concerned(entries, to)) <==> exists e :: e in entries && e.address == a && e.nextBlock <= to
  {
    forall e ensures e in Concerned(entries, to) <==> e in entries && e.nextBlock <= to {
      FilterMember(entries, (e: Entry) => e.nextBlock <= to, e);
    }
    var c := Concerned(entries, to);
    if exists e :: e in entries && e.address == a && e.nextBlock <= to {
      var e :| e in entries && e.address == a && e.nextBlock <= to;
      var i :| 0 <= i < |c| && c[i] == e;
      assert AddressList(c)[i] == a;
    }
  }

  /** Each pair's share of a merged stream is what its own scan of the chunk would give. */
  lemma ShareOfStream(entries: seq<Entry>, chunk: Chunk, raws: seq<Raw>, e: Entry, ledger: Ledger, top: Block)
    requires GoodLedger(ledger, top) && chunk.to <= Number(top)
    requires Exact(raws, ledger, top, chunk.from, chunk.to, AddressList(Concerned(entries, chunk.to)))
    requires DistinctEntries(entries) && e in entries
    ensures Strict(Stream(entries, raws), Key())
    ensures Filter(Stream(entries, raws), For(e.address)) == OwnLogs(ledger, top, e.address, Max(e.nextBlock, chunk.from), chunk.to)
  {
    MergedIsStrict(raws, ledger, top, chunk.from, chunk.to, AddressList(Concerned(entries, chunk.to)));
    var merged := Sort(Distinct(raws), Key());
    var wanted := (l: RawLog) => Wanted(entries, l);
    var stream := Stream(entries, raws);
    FilterStrict(merged, wanted, Key());
    FilterStrict(stream, For(e.address), Key());
    var lo := Max(e.nextBlock, chunk.from);
    OwnStrict(ledger, top, e.address, lo, chunk.to);
    forall l ensures l in Filter(stream, For(e.address)) <==> l in OwnLogs(ledger, top, e.address, lo, chunk.to) {
      FilterMember(stream, For(e.address), l);
      FilterMember(merged, wanted, l);
      OwnMember(ledger, top, e.address, lo, chunk.to, l);
      ConcernedAddress(entries, chunk.to, e.address);
      if l.address == e.address {
        assert Wanted(entries, l) <==> e.nextBlock <= l.number by { OnlyEntry(entries, e); }
      }
    }
    StrictUnique(Filter(stream, For(e.address)), OwnLogs(ledger, top, e.address, lo, chunk.to), Key());
  }

  lemma OnlyEntry(entries: seq<Entry>, e: Entry)
    requires DistinctEntries(entries) && e in entries
    ensures forall f :: f in entries && f.address == e.address ==> f == e
  {
  }

  lemma ReadIsExact(raws: seq<Raw>, concerned: seq<Entry>, read: Reader, ledger: Ledger, top: Block, from: nat, to: nat)
    requires ReadFor(raws, concerned, read) && Honest(read, ledger, top, from, to)
    ensures Exact(raws, ledger, top, from, to, AddressList(concerned))
  {
    var batches :| Flatten(batches) == AddressList(concerned) && AllAnswered(batches, read) && raws == Answers(batches, |batches|, read);
    assert batches[..|batches|] == batches;
    AnswersExact(batches, |batches|, read, ledger, top, from, to);
  }

  /** The identity of a log is used once on the chain. */
  ghost predicate UniqueIdentities(ledger: Ledger, top: Block) {
    forall a, b :: OnLedger(ledger, top, a) && OnLedger(ledger, top, b) && Identity(a) == Identity(b) ==> a == b
  }

  lemma {:induction false} ExpectedHeader(headers: seq<Block>, top: Block, lo: nat, hi: int, n: nat)
    requires IsSegment(headers, top, lo, hi) && lo <= n <= hi
    ensures n in Expected(headers) && Expected(headers)[n] == At(top, n)
    decreases |headers|
  {
    var k := |headers| - 1;
    assert headers[k] == At(top, lo + k);
    if n < hi {
      ExpectedHeader(headers[..k], top, lo, hi - 1, n);
    }
  }

  /** Honest answers pass every check. */
  lemma HonestIsAcceptable(raws: seq<Raw>, entries: seq<Entry>, chunk: Chunk, ledger: Ledger, top: Block)
    requires GoodLedger(ledger, top) && UniqueIdentities(ledger, top)
    requires chunk.to <= Number(top) && IsSegment(chunk.headers, top, chunk.from, chunk.to)
    requires Exact(raws, ledger, top, chunk.from, chunk.to, AddressList(Concerned(entries, chunk.to)))
    ensures AllAcceptable(raws, entries, chunk)
  {
    forall i | 0 <= i < |raws| ensures Acceptable(raws[i], chunk.from, chunk.to, Expected(chunk.headers), Addresses(entries)) {
      var l := raws[i].log;
      assert Wellformed(l) in raws;
      assert GoodBlock(ledger, At(top, l.number));
      ExpectedHeader(chunk.headers, top, chunk.from, chunk.to, l.number);
      ConcernedAddress(entries, chunk.to, l.address);
      assert l.address in Addresses(entries);
    }
    forall i, k | 0 <= i < |raws| && 0 <= k < |raws| && Identity(raws[i].log) == Identity(raws[k].log)
      ensures raws[i].log == raws[k].log
    {
      assert Wellformed(raws[i].log) in raws && Wellformed(raws[k].log) in raws;
    }
  }

  /** A completed chunk with an honest provider. */
  lemma ChunkRefines(entries: seq<Entry>, chunk: Chunk, env: Env, delivered: seq<RawLog>, raws: seq<Raw>, e: Entry,
                     ledger: Ledger, top: Block)
    requires GoodLedger(ledger, top) && chunk.to <= Number(top) && Honest(env.read, ledger, top, chunk.from, chunk.to)
    requires DistinctEntries(entries) && e in entries && Delivered(entries, chunk, env, delivered, raws)
    ensures Strict(delivered, Key())
    ensures forall l :: l in delivered ==> chunk.from <= l.number <= chunk.to
    ensures Filter(delivered, For(e.address)) == OwnLogs(ledger, top, e.address, Max(e.nextBlock, chunk.from), chunk.to)
  {
    if Concerned(entries, chunk.to) == [] {
      FilterMember(entries, (e: Entry) => e.nextBlock <= chunk.to, e);
    } else {
      ReadIsExact(raws, Concerned(entries, chunk.to), env.read, ledger, top, chunk.from, chunk.to);
      ShareOfStream(entries, chunk, raws, e, ledger, top);
      forall l | l in delivered ensures chunk.from <= l.number <= chunk.to {
        FilterMember(Sort(Distinct(raws), Key()), (l: RawLog) => Wanted(entries, l), l);
        SortMembers(Distinct(raws), Key(), l);
        DistinctFacts(raws);
        assert Wellformed(l) in raws;
      }
    }
  }

  // ------------------------------------------------------------ whole pass

  /** Where an entry stands once everything up to `reached` is done. */
  function Moved(e: Entry, reached: nat): Entry {
    if e.nextBlock <= reached then e.(nextBlock := reached + 1) else e
  }

  ghost predicate AllMoved(entries: seq<Entry>, after: seq<Entry>, reached: nat) {
    |after| == |entries| && forall i :: 0 <= i < |entries| ==> after[i] == Moved(entries[i], reached)
  }

  /** The whole stream so far is in cursor order and ends at or below `reached`. */
  ghost predicate Streamed(delivered: seq<RawLog>, reached: int) {
    Strict(delivered, Key()) && forall l :: l in delivered ==> l.number <= reached
  }

  ghost predicate AllShared(delivered: seq<RawLog>, entries: seq<Entry>, ledger: Ledger, top: Block, from: nat, reached: nat)
    requires reached <= Number(top)
  {
    forall e :: e in entries ==> Share(delivered, e, ledger, top, from, reached)
  }

  /** After the chunks up to and including block `reached`. */
  ghost predicate Progress(entries: seq<Entry>, after: seq<Entry>, delivered: seq<RawLog>, c0: Checkpoints, c: Checkpoints,
                           ledger: Ledger, top: Block, from: nat, reached: nat)
    requires reached <= Number(top)
  {
    && AllMoved(entries, after, reached)
    && Streamed(delivered, reached)
    && AllShared(delivered, entries, ledger, top, from, reached)
    && CheckpointsAt(c0, c, entries, reached, top)
  }

  /** The pair's part of the merged stream is exactly its own logs up to `reached`. */
  ghost predicate Share(delivered: seq<RawLog>, e: Entry, ledger: Ledger, top: Block, from: nat, reached: nat)
    requires reached <= Number(top)
  {
    Filter(delivered, For(e.address)) == OwnLogs(ledger, top, e.address, Max(e.nextBlock, from), reached)
  }

  /** Every checkpoint a chunk concerned is at `reached`, with that block's hash; no other has moved. */
  ghost predicate CheckpointsAt(c0: Checkpoints, c: Checkpoints, entries: seq<Entry>, reached: nat, top: Block)
    requires reached <= Number(top)
  {
    forall k: string ::
      if k in Keys(Concerned(entries, reached)) then k in c && c[k] == Checkpoint(reached, Some(At(top, reached)))
      else (k in c <==> k in c0) && (k in c ==> c[k] == c0[k])
  }

  lemma ConcernedKeys(entries: seq<Entry>, to: nat, k: string)
    ensures k in Keys(Concerned(entries, to)) <==> exists e :: e in entries && e.key == k && e.nextBlock <= to
  {
    forall e ensures e in Concerned(entries, to) <==> e in entries && e.nextBlock <= to {
      FilterMember(entries, (e: Entry) => e.nextBlock <= to, e);
    }
  }

  lemma MovedKeys(entries: seq<Entry>, after: seq<Entry>, reached: nat, to: nat, k: string)
    requires reached < to && AllMoved(entries, after, reached)
    ensures k in Keys(Concerned(after, to)) <==> k in Keys(Concerned(entries, to))
  {
    ConcernedKeys(entries, to, k);
    ConcernedKeys(after, to, k);
    if exists e :: e in entries && e.key == k && e.nextBlock <= to {
      var e :| e in entries && e.key == k && e.nextBlock <= to;
      var i :| 0 <= i < |entries| && entries[i] == e;
      assert after[i] in after;
    }
    if exists e :: e in after && e.key == k && e.nextBlock <= to {
      var e :| e in after && e.key == k && e.nextBlock <= to;
      var i :| 0 <= i < |entries| && after[i] == e;
      assert entries[i] in entries;
    }
  }

  lemma CheckpointsFirst(c0: Checkpoints, c: Checkpoints, entries: seq<Entry>, chunk: Chunk, top: Block)
    requires chunk.from <= chunk.to <= Number(top) && IsSegment(chunk.headers, top, chunk.from, chunk.to)
    requires CheckpointsAfter(c0, c, entries, chunk)
    ensures CheckpointsAt(c0, c, entries, chunk.to, top)
  {
  }

  lemma CheckpointsStep(c0: Checkpoints, c1: Checkpoints, c2: Checkpoints, entries: seq<Entry>, mid: seq<Entry>,
                        reached: nat, chunk: Chunk, top: Block)
    requires reached < chunk.from <= chunk.to <= Number(top) && IsSegment(chunk.headers, top, chunk.from, chunk.to)
    requires AllMoved(entries, mid, reached) && CheckpointsAt(c0, c1, entries, reached, top)
    requires CheckpointsAfter(c1, c2, mid, chunk)
    ensures CheckpointsAt(c0, c2, entries, chunk.to, top)
  {
    CheckpointsFirst(c1, c2, mid, chunk, top);
    forall k: string
      ensures if k in Keys(Concerned(entries, chunk.to)) then k in c2 && c2[k] == Checkpoint(chunk.to, Some(At(top, chunk.to)))
              else (k in c2 <==> k in c0) && (k in c2 ==> c2[k] == c0[k])
    {
      MovedKeys(entries, mid, reached, chunk.to, k);
      ConcernedKeys(entries, reached, k);
      ConcernedKeys(entries, chunk.to, k);
    }
  }

  /** One completed chunk read from an honest provider. */
  ghost predicate GoodChunk(mid: seq<Entry>, chunk: Chunk, env: Env, now: seq<RawLog>, raws: seq<Raw>, ledger: Ledger, top: Block) {
    && GoodLedger(ledger, top) && chunk.from <= chunk.to <= Number(top) && Honest(env.read, ledger, top, chunk.from, chunk.to)
    && DistinctEntries(mid) && Delivered(mid, chunk, env, now, raws)
  }

  lemma ShareFirst(entries: seq<Entry>, chunk: Chunk, env: Env, now: seq<RawLog>, raws: seq<Raw>, ledger: Ledger, top: Block)
    requires GoodChunk(entries, chunk, env, now, raws, ledger, top)
    ensures AllShared(now, entries, ledger, top, chunk.from, chunk.to)
    ensures Streamed(now, chunk.to) && forall l :: l in now ==> chunk.from <= l.number
  {
    forall e | e in entries ensures Share(now, e, ledger, top, chunk.from, chunk.to) {
      ChunkRefines(entries, chunk, env, now, raws, e, ledger, top);
    }
    if entries == [] {
      assert Concerned(entries, chunk.to) == [];
    } else {
      ChunkRefines(entries, chunk, env, now, raws, entries[0], ledger, top);
    }
  }

  lemma ShareStep(before: seq<RawLog>, now: seq<RawLog>, e: Entry, ledger: Ledger, top: Block, from: nat, reached: nat, chunk: Chunk)
    requires from <= reached < chunk.from == reached + 1 <= chunk.to <= Number(top)
    requires Share(before, e, ledger, top, from, reached)
    requires Share(now, Moved(e, reached), ledger, top, chunk.from, chunk.to)
    ensures Share(before + now, e, ledger, top, from, chunk.to)
  {
    FilterConcat(before, now, For(e.address));
    var lo := Max(e.nextBlock, from);
    if lo <= chunk.from {
      OwnSplit(ledger, top, e.address, lo, chunk.from, chunk.to);
    }
  }

  lemma AllShareStep(entries: seq<Entry>, mid: seq<Entry>, before: seq<RawLog>, now: seq<RawLog>, ledger: Ledger, top: Block,
                     from: nat, reached: nat, chunk: Chunk)
    requires from <= reached < chunk.from == reached + 1 <= chunk.to <= Number(top)
    requires AllMoved(entries, mid, reached) && AllShared(before, entries, ledger, top, from, reached)
    requires AllShared(now, mid, ledger, top, chunk.from, chunk.to)
    ensures AllShared(before + now, entries, ledger, top, from, chunk.to)
  {
    forall e | e in entries ensures Share(before + now, e, ledger, top, from, chunk.to) {
      var i :| 0 <= i < |entries| && entries[i] == e;
      assert mid[i] in mid;
      ShareStep(before, now, e, ledger, top, from, reached, chunk);
    }
  }

  lemma StreamStep(before: seq<RawLog>, now: seq<RawLog>, reached: nat, chunk: Chunk)
    requires reached < chunk.from <= chunk.to && Streamed(before, reached) && Streamed(now, chunk.to)
    requires forall l :: l in now ==> chunk.from <= l.number
    ensures Streamed(before + now, chunk.to)
  {
    StrictConcat(before, now, Key());
  }

  lemma MovedStep(entries: seq<Entry>, mid: seq<Entry>, reached: nat, to: nat)
    requires reached < to && AllMoved(entries, mid, reached)
    ensures AllMoved(entries, Advanced(mid, to), to)
  {
  }

  lemma MovedDistinct(entries: seq<Entry>, mid: seq<Entry>, reached: nat)
    requires AllMoved(entries, mid, reached) && DistinctEntries(entries)
    ensures DistinctEntries(mid)
  {
  }

  lemma ProgressFirst(entries: seq<Entry>, chunk: Chunk, env: Env, now: seq<RawLog>, raws: seq<Raw>,
                      c0: Checkpoints, c: Checkpoints, ledger: Ledger, top: Block)
    requires GoodChunk(entries, chunk, env, now, raws, ledger, top)
    requires IsSegment(chunk.headers, top, chunk.from, chunk.to) && CheckpointsAfter(c0, c, entries, chunk)
    ensures Progress(entries, Advanced(entries, chunk.to), now, c0, c, ledger, top, chunk.from, chunk.to)
  {
    ShareFirst(entries, chunk, env, now, raws, ledger, top);
    CheckpointsFirst(c0, c, entries, chunk, top);
  }

  lemma ProgressStep(entries: seq<Entry>, mid: seq<Entry>, chunk: Chunk, before: seq<RawLog>, now: seq<RawLog>, raws: seq<Raw>,
                     env: Env, c0: Checkpoints, c1: Checkpoints, c2: Checkpoints, ledger: Ledger, top: Block, from: nat, reached: nat)
    requires from <= reached < chunk.from == reached + 1 && reached <= Number(top)
    requires Progress(entries, mid, before, c0, c1, ledger, top, from, reached)
    requires GoodChunk(mid, chunk, env, now, raws, ledger, top)
    requires IsSegment(chunk.headers, top, chunk.from, chunk.to) && CheckpointsAfter(c1, c2, mid, chunk)
    ensures Progress(entries, Advanced(mid, chunk.to), before + now, c0, c2, ledger, top, from, chunk.to)
  {
    ShareFirst(mid, chunk, env, now, raws, ledger, top);
    AllShareStep(entries, mid, before, now, ledger, top, from, reached, chunk);
    StreamStep(before, now, reached, chunk);
    MovedStep(entries, mid, reached, chunk.to);
    CheckpointsStep(c0, c1, c2, entries, mid, reached, chunk, top);
  }

  ghost predicate AllHonest(envs: nat -> Env, chunks: seq<Chunk>, ledger: Ledger, top: Block) {
    forall i :: 0 <= i < |chunks| ==> Honest(envs(i).read, ledger, top, chunks[i].from, chunks[i].to)
  }

  /** After the first `n` chunks. */
  ghost predicate Reached(entries: seq<Entry>, after: seq<Entry>, delivered: seq<RawLog>, c0: Checkpoints, c: Checkpoints,
                          ledger: Ledger, top: Block, from: nat, chunks: seq<Chunk>, n: nat)
    requires n <= |chunks|
  {
    if n == 0 then after == entries && delivered == [] && c == c0 else (
      && from <= chunks[n - 1].to <= Number(top)
      && Progress(entries, after, delivered, c0, c, ledger, top, from, chunks[n - 1].to))
  }

  lemma ReachedStep(entries: seq<Entry>, mid: seq<Entry>, before: seq<RawLog>, now: seq<RawLog>, raws: seq<Raw>, envs: nat -> Env,
                    c0: Checkpoints, c1: Checkpoints, c2: Checkpoints, ledger: Ledger, top: Block,
                    from: nat, size: nat, chunks: seq<Chunk>, n: nat)
    requires n < |chunks| && Tiles(chunks, from, size, top) && AllHonest(envs, chunks, ledger, top)
    requires GoodLedger(ledger, top) && DistinctEntries(entries)
    requires Reached(entries, mid, before, c0, c1, ledger, top, from, chunks, n)
    requires Delivered(mid, chunks[n], envs(n), now, raws) && CheckpointsAfter(c1, c2, mid, chunks[n])
    ensures Reached(entries, Advanced(mid, chunks[n].to), before + now, c0, c2, ledger, top, from, chunks, n + 1)
  {
    assert Tile(chunks, n, from, size, top);
    if n == 0 {
      ProgressFirst(entries, chunks[n], envs(n), now, raws, c0, c2, ledger, top);
      assert before + now == now;
    } else {
      MovedDistinct(entries, mid, chunks[n - 1].to);
      ProgressStep(entries, mid, chunks[n], before, now, raws, envs(n), c0, c1, c2, ledger, top, from, chunks[n - 1].to);
    }
  }

  /** The circumstances of a pass: the chunks tile the range and every provider answer is honest. */
  ghost predicate Setting(entries: seq<Entry>, envs: nat -> Env, ledger: Ledger, top: Block, from: nat, size: nat, chunks: seq<Chunk>) {
    && Tiles(chunks, from, size, top) && AllHonest(envs, chunks, ledger, top)
    && GoodLedger(ledger, top) && DistinctEntries(entries)
  }

  method RunOne(store: CanonicalStore, mid: seq<Entry>, before: seq<RawLog>, chunks: seq<Chunk>, n: nat, envs: nat -> Env,
                maxAddresses: nat, ghost entries: seq<Entry>, ghost c0: Checkpoints, ghost ledger: Ledger, ghost top: Block,
                ghost from: nat, ghost size: nat)
    returns (r: Result, after: seq<Entry>, delivered: seq<RawLog>)
    requires maxAddresses >= 1 && n < |chunks| && Setting(entries, envs, ledger, top, from, size, chunks)
    requires Reached(entries, mid, before, c0, store.checkpoints, ledger, top, from, chunks, n)
    modifies store`checkpoints
    ensures Reached(entries, after, delivered, c0, store.checkpoints, ledger, top, from, chunks, if r.Done? then n + 1 else n)
    ensures Smooth(envs(n)) && UniqueIdentities(ledger, top) ==> r.Done?
  {
    ghost var c1 := store.checkpoints;
    var now, raws;
    r, after, now, raws := ProcessChunk(store, mid, chunks[n], envs(n), maxAddresses);
    delivered := before;
    if r.Done? {
      ReachedStep(entries, mid, before, now, raws, envs, c0, c1, store.checkpoints, ledger, top, from, size, chunks, n);
      delivered := before + now;
    } else if Smooth(envs(n)) && UniqueIdentities(ledger, top) {
      assert Tile(chunks, n, from, size, top);
      SmoothChunkIsDone(chunks[n], envs(n), mid, raws, ledger, top);
    }
  }

  lemma SegmentIsComplete(chunk: Chunk, top: Block)
    requires chunk.from <= chunk.to && IsSegment(chunk.headers, top, chunk.from, chunk.to)
    ensures Complete(chunk)
  {
    assert chunk.headers[|chunk.headers| - 1] == At(top, chunk.to);
  }

  /** With an honest provider and nothing going wrong outside, a chunk has no reason to fail. */
  lemma SmoothChunkIsDone(chunk: Chunk, env: Env, mid: seq<Entry>, raws: seq<Raw>, ledger: Ledger, top: Block)
    requires chunk.from <= chunk.to <= Number(top) && IsSegment(chunk.headers, top, chunk.from, chunk.to)
    requires GoodLedger(ledger, top) && UniqueIdentities(ledger, top) && Honest(env.read, ledger, top, chunk.from, chunk.to)
    requires ReadFor(raws, Concerned(mid, chunk.to), env.read)
    ensures Complete(chunk) && AllAcceptable(raws, mid, chunk)
  {
    SegmentIsComplete(chunk, top);
    ReadIsExact(raws, Concerned(mid, chunk.to), env.read, ledger, top, chunk.from, chunk.to);
    HonestIsAcceptable(raws, mid, chunk, ledger, top);
  }

  /** A pass of the shared scan.  However far it gets, each pair has received exactly its
      own logs from its starting block to the end of the last completed chunk, the
      stream as a whole is in cursor order, and the checkpoints concerned stand there. */
  method RunBatch(store: CanonicalStore, entries: seq<Entry>, chunks: seq<Chunk>, envs: nat -> Env, maxAddresses: nat,
                  ghost ledger: Ledger, ghost top: Block, ghost from: nat, ghost size: nat)
    returns (r: Result, n: nat, after: seq<Entry>, delivered: seq<RawLog>)
    requires maxAddresses >= 1 && Setting(entries, envs, ledger, top, from, size, chunks)
    modifies store`checkpoints
    ensures n <= |chunks| && (r.Done? <==> n == |chunks|)
    ensures UniqueIdentities(ledger, top) && (forall i :: 0 <= i < |chunks| ==> Smooth(envs(i))) ==> r.Done?
    ensures Reached(entries, after, delivered, old(store.checkpoints), store.checkpoints, ledger, top, from, chunks, n)
  {
    ghost var c0 := store.checkpoints;
    r, n, after, delivered := Done, 0, entries, [];
    while n < |chunks|
      invariant n <= |chunks| && r == Done
      invariant Reached(entries, after, delivered, c0, store.checkpoints, ledger, top, from, chunks, n)
    {
      r, after, delivered := RunOne(store, after, delivered, chunks, n, envs, maxAddresses,
                                    entries, c0, ledger, top, from, size);
      if !r.Done? {
        return;
      }
      n := n + 1;
    }
  }
}
