/** One serialised pass of the coordinator over a confirmed range: plan, scan,
    persist the journal, hand chunks to the listener, move its checkpoint, prune.
    A pass may stop at any database or network call. */
module CanonicalPass {
  import opened Blocks
  import opened ChainStore
  import opened CanonicalScan
  import opened ChunkLoop

  // ------------------------------------------------------------------ plan

  function ConfirmedHead(latest: nat, confirmations: nat): Option<nat> {
    if latest < confirmations then None else Some(latest - confirmations)
  }

  function WindowStart(head: nat): nat {
    if head > RETENTION - 1 then head - (RETENTION - 1) else 0
  }

  function Chosen(req: Request, c: Checkpoints): Option<Checkpoint> {
    if req.checkpoint.Some? then req.checkpoint
    else if !req.ignoreStored && req.key in c then Some(c[req.key])
    else None
  }

  predicate NeedsCutoffAnchor(cutoff: Block, cp: Option<Checkpoint>) {
    cp.Some? && (cp.value.number < Number(cutoff)
                 || (cp.value.number == Number(cutoff) && cp.value.hash != Some(cutoff)))
  }

  function Effective(cutoff: Block, cp: Option<Checkpoint>): Option<Checkpoint> {
    if NeedsCutoffAnchor(cutoff, cp) then Some(Checkpoint(Number(cutoff), Some(cutoff))) else cp
  }

  function FromBlock(cutoff: Block, req: Request, eff: Option<Checkpoint>, head: nat): nat {
    Max(if eff.Some? then eff.value.number + 1 else if req.bootstrapHead then head else req.startBlock,
        Number(cutoff) + 1)
  }

  /** Where the journal must start: the retention window, further down if the
      oldest checkpoint is older, never below the cutoff. */
  function JournalStart(cutoff: Block, oldest: Option<nat>, head: nat): nat {
    var o := if oldest.None? || oldest.value < Number(cutoff) then Number(cutoff) else oldest.value;
    Max(Min(o, WindowStart(head)), Number(cutoff))
  }

  datatype Plan = Plan(head: nat, tip: Block, known: Journal, effective: Option<Checkpoint>,
                       needsAnchor: bool, from: nat, journalStart: nat, needsJournal: bool)

  datatype PlanResult =
    | Skip
    | Fail
    | Divergence(oldTip: Block, remote: Block, rows: seq<Block>, head: nat)
    | Go(plan: Plan)

  /** The cached headers of a pass are rows of the journal. */
  ghost predicate KnownFrom(known: Journal, j: Journal) {
    forall n :: n in known ==> n in j && known[n] == j[n]
  }

  ghost predicate PlanFits(p: Plan, j: Journal, c: Checkpoints, cfg: Config, req: Request, w: World) {
    && Consistent(j, c, cfg.cutoff)
    && p.tip == TipOf(j) && Number(p.tip) <= p.head
    && w.latest.Some? && ConfirmedHead(w.latest.value, cfg.confirmations) == Some(p.head)
    && w.tipAnswer == Some(p.tip)
    && p.effective == Effective(cfg.cutoff, Chosen(req, c))
    && p.needsAnchor == NeedsCutoffAnchor(cfg.cutoff, Chosen(req, c))
    && (Legacy(p.effective) ==> p.effective.value.number <= p.head)
    && p.from == FromBlock(cfg.cutoff, req, p.effective, p.head)
    && (exists o :: IsOldest(c, o) && p.journalStart == JournalStart(cfg.cutoff, o, p.head))
    && (Number(p.tip) in p.known && p.known[Number(p.tip)] == p.tip) && KnownFrom(p.known, j)
    && (!p.needsJournal ==> Number(p.tip) == p.head && forall n :: p.journalStart <= n <= p.head ==> n in j)
  }

  lemma {:induction false} TopRowsSound(j: Journal, tip: Block, limit: nat)
    requires forall n :: n in j ==> n <= Number(tip) && j[n] == At(tip, n)
    ensures forall b :: b in TopRows(j, limit) ==> Number(b) in j && j[Number(b)] == b
    decreases limit
  {
    if limit != 0 && j != map[] {
      TopRowsSound(j - {MaxKey(j.Keys)}, tip, limit - 1);
    }
  }

  lemma {:induction false} UpsertFrom(j: Journal, rows: seq<Block>, n: nat)
    requires n in Upsert(j, rows)
    ensures n in j || (Upsert(j, rows)[n] in rows && Number(Upsert(j, rows)[n]) == n)
    ensures (forall b :: b in rows ==> Number(b) != n) ==> n in j && Upsert(j, rows)[n] == j[n]
  {
    if rows != [] {
      var k := |rows| - 1;
      if Number(rows[k]) != n {
        UpsertFrom(j, rows[..k], n);
      }
    }
  }

  /** The cached headers a pass works with are journal rows. */
  lemma KnownAreRows(j: Journal, tip: Block, rows: seq<Block>, known: Journal)
    requires Rooted(j, tip) && rows == TopRows(j, RETENTION)
    requires known == Upsert(map[], rows)[Number(tip) := tip]
    ensures KnownFrom(known, j)
  {
    TopRowsSound(j, tip, RETENTION);
    forall n | n in known ensures n in j && known[n] == j[n] {
      if n != Number(tip) {
        UpsertFrom(map[], rows, n);
      }
    }
  }

  lemma RowsAreLinked(j: Journal, tip: Block, known: Journal)
    requires Rooted(j, tip) && KnownFrom(known, j)
    ensures forall n: nat :: !Broken(known, n)
  {
    forall n: nat | n > 0 && n - 1 in known && n in known ensures Follows(known[n - 1], known[n]) {
      AtFollows(tip, n - 1);
    }
  }

  /** There is nothing to do at this head, or the stored state is ahead of it. */
  ghost predicate MustSkip(latest: nat, tip: Block, c: Checkpoints, cfg: Config, req: Request) {
    var head := ConfirmedHead(latest, cfg.confirmations);
    var cp := Chosen(req, c);
    head.None? || head.value < Number(cfg.cutoff) || head.value < Number(tip) || (Legacy(cp) && cp.value.number > head.value)
  }

  /** The reader gives no header for the height of the stored tip. */
  predicate TipUnreadable(tip: Block, w: World) {
    w.tipAnswer.None? || Number(w.tipAnswer.value) != Number(tip)
  }

  /** Exactly when a pass ends before any header is scanned, and how. */
  ghost predicate EndsEarly(skipped: bool, failed: bool, diverged: bool, tip: Block, c: Checkpoints, cfg: Config, req: Request, w: World) {
    && (skipped <==> w.latest.Some? && MustSkip(w.latest.value, tip, c, cfg, req))
    && (failed <==> w.latest.None? || (!MustSkip(w.latest.value, tip, c, cfg, req) && TipUnreadable(tip, w)))
    && (diverged <==> w.latest.Some? && !MustSkip(w.latest.value, tip, c, cfg, req) && !TipUnreadable(tip, w) && w.tipAnswer != Some(tip))
  }

  /** The checks and reads that come before any header is scanned. */
  method MakePlan(store: CanonicalStore, cfg: Config, req: Request, w: World) returns (r: PlanResult)
    requires cfg.Valid() && store.Valid() && store.cutoff == Some(cfg.cutoff)
    ensures r.Go? ==> PlanFits(r.plan, store.journal, store.checkpoints, cfg, req, w)
    ensures EndsEarly(r.Skip?, r.Fail?, r.Divergence?, store.Tip(), store.checkpoints, cfg, req, w)
    ensures r.Divergence? ==>
      && r.oldTip == store.Tip() && Number(r.oldTip) <= r.head
      && w.tipAnswer == Some(r.remote) && Number(r.remote) == Number(r.oldTip) && r.remote != r.oldTip
      && r.rows == TopRows(store.journal, RETENTION)
  {
    if w.latest.None? {
      return Fail;
    }
    var confirmed := ConfirmedHead(w.latest.value, cfg.confirmations);
    if confirmed.None? || confirmed.value < Number(cfg.cutoff) {
      return Skip;
    }
    var head := confirmed.value;
    var storedTip := store.GetCanonicalTip();
    var tip := storedTip.value;
    if Number(tip) > head {
      return Skip;
    }
    var checkpoint := Chosen(req, store.checkpoints);
    var effective := Effective(cfg.cutoff, checkpoint);
    if Legacy(checkpoint) && checkpoint.value.number > head {
      return Skip;
    }
    var oldest := store.GetOldestBlockNumber();
    var rows := store.ListCanonicalDescending(RETENTION);
    if w.tipAnswer.None? || Number(w.tipAnswer.value) != Number(tip) {
      return Fail;
    }
    if w.tipAnswer.value != tip {
      return Divergence(tip, w.tipAnswer.value, rows, head);
    }
    var known := Upsert(map[], rows)[Number(tip) := tip];
    KnownAreRows(store.journal, tip, rows, known);
    RowsAreLinked(store.journal, tip, known);
    var journalStart := JournalStart(cfg.cutoff, oldest, head);
    var cached := HasContinuousCachedJournal(known, journalStart, head);
    assert cached.Some?;  // cached rows of one chain are always linked
    if cached.value {
      assert head in known;
    }
    r := Go(Plan(head, tip, known, effective, NeedsCutoffAnchor(cfg.cutoff, checkpoint),
                 FromBlock(cfg.cutoff, req, effective, head), journalStart, !cached.value));
  }

  // --------------------------------------------------------------- persist

  lemma ConsistentAt(j: Journal, c: Checkpoints, cutoff: Block, tip: Block)
    requires Rooted(j, tip) && OnChain(tip, cutoff) && Anchored(c, cutoff, tip)
    requires forall n :: n in j ==> Number(cutoff) <= n
    ensures Consistent(j, c, cutoff) && TipOf(j) == tip
  {
    TipIs(j, tip);
  }

  function Saved(headers: seq<Block>, batches: nat): nat {
    Min(batches * RETENTION, |headers|)
  }

  /** However many batches of a scanned segment were saved, the state is consistent. */
  lemma PersistConsistent(j: Journal, c: Checkpoints, cutoff: Block, top: Block, headers: seq<Block>, lo: nat, batches: nat)
    requires Consistent(j, c, cutoff) && OnChain(top, TipOf(j))
    requires Number(cutoff) <= lo <= Number(TipOf(j)) && IsSegment(headers, top, lo, Number(top))
    ensures var r := AfterBatches(j, headers, batches);
      && Consistent(r, c, cutoff)
      && OnChain(TipOf(r), TipOf(j)) && OnChain(top, TipOf(r))
      && IsOverlay(j, r, top, lo, Saved(headers, batches))
      && (Saved(headers, batches) == |headers| ==> TipOf(r) == top)
  {
    var n := Saved(headers, batches);
    var r := AfterBatches(j, headers, batches);
    UpsertSegment(j, headers[..n], top, lo);
    OverlayRooted(j, r, TipOf(j), top, lo, n);
    var tip := if n == 0 || lo + n - 1 <= Number(TipOf(j)) then TipOf(j) else At(top, lo + n - 1);
    OnChainTrans(tip, TipOf(j), cutoff);
    AnchoredExtends(c, cutoff, TipOf(j), tip);
    ConsistentAt(r, c, cutoff, tip);
    if tip != TipOf(j) {
      AtAt(top, lo + n - 1, lo + n - 1);
    }
  }

  ghost predicate IsLowest(j: Journal, m: nat) {
    m in j && forall n :: n in j ==> m <= n
  }

  /** What an interrupted persist does to contiguity, exactly: a gap opens if and
      only if something was saved strictly below the lowest row without reaching it. */
  lemma InterruptedPersist(j: Journal, r: Journal, tip: Block, top: Block, lo: nat, n: nat, m: nat)
    requires Rooted(j, tip) && OnChain(top, tip) && Contiguous(j) && IsLowest(j, m)
    requires lo <= Number(tip) && lo + n <= Number(top) + 1 && IsOverlay(j, r, top, lo, n)
    ensures Contiguous(r) <==> n == 0 || lo + n >= m
  {
    if n > 0 && lo + n < m {
      assert lo in r && m in r && lo + n !in r;
    } else {
      forall a, b, d | a in r && d in r && a <= b <= d ensures b in r {
        assert a in r && d in r;
      }
    }
  }

  lemma PruneConsistent(j: Journal, c: Checkpoints, cutoff: Block, before: nat)
    requires Consistent(j, c, cutoff) && before <= Number(TipOf(j))
    ensures Consistent(Prune(j, before), c, cutoff) && TipOf(Prune(j, before)) == TipOf(j)
  {
    ConsistentAt(Prune(j, before), c, cutoff, TipOf(j));
  }

  // --------------------------------------------------------------- execute

  datatype PassEnd =
    | Skipped
    | CallFailed
    | Diverged(oldTip: Block, remote: Block, rows: seq<Block>, head: nat)
    | Incoherent
    | Torn(batches: nat)
    | LegacyFailed
    | ChunkFailed(end: ChunkEnd)
    | AnchorFailed
    | PruneFailed
    | Finished

  /** `top` is the header at the confirmed head that the pass ran against. */
  datatype PassResult = PassResult(end: PassEnd, plan: Option<Plan>, top: Option<Block>, chunks: seq<Chunk>)

  /** Did the pass get past the journal? */
  predicate JournalWritten(end: PassEnd) {
    end.LegacyFailed? || end.ChunkFailed? || end.AnchorFailed? || end.PruneFailed? || end.Finished?
  }

  /** Pruning removed nothing at or above the oldest checkpoint, nor inside the retention window. */
  ghost predicate PrunedSafely(before: Journal, after: Journal, c: Checkpoints, head: nat) {
    && (forall n :: n in after ==> n in before && after[n] == before[n])
    && forall n :: n in before && n !in after ==> n < WindowStart(head) && forall k :: k in c ==> n < c[k].number
  }

  lemma PruneKeepsContiguous(j: Journal, before: nat)
    ensures Contiguous(j) ==> Contiguous(Prune(j, before))
  {
  }

  /** Rows below this height are pruned. */
  function PruneBelow(cutoff: Block, oldest: Option<nat>, head: nat): nat {
    Max(if oldest.None? then WindowStart(head) else Min(WindowStart(head), oldest.value), Number(cutoff))
  }

  ghost predicate Pruned(before: Journal, after: Journal, c: Checkpoints, cutoff: Block, head: nat) {
    exists o :: IsOldest(c, o) && after == Prune(before, PruneBelow(cutoff, o, head))
  }

  method PruneOld(store: CanonicalStore, cutoff: Block, head: nat)
    requires store.Valid() && store.cutoff == Some(cutoff) && head == Number(store.Tip())
    modifies store`journal
    ensures store.Valid() && store.Tip() == old(store.Tip())
    ensures PrunedSafely(old(store.journal), store.journal, store.checkpoints, head)
    ensures Contiguous(old(store.journal)) ==> Contiguous(store.journal)
    ensures Pruned(old(store.journal), store.journal, store.checkpoints, cutoff, head)
  {
    var oldest := store.GetOldestBlockNumber();
    var window := WindowStart(head);
    var retention := if oldest.None? || window < oldest.value then window else oldest.value;
    var before := Max(retention, Number(cutoff));
    PruneConsistent(store.journal, store.checkpoints, cutoff, before);
    PruneKeepsContiguous(store.journal, before);
    store.PruneCanonicalBefore(before);
  }

  function AfterLegacy(c: Checkpoints, req: Request, eff: Option<Checkpoint>, legacy: Option<Block>, ok: bool): Checkpoints {
    if Legacy(eff) && legacy.Some? && req.persist && ok
    then SetAll(c, {req.key}, Checkpoint(eff.value.number, legacy)) else c
  }

  /** A legacy checkpoint gets the hash that was read at its height. */
  method AnchorLegacy(store: CanonicalStore, req: Request, p: Plan, legacy: Option<Block>, w: World)
    returns (ok: bool, persisted: bool)
    modifies store`checkpoints
    ensures store.checkpoints == AfterLegacy(old(store.checkpoints), req, p.effective, legacy, w.legacyOk)
    ensures ok <==> !Legacy(p.effective) || (legacy.Some? && (req.persist ==> w.legacyOk))
    ensures persisted <==> ok && Legacy(p.effective) && req.persist
  {
    ok, persisted := true, false;
    if Legacy(p.effective) {
      if legacy.None? || (req.persist && !w.legacyOk) {
        return false, false;
      }
      if req.persist {
        store.SetCheckpoint(req.key, Checkpoint(p.effective.value.number, legacy));
        persisted := true;
      }
    }
  }

  /** The end of a pass: anchor at the cutoff if nothing was attempted, then prune. */
  method Finish(store: CanonicalStore, cfg: Config, req: Request, w: World, p: Plan, attempted: bool, written: bool)
    returns (end: PassEnd)
    requires store.Valid() && store.cutoff == Some(cfg.cutoff) && p.head == Number(store.Tip())
    modifies store`journal, store`checkpoints
    ensures store.Valid() && store.Tip() == old(store.Tip())
    ensures end.AnchorFailed? || end.PruneFailed? || end.Finished?
    ensures (end.AnchorFailed? ==> !w.anchorOk) && (end.PruneFailed? ==> !w.pruneOk)
    ensures end.Finished? && written ==> Pruned(old(store.journal), store.journal, store.checkpoints, cfg.cutoff, p.head)
    ensures PrunedSafely(old(store.journal), store.journal, store.checkpoints, p.head)
    ensures Contiguous(old(store.journal)) ==> Contiguous(store.journal)
    ensures store.checkpoints == AfterAnchor(old(store.checkpoints), req.key, cfg.cutoff, p.needsAnchor && !attempted && w.anchorOk)
  {
    var changed := written;
    if p.needsAnchor && !attempted {
      if !w.anchorOk {
        return AnchorFailed;
      }
      store.SetCheckpoint(req.key, Checkpoint(Number(cfg.cutoff), Some(cfg.cutoff)));
      changed := true;
      ConsistentAt(store.journal, store.checkpoints, cfg.cutoff, store.Tip());
    }
    if changed {
      if !w.pruneOk {
        return PruneFailed;
      }
      PruneOld(store, cfg.cutoff, p.head);
    }
    end := Finished;
  }

  /** A finished pass that wrote something has pruned everything that is not needed any more. */
  ghost predicate PrunedDown(p: Plan, end: PassEnd, chunks: seq<Chunk>, req: Request, cutoff: Block, j: Journal, c: Checkpoints) {
    end.Finished? && (p.needsJournal || (req.persist && chunks != [])) ==>
      exists o :: IsOldest(c, o) && forall n :: n in j ==> PruneBelow(cutoff, o, p.head) <= n
  }

  ghost predicate RunEffect(p: Plan, end: PassEnd, chunks: seq<Chunk>, cfg: Config, req: Request, w: World, top: Block,
                            j1: Journal, c0: Checkpoints, j: Journal, c: Checkpoints)
  {
    && Tiles(chunks, p.from, cfg.chunkSize, top)
    && PrunedSafely(j1, j, c, p.head)
    && (Contiguous(j1) ==> Contiguous(j))
    && CheckpointsMoved(p, chunks, req, w, cfg.cutoff, c0, c)
    && WritesOk(end, chunks, req, w)
    && ReachesHead(p, end, chunks, w)
    && PrunedDown(p, end, chunks, req, cfg.cutoff, j, c)
  }

  /** Some answer of the scan fails a check. */
  ghost predicate ScanFails(p: Plan, w: World) {
    var s := ScanStart(p.effective, p.tip, p.from, p.head, p.journalStart, p.needsJournal);
    s.Some? && !Coherent(w.read, p.known, p.effective, FirstPrevious(p.effective, p.tip, s.value), s.value, p.head)
  }

  /** A pass that got past its plan stops early only for a reason outside the process. */
  ghost predicate Blamed(p: Plan, end: PassEnd, chunks: seq<Chunk>, req: Request, w: World) {
    match end
    case Incoherent => ScanFails(p, w)
    case Torn(b) => !w.saveOk(b) && forall i :: 0 <= i < b ==> w.saveOk(i)
    case LegacyFailed => Legacy(p.effective)
    case ChunkFailed(e) => if e.ListenerThrew? then w.outcome(|chunks|).Throw?
                           else chunks != [] && req.persist && !w.writeOk(|chunks| - 1)
    case AnchorFailed => !w.anchorOk
    case PruneFailed => !w.pruneOk
    case _ => true
  }

  /** The steps after the journal is written. */
  method RunPrepared(store: CanonicalStore, cfg: Config, req: Request, w: World, p: Plan, prepared: Prepared,
                     saved: bool, ghost top: Block)
    returns (end: PassEnd, chunks: seq<Chunk>)
    requires cfg.Valid() && store.Valid() && store.cutoff == Some(cfg.cutoff)
    requires top == store.Tip() && p.head == Number(top) && Number(cfg.cutoff) < p.from && saved == p.needsJournal
    requires IsSegment(prepared.chunk, top, p.from, p.head)
    requires Legacy(p.effective) ==> Number(cfg.cutoff) <= p.effective.value.number <= p.head
    requires prepared.legacy.Some? ==> Legacy(p.effective) && prepared.legacy.value == At(top, p.effective.value.number)
    modifies store`journal, store`checkpoints
    ensures JournalWritten(end) && Blamed(p, end, chunks, req, w)
    ensures store.Valid() && store.Tip() == top
    ensures RunEffect(p, end, chunks, cfg, req, w, top, old(store.journal), old(store.checkpoints), store.journal, store.checkpoints)
  {
    var ok, anchored := AnchorLegacy(store, req, p, prepared.legacy, w);
    assert Anchored(store.checkpoints, cfg.cutoff, top);
    ghost var c0, c1 := old(store.checkpoints), store.checkpoints;
    if !ok {
      assert MovedBy(p, [], req, w, cfg.cutoff, c0, c1, prepared.legacy, false);
      return LegacyFailed, [];
    }
    var e;
    chunks, e := ProcessChunks(store, cfg, req, prepared.chunk, p.from, p.head, w, top);
    AfterChunksAnchored(c1, req, chunks, w, cfg.cutoff, p.from, cfg.chunkSize, top);
    end := EndRun(store, cfg, req, w, p, chunks, e, saved || anchored || (req.persist && chunks != []), c0, prepared.legacy);
  }

  /** The end of a pass whose chunk loop ended with `e`. */
  method EndRun(store: CanonicalStore, cfg: Config, req: Request, w: World, p: Plan, chunks: seq<Chunk>, e: ChunkEnd, written: bool,
                ghost c0: Checkpoints, ghost legacy: Option<Block>) returns (end: PassEnd)
    requires store.Valid() && store.cutoff == Some(cfg.cutoff) && p.head == Number(store.Tip())
    requires store.checkpoints == AfterChunks(AfterLegacy(c0, req, p.effective, legacy, w.legacyOk), req, chunks, w)
    requires p.needsJournal || (req.persist && chunks != []) ==> written
    modifies store`journal, store`checkpoints
    ensures store.Valid() && store.Tip() == old(store.Tip())
    ensures end == ChunkFailed(e) || end.AnchorFailed? || end.PruneFailed? || end.Finished?
    ensures end == ChunkFailed(e) <==> e.ListenerThrew? || e.WriteThrew?
    ensures (end.AnchorFailed? ==> !w.anchorOk) && (end.PruneFailed? ==> !w.pruneOk)
    ensures CheckpointsMoved(p, chunks, req, w, cfg.cutoff, c0, store.checkpoints)
    ensures PrunedSafely(old(store.journal), store.journal, store.checkpoints, p.head)
    ensures Contiguous(old(store.journal)) ==> Contiguous(store.journal)
    ensures PrunedDown(p, end, chunks, req, cfg.cutoff, store.journal, store.checkpoints)
  {
    if e.ListenerThrew? || e.WriteThrew? {
      assert MovedBy(p, chunks, req, w, cfg.cutoff, c0, store.checkpoints, legacy, false);
      return ChunkFailed(e);
    }
    var attempted := chunks != [] || e.Stopped?;
    ghost var j1 := store.journal;
    end := Finish(store, cfg, req, w, p, attempted, written);
    assert MovedBy(p, chunks, req, w, cfg.cutoff, c0, store.checkpoints, legacy, p.needsAnchor && !attempted && w.anchorOk);
    if end.Finished? && written {
      NothingBelow(j1, store.journal, store.checkpoints, cfg.cutoff, p.head);
    }
  }

  lemma NothingBelow(before: Journal, after: Journal, c: Checkpoints, cutoff: Block, head: nat)
    requires Pruned(before, after, c, cutoff, head)
    ensures exists o :: IsOldest(c, o) && forall n :: n in after ==> PruneBelow(cutoff, o, head) <= n
  {
    var o :| IsOldest(c, o) && after == Prune(before, PruneBelow(cutoff, o, head));
  }

  /** Where a torn persist leaves contiguity. */
  ghost predicate TearOutcome(before: Journal, after: Journal, lo: nat, saved: nat) {
    Contiguous(before) ==> forall m :: IsLowest(before, m) ==> (Contiguous(after) <==> saved == 0 || lo + saved >= m)
  }

  lemma JournalStartBelowTip(j: Journal, c: Checkpoints, cutoff: Block, o: Option<nat>, head: nat)
    requires Consistent(j, c, cutoff) && IsOldest(c, o) && Number(TipOf(j)) <= head
    ensures Number(cutoff) <= JournalStart(cutoff, o, head) <= Number(TipOf(j))
    ensures JournalStart(cutoff, o, head) <= Max(WindowStart(head), Number(cutoff))
  {
  }

  lemma CompletePersistContiguous(j: Journal, r: Journal, tip: Block, top: Block, lo: nat, n: nat)
    requires Rooted(j, tip) && OnChain(top, tip) && Contiguous(j)
    requires lo <= Number(tip) && lo + n == Number(top) + 1 && IsOverlay(j, r, top, lo, n)
    ensures Contiguous(r)
  {
    if j != map[] {
      var m := LowestOf(j);
      InterruptedPersist(j, r, tip, top, lo, n, m);
    }
  }

  ghost function LowestOf(j: Journal): (m: nat)
    requires j != map[]
    ensures IsLowest(j, m)
  {
    var x :| x in j;
    LowestFrom(j, x)
  }

  ghost function LowestFrom(j: Journal, x: nat): (m: nat)
    requires x in j
    ensures IsLowest(j, m)
    decreases x
  {
    if forall n :: n in j ==> x <= n then x else var y :| y in j && y < x; LowestFrom(j, y)
  }

  /** Every batch that the plan's journal needs could be saved. */
  ghost predicate AllSaved(p: Plan, w: World) {
    p.needsJournal ==> forall i: nat :: i * RETENTION < p.head + 1 - p.journalStart ==> w.saveOk(i)
  }

  /** The header at the confirmed head: read in this pass, unless the stored tip is there already. */
  predicate TopRead(p: Plan, top: Block, w: World) {
    w.read(p.head) == Some(top) || (top == p.tip && Number(top) == p.head)
  }

  /** Persist what was scanned, if needed. */
  method WriteJournal(store: CanonicalStore, cfg: Config, w: World, p: Plan, headers: seq<Block>, ghost top: Block)
    returns (batches: nat, ok: bool)
    requires cfg.Valid() && store.Valid() && store.cutoff == Some(cfg.cutoff)
    requires p.tip == store.Tip() && OnChain(top, p.tip) && Number(top) == p.head
    requires Number(cfg.cutoff) <= p.journalStart <= Number(p.tip)
    requires p.needsJournal ==> IsSegment(headers, top, p.journalStart, p.head)
    requires !p.needsJournal ==>
      && headers == [] && top == p.tip
      && forall n :: p.journalStart <= n <= p.head ==> n in store.journal
    modifies store`journal
    ensures store.Valid() && OnChain(store.Tip(), p.tip) && OnChain(top, store.Tip())
    ensures forall n :: n in old(store.journal) ==> n in store.journal && store.journal[n] == old(store.journal)[n]
    ensures ok ==> store.Tip() == top && forall n :: p.journalStart <= n <= p.head ==> n in store.journal
    ensures ok ==> (Contiguous(old(store.journal)) ==> Contiguous(store.journal))
    ensures !ok ==> !w.saveOk(batches) && forall i :: 0 <= i < batches ==> w.saveOk(i)
    ensures ok ==> AllSaved(p, w)
    ensures forall n :: n in store.journal ==> n in old(store.journal) || p.journalStart <= n
    ensures !ok ==> p.needsJournal && TearOutcome(old(store.journal), store.journal, p.journalStart, batches * RETENTION)
  {
    ghost var j0 := store.journal;
    if !p.needsJournal {
      return 0, true;
    }
    batches, ok := PersistJournal(store, headers, w.saveOk);
    PersistConsistent(j0, store.checkpoints, cfg.cutoff, top, headers, p.journalStart, batches);
    OverlayKeeps(j0, store.journal, p.tip, top, p.journalStart, Saved(headers, batches));
    if ok {
      if Contiguous(j0) {
        CompletePersistContiguous(j0, store.journal, p.tip, top, p.journalStart, |headers|);
      }
    } else if Contiguous(j0) {
      forall m | IsLowest(j0, m)
        ensures Contiguous(store.journal) <==> batches * RETENTION == 0 || p.journalStart + batches * RETENTION >= m
      {
        InterruptedPersist(j0, store.journal, p.tip, top, p.journalStart, batches * RETENTION, m);
      }
    }
  }

  lemma OverlayKeeps(j: Journal, r: Journal, tip: Block, top: Block, lo: nat, n: nat)
    requires Rooted(j, tip) && OnChain(top, tip) && lo + n <= Number(top) + 1 && IsOverlay(j, r, top, lo, n)
    ensures forall m :: m in j ==> m in r && r[m] == j[m]
    ensures forall m :: m in r ==> m in j || lo <= m
  {
    forall m | m in j ensures r[m] == j[m] {
      AtAt(top, Number(tip), m);
    }
  }

  /** What one pass did, from the state before it and the state after it. */
  ghost predicate PassEffect(r: PassResult, cfg: Config, req: Request, w: World,
                             j0: Journal, c0: Checkpoints, j: Journal, c: Checkpoints)
    requires j != map[]
  {
    && (r.plan.Some? ==> PlanFits(r.plan.value, j0, c0, cfg, req, w))
    && (r.end.Torn? || JournalWritten(r.end) ==> r.plan.Some? && OutcomeEffect(r, r.plan.value, cfg, req, w, j0, c0, j, c))
  }

  /** What a pass that scanned its headers did. */
  ghost predicate OutcomeEffect(r: PassResult, p: Plan, cfg: Config, req: Request, w: World,
                                j0: Journal, c0: Checkpoints, j: Journal, c: Checkpoints)
  {
    && j != map[]
    && (r.end.Torn? ==> TornEffect(p, r.end.batches, j0, c0, j, c))
    && (JournalWritten(r.end) ==> r.top == Some(TipOf(j)) && WrittenEffect(p, r.end, r.chunks, cfg, req, w, j0, c0, j, c))
  }

  ghost predicate TornEffect(p: Plan, batches: nat, j0: Journal, c0: Checkpoints, j: Journal, c: Checkpoints) {
    && c == c0
    && (forall n :: n in j0 ==> n in j && j[n] == j0[n])
    && TearOutcome(j0, j, p.journalStart, batches * RETENTION)
  }

  ghost predicate WrittenEffect(p: Plan, end: PassEnd, chunks: seq<Chunk>, cfg: Config, req: Request, w: World,
                                j0: Journal, c0: Checkpoints, j: Journal, c: Checkpoints)
    requires j != map[]
  {
    && Number(TipOf(j)) == p.head
    && Tiles(chunks, p.from, cfg.chunkSize, TipOf(j))
    && ContinuesCheckpoint(p, TipOf(j))
    && KeepsRows(j0, j, c, p.head)
    && WindowStored(j, cfg.cutoff, p.head)
    && (forall n :: n in j ==> n in j0 || p.journalStart <= n)
    && (Contiguous(j0) ==> Contiguous(j))
    && CheckpointsMoved(p, chunks, req, w, cfg.cutoff, c0, c)
    && WritesOk(end, chunks, req, w)
    && ReachesHead(p, end, chunks, w)
    && PrunedDown(p, end, chunks, req, cfg.cutoff, j, c)
  }

  function AfterAnchor(c: Checkpoints, key: string, cutoff: Block, anchored: bool): Checkpoints {
    if anchored then SetAll(c, {key}, Checkpoint(Number(cutoff), Some(cutoff))) else c
  }

  /** The checkpoints are those that the acknowledged chunks leave, and no others; a legacy checkpoint
      may have got its hash before, and one below the cutoff may have been raised to it after. */
  ghost predicate CheckpointsMoved(p: Plan, chunks: seq<Chunk>, req: Request, w: World, cutoff: Block,
                                   c0: Checkpoints, c: Checkpoints)
  {
    exists legacy, anchored :: MovedBy(p, chunks, req, w, cutoff, c0, c, legacy, anchored)
  }

  predicate MovedBy(p: Plan, chunks: seq<Chunk>, req: Request, w: World, cutoff: Block,
                    c0: Checkpoints, c: Checkpoints, legacy: Option<Block>, anchored: bool)
  {
    && (anchored ==> p.needsAnchor)
    && c == AfterAnchor(AfterChunks(AfterLegacy(c0, req, p.effective, legacy, w.legacyOk), req, chunks, w), req.key, cutoff, anchored)
  }

  /** A finished pass whose listener never asked to stop has handed out everything up to the head. */
  ghost predicate ReachesHead(p: Plan, end: PassEnd, chunks: seq<Chunk>, w: World) {
    end.Finished? && p.from <= p.head && !w.outcome(|chunks|).Stop? ==>
      chunks != [] && chunks[|chunks| - 1].to == p.head
  }

  /** Only the last acknowledged chunk can have lost its checkpoint write, and only if that write failed. */
  ghost predicate WritesOk(end: PassEnd, chunks: seq<Chunk>, req: Request, w: World) {
    && (forall i :: 0 <= i < |chunks| ==> w.outcome(i).Ack?)
    && (forall i :: 0 <= i < |chunks| - 1 ==> !req.persist || w.writeOk(i))
    && (end != ChunkFailed(WriteThrew) && chunks != [] && req.persist ==> w.writeOk(|chunks| - 1))
  }

  /** Rows of the old journal survive unless they are below the retention window and below every checkpoint. */
  ghost predicate KeepsRows(j0: Journal, j: Journal, c: Checkpoints, head: nat) {
    forall n :: n in j0 ==>
      if n in j then j[n] == j0[n] else n < WindowStart(head) && forall k :: k in c ==> n < c[k].number
  }

  /** The whole retention window above the cutoff is stored. */
  ghost predicate WindowStored(j: Journal, cutoff: Block, head: nat) {
    forall n :: Max(WindowStart(head), Number(cutoff)) <= n <= head ==> n in j
  }

  /** An anchored checkpoint that the pass starts from is on the chain it read. */
  ghost predicate ContinuesCheckpoint(p: Plan, top: Block) {
    (Anchor(p.effective) && Number(p.effective.value.hash.value) == p.effective.value.number
     && p.from == p.effective.value.number + 1 && p.from <= p.head)
    ==> OnChain(top, p.effective.value.hash.value)
  }

  /** What was scanned for a plan: one chain ending in `top`, through the stored tip, up to the head. */
  ghost predicate ScannedFor(p: Plan, prepared: Prepared, top: Block) {
    && OnChain(top, p.tip) && Number(top) == p.head
    && IsSegment(prepared.chunk, top, p.from, p.head)
    && (p.needsJournal ==> IsSegment(prepared.journal, top, p.journalStart, p.head))
    && (!p.needsJournal ==> prepared.journal == [] && top == p.tip)
    && (prepared.legacy.Some? ==> Legacy(p.effective) && p.effective.value.number <= p.head
                                  && prepared.legacy.value == At(top, p.effective.value.number))
    && ContinuesCheckpoint(p, top)
  }

  lemma PreparedFacts(p: Plan, j: Journal, c: Checkpoints, cfg: Config, req: Request, w: World, prepared: Prepared, top: Block)
    requires PlanFits(p, j, c, cfg, req, w)
    requires var s := ScanStart(p.effective, p.tip, p.from, p.head, p.journalStart, p.needsJournal);
      if s.None? then (prepared == Prepared([], [], None) && top == p.tip) else (
        && s.value <= p.head
        && Coherent(w.read, p.known, p.effective, FirstPrevious(p.effective, p.tip, s.value), s.value, p.head)
        && IsPrepared(prepared, w.read, p.effective, s.value, p.from, p.head, p.journalStart, p.needsJournal)
        && top == w.read(p.head).value)
    ensures ScannedFor(p, prepared, top)
  {
    var s := ScanStart(p.effective, p.tip, p.from, p.head, p.journalStart, p.needsJournal);
    if s.Some? {
      ScanExtends(p.effective, p.tip, p.known, p.from, p.head, p.journalStart, p.needsJournal, w.read, s.value);
    }
  }

  lemma WrittenFromRun(p: Plan, end: PassEnd, chunks: seq<Chunk>, cfg: Config, req: Request, w: World, top: Block,
                       j0: Journal, j1: Journal, c0: Checkpoints, j: Journal, c: Checkpoints)
    requires forall n :: n in j0 ==> n in j1 && j1[n] == j0[n]
    requires forall n :: n in j1 ==> n in j0 || p.journalStart <= n
    requires forall n :: p.journalStart <= n <= p.head ==> n in j1
    requires p.journalStart <= Max(WindowStart(p.head), Number(cfg.cutoff))
    requires Contiguous(j0) ==> Contiguous(j1)
    requires RunEffect(p, end, chunks, cfg, req, w, top, j1, c0, j, c)
    requires j != map[] && TipOf(j) == top && Number(top) == p.head && ContinuesCheckpoint(p, top)
    ensures WrittenEffect(p, end, chunks, cfg, req, w, j0, c0, j, c)
  {
    assert KeepsRows(j0, j, c, p.head);
    assert WindowStored(j, cfg.cutoff, p.head);
  }

  method ScanFor(p: Plan, cfg: Config, req: Request, w: World, ghost j: Journal, ghost c: Checkpoints)
    returns (prepared: Option<Prepared>, top: Block)
    requires cfg.Valid() && PlanFits(p, j, c, cfg, req, w)
    ensures prepared.Some? ==> ScannedFor(p, prepared.value, top) && TopRead(p, top, w)
    ensures prepared.None? <==> ScanFails(p, w)
    ensures Number(cfg.cutoff) <= p.journalStart <= Number(p.tip)
    ensures p.journalStart <= Max(WindowStart(p.head), Number(cfg.cutoff))
  {
    ghost var o :| IsOldest(c, o) && p.journalStart == JournalStart(cfg.cutoff, o, p.head);
    JournalStartBelowTip(j, c, cfg.cutoff, o, p.head);
    prepared := PrepareCanonicalScan(p.effective, p.tip, p.known, p.from, p.head, p.journalStart, p.needsJournal, w.read);
    top := p.tip;
    if prepared.Some? {
      if ScanStart(p.effective, p.tip, p.from, p.head, p.journalStart, p.needsJournal).Some? {
        top := w.read(p.head).value;
      }
      PreparedFacts(p, j, c, cfg, req, w, prepared.value, top);
    }
  }

  /** What the steps after the scan need of a plan. */
  ghost predicate PlanSound(p: Plan, j: Journal, cutoff: Block) {
    && j != map[] && p.tip == TipOf(j) && Number(cutoff) < p.from
    && (Legacy(p.effective) ==> Number(cutoff) <= p.effective.value.number <= p.head)
    && Number(cutoff) <= p.journalStart <= Number(p.tip) && p.journalStart <= Max(WindowStart(p.head), Number(cutoff))
    && (!p.needsJournal ==> forall n :: p.journalStart <= n <= p.head ==> n in j)
  }

  lemma FittingPlanIsSound(p: Plan, j: Journal, c: Checkpoints, cfg: Config, req: Request, w: World)
    requires PlanFits(p, j, c, cfg, req, w)
    ensures PlanSound(p, j, cfg.cutoff)
  {
    var o :| IsOldest(c, o) && p.journalStart == JournalStart(cfg.cutoff, o, p.head);
    JournalStartBelowTip(j, c, cfg.cutoff, o, p.head);
  }

  /** What follows once the journal is written. */
  method RunWritten(store: CanonicalStore, cfg: Config, req: Request, w: World, p: Plan, prepared: Prepared, top: Block, ghost j0: Journal)
    returns (end: PassEnd, chunks: seq<Chunk>)
    requires cfg.Valid() && store.Valid() && store.cutoff == Some(cfg.cutoff)
    requires top == store.Tip() && ScannedFor(p, prepared, top) && Number(cfg.cutoff) < p.from
    requires Legacy(p.effective) ==> Number(cfg.cutoff) <= p.effective.value.number <= p.head
    requires p.journalStart <= Max(WindowStart(p.head), Number(cfg.cutoff))
    requires forall n :: n in j0 ==> n in store.journal && store.journal[n] == j0[n]
    requires forall n :: n in store.journal ==> n in j0 || p.journalStart <= n
    requires forall n :: p.journalStart <= n <= p.head ==> n in store.journal
    requires Contiguous(j0) ==> Contiguous(store.journal)
    modifies store`journal, store`checkpoints
    ensures JournalWritten(end) && Blamed(p, end, chunks, req, w)
    ensures store.Valid() && store.Tip() == top
    ensures WrittenEffect(p, end, chunks, cfg, req, w, j0, old(store.checkpoints), store.journal, store.checkpoints)
  {
    ghost var j1, c0 := store.journal, store.checkpoints;
    end, chunks := RunPrepared(store, cfg, req, w, p, prepared, p.needsJournal, top);
    WrittenFromRun(p, end, chunks, cfg, req, w, top, j0, j1, c0, store.journal, store.checkpoints);
  }

  method ExecuteScanned(store: CanonicalStore, cfg: Config, req: Request, w: World, p: Plan, prepared: Prepared, top: Block)
    returns (r: PassResult)
    requires cfg.Valid() && store.Valid() && store.cutoff == Some(cfg.cutoff)
    requires PlanSound(p, store.journal, cfg.cutoff) && ScannedFor(p, prepared, top)
    modifies store`journal, store`checkpoints
    ensures store.Valid() && r.plan == Some(p) && r.top == Some(top)
    ensures OnChain(store.Tip(), p.tip)
    ensures r.end.Torn? || (JournalWritten(r.end) && top == store.Tip())
    ensures Blamed(p, r.end, r.chunks, req, w) && (JournalWritten(r.end) ==> AllSaved(p, w)) && (r.end.Torn? ==> r.chunks == [])
    ensures OutcomeEffect(r, p, cfg, req, w, old(store.journal), old(store.checkpoints), store.journal, store.checkpoints)
  {
    ghost var j0 := store.journal;
    var batches, ok := WriteJournal(store, cfg, w, p, prepared.journal, top);
    if !ok {
      return PassResult(Torn(batches), Some(p), Some(top), []);
    }
    var end, chunks := RunWritten(store, cfg, req, w, p, prepared, top, j0);
    r := PassResult(end, Some(p), Some(top), chunks);
  }

  /** What a pass with a plan comes to. */
  ghost predicate PlanStep(r: PassResult, p: Plan, req: Request, w: World) {
    && r.plan == Some(p) && Blamed(p, r.end, r.chunks, req, w)
    && (JournalWritten(r.end) || ((r.end.Torn? || r.end.Incoherent?) && r.chunks == []))
    && (JournalWritten(r.end) ==> AllSaved(p, w) && r.top.Some? && TopRead(p, r.top.value, w))
  }

  method ExecutePlan(store: CanonicalStore, cfg: Config, req: Request, w: World, p: Plan) returns (r: PassResult)
    requires cfg.Valid() && store.Valid() && store.cutoff == Some(cfg.cutoff)
    requires PlanFits(p, store.journal, store.checkpoints, cfg, req, w)
    modifies store`journal, store`checkpoints
    ensures store.Valid()
    ensures OnChain(store.Tip(), old(store.Tip()))
    ensures PassEffect(r, cfg, req, w, old(store.journal), old(store.checkpoints), store.journal, store.checkpoints)
    ensures r.end.Incoherent? ==> unchanged(store)
    ensures PlanStep(r, p, req, w)
  {
    var prepared, top := ScanFor(p, cfg, req, w, store.journal, store.checkpoints);
    if prepared.None? {
      return PassResult(Incoherent, Some(p), None, []);
    }
    FittingPlanIsSound(p, store.journal, store.checkpoints, cfg, req, w);
    r := ExecuteScanned(store, cfg, req, w, p, prepared.value, top);
  }

  /** The persisted state that a pass reads and writes. */
  datatype Persisted = Persisted(journal: Journal, checkpoints: Checkpoints)

  ghost function Now(store: CanonicalStore): Persisted
    reads store
  {
    Persisted(store.journal, store.checkpoints)
  }

  /** One pass from the state `s` to the state `t`: everything that is known of it. */
  ghost predicate PassStep(r: PassResult, cfg: Config, req: Request, w: World, s: Persisted, t: Persisted) {
    && Consistent(s.journal, s.checkpoints, cfg.cutoff) && Consistent(t.journal, t.checkpoints, cfg.cutoff)
    && OnChain(TipOf(t.journal), TipOf(s.journal))
    && PassEffect(r, cfg, req, w, s.journal, s.checkpoints, t.journal, t.checkpoints)
    && (!JournalWritten(r.end) && !r.end.Torn? ==> t == s)
    && EndsEarly(r.end.Skipped?, r.end.CallFailed?, r.end.Diverged?, TipOf(s.journal), s.checkpoints, cfg, req, w)
    && (if r.plan.Some? then PlanStep(r, r.plan.value, req, w)
        else (r.end.Skipped? || r.end.CallFailed? || r.end.Diverged?) && r.chunks == [])
  }

  /** One pass.  Whatever the reader answers, whatever fails, the persisted state
      stays consistent and its tip only extends. */
  method Execute(store: CanonicalStore, cfg: Config, req: Request, w: World) returns (r: PassResult)
    requires cfg.Valid() && store.Valid() && store.cutoff == Some(cfg.cutoff)
    modifies store`journal, store`checkpoints
    ensures store.Valid() && PassStep(r, cfg, req, w, old(Now(store)), Now(store))
    ensures r.end.Diverged? ==>
      && r.end.oldTip == store.Tip() && Number(r.end.oldTip) <= r.end.head
      && w.tipAnswer == Some(r.end.remote) && Number(r.end.remote) == Number(r.end.oldTip) && r.end.remote != r.end.oldTip
      && r.end.rows == TopRows(store.journal, RETENTION)
  {
    var planned := MakePlan(store, cfg, req, w);
    match planned {
      case Skip => return PassResult(Skipped, None, None, []);
      case Fail => return PassResult(CallFailed, None, None, []);
      case Divergence(o, b, rows, h) => return PassResult(Diverged(o, b, rows, h), None, None, []);
      case Go(_) =>
    }
    var p := planned.plan;
    r := ExecutePlan(store, cfg, req, w, p);
  }
}
