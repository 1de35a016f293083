/** Passes against a reader that answers from one chain throughout, with nothing failing:
    they always reach the confirmed head of that chain. */
module HonestPasses {
  import opened Blocks
  import opened ChainStore
  import opened CanonicalScan
  import opened CanonicalPass
  import opened ChunkLoop

  /** Every answer comes from the chain ending in `b`, whose last block is the confirmed head. */
  ghost predicate AnswersFrom(w: World, cfg: Config, b: Block, stored: Block) {
    && w.latest == Some(Number(b) + cfg.confirmations)
    && OnChain(b, stored) && w.tipAnswer == Some(stored)
    && forall n :: 0 <= n <= Number(b) ==> w.read(n) == Some(At(b, n))
  }

  /** No call fails, and the listener never throws. */
  ghost predicate NothingFails(w: World) {
    && (forall i: nat :: w.saveOk(i) && w.writeOk(i) && !w.outcome(i).Throw?)
    && w.legacyOk && w.anchorOk && w.pruneOk
  }

  /** A reader of the chain ending in `tip` that never fails; `answer` is what every chunk is answered with. */
  function HonestWorld(tip: Block, stored: Block, answer: ChunkOutcome): World {
    World(Some(Number(tip) + 1), Some(stored), (n: nat) => if n <= Number(tip) then Some(At(tip, n)) else None, (i: nat) => true, true,
          (i: nat) => answer, (i: nat) => true, true, true)
  }

  lemma HonestWorldAnswers(tip: Block, stored: Block, cfg: Config, answer: ChunkOutcome)
    requires Follows(stored, tip) && cfg.confirmations == 1 && !answer.Throw?
    ensures OnChain(tip, stored) && AnswersFrom(HonestWorld(tip, stored, answer), cfg, tip, stored) && NothingFails(HonestWorld(tip, stored, answer))
  {
    assert At(tip, Number(stored)) == At(stored, Number(stored)) == stored;
  }

  /** The checkpoint a pass starts from, if any, lies on the chain at or above the cutoff. */
  predicate StartsOn(req: Request, c: Checkpoints, cutoff: Block, b: Block) {
    var cp := Chosen(req, c);
    cp.Some? ==> Number(cutoff) <= cp.value.number <= Number(b) && cp.value.hash == Some(At(b, cp.value.number))
  }

  lemma StoredStartsOn(req: Request, c: Checkpoints, cutoff: Block, tip: Block, b: Block)
    requires req.checkpoint.None? && Anchored(c, cutoff, tip) && OnChain(b, tip)
    ensures StartsOn(req, c, cutoff, b)
  {
    AnchoredExtends(c, cutoff, tip, b);
  }

  /** Such a pass is not turned away before it reads headers. */
  lemma HonestHasPlan(r: PassResult, cfg: Config, req: Request, w: World, s: Persisted, t: Persisted, b: Block)
    requires PassStep(r, cfg, req, w, s, t) && AnswersFrom(w, cfg, b, TipOf(s.journal)) && StartsOn(req, s.checkpoints, cfg.cutoff, b)
    ensures r.plan.Some? && r.plan.value.head == Number(b) && r.plan.value.tip == TipOf(s.journal)
    ensures r.plan.value.effective == Chosen(req, s.checkpoints) && !r.plan.value.needsAnchor && PlanFits(r.plan.value, s.journal, s.checkpoints, cfg, req, w)
  {
    assert !MustSkip(w.latest.value, TipOf(s.journal), s.checkpoints, cfg, req);
    assert OnChain(TipOf(s.journal), cfg.cutoff);
    OnChainTrans(b, TipOf(s.journal), cfg.cutoff);
  }

  /** Every answer passes every check. */
  lemma HonestIsCoherent(p: Plan, j: Journal, w: World, b: Block, s: nat)
    requires Rooted(j, p.tip) && OnChain(b, p.tip) && KnownFrom(p.known, j) && p.head == Number(b) && s <= p.head
    requires p.effective.Some? ==> p.effective.value.number <= Number(b) && p.effective.value.hash == Some(At(b, p.effective.value.number))
    requires forall n :: 0 <= n <= Number(b) ==> w.read(n) == Some(At(b, n))
    ensures Coherent(w.read, p.known, p.effective, FirstPrevious(p.effective, p.tip, s), s, p.head)
  {
    forall n | s <= n <= p.head ensures Plausible(w.read, p.known, p.effective, n) {
      if n in p.known {
        AtAt(b, Number(p.tip), n);
      }
    }
    forall n | s < n <= p.head ensures LinkedAt(w.read, n) {
      AtFollows(b, n - 1);
    }
    if s > 0 {
      AtFollows(b, s - 1);
    }
  }

  /** A pass with an honest reader in which nothing fails is finished, and the stored chain is the reader's. */
  lemma HonestPassFinishes(r: PassResult, cfg: Config, req: Request, w: World, s: Persisted, t: Persisted, b: Block)
    requires PassStep(r, cfg, req, w, s, t) && AnswersFrom(w, cfg, b, TipOf(s.journal)) && StartsOn(req, s.checkpoints, cfg.cutoff, b)
    requires NothingFails(w)
    ensures r.end.Finished? && TipOf(t.journal) == b
  {
    HonestHasPlan(r, cfg, req, w, s, t, b);
    NoScanFailure(r.plan.value, s, cfg, req, w, b);
    HonestTop(r, r.plan.value, cfg, req, w, s, t, b);
  }

  lemma NoScanFailure(p: Plan, s: Persisted, cfg: Config, req: Request, w: World, b: Block)
    requires PlanFits(p, s.journal, s.checkpoints, cfg, req, w) && AnswersFrom(w, cfg, b, TipOf(s.journal))
    requires p.head == Number(b) && p.tip == TipOf(s.journal)
    requires p.effective.Some? ==> p.effective.value.number <= Number(b) && p.effective.value.hash == Some(At(b, p.effective.value.number))
    ensures !ScanFails(p, w)
  {
    FittingPlanIsSound(p, s.journal, s.checkpoints, cfg, req, w);
    var start := ScanStart(p.effective, p.tip, p.from, p.head, p.journalStart, p.needsJournal);
    if start.Some? {
      HonestIsCoherent(p, s.journal, w, b, start.value);
    }
  }

  lemma HonestTop(r: PassResult, p: Plan, cfg: Config, req: Request, w: World, s: Persisted, t: Persisted, b: Block)
    requires PassStep(r, cfg, req, w, s, t) && r.plan == Some(p) && !ScanFails(p, w) && NothingFails(w)
    requires AnswersFrom(w, cfg, b, TipOf(s.journal)) && p.head == Number(b) && p.tip == TipOf(s.journal)
    requires p.effective.Some? ==> p.effective.value.hash.Some?
    ensures r.end.Finished? && TipOf(t.journal) == b
  {
    assert PlanStep(r, p, req, w) && Blamed(p, r.end, r.chunks, req, w);
    assert JournalWritten(r.end);
    assert TopRead(p, r.top.value, w) && r.top == Some(TipOf(t.journal));
  }
}
