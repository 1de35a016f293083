/** A run in which the same two tips meet twice: the second time nothing is rolled back, and
    the rollback even fails if events were replayed after the first. */
module RecurringTips {
  import opened Blocks
  import opened ChainStore
  import opened CanonicalPass
  import opened ChunkLoop
  import opened HonestPasses
  import opened AncestorSearch
  import opened SwapEvents
  import opened ReorgRepository

  const FOLLOW := Request("pair-created", 0, None, false, true, true)

  function Settings(cutoff: Block): Config { Config(cutoff, 1, 100) }

  /** The two tips follow the same block. */
  ghost predicate Fork(ancestor: Block, a: Block, b: Block) {
    Follows(ancestor, a) && Follows(ancestor, b) && a != b
  }

  /** The chain moves on to the next block `tip`; the block before it stays stored. */
  method MoveTo(db: ChainDatabase, ancestor: Block, tip: Block)
    requires db.Valid() && db.store.cutoff == Some(ancestor) && db.store.Tip() == ancestor && Follows(ancestor, tip)
    modifies db.store`journal, db.store`checkpoints
    ensures db.Valid() && db.store.cutoff == Some(ancestor) && db.store.Tip() == tip
    ensures Number(ancestor) in db.store.journal && db.store.journal[Number(ancestor)] == ancestor
  {
    ghost var s := Now(db.store);
    var w := HonestWorld(tip, ancestor, Ack({}));
    var r := Execute(db.store, Settings(ancestor), FOLLOW, w);
    Moved(r, w, s, Now(db.store), ancestor, tip);
  }

  lemma Moved(r: PassResult, w: World, s: Persisted, t: Persisted, ancestor: Block, tip: Block)
    requires PassStep(r, Settings(ancestor), FOLLOW, w, s, t) && w == HonestWorld(tip, ancestor, Ack({}))
    requires TipOf(s.journal) == ancestor && Follows(ancestor, tip)
    ensures TipOf(t.journal) == tip && Number(ancestor) in t.journal && t.journal[Number(ancestor)] == ancestor
  {
    ReachesTip(r, w, s, t, ancestor, tip);
    RowStays(r, w, s, t, ancestor, tip);
  }

  lemma ReachesTip(r: PassResult, w: World, s: Persisted, t: Persisted, ancestor: Block, tip: Block)
    requires PassStep(r, Settings(ancestor), FOLLOW, w, s, t) && w == HonestWorld(tip, ancestor, Ack({}))
    requires TipOf(s.journal) == ancestor && Follows(ancestor, tip)
    ensures r.end.Finished? && TipOf(t.journal) == tip
  {
    HonestWorldAnswers(tip, ancestor, Settings(ancestor), Ack({}));
    StoredStartsOn(FOLLOW, s.checkpoints, ancestor, ancestor, tip);
    HonestPassFinishes(r, Settings(ancestor), FOLLOW, w, s, t, tip);
  }

  lemma RowStays(r: PassResult, w: World, s: Persisted, t: Persisted, ancestor: Block, tip: Block)
    requires PassStep(r, Settings(ancestor), FOLLOW, w, s, t) && r.end.Finished?
    requires TipOf(s.journal) == ancestor && TipOf(t.journal) == tip && Follows(ancestor, tip)
    ensures Number(ancestor) in t.journal && t.journal[Number(ancestor)] == ancestor
  {
    assert Number(ancestor) in s.journal;
    assert KeepsRows(s.journal, t.journal, t.checkpoints, Number(tip));
  }

  function ForkAt(ancestor: Block, a: Block, b: Block): Reorg {
    Reorg(Some(ancestor), a, b, Some(1))
  }

  /** `b` replaces `a` for the first time. */
  method RollBack(db: ChainDatabase, ancestor: Block, a: Block, b: Block) returns (impact: Option<Impact>)
    requires db.Valid() && db.store.cutoff == Some(ancestor) && db.store.Tip() == a && Fork(ancestor, a, b) && (a, b) !in db.audits
    requires Number(ancestor) in db.store.journal && db.store.journal[Number(ancestor)] == ancestor
    modifies db, db.store`journal, db.store`checkpoints, db.events
    ensures db.Valid() && db.store.cutoff == Some(ancestor) && db.store.Tip() == ancestor
    ensures impact.Some? && impact.value.depth == 1
    ensures db.audits == old(db.audits)[(a, b) := Audit(Reconciling, impact, |impact.value.orphaned|, 0)]
  {
    assert ValidShallow(ForkAt(ancestor, a, b));
    impact := db.RewindToAncestor(ForkAt(ancestor, a, b));
  }

  /** And again. */
  method RollBackAgain(db: ChainDatabase, ancestor: Block, a: Block, b: Block) returns (impact: Option<Impact>)
    requires db.Valid() && db.store.Tip() == a && Fork(ancestor, a, b)
    requires (a, b) in db.audits && db.audits[(a, b)].impact.Some? && db.audits[(a, b)].impact.value.depth == 1
    requires Number(ancestor) in db.store.journal && db.store.journal[Number(ancestor)] == ancestor
    modifies db, db.store`journal, db.store`checkpoints, db.events
    ensures db.Valid() && db.store.Tip() == a
    ensures impact == if old(db.audits)[(a, b)].replayedEvents == 0 then old(db.audits)[(a, b)].impact else None
    ensures db.audits == old(db.audits)
  {
    assert ValidShallow(ForkAt(ancestor, a, b));
    impact := db.RewindToAncestor(ForkAt(ancestor, a, b));
  }

  /** A fresh start, `a`, and the first time that `b` replaces it. */
  method FirstMeeting(ancestor: Block, a: Block, b: Block, replayed: nat) returns (db: ChainDatabase, first: Option<Impact>)
    requires Fork(ancestor, a, b)
    ensures fresh(db) && fresh(db.store) && fresh(db.events)
    ensures db.Valid() && db.store.cutoff == Some(ancestor) && db.store.Tip() == ancestor && first.Some? && first.value.depth == 1
    ensures db.audits == map[(a, b) := Audit(Recovered, first, |first.value.orphaned|, replayed)]
  {
    var store := new CanonicalStore();
    var events := new SwapEventRepository();
    db := new ChainDatabase(store, events);
    var applied := store.FreshStart(ancestor);
    MoveTo(db, ancestor, a);
    first := RollBack(db, ancestor, a, b);
    var done := db.CompleteReorg((a, b), replayed);
  }

  /** From `a` to `b` and back to `a`; then `b` replaces `a` once more.  Whatever was counted as
      replayed when the first rollback was completed, the stored tip stays `a`: the second rollback
      returns what the first one recorded, and fails if anything was replayed. */
  method TipsMeetAgain(ancestor: Block, a: Block, b: Block, replayed: nat)
    returns (db: ChainDatabase, first: Option<Impact>, again: Option<Impact>)
    requires Fork(ancestor, a, b)
    ensures first.Some? && again == (if replayed == 0 then first else None)
    ensures db.Valid() && db.store.Tip() == a
  {
    db, first := FirstMeeting(ancestor, a, b, replayed);
    MoveTo(db, ancestor, b);
    var back := RollBack(db, ancestor, b, a);
    MoveTo(db, ancestor, a);
    again := RollBackAgain(db, ancestor, a, b);
  }
}
