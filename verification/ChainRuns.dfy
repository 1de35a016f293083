/** Whole runs of the chain state: fresh starts, passes that may stop anywhere,
    divergences, rewinds and forgotten checkpoints, in any order. */
module ChainRuns {
  import opened Blocks
  import opened ChainStore
  import opened CanonicalScan
  import opened CanonicalPass
  import opened ChunkLoop
  import opened AncestorSearch
  import opened ReorgRepository
  import opened SwapEvents

  datatype Op =
    | Restart(cutoff: Block)
    | Pass(req: Request, world: World, remote: Remote)
    | Forget(keys: set<string>)

  datatype Outcome =
    | Restarted(applied: bool)
    | Passed(result: PassResult)
    | SearchFailed
    | TooDeep(reorg: Reorg)
    | RolledBack(reorg: Reorg, impact: Option<Impact>)
    | Forgotten

  predicate IsTorn(o: Outcome) {
    o.Passed? && o.result.end.Torn?
  }

  ghost predicate NoTear(outcomes: seq<Outcome>) {
    forall i :: 0 <= i < |outcomes| ==> !IsTorn(outcomes[i])
  }

  lemma NoTearSplit(outcomes: seq<Outcome>, o: Outcome)
    requires NoTear(outcomes + [o])
    ensures NoTear(outcomes) && !IsTorn(o)
  {
    var all := outcomes + [o];
    assert all[|outcomes|] == o;
    forall i | 0 <= i < |outcomes| ensures !IsTorn(outcomes[i]) {
      assert all[i] == outcomes[i];
    }
  }

  class Chain {
    const db: ChainDatabase
    const confirmations: nat
    const chunkSize: nat

    constructor (db: ChainDatabase, confirmations: nat, chunkSize: nat)
      ensures this.db == db && this.confirmations == confirmations && this.chunkSize == chunkSize
    {
      this.db, this.confirmations, this.chunkSize := db, confirmations, chunkSize;
    }

    ghost predicate Valid()
      reads this, db, db.store
    {
      1 <= confirmations <= 100 && 1 <= chunkSize <= 1500 && db.Valid()
    }

    function Settings(): Config
      requires db.store.cutoff.Some?
      reads this, db.store
    {
      Config(db.store.cutoff.value, confirmations, chunkSize)
    }

    /** What a divergence does: search, then record or roll back. */
    method Reconcile(oldTip: Block, remoteOldTip: Block, rows: seq<Block>, head: nat, remote: Remote) returns (o: Outcome)
      requires Valid()
      requires oldTip == db.store.Tip() && Number(oldTip) <= head && rows == TopRows(db.store.journal, RETENTION)
      requires Number(remoteOldTip) == Number(oldTip) && remoteOldTip != oldTip
      modifies db, db.store`journal, db.store`checkpoints, db.events
      ensures Valid()
      ensures o.SearchFailed? || o.TooDeep? || o.RolledBack?
      ensures o.TooDeep? ==> IsCommonAncestor(None, rows, db.store.cutoff.value, remoteOldTip)
      ensures o.RolledBack? ==>
        && ValidShallow(o.reorg) && IsCommonAncestor(o.reorg.ancestor, rows, db.store.cutoff.value, remoteOldTip)
        && (o.impact.None? <==> old(db.Recorded(o.reorg)) && old(db.Outdated(o.reorg)))
        && (o.impact.Some? ==> if old(db.Recorded(o.reorg)) then db.Untouched() else db.RolledBack(o.reorg, o.impact))
      ensures Contiguous(old(db.store.journal)) ==> Contiguous(db.store.journal)
      ensures Contiguous(old(db.store.journal)) && Honest(db.store.cutoff.value, remoteOldTip, head, remote) ==> !o.SearchFailed?
    {
      ghost var j0 := db.store.journal;
      if Contiguous(j0) {
        WindowFits(j0, oldTip, rows);
      }
      var found, asked := FindAncestor(db.store.cutoff.value, oldTip, remoteOldTip, rows, head, remote);
      if found.None? {
        return SearchFailed;
      }
      var reorg := found.value;
      if reorg.ancestor.None? {
        var recorded := db.RecordDeepReorg(reorg);
        return TooDeep(reorg);
      }
      TopRowsSound(j0, oldTip, RETENTION);
      var impact := db.RewindToAncestor(reorg);
      o := RolledBack(reorg, impact);
    }

    /** One operation keeps the invariant; only a torn persist can open a gap in the journal. */
    method Step(op: Op) returns (o: Outcome)
      requires Valid()
      modifies db, db.store, db.events
      ensures Valid()
      ensures Number(old(db.store.cutoff).value) <= Number(db.store.cutoff.value)
      ensures Contiguous(old(db.store.journal)) && !IsTorn(o) ==> Contiguous(db.store.journal)
      ensures op.Restart? ==> o == Restarted(Number(op.cutoff) > Number(old(db.store.cutoff).value) || op.cutoff == old(db.store.cutoff).value)
      ensures o == Restarted(true) ==> op.Restart? && db.store.cutoff == Some(op.cutoff) && db.store.Tip() == op.cutoff
      ensures op.Forget? ==> o.Forgotten? && db.store.checkpoints == old(db.store.checkpoints) - op.keys && db.store.journal == old(db.store.journal)
      ensures op.Pass? && o.Passed? ==>
        !o.result.end.Diverged? && PassStep(o.result, old(Settings()), op.req, op.world, old(Now(db.store)), Now(db.store))
      ensures op.Pass? && !o.Passed? ==>
        EndsEarly(false, false, true, old(db.store.Tip()), old(db.store.checkpoints), old(Settings()), op.req, op.world)
    {
      match op {
        case Restart(c) =>
          var applied := db.store.FreshStart(c);
          o := Restarted(applied);
        case Forget(keys) =>
          db.store.checkpoints := map k | k in db.store.checkpoints && k !in keys :: db.store.checkpoints[k];
          o := Forgotten;
        case Pass(req, w, remote) =>
          var r := Execute(db.store, Settings(), req, w);
          o := Passed(r);
          if r.end.Diverged? {
            o := Reconcile(r.end.oldTip, r.end.remote, r.end.rows, r.end.head, remote);
          }
      }
    }

    /** Any run, of any length. */
    method Run(ops: seq<Op>) returns (outcomes: seq<Outcome>)
      requires Valid()
      modifies db, db.store, db.events
      ensures Valid()
      ensures |outcomes| == |ops|
      ensures Contiguous(old(db.store.journal)) && NoTear(outcomes) ==> Contiguous(db.store.journal)
    {
      outcomes := [];
      for i := 0 to |ops|
        invariant Valid() && |outcomes| == i
        invariant Contiguous(old(db.store.journal)) && NoTear(outcomes) ==> Contiguous(db.store.journal)
      {
        var o := Step(ops[i]);
        if NoTear(outcomes + [o]) {
          NoTearSplit(outcomes, o);
        }
        outcomes := outcomes + [o];
      }
    }
  }

  lemma WindowFits(j: Journal, tip: Block, rows: seq<Block>)
    requires Rooted(j, tip) && Contiguous(j) && rows == TopRows(j, RETENTION)
    ensures ValidWindow(tip, rows)
  {
    TipIs(j, tip);
    TopRowsSize(j, RETENTION);
    ContiguousWindow(j, tip, RETENTION, 0);
    forall i | 0 < i < |rows| ensures Follows(rows[i], rows[i - 1]) {
      ContiguousWindow(j, tip, RETENTION, i);
    }
  }

  lemma {:induction false} TopRowsSize(j: Journal, limit: nat)
    ensures |TopRows(j, limit)| <= limit
    ensures j != map[] && limit > 0 ==> TopRows(j, limit) != []
    decreases limit
  {
    if limit > 0 && j != map[] {
      TopRowsSize(j - {MaxKey(j.Keys)}, limit - 1);
    }
  }
}
