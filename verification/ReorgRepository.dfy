/** The rollback transaction and its audit trail, and whole runs of the chain state. */
module ReorgRepository {
  import opened Blocks
  import opened ChainStore
  import opened SwapEvents
  import opened CanonicalPass
  import opened ChunkLoop
  import opened AncestorSearch

  datatype AuditStatus = Reconciling | Recovered | ManualReview

  /** What a rollback saves about itself, the number of replayed events being zero at that time. */
  datatype Impact = Impact(depth: nat, orphaned: set<EventId>, replayedEvents: nat, walletPairs: set<string>)

  /** An audit row: beside the saved impact it counts orphaned and replayed events in columns of its own. */
  datatype Audit = Audit(status: AuditStatus, impact: Option<Impact>, orphanedEvents: nat, replayedEvents: nat)

  /** A saved impact counts the orphaned events as its row does, and no replayed ones; only a deep
      re-organisation under review has none. */
  predicate AuditOk(a: Audit) {
    match a.impact
    case None => a.status.ManualReview? && a.replayedEvents == 0
    case Some(impact) => |impact.orphaned| == a.orphanedEvents && impact.replayedEvents == 0
  }

  /** An audit is keyed by the hashes of the old and the new tip only. */
  type ReorgId = (Block, Block)

  datatype Trade = Trade(pair: string, source: Option<EventId>, canonical: bool, hasTransaction: bool)

  function IdOf(r: Reorg): ReorgId { (r.oldTip, r.newTip) }

  function Orphans(rows: Events, n: nat): set<EventId> {
    set id | id in rows && rows[id].canonical && rows[id].log.number > n
  }

  /** Trades that an orphaned event caused. */
  predicate Caused(t: Trade, orphaned: set<EventId>) {
    t.canonical && t.source.Some? && t.source.value in orphaned
  }

  function WalletPairs(trades: map<string, Trade>, orphaned: set<EventId>): set<string> {
    set id | id in trades && Caused(trades[id], orphaned) && trades[id].hasTransaction :: trades[id].pair
  }

  /** Caused trades that never reached the wallet stop being canonical. */
  function OrphanTrades(trades: map<string, Trade>, orphaned: set<EventId>): map<string, Trade> {
    map id | id in trades :: if Caused(trades[id], orphaned) && !trades[id].hasTransaction
                             then trades[id].(canonical := false) else trades[id]
  }

  class ChainDatabase {
    const store: CanonicalStore
    const events: SwapEventRepository
    var trades: map<string, Trade>
    var audits: map<ReorgId, Audit>

    constructor (store: CanonicalStore, events: SwapEventRepository)
      ensures this.store == store && this.events == events && trades == map[] && audits == map[]
    {
      this.store, this.events, trades, audits := store, events, map[], map[];
    }

    /** Every audit row is sound. */
    ghost predicate Valid()
      reads this, store
    {
      store.Valid() && forall id :: id in audits ==> AuditOk(audits[id])
    }

    /** The state a rollback reads and writes, apart from the audits. */
    twostate predicate Untouched()
      reads this, store, events
    {
      unchanged(store) && unchanged(events) && trades == old(trades)
    }

    /** The rollback has already been recorded under this pair of tips. */
    predicate Recorded(r: Reorg)
      reads this
    {
      IdOf(r) in audits && audits[IdOf(r)].impact.Some?
    }

    /** A recorded rollback cannot be taken up again: it was of another depth, or events have been
        replayed since, which the saved impact does not know of. */
    predicate Outdated(r: Reorg)
      requires Recorded(r) && r.depth.Some?
      reads this
    {
      audits[IdOf(r)].impact.value.depth != r.depth.value || audits[IdOf(r)].replayedEvents > 0
    }

    /** Everything above the ancestor is gone or orphaned, and the impact says what was. */
    twostate predicate RolledBack(r: Reorg, impact: Option<Impact>)
      requires r.ancestor.Some? && impact.Some?
      reads this, store, events
    {
      var n := Number(r.ancestor.value);
      && store.cutoff == old(store.cutoff) && store.journal != map[] && store.Tip() == r.ancestor.value
      && store.journal == DropAbove(old(store.journal), n)
      && store.checkpoints == PullDown(old(store.checkpoints), r.ancestor.value)
      && events.rows == OrphanAbove(old(events.rows), n)
      && impact.value.orphaned == Orphans(old(events.rows), n)
      && impact.value.walletPairs == WalletPairs(old(trades), impact.value.orphaned)
      && trades == OrphanTrades(old(trades), impact.value.orphaned)
      && audits == old(audits)[IdOf(r) := old(AuditOf(r)).(impact := impact, orphanedEvents := |impact.value.orphaned|)]
    }

    /** The audit row of a rollback, inserted if there is none. */
    function AuditOf(r: Reorg): Audit
      reads this
    {
      if IdOf(r) in audits then audits[IdOf(r)] else Audit(Reconciling, None, 0, 0)
    }

    /** One transaction.  It rolls back if and only if no rollback is recorded under the
        same pair of tips; otherwise it changes nothing, and returns the recorded impact
        or, when that is outdated, fails. */
    method RewindToAncestor(r: Reorg) returns (impact: Option<Impact>)
      requires Valid()
      requires r.ancestor.Some? ==> Number(r.ancestor.value) in store.journal && store.journal[Number(r.ancestor.value)] == r.ancestor.value
      modifies this, store`journal, store`checkpoints, events
      ensures Valid()
      ensures impact.None? <==> !ValidShallow(r) || (old(Recorded(r)) && old(Outdated(r)))
      ensures impact.None? || old(Recorded(r)) ==> Untouched() && audits == old(audits)
      ensures impact.Some? ==>
        Recorded(r) && audits[IdOf(r)].impact == impact && ValidShallow(r) && impact.value.depth == r.depth.value
      ensures impact.Some? && !old(Recorded(r)) ==> RolledBack(r, impact)
    {
      if !ValidShallow(r) {
        return None;
      }
      var id := IdOf(r);
      var audit := AuditOf(r);
      if audit.impact.Some? {
        var saved := audit.impact.value;
        var valid := saved.depth == r.depth.value && |saved.orphaned| == audit.orphanedEvents && saved.replayedEvents == audit.replayedEvents;
        return if valid then audit.impact else None;
      }
      var a := r.ancestor.value;
      var orphaned := Orphans(events.rows, Number(a));
      RewindConsistent(store.journal, store.checkpoints, store.cutoff.value, a);
      impact := Some(Impact(r.depth.value, orphaned, 0, WalletPairs(trades, orphaned)));
      events.Orphan(Number(a));
      trades := OrphanTrades(trades, orphaned);
      store.checkpoints := PullDown(store.checkpoints, a);
      store.journal := DropAbove(store.journal, Number(a));
      audits := audits[id := audit.(impact := impact, orphanedEvents := |orphaned|)];
    }

    /** Repeating a rollback before it is completed returns the same impact and leaves what one rollback leaves. */
    method RewindTwice(r: Reorg) returns (first: Option<Impact>, second: Option<Impact>)
      requires Valid()
      requires r.ancestor.Some? ==> Number(r.ancestor.value) in store.journal && store.journal[Number(r.ancestor.value)] == r.ancestor.value
      modifies this, store`journal, store`checkpoints, events
      ensures second == first
      ensures Valid()
      ensures first.Some? ==> r.ancestor.Some? && if old(Recorded(r)) then Untouched() && audits == old(audits) else RolledBack(r, first)
    {
      first := RewindToAncestor(r);
      label once:
      second := RewindToAncestor(r);
      assert Untouched@once() && audits == old@once(audits);
    }

    /** A replay is over; the row counts its events, the saved impact stays as it is. */
    method CompleteReorg(id: ReorgId, replayedEvents: nat) returns (found: bool)
      requires Valid()
      modifies this`audits
      ensures Valid()
      ensures found <==> id in old(audits)
      ensures audits == if found && old(audits)[id].status.Reconciling?
                        then old(audits)[id := old(audits)[id].(status := Recovered, replayedEvents := replayedEvents)] else old(audits)
    {
      found := id in audits;
      if found && audits[id].status.Reconciling? {
        audits := audits[id := audits[id].(status := Recovered, replayedEvents := replayedEvents)];
      }
    }

    /** No common ancestor: the audit goes to manual review, unless it was closed before. */
    method RecordDeepReorg(r: Reorg) returns (ok: bool)
      requires Valid()
      modifies this`audits
      ensures Valid()
      ensures ok <==> r.ancestor.None? && r.depth.None?
      ensures audits == if ok then old(audits)[IdOf(r) := if old(AuditOf(r)).status.Reconciling?
                                                          then old(AuditOf(r)).(status := ManualReview) else old(AuditOf(r))]
                        else old(audits)
    {
      ok := r.ancestor.None? && r.depth.None?;
      if ok {
        var audit := AuditOf(r);
        audits := audits[IdOf(r) := if audit.status.Reconciling? then audit.(status := ManualReview) else audit];
      }
    }

    method RequireManualReview(id: ReorgId) returns (found: bool)
      requires Valid()
      modifies this`audits
      ensures Valid()
      ensures found <==> id in old(audits)
      ensures audits == if found && old(audits)[id].status.Reconciling?
                        then old(audits)[id := old(audits)[id].(status := ManualReview)] else old(audits)
    {
      found := id in audits;
      if found && audits[id].status.Reconciling? {
        audits := audits[id := audits[id].(status := ManualReview)];
      }
    }
  }
}
