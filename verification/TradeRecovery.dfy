/** The session around its trades: live purchases and sales, and the reconciliation
    that takes over whatever an interrupted process left behind. */
module TradeRecovery {
  import opened Blocks
  import opened TradeBooks
  import opened TradeExecution

  predicate NeedsReview(f: Failure) {
    f.OutcomeUnknown? || f.Unmeasured? || f.Unsafe?
  }

  /** The session after a failed execution: it keeps the transaction left to reconcile. */
  function AfterFailure(s: Session, f: Failure, otherwise: SessionStatus): Session {
    var t := s.(status := if NeedsReview(f) then ManualReview else otherwise);
    if f.OutcomeUnknown? || f.Unmeasured? then t.(unreconciled := Some(f.h)) else t
  }

  function AfterPurchase(s: Session, e: Entry): Session {
    s.(status := Holding, entry := Some(e), unreconciled := None)
  }

  function AfterSale(s: Session, e: Exit): Session {
    s.(status := Closed, exit := Some(e), unreconciled := None)
  }

  predicate Claimable(s: Session) {
    s.status.RiskChecking? || s.status.BuyPending? || s.status.SellPending? || (s.status.ManualReview? && s.unreconciled.Some?)
  }

  function TradesOf(b: Books, side: Side): set<nat> {
    set t | t in b.trades && b.trades[t] == side
  }

  // -------------------------------------- how work ends when nothing fails

  predicate Held(s: Session) {
    s.status.Holding? && s.entry.Some? && s.unreconciled.None?
  }

  predicate SoldOut(s: Session) {
    s.status.Closed? && s.exit.Some? && s.unreconciled.None?
  }

  predicate Waits(s: Session, h: nat) {
    s.status.ManualReview? && s.unreconciled == Some(h)
  }

  /** One purchase was sent, and `s` is what its receipt and its balances lead to. */
  ghost predicate PurchaseEnded(e: TradeExecutor, b: Books, c: Books, s: Session) {
    var h := b.nextHash;
    && c.sent == b.sent + [h]
    && (if e.net(h).success then Held(s) || Waits(s, h) else s.status.RejectedSession?)
    && (Smooth(e.world) && Plausible(e.net(h), Buy) && e.net(h).success ==> Held(s))
  }

  /** The same, unless a check turned the purchase down before anything was sent. */
  ghost predicate PurchaseEndedOrRejected(e: TradeExecutor, b: Books, c: Books, s: Session) {
    PurchaseEnded(e, b, c, s) || (!Smooth(e.world) && s.status.RejectedSession? && c.sent == b.sent)
  }

  /** During the `n` awaits that begin at time `from` nothing fails, every check passes, and the
      next transaction succeeds and is paid for. */
  ghost predicate Buys(e: TradeExecutor, from: nat, n: nat, b: Books) {
    Calm(e.world, from, n) && Agreeable(e.world) && e.net(b.nextHash).success && Plausible(e.net(b.nextHash), Buy)
  }

  /** What the session says after a successful purchase that was over at time `at`: it is
      rejected exactly when the first write is refused and the second one takes effect. */
  ghost predicate PurchaseRecorded(w: World, at: nat, b: Books) {
    && (b.session.status.RejectedSession? <==> w.fault(at).Fails? && Stores(w.fault(at + 1)))
    && (b.session.status.RejectedSession? ==> b.session.entry.Some?)
    && (Held(b.session) <==> Stores(w.fault(at)) && !b.session.status.RejectedSession?)
  }

  /** One sale was sent, and `s` is what its receipt and its balances lead to. */
  ghost predicate SaleEnded(e: TradeExecutor, b: Books, c: Books, s: Session, reverted: SessionStatus) {
    var h := b.nextHash;
    && c.sent == b.sent + [h]
    && (if e.net(h).success then SoldOut(s) || Waits(s, h) else s.status == reverted)
    && (Plausible(e.net(h), Sell) && e.net(h).success ==> SoldOut(s))
  }

  /** `m` is the greatest element, if there is any. */
  predicate IsLatest(s: set<nat>, m: Option<nat>) {
    (m.None? <==> s == {}) && (m.Some? ==> m.value in s && forall x :: x in s ==> x <= m.value)
  }

  /** What recovery looks at: the transaction the session waits for, else the latest
      transaction of the latest trade of the side that the session's state is about. */
  predicate Selected(b: Books, trade: Option<nat>, row: Option<nat>) {
    if b.session.unreconciled.Some? then
      row == b.session.unreconciled && row.value in b.rows && trade == Some(b.rows[row.value].trade)
    else
      && IsLatest(TradesOf(b, if b.session.status.SellPending? then SellSide else BuySide), trade)
      && IsLatest(if trade.Some? then RowsOf(b.rows, trade.value) else {}, row)
  }

  lemma FailureStorable(net: Network, b: Books, f: Failure, t: nat, otherwise: SessionStatus, status: SessionStatus)
    requires Inv(net, b) && FailureOk(b, f, t) && !otherwise.WaitingFirstBuy?
    ensures Storable(net, b, AfterFailure(b.session.(status := status), f, otherwise))
  {
  }

  class Desk {
    const executor: TradeExecutor
    const resumes: bool

    constructor (executor: TradeExecutor, resumes: bool)
      ensures this.executor == executor && this.resumes == resumes
    {
      this.executor, this.resumes := executor, resumes;
    }

    ghost predicate Valid()
      reads this, executor
    {
      Inv(executor.net, executor.books)
    }

    method SaveSession(s: Session) returns (f: Fate)
      requires Valid() && Storable(executor.net, executor.books, s)
      modifies executor
      ensures Valid()
      ensures executor.clock == old(executor.clock) + 1
      ensures executor.books == if Stores(executor.world.fault(old(executor.clock))) then old(executor.books).(session := s) else old(executor.books)
      ensures f == match executor.world.fault(old(executor.clock)) case Fine => Done case Fails(_) => Refused case Dies(_) => Died
    {
      SessionKeeps(executor.net, executor.books, s);
      f := executor.Save(executor.books.(session := s));
    }

    /** Buy on a live signal. */
    method LiveBuy()
      requires Valid()
      modifies executor
      ensures Valid()
      ensures |executor.books.sent| <= |old(executor.books).sent| + 1
      ensures !old(executor.books).session.status.WaitingFirstBuy? ==> executor.books == old(executor.books)
      ensures old(executor.books).session.status.WaitingFirstBuy? && Buys(executor, old(executor.clock), 12, old(executor.books)) ==>
        && executor.books.sent == old(executor.books).sent + [old(executor.books).nextHash]
        && PurchaseRecorded(executor.world, old(executor.clock) + 12, executor.books)
      ensures NoFaults(executor.world) && old(executor.books).session.status.WaitingFirstBuy? ==>
        PurchaseEndedOrRejected(executor, old(executor.books), executor.books, executor.books.session)
    {
      if !executor.books.session.status.WaitingFirstBuy? {
        return;
      }
      var s := executor.books.session.(status := RiskChecking);
      assert NoBuyRows(executor.books);
      var f := SaveSession(s);
      if !f.Done? {
        return;
      }
      if !executor.world.agrees(executor.clock) {
        f := SaveSession(s.(status := RejectedSession));
        return;
      }
      s := s.(status := BuyPending);
      f := SaveSession(s);
      if !f.Done? {
        return;
      }
      var admissible := executor.world.agrees(executor.clock);
      var read := executor.Tick();
      if !read.Fine? {
        return;
      }
      if !admissible {  // no entry amount reaches the minimum
        f := SaveSession(s.(status := RejectedSession));
        return;
      }
      var r, at := BuyNow();
    }

    /** `at` is when the purchase is over.  A successful one whose session cannot be
        written ends as a rejection, if and only if the rejection can be written. */
    method BuyNow() returns (r: Outcome<Entry>, ghost at: nat)
      requires Valid() && executor.books.session.status.BuyPending? && NoBuyRows(executor.books)
      modifies executor
      ensures Valid()
      ensures |executor.books.sent| <= |old(executor.books).sent| + 1
      ensures NoFaults(executor.world) ==> PurchaseEnded(executor, old(executor.books), executor.books, executor.books.session)
      ensures r.Ok? ==> PurchaseRecorded(executor.world, at, executor.books)
      ensures Buys(executor, old(executor.clock), 9, old(executor.books)) ==>
        r.Ok? && at == old(executor.clock) + 9 && executor.books.sent == old(executor.books).sent + [old(executor.books).nextHash]
    {
      ghost var t := executor.books.nextTrade;
      r := executor.Purchase();
      at := executor.clock;
      RecordPurchase(r, t);
    }

    /** Write what became of a purchase under trade `t`. */
    method RecordPurchase(r: Outcome<Entry>, ghost t: nat)
      requires Valid() && executor.books.session.status.BuyPending?
      requires r.Ok? ==> EntryOk(executor.net, executor.books.rows, r.value)
      requires r.Error? ==> FailureOk(executor.books, r.failure, t)
      modifies executor
      ensures Valid() && executor.books.sent == old(executor.books).sent
      ensures r.Ok? ==> PurchaseRecorded(executor.world, old(executor.clock), executor.books)
      ensures r.Error? && NoFaults(executor.world) ==>
        executor.books.session == AfterFailure(old(executor.books).session, r.failure, RejectedSession)
    {
      var s := executor.books.session;
      if r.Ok? {
        s := AfterPurchase(s, r.value);
        var f := SaveSession(s);
        if f.Refused? {  // a purchase that cannot be recorded ends as a rejection
          f := SaveSession(s.(status := RejectedSession));
        }
      } else if r.Error? {
        FailureStorable(executor.net, executor.books, r.failure, t, RejectedSession, s.status);
        var f := SaveSession(AfterFailure(s, r.failure, RejectedSession));
      }
    }

    /** Sell a position, on a signal or by hand.  By hand also while something waits for
        reconciliation, unless that is itself a sale. */
    method LiveSell(manual: bool)
      requires Valid()
      modifies executor
      ensures Valid()
      ensures !Sellable(old(executor.books), manual) ==> executor.books == old(executor.books)
      ensures NoFaults(executor.world) && Sellable(old(executor.books), manual) ==>
        SoldOut(executor.books.session) || executor.books.session.status.ManualReview?
      ensures Smooth(executor.world) && Sellable(old(executor.books), manual) ==>
        SaleEnded(executor, old(executor.books), executor.books, executor.books.session, ManualReview)
    {
      var s := executor.books.session;
      if s.entry.None? || s.exit.Some? || !(s.status.Holding? || (manual && s.status.ManualReview?)) {
        return;
      }
      if manual && s.unreconciled.Some? && executor.books.rows[s.unreconciled.value].step.Sell? {
        return;
      }
      var f := SaveSession(s.(status := SellPending));
      if !f.Done? {
        return;
      }
      SellNow();
    }

    method SellNow()
      requires Valid() && Resellable(executor.books.session)
      modifies executor
      ensures Valid()
      ensures NoFaults(executor.world) ==> SoldOut(executor.books.session) || executor.books.session.status.ManualReview?
      ensures Smooth(executor.world) ==> SaleEnded(executor, old(executor.books), executor.books, executor.books.session, ManualReview)
    {
      ghost var t := executor.books.nextTrade;
      var r := executor.Sale(None);
      var s := executor.books.session;
      if r.Ok? {
        s := AfterSale(s, r.value);
        var f := SaveSession(s);
        if f.Refused? {
          f := SaveSession(s.(status := ManualReview));
        }
      } else if r.Error? {
        FailureStorable(executor.net, executor.books, r.failure, t, ManualReview, s.status);
        var f := SaveSession(AfterFailure(s, r.failure, ManualReview));
      }
    }

    // -------------------------------------------------------- recovery

    /** Which trade and which of its transactions recovery looks at: the one the session
        waits for, else the latest of the side its state is about. */
    method Select() returns (trade: Option<nat>, row: Option<nat>)
      requires Valid()
      ensures row.Some? ==> trade.Some? && Resumable(executor.books.rows, row.value) && executor.books.rows[row.value].trade == trade.value
      ensures Selected(executor.books, trade, row)
      ensures row.None? && !executor.books.session.status.SellPending? ==> NoBuyRows(executor.books)
    {
      var b := executor.books;
      if b.session.unreconciled.Some? {
        row := b.session.unreconciled;
        return Some(b.rows[row.value].trade), row;
      }
      var side := if b.session.status.SellPending? then SellSide else BuySide;
      trade := Latest(TradesOf(b, side));
      row := None;
      if trade.Some? {
        row := Latest(RowsOf(b.rows, trade.value));
      }
      SelectionFits(executor.net, b, side, trade, row);
    }

    /** Write a decision: the session, and the transaction it is about.  It is refused
        when the session is no longer in the state it was claimed in. */
    method Apply(claimed: SessionStatus, next: Books) returns (f: Fate)
      requires Valid() && Inv(executor.net, next)
      modifies executor
      ensures Valid()
      ensures executor.books == old(executor.books) || executor.books == next
      ensures f.Done? ==> executor.books == next
      ensures NoFaults(executor.world) && old(executor.books).session.status == claimed ==> f.Done?
    {
      if executor.books.session.status != claimed {
        return Refused;
      }
      f := executor.Save(next);
    }

    /** Take up a purchase that has no transaction yet.  `None`: reconciliation stops here. */
    method ResumeBuy() returns (s: Option<Session>)
      requires Valid() && NoBuyRows(executor.books) && !executor.books.session.status.WaitingFirstBuy?
      modifies executor
      ensures Valid() && executor.books.session == old(executor.books).session
      ensures |executor.books.sent| <= |old(executor.books).sent| + 1
      ensures s.Some? ==> Storable(executor.net, executor.books, s.value) && !s.value.status.WaitingFirstBuy?
      ensures NoFaults(executor.world) ==>
        s.Some? && PurchaseEndedOrRejected(executor, old(executor.books), executor.books, s.value)
    {
      var fault := executor.Tick();
      if !fault.Fine? {
        return None;
      }
      if !executor.world.agrees(executor.clock) {  // no report, blocked, no capacity, or no admissible amount
        return Some(executor.books.session.(status := RejectedSession));
      }
      ghost var t := executor.books.nextTrade;
      var r := executor.Purchase();
      if r.Dead? {
        return None;
      }
      if r.Ok? {
        return Some(AfterPurchase(executor.books.session, r.value));
      }
      FailureStorable(executor.net, executor.books, r.failure, t, RejectedSession, executor.books.session.status);
      s := Some(AfterFailure(executor.books.session, r.failure, RejectedSession));
    }

    /** Take up a sale, from the start or from its confirmed approval. */
    method ResumeSell(recovered: Option<(nat, nat)>) returns (s: Option<Session>)
      requires Valid()
      requires recovered.Some? ==> Addable(executor.net, executor.books, recovered.value.0, Sell)
                                   && recovered.value.1 == ApprovalGas(executor.net, executor.books.rows, recovered.value.0)
      modifies executor
      ensures Valid() && executor.books.session == old(executor.books).session
      ensures recovered.Some? ==> OnlyNew(old(executor.books), executor.books, Sell)
      ensures forall h :: h in old(executor.books).rows ==> h in executor.books.rows && executor.books.rows[h] == old(executor.books).rows[h]
      ensures s.Some? ==> Storable(executor.net, executor.books, s.value) && !s.value.status.WaitingFirstBuy?
      ensures Smooth(executor.world) && Resellable(old(executor.books).session) ==>
        s.Some? && SaleEnded(executor, old(executor.books), executor.books, s.value, Holding)
    {
      var b := executor.books;
      if !b.session.status.SellPending? || b.session.entry.None? || b.session.exit.Some? {
        return None;
      }
      ghost var t := if recovered.Some? then recovered.value.0 else b.nextTrade;
      var r := executor.Sale(recovered);
      if r.Dead? {
        return None;
      }
      if r.Ok? {
        return Some(AfterSale(executor.books.session, r.value));
      }
      FailureStorable(executor.net, executor.books, r.failure, t, Holding, SellPending);
      s := Some(AfterFailure(executor.books.session, r.failure, Holding));
    }

    /** Nothing was stored for the intent: start it again. */
    method ResumeIntent()
      requires Valid() && Claimable(executor.books.session) && executor.books.session.unreconciled.None?
      requires !executor.books.session.status.SellPending? ==> NoBuyRows(executor.books)
      modifies executor
      ensures Valid()
      ensures !resumes ==> executor.books.sent == old(executor.books).sent
      ensures NoFaults(executor.world) ==> IntentEnded(executor, resumes, old(executor.books), executor.books)
    {
      var b := executor.books;
      var s: Option<Session>;
      if !resumes {
        s := Some(b.session.(status := ManualReview));
      } else if b.session.status.SellPending? {
        s := ResumeSell(None);
      } else if b.session.status.RiskChecking? && !executor.world.agrees(executor.clock) {
        s := Some(b.session);  // the risk analysis failed; it is tried again later
      } else {
        s := ResumeBuy();
      }
      if s.Some? {
        SessionKeeps(executor.net, executor.books, s.value);
        var f := Apply(b.session.status, executor.books.(session := s.value));
      }
    }

    /** What the confirmed approvals of a trade cost, as its rows record it. */
    method RecordedApprovalGas(t: nat, h: nat) returns (total: nat)
      requires Valid() && h in executor.books.rows && executor.books.rows[h].trade == t && executor.books.rows[h].step.Sell?
      ensures total == ApprovalGas(executor.net, executor.books.rows, t)
    {
      var rows := executor.books.rows;
      ghost var cost := ApprovalGas(executor.net, rows, t);
      var rest := RowsOf(rows, t);
      total := 0;
      while rest != {}
        invariant rest <= RowsOf(rows, t)
        invariant total == if exists g :: IsApproval(rows, t, g) && g !in rest then cost else 0
      {
        var x :| x in rest;
        rest := rest - {x};
        if IsApproval(rows, t, x) {
          ApprovalGasIs(executor.net, rows, t, x);
          OnlyApproval(rows, t, x);
          assert BuiltOn(executor.net, rows, x, h);
          if rows[x].status.Confirmed? && rows[x].gas.Some? {
            total := total + rows[x].gas.value;
          }
        }
      }
    }

    /** A receipt that says failure. */
    method SettleReverted(h: nat)
      requires Valid() && Resumable(executor.books.rows, h) && !executor.net(h).success
      modifies executor
      ensures Valid() && executor.books.sent == old(executor.books).sent
      ensures executor.books == old(executor.books) || RevertSettled(executor, old(executor.books), executor.books, h)
      ensures NoFaults(executor.world) ==> RevertSettled(executor, old(executor.books), executor.books, h)
    {
      var b := executor.books;
      var x := b.rows[h].(status := Reverted, gas := Some(executor.net(h).gas));
      var s := b.session.(status := if x.step.Buy? then RejectedSession else Holding, unreconciled := None);
      DecisionKeeps(executor.net, b, h, x, s);
      var f := Apply(b.session.status, Decided(b, h, x, s));
    }

    /** A confirmed approval: record it, then sell without approving again. */
    method SettleApproval(h: nat)
      requires Valid() && Resumable(executor.books.rows, h) && executor.net(h).success && executor.books.rows[h].step.Approve?
      modifies executor
      ensures Valid()
      ensures SentOnlySale(old(executor.books), executor.books)
      ensures NoFaults(executor.world) ==> ApprovalEnded(executor, resumes, old(executor.books), executor.books, h)
    {
      var b := executor.books;
      var t := b.rows[h].trade;
      var gas := executor.net(h).gas;
      var x := b.rows[h].(status := Confirmed, gas := Some(gas));
      var s := b.session.(status := SellPending, unreconciled := None);
      DecisionKeeps(executor.net, b, h, x, s);
      var f := Apply(b.session.status, Decided(b, h, x, s));
      if !f.Done? || !resumes {
        return;
      }
      ApprovalSettled(executor.net, b, h, x, s);
      SellRecovered(t, gas);
    }

    /** Sell under a trade whose approval is recorded, and write what became of it. */
    method SellRecovered(t: nat, gas: nat)
      requires Valid() && executor.books.session.status.SellPending?
      requires Addable(executor.net, executor.books, t, Sell) && gas == ApprovalGas(executor.net, executor.books.rows, t)
      modifies executor
      ensures Valid()
      ensures SentOnlySale(old(executor.books), executor.books)
      ensures forall h :: h in old(executor.books).rows ==> h in executor.books.rows && executor.books.rows[h] == old(executor.books).rows[h]
      ensures Smooth(executor.world) && Resellable(old(executor.books).session) ==>
        SaleEnded(executor, old(executor.books), executor.books, executor.books.session, Holding)
    {
      ghost var b := executor.books;
      var r := ResumeSell(Some((t, gas)));
      SentIsSale(executor.net, b, executor.books);
      if r.Some? {
        SessionKeeps(executor.net, executor.books, r.value);
        var f := Apply(SellPending, executor.books.(session := r.value));
      }
    }

    /** The position that a confirmed purchase or sale gives, when its balances can be read and make sense. */
    method MeasureTrade(h: nat, readable: bool) returns (s: Option<Session>)
      requires Valid() && Resumable(executor.books.rows, h) && !executor.books.rows[h].step.Approve?
      ensures s.Some? ==>
        Recordable(executor.net, executor.books, MeasuredRows(executor.net, executor.books, h), s.value)
        && if executor.books.rows[h].step.Buy? then Held(s.value) else SoldOut(s.value)
      ensures executor.net(h).success ==> s.Some? == (readable && Plausible(executor.net(h), executor.books.rows[h].step))
    {
      var b := executor.books;
      var x, gas := b.rows[h], executor.net(h).gas;
      var after := BalanceAfter(executor.net, b, h);
      ghost var rows := MeasuredRows(executor.net, b, h);
      s := None;
      if x.step.Buy? && readable && x.before - after >= gas {
        var e := Entry(x.trade, x.before - after - gas, gas);
        assert BoughtBy(executor.net, rows, e, h);
        s := Some(AfterPurchase(b.session, e));
      } else if x.step.Sell? && readable && after - x.before + gas >= 0 {
        var approvalGas := RecordedApprovalGas(x.trade, h);
        SaleMeasured(executor.net, b, h, approvalGas);
        s := Some(AfterSale(b.session, Exit(x.trade, after - x.before + gas, approvalGas + gas)));
      }
    }

    /** A confirmed purchase or sale: record the position, or leave it for review. */
    method SettleTrade(h: nat)
      requires Valid() && Resumable(executor.books.rows, h) && executor.net(h).success && !executor.books.rows[h].step.Approve?
      modifies executor
      ensures Valid() && executor.books.sent == old(executor.books).sent
      ensures NoFaults(executor.world) ==> TradeEnded(executor, old(executor.books), executor.books, h)
    {
      var b := executor.books;
      var x := b.rows[h].(status := Confirmed, gas := Some(executor.net(h).gas));
      var fault := executor.Tick();
      if fault.Dies? {
        return;
      }
      var readable := (x.after.Some? || (fault.Fine? && executor.world.agrees(executor.clock))) && executor.world.agrees(executor.clock + 1);
      var measured := MeasureTrade(h, readable);
      var s := b.session;
      if measured.Some? {
        s := measured.value;
        x := x.(after := Some(BalanceAfter(executor.net, b, h)));
        DecisionKeeps(executor.net, b, h, x, s);
        var f := Apply(b.session.status, Decided(b, h, x, s));
        if !f.Refused? || executor.books != b {
          return;
        }
      }
      // not measured, or measured but not recorded
      s := s.(status := ManualReview, unreconciled := Some(h));
      DecisionKeeps(executor.net, b, h, x, s);
      var f := Apply(b.session.status, Decided(b, h, x, s));
    }

    /** One claimed session.  What the network says about the selected transaction decides;
        something new is sent only if there is no such transaction or it is an approval
        that succeeded. */
    method Reconcile() returns (row: Option<nat>, saw: Observation)
      requires Valid()
      modifies executor
      ensures Valid()
      ensures !old(Claimable(executor.books.session)) ==> executor.books == old(executor.books)
      ensures row.Some? ==> row.value in old(executor.books).rows && saw == executor.world.sees(old(executor.clock))
      ensures old(Claimable(executor.books.session)) ==> exists trade :: Selected(old(executor.books), trade, row)
      ensures row.Some? && executor.books.sent != old(executor.books).sent ==>
        && old(executor.books).rows[row.value].step.Approve? && saw.Seen? && executor.net(row.value).success
        && SentOnlySale(old(executor.books), executor.books)
      ensures row.None? && executor.books.sent != old(executor.books).sent && !old(executor.books).session.status.SellPending? ==>
        NoBuyRows(old(executor.books))
      ensures row.Some? && saw.Pending? ==> executor.books == old(executor.books)
      ensures row.Some? && (saw.Absent? || saw.RpcError?) && executor.books != old(executor.books) ==>
        executor.books == old(executor.books).(session := old(executor.books).session.(status := ManualReview, unreconciled := row))
      ensures NoFaults(executor.world) && old(Claimable(executor.books.session)) ==>
        if row.None? then IntentEnded(executor, resumes, old(executor.books), executor.books)
        else RowEnded(executor, resumes, old(executor.books), executor.books, row.value, saw)
    {
      var b := executor.books;
      row, saw := None, Absent;
      if !Claimable(b.session) {
        return;
      }
      var trade;
      trade, row := Select();
      if row.None? {
        ResumeIntent();
        return;
      }
      var h := row.value;
      saw := executor.world.sees(executor.clock);
      match saw {
        case Pending =>
          var f := Apply(b.session.status, b);
        case Seen =>
          if !executor.net(h).success {
            SettleReverted(h);
          } else if b.rows[h].step.Approve? {
            SettleApproval(h);
          } else {
            SettleTrade(h);
          }
        case _ =>
          var s := b.session.(status := ManualReview, unreconciled := row);
          SessionKeeps(executor.net, b, s);
          var f := Apply(b.session.status, b.(session := s));
      }
    }

    /** Any sequence of live and recovery work, each piece ending wherever it is cut off. */
    method Run(work: seq<Work>)
      requires Valid()
      modifies executor
      ensures Valid()
    {
      for i := 0 to |work|
        invariant Valid()
      {
        match work[i] {
          case DoBuy => LiveBuy();
          case DoSell(manual) => LiveSell(manual);
          case Recover => var row, saw := Reconcile();
        }
      }
    }
  }

  /** A position that can be sold now. */
  predicate Sellable(b: Books, manual: bool) {
    && b.session.entry.Some? && b.session.exit.None?
    && (b.session.status.Holding? || (manual && b.session.status.ManualReview?))
    && (manual && b.session.unreconciled.Some? ==> b.session.unreconciled.value in b.rows && !b.rows[b.session.unreconciled.value].step.Sell?)
  }

  /** A sale that recovery can take up. */
  predicate Resellable(s: Session) {
    s.status.SellPending? && s.entry.Some? && s.exit.None?
  }

  /** What becomes of an intent that left no transaction, when nothing fails outside. */
  ghost predicate IntentEnded(e: TradeExecutor, resumes: bool, b: Books, c: Books) {
    if !resumes then
      c.session == b.session.(status := ManualReview)
    else if b.session.status.SellPending? then
      Smooth(e.world) && Resellable(b.session) ==> SaleEnded(e, b, c, c.session, Holding)
    else
      PurchaseEndedOrRejected(e, b, c, c.session) || (!Smooth(e.world) && c == b && b.session.status.RiskChecking?)
  }

  /** A receipt that says failure: its gas is recorded, and the session falls back. */
  ghost predicate RevertSettled(e: TradeExecutor, b: Books, c: Books, h: nat)
    requires h in b.rows
  {
    && c.session == b.session.(status := if b.rows[h].step.Buy? then RejectedSession else Holding, unreconciled := None)
    && h in c.rows && c.rows[h].status.Reverted? && c.rows[h].gas == Some(e.net(h).gas)
  }

  /** A confirmed approval: it is recorded, and the sale it was for follows. */
  ghost predicate ApprovalEnded(e: TradeExecutor, resumes: bool, b: Books, c: Books, h: nat)
    requires h in b.rows
  {
    && IsConfirmed(e.net, c, h, b.rows[h].trade, Approve)
    && (!resumes ==> c.sent == b.sent && c.session == b.session.(status := SellPending, unreconciled := None))
    && (resumes && Smooth(e.world) && b.session.entry.Some? && b.session.exit.None? ==> SaleEnded(e, b, c, c.session, Holding))
  }

  /** A confirmed purchase or sale: the position is recorded, or the session waits for review. */
  ghost predicate TradeEnded(e: TradeExecutor, b: Books, c: Books, h: nat)
    requires h in b.rows
  {
    var done := if b.rows[h].step.Buy? then Held(c.session) else SoldOut(c.session);
    && IsConfirmed(e.net, c, h, b.rows[h].trade, b.rows[h].step)
    && (done || Waits(c.session, h))
    && (Smooth(e.world) && Plausible(e.net(h), b.rows[h].step) ==> done)
  }

  /** What becomes of a session whose transaction `h` the network answered `saw` about, when nothing fails outside. */
  ghost predicate RowEnded(e: TradeExecutor, resumes: bool, b: Books, c: Books, h: nat, saw: Observation)
    requires h in b.rows
  {
    match saw
    case Pending => c == b
    case Seen =>
      if !e.net(h).success then RevertSettled(e, b, c, h)
      else if b.rows[h].step.Approve? then ApprovalEnded(e, resumes, b, c, h)
      else TradeEnded(e, b, c, h)
    case _ => c == b.(session := b.session.(status := ManualReview, unreconciled := Some(h)))
  }

  /** Of all awaits only the thirteenth fails: the write that would record the new position. */
  function OneLostWrite(): World {
    World((k: nat) => if k == 12 then Fails(false) else Fine, (k: nat) => false, (k: nat) => true, (k: nat) => 0, (k: nat) => Seen)
  }

  function PaidNetwork(): Network { (h: nat) => Mined(true, 1, -5) }

  /** A purchase that is mined, and paid for, ends as a rejected session. */
  method LostPurchase() returns (executor: TradeExecutor)
    ensures |executor.books.sent| == 1 && executor.net(executor.books.sent[0]).success
    ensures executor.books.session.status.RejectedSession? && executor.books.session.entry.Some?
  {
    FreshBooksAreSound(PaidNetwork());
    executor := new TradeExecutor(PaidNetwork(), OneLostWrite(), Books(NEW_SESSION, map[], map[], [], 0, 0));
    var desk := new Desk(executor, true);
    assert Buys(executor, executor.clock, 12, executor.books);
    desk.LiveBuy();
    assert executor.books.sent == [0];
  }

  datatype Work = DoBuy | DoSell(manual: bool) | Recover

  const NEW_SESSION := Session(WaitingFirstBuy, None, None, None)

  /** A pair just discovered. */
  lemma FreshBooksAreSound(net: Network)
    ensures Inv(net, Books(NEW_SESSION, map[], map[], [], 0, 0))
  {
  }

  function Decided(b: Books, h: nat, x: Tx, s: Session): Books {
    b.(rows := b.rows[h := x], session := s)
  }

  /** One transaction was sent, and it is a new sale. */
  ghost predicate NewSale(b: Books, c: Books) {
    && c.sent == b.sent + [b.nextHash]
    && b.nextHash in c.rows && b.nextHash !in b.rows && c.rows[b.nextHash].step.Sell?
  }

  ghost predicate SentOnlySale(b: Books, c: Books) {
    c.sent == b.sent || NewSale(b, c)
  }

  lemma SentIsSale(net: Network, b: Books, c: Books)
    requires Inv(net, b) && Inv(net, c) && OnlyNew(b, c, Sell)
    ensures SentOnlySale(b, c)
  {
    if c.sent != b.sent {
      assert c.sent[|b.sent|] == b.nextHash;
      assert b.nextHash in b.rows ==> RowOk(b, b.nextHash);
    }
  }

  lemma OnlyApproval(rows: map<nat, Tx>, t: nat, g: nat)
    requires OnePerStep(rows) && IsApproval(rows, t, g)
    ensures forall k :: IsApproval(rows, t, k) ==> k == g
  {
    forall k | IsApproval(rows, t, k) ensures k == g {
      SameStep(rows, k, g);
    }
  }

  /** The rows once the balance after `h` is known. */
  function MeasuredRows(net: Network, b: Books, h: nat): map<nat, Tx>
    requires h in b.rows
  {
    b.rows[h := b.rows[h].(status := Confirmed, gas := Some(net(h).gas), after := Some(BalanceAfter(net, b, h)))]
  }

  /** What `s` says about the position is either what was recorded before or true of `rows`. */
  ghost predicate Recordable(net: Network, b: Books, rows: map<nat, Tx>, s: Session) {
    && (s.entry == b.session.entry || (s.entry.Some? && EntryOk(net, rows, s.entry.value)))
    && (s.exit == b.session.exit || (s.exit.Some? && ExitOk(net, rows, s.exit.value)))
  }

  lemma SaleMeasured(net: Network, b: Books, h: nat, approvalGas: nat)
    requires Inv(net, b) && h in b.rows && b.rows[h].step.Sell? && approvalGas == ApprovalGas(net, b.rows, b.rows[h].trade)
    ensures var x := b.rows[h];
      ExitOk(net, MeasuredRows(net, b, h), Exit(x.trade, BalanceAfter(net, b, h) - x.before + net(h).gas, approvalGas + net(h).gas))
  {
    var x, rows := b.rows[h], MeasuredRows(net, b, h);
    SameOrder(b.rows, rows);
    ApprovalGasStays(net, b.rows, rows, x.trade);
    assert SoldBy(net, rows, Exit(x.trade, BalanceAfter(net, b, h) - x.before + net(h).gas, approvalGas + net(h).gas), h);
  }

  lemma SameOrder(rows: map<nat, Tx>, more: map<nat, Tx>)
    requires OnePerStep(rows) && more.Keys == rows.Keys
    requires forall h :: h in rows ==> more[h].trade == rows[h].trade && more[h].step == rows[h].step
    ensures OnePerStep(more)
  {
    forall g, h | g in more && h in more ensures InOrder(more, g, h) {
      assert InOrder(rows, g, h);
    }
  }

  /** A decision about one transaction keeps the books sound. */
  lemma DecisionKeeps(net: Network, b: Books, h: nat, x: Tx, s: Session)
    requires Inv(net, b) && Replaces(net, b, h, x) && !s.status.WaitingFirstBuy?
    requires s.unreconciled.Some? ==> Resumable(b.rows, s.unreconciled.value)
    requires Recordable(net, b, b.rows[h := x], s)
    ensures Inv(net, Decided(b, h, x, s))
  {
    UpdateKeeps(net, b, h, x);
    var c := WithUpdate(b, h, x);
    assert Storable(net, c, s);
    SessionKeeps(net, c, s);
    assert Decided(b, h, x, s) == c.(session := s);
  }

  lemma ApprovalSettled(net: Network, b: Books, h: nat, x: Tx, s: Session)
    requires Inv(net, b) && Resumable(b.rows, h) && b.rows[h].step.Approve?
    requires x == b.rows[h].(status := Confirmed, gas := Some(net(h).gas)) && s.unreconciled.None?
    requires Inv(net, Decided(b, h, x, s))
    ensures Addable(net, Decided(b, h, x, s), x.trade, Sell)
    ensures ApprovalGas(net, Decided(b, h, x, s).rows, x.trade) == net(h).gas
  {
    var c := Decided(b, h, x, s);
    assert RowOk(c, h) && IsApproval(c.rows, x.trade, h);
    ApprovalGasIs(net, c.rows, x.trade, h);
  }

  /** The greatest element, which stands for the most recently created. */
  method Latest(s: set<nat>) returns (m: Option<nat>)
    ensures IsLatest(s, m)
  {
    m := None;
    var rest := s;
    while rest != {}
      invariant rest <= s
      invariant m.None? ==> rest == s
      invariant m.Some? ==> m.value in s && forall x :: x in s && x !in rest ==> x <= m.value
    {
      var x :| x in rest;
      rest := rest - {x};
      if m.None? || m.value < x {
        m := Some(x);
      }
    }
  }

  lemma SelectionFits(net: Network, b: Books, side: Side, trade: Option<nat>, row: Option<nat>)
    requires Inv(net, b)
    requires trade.None? ==> TradesOf(b, side) == {}
    requires trade.Some? ==> trade.value in TradesOf(b, side) && forall t :: t in TradesOf(b, side) ==> t <= trade.value
    requires row.None? ==> trade.None? || RowsOf(b.rows, trade.value) == {}
    requires row.Some? ==> trade.Some? && row.value in RowsOf(b.rows, trade.value) && forall h :: h in RowsOf(b.rows, trade.value) ==> h <= row.value
    ensures row.Some? ==> Resumable(b.rows, row.value)
    ensures row.None? && side.BuySide? ==> NoBuyRows(b)
  {
    if row.Some? && b.rows[row.value].step.Approve? {
      forall g | g in b.rows && b.rows[g].trade == b.rows[row.value].trade ensures g == row.value {
        assert g in RowsOf(b.rows, trade.value);
        SameStep(b.rows, g, row.value);
        assert InOrder(b.rows, g, row.value);
      }
    }
    if row.None? && side.BuySide? {
      forall h | h in b.rows ensures !b.rows[h].step.Buy? {
        assert RowOk(b, h);
        assert b.rows[h].trade in TradesOf(b, b.trades[b.rows[h].trade]);
        assert h in RowsOf(b.rows, b.rows[h].trade);
      }
    }
  }
}
