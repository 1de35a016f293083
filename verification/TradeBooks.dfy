/** The durable books of one pair: its session, its trades, their transactions, and
    what has been handed to the network.  Everything a restart finds is here. */
module TradeBooks {
  import opened Blocks
  import opened ChainStore  // for MaxKey

  datatype Side = BuySide | SellSide

  datatype Step = Buy | Approve | Sell

  datatype TxStatus = PendingBroadcast | Broadcasted | Confirmed | Reverted | Rejected | Unknown

  /** A transaction row.  `before` and `after` are the wallet's native balance around it. */
  datatype Tx = Tx(trade: nat, step: Step, status: TxStatus, before: int, after: Option<int>, gas: Option<nat>)

  datatype SessionStatus =
    | WaitingFirstBuy | RiskChecking | BuyPending | Holding | SellPending | Closed | RejectedSession | ManualReview

  datatype Entry = Entry(trade: nat, principal: int, gas: nat)

  datatype Exit = Exit(trade: nat, proceeds: int, gas: nat)

  datatype Session = Session(status: SessionStatus, entry: Option<Entry>, exit: Option<Exit>, unreconciled: Option<nat>)

  /** The tables.  Trade identifiers and transaction hashes are handed out in increasing
      order, which stands for strictly increasing creation times. */
  datatype Books = Books(session: Session, trades: map<nat, Side>, rows: map<nat, Tx>, sent: seq<nat>,
                         nextTrade: nat, nextHash: nat)

  /** What the network makes of a transaction once it is mined. */
  datatype Mined = Mined(success: bool, gas: nat, transfer: int)

  type Network = nat -> Mined

  function SideOf(s: Step): Side { if s.Buy? then BuySide else SellSide }

  /** The change of the wallet's native balance that a mined transaction causes; an
      approval moves no native coin besides its gas. */
  function Net(net: Network, rows: map<nat, Tx>, h: nat): int
    requires h in rows
  {
    (if net(h).success && !rows[h].step.Approve? then net(h).transfer else 0) - net(h).gas
  }

  /** Row `h` was stored for a known trade of the right side. */
  predicate RowOk(b: Books, h: nat)
    requires h in b.rows
  {
    h < b.nextHash && b.rows[h].trade in b.trades && b.trades[b.rows[h].trade] == SideOf(b.rows[h].step)
  }

  ghost predicate RowsOk(b: Books) {
    && (forall h :: h in b.rows ==> RowOk(b, h))
    && forall t :: t in b.trades ==> t < b.nextTrade
  }

  /** A trade has at most one transaction per step, and its approval comes before its sale. */
  predicate InOrder(rows: map<nat, Tx>, g: nat, h: nat)
    requires g in rows && h in rows
  {
    g < h && rows[g].trade == rows[h].trade ==> rows[g].step.Approve? && rows[h].step.Sell?
  }

  ghost predicate OnePerStep(rows: map<nat, Tx>) {
    forall g, h :: g in rows && h in rows ==> InOrder(rows, g, h)
  }

  /** Nothing was handed to the network without its row, nor twice. */
  ghost predicate SentOk(b: Books) {
    && (forall i :: 0 <= i < |b.sent| ==> b.sent[i] in b.rows)
    && forall i, k :: 0 <= i < k < |b.sent| ==> b.sent[i] < b.sent[k]
  }

  /** A session may wait for row `h`: it exists, and if it is an approval nothing has been built on it. */
  ghost predicate Resumable(rows: map<nat, Tx>, h: nat) {
    h in rows && (rows[h].step.Approve? ==> forall g :: g in rows && rows[g].trade == rows[h].trade ==> g == h)
  }

  ghost predicate UnreconciledOk(b: Books) {
    b.session.unreconciled.Some? ==> Resumable(b.rows, b.session.unreconciled.value)
  }

  /** Only the latest buying trade has a transaction, and none before the session leaves its first state. */
  ghost predicate BuysOk(b: Books) {
    forall h :: h in b.rows && b.rows[h].step.Buy? ==>
      !b.session.status.WaitingFirstBuy? && forall t :: t in b.trades && b.trades[t].BuySide? ==> t <= b.rows[h].trade
  }

  /** A sale is only built on an approval whose success and gas are recorded. */
  predicate BuiltOn(net: Network, rows: map<nat, Tx>, g: nat, h: nat)
    requires g in rows && h in rows
  {
    rows[g].trade == rows[h].trade && rows[g].step.Approve? && rows[h].step.Sell? ==>
      rows[g].status.Confirmed? && rows[g].gas == Some(net(g).gas)
  }

  ghost predicate ApprovalsOk(net: Network, rows: map<nat, Tx>) {
    forall g, h :: g in rows && h in rows ==> BuiltOn(net, rows, g, h)
  }

  /** What a row records of the network is true. */
  predicate Truthful(net: Network, rows: map<nat, Tx>, h: nat)
    requires h in rows
  {
    && (rows[h].gas.Some? ==> rows[h].gas.value == net(h).gas)
    && (rows[h].after.Some? ==> rows[h].after.value == rows[h].before + Net(net, rows, h))
    && (rows[h].status.Confirmed? ==> net(h).success)
  }

  ghost predicate RowsTruthful(net: Network, rows: map<nat, Tx>) {
    forall h :: h in rows ==> Truthful(net, rows, h)
  }

  predicate IsApproval(rows: map<nat, Tx>, trade: nat, g: nat) {
    g in rows && rows[g].trade == trade && rows[g].step.Approve?
  }

  /** The gas of a trade's approval, zero when it needed none. */
  ghost function ApprovalGas(net: Network, rows: map<nat, Tx>, trade: nat): nat {
    if exists g :: IsApproval(rows, trade, g) then
      var g :| IsApproval(rows, trade, g); net(g).gas
    else 0
  }

  lemma ApprovalGasIs(net: Network, rows: map<nat, Tx>, trade: nat, g: nat)
    requires OnePerStep(rows) && IsApproval(rows, trade, g)
    ensures ApprovalGas(net, rows, trade) == net(g).gas
  {
    forall k | IsApproval(rows, trade, k) ensures k == g {
      assert InOrder(rows, k, g) && InOrder(rows, g, k);
    }
  }

  /** `h` bought the position: `e` separates its gas from what it paid. */
  predicate BoughtBy(net: Network, rows: map<nat, Tx>, e: Entry, h: nat) {
    h in rows && rows[h].trade == e.trade && rows[h].step.Buy? && e.gas == net(h).gas && e.principal == -Net(net, rows, h) - net(h).gas
  }

  /** `h` sold the position: `e` separates its proceeds from the gas of the sale and its approval. */
  ghost predicate SoldBy(net: Network, rows: map<nat, Tx>, e: Exit, h: nat) {
    && h in rows && rows[h].trade == e.trade && rows[h].step.Sell?
    && e.proceeds == Net(net, rows, h) + net(h).gas
    && e.gas == ApprovalGas(net, rows, e.trade) + net(h).gas
  }

  /** An entry states exactly what its transaction cost the wallet. */
  ghost predicate EntryOk(net: Network, rows: map<nat, Tx>, e: Entry) {
    exists h :: BoughtBy(net, rows, e, h)
  }

  /** An exit states exactly what its sale and its approval changed in the wallet. */
  ghost predicate ExitOk(net: Network, rows: map<nat, Tx>, e: Exit) {
    exists h :: SoldBy(net, rows, e, h)
  }

  ghost predicate PositionOk(net: Network, b: Books) {
    && (b.session.entry.Some? ==> EntryOk(net, b.rows, b.session.entry.value))
    && (b.session.exit.Some? ==> ExitOk(net, b.rows, b.session.exit.value))
  }

  ghost predicate Inv(net: Network, b: Books) {
    && RowsOk(b) && OnePerStep(b.rows) && SentOk(b) && UnreconciledOk(b) && BuysOk(b)
    && ApprovalsOk(net, b.rows) && RowsTruthful(net, b.rows) && PositionOk(net, b)
  }

  // ----------------------------------------------------------- main results

  /** The transaction handed to the network at position `i` is trade `t`'s `s`. */
  ghost predicate IsSent(b: Books, i: nat, t: nat, s: Step) {
    i < |b.sent| && b.sent[i] in b.rows && b.rows[b.sent[i]].trade == t && b.rows[b.sent[i]].step == s
  }

  /** Each step of each trade is handed to the network at most once, ever. */
  lemma AtMostOnce(net: Network, b: Books, i: nat, k: nat, t: nat, s: Step)
    requires Inv(net, b) && IsSent(b, i, t, s) && IsSent(b, k, t, s)
    ensures i == k
  {
    assert InOrder(b.rows, b.sent[i], b.sent[k]) && InOrder(b.rows, b.sent[k], b.sent[i]);
  }

  /** However often buying is retried under new trades, one session buys at most once. */
  lemma OneBuyPerSession(net: Network, b: Books, i: nat, k: nat)
    requires Inv(net, b) && i < |b.sent| && k < |b.sent|
    requires b.rows[b.sent[i]].step.Buy? && b.rows[b.sent[k]].step.Buy?
    ensures i == k
  {
    var g, h := b.sent[i], b.sent[k];
    assert RowOk(b, g) && RowOk(b, h);
    AtMostOnce(net, b, i, k, b.rows[g].trade, Buy);
  }

  /** What all transactions of the given trades together changed in the wallet. */
  ghost function WalletChange(net: Network, rows: map<nat, Tx>, keys: set<nat>, trades: set<nat>): int
    requires keys <= rows.Keys
    decreases |keys|
  {
    if keys == {} then 0 else
      var h := MaxKey(keys);
      WalletChange(net, rows, keys - {h}, trades) + if rows[h].trade in trades then Net(net, rows, h) else 0
  }

  /** The sum needs only the rows that belong to the trades. */
  lemma {:induction false} ChangeOf(net: Network, rows: map<nat, Tx>, keys: set<nat>, trades: set<nat>, own: set<nat>)
    requires keys <= rows.Keys && own == set h | h in keys && rows[h].trade in trades
    ensures WalletChange(net, rows, keys, trades) == WalletChange(net, rows, own, trades)
    decreases |keys|
  {
    if keys != {} {
      var h := MaxKey(keys);
      if h in own {
        assert MaxKey(own) == h;
        ChangeOf(net, rows, keys - {h}, trades, own - {h});
      } else {
        ChangeOf(net, rows, keys - {h}, trades, own);
      }
    }
  }

  lemma ChangeOne(net: Network, rows: map<nat, Tx>, h: nat, trades: set<nat>)
    requires h in rows && rows[h].trade in trades
    ensures WalletChange(net, rows, {h}, trades) == Net(net, rows, h)
  {
    assert MaxKey({h}) == h;
    assert {h} - {h} == {};
    assert WalletChange(net, rows, {}, trades) == 0;
  }

  lemma {:induction false} ChangeAdd(net: Network, rows: map<nat, Tx>, keys: set<nat>, x: nat, trades: set<nat>)
    requires keys <= rows.Keys && x in rows && x !in keys && rows[x].trade in trades
    ensures WalletChange(net, rows, keys + {x}, trades) == WalletChange(net, rows, keys, trades) + Net(net, rows, x)
    decreases |keys|
  {
    var all := keys + {x};
    var h := MaxKey(all);
    if h == x {
      assert all - {x} == keys;
    } else {
      assert MaxKey(keys) == h;
      assert all - {h} == (keys - {h}) + {x};
      ChangeAdd(net, rows, keys - {h}, x, trades);
    }
  }

  function RowsOf(rows: map<nat, Tx>, t: nat): set<nat> {
    set k | k in rows && rows[k].trade == t
  }

  lemma SameStep(rows: map<nat, Tx>, g: nat, h: nat)
    requires OnePerStep(rows) && g in rows && h in rows && rows[g].trade == rows[h].trade
    ensures g == h || (rows[g].step.Approve? && rows[h].step.Sell?) || (rows[g].step.Sell? && rows[h].step.Approve?)
  {
    assert InOrder(rows, g, h) && InOrder(rows, h, g);
  }

  /** The rows of one selling trade that has a sale: the sale, and its approval if any. */
  lemma SaleRows(net: Network, rows: map<nat, Tx>, t: nat, h: nat)
    requires OnePerStep(rows) && h in rows && rows[h].trade == t && rows[h].step.Sell?
    ensures WalletChange(net, rows, RowsOf(rows, t), {t}) == Net(net, rows, h) - ApprovalGas(net, rows, t)
  {
    ChangeOne(net, rows, h, {t});
    if exists g :: IsApproval(rows, t, g) {
      var g :| IsApproval(rows, t, g);
      ApprovalGasIs(net, rows, t, g);
      forall k | k in RowsOf(rows, t) ensures k == h || k == g {
        SameStep(rows, k, h);
        SameStep(rows, k, g);
      }
      assert RowsOf(rows, t) == {h} + {g};
      ChangeAdd(net, rows, {h}, g, {t});
    } else {
      forall k | k in RowsOf(rows, t) ensures k == h {
        assert !IsApproval(rows, t, k);
        SameStep(rows, k, h);
      }
      assert RowsOf(rows, t) == {h};
    }
  }

  lemma PurchaseRows(net: Network, rows: map<nat, Tx>, t: nat, h: nat)
    requires OnePerStep(rows) && h in rows && rows[h].trade == t && rows[h].step.Buy?
    ensures WalletChange(net, rows, RowsOf(rows, t), {t}) == Net(net, rows, h)
  {
    forall k | k in RowsOf(rows, t) ensures k == h {
      SameStep(rows, k, h);
    }
    assert RowsOf(rows, t) == {h};
    ChangeOne(net, rows, h, {t});
  }

  /** Conservation.  Wherever the process stopped on the way, and whether a leg was
      measured when it happened or by recovery, the realised result of a closed position
      is the change of the wallet's native balance over the transactions of its trades. */
  lemma Conservation(net: Network, b: Books)
    requires Inv(net, b) && b.session.entry.Some? && b.session.exit.Some?
    ensures var entry, exit := b.session.entry.value, b.session.exit.value;
      exit.proceeds - entry.principal - (entry.gas + exit.gas)
        == WalletChange(net, b.rows, b.rows.Keys, {entry.trade}) + WalletChange(net, b.rows, b.rows.Keys, {exit.trade})
  {
    var entry, exit := b.session.entry.value, b.session.exit.value;
    var h :| BoughtBy(net, b.rows, entry, h);
    var k :| SoldBy(net, b.rows, exit, k);
    PurchaseRows(net, b.rows, entry.trade, h);
    ChangeOf(net, b.rows, b.rows.Keys, {entry.trade}, RowsOf(b.rows, entry.trade));
    SaleRows(net, b.rows, exit.trade, k);
    ChangeOf(net, b.rows, b.rows.Keys, {exit.trade}, RowsOf(b.rows, exit.trade));
  }
}
